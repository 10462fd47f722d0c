/**
 * The allocation tracker of the C++ test runner: a table of live allocations
 * keyed by address, plus four running counters (bytes allocated, bytes freed,
 * bytes currently live, and the peak of the current figure).
 */
module MemoryProfiler {

  /** A tracked address; `Null` plays the part of the null pointer. */
  type Address = nat

  const Null: Address := 0

  /**
   * One live allocation: the address and size passed to RecordAllocation,
   * and the call site (file and line) that recorded it.
   */
  datatype AllocationInfo = AllocationInfo(address: Address, size: nat, file: string, line: int)

  function Max(a: nat, b: nat): nat {
    if a < b then b else a
  }

  /** The sum of the sizes of the records stored at `keys`. */
  ghost function SizeSum(m: map<Address, AllocationInfo>, keys: set<Address>): nat
    requires keys <= m.Keys
    decreases keys
  {
    if keys == {} then 0
    else
      var k :| k in keys;
      m[k].size + SizeSum(m, keys - {k})
  }

  /** The number of bytes held by the live records of `m`. */
  ghost function LiveSize(m: map<Address, AllocationInfo>): nat {
    SizeSum(m, m.Keys)
  }

  /** Any record can be taken out of the sum first, whichever one the definition picks. */
  lemma {:induction false} SizeSumRemove(m: map<Address, AllocationInfo>, keys: set<Address>, k: Address)
    requires keys <= m.Keys && k in keys
    ensures SizeSum(m, keys) == m[k].size + SizeSum(m, keys - {k})
    decreases keys
  {
    var j :| j in keys && SizeSum(m, keys) == m[j].size + SizeSum(m, keys - {j});
    if j != k {
      SizeSumRemove(m, keys - {j}, k);
      SizeSumRemove(m, keys - {k}, j);
      assert keys - {j} - {k} == keys - {k} - {j};
    }
  }

  /** The sum depends only on the sizes stored at `keys`. */
  lemma {:induction false} SizeSumAgree(m1: map<Address, AllocationInfo>, m2: map<Address, AllocationInfo>, keys: set<Address>)
    requires keys <= m1.Keys && keys <= m2.Keys
    requires forall k :: k in keys ==> m1[k].size == m2[k].size
    ensures SizeSum(m1, keys) == SizeSum(m2, keys)
    decreases keys
  {
    if keys != {} {
      var k :| k in keys;
      SizeSumRemove(m1, keys, k);
      SizeSumRemove(m2, keys, k);
      SizeSumAgree(m1, m2, keys - {k});
    }
  }

  /**
   * Storing `info` at `p` adds its size to the live total and, when `p` was
   * already live, drops the size of the record it overwrites.
   */
  lemma LiveSizeStore(m: map<Address, AllocationInfo>, p: Address, info: AllocationInfo)
    ensures LiveSize(m[p := info]) + (if p in m then m[p].size else 0) == LiveSize(m) + info.size
  {
    var m' := m[p := info];
    SizeSumRemove(m', m'.Keys, p);
    assert m'.Keys - {p} == m.Keys - {p};
    SizeSumAgree(m', m, m.Keys - {p});
    if p in m {
      SizeSumRemove(m, m.Keys, p);
    } else {
      assert m.Keys - {p} == m.Keys;
    }
  }

  /** Erasing a live record takes exactly its size out of the live total. */
  lemma LiveSizeErase(m: map<Address, AllocationInfo>, p: Address)
    requires p in m
    ensures LiveSize(m - {p}) + m[p].size == LiveSize(m)
  {
    SizeSumRemove(m, m.Keys, p);
    assert (m - {p}).Keys == m.Keys - {p};
    SizeSumAgree(m - {p}, m, m.Keys - {p});
  }

  class Profiler {
    var allocations: map<Address, AllocationInfo>
    var totalAllocated: nat
    var totalFreed: nat
    var peakMemoryUsage: nat
    var currentMemoryUsage: nat

    /**
     * The invariant every operation keeps: no record for the null address,
     * each record filed under its own address, current usage equal to
     * allocated minus freed, peak at least current, and the live records
     * never holding more bytes than current usage says.
     */
    ghost predicate Valid()
      reads this
    {
      && Null !in allocations
      && (forall a :: a in allocations ==> allocations[a].address == a)
      && currentMemoryUsage + totalFreed == totalAllocated
      && currentMemoryUsage <= peakMemoryUsage
      && LiveSize(allocations) <= currentMemoryUsage
    }

    /** A fresh profiler: no records and all four counters zero. */
    constructor ()
      ensures Valid()
      ensures allocations == map[]
      ensures totalAllocated == 0 && totalFreed == 0
      ensures peakMemoryUsage == 0 && currentMemoryUsage == 0
    {
      allocations := map[];
      totalAllocated, totalFreed := 0, 0;
      peakMemoryUsage, currentMemoryUsage := 0, 0;
    }

    /**
     * Records `size` bytes at `ptr`. A null pointer is ignored. Recording an
     * address that is already live overwrites its record but still adds the
     * new size, so current usage can then exceed the live total.
     */
    method RecordAllocation(ptr: Address, size: nat, file: string, line: int)
      requires Valid()
      modifies this
      ensures Valid()
      ensures ptr == Null ==> unchanged(this)
      ensures ptr != Null ==>
        && allocations == old(allocations)[ptr := AllocationInfo(ptr, size, file, line)]
        && totalAllocated == old(totalAllocated) + size
        && totalFreed == old(totalFreed)
        && currentMemoryUsage == old(currentMemoryUsage) + size
        && peakMemoryUsage == Max(old(peakMemoryUsage), currentMemoryUsage)
      ensures ptr != Null ==>
        LiveSize(allocations) + (if ptr in old(allocations) then old(allocations)[ptr].size else 0)
        == old(LiveSize(allocations)) + size
    {
      if ptr == Null {
        return;
      }
      var info := AllocationInfo(ptr, size, file, line);
      LiveSizeStore(allocations, ptr, info);
      allocations := allocations[ptr := info];
      totalAllocated := totalAllocated + size;
      currentMemoryUsage := currentMemoryUsage + size;
      if currentMemoryUsage > peakMemoryUsage {
        peakMemoryUsage := currentMemoryUsage;
      }
    }

    /**
     * Forgets the record at `ptr`, moving its size from current usage to
     * the freed total. A null or untracked address changes nothing. The
     * subtraction from current usage never goes below zero.
     */
    method RecordDeallocation(ptr: Address)
      requires Valid()
      modifies this
      ensures Valid()
      ensures ptr == Null || ptr !in old(allocations) ==> unchanged(this)
      ensures ptr != Null && ptr in old(allocations) ==>
        && allocations == old(allocations) - {ptr}
        && totalAllocated == old(totalAllocated)
        && totalFreed == old(totalFreed) + old(allocations)[ptr].size
        && currentMemoryUsage == old(currentMemoryUsage) - old(allocations)[ptr].size
        && peakMemoryUsage == old(peakMemoryUsage)
        && LiveSize(allocations) + old(allocations)[ptr].size == old(LiveSize(allocations))
    {
      if ptr == Null {
        return;
      }
      if ptr in allocations {
        var size := allocations[ptr].size;
        LiveSizeErase(allocations, ptr);
        totalFreed := totalFreed + size;
        currentMemoryUsage := currentMemoryUsage - size;
        allocations := allocations - {ptr};
      }
    }

    /** True exactly when some address is still recorded as live. */
    function HasMemoryLeaks(): (leaks: bool)
      reads this
      ensures leaks <==> exists a :: a in allocations
    {
      allocations != map[]
    }

    /** The number of live records; zero exactly when there is no leak. */
    function GetLeakCount(): (count: nat)
      reads this
      ensures count == |allocations.Keys|
      ensures count == 0 <==> !HasMemoryLeaks()
    {
      |allocations|
    }

    /** Adds up the sizes of the live records, one record at a time. */
    method GetLeakSize() returns (totalLeaked: nat)
      requires Valid()
      ensures totalLeaked == LiveSize(allocations)
      ensures totalLeaked <= currentMemoryUsage
    {
      totalLeaked := 0;
      var remaining := allocations.Keys;
      while remaining != {}
        invariant remaining <= allocations.Keys
        invariant totalLeaked + SizeSum(allocations, remaining) == LiveSize(allocations)
        decreases remaining
      {
        var a :| a in remaining;
        SizeSumRemove(allocations, remaining, a);
        totalLeaked := totalLeaked + allocations[a].size;
        remaining := remaining - {a};
      }
    }

    /** Empties the table and zeroes all four counters. */
    method Reset()
      requires Valid()
      modifies this
      ensures Valid()
      ensures allocations == map[]
      ensures totalAllocated == 0 && totalFreed == 0
      ensures peakMemoryUsage == 0 && currentMemoryUsage == 0
    {
      allocations := map[];
      totalAllocated := 0;
      totalFreed := 0;
      peakMemoryUsage := 0;
      currentMemoryUsage := 0;
    }

    /** The highest current usage seen since construction or the last reset. */
    function GetPeakMemoryUsage(): (peak: nat)
      reads this
      requires Valid()
      ensures peak >= GetCurrentMemoryUsage()
    {
      peakMemoryUsage
    }

    /** Bytes allocated and not yet freed; covers every live record. */
    function GetCurrentMemoryUsage(): (current: nat)
      reads this
      requires Valid()
      ensures current + totalFreed == totalAllocated
      ensures LiveSize(allocations) <= current
    {
      currentMemoryUsage
    }
  }

  // Range and the three lemmas after it are set facts that only the
  // multiple-allocation test below uses; they say nothing about the profiler.

  /** The addresses `lo` up to but excluding `hi` (a helper of TestMultipleAllocations). */
  ghost function Range(lo: nat, hi: nat): set<Address>
    decreases hi
  {
    if hi <= lo then {} else Range(lo, hi - 1) + {hi - 1}
  }

  lemma {:induction false} RangeMembers(lo: nat, hi: nat, a: Address)
    ensures a in Range(lo, hi) <==> lo <= a < hi
    decreases hi
  {
    if lo < hi {
      RangeMembers(lo, hi - 1, a);
    }
  }

  lemma {:induction false} RangeDropLow(lo: nat, hi: nat)
    requires lo < hi
    ensures Range(lo + 1, hi) == Range(lo, hi) - {lo}
  {
    forall a: Address ensures a in Range(lo + 1, hi) <==> a in Range(lo, hi) - {lo} {
      RangeMembers(lo + 1, hi, a);
      RangeMembers(lo, hi, a);
    }
  }

  lemma {:induction false} RangeSize(lo: nat, hi: nat)
    requires lo <= hi
    ensures |Range(lo, hi)| == hi - lo
    decreases hi
  {
    if lo < hi {
      RangeSize(lo, hi - 1);
      RangeMembers(lo, hi - 1, hi - 1);
    }
  }

  /** One allocation left unfreed is reported as a leak. */
  method TestMemoryLeak() returns (leaks: bool)
    ensures leaks
  {
    var profiler := new Profiler();
    profiler.Reset();
    profiler.RecordAllocation(1000, 400, "memory_tests.cpp", 14);
    leaks := profiler.HasMemoryLeaks();
  }

  /** An allocation freed again leaves no leak. */
  method TestNoLeak() returns (leaks: bool)
    ensures !leaks
  {
    var profiler := new Profiler();
    profiler.Reset();
    profiler.RecordAllocation(1000, 400, "memory_tests.cpp", 34);
    profiler.RecordDeallocation(1000);
    leaks := profiler.HasMemoryLeaks();
  }

  /** Ten allocations of which the first five are freed leave five leaks. */
  method TestMultipleAllocations() returns (leakCount: nat)
    ensures leakCount == 5
  {
    var profiler := new Profiler();
    profiler.Reset();
    var i := 0;
    while i < 10
      invariant 0 <= i <= 10
      invariant profiler.Valid()
      invariant profiler.allocations.Keys == Range(1, i + 1)
    {
      profiler.RecordAllocation(i + 1, 200, "memory_tests.cpp", 58);
      i := i + 1;
    }
    i := 0;
    while i < 5
      invariant 0 <= i <= 5
      invariant profiler.Valid()
      invariant profiler.allocations.Keys == Range(i + 1, 11)
    {
      profiler.RecordDeallocation(i + 1);
      RangeDropLow(i + 1, 11);
      i := i + 1;
    }
    RangeSize(6, 11);
    leakCount := profiler.GetLeakCount();
  }

  /** A second allocation on top of a first one raises the peak. */
  method TestPeakMemory() returns (firstPeak: nat, secondPeak: nat)
    ensures secondPeak > firstPeak
  {
    var profiler := new Profiler();
    profiler.Reset();
    profiler.RecordAllocation(1000, 4000, "memory_tests.cpp", 132);
    firstPeak := profiler.GetPeakMemoryUsage();
    profiler.RecordAllocation(2000, 8000, "memory_tests.cpp", 139);
    secondPeak := profiler.GetPeakMemoryUsage();
  }

  /**
   * Recording an address that is still live replaces its record yet adds the
   * new size again, so current usage then exceeds the size of the live records.
   */
  method TestRecordTwice() returns (leakSize: nat, current: nat)
    ensures leakSize == 50 && current == 150
  {
    var profiler := new Profiler();
    profiler.RecordAllocation(1000, 100, "caller.cpp", 1);
    profiler.RecordAllocation(1000, 50, "caller.cpp", 2);
    leakSize := profiler.GetLeakSize();
    current := profiler.GetCurrentMemoryUsage();
    LiveSizeSingle(profiler.allocations, 1000);
  }

  /** A table with a single record holds exactly that record's bytes. */
  lemma LiveSizeSingle(m: map<Address, AllocationInfo>, p: Address)
    requires m.Keys == {p}
    ensures LiveSize(m) == m[p].size
  {
    SizeSumRemove(m, m.Keys, p);
    assert m.Keys - {p} == {};
  }
}
