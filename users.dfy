/**
 * The profile endpoints of the users API: a lookup that projects one row of
 * the users table, and a partial update that merges the request's name,
 * phone and avatar into that row by SQL COALESCE and refreshes updated_at.
 */
module Users {
  import opened Wrappers

  /** A row of the users table. Nullable columns are `Option`s. */
  datatype UserRow = UserRow(
    id: nat,
    email: string,
    passwordHash: string,
    name: Option<string>,
    username: string,
    avatar: Option<string>,
    phone: Option<string>,
    status: string,
    role: string,
    createdAt: nat,
    updatedAt: nat)

  /**
   * The three profile members of a PUT body. `None` stands both for a member
   * that is missing (sent to the database as NULL) and for an explicit null.
   */
  datatype ProfilePatch = ProfilePatch(name: Option<string>, phone: Option<string>, avatar: Option<string>)

  /**
   * The columns a handler sends back. The GET projection includes the creation
   * time; the PUT RETURNING list does not, so there `createdAt` is `None`.
   * There is no password hash column in this type at all.
   */
  datatype ProfileView = ProfileView(
    id: nat,
    email: string,
    name: Option<string>,
    username: string,
    avatar: Option<string>,
    phone: Option<string>,
    status: string,
    role: string,
    createdAt: Option<nat>)

  /** A handler's reply: 200 with a body, or an error status with a message. */
  datatype Reply<T> = Ok(body: T) | Error(status: nat, message: string)

  const NotFound: Reply<ProfileView> := Error(404, "User not found")

  /** SQL COALESCE of two arguments: the first one that is not NULL. */
  function Coalesce<T>(first: Option<T>, second: Option<T>): (r: Option<T>)
    ensures r.Some? <==> first.Some? || second.Some?
    ensures first.Some? ==> r == first
    ensures first.None? ==> r == second
  {
    if first.Some? then first else second
  }

  /** The columns the profile merge may never touch agree in `a` and `b`. */
  ghost predicate SameIdentity(a: UserRow, b: UserRow) {
    && a.id == b.id
    && a.email == b.email
    && a.passwordHash == b.passwordHash
    && a.username == b.username
    && a.status == b.status
    && a.role == b.role
    && a.createdAt == b.createdAt
  }

  /** The profile fields of a row, the only ones a patch can change. */
  function ProfileFields(row: UserRow): (Option<string>, Option<string>, Option<string>) {
    (row.name, row.phone, row.avatar)
  }

  /**
   * The row the UPDATE statement leaves behind: each profile field takes the
   * patch's value when that value is not null and keeps the stored value
   * otherwise; updated_at becomes `now`; nothing else changes.
   */
  function MergeProfile(row: UserRow, patch: ProfilePatch, now: nat): (r: UserRow)
    ensures SameIdentity(row, r)
    ensures r.updatedAt == now
    ensures patch.name.Some? ==> r.name == patch.name
    ensures patch.name.None? ==> r.name == row.name
    ensures patch.phone.Some? ==> r.phone == patch.phone
    ensures patch.phone.None? ==> r.phone == row.phone
    ensures patch.avatar.Some? ==> r.avatar == patch.avatar
    ensures patch.avatar.None? ==> r.avatar == row.avatar
  {
    row.(
      name := Coalesce(patch.name, row.name),
      phone := Coalesce(patch.phone, row.phone),
      avatar := Coalesce(patch.avatar, row.avatar),
      updatedAt := now)
  }

  /** The patch made of `later`'s non-null members over `earlier`'s. */
  function ThenPatch(earlier: ProfilePatch, later: ProfilePatch): ProfilePatch {
    ProfilePatch(
      Coalesce(later.name, earlier.name),
      Coalesce(later.phone, earlier.phone),
      Coalesce(later.avatar, earlier.avatar))
  }

  /** Two updates in a row have the effect of one update with the combined patch. */
  lemma MergeSequence(row: UserRow, p: ProfilePatch, q: ProfilePatch, t1: nat, t2: nat)
    ensures MergeProfile(MergeProfile(row, p, t1), q, t2) == MergeProfile(row, ThenPatch(p, q), t2)
  {
  }

  /** Sending the same patch a second time changes no profile field. */
  lemma MergeIdempotent(row: UserRow, p: ProfilePatch, t1: nat, t2: nat)
    ensures ProfileFields(MergeProfile(MergeProfile(row, p, t1), p, t2)) == ProfileFields(MergeProfile(row, p, t1))
  {
    MergeSequence(row, p, p, t1, t2);
    assert ThenPatch(p, p) == p;
  }

  /** An empty body is a valid update that only refreshes updated_at. */
  lemma MergeEmptyPatch(row: UserRow, now: nat)
    ensures MergeProfile(row, ProfilePatch(None, None, None), now) == row.(updatedAt := now)
  {
  }

  /**
   * A patch with only a phone keeps the stored name; a patch with only a
   * name keeps the stored phone.
   */
  lemma MergeSingleField(row: UserRow, value: string, now: nat)
    ensures MergeProfile(row, ProfilePatch(None, Some(value), None), now)
            == row.(phone := Some(value), updatedAt := now)
    ensures MergeProfile(row, ProfilePatch(Some(value), None, None), now)
            == row.(name := Some(value), updatedAt := now)
  {
  }

  /** An empty string is not null, so it does overwrite the stored value. */
  lemma MergeEmptyStringOverwrites(row: UserRow, now: nat)
    ensures MergeProfile(row, ProfilePatch(Some(""), None, None), now).name == Some("")
  {
  }

  /** The GET projection: every column but the password hash and updated_at. */
  function SelectColumns(row: UserRow): (v: ProfileView)
    ensures v.id == row.id && v.email == row.email && v.username == row.username
    ensures v.name == row.name && v.avatar == row.avatar && v.phone == row.phone
    ensures v.status == row.status && v.role == row.role
    ensures v.createdAt == Some(row.createdAt)
  {
    ProfileView(row.id, row.email, row.name, row.username, row.avatar, row.phone,
                row.status, row.role, Some(row.createdAt))
  }

  /** The PUT RETURNING list: the GET projection without the creation time. */
  function ReturningColumns(row: UserRow): (v: ProfileView)
    ensures v == SelectColumns(row).(createdAt := None)
  {
    ProfileView(row.id, row.email, row.name, row.username, row.avatar, row.phone,
                row.status, row.role, None)
  }

  /**
   * Neither reply depends on the password hash: two rows that differ only
   * in it (and in updated_at) give the same replies.
   */
  lemma RepliesHideHash(a: UserRow, b: UserRow)
    requires a.(passwordHash := b.passwordHash, updatedAt := b.updatedAt) == b
    ensures SelectColumns(a) == SelectColumns(b)
    ensures ReturningColumns(a) == ReturningColumns(b)
  {
  }

  /** The users table, keyed by id. */
  class UsersTable {
    var rows: map<nat, UserRow>

    /** Every row is stored under its own id. */
    ghost predicate Valid()
      reads this
    {
      forall id :: id in rows ==> rows[id].id == id
    }

    constructor (initial: map<nat, UserRow>)
      requires forall id :: id in initial ==> initial[id].id == id
      ensures Valid() && rows == initial
    {
      rows := initial;
    }

    /** GET /profile for the authenticated `userId`: the row's projection, or 404. */
    function GetProfile(userId: nat): (r: Reply<ProfileView>)
      reads this
      requires Valid()
      ensures r.Ok? <==> userId in rows
      ensures r.Ok? ==> r.body == SelectColumns(rows[userId]) && r.body.id == userId
      ensures r.Error? ==> r == NotFound
    {
      if userId in rows then Ok(SelectColumns(rows[userId])) else NotFound
    }

    /**
     * PUT /profile for the authenticated `userId`: merges `patch` into that
     * row at time `now` and returns the RETURNING projection; 404 with the
     * table unchanged when there is no such row. Other rows never change.
     */
    method UpdateProfile(userId: nat, patch: ProfilePatch, now: nat) returns (r: Reply<ProfileView>)
      requires Valid()
      modifies this
      ensures Valid()
      ensures userId in old(rows) ==>
        && rows == old(rows)[userId := MergeProfile(old(rows)[userId], patch, now)]
        && r == Ok(ReturningColumns(rows[userId]))
      ensures userId !in old(rows) ==> rows == old(rows) && r == NotFound
      ensures rows.Keys == old(rows.Keys)
      ensures forall id :: id in old(rows) && id != userId ==> rows[id] == old(rows[id])
    {
      if userId !in rows {
        return NotFound;
      }
      var updated := MergeProfile(rows[userId], patch, now);
      rows := rows[userId := updated];
      r := Ok(ReturningColumns(updated));
    }
  }

  /**
   * A name-only update leaves the email that a later GET reports unchanged,
   * and the later GET shows the new name.
   */
  method TestPreserveEmail(row: UserRow, newName: string, now: nat) returns (before: Reply<ProfileView>, after: Reply<ProfileView>)
    ensures before.Ok? && after.Ok?
    ensures after.body.email == before.body.email
    ensures after.body.name == Some(newName)
  {
    var table := new UsersTable(map[row.id := row]);
    before := table.GetProfile(row.id);
    var _ := table.UpdateProfile(row.id, ProfilePatch(Some(newName), None, None), now);
    after := table.GetProfile(row.id);
  }
}
