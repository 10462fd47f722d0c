# TestRunner-Pro core logic in Dafny

This project models three small pieces of logic in the TestRunner-Pro
repository and proves properties about them:

- **The C++ allocation tracker** (`MemoryProfiler`). It is a table of live
  allocations keyed by address, plus four counters: bytes allocated, bytes
  freed, bytes currently in use, and the peak of current use. In the model it
  is the class `MemoryProfiler.Profiler`. It has a `map` field and methods that
  change it in place. Its invariant `Valid()` holds after every operation. It
  says:
  - current use equals allocated minus freed;
  - peak is at least current;
  - the bytes held by live records never exceed current use, so the
    subtraction on deallocation never goes below zero;
  - every record is filed under its own address, and never under null.
- **The profile endpoints of the users API** (`users.js`). GET is a lookup
  and column projection. PUT merges name, phone and avatar into one row
  with SQL `COALESCE` and refreshes `updated_at`. The table is the class
  `Users.UsersTable`, a map from id to row. The merge is the pure function
  `Users.MergeProfile`. Both return 404 "User not found" when the row is
  absent.
- **The registration form** (`RegisterPage.jsx`). This covers:
  - `validate()`, with its field-tagged messages and the email pattern
    `^[^\s@]+@[^\s@]+\.[^\s@]+$`;
  - the gate before the request is sent;
  - the loop that turns the server's `{field, message}` list into a map;
  - the fallback general messages;
  - `handleChange`'s update of form and error state.

Clock values and the authenticated user id are parameters. The current time
is `now`, and the id is `userId` (the result of the token check). The
profiler's null pointer is address 0.

## Model

| member | source | states |
|---|---|---|
| `MemoryProfiler.Profiler.constructor` | cpp/include/memory_profiler.h:21-26 | a fresh profiler has no records and all four counters at zero, and satisfies the invariant |
| `MemoryProfiler.Profiler.RecordAllocation` | cpp/src/memory_profiler.cpp:7-26 | null is a no-op; otherwise stores the address, size, file and line as given, adds the size to allocated and current, sets peak to the larger of old peak and new current, leaves freed alone, and keeps the invariant; the live total changes by the new size minus any overwritten record's size |
| `MemoryProfiler.Profiler.RecordDeallocation` | cpp/src/memory_profiler.cpp:28-39 | null or an untracked address changes nothing; a tracked one loses exactly its record, its size moves from current to freed without underflow, allocated and peak stay, and the invariant holds |
| `MemoryProfiler.Profiler.HasMemoryLeaks` | cpp/src/memory_profiler.cpp:76-79 | true exactly when some address is still recorded |
| `MemoryProfiler.Profiler.GetLeakCount` | cpp/src/memory_profiler.cpp:81-84 | the number of recorded addresses, zero exactly when there is no leak |
| `MemoryProfiler.Profiler.GetLeakSize` | cpp/src/memory_profiler.cpp:86-93 | the loop's total is the sum of the live records' sizes, and that never exceeds current usage |
| `MemoryProfiler.Profiler.Reset` | cpp/src/memory_profiler.cpp:95-102 | empties the table and zeroes all four counters |
| `MemoryProfiler.Profiler.GetPeakMemoryUsage` | cpp/include/memory_profiler.h:42 | reads peak without changing state; peak is never below current usage |
| `MemoryProfiler.Profiler.GetCurrentMemoryUsage` | cpp/include/memory_profiler.h:43 | reads current usage without changing state; it equals allocated minus freed and covers every live record |
| `MemoryProfiler.SizeSumRemove` | cpp/src/memory_profiler.cpp:89-91 | the sum of live sizes can take any one record out first: the order of iteration does not matter |
| `MemoryProfiler.SizeSumAgree` | cpp/src/memory_profiler.cpp:89-91 | the sum depends only on the sizes stored at the addresses summed |
| `MemoryProfiler.LiveSizeStore` | cpp/src/memory_profiler.cpp:19-21 | storing a record adds its size to the live total and drops the size of the record it overwrites |
| `MemoryProfiler.LiveSizeErase` | cpp/src/memory_profiler.cpp:35-37 | erasing a record takes exactly its size out of the live total, so that size is at most current usage |
| `MemoryProfiler.LiveSizeSingle` | cpp/src/memory_profiler.cpp:86-93 | a table with one record holds exactly that record's bytes |
| `MemoryProfiler.RangeSize` | cpp/tests/memory_tests.cpp:55-61 | the ten addresses of the multiple-allocation test are distinct, so they make ten keys |
| `MemoryProfiler.RangeDropLow` | cpp/tests/memory_tests.cpp:64-67 | freeing the lowest remaining address removes just that key |
| `MemoryProfiler.RangeMembers` | cpp/tests/memory_tests.cpp:55-61 | an address is among the test's addresses exactly when it lies in their range |
| `MemoryProfiler.TestMemoryLeak` | cpp/tests/memory_tests.cpp:8-26 | one unfreed allocation is reported as a leak |
| `MemoryProfiler.TestNoLeak` | cpp/tests/memory_tests.cpp:28-47 | allocating then freeing the same address leaves no leak |
| `MemoryProfiler.TestMultipleAllocations` | cpp/tests/memory_tests.cpp:49-73 | ten allocations with the first five freed leave a leak count of five |
| `MemoryProfiler.TestPeakMemory` | cpp/tests/memory_tests.cpp:126-148 | a second allocation raises the peak above the first one |
| `MemoryProfiler.TestRecordTwice` | cpp/src/memory_profiler.cpp:19-21 | recording a live address again overwrites the record but adds the size again, so current usage (150) exceeds the leak size (50) |
| `Users.Coalesce` | src/api/users.js:33-35 | the first non-NULL argument, and NULL only when both are NULL |
| `Users.MergeProfile` | src/api/users.js:29-37 | each of name, phone and avatar takes the patch value when it is non-null and keeps the stored value otherwise; id, email, password hash, username, status, role and creation time never change; updated_at becomes the current time |
| `Users.MergeSequence` | src/api/users.js:33-35 | two updates in a row equal one update whose patch takes the later non-null values over the earlier ones |
| `Users.MergeIdempotent` | src/api/users.js:33-35 | sending the same patch twice leaves the same profile fields as sending it once |
| `Users.MergeEmptyPatch` | src/api/users.js:33-36 | an empty body succeeds and changes only updated_at |
| `Users.MergeSingleField` | src/api/users.js:33-35 | a phone-only patch changes only the phone; a name-only patch changes only the name (besides updated_at) |
| `Users.MergeEmptyStringOverwrites` | src/api/users.js:33 | an empty string is not null, so it overwrites the stored name |
| `Users.SelectColumns` | src/api/users.js:11 | the GET projection carries every selected column of the row (id, email, name, username, avatar, phone, status, role, creation time) and has no password hash column |
| `Users.ReturningColumns` | src/api/users.js:38 | the PUT projection is the GET projection without the creation time |
| `Users.RepliesHideHash` | src/api/users.js:11 | rows that differ only in password hash (and updated_at) give identical GET and PUT replies |
| `Users.UsersTable.constructor` | src/api/users.js:31-37 | a table built from rows stored under their own ids |
| `Users.UsersTable.GetProfile` | src/api/users.js:10-19 | a stored id yields its GET projection; a missing id yields 404 "User not found" |
| `Users.UsersTable.UpdateProfile` | src/api/users.js:31-46 | a stored id has exactly its row replaced by the merge and gets the PUT projection back; a missing id yields 404 with the table unchanged; no other row changes and no row is added or removed |
| `Users.TestPreserveEmail` | tests/integration/api-extended.test.js:342-357 | after a name-only update a later GET shows the new name and the same email as before |
| `RegisterPage.IndexOf` | src/client/pages/RegisterPage.jsx:34 | -1 exactly when the character is absent; otherwise the position of its first occurrence |
| `RegisterPage.NoWhitespaceAt` | src/client/pages/RegisterPage.jsx:34 | the recursive whitespace scan holds exactly when no character is in `\s` |
| `RegisterPage.EmailCheckIsPattern` | src/client/pages/RegisterPage.jsx:34 | the recursive email scan accepts exactly what the pattern describes: one `@` with something before it, a `.` with something between the two and after it, and no whitespace |
| `RegisterPage.IsValidEmail` | src/client/pages/RegisterPage.jsx:34 | the pattern test holds exactly for the strings the pattern describes, which `EmailCheckIsPattern` ties to the scan |
| `RegisterPage.PrintableAsciiIsWordChar` | src/client/pages/RegisterPage.jsx:34 | every visible ASCII character other than `@` matches `[^\s@]` |
| `RegisterPage.RejectsNoAt` | src/client/pages/RegisterPage.jsx:34 | `notanemail` is rejected |
| `RegisterPage.RejectsEmptyLocalPart` | src/client/pages/RegisterPage.jsx:34 | `@example.com` is rejected |
| `RegisterPage.RejectsMissingDomain` | src/client/pages/RegisterPage.jsx:34 | `test@` is rejected |
| `RegisterPage.AcceptsPlusTag` | src/client/pages/RegisterPage.jsx:34 | `test+tag@example.com` is accepted |
| `RegisterPage.Utf16Length` | src/client/pages/RegisterPage.jsx:40 | a string's JavaScript length lies between its character count and twice that |
| `RegisterPage.Utf16LengthOfBmp` | src/client/pages/RegisterPage.jsx:40 | for text in the Basic Multilingual Plane the JavaScript length is the character count |
| `RegisterPage.Validate` | src/client/pages/RegisterPage.jsx:25-49 | keys lie within name, email, password and confirmPassword; each is present exactly when its check fails, with the message the source gives (required versus format or length); the map is empty exactly when every check passes |
| `RegisterPage.PasswordBoundary` | src/client/pages/RegisterPage.jsx:38-42 | a 7-character password gets the length error and an 8-character one none |
| `RegisterPage.BeginSubmit` | src/client/pages/RegisterPage.jsx:54-72 | the request is sent exactly when validation found nothing, and it carries name, email and password but not the confirmation; otherwise the validation errors are shown |
| `RegisterPage.FieldMessages` | src/client/pages/RegisterPage.jsx:78-81 | the keys of the built map are exactly the fields named in the list |
| `RegisterPage.FieldMessagesLastWins` | src/client/pages/RegisterPage.jsx:79-81 | each field maps to the message of its last entry in the list |
| `RegisterPage.CollectFieldErrors` | src/client/pages/RegisterPage.jsx:78-81 | the forEach loop builds exactly the left-to-right map |
| `RegisterPage.ErrorsAfterReply` | src/client/pages/RegisterPage.jsx:76-95 | a server list is mapped field by field (an empty list gives no errors); without one, "general" holds the server's error when it is a non-empty string and "Registration failed" otherwise; a network failure shows its own general message; success leaves no errors |
| `RegisterPage.HasError` | src/client/pages/RegisterPage.jsx:20 | the truthiness of `errors[name]`: the key is present and its message is not the empty string |
| `RegisterPage.HandleChange` | src/client/pages/RegisterPage.jsx:17-23 | the edited field takes the new value and every other field stays; a showing error of that field is blanked to the empty string, and no other error changes |
| `RegisterPage.HandleChangeIdempotent` | src/client/pages/RegisterPage.jsx:17-23 | typing the same value twice has the effect of typing it once |

## Left out

- `printMemoryReport`: console output plus a floating-point reduction percentage, so there is nothing to state about state changes.
- The profiler's mutex and its `getInstance` singleton: locking and global lifetime. The model is single-threaded, and each object stands for the one instance.
- `AllocationInfo.timestamp`: a clock reading that no operation uses.
- `size_t` wrap-around: sizes and counters are unbounded naturals. The invariant shows that the one subtraction never underflows.
- Addresses are naturals with 0 for null. Pointer identity and aliasing of real memory are not modelled.
- The token check `authenticateToken`, password hashing and token issue: `src/middleware/auth.js` and `src/api/auth.js` are not part of this model. The handlers take the authenticated user id as a parameter.
- The 500 replies of both profile handlers: they come from database or infrastructure failures that the model has no counterpart for.
- The users table schema is not part of this model. So name, phone and avatar are all nullable, and `COALESCE` of two NULLs stays NULL. Status and role are kept as the strings the row holds.
- Non-string JSON values in the PUT body (numbers, booleans) are not modelled. A member is either a string or absent/null.
- `ErrorsAfterReply`: `NetworkFailure` stands for every exception in the request block. This includes a reply body that is not JSON, which is parsed before the status is tested. A truthy `errors` member that is not an array, and entries whose `field` is not a string, are not modelled.
- The success branch of registration, which writes `localStorage`, calls `onRegister` and navigates, and the `loading` flag: UI and browser storage.
- `IsJsWhitespace`: `\s` is written out as the ECMAScript WhiteSpace and LineTerminator code points, with the space separators listed for the current Unicode version. A future Unicode version that adds a space separator is not followed.
- React's batching of the two state setters in `handleChange`, and its use of the rendered `errors` instead of the pending one: the model applies both updates to one state.
- The rest of the client (rendering, routing, other pages), the Express wiring, the database pool and the test-data generator.
