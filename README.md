# Infotech Auto Attendance: a verified model of the orchestration core

This project models, in Dafny, the attendance automation at the heart of the
Infotech Auto Attendance service. It is a NestJS application that clocks its
users in and out with an external attendance provider at randomised times.

- **The roster.** A cron handler reads the roster, which is every user together with that user's active attendance settings. The read goes through a 24-hour cache.
- **The dispatch.** The roster is shuffled with Fisher–Yates. One `auto-clock-in` job per entry is enqueued on a delayed queue, with a random delay drawn from one of two windows.
- **The clock-in.** When a job becomes due, the provider is called. On success, the user's cached history is deleted. A success or failure mail goes to the mail lane when the user subscribed.
- **The user flows.** A login looks the user up in the store, or in the cache, with a bcrypt-checked app password. Any other request type asks the provider. Registration upserts the user and the user's attendance settings. A password change replaces the stored hash.
- **The history.** The history and location endpoints read the provider's history through a one-hour cache, then paginate it or de-duplicate it by location.
- **The request guard.** A guard checks inbound requests against a one-time token, which is the encryption of a formula over the request.

## How the model is built

The model follows the shape of the source:
- `AttendanceService`, `TaskService` and `UserService` are Dafny classes. They work on shared mutable objects: the cache (a key to value-and-TTL map), the clock-in queue and the mail lane (append-only sequences), and the database (the user table and the attendance table).
- `shuffleArray` keeps its in-place swap loop on an `array`, and both dispatch loops keep their `while`/`for` loops.
- Every method is proved equal to a pure function of the old state and the inputs. These functions live in `AttendanceFlow` and `UserFlow`, and the lemmas are proved about them.
- Pure code is a function: `paginate`, `getDelay`, the location reduce/map, `excludeField`, the guard, the time-zone choice and the message and code selection.

The outside world enters as parameters:
- each `Math.random()` call is a draw `u` in `[0, 1)`, and the model computes `Math.floor(u * c)` itself;
- the provider's reply is a tagged value;
- `bcrypt.compare` is an uninterpreted `matches(plain, hash)`, and `bcrypt.hash` is the hash value it would return;
- `encrypt` is an uninterpreted `string -> Option<string>`, where `None` is the service's `null` on failure;
- the random IMEI is a string;
- each database failure is an optional thrown error for that call.

A caught JavaScript error is a `Thrown` value. It carries `message`, the HTTP `status` of a Nest exception, and the `code` string of a database error. A TypeError raised by reading a property of `null` or `undefined` is modelled with Node's message text.

### Where the design description and the code differ (the model follows the code)

- **The roster is every user, not only the active ones.** The `isActive: 1` filter applies only to the included `attendanceData` relation. An inactive user is therefore in the roster with a `null` record.
- **The attendance dispatch is not best-effort.** Reading `isImmediate` of a `null` record throws inside the `for…of` loop. This ends the cycle after the jobs already enqueued (`DispatchAbortsAtMissingRecord`). The task service's loop has no shuffle and no delay: every job gets the settings `{}`.
- **Storing attendance settings only invalidates `attendances-data`.** The user's `history-{email}` entry is left alone.
- **The history fetch never returns `null`.** The guard in `fetchHistoryFromInfotech` is `!historyData && historyData.data.length === 0`. On a `null` reply it throws a TypeError, which the history endpoint reports as a failure. Its `No history data found.` branch is unreachable in the model.
- **`attendanceClockIn` counts a provider call as failed only when it rejects.** The result of `fetchApi` is ignored, and `fetchApi` returns `null` on a network error, so that case counts as success.
- **`buildUserToken` receives its first two arguments swapped.** It is called with `(email, imei, employeeId)` but declares `(imei, email, employeeId)`, so the token's formula records the email under `imei` and the IMEI under `email` (`UserTokenHasSwappedFields`).

## Model

| member | source | states |
|---|---|---|
| Common.FloorTimes | src/attendance/attendance.service.ts:386 | `Math.floor(u * c)` for a draw `u` in `[0,1)` lies in `[0, c)` when `c > 0`, and is `0` when `c == 0` |
| Common.FloorTimesIsFloor | src/attendance/attendance.service.ts:386 | the repeated-addition form equals the floor of the real product `u * c` |
| Helper.ExcludeField | src/helper/helper.service.ts:21-25 | no surviving key is in `keys`; every surviving entry comes from the input; every input entry whose key is not in `keys` survives with its value; the result is no longer than the input |
| Helper.ExcludeFieldKeepsOrder | src/helper/helper.service.ts:23 | the survivors are a subsequence of the input (filter order) |
| Helper.ExcludeNothing | src/helper/helper.service.ts:21-25 | with no keys to exclude the result equals the input |
| Helper.ExcludeFieldIdempotent | src/helper/helper.service.ts:21-25 | excluding the same keys twice equals excluding them once |
| Pagination.CeilDiv | src/attendance/attendance.service.ts:90 | `Math.ceil(n / d)`: zero exactly for `n = 0`, otherwise the least `q` with `n <= q*d` |
| Pagination.Paginate | src/attendance/attendance.service.ts:88-110 | `totalPages = ceil(n / pageSize)`; `currentPage` clamped into `[1, max(1, totalPages)]` and unchanged when in range; `items` is the contiguous slice `[(cp-1)*ps, min(cp*ps, n))`, at most `pageSize` long and non-empty when the list is; `hasNextPage`/`nextPage` and `hasPreviousPage`/`previousPage` in both directions; an empty list gives page 1 of 0 with no items |
| Pagination.PagesCoverArray | src/attendance/attendance.service.ts:95-97 | concatenating pages `1..totalPages` gives back the whole list |
| Pagination.PagesPrefix | src/attendance/attendance.service.ts:95-97 | the first `k` pages concatenated are the prefix of length `min(k*ps, n)` |
| Shuffle.Swap | src/attendance/attendance.service.ts:387 | the destructuring swap exchanges cells `i` and `j` and leaves every other cell and the length unchanged |
| Shuffle.SwapPermutes | src/attendance/attendance.service.ts:387 | a swap keeps the multiset of elements |
| Shuffle.SwapIndex | src/attendance/attendance.service.ts:386 | the partner index `floor(random * (i+1))` is at most `i` |
| Shuffle.SwapDownPermutes | src/attendance/attendance.service.ts:385-388 | the countdown loop from any index keeps the length and the multiset |
| Shuffle.ShuffledIsPermutation | src/attendance/attendance.service.ts:384-390 | the shuffle of a list is a permutation of it: same length, same multiset |
| Shuffle.ShuffleOfTwo | src/attendance/attendance.service.ts:384-390 | a two-element list keeps its order exactly when the one draw is at least 1/2 |
| Delay.GetDelay | src/attendance/attendance.service.ts:392-406 | immediate: `ONE_SECOND <= d < ONE_SECOND + TEN_SECONDS`, i.e. `[1000, 11000)` with the intended constants; deferred: `5000 <= d < 975000` |
| Delay.ImmediateDelayCoversRange | src/attendance/attendance.service.ts:396-400 | every delay in `[ONE_SECOND, ONE_SECOND + TEN_SECONDS)` is produced by some draws |
| Delay.DeferredDelayCoversRange | src/attendance/attendance.service.ts:401-405 | every delay in `[5000, 975000)` is produced by some draws |
| Locations.HasLocationIsNames | src/attendance/attendance.service.ts:346 | the `acc.some(...)` test holds exactly when the name is among the accumulated names |
| Locations.KeepFirstIsFirstOccurrences | src/attendance/attendance.service.ts:344-350 | the reduce keeps exactly the first occurrence of every location name, in input order |
| Locations.LocationHistoryProperties | src/attendance/attendance.service.ts:344-358 | ids are `1..k`; names are pairwise distinct; every history name appears; item `t` is the record at the `t`-th first-occurrence position, so first-occurrence order is kept |
| AttendanceFlow.RosterOf | src/attendance/attendance.service.ts:207-213 | one entry per user in table order; the attendance record is included exactly when it exists and is active, and is then the stored one |
| AttendanceFlow.RequiredData | src/attendance/attendance.service.ts:196-238 | status iff data; status iff cache hit or no store error; code 200 with the empty message, or 500; a hit answers from the cache unchanged; a miss caches the full roster for 24 hours; a store error reports its reason and caches nothing; no other key changes |
| AttendanceFlow.RosterReadThrough | src/attendance/attendance.service.ts:198-206 | after a successful read, a second read returns the same roster and changes nothing, whatever the store holds or throws |
| AttendanceFlow.StoreAttendance | src/attendance/attendance.service.ts:162-191 | a record is stored iff there is no store error and a userId; it carries the input's fields with `remarks || ''`, replaces the user's earlier record and deletes `attendances-data`; on failure nothing changes |
| AttendanceFlow.StoreThenReadIsFresh | src/attendance/attendance.service.ts:185 | after a store, the next roster read goes to the store and shows the new record iff it is active |
| AttendanceFlow.Reverse | src/attendance/attendance.service.ts:144 | `reverse()`: same length, element `i` is input element `n-1-i` |
| AttendanceFlow.FetchHistory | src/attendance/attendance.service.ts:117-151 | success iff cache hit or list reply; a hit answers from the cache; a list is reversed and cached for an hour; a rejected provider call propagates its error unchanged; a `null` reply throws reading `data`, a falsy one reading `length`, a non-list one at `reverse`; errors cache nothing; no other key changes |
| AttendanceFlow.HistoryReadThrough | src/attendance/attendance.service.ts:118-119 | after a successful fetch, the next fetch for the address returns the same list whatever the provider answers |
| AttendanceFlow.AttendanceHistory | src/attendance/attendance.service.ts:49-80 | status iff the fetch succeeded; a failure carries the prefixed reason and no data; a success has the empty message; `fetchLastItem` selects the first element of the fetched list (or none); otherwise the data is `paginate` of the fetched list with the requested `perPage` and `page` |
| AttendanceFlow.HistoryPageIsSlice | src/attendance/attendance.service.ts:64-66 | the page shown is the requested `page` when it is in `[1, totalPages]`, page 1 below that and the last page above it, with `totalPages = ceil(n / perPage)`; its items are the slice of the fetched history that page selects, at most `perPage` long |
| AttendanceFlow.LastItemIsProvidersFinalRecord | src/attendance/attendance.service.ts:64-65 | on a fresh fetch, the "last item" is the provider's final record, since the list is reversed |
| AttendanceFlow.LocationHistoryResponse | src/attendance/attendance.service.ts:336-376 | status iff the history is non-empty; success returns the de-duplicated list with 200 and the empty message; an empty or failed history is `status:false` with code `e.code` (undefined for the NotFoundException) and the prefixed reason |
| AttendanceFlow.ClockIn | src/attendance/attendance.service.ts:244-303 | clocked in iff the job has a record and the call resolves; the history key is deleted exactly then and no other key changes; mails are only appended, one exactly when the user subscribed; the success mail names the type, time and location; the failure mail asks for a manual action |
| AttendanceFlow.JobFor | src/attendance/attendance.service.ts:311-323 | the job is `auto-clock-in` with the entry plus type and a delay inside the window of its `isImmediate` flag: `[ONE_SECOND, ONE_SECOND + TEN_SECONDS)` when immediate, `[5000, 975000)` otherwise |
| AttendanceFlow.FirstMissing | src/attendance/attendance.service.ts:311-313 | the first entry without a record: all before it have one |
| AttendanceFlow.JobsFor | src/attendance/attendance.service.ts:311-324 | one job per entry, job `t` built from entry `t` and the `t`-th draws |
| AttendanceFlow.DispatchOneJobPerEntry | src/attendance/attendance.service.ts:309-325 | with every record present: dispatch completes; exactly one job per entry, in shuffled order, each carrying its entry, the type and its own `getDelay`; the job entries are a permutation of the roster |
| AttendanceFlow.DispatchEmptyRoster | src/attendance/attendance.service.ts:309-325 | an empty roster enqueues nothing |
| AttendanceFlow.DispatchAbortsAtMissingRecord | src/attendance/attendance.service.ts:311-313 | a user without an active record makes the cycle throw after the shuffled entries before the first such user, so fewer jobs than entries |
| AttendanceFlow.DispatchWithoutRoster | src/attendance/attendance.service.ts:310-311 | a failed roster read enqueues nothing |
| Attendance.AttendanceService.FetchHistoryFromInfotech | src/attendance/attendance.service.ts:117-151 | result and new cache are those of `FetchHistory` |
| Attendance.AttendanceService.GetAttendanceHistory | src/attendance/attendance.service.ts:49-80 | response and new cache are those of `AttendanceHistory` over `FetchHistory` |
| Attendance.AttendanceService.GetLocationHistory | src/attendance/attendance.service.ts:336-376 | response and new cache are those of `LocationHistoryResponse` over `FetchHistory` |
| Attendance.AttendanceService.StoreDataRequiredForClockIn | src/attendance/attendance.service.ts:162-191 | stored record, attendance table and cache are those of `StoreAttendance`; the user table is unchanged |
| Attendance.AttendanceService.GetAttendanceRequiredData | src/attendance/attendance.service.ts:196-238 | response and new cache are those of `RequiredData` |
| Attendance.AttendanceService.AttendanceClockIn | src/attendance/attendance.service.ts:244-303 | outcome, cache and mail lane are those of `ClockIn` |
| Attendance.AttendanceService.ShuffleArray | src/attendance/attendance.service.ts:384-390 | returns the same array, whose contents become `Shuffled` of the old contents, a permutation of them |
| Attendance.AttendanceService.DispatchClockInOrClockOutJob | src/attendance/attendance.service.ts:309-325 | cache as `RequiredData` leaves it; the queue gains exactly the jobs of `PlanDispatch` over the roster read, and the outcome is the plan's |
| Attendance.AttendanceService.DispatchRoster | src/attendance/attendance.service.ts:311-324 | a `null` roster throws reading `length` and enqueues nothing; otherwise the queue gains exactly the jobs of `PlanDispatch` over the shuffled roster, and the outcome is the plan's |
| Attendance.AttendanceService.EnqueueClockJobs | src/attendance/attendance.service.ts:311-324 | the queue gains the jobs of the entries before the first one without a record; the loop completes iff there is none |
| Tasks.TaskJobs | src/task/task.service.ts:33-38 | one job per roster entry in roster order, each the entry with the type and no delay option |
| Tasks.TaskJobsKeepRoster | src/task/task.service.ts:29-39 | the jobs' entries are the roster itself; every job carries the type and no delay |
| Tasks.TaskNothingToDispatch | src/task/task.service.ts:33 | an empty roster enqueues nothing; a `null` roster throws before enqueueing |
| Tasks.TaskAndAttendanceDispatchAgree | src/task/task.service.ts:29-39 | on a roster where every record is present, both dispatch loops enqueue the same multiset of entries |
| Tasks.TaskService.HandleClockInCron | src/task/task.service.ts:17-20 | dispatches with type `Clock In` |
| Tasks.TaskService.HandleClockOutCron | src/task/task.service.ts:24-27 | dispatches with type `Clock Out` |
| Tasks.TaskService.DispatchClockInOrClockOutJob | src/task/task.service.ts:29-39 | cache as `RequiredData` leaves it; the queue gains exactly `TaskJobs` of the roster read |
| Tasks.TaskService.EnqueueTaskJobs | src/task/task.service.ts:33-38 | the queue gains exactly `TaskJobs` of the roster, in roster order, and nothing else |
| UserFlow.IndexOf | src/user/user.service.ts:178-185 | a lookup on a unique column (email here, the user token at lines 297-301, the id at lines 341-344): the position of the first user holding the value, or none exactly when no user holds it |
| UserFlow.FetchUserInformation | src/user/user.service.ts:113-149 | null iff the reply is null or its `UserId` is missing or zero; a TypeError iff `UserAuthorization` or its `Customer` is missing; otherwise every field mapped from the reply and the payload, with `deviceId := imei` and the user token encrypting the formula with `imei:=email`, `email:=imei` |
| UserFlow.UserTokenHasSwappedFields | src/user/user.service.ts:142-159 | the user token is `buildUserToken(email, imei, employeeId)`, i.e. the encryption of `{"imei":email,"email":imei,...}` |
| UserFlow.UserFromDb | src/user/user.service.ts:169-201 | a cache hit under `user-{email}-{appPassword}` is returned unchanged; on a miss, null iff the email is unknown or the hash does not match; success returns the user with its attendance relation and without `managementAppPassword`, cached for an hour; failures cache nothing |
| UserFlow.UserFromDbReadThrough | src/user/user.service.ts:173-176 | after a successful lookup the next one returns the same object, whatever the store then holds |
| UserFlow.UserInformationFor | src/user/user.service.ts:50-105 | status iff data, with code 200; login with no match: `status:false`, code 400, unprefixed `User not found in our db.`; login with a match: the store's object; other types: a null fetch is a 401 with the prefixed `Credentials might be wrong.`, otherwise the provider's information; a store error, a rejected provider call or a TypeError from the reply goes to the catch, which answers `status:false` with `code: e.status` and `e.message`, unprefixed exactly when the status is 400; only a login touches the cache |
| UserFlow.LoginIgnoresProvider | src/user/user.service.ts:55-71 | a login's answer does not depend on the provider reply, the IMEI or the encryption |
| UserFlow.ProviderIgnoresStore | src/user/user.service.ts:73-91 | a non-login answer does not depend on the store |
| UserFlow.UpsertUser | src/user/user.service.ts:219-240 | an existing email changes only `token`, `deviceId`, `userToken`; a new one is appended with the next id, `deviceId := imei` and the new hash |
| UserFlow.UpsertKeepsTable | src/user/user.service.ts:219-240 | the upsert keeps ids and emails unique and ids below the next id, and the email then finds the upserted row |
| UserFlow.StoreUser | src/user/user.service.ts:209-284 | status iff the transaction, the attendance data and its store all succeed; success is 201 with the user and its record, the settings carry the group's time zone, and the user is cached under its email for an hour; every failure is 500 with the prefixed reason (`Failed to store attendance data.` when the store returns null, a TypeError when `attendanceData` is missing); a transaction error changes nothing, a later failure keeps the upserted user |
| UserFlow.StoredUserAttendance | src/user/user.service.ts:245-262 | a stored user's record has Indonesia's time zone when its group is the Indonesian one and Malaysia's otherwise, carries the sent settings, and the roster cache is gone |
| UserFlow.KnownUserKeepsPassword | src/user/user.service.ts:221-225 | re-registering a known email (even when the attendance store then fails) keeps the table length, the next id and every other row; the user's row is the old row with only `token`, `deviceId` and `userToken` replaced, so its hash and all other columns are kept |
| UserFlow.UserByToken | src/user/user.service.ts:291-335 | status iff data, with 200, no `managementAppPassword`, and the answer cached under `userdata-{token}` for an hour; unknown token: 400 `User is not found.`; store error: 500 with its message; failures cache nothing |
| UserFlow.UserByTokenStable | src/user/user.service.ts:294-317 | after a successful lookup, asking again gives the same answer and cache, whatever the store then holds |
| UserFlow.UpdatePassword | src/user/user.service.ts:337-380 | status iff no error, the user exists and the new password does not match; a thrown store error: `Failed to update app password. Reason: ` plus its message, with `code: e.code \|\| e.status`; missing user: 404; same password: 400 and no update; every failure leaves the table unchanged; otherwise only that user's `managementAppPassword` becomes the new hash and the updated row is returned with 200 |
| UserFlow.UpdateKeepsTable | src/user/user.service.ts:357-362 | the password update keeps the user table's constraints |
| Users.UserService.GetUserInformation | src/user/user.service.ts:50-105 | response and new cache are those of `UserInformationFor` |
| Users.UserService.FetchUserInformationFromInfotech | src/user/user.service.ts:113-149 | result is `FetchUserInformation` |
| Users.UserService.GetUserInformationFromDb | src/user/user.service.ts:169-201 | result and new cache are those of `UserFromDb` |
| Users.UserService.StoreUserInformation | src/user/user.service.ts:209-284 | response, cache and both tables are those of `StoreUser` |
| Users.UserService.UpsertUserRow | src/user/user.service.ts:219-240 | row and user table are those of `UpsertUser`; the attendance table is unchanged |
| Users.UserService.GetUserByToken | src/user/user.service.ts:291-335 | response and new cache are those of `UserByToken` |
| Users.UserService.UpdateAppPassword | src/user/user.service.ts:337-380 | response and user table are those of `UpdatePassword`; nothing else changes |
| OneTimeToken.CanActivate | src/one-time-token/one-time-token.guard.ts:19-43 | outside production always accepts; in production accepts iff the token header is present, non-empty and equals the encryption of the formula; a missing or empty token is a 401 `No app token provided.`, any other rejection a 401 `Invalid token` |
| OneTimeToken.FalsyBodySignsAsEmptyObject | src/one-time-token/one-time-token.guard.ts:37 | a missing or falsy body is signed as `{}` |
| OneTimeToken.DecisionDependsOnFormulaAndToken | src/one-time-token/one-time-token.guard.ts:31-42 | requests with the same formula and token header get the same decision (determinism) |
| OneTimeToken.TokenBoundToRequestTime | src/one-time-token/one-time-token.guard.ts:26-41 | with an injective encryption, a token accepted for one request time is refused for any other |

## Left out

- AES encryption (CryptoJS) is an uninterpreted function: no encrypt/decrypt round trip is claimed.
- The provider payloads are not modelled, because only the provider's answer decides anything; this covers the payload built for `fetchUserInformationFromInfotech`, the clock-in payload and the history payload.
- The network call is not modelled, because the provider's answer is a parameter. `fetchApi` takes three parameters; the header objects passed as extra arguments are dropped there.
- Bull queues, job processors and the mailer are not modelled; each queue is an append-only sequence. `dispatchMailQueue` is not defined on `BullQueueService`, so the mail lane is an abstract append-only list.
- TTLs are kept as metadata only: expiry is not modelled, so a cached value lives until it is deleted.
- The cache map's values are typed by key family. A value of another family under a roster, history or user key is treated as a miss.
- Cron expressions and wall-clock formatting are not modelled. The time text is a parameter of the clock-in.
- Concurrency between workers and overlapping dispatch cycles are not modelled. Every operation is one atomic step.
- Prisma is not modelled beyond the upsert, update and lookup semantics. Transactions are one all-or-nothing step, so a transaction error leaves the tables as they were.
- Timestamps and other columns that the services never write are not in the model.
- bcrypt and NodeImei are parameters: a hash value, a `matches` predicate and an IMEI string.
- Logging, controllers, DTO validation, exception filters and module wiring are not modelled. The IMEI generator's statistics are not modelled either.
- `UserLocationEnum` and `TimezoneCodeEnum` are not part of this model, so their values are parameters. `TEN_SECONDS` and `ONE_SECOND` are parameters too, because `src/constants.ts` does not define them.
- The lifetime of the shuffled array is not modelled. `shuffleArray` permutes the array that the cache returned, so in the running program the cached roster may itself be reordered. The model shuffles a fresh array and leaves the cached value as it was.
- Pagination.Paginate: only integer page numbers and page sizes are modelled. The query DTO accepts any number of at least 1, so a fractional `page` or `perPage` would give fractional page numbers and truncated slice indices in the source.
- Delay.GetDelay: the draws are exact reals in `[0, 1)`, as is the shuffle's index draw. The rounding of double-precision `Math.random()` products is ignored, and nothing is claimed about uniformity or decorrelation.
- Json.Stringify: numbers are integers and strings are escaped per character; surrogate pairs and non-integer numbers are not modelled.
- AttendanceFlow.ClockIn: for the failure mail, the contract states only the recipient and the subject. The body is fixed text apart from the type.
- UserFlow.FetchUserInformation: a reply whose `UserId` is a non-numeric truthy value, or whose `UserAuthorization` fields have unexpected types, is not modelled. The reply's fields are typed.
- UserFlow.TimeZoneFor: JavaScript's loose `==` is modelled as equality of integers. A string-valued enum compared with a number is not modelled.
- UserFlow.UserInformationFor: an error without a `message` would make the message end in `undefined`. Thrown errors always carry a message here.
- UserFlow.LoginRequest: `appPassword` is not a declared field of `LoginRequestDto`. The validation pipe does not strip unknown properties, so the model takes the field as the body sends it.
- `updateAttendanceStatus` and `updateAttendanceLocation` are called by the controller but are not in the service's source, so they are not modelled.
