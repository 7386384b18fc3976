/** What each stateful operation of AttendanceService does, as a function of
    the state before it (cache entries, tables, mail lane) and of what the
    outside world answers (database errors, provider replies, random draws).
    The methods of the class in attendance_service.dfy are proved equal to
    these; the lemmas here relate several operations. */
module AttendanceFlow {
  import opened Common
  import opened Records
  import opened Locations
  import opened Pagination
  import opened Shuffle
  import opened Delay

  // ---------------------------------------------------------------------
  // getAttendanceRequiredData: the roster, read through the cache
  // ---------------------------------------------------------------------

  /** The roster read from the store: EVERY user, in table order; the
      `isActive: 1` filter only decides whether a user's attendance record is
      included (otherwise it is null). */
  function RosterOf(users: seq<UserRow>, attendance: map<int, AttendanceData>): (r: seq<RosterEntry>)
    ensures |r| == |users|
    ensures forall i :: 0 <= i < |r| ==> r[i].user == users[i]
    ensures forall i :: 0 <= i < |r| ==>
      (r[i].attendanceData.Some? <==> users[i].id in attendance && attendance[users[i].id].isActive == 1)
    ensures forall i :: 0 <= i < |r| && r[i].attendanceData.Some? ==>
      r[i].attendanceData.value == attendance[users[i].id]
  {
    if |users| == 0 then []
    else
      var u := users[0];
      var included := if u.id in attendance && attendance[u.id].isActive == 1 then Some(attendance[u.id]) else None;
      [RosterEntry(u, included)] + RosterOf(users[1..], attendance)
  }

  datatype RosterResponse = RosterResponse(status: bool, message: string, code: int, data: Option<seq<RosterEntry>>)

  /** The roster the cache holds, if it holds one. */
  function CachedRoster(cache: CacheMap): Option<seq<RosterEntry>>
  {
    if ROSTER_KEY in cache && cache[ROSTER_KEY].value.RosterList? then Some(cache[ROSTER_KEY].value.entries) else None
  }

  datatype RosterRead = RosterRead(response: RosterResponse, cache: CacheMap)

  /** getAttendanceRequiredData, given whether user.findMany throws. */
  function RequiredData(cache: CacheMap, users: seq<UserRow>, attendance: map<int, AttendanceData>,
                        dbError: Option<Thrown>): (r: RosterRead)
    // success and data go together; failure is a 500
    ensures r.response.status <==> r.response.data.Some?
    ensures r.response.status <==> (CachedRoster(cache).Some? || dbError.None?)
    ensures r.response.code == if r.response.status then OK else INTERNAL_SERVER_ERROR
    ensures r.response.status ==> r.response.message == ""
    // a cache hit answers from the cache and leaves it alone
    ensures CachedRoster(cache).Some? ==> r.response.data == CachedRoster(cache) && r.cache == cache
    // a miss answered by the store caches the full roster for 24 hours
    ensures CachedRoster(cache).None? && dbError.None? ==>
      r.response.data == Some(RosterOf(users, attendance)) &&
      r.cache == cache[ROSTER_KEY := CacheEntry(RosterList(RosterOf(users, attendance)), TWENTY_FOUR_HOURS)]
    // a store error is reported with its reason and caches nothing
    ensures CachedRoster(cache).None? && dbError.Some? ==>
      r.response.message == "Can't get attendance data. Reason: " + dbError.value.message && r.cache == cache
    // no other key changes, and after a successful read the cache holds what was returned
    ensures r.cache - {ROSTER_KEY} == cache - {ROSTER_KEY}
    ensures r.response.status ==> CachedRoster(r.cache) == r.response.data
  {
    match CachedRoster(cache)
    case Some(roster) => RosterRead(RosterResponse(true, "", OK, Some(roster)), cache)
    case None =>
      match dbError
      case Some(e) =>
        RosterRead(RosterResponse(false, "Can't get attendance data. Reason: " + e.message, INTERNAL_SERVER_ERROR, None), cache)
      case None =>
        var data := RosterOf(users, attendance);
        RosterRead(RosterResponse(true, "", OK, Some(data)),
                   cache[ROSTER_KEY := CacheEntry(RosterList(data), TWENTY_FOUR_HOURS)])
  }

  /** Read-through: once a read has filled the cache, later reads return the
      same roster and change nothing, whatever the store holds or throws then
      (staleness up to the TTL is accepted by design). */
  lemma RosterReadThrough(cache: CacheMap, users: seq<UserRow>, attendance: map<int, AttendanceData>,
                          users': seq<UserRow>, attendance': map<int, AttendanceData>, dbError': Option<Thrown>)
    requires RequiredData(cache, users, attendance, None).response.status
    ensures var first := RequiredData(cache, users, attendance, None);
            var second := RequiredData(first.cache, users', attendance', dbError');
            second.response == first.response && second.cache == first.cache
  {
  }

  // ---------------------------------------------------------------------
  // storeDataRequiredForClockIn: upsert the attendance record, invalidate
  // ---------------------------------------------------------------------

  /** The argument of storeDataRequiredForClockIn. */
  datatype AttendanceInput = AttendanceInput(
    userId: Option<int>,
    locationName: string,
    latitude: string,
    longitude: string,
    isActive: int,
    remarks: Option<string>,
    timeZone: string,
    isImmediate: int,
    isSubscribeMail: bool)

  datatype StoreResult = StoreResult(stored: Option<AttendanceData>, attendance: map<int, AttendanceData>, cache: CacheMap)

  /** `remarks || ''` */
  function RemarksOrEmpty(remarks: Option<string>): string
  {
    match remarks case Some(text) => text case None => ""
  }

  /** attendanceData.upsert({where: {userId}, update: data, create: data}) and
      then cacheManager.del('attendances-data'); any thrown error gives null.
      Prisma rejects an upsert whose `where` has no userId. */
  function StoreAttendance(cache: CacheMap, attendance: map<int, AttendanceData>, input: AttendanceInput,
                           dbError: Option<Thrown>): (r: StoreResult)
    ensures r.stored.Some? <==> dbError.None? && input.userId.Some?
    // success: the record (remarks defaulting to '') replaces any earlier one, and the roster cache is gone
    ensures r.stored.Some? ==>
      r.stored.value.userId == input.userId.value &&
      r.stored.value.remarks == RemarksOrEmpty(input.remarks) &&
      r.stored.value.locationName == input.locationName && r.stored.value.latitude == input.latitude &&
      r.stored.value.longitude == input.longitude && r.stored.value.isActive == input.isActive &&
      r.stored.value.timeZone == input.timeZone && r.stored.value.isImmediate == input.isImmediate &&
      r.stored.value.isSubscribeMail == input.isSubscribeMail &&
      r.attendance == attendance[input.userId.value := r.stored.value] &&
      r.cache == cache - {ROSTER_KEY}
    // failure: nothing changes, the cache included
    ensures r.stored.None? ==> r.attendance == attendance && r.cache == cache
  {
    if dbError.Some? || input.userId.None? then StoreResult(None, attendance, cache)
    else
      var row := AttendanceData(input.userId.value, input.locationName, input.latitude, input.longitude,
                                input.isActive, RemarksOrEmpty(input.remarks),
                                input.timeZone, input.isImmediate, input.isSubscribeMail);
      StoreResult(Some(row), attendance[row.userId := row], cache - {ROSTER_KEY})
  }

  /** Invalidation makes the next roster read consistent: after a successful
      store, reading the roster goes to the store and shows the new record,
      included exactly when it is active. */
  lemma {:induction false} StoreThenReadIsFresh(cache: CacheMap, users: seq<UserRow>, attendance: map<int, AttendanceData>,
                             input: AttendanceInput, s: StoreResult, i: nat)
    requires s == StoreAttendance(cache, attendance, input, None) && s.stored.Some?
    requires i < |users| && users[i].id == s.stored.value.userId
    ensures RequiredData(s.cache, users, s.attendance, None).response.data == Some(RosterOf(users, s.attendance))
    ensures RosterOf(users, s.attendance)[i].attendanceData == if input.isActive == 1 then s.stored else None
  {
    assert ROSTER_KEY !in s.cache;
  }

  // ---------------------------------------------------------------------
  // fetchHistoryFromInfotech: the history, read through the cache
  // ---------------------------------------------------------------------

  /** What `await fetchApi(...)` yields for the history path: a list, null (the
      api service returns null when the request fails), another falsy value,
      some other object, or a rejection (the response body was not JSON). */
  datatype HistoryReply =
    | ListReply(records: seq<HistoryRecord>)
    | NullReply
    | FalsyReply
    | ObjectReply
    | Rejected(e: Thrown)

  /** The history cached for an e-mail address, if any. */
  function CachedHistory(cache: CacheMap, email: string): Option<seq<HistoryRecord>>
  {
    var key := HistoryKey(email);
    if key in cache && cache[key].value.HistoryList? then Some(cache[key].value.records) else None
  }

  /** Array.prototype.reverse */
  function Reverse<T>(s: seq<T>): (r: seq<T>)
    ensures |r| == |s|
    ensures forall i :: 0 <= i < |s| ==> r[i] == s[|s| - 1 - i]
  {
    if |s| == 0 then [] else [s[|s| - 1]] + Reverse(s[..|s| - 1])
  }

  datatype HistoryFetch = HistoryFetch(result: Result<seq<HistoryRecord>>, cache: CacheMap)

  /** fetchHistoryFromInfotech. Its guard `!historyData && historyData.data.length
      === 0` never returns null: on a null or other falsy reply it throws while
      reading a property, and a reply that is not a list throws at reverse(). */
  function FetchHistory(cache: CacheMap, email: string, reply: HistoryReply): (r: HistoryFetch)
    ensures r.result.Ok? <==> CachedHistory(cache, email).Some? || reply.ListReply?
    ensures CachedHistory(cache, email).Some? ==> r.result == Ok(CachedHistory(cache, email).value) && r.cache == cache
    ensures CachedHistory(cache, email).None? && reply.ListReply? ==>
      r.result == Ok(Reverse(reply.records)) &&
      r.cache == cache[HistoryKey(email) := CacheEntry(HistoryList(Reverse(reply.records)), ONE_HOURS)]
    ensures CachedHistory(cache, email).None? && reply.NullReply? ==>
      r.result == Err(PlainError(ReadOfNull("data")))
    ensures CachedHistory(cache, email).None? && reply.FalsyReply? ==>
      r.result == Err(PlainError(ReadOfUndefined("length")))
    ensures CachedHistory(cache, email).None? && reply.ObjectReply? ==>
      r.result == Err(PlainError("historyData.reverse is not a function"))
    // a rejected provider call propagates its error unchanged
    ensures CachedHistory(cache, email).None? && reply.Rejected? ==> r.result == Err(reply.e)
    ensures r.result.Err? ==> r.cache == cache
    ensures r.cache - {HistoryKey(email)} == cache - {HistoryKey(email)}
  {
    match CachedHistory(cache, email)
    case Some(h) => HistoryFetch(Ok(h), cache)
    case None =>
      match reply
      case ListReply(records) =>
        var reversed := Reverse(records);
        HistoryFetch(Ok(reversed), cache[HistoryKey(email) := CacheEntry(HistoryList(reversed), ONE_HOURS)])
      case NullReply => HistoryFetch(Err(PlainError(ReadOfNull("data"))), cache)
      case FalsyReply => HistoryFetch(Err(PlainError(ReadOfUndefined("length"))), cache)
      case ObjectReply => HistoryFetch(Err(PlainError("historyData.reverse is not a function")), cache)
      case Rejected(e) => HistoryFetch(Err(e), cache)
  }

  /** Read-through for the history: after a fetch that succeeded, the next
      fetch for the same address returns the same list, whatever the provider
      would answer, and changes nothing. */
  lemma HistoryReadThrough(cache: CacheMap, email: string, reply: HistoryReply, reply': HistoryReply)
    requires FetchHistory(cache, email, reply).result.Ok?
    ensures var first := FetchHistory(cache, email, reply);
            var second := FetchHistory(first.cache, email, reply');
            second == first
  {
  }

  // ---------------------------------------------------------------------
  // getAttendanceHistory: last item or one page of the fetched history
  // ---------------------------------------------------------------------

  datatype HistoryData = NoData | LastItem(item: Option<HistoryRecord>) | Paged(page: Page<HistoryRecord>)

  datatype HistoryResponse = HistoryResponse(status: bool, message: string, data: HistoryData)

  /** getAttendanceHistory once the fetch has produced its result or error. */
  function AttendanceHistory(fetched: Result<seq<HistoryRecord>>, fetchLastItem: bool, page: int, perPage: int): (r: HistoryResponse)
    requires perPage >= 1
    ensures r.status <==> fetched.Ok?
    ensures fetched.Err? ==> r.message == HistoryFailure(fetched.error.message) && r.data == NoData
    ensures fetched.Ok? && fetchLastItem ==>
      r.data == LastItem(if |fetched.value| > 0 then Some(fetched.value[0]) else None)
    ensures fetched.Ok? ==> r.message == ""
    ensures fetched.Ok? && !fetchLastItem ==> r.data == Paged(Paginate(fetched.value, perPage, page))
  {
    match fetched
    case Err(e) => HistoryResponse(false, HistoryFailure(e.message), NoData)
    case Ok(h) =>
      HistoryResponse(true, "",
        if fetchLastItem then LastItem(if |h| > 0 then Some(h[0]) else None) else Paged(Paginate(h, perPage, page)))
  }

  function HistoryFailure(reason: string): string
  {
    "Can't fetch attendance history from infotech. Reason: " + reason
  }

  /** A requested page holds the slice of the fetched list that the clamped
      page number selects, and never more than perPage records. */
  lemma HistoryPageIsSlice(h: seq<HistoryRecord>, page: int, perPage: int)
    requires perPage >= 1
    ensures var r := AttendanceHistory(Ok(h), false, page, perPage);
            var cp := r.data.page.currentPage;
            1 <= cp && (cp - 1) * perPage <= Min(cp * perPage, |h|) <= |h| &&
            r.data.page.items == h[(cp - 1) * perPage .. Min(cp * perPage, |h|)] &&
            |r.data.page.items| <= perPage &&
            (1 <= page <= r.data.page.totalPages ==> cp == page) &&
            (page < 1 ==> cp == 1) &&
            (page > r.data.page.totalPages >= 1 ==> cp == r.data.page.totalPages) &&
            r.data.page.totalPages == CeilDiv(|h|, perPage)
  {
  }

  /** Because the fetched list is the provider's list reversed and then
      cached, "the last item" is the provider's final record. */
  lemma LastItemIsProvidersFinalRecord(cache: CacheMap, email: string, records: seq<HistoryRecord>, page: int, perPage: int)
    requires perPage >= 1
    requires CachedHistory(cache, email).None? && |records| > 0
    ensures AttendanceHistory(FetchHistory(cache, email, ListReply(records)).result, true, page, perPage).data
            == LastItem(Some(records[|records| - 1]))
  {
  }

  // ---------------------------------------------------------------------
  // getLocationHistory
  // ---------------------------------------------------------------------

  datatype LocationResponse = LocationResponse(status: bool, code: Code, message: string, data: Option<seq<LocationItem>>)

  /** The response's `code: e.code` for a caught error. */
  function CodeOf(e: Thrown): Code
  {
    match e.code case Some(c) => ErrorCode(c) case None => Undefined
  }

  function LocationFailure(reason: string): string
  {
    "Can't fetch location history, reason: " + reason
  }

  const NO_HISTORY: string := "No attendance history found"

  /** getLocationHistory once the fetch has produced its result or error. A
      missing or empty history raises a NotFoundException, whose `code` is
      undefined. */
  function LocationHistoryResponse(fetched: Result<seq<HistoryRecord>>): (r: LocationResponse)
    ensures r.status <==> fetched.Ok? && |fetched.value| > 0
    ensures r.status ==> r.code == Status(OK) && r.data == Some(LocationHistory(fetched.value)) && r.message == ""
    ensures !r.status ==> r.data == None
    ensures fetched.Ok? && |fetched.value| == 0 ==> r.code == Undefined && r.message == LocationFailure(NO_HISTORY)
    ensures fetched.Err? ==> r.code == CodeOf(fetched.error) && r.message == LocationFailure(fetched.error.message)
  {
    match fetched
    case Err(e) => LocationResponse(false, CodeOf(e), LocationFailure(e.message), None)
    case Ok(h) =>
      if |h| == 0 then
        var e := HttpException(NOT_FOUND, NO_HISTORY);
        LocationResponse(false, CodeOf(e), LocationFailure(e.message), None)
      else LocationResponse(true, Status(OK), "", Some(LocationHistory(h)))
  }

  // ---------------------------------------------------------------------
  // attendanceClockIn: the outcome of one provider call
  // ---------------------------------------------------------------------

  /** What `await fetchApi(...)` does: it resolves (its value is ignored, so a
      null from a failed request counts as resolved too) or it rejects. */
  datatype CallOutcome = Resolved | Threw(e: Thrown)

  /** Succeeded; failed with the error caught; or the handler itself threw
      (the job carries no attendance record, so the catch block fails too). */
  datatype ClockOutcome = ClockedIn | Failed(reason: Thrown) | Escaped(reason: Thrown)

  function SuccessMail(email: string, kind: string, time: string, locationName: string): Mail
  {
    Mail(email, "Sucessfully " + kind + " at " + time,
         "<p style=\"font-weight: bold\">You have successfully " + kind + " at " + time + " in " + locationName + "</p>")
  }

  function FailureMail(email: string, kind: string): Mail
  {
    Mail(email, "Failed to auto " + kind + " at the moment, please do " + kind + " manually.",
         "<p>We cannot perfrom " + kind + " at the moment. Please report this to the developer</p>")
  }

  datatype ClockInEffect = ClockInEffect(outcome: ClockOutcome, cache: CacheMap, mails: seq<Mail>)

  /** attendanceClockIn for one job, given the provider call's outcome and the
      wall-clock time text. */
  function ClockIn(cache: CacheMap, mails: seq<Mail>, job: ClockJob, call: CallOutcome, time: string): (r: ClockInEffect)
    ensures r.outcome.ClockedIn? <==> job.entry.attendanceData.Some? && call.Resolved?
    ensures r.outcome.Failed? <==> job.entry.attendanceData.Some? && call.Threw?
    // the user's history entry is deleted exactly on success; nothing else in the cache changes
    ensures r.cache == if r.outcome.ClockedIn? then cache - {HistoryKey(job.entry.user.email)} else cache
    // mails are only appended: one when the user subscribed and the job had a record, else none
    ensures |r.mails| == |mails| + (if job.entry.attendanceData.Some? && job.entry.attendanceData.value.isSubscribeMail then 1 else 0)
    ensures r.mails[..|mails|] == mails
    ensures r.outcome.ClockedIn? && |r.mails| > |mails| ==>
      r.mails[|mails|] == SuccessMail(job.entry.user.email, job.kind, time, job.entry.attendanceData.value.locationName)
    ensures r.outcome.Failed? && |r.mails| > |mails| ==>
      r.mails[|mails|].recipient == job.entry.user.email &&
      r.mails[|mails|].subject == "Failed to auto " + job.kind + " at the moment, please do " + job.kind + " manually."
  {
    var email := job.entry.user.email;
    match job.entry.attendanceData
    case None => ClockInEffect(Escaped(PlainError(ReadOfNull("isSubscribeMail"))), cache, mails)
    case Some(a) =>
      match call
      case Resolved =>
        ClockInEffect(ClockedIn, cache - {HistoryKey(email)},
                      if a.isSubscribeMail then mails + [SuccessMail(email, job.kind, time, a.locationName)] else mails)
      case Threw(e) =>
        ClockInEffect(Failed(e), cache, if a.isSubscribeMail then mails + [FailureMail(email, job.kind)] else mails)
  }

  // ---------------------------------------------------------------------
  // dispatchClockInOrClockOutJob: one delayed job per shuffled roster entry
  // ---------------------------------------------------------------------

  /** The job for one roster entry that has an attendance record: the entry
      spread with `type`, delayed by getDelay(isImmediate). */
  function JobFor(e: RosterEntry, kind: string, draw: DelayDraw, tenSeconds: nat, oneSecond: nat): (j: QueuedJob)
    requires e.attendanceData.Some?
    ensures j.name == AUTO_CLOCK_IN && j.data == ClockJob(e, kind) && j.options.delay.Some?
    ensures e.attendanceData.value.isImmediate != 1 ==> 5000 <= j.options.delay.value < 975000
    ensures e.attendanceData.value.isImmediate == 1 ==>
      oneSecond <= j.options.delay.value < oneSecond + tenSeconds || (tenSeconds == 0 && j.options.delay.value == oneSecond)
  {
    QueuedJob(AUTO_CLOCK_IN, ClockJob(e, kind),
              JobOptions(Some(GetDelay(e.attendanceData.value.isImmediate, draw, tenSeconds, oneSecond))))
  }

  /** The position of the first entry without an attendance record (or the length). */
  function FirstMissing(s: seq<RosterEntry>): (k: nat)
    ensures k <= |s|
    ensures forall t :: 0 <= t < k ==> s[t].attendanceData.Some?
    ensures k < |s| ==> s[k].attendanceData.None?
  {
    if |s| == 0 || s[0].attendanceData.None? then 0 else 1 + FirstMissing(s[1..])
  }

  /** FirstMissing is characterised by its contract: the first k entries
      have records and entry k (if any) does not. */
  lemma {:induction false} FirstMissingIs(s: seq<RosterEntry>, k: nat)
    requires k <= |s|
    requires forall t :: 0 <= t < k ==> s[t].attendanceData.Some?
    requires k < |s| ==> s[k].attendanceData.None?
    ensures FirstMissing(s) == k
  {
    if k > 0 {
      assert s[0].attendanceData.Some?;
      forall t | 0 <= t < k - 1 ensures s[1..][t].attendanceData.Some? {
        assert s[1..][t] == s[t + 1];
      }
      FirstMissingIs(s[1..], k - 1);
    }
  }

  /** The jobs for a list of entries that all have records; job t takes the
      t-th pair of delay draws. */
  function JobsFor(s: seq<RosterEntry>, kind: string, delayDraw: nat -> DelayDraw, tenSeconds: nat, oneSecond: nat): (jobs: seq<QueuedJob>)
    requires forall t :: 0 <= t < |s| ==> s[t].attendanceData.Some?
    ensures |jobs| == |s|
    ensures forall t :: 0 <= t < |s| ==> jobs[t] == JobFor(s[t], kind, delayDraw(t), tenSeconds, oneSecond)
  {
    if |s| == 0 then []
    else JobsFor(s[..|s| - 1], kind, delayDraw, tenSeconds, oneSecond)
         + [JobFor(s[|s| - 1], kind, delayDraw(|s| - 1), tenSeconds, oneSecond)]
  }

  /** Enqueueing the job for entry i extends the jobs of the first i entries. */
  lemma JobsForStep(s: seq<RosterEntry>, i: nat, kind: string, delayDraw: nat -> DelayDraw, tenSeconds: nat, oneSecond: nat)
    requires i < |s| && forall t :: 0 <= t <= i ==> s[t].attendanceData.Some?
    ensures JobsFor(s[..i + 1], kind, delayDraw, tenSeconds, oneSecond)
            == JobsFor(s[..i], kind, delayDraw, tenSeconds, oneSecond) + [JobFor(s[i], kind, delayDraw(i), tenSeconds, oneSecond)]
  {
    assert s[..i + 1][..i] == s[..i];
  }

  datatype DispatchOutcome = Dispatched | Aborted(reason: Thrown)

  datatype DispatchPlan = DispatchPlan(outcome: DispatchOutcome, jobs: seq<QueuedJob>)

  /** dispatchClockInOrClockOutJob once the roster has been read: a null roster
      makes shuffleArray throw; otherwise the shuffled entries are enqueued in
      order until one has no attendance record, where reading isImmediate of
      null throws and ends the loop. */
  function PlanDispatch(data: Option<seq<RosterEntry>>, kind: string, swapDraw: nat -> Random,
                        delayDraw: nat -> DelayDraw, tenSeconds: nat, oneSecond: nat): DispatchPlan
  {
    match data
    case None => DispatchPlan(Aborted(PlainError(ReadOfNull("length"))), [])
    case Some(roster) =>
      var s := Shuffled(roster, swapDraw);
      var k := FirstMissing(s);
      DispatchPlan(if k == |s| then Dispatched else Aborted(PlainError(ReadOfNull("isImmediate"))),
                   JobsFor(s[..k], kind, delayDraw, tenSeconds, oneSecond))
  }

  /** The entries the jobs carry, in job order. */
  function JobEntries(jobs: seq<QueuedJob>): (es: seq<RosterEntry>)
    ensures |es| == |jobs|
    ensures forall t :: 0 <= t < |jobs| ==> es[t] == jobs[t].data.entry
  {
    if |jobs| == 0 then [] else [jobs[0].data.entry] + JobEntries(jobs[1..])
  }

  /** When every entry has an attendance record, the dispatch enqueues exactly
      one job per roster entry: in shuffled order, each carrying its entry,
      the type and its own getDelay result; the jobs' entries are a
      permutation of the roster. */
  lemma DispatchOneJobPerEntry(roster: seq<RosterEntry>, kind: string, swapDraw: nat -> Random,
                               delayDraw: nat -> DelayDraw, tenSeconds: nat, oneSecond: nat)
    requires forall i :: 0 <= i < |roster| ==> roster[i].attendanceData.Some?
    ensures var plan := PlanDispatch(Some(roster), kind, swapDraw, delayDraw, tenSeconds, oneSecond);
            plan.outcome == Dispatched &&
            |plan.jobs| == |roster| &&
            (forall t :: 0 <= t < |plan.jobs| ==>
               var e := Shuffled(roster, swapDraw)[t];
               plan.jobs[t].name == AUTO_CLOCK_IN && plan.jobs[t].data == ClockJob(e, kind) &&
               plan.jobs[t].options == JobOptions(Some(GetDelay(e.attendanceData.value.isImmediate, delayDraw(t), tenSeconds, oneSecond)))) &&
            multiset(JobEntries(plan.jobs)) == multiset(roster)
  {
    var s := Shuffled(roster, swapDraw);
    CompleteRosterPlan(roster, kind, swapDraw, delayDraw, tenSeconds, oneSecond);
    JobsForShape(s, kind, delayDraw, tenSeconds, oneSecond);
    ShuffledIsPermutation(roster, swapDraw);
  }

  /** Job t of JobsFor is the auto-clock-in job for entry t with its own
      delay, and the jobs carry the entries in order. */
  lemma JobsForShape(s: seq<RosterEntry>, kind: string, delayDraw: nat -> DelayDraw, tenSeconds: nat, oneSecond: nat)
    requires forall t :: 0 <= t < |s| ==> s[t].attendanceData.Some?
    ensures var jobs := JobsFor(s, kind, delayDraw, tenSeconds, oneSecond);
            |jobs| == |s| && JobEntries(jobs) == s &&
            forall t :: 0 <= t < |jobs| ==>
              jobs[t].name == AUTO_CLOCK_IN && jobs[t].data == ClockJob(s[t], kind) &&
              jobs[t].options == JobOptions(Some(GetDelay(s[t].attendanceData.value.isImmediate, delayDraw(t), tenSeconds, oneSecond)))
  {
    var jobs := JobsFor(s, kind, delayDraw, tenSeconds, oneSecond);
    assert JobEntries(jobs) == s;
  }

  /** With every record present the dispatch runs to the end of the shuffled
      roster. */
  lemma CompleteRosterPlan(roster: seq<RosterEntry>, kind: string, swapDraw: nat -> Random,
                           delayDraw: nat -> DelayDraw, tenSeconds: nat, oneSecond: nat)
    requires forall i :: 0 <= i < |roster| ==> roster[i].attendanceData.Some?
    ensures |Shuffled(roster, swapDraw)| == |roster|
    ensures forall t :: 0 <= t < |Shuffled(roster, swapDraw)| ==> Shuffled(roster, swapDraw)[t].attendanceData.Some?
    ensures PlanDispatch(Some(roster), kind, swapDraw, delayDraw, tenSeconds, oneSecond)
         == DispatchPlan(Dispatched, JobsFor(Shuffled(roster, swapDraw), kind, delayDraw, tenSeconds, oneSecond))
  {
    var s := Shuffled(roster, swapDraw);
    ShuffledKeepsRecords(roster, swapDraw);
    FirstMissingIs(s, |s|);
    assert s[..|s|] == s;
  }

  /** Shuffling keeps every entry, so when all roster entries have records all
      shuffled entries have them too. */
  lemma ShuffledKeepsRecords(roster: seq<RosterEntry>, swapDraw: nat -> Random)
    requires forall i :: 0 <= i < |roster| ==> roster[i].attendanceData.Some?
    ensures |Shuffled(roster, swapDraw)| == |roster|
    ensures forall t :: 0 <= t < |roster| ==> Shuffled(roster, swapDraw)[t].attendanceData.Some?
  {
    var s := Shuffled(roster, swapDraw);
    ShuffledIsPermutation(roster, swapDraw);
    assert |s| == |multiset(s)| == |multiset(roster)| == |roster|;
    forall t | 0 <= t < |s| ensures s[t].attendanceData.Some? {
      assert s[t] in multiset(roster);
    }
  }

  /** An empty roster enqueues nothing and completes. */
  lemma DispatchEmptyRoster(kind: string, swapDraw: nat -> Random, delayDraw: nat -> DelayDraw, tenSeconds: nat, oneSecond: nat)
    ensures PlanDispatch(Some([]), kind, swapDraw, delayDraw, tenSeconds, oneSecond) == DispatchPlan(Dispatched, [])
  {
  }

  /** A user without an active attendance record aborts the whole cycle: the
      jobs enqueued are those of the shuffled entries before the first such
      user, strictly fewer than the roster. */
  lemma DispatchAbortsAtMissingRecord(roster: seq<RosterEntry>, kind: string, swapDraw: nat -> Random,
                                      delayDraw: nat -> DelayDraw, tenSeconds: nat, oneSecond: nat, i: nat)
    requires i < |roster| && roster[i].attendanceData.None?
    ensures var plan := PlanDispatch(Some(roster), kind, swapDraw, delayDraw, tenSeconds, oneSecond);
            var s := Shuffled(roster, swapDraw);
            plan.outcome == Aborted(PlainError(ReadOfNull("isImmediate"))) &&
            |plan.jobs| < |roster| &&
            JobEntries(plan.jobs) == s[..|plan.jobs|] &&
            s[|plan.jobs|].attendanceData.None?
  {
    var s := Shuffled(roster, swapDraw);
    ShuffledIsPermutation(roster, swapDraw);
    assert roster[i] in multiset(s);
    var k := FirstMissing(s);
    assert k < |s|;
  }

  /** A failed roster read (data null) aborts before any job is enqueued. */
  lemma DispatchWithoutRoster(kind: string, swapDraw: nat -> Random, delayDraw: nat -> DelayDraw, tenSeconds: nat, oneSecond: nat)
    ensures PlanDispatch(None, kind, swapDraw, delayDraw, tenSeconds, oneSecond).jobs == []
  {
  }
}
