/** AttendanceService as an object over the shared cache, queue, mail lane
    and database. Every method is proved equal to the state transition that
    AttendanceFlow describes; the provider calls, the database's failures and
    Math.random() come in as parameters. */
module Attendance {
  import opened Common
  import opened Records
  import opened Locations
  import opened Shuffle
  import opened Delay
  import opened Infrastructure
  import opened AttendanceFlow

  /** GetAttendanceHistoryRequestDto: who asks for the history (the payload
      fields only travel to the provider, whose reply is a parameter). */
  datatype HistoryRequest = HistoryRequest(employeeId: string, customerId: string, companyId: int,
                                           email: string, imei: string, token: string)

  class AttendanceService {
    const cache: Cache
    const queue: ClockQueue
    const mailLane: MailLane
    const db: Database
    /** Constants.TEN_SECONDS and Constants.ONE_SECOND, which src/constants.ts
        does not define. */
    const tenSeconds: nat
    const oneSecond: nat

    constructor (cache: Cache, queue: ClockQueue, mailLane: MailLane, db: Database, tenSeconds: nat, oneSecond: nat)
      ensures this.cache == cache && this.queue == queue && this.mailLane == mailLane && this.db == db
      ensures this.tenSeconds == tenSeconds && this.oneSecond == oneSecond
    {
      this.cache := cache;
      this.queue := queue;
      this.mailLane := mailLane;
      this.db := db;
      this.tenSeconds := tenSeconds;
      this.oneSecond := oneSecond;
    }

    /** fetchHistoryFromInfotech: the cached history, or the provider's list
        reversed and cached for an hour. */
    method FetchHistoryFromInfotech(data: HistoryRequest, reply: HistoryReply) returns (result: Result<seq<HistoryRecord>>)
      modifies cache
      ensures var f := FetchHistory(old(cache.entries), data.email, reply);
              result == f.result && cache.entries == f.cache
    {
      var cached := cache.Get(HistoryKey(data.email));
      if cached.Some? && cached.value.HistoryList? {
        return Ok(cached.value.records);
      }
      match reply {
        case ListReply(records) =>
          var reversed := Reverse(records);
          cache.Set(HistoryKey(data.email), HistoryList(reversed), ONE_HOURS);
          return Ok(reversed);
        case NullReply =>
          return Err(PlainError(ReadOfNull("data")));
        case FalsyReply =>
          return Err(PlainError(ReadOfUndefined("length")));
        case ObjectReply =>
          return Err(PlainError("historyData.reverse is not a function"));
        case Rejected(e) =>
          return Err(e);
      }
    }

    /** getAttendanceHistory: the newest record, or one page of the history. */
    method GetAttendanceHistory(data: HistoryRequest, fetchLastItem: bool, page: int, perPage: int, reply: HistoryReply)
      returns (response: HistoryResponse)
      requires perPage >= 1
      modifies cache
      ensures var f := FetchHistory(old(cache.entries), data.email, reply);
              response == AttendanceHistory(f.result, fetchLastItem, page, perPage) && cache.entries == f.cache
    {
      var historyData := FetchHistoryFromInfotech(data, reply);
      response := AttendanceHistory(historyData, fetchLastItem, page, perPage);
    }

    /** getLocationHistory: the distinct locations of the history, numbered. */
    method GetLocationHistory(data: HistoryRequest, reply: HistoryReply) returns (response: LocationResponse)
      modifies cache
      ensures var f := FetchHistory(old(cache.entries), data.email, reply);
              response == LocationHistoryResponse(f.result) && cache.entries == f.cache
    {
      var history := FetchHistoryFromInfotech(data, reply);
      response := LocationHistoryResponse(history);
    }

    /** storeDataRequiredForClockIn: upsert by userId, then drop the cached roster. */
    method StoreDataRequiredForClockIn(attendanceData: AttendanceInput, dbError: Option<Thrown>)
      returns (stored: Option<AttendanceData>)
      modifies cache, db
      ensures var r := StoreAttendance(old(cache.entries), old(db.attendance), attendanceData, dbError);
              stored == r.stored && db.attendance == r.attendance && cache.entries == r.cache
      ensures db.users == old(db.users) && db.nextId == old(db.nextId)
    {
      if dbError.Some? || attendanceData.userId.None? {
        return None;
      }
      var row := AttendanceData(attendanceData.userId.value, attendanceData.locationName, attendanceData.latitude,
                                attendanceData.longitude, attendanceData.isActive, RemarksOrEmpty(attendanceData.remarks),
                                attendanceData.timeZone, attendanceData.isImmediate, attendanceData.isSubscribeMail);
      db.attendance := db.attendance[row.userId := row];
      cache.Del(ROSTER_KEY);
      return Some(row);
    }

    /** getAttendanceRequiredData: the roster, read through the cache for a day. */
    method GetAttendanceRequiredData(dbError: Option<Thrown>) returns (response: RosterResponse)
      modifies cache
      ensures var r := RequiredData(old(cache.entries), db.users, db.attendance, dbError);
              response == r.response && cache.entries == r.cache
    {
      var cached := cache.Get(ROSTER_KEY);
      if cached.Some? && cached.value.RosterList? {
        return RosterResponse(true, "", OK, Some(cached.value.entries));
      }
      if dbError.Some? {
        return RosterResponse(false, "Can't get attendance data. Reason: " + dbError.value.message, INTERNAL_SERVER_ERROR, None);
      }
      var data := RosterOf(db.users, db.attendance);
      cache.Set(ROSTER_KEY, RosterList(data), TWENTY_FOUR_HOURS);
      return RosterResponse(true, "", OK, Some(data));
    }

    /** attendanceClockIn: the reaction to one provider call for one job. */
    method AttendanceClockIn(data: ClockJob, call: CallOutcome, time: string) returns (outcome: ClockOutcome)
      modifies cache, mailLane
      ensures var r := ClockIn(old(cache.entries), old(mailLane.mails), data, call, time);
              outcome == r.outcome && cache.entries == r.cache && mailLane.mails == r.mails
    {
      if data.entry.attendanceData.None? {
        // building the payload reads a property of null, and so does the catch block
        return Escaped(PlainError(ReadOfNull("isSubscribeMail")));
      }
      var attendance := data.entry.attendanceData.value;
      match call {
        case Resolved =>
          cache.Del(HistoryKey(data.entry.user.email));
          if attendance.isSubscribeMail {
            mailLane.DispatchMailQueue(SuccessMail(data.entry.user.email, data.kind, time, attendance.locationName));
          }
          return ClockedIn;
        case Threw(e) =>
          if attendance.isSubscribeMail {
            mailLane.DispatchMailQueue(FailureMail(data.entry.user.email, data.kind));
          }
          return Failed(e);
      }
    }

    /** shuffleArray: Fisher-Yates in place, from the last index down to 1. */
    method ShuffleArray<T>(items: array<T>, draw: nat -> Random) returns (r: array<T>)
      modifies items
      ensures r == items
      ensures items[..] == Shuffled(old(items[..]), draw)
      ensures multiset(items[..]) == multiset(old(items[..]))
    {
      ghost var original := items[..];
      ghost var current := original;
      var i := items.Length - 1;
      while i > 0
        invariant -1 <= i < items.Length
        invariant items[..] == current
        invariant SwapDown(current, draw, i) == Shuffled(original, draw)
        decreases i
      {
        var j := SwapIndex(draw, i);
        var t := items[i];
        items[i] := items[j];
        items[j] := t;
        SwapStep(current, items[..], draw, i, j);
        current := items[..];
        i := i - 1;
      }
      ShuffledIsPermutation(original, draw);
      return items;
    }

    /** dispatchClockInOrClockOutJob: read the roster, shuffle it and enqueue
        one delayed 'auto-clock-in' job per entry, stopping where an entry has
        no attendance record. */
    method DispatchClockInOrClockOutJob(kind: string, dbError: Option<Thrown>, swapDraw: nat -> Random,
                                        delayDraw: nat -> DelayDraw)
      returns (outcome: DispatchOutcome)
      modifies cache, queue
      ensures var read := RequiredData(old(cache.entries), db.users, db.attendance, dbError);
              var plan := PlanDispatch(read.response.data, kind, swapDraw, delayDraw, tenSeconds, oneSecond);
              cache.entries == read.cache && queue.jobs == old(queue.jobs) + plan.jobs && outcome == plan.outcome
    {
      var attendances := GetAttendanceRequiredData(dbError);
      outcome := DispatchRoster(attendances.data, kind, swapDraw, delayDraw);
    }

    /** The part of dispatchClockInOrClockOutJob after the roster read:
        shuffle the roster's entries and enqueue their jobs. */
    method DispatchRoster(data: Option<seq<RosterEntry>>, kind: string, swapDraw: nat -> Random,
                          delayDraw: nat -> DelayDraw)
      returns (outcome: DispatchOutcome)
      modifies queue
      ensures var plan := PlanDispatch(data, kind, swapDraw, delayDraw, tenSeconds, oneSecond);
              queue.jobs == old(queue.jobs) + plan.jobs && outcome == plan.outcome
    {
      if data.None? {
        // shuffleArray reads `length` of null
        return Aborted(PlainError(ReadOfNull("length")));
      }
      var roster := data.value;
      var items := new RosterEntry[|roster|](k requires 0 <= k < |roster| => roster[k]);
      assert items[..] == roster;
      items := ShuffleArray(items, swapDraw);
      outcome := EnqueueClockJobs(items, kind, delayDraw);
    }

    /** The for-of loop of dispatchClockInOrClockOutJob over the shuffled
        entries: each entry's delay is read from its attendance record, and an
        entry without one throws, ending the loop. */
    method EnqueueClockJobs(items: array<RosterEntry>, kind: string, delayDraw: nat -> DelayDraw)
      returns (outcome: DispatchOutcome)
      modifies queue
      ensures var s := old(items[..]);
              var k := FirstMissing(s);
              queue.jobs == old(queue.jobs) + JobsFor(s[..k], kind, delayDraw, tenSeconds, oneSecond) &&
              outcome == if k == |s| then Dispatched else Aborted(PlainError(ReadOfNull("isImmediate")))
    {
      ghost var s := items[..];
      var i := 0;
      while i < items.Length
        invariant 0 <= i <= items.Length
        invariant forall t :: 0 <= t < i ==> s[t].attendanceData.Some?
        invariant queue.jobs == old(queue.jobs) + JobsFor(s[..i], kind, delayDraw, tenSeconds, oneSecond)
      {
        var attendance := items[i];
        if attendance.attendanceData.None? {
          // reading isImmediate of null throws a TypeError
          FirstMissingIs(s, i);
          return Aborted(PlainError(ReadOfNull("isImmediate")));
        }
        var delay := GetDelay(attendance.attendanceData.value.isImmediate, delayDraw(i), tenSeconds, oneSecond);
        queue.DispatchAutoClockInQueue(ClockJob(attendance, kind), JobOptions(Some(delay)));
        JobsForStep(s, i, kind, delayDraw, tenSeconds, oneSecond);
        i := i + 1;
      }
      FirstMissingIs(s, |s|);
      assert s[..i] == s;
      return Dispatched;
    }
  }
}
