/** TaskService: two cron handlers that tag the roster with the clock type
    and enqueue one job per entry. Unlike AttendanceService's dispatch, this
    loop neither shuffles nor delays: each job is added with settings `{}`. */
module Tasks {
  import opened Common
  import opened Records
  import opened Infrastructure
  import opened AttendanceFlow
  import opened Attendance

  const CLOCK_IN: string := "Clock In"
  const CLOCK_OUT: string := "Clock Out"

  /** The jobs for a roster: the entries in roster order, each tagged with
      the type and without options. */
  function TaskJobs(roster: seq<RosterEntry>, kind: string): (jobs: seq<QueuedJob>)
    ensures |jobs| == |roster|
    ensures forall t :: 0 <= t < |roster| ==>
      jobs[t] == QueuedJob(AUTO_CLOCK_IN, ClockJob(roster[t], kind), JobOptions(None))
  {
    if |roster| == 0 then []
    else TaskJobs(roster[..|roster| - 1], kind) + [QueuedJob(AUTO_CLOCK_IN, ClockJob(roster[|roster| - 1], kind), JobOptions(None))]
  }

  /** The private dispatchClockInOrClockOutJob once the roster has been read:
      iterating a null `data` throws before anything is enqueued. */
  function TaskPlan(data: Option<seq<RosterEntry>>, kind: string): DispatchPlan
  {
    match data
    case None => DispatchPlan(Aborted(PlainError("attendances.data is not iterable")), [])
    case Some(roster) => DispatchPlan(Dispatched, TaskJobs(roster, kind))
  }

  /** One job per roster entry, in roster order (no shuffle): the entries the
      jobs carry are the roster itself, whether or not an entry has an
      attendance record, and no job carries a delay. */
  lemma TaskJobsKeepRoster(roster: seq<RosterEntry>, kind: string)
    ensures JobEntries(TaskPlan(Some(roster), kind).jobs) == roster
    ensures forall t :: 0 <= t < |roster| ==>
      TaskPlan(Some(roster), kind).jobs[t].data.kind == kind &&
      TaskPlan(Some(roster), kind).jobs[t].options.delay.None?
  {
    assert JobEntries(TaskJobs(roster, kind)) == roster;
  }

  /** An empty roster enqueues nothing; a failed read enqueues nothing either. */
  lemma TaskNothingToDispatch(kind: string)
    ensures TaskPlan(Some([]), kind) == DispatchPlan(Dispatched, [])
    ensures TaskPlan(None, kind).jobs == [] && TaskPlan(None, kind).outcome.Aborted?
  {
  }

  /** The two dispatch loops agree on a complete roster up to order and
      options: both enqueue a job for every entry, so their entries are the
      same multiset. */
  lemma TaskAndAttendanceDispatchAgree(roster: seq<RosterEntry>, kind: string, swapDraw: nat -> Random,
                                       delayDraw: nat -> Delay.DelayDraw, tenSeconds: nat, oneSecond: nat)
    requires forall i :: 0 <= i < |roster| ==> roster[i].attendanceData.Some?
    ensures multiset(JobEntries(TaskPlan(Some(roster), kind).jobs))
         == multiset(JobEntries(PlanDispatch(Some(roster), kind, swapDraw, delayDraw, tenSeconds, oneSecond).jobs))
  {
    TaskJobsKeepRoster(roster, kind);
    DispatchOneJobPerEntry(roster, kind, swapDraw, delayDraw, tenSeconds, oneSecond);
  }

  class TaskService {
    const attendance: AttendanceService
    const queue: ClockQueue

    /** Nest injects one BullQueueService into both services, so the task
        service adds its jobs to the attendance service's queue. */
    constructor (attendance: AttendanceService, queue: ClockQueue)
      requires queue == attendance.queue
      ensures this.attendance == attendance && this.queue == queue && this.queue == this.attendance.queue
    {
      this.attendance := attendance;
      this.queue := queue;
    }

    /** handleClockInCron: dispatch with type 'Clock In'. */
    method HandleClockInCron(dbError: Option<Thrown>) returns (outcome: DispatchOutcome)
      modifies attendance.cache, queue
      ensures var read := RequiredData(old(attendance.cache.entries), attendance.db.users, attendance.db.attendance, dbError);
              var plan := TaskPlan(read.response.data, CLOCK_IN);
              attendance.cache.entries == read.cache && queue.jobs == old(queue.jobs) + plan.jobs && outcome == plan.outcome
    {
      outcome := DispatchClockInOrClockOutJob(CLOCK_IN, dbError);
    }

    /** handleClockOutCron: dispatch with type 'Clock Out'. */
    method HandleClockOutCron(dbError: Option<Thrown>) returns (outcome: DispatchOutcome)
      modifies attendance.cache, queue
      ensures var read := RequiredData(old(attendance.cache.entries), attendance.db.users, attendance.db.attendance, dbError);
              var plan := TaskPlan(read.response.data, CLOCK_OUT);
              attendance.cache.entries == read.cache && queue.jobs == old(queue.jobs) + plan.jobs && outcome == plan.outcome
    {
      outcome := DispatchClockInOrClockOutJob(CLOCK_OUT, dbError);
    }

    /** The private dispatch loop: read the roster and add one job per entry. */
    method DispatchClockInOrClockOutJob(kind: string, dbError: Option<Thrown>) returns (outcome: DispatchOutcome)
      modifies attendance.cache, queue
      ensures var read := RequiredData(old(attendance.cache.entries), attendance.db.users, attendance.db.attendance, dbError);
              var plan := TaskPlan(read.response.data, kind);
              attendance.cache.entries == read.cache && queue.jobs == old(queue.jobs) + plan.jobs && outcome == plan.outcome
    {
      var attendances := attendance.GetAttendanceRequiredData(dbError);
      if attendances.data.None? {
        return Aborted(PlainError("attendances.data is not iterable"));
      }
      EnqueueTaskJobs(attendances.data.value, kind);
      return Dispatched;
    }

    /** The loop of dispatchClockInOrClockOutJob: one addition per entry. */
    method EnqueueTaskJobs(roster: seq<RosterEntry>, kind: string)
      modifies queue
      ensures queue.jobs == old(queue.jobs) + TaskJobs(roster, kind)
    {
      ghost var jobs0 := queue.jobs;
      for i := 0 to |roster|
        invariant queue.jobs == jobs0 + TaskJobs(roster[..i], kind)
      {
        queue.DispatchAutoClockInQueue(ClockJob(roster[i], kind), JobOptions(None));
        assert roster[..i + 1][..i] == roster[..i];
      }
      assert roster[..|roster|] == roster;
    }
  }
}
