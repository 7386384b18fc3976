/** The collaborators the services share, as mutable objects: the cache
    manager (a key -> (value, ttl) map), the ATTENDANCE_CLOCK_IN queue and the
    mail lane (append-only job lists), and the database (the user and
    attendance-data tables). */
module Infrastructure {
  import opened Common
  import opened Records

  class Cache {
    var entries: CacheMap

    constructor ()
      ensures entries == map[]
    {
      entries := map[];
    }

    /** cacheManager.get(key) */
    method Get(key: string) returns (v: Option<CacheValue>)
      ensures v == if key in entries then Some(entries[key].value) else None
    {
      v := if key in entries then Some(entries[key].value) else None;
    }

    /** cacheManager.set(key, value, ttl) */
    method Set(key: string, value: CacheValue, ttl: nat)
      modifies this
      ensures entries == old(entries)[key := CacheEntry(value, ttl)]
    {
      entries := entries[key := CacheEntry(value, ttl)];
    }

    /** cacheManager.del(key) */
    method Del(key: string)
      modifies this
      ensures entries == old(entries) - {key}
    {
      entries := entries - {key};
    }
  }

  /** BullQueueService over the ATTENDANCE_CLOCK_IN queue. */
  class ClockQueue {
    var jobs: seq<QueuedJob>

    constructor ()
      ensures jobs == []
    {
      jobs := [];
    }

    /** dispatchAutoClockInQueue(data, settings = {}): adds one
        'auto-clock-in' job with the given options. */
    method DispatchAutoClockInQueue(data: ClockJob, settings: JobOptions)
      modifies this
      ensures jobs == old(jobs) + [QueuedJob(AUTO_CLOCK_IN, data, settings)]
    {
      jobs := jobs + [QueuedJob(AUTO_CLOCK_IN, data, settings)];
    }
  }

  /** The notification lane the attendance service hands its mails to. */
  class MailLane {
    var mails: seq<Mail>

    constructor ()
      ensures mails == []
    {
      mails := [];
    }

    method DispatchMailQueue(mail: Mail)
      modifies this
      ensures mails == old(mails) + [mail]
    {
      mails := mails + [mail];
    }
  }

  /** The two tables the services use. `nextId` is the next auto-increment id. */
  class Database {
    var users: seq<UserRow>
    var attendance: map<int, AttendanceData>
    var nextId: int

    constructor ()
      ensures users == [] && attendance == map[] && nextId == 1
    {
      users := [];
      attendance := map[];
      nextId := 1;
    }
  }
}
