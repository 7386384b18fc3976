/** The records the services read and write: stored users and their
    attendance settings, roster entries, cache entries, queued jobs and mails. */
module Records {
  import opened Common
  import opened Json
  import opened Locations

  /** A row of the user table. */
  datatype UserRow = UserRow(
    id: int,
    email: string,
    imei: string,
    customerId: string,
    token: string,
    idNumber: string,
    deviceId: string,
    userGroupId: Option<int>,
    employeeId: string,
    companyId: int,
    infotechUserId: int,
    userToken: string,
    managementAppPassword: string)

  /** A row of the attendance-data table; at most one per user (keyed by userId). */
  datatype AttendanceData = AttendanceData(
    userId: int,
    locationName: string,
    latitude: string,
    longitude: string,
    isActive: int,
    remarks: string,
    timeZone: string,
    isImmediate: int,
    isSubscribeMail: bool)

  /** A user as user.findMany({include: {attendanceData: {where: {isActive: 1}}}})
      returns it: the included record is null unless it is active. */
  datatype RosterEntry = RosterEntry(user: UserRow, attendanceData: Option<AttendanceData>)

  /** What the cache holds, by key family. */
  datatype CacheValue =
    | HistoryList(records: seq<HistoryRecord>)    // history-{email}
    | RosterList(entries: seq<RosterEntry>)       // attendances-data
    | Fields(fields: seq<(string, Json)>)         // user-{email}-{appPassword}, userdata-{userToken}
    | UserRecord(row: UserRow)                    // {email}, after storing a user

  /** A cache entry: its value and its time to live (kept as metadata only). */
  datatype CacheEntry = CacheEntry(value: CacheValue, ttl: nat)

  type CacheMap = map<string, CacheEntry>

  const ROSTER_KEY: string := "attendances-data"

  function HistoryKey(email: string): string { "history-" + email }

  function UserKey(email: string, appPassword: string): string { "user-" + email + "-" + appPassword }

  function UserDataKey(userToken: string): string { "userdata-" + userToken }

  /** The payload of a clock-in/out job: the roster entry spread with `type`. */
  datatype ClockJob = ClockJob(entry: RosterEntry, kind: string)

  /** Bull's JobOptions as used here: `{delay}` or `{}`. */
  datatype JobOptions = JobOptions(delay: Option<int>)

  /** A job added to the ATTENDANCE_CLOCK_IN queue. */
  datatype QueuedJob = QueuedJob(name: string, data: ClockJob, options: JobOptions)

  const AUTO_CLOCK_IN: string := "auto-clock-in"

  /** A notification handed to the mail lane. */
  datatype Mail = Mail(recipient: string, subject: string, body: string)

  /** The attendance record as a JSON object (the relation included in a user). */
  function AttendanceJson(a: AttendanceData): Json
  {
    JObj([
      ("userId", JNum(a.userId)),
      ("locationName", JStr(a.locationName)),
      ("latitude", JStr(a.latitude)),
      ("longitude", JStr(a.longitude)),
      ("isActive", JNum(a.isActive)),
      ("remarks", JStr(a.remarks)),
      ("timeZone", JStr(a.timeZone)),
      ("isImmediate", JNum(a.isImmediate)),
      ("isSubscribeMail", JBool(a.isSubscribeMail))])
  }

  /** The entries of a user row, in column order. */
  function UserEntries(u: UserRow): seq<(string, Json)>
  {
    [ ("id", JNum(u.id)),
      ("email", JStr(u.email)),
      ("imei", JStr(u.imei)),
      ("customerId", JStr(u.customerId)),
      ("token", JStr(u.token)),
      ("idNumber", JStr(u.idNumber)),
      ("deviceId", JStr(u.deviceId)),
      ("userGroupId", match u.userGroupId case Some(g) => JNum(g) case None => JNull),
      ("employeeId", JStr(u.employeeId)),
      ("companyId", JNum(u.companyId)),
      ("infotechUserId", JNum(u.infotechUserId)),
      ("userToken", JStr(u.userToken)),
      ("managementAppPassword", JStr(u.managementAppPassword)) ]
  }

  /** The entries of a user with its attendanceData relation included. */
  function UserWithAttendanceEntries(u: UserRow, a: Option<AttendanceData>): seq<(string, Json)>
  {
    UserEntries(u) + [("attendanceData", match a case Some(r) => AttendanceJson(r) case None => JNull)]
  }
}
