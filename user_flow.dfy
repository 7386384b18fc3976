/** What each operation of UserService does, as a function of the state it
    reads (the cache map, the user table, the attendance table) and of the
    outside world's answers, which come in as parameters: the provider's
    reply, the random IMEI, bcrypt's hash and compare, the encryption
    service, and the errors the database may throw. */
module UserFlow {
  import opened Common
  import opened Json
  import opened Helper
  import opened Records
  import opened AttendanceFlow

  // ---------------------------------------------------------------------
  // Requests, replies and responses
  // ---------------------------------------------------------------------

  /** LoginRequestDto as the controller hands it over. `appPassword` is not a
      declared field of the DTO, but the validation pipe does not strip
      unknown properties, so the login body's appPassword arrives. */
  datatype LoginRequest = LoginRequest(kind: string, email: string, password: string, appPassword: string)

  datatype Customer = Customer(customerId: string)

  /** The provider's UserAuthorization object. */
  datatype Authorization = Authorization(customer: Option<Customer>, empCode: string, companyId: int, userId: int)

  /** What `await fetchApi(...)` yields for the user-information path: null
      (the api service returns null when the request fails), a user object
      whose fields may be missing, or a rejection (the body was not JSON). */
  datatype UserInfoReply =
    | InfoNull
    | InfoReply(userId: Option<int>, iToken: string, idNumber: string, authorization: Option<Authorization>)
    | InfoRejected(e: Thrown)

  /** What fetchUserInformationFromInfotech returns for a known user. The
      encryption service yields null when encryption fails. */
  datatype UserInformation = UserInformation(
    token: string,
    email: string,
    imei: string,
    deviceId: string,
    customerId: string,
    idNumber: string,
    employeeId: string,
    companyId: int,
    infotechUserId: int,
    userToken: Option<string>)

  /** The `data` of a user response: an object read from the store (or the
      cache), or the provider's user information. */
  datatype UserPayload = Entries(fields: seq<(string, Json)>) | Info(info: UserInformation)

  /** ResponseServiceType for the user endpoints. */
  datatype UserResponse = UserResponse(status: bool, message: string, code: Code, data: Option<UserPayload>)

  const PASSWORD_FIELD: string := "managementAppPassword"

  /** The `code: e.status` of a caught error. */
  function StatusOf(e: Thrown): Code
  {
    match e.status case Some(s) => Status(s) case None => Undefined
  }

  /** Whether an entry list has a property named `key`. */
  predicate HasKey(fields: seq<(string, Json)>, key: string)
  {
    exists i :: 0 <= i < |fields| && fields[i].0 == key
  }

  /** The value the cache holds under `key` when it is an object read from the
      user table; a value of another family is treated as a miss. */
  function CachedFields(cache: CacheMap, key: string): Option<seq<(string, Json)>>
  {
    if key in cache && cache[key].value.Fields? then Some(cache[key].value.fields) else None
  }

  // ---------------------------------------------------------------------
  // Looking users up in the user table
  // ---------------------------------------------------------------------

  /** A unique column of the user table and the value looked up in it. */
  datatype Column = ByEmail(email: string) | ById(id: int) | ByToken(userToken: string)

  /** Whether a row holds the looked-up value in that column. */
  predicate KeyedBy(u: UserRow, key: Column)
  {
    match key
    case ByEmail(email) => u.email == email
    case ById(id) => u.id == id
    case ByToken(userToken) => u.userToken == userToken
  }

  /** `findUnique`/`findFirst` on one column: the position of the first user
      holding the value, or none exactly when no user holds it. */
  function IndexOf(users: seq<UserRow>, key: Column): (k: Option<nat>)
    ensures k.Some? ==> k.value < |users| && KeyedBy(users[k.value], key) &&
                        forall j :: 0 <= j < k.value ==> !KeyedBy(users[j], key)
    ensures k.None? ==> forall j :: 0 <= j < |users| ==> !KeyedBy(users[j], key)
  {
    if |users| == 0 then None
    else if KeyedBy(users[|users| - 1], key) && IndexOf(users[..|users| - 1], key).None? then Some(|users| - 1)
    else IndexOf(users[..|users| - 1], key)
  }

  /** The database's constraints on the user table: ids and emails are
      unique, and every id is below the next auto-increment value. */
  predicate UserTable(users: seq<UserRow>, nextId: int)
  {
    (forall i, j :: 0 <= i < j < |users| ==> users[i].id != users[j].id && users[i].email != users[j].email) &&
    (forall i :: 0 <= i < |users| ==> users[i].id < nextId)
  }

  // ---------------------------------------------------------------------
  // fetchUserInformationFromInfotech and buildUserToken
  // ---------------------------------------------------------------------

  /** The object buildUserToken(imei, email, employeeId) serialises. */
  function UserTokenFormula(imei: string, email: string, employeeId: string): Json
  {
    JObj([("imei", JStr(imei)), ("email", JStr(email)), ("employeeId", JStr(employeeId))])
  }

  /** buildUserToken: the encrypted JSON of the formula. */
  function BuildUserToken(imei: string, email: string, employeeId: string, encrypt: string -> Option<string>): Option<string>
  {
    encrypt(Stringify(UserTokenFormula(imei, email, employeeId)))
  }

  /** fetchUserInformationFromInfotech for the payload {IMEINo: imei,
      UserEmail: email, ...}: null when the provider gives no user (null, a
      missing or zero UserId), a TypeError when UserAuthorization or its
      Customer is missing, else the mapped fields plus the user token. The
      user token is built with the email passed where buildUserToken expects
      the IMEI and the IMEI where it expects the email. */
  function FetchUserInformation(email: string, imei: string, reply: UserInfoReply, encrypt: string -> Option<string>)
    : (r: Result<Option<UserInformation>>)
    ensures r == Ok(None) <==>
      reply.InfoNull? || (reply.InfoReply? && (reply.userId.None? || reply.userId.value == 0))
    ensures r.Err? <==>
      reply.InfoRejected? ||
      (reply.InfoReply? && reply.userId.Some? && reply.userId.value != 0 &&
       (reply.authorization.None? || reply.authorization.value.customer.None?))
    ensures r.Ok? && r.value.Some? ==>
      var info := r.value.value;
      var auth := reply.authorization.value;
      info.email == email && info.imei == imei && info.deviceId == imei &&
      info.token == reply.iToken && info.idNumber == reply.idNumber &&
      info.customerId == auth.customer.value.customerId && info.employeeId == auth.empCode &&
      info.companyId == auth.companyId && info.infotechUserId == auth.userId &&
      info.userToken == encrypt(Stringify(UserTokenFormula(email, imei, auth.empCode)))
  {
    match reply
    case InfoRejected(e) => Err(e)
    case InfoNull => Ok(None)
    case InfoReply(userId, iToken, idNumber, authorization) =>
      if userId.None? || userId.value == 0 then Ok(None)
      else if authorization.None? then Err(PlainError(ReadOfUndefined("Customer")))
      else if authorization.value.customer.None? then Err(PlainError(ReadOfUndefined("CustomerId")))
      else
        var auth := authorization.value;
        Ok(Some(UserInformation(iToken, email, imei, imei, auth.customer.value.customerId, idNumber,
                                auth.empCode, auth.companyId, auth.userId,
                                BuildUserToken(email, imei, auth.empCode, encrypt))))
  }

  /** The user token's formula records the email under "imei" and the IMEI
      under "email": it is the formula of the swapped pair. */
  lemma UserTokenHasSwappedFields(email: string, imei: string, reply: UserInfoReply, encrypt: string -> Option<string>)
    requires FetchUserInformation(email, imei, reply, encrypt).Ok?
    requires FetchUserInformation(email, imei, reply, encrypt).value.Some?
    ensures var info := FetchUserInformation(email, imei, reply, encrypt).value.value;
            info.userToken == BuildUserToken(info.email, info.imei, info.employeeId, encrypt) &&
            info.userToken == encrypt(Stringify(JObj([("imei", JStr(info.email)), ("email", JStr(info.imei)),
                                                      ("employeeId", JStr(info.employeeId))])))
  {
  }

  // ---------------------------------------------------------------------
  // getUserInformationFromDb
  // ---------------------------------------------------------------------

  datatype DbLookup = DbLookup(result: Result<Option<seq<(string, Json)>>>, cache: CacheMap)

  /** The stored user with its attendance relation, as findUnique({include:
      {attendanceData: true}}) returns it, without the password hash. */
  function PublicUser(u: UserRow, attendance: map<int, AttendanceData>): seq<(string, Json)>
  {
    ExcludeField(UserWithAttendanceEntries(u, if u.id in attendance then Some(attendance[u.id]) else None), [PASSWORD_FIELD])
  }

  /** getUserInformationFromDb(email, appPassword): a cached object under
      user-{email}-{appPassword} is returned as is; otherwise the user with
      this email whose stored hash matches appPassword is returned without its
      hash and cached for an hour; an unknown email or a wrong password gives
      null. `findError` is the error findUnique may throw. */
  function UserFromDb(cache: CacheMap, users: seq<UserRow>, attendance: map<int, AttendanceData>,
                      email: string, appPassword: string, matches: (string, string) -> bool,
                      findError: Option<Thrown>): (r: DbLookup)
    // a hit is answered from the cache alone
    ensures CachedFields(cache, UserKey(email, appPassword)).Some? ==>
      r == DbLookup(Ok(CachedFields(cache, UserKey(email, appPassword))), cache)
    ensures CachedFields(cache, UserKey(email, appPassword)).None? ==>
      (r.result.Err? <==> findError.Some?) &&
      (r.result == Ok(None) <==>
         findError.None? &&
         (IndexOf(users, ByEmail(email)).None? ||
          !matches(appPassword, users[IndexOf(users, ByEmail(email)).value].managementAppPassword)))
    // a user found in the store: all of its fields but the hash, now cached
    ensures CachedFields(cache, UserKey(email, appPassword)).None? && r.result.Ok? && r.result.value.Some? ==>
      var u := users[IndexOf(users, ByEmail(email)).value];
      u.email == email && matches(appPassword, u.managementAppPassword) &&
      r.result.value.value == PublicUser(u, attendance) &&
      !HasKey(r.result.value.value, PASSWORD_FIELD) &&
      r.cache == cache[UserKey(email, appPassword) := CacheEntry(Fields(r.result.value.value), ONE_HOURS)]
    ensures r.result.Ok? && r.result.value.Some? ==> CachedFields(r.cache, UserKey(email, appPassword)) == r.result.value
    ensures r.result.Err? || r.result.value.None? ==> r.cache == cache
  {
    var key := UserKey(email, appPassword);
    var cached := CachedFields(cache, key);
    if cached.Some? then DbLookup(Ok(cached), cache)
    else if findError.Some? then DbLookup(Err(findError.value), cache)
    else
      var k := IndexOf(users, ByEmail(email));
      if k.None? then DbLookup(Ok(None), cache)
      else if !matches(appPassword, users[k.value].managementAppPassword) then DbLookup(Ok(None), cache)
      else
        var fields := PublicUser(users[k.value], attendance);
        DbLookup(Ok(Some(fields)), cache[key := CacheEntry(Fields(fields), ONE_HOURS)])
  }

  /** Once a login has succeeded, the same email and app password are
      answered from the cache with the same object, whatever the store now
      holds (a changed password or a deleted user included) and even when the
      store would fail. */
  lemma UserFromDbReadThrough(cache: CacheMap, users: seq<UserRow>, attendance: map<int, AttendanceData>,
                              email: string, appPassword: string, matches: (string, string) -> bool,
                              findError: Option<Thrown>,
                              users': seq<UserRow>, attendance': map<int, AttendanceData>,
                              matches': (string, string) -> bool, findError': Option<Thrown>)
    requires UserFromDb(cache, users, attendance, email, appPassword, matches, findError).result.Ok?
    requires UserFromDb(cache, users, attendance, email, appPassword, matches, findError).result.value.Some?
    ensures var first := UserFromDb(cache, users, attendance, email, appPassword, matches, findError);
            UserFromDb(first.cache, users', attendance', email, appPassword, matches', findError') == first
  {
  }

  // ---------------------------------------------------------------------
  // getUserInformation
  // ---------------------------------------------------------------------

  function FetchFailure(reason: string): string
  {
    "Can't fetch user information from infotech. Reason: " + reason
  }

  /** The catch block of getUserInformation: a BadRequestException keeps its
      own message, any other error is prefixed; the code is `e.status`. */
  function InfoFailure(e: Thrown): (r: UserResponse)
    ensures !r.status && r.data.None? && r.code == StatusOf(e)
    ensures e.status == Some(BAD_REQUEST) ==> r.message == e.message
    ensures e.status != Some(BAD_REQUEST) ==> r.message == FetchFailure(e.message)
  {
    UserResponse(false, if e.status == Some(BAD_REQUEST) then e.message else FetchFailure(e.message), StatusOf(e), None)
  }

  const NOT_IN_DB: string := "User not found in our db."
  const WRONG_CREDENTIALS: string := "Credentials might be wrong."

  datatype UserRead = UserRead(response: UserResponse, cache: CacheMap)

  /** getUserInformation: a login is answered from the store (or the cache)
      with the app password; any other type asks the provider with a freshly
      generated IMEI. */
  function UserInformationFor(cache: CacheMap, users: seq<UserRow>, attendance: map<int, AttendanceData>,
                              data: LoginRequest, imei: string, reply: UserInfoReply,
                              encrypt: string -> Option<string>, matches: (string, string) -> bool,
                              findError: Option<Thrown>): (r: UserRead)
    ensures r.response.status <==> r.response.data.Some?
    ensures r.response.status ==> r.response.code == Status(OK)
    ensures data.kind == "login" ==>
      var l := UserFromDb(cache, users, attendance, data.email, data.appPassword, matches, findError);
      r.cache == l.cache &&
      (l.result == Ok(None) ==> r.response == UserResponse(false, NOT_IN_DB, Status(BAD_REQUEST), None)) &&
      (l.result.Ok? && l.result.value.Some? ==> r.response.data == Some(Entries(l.result.value.value))) &&
      (l.result.Err? ==> r.response == InfoFailure(l.result.error))
    ensures data.kind != "login" ==>
      var f := FetchUserInformation(data.email, imei, reply, encrypt);
      r.cache == cache &&
      (f == Ok(None) ==> r.response == UserResponse(false, FetchFailure(WRONG_CREDENTIALS), Status(UNAUTHORIZED), None)) &&
      (f.Ok? && f.value.Some? ==> r.response.data == Some(Info(f.value.value))) &&
      (f.Err? ==> r.response == InfoFailure(f.error))
  {
    if data.kind == "login" then
      var l := UserFromDb(cache, users, attendance, data.email, data.appPassword, matches, findError);
      match l.result
      case Err(e) => UserRead(InfoFailure(e), l.cache)
      case Ok(None) => UserRead(InfoFailure(HttpException(BAD_REQUEST, NOT_IN_DB)), l.cache)
      case Ok(Some(fields)) => UserRead(UserResponse(true, "", Status(OK), Some(Entries(fields))), l.cache)
    else
      match FetchUserInformation(data.email, imei, reply, encrypt)
      case Err(e) => UserRead(InfoFailure(e), cache)
      case Ok(None) => UserRead(InfoFailure(HttpException(UNAUTHORIZED, WRONG_CREDENTIALS)), cache)
      case Ok(Some(info)) => UserRead(UserResponse(true, "", Status(OK), Some(Info(info))), cache)
  }

  /** A login never asks the provider: its answer does not depend on the
      provider's reply, the IMEI or the encryption service. */
  lemma LoginIgnoresProvider(cache: CacheMap, users: seq<UserRow>, attendance: map<int, AttendanceData>,
                             data: LoginRequest, matches: (string, string) -> bool, findError: Option<Thrown>,
                             imei: string, reply: UserInfoReply, encrypt: string -> Option<string>,
                             imei': string, reply': UserInfoReply, encrypt': string -> Option<string>)
    requires data.kind == "login"
    ensures UserInformationFor(cache, users, attendance, data, imei, reply, encrypt, matches, findError)
         == UserInformationFor(cache, users, attendance, data, imei', reply', encrypt', matches, findError)
  {
  }

  /** Any other type never reads the store or the cache. */
  lemma ProviderIgnoresStore(cache: CacheMap, users: seq<UserRow>, attendance: map<int, AttendanceData>,
                             data: LoginRequest, imei: string, reply: UserInfoReply, encrypt: string -> Option<string>,
                             matches: (string, string) -> bool, findError: Option<Thrown>,
                             users': seq<UserRow>, attendance': map<int, AttendanceData>,
                             matches': (string, string) -> bool, findError': Option<Thrown>)
    requires data.kind != "login"
    ensures UserInformationFor(cache, users, attendance, data, imei, reply, encrypt, matches, findError).response
         == UserInformationFor(cache, users', attendance', data, imei, reply, encrypt, matches', findError').response
  {
  }

  // ---------------------------------------------------------------------
  // storeUserInformation
  // ---------------------------------------------------------------------

  /** UserAttendanceDto, the attendance settings sent with a user. */
  datatype AttendanceRequest = AttendanceRequest(
    locationName: string,
    latitude: string,
    longitude: string,
    isActive: int,
    remarks: Option<string>,
    isSubscribeMail: bool,
    isImmediate: int)

  /** UserRequestDto; `attendanceData` may be absent from the body. */
  datatype UserRequest = UserRequest(
    email: string,
    deviceId: string,
    imei: string,
    token: string,
    customerId: string,
    idNumber: string,
    userGroupId: Option<int>,
    employeeId: string,
    companyId: int,
    infotechUserId: int,
    userToken: string,
    appPassword: string,
    attendanceData: Option<AttendanceRequest>)

  /** UserLocationEnum.INDONESIA, TimezoneCodeEnum.INDONESIA and
      TimezoneCodeEnum.MALAYSIA, whose values src/enums does not show. */
  datatype Regions = Regions(indonesiaGroup: int, indonesiaZone: string, malaysiaZone: string)

  /** The time zone of a user's group: Indonesia's for the Indonesian group,
      Malaysia's for every other group and for a missing one. */
  function TimeZoneFor(regions: Regions, userGroupId: Option<int>): (z: string)
    ensures z == regions.indonesiaZone || z == regions.malaysiaZone
    ensures regions.indonesiaZone != regions.malaysiaZone ==>
      (z == regions.indonesiaZone <==> userGroupId == Some(regions.indonesiaGroup))
  {
    if userGroupId == Some(regions.indonesiaGroup) then regions.indonesiaZone else regions.malaysiaZone
  }

  datatype Upserted = Upserted(users: seq<UserRow>, nextId: int, row: UserRow)

  /** user.upsert({where: {email}}): an existing user gets the new token,
      deviceId and userToken and keeps everything else (its password hash
      included); a new user is created with the deviceId set to the IMEI and
      the hash of the app password. */
  function UpsertUser(users: seq<UserRow>, nextId: int, data: UserRequest, hash: string): (r: Upserted)
    ensures IndexOf(users, ByEmail(data.email)).Some? ==>
      var k := IndexOf(users, ByEmail(data.email)).value;
      r.row == users[k].(token := data.token, deviceId := data.deviceId, userToken := data.userToken) &&
      r.users == users[k := r.row] && r.nextId == nextId
    ensures IndexOf(users, ByEmail(data.email)).None? ==>
      r.row == UserRow(nextId, data.email, data.imei, data.customerId, data.token, data.idNumber, data.imei,
                       data.userGroupId, data.employeeId, data.companyId, data.infotechUserId, data.userToken, hash) &&
      r.users == users + [r.row] && r.nextId == nextId + 1
  {
    var k := IndexOf(users, ByEmail(data.email));
    if k.Some? then
      var row := users[k.value].(token := data.token, deviceId := data.deviceId, userToken := data.userToken);
      Upserted(users[k.value := row], nextId, row)
    else
      var row := UserRow(nextId, data.email, data.imei, data.customerId, data.token, data.idNumber, data.imei,
                         data.userGroupId, data.employeeId, data.companyId, data.infotechUserId, data.userToken, hash);
      Upserted(users + [row], nextId + 1, row)
  }

  /** The upsert keeps the table's constraints, and afterwards the email
      finds the upserted row. */
  lemma {:induction false} UpsertKeepsTable(users: seq<UserRow>, nextId: int, data: UserRequest, hash: string)
    requires UserTable(users, nextId)
    ensures var r := UpsertUser(users, nextId, data, hash);
            UserTable(r.users, r.nextId) && r.row.email == data.email &&
            IndexOf(r.users, ByEmail(data.email)).Some? && r.users[IndexOf(r.users, ByEmail(data.email)).value] == r.row
  {
    var r := UpsertUser(users, nextId, data, hash);
    var k := IndexOf(users, ByEmail(data.email));
    if k.Some? {
      assert r.users[k.value] == r.row;
      forall i, j | 0 <= i < j < |r.users|
        ensures r.users[i].id != r.users[j].id && r.users[i].email != r.users[j].email
      {
        assert r.users[i].id == users[i].id && r.users[i].email == users[i].email;
        assert r.users[j].id == users[j].id && r.users[j].email == users[j].email;
      }
      IndexFindsUnique(r.users, k.value, data.email);
    } else {
      assert r.users[|users|] == r.row;
      IndexFindsUnique(r.users, |users|, data.email);
    }
  }

  /** With unique emails, the position of an email is the one holding it. */
  lemma IndexFindsUnique(users: seq<UserRow>, k: nat, email: string)
    requires k < |users| && users[k].email == email
    requires forall i, j :: 0 <= i < j < |users| ==> users[i].email != users[j].email
    ensures IndexOf(users, ByEmail(email)) == Some(k)
  {
  }

  function StoreFailureMessage(reason: string): string
  {
    "Failed to store user information. Reason: " + reason
  }

  const ATTENDANCE_NOT_STORED: string := "Failed to store attendance data."

  /** The state storeUserInformation leaves behind, with its response. */
  datatype StoreUserResult = StoreUserResult(response: UserResponse, cache: CacheMap, users: seq<UserRow>,
                                             nextId: int, attendance: map<int, AttendanceData>)

  /** The attendance settings storeUserInformation passes on for a user. */
  function AttendanceFor(userId: int, a: AttendanceRequest, timeZone: string): AttendanceInput
  {
    AttendanceInput(Some(userId), a.locationName, a.latitude, a.longitude, a.isActive, a.remarks,
                    timeZone, a.isImmediate, a.isSubscribeMail)
  }

  /** storeUserInformation: upsert the user in a transaction, store its
      attendance settings with the time zone of its group, then cache the
      user under its email. `txError` is an error inside the transaction
      (which then leaves the table as it was), `attendanceError` one that
      storeDataRequiredForClockIn swallows. Every failure is a 500 whose
      message carries the reason; a failure after the transaction keeps the
      upserted user. */
  function StoreUser(cache: CacheMap, users: seq<UserRow>, nextId: int, attendance: map<int, AttendanceData>,
                     data: UserRequest, hash: string, regions: Regions,
                     txError: Option<Thrown>, attendanceError: Option<Thrown>): (r: StoreUserResult)
    ensures r.response.status <==> txError.None? && data.attendanceData.Some? && attendanceError.None?
    ensures r.response.status ==> r.response.code == Status(CREATED)
    ensures !r.response.status ==> r.response.code == Status(INTERNAL_SERVER_ERROR) && r.response.data == None
    ensures txError.Some? ==>
      r == StoreUserResult(UserResponse(false, StoreFailureMessage(txError.value.message), Status(INTERNAL_SERVER_ERROR), None),
                           cache, users, nextId, attendance)
    ensures txError.None? ==>
      var up := UpsertUser(users, nextId, data, hash);
      r.users == up.users && r.nextId == up.nextId &&
      (data.attendanceData.None? ==>
         r.response.message == StoreFailureMessage(ReadOfUndefined("locationName")) &&
         r.cache == cache && r.attendance == attendance) &&
      (data.attendanceData.Some? && attendanceError.Some? ==>
         r.response.message == StoreFailureMessage(ATTENDANCE_NOT_STORED) &&
         r.cache == cache && r.attendance == attendance) &&
      (r.response.status ==>
         var a := data.attendanceData.value;
         var input := AttendanceFor(up.row.id, a, TimeZoneFor(regions, data.userGroupId));
         var s := StoreAttendance(cache, attendance, input, None);
         r.attendance == s.attendance &&
         r.cache == (cache - {ROSTER_KEY})[data.email := CacheEntry(UserRecord(up.row), ONE_HOURS)] &&
         r.response.data == Some(Entries(UserWithAttendanceEntries(up.row, s.stored))))
  {
    if txError.Some? then
      StoreUserResult(UserResponse(false, StoreFailureMessage(txError.value.message), Status(INTERNAL_SERVER_ERROR), None),
                      cache, users, nextId, attendance)
    else
      var up := UpsertUser(users, nextId, data, hash);
      if data.attendanceData.None? then
        StoreUserResult(UserResponse(false, StoreFailureMessage(ReadOfUndefined("locationName")), Status(INTERNAL_SERVER_ERROR), None),
                        cache, up.users, up.nextId, attendance)
      else
        var input := AttendanceFor(up.row.id, data.attendanceData.value, TimeZoneFor(regions, data.userGroupId));
        var s := StoreAttendance(cache, attendance, input, attendanceError);
        if s.stored.None? then
          StoreUserResult(UserResponse(false, StoreFailureMessage(ATTENDANCE_NOT_STORED), Status(INTERNAL_SERVER_ERROR), None),
                          s.cache, up.users, up.nextId, s.attendance)
        else
          StoreUserResult(UserResponse(true, "", Status(CREATED), Some(Entries(UserWithAttendanceEntries(up.row, s.stored)))),
                          s.cache[data.email := CacheEntry(UserRecord(up.row), ONE_HOURS)], up.users, up.nextId, s.attendance)
  }

  /** A stored user's attendance record carries the time zone of its group
      and the settings sent with it, and the next roster read goes to the
      store. */
  lemma {:induction false} StoredUserAttendance(cache: CacheMap, users: seq<UserRow>, nextId: int,
                                                attendance: map<int, AttendanceData>, data: UserRequest,
                                                hash: string, regions: Regions)
    requires StoreUser(cache, users, nextId, attendance, data, hash, regions, None, None).response.status
    requires data.email != ROSTER_KEY
    ensures var r := StoreUser(cache, users, nextId, attendance, data, hash, regions, None, None);
            var row := UpsertUser(users, nextId, data, hash).row;
            var a := data.attendanceData.value;
            row.id in r.attendance &&
            (data.userGroupId == Some(regions.indonesiaGroup) ==> r.attendance[row.id].timeZone == regions.indonesiaZone) &&
            (data.userGroupId != Some(regions.indonesiaGroup) ==> r.attendance[row.id].timeZone == regions.malaysiaZone) &&
            r.attendance[row.id].locationName == a.locationName &&
            r.attendance[row.id].isActive == a.isActive &&
            r.attendance[row.id].isImmediate == a.isImmediate &&
            r.attendance[row.id].isSubscribeMail == a.isSubscribeMail &&
            ROSTER_KEY !in r.cache
  {
    var row := UpsertUser(users, nextId, data, hash).row;
    var input := AttendanceFor(row.id, data.attendanceData.value, TimeZoneFor(regions, data.userGroupId));
    var s := StoreAttendance(cache, attendance, input, None);
    assert s.stored.Some?;
    assert ROSTER_KEY !in s.cache;
  }

  /** Storing a known email again refreshes only its token, deviceId and
      userToken: the app password sent along is ignored, so the stored hash
      stays the old one. */
  lemma KnownUserKeepsPassword(cache: CacheMap, users: seq<UserRow>, nextId: int, attendance: map<int, AttendanceData>,
                               data: UserRequest, hash: string, regions: Regions, attendanceError: Option<Thrown>)
    requires IndexOf(users, ByEmail(data.email)).Some?
    ensures var k := IndexOf(users, ByEmail(data.email)).value;
            var r := StoreUser(cache, users, nextId, attendance, data, hash, regions, None, attendanceError);
            |r.users| == |users| && r.nextId == nextId &&
            r.users[k].managementAppPassword == users[k].managementAppPassword &&
            r.users[k].id == users[k].id && r.users[k].imei == users[k].imei &&
            r.users[k].token == data.token && r.users[k].deviceId == data.deviceId &&
            r.users[k] == users[k].(token := data.token, deviceId := data.deviceId, userToken := data.userToken) &&
            forall j :: 0 <= j < |users| && j != k ==> r.users[j] == users[j]
  {
  }

  // ---------------------------------------------------------------------
  // getUserByToken
  // ---------------------------------------------------------------------

  const USER_NOT_FOUND: string := "User is not found."

  /** getUserByToken: the object cached under userdata-{userToken}, or the
      first user with this token, without its password hash, cached again for
      an hour. An unknown token is a 400; an error of findFirst a 500 with the
      error's message. */
  function UserByToken(cache: CacheMap, users: seq<UserRow>, userToken: string, findError: Option<Thrown>): (r: UserRead)
    ensures r.response.status <==> r.response.data.Some?
    ensures r.response.status ==>
      r.response.code == Status(OK) &&
      r.response.data.value.Entries? && !HasKey(r.response.data.value.fields, PASSWORD_FIELD) &&
      r.cache == cache[UserDataKey(userToken) := CacheEntry(Fields(r.response.data.value.fields), ONE_HOURS)]
    ensures !r.response.status ==> r.cache == cache
    ensures CachedFields(cache, UserDataKey(userToken)).Some? ==>
      r.response.status && r.response.data == Some(Entries(ExcludeField(CachedFields(cache, UserDataKey(userToken)).value, [PASSWORD_FIELD])))
    ensures CachedFields(cache, UserDataKey(userToken)).None? ==>
      (findError.Some? ==> r.response == UserResponse(false, findError.value.message, Status(INTERNAL_SERVER_ERROR), None)) &&
      (findError.None? ==>
         match IndexOf(users, ByToken(userToken))
         case None => r.response == UserResponse(false, USER_NOT_FOUND, Status(BAD_REQUEST), None)
         case Some(k) => r.response.data == Some(Entries(ExcludeField(UserEntries(users[k]), [PASSWORD_FIELD]))))
  {
    ServeTokenData(cache, UserDataKey(userToken), TokenData(cache, users, userToken, findError))
  }

  /** Where getUserByToken takes the user from: the cached object, else the
      store's answer (an error, no row, or the first row with the token). */
  function TokenData(cache: CacheMap, users: seq<UserRow>, userToken: string, findError: Option<Thrown>): Result<Option<seq<(string, Json)>>>
  {
    var cached := CachedFields(cache, UserDataKey(userToken));
    if cached.Some? then Ok(Some(cached.value))
    else if findError.Some? then Err(findError.value)
    else match IndexOf(users, ByToken(userToken))
      case None => Ok(None)
      case Some(k) => Ok(Some(UserEntries(users[k])))
  }

  /** The response getUserByToken builds from that source. */
  function ServeTokenData(cache: CacheMap, key: string, source: Result<Option<seq<(string, Json)>>>): UserRead
  {
    match source
    case Err(e) => UserRead(UserResponse(false, e.message, Status(INTERNAL_SERVER_ERROR), None), cache)
    case Ok(None) => UserRead(UserResponse(false, USER_NOT_FOUND, Status(BAD_REQUEST), None), cache)
    case Ok(Some(userData)) =>
      var fields := ExcludeField(userData, [PASSWORD_FIELD]);
      UserRead(UserResponse(true, "", Status(OK), Some(Entries(fields))), cache[key := CacheEntry(Fields(fields), ONE_HOURS)])
  }

  /** A cached object under userdata-{userToken} is the source, whatever
      the store holds. */
  lemma TokenDataOnHit(cache: CacheMap, users: seq<UserRow>, userToken: string, findError: Option<Thrown>,
                       fields: seq<(string, Json)>)
    requires CachedFields(cache, UserDataKey(userToken)) == Some(fields)
    ensures TokenData(cache, users, userToken, findError) == Ok(Some(fields))
  {
  }

  /** Serving the object a successful lookup cached gives that lookup back. */
  lemma {:induction false} ServeTokenDataAgain(cache: CacheMap, key: string, userData: seq<(string, Json)>)
    ensures var first := ServeTokenData(cache, key, Ok(Some(userData)));
            ServeTokenData(first.cache, key, Ok(Some(ExcludeField(userData, [PASSWORD_FIELD])))) == first
  {
    var fields := ExcludeField(userData, [PASSWORD_FIELD]);
    ExcludeFieldIdempotent(userData, [PASSWORD_FIELD]);
    var c1 := cache[key := CacheEntry(Fields(fields), ONE_HOURS)];
    assert c1[key := CacheEntry(Fields(fields), ONE_HOURS)] == c1;
  }

  /** Asking again with the same token gives the same answer from the
      cache, whatever the store now holds: excluding the hash a second time
      changes nothing. */
  lemma {:induction false} UserByTokenStable(cache: CacheMap, users: seq<UserRow>, userToken: string, findError: Option<Thrown>,
                                             users': seq<UserRow>, findError': Option<Thrown>)
    requires UserByToken(cache, users, userToken, findError).response.status
    ensures var first := UserByToken(cache, users, userToken, findError);
            UserByToken(first.cache, users', userToken, findError') == first
  {
    var key := UserDataKey(userToken);
    var source := TokenData(cache, users, userToken, findError);
    var userData := source.value.value;
    var fields := ExcludeField(userData, [PASSWORD_FIELD]);
    var first := ServeTokenData(cache, key, Ok(Some(userData)));
    TokenDataOnHit(first.cache, users', userToken, findError', fields);
    ServeTokenDataAgain(cache, key, userData);
  }

  // ---------------------------------------------------------------------
  // updateAppPassword
  // ---------------------------------------------------------------------

  /** UpdatePasswordRequestDto. */
  datatype UpdatePasswordRequest = UpdatePasswordRequest(userId: int, appPassword: string)

  /** The catch block's `code: e.code || e.status`: a non-empty error code,
      else the HTTP status, else undefined. */
  function CodeOrStatus(e: Thrown): (c: Code)
    ensures e.code.Some? && e.code.value != "" ==> c == ErrorCode(e.code.value)
    ensures (e.code.None? || e.code.value == "") ==> c == StatusOf(e)
  {
    if e.code.Some? && e.code.value != "" then ErrorCode(e.code.value) else StatusOf(e)
  }

  function PasswordFailureMessage(reason: string): string
  {
    "Failed to update app password. Reason: " + reason
  }

  const NO_SUCH_USER: string := "User not found."
  const SAME_PASSWORD: string := "Your new app password is same as the current app password"
  const PASSWORD_UPDATED: string := "App password has been updated."

  datatype PasswordUpdate = PasswordUpdate(response: UserResponse, users: seq<UserRow>)

  /** The catch block of updateAppPassword. */
  function PasswordFailure(e: Thrown): (r: UserResponse)
    ensures !r.status && r.data.None?
    ensures r.message == "Failed to update app password. Reason: " + e.message
    ensures r.code == CodeOrStatus(e)
  {
    UserResponse(false, PasswordFailureMessage(e.message), CodeOrStatus(e), None)
  }

  /** updateAppPassword: the user with this id gets the hash of the new app
      password, unless there is no such user (404) or the new password
      matches the stored hash (400). `findError` is an error findUnique or
      update may throw. */
  function UpdatePassword(users: seq<UserRow>, data: UpdatePasswordRequest, matches: (string, string) -> bool,
                          hash: string, findError: Option<Thrown>): (r: PasswordUpdate)
    ensures r.response.status <==>
      findError.None? && IndexOf(users, ById(data.userId)).Some? &&
      !matches(data.appPassword, users[IndexOf(users, ById(data.userId)).value].managementAppPassword)
    ensures !r.response.status ==> r.users == users && r.response.data == None
    // a thrown store error: its message prefixed, and `e.code || e.status`
    ensures findError.Some? ==> r.response == PasswordFailure(findError.value)
    ensures findError.None? && IndexOf(users, ById(data.userId)).None? ==>
      r.response == UserResponse(false, PasswordFailureMessage(NO_SUCH_USER), Status(NOT_FOUND), None)
    ensures findError.None? && IndexOf(users, ById(data.userId)).Some? &&
            matches(data.appPassword, users[IndexOf(users, ById(data.userId)).value].managementAppPassword) ==>
      r.response == UserResponse(false, PasswordFailureMessage(SAME_PASSWORD), Status(BAD_REQUEST), None)
    // success: only that user's hash changes, and the response is the updated row
    ensures r.response.status ==>
      var k := IndexOf(users, ById(data.userId)).value;
      |r.users| == |users| &&
      r.users[k] == users[k].(managementAppPassword := hash) &&
      (forall j :: 0 <= j < |users| && j != k ==> r.users[j] == users[j]) &&
      r.response == UserResponse(true, PASSWORD_UPDATED, Status(OK), Some(Entries(UserEntries(r.users[k]))))
  {
    if findError.Some? then PasswordUpdate(PasswordFailure(findError.value), users)
    else
      var k := IndexOf(users, ById(data.userId));
      if k.None? then PasswordUpdate(PasswordFailure(HttpException(NOT_FOUND, NO_SUCH_USER)), users)
      else if matches(data.appPassword, users[k.value].managementAppPassword) then
        PasswordUpdate(PasswordFailure(HttpException(BAD_REQUEST, SAME_PASSWORD)), users)
      else
        var row := users[k.value].(managementAppPassword := hash);
        PasswordUpdate(UserResponse(true, PASSWORD_UPDATED, Status(OK), Some(Entries(UserEntries(row)))), users[k.value := row])
  }

  /** The update keeps the table's constraints: ids and emails stay as they were. */
  lemma UpdateKeepsTable(users: seq<UserRow>, nextId: int, data: UpdatePasswordRequest,
                         matches: (string, string) -> bool, hash: string, findError: Option<Thrown>)
    requires UserTable(users, nextId)
    ensures UserTable(UpdatePassword(users, data, matches, hash, findError).users, nextId)
  {
    var r := UpdatePassword(users, data, matches, hash, findError);
    if r.response.status {
      var k := IndexOf(users, ById(data.userId)).value;
      forall i | 0 <= i < |r.users| ensures r.users[i].id == users[i].id && r.users[i].email == users[i].email {
      }
    }
  }
}
