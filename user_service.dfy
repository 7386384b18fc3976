/** UserService as an object over the shared cache and database, with the
    attendance service it hands the attendance settings to. Every method is
    proved equal to the state transition that UserFlow describes. */
module Users {
  import opened Common
  import opened Json
  import opened Helper
  import opened Records
  import opened Infrastructure
  import opened AttendanceFlow
  import opened Attendance
  import opened UserFlow

  class UserService {
    const cache: Cache
    const db: Database
    const attendanceService: AttendanceService
    const regions: Regions

    /** The service and the attendance service it calls share one cache and
        one database. */
    predicate Valid()
      reads this, attendanceService
    {
      attendanceService.cache == cache && attendanceService.db == db
    }

    constructor (cache: Cache, db: Database, attendanceService: AttendanceService, regions: Regions)
      requires attendanceService.cache == cache && attendanceService.db == db
      ensures this.cache == cache && this.db == db && this.attendanceService == attendanceService
      ensures this.regions == regions
      ensures Valid()
    {
      this.cache := cache;
      this.db := db;
      this.attendanceService := attendanceService;
      this.regions := regions;
    }

    /** getUserInformation. */
    method GetUserInformation(data: LoginRequest, imei: string, reply: UserInfoReply,
                              encrypt: string -> Option<string>, matches: (string, string) -> bool,
                              findError: Option<Thrown>) returns (response: UserResponse)
      modifies cache
      ensures var r := UserInformationFor(old(cache.entries), db.users, db.attendance, data, imei, reply,
                                          encrypt, matches, findError);
              response == r.response && cache.entries == r.cache
    {
      if data.kind == "login" {
        var dbUserData := GetUserInformationFromDb(data.email, data.appPassword, matches, findError);
        match dbUserData {
          case Err(e) => return InfoFailure(e);
          case Ok(None) => return InfoFailure(HttpException(BAD_REQUEST, NOT_IN_DB));
          case Ok(Some(fields)) => return UserResponse(true, "", Status(OK), Some(Entries(fields)));
        }
      }
      var infotechData := FetchUserInformationFromInfotech(data.email, imei, reply, encrypt);
      match infotechData {
        case Err(e) => return InfoFailure(e);
        case Ok(None) => return InfoFailure(HttpException(UNAUTHORIZED, WRONG_CREDENTIALS));
        case Ok(Some(info)) => return UserResponse(true, "", Status(OK), Some(Info(info)));
      }
    }

    /** fetchUserInformationFromInfotech for the payload {IMEINo: imei,
        UserEmail: email, ...}, once the provider has replied. */
    method FetchUserInformationFromInfotech(email: string, imei: string, reply: UserInfoReply,
                                            encrypt: string -> Option<string>)
      returns (result: Result<Option<UserInformation>>)
      ensures result == FetchUserInformation(email, imei, reply, encrypt)
    {
      match reply {
        case InfoRejected(e) => return Err(e);
        case InfoNull => return Ok(None);
        case InfoReply(userId, iToken, idNumber, authorization) =>
          if userId.None? || userId.value == 0 {
            return Ok(None);
          }
          if authorization.None? {
            return Err(PlainError(ReadOfUndefined("Customer")));
          }
          var auth := authorization.value;
          if auth.customer.None? {
            return Err(PlainError(ReadOfUndefined("CustomerId")));
          }
          var userToken := BuildUserToken(email, imei, auth.empCode, encrypt);
          return Ok(Some(UserInformation(iToken, email, imei, imei, auth.customer.value.customerId, idNumber,
                                         auth.empCode, auth.companyId, auth.userId, userToken)));
      }
    }

    /** getUserInformationFromDb. */
    method GetUserInformationFromDb(email: string, appPassword: string, matches: (string, string) -> bool,
                                    findError: Option<Thrown>)
      returns (result: Result<Option<seq<(string, Json)>>>)
      modifies cache
      ensures var l := UserFromDb(old(cache.entries), db.users, db.attendance, email, appPassword, matches, findError);
              result == l.result && cache.entries == l.cache
    {
      var cachedData := cache.Get(UserKey(email, appPassword));
      if cachedData.Some? && cachedData.value.Fields? {
        return Ok(Some(cachedData.value.fields));
      }
      if findError.Some? {
        return Err(findError.value);
      }
      var k := IndexOf(db.users, ByEmail(email));
      if k.None? {
        return Ok(None);
      }
      var userData := db.users[k.value];
      if !matches(appPassword, userData.managementAppPassword) {
        return Ok(None);
      }
      var fields := PublicUser(userData, db.attendance);
      cache.Set(UserKey(email, appPassword), Fields(fields), ONE_HOURS);
      return Ok(Some(fields));
    }

    /** storeUserInformation; `hash` is bcrypt's hash of the app password. */
    method StoreUserInformation(data: UserRequest, hash: string, txError: Option<Thrown>, attendanceError: Option<Thrown>)
      returns (response: UserResponse)
      requires Valid()
      modifies cache, db
      ensures Valid()
      ensures var r := StoreUser(old(cache.entries), old(db.users), old(db.nextId), old(db.attendance), data, hash,
                                 regions, txError, attendanceError);
              response == r.response && cache.entries == r.cache && db.users == r.users &&
              db.nextId == r.nextId && db.attendance == r.attendance
    {
      if txError.Some? {
        return UserResponse(false, StoreFailureMessage(txError.value.message), Status(INTERNAL_SERVER_ERROR), None);
      }
      var userInformation := UpsertUserRow(data, hash);
      if data.attendanceData.None? {
        // reading locationName of the missing attendanceData throws a TypeError
        return UserResponse(false, StoreFailureMessage(ReadOfUndefined("locationName")), Status(INTERNAL_SERVER_ERROR), None);
      }
      var timeZone := TimeZoneFor(regions, data.userGroupId);
      var createAttendanceData :=
        attendanceService.StoreDataRequiredForClockIn(AttendanceFor(userInformation.id, data.attendanceData.value, timeZone),
                                                     attendanceError);
      if createAttendanceData.None? {
        return UserResponse(false, StoreFailureMessage(ATTENDANCE_NOT_STORED), Status(INTERNAL_SERVER_ERROR), None);
      }
      cache.Set(data.email, UserRecord(userInformation), ONE_HOURS);
      return UserResponse(true, "", Status(CREATED),
                          Some(Entries(UserWithAttendanceEntries(userInformation, createAttendanceData))));
    }

    /** The transaction's user.upsert({where: {email}}). */
    method UpsertUserRow(data: UserRequest, hash: string) returns (row: UserRow)
      modifies db
      ensures var up := UpsertUser(old(db.users), old(db.nextId), data, hash);
              row == up.row && db.users == up.users && db.nextId == up.nextId
      ensures db.attendance == old(db.attendance)
    {
      var k := IndexOf(db.users, ByEmail(data.email));
      if k.Some? {
        row := db.users[k.value].(token := data.token, deviceId := data.deviceId, userToken := data.userToken);
        db.users := db.users[k.value := row];
      } else {
        row := UserRow(db.nextId, data.email, data.imei, data.customerId, data.token, data.idNumber, data.imei,
                       data.userGroupId, data.employeeId, data.companyId, data.infotechUserId, data.userToken, hash);
        db.users := db.users + [row];
        db.nextId := db.nextId + 1;
      }
    }

    /** getUserByToken. */
    method GetUserByToken(userToken: string, findError: Option<Thrown>) returns (response: UserResponse)
      modifies cache
      ensures var r := UserByToken(old(cache.entries), db.users, userToken, findError);
              response == r.response && cache.entries == r.cache
    {
      var cachedData := cache.Get(UserDataKey(userToken));
      var userData: seq<(string, Json)>;
      if cachedData.Some? && cachedData.value.Fields? {
        userData := cachedData.value.fields;
      } else {
        if findError.Some? {
          return UserResponse(false, findError.value.message, Status(INTERNAL_SERVER_ERROR), None);
        }
        var k := IndexOf(db.users, ByToken(userToken));
        if k.None? {
          return UserResponse(false, USER_NOT_FOUND, Status(BAD_REQUEST), None);
        }
        userData := UserEntries(db.users[k.value]);
      }
      userData := ExcludeField(userData, [PASSWORD_FIELD]);
      cache.Set(UserDataKey(userToken), Fields(userData), ONE_HOURS);
      return UserResponse(true, "", Status(OK), Some(Entries(userData)));
    }

    /** updateAppPassword; `hash` is bcrypt's hash of the new app password. */
    method UpdateAppPassword(data: UpdatePasswordRequest, matches: (string, string) -> bool, hash: string,
                             findError: Option<Thrown>) returns (response: UserResponse)
      modifies db
      ensures var r := UpdatePassword(old(db.users), data, matches, hash, findError);
              response == r.response && db.users == r.users
      ensures db.attendance == old(db.attendance) && db.nextId == old(db.nextId)
    {
      if findError.Some? {
        return PasswordFailure(findError.value);
      }
      var k := IndexOf(db.users, ById(data.userId));
      if k.None? {
        return PasswordFailure(HttpException(NOT_FOUND, NO_SUCH_USER));
      }
      var user := db.users[k.value];
      if matches(data.appPassword, user.managementAppPassword) {
        return PasswordFailure(HttpException(BAD_REQUEST, SAME_PASSWORD));
      }
      var update := user.(managementAppPassword := hash);
      db.users := db.users[k.value := update];
      return UserResponse(true, PASSWORD_UPDATED, Status(OK), Some(Entries(UserEntries(update))));
    }
  }
}
