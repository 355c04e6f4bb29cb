/** The authentication routes: `/send-otp` and `/verify-otp` (login or
    register). The OTP store is threaded through as a value; issuing the
    JWT is not part of this model, so a successful login returns the user. */
module AuthRoutes {
  import opened Common
  import opened Decimal
  import opened Text
  import opened Tables
  import opened OtpService
  import Helpers

  /** The send-otp phone check: after deleting non-digits, 10 to 15 digits. */
  predicate PhoneFormatOk(phone: string) {
    var digits := StripNonDigits(phone);
    10 <= |digits| <= 15
  }

  /** POST /send-otp. The store key is the phone exactly as sent. */
  function SendOtpRoute(store: Store, phone: Option<string>, now: int, draw: real): (r: (Store, Reply<()>))
    requires Helpers.IsRandomDraw(draw)
    ensures !Present(phone) ==> r == (store, Failure(400, "Phone number is required"))
    ensures Present(phone) && !PhoneFormatOk(phone.value) ==>
      r == (store, Failure(400, "Invalid phone number format"))
    ensures r.1.Success? <==> Present(phone) && PhoneFormatOk(phone.value)
    ensures r.1.Success? ==> r.0 == SendOtp(store, phone.value, now, draw).0
  {
    if !Present(phone) then (store, Failure(BadRequest, "Phone number is required"))
    else if !PhoneFormatOk(phone.value) then (store, Failure(BadRequest, "Invalid phone number format"))
    else (SendOtp(store, phone.value, now, draw).0, Success(()))
  }

  /** The optional `userData` of a registration. */
  datatype UserData = UserData(
    firstName: Option<string>,
    lastName: Option<string>,
    email: Option<string>,
    userType: Option<string>)

  /** The unique constraint on `users.phone` that the 23505 branch relies on. */
  predicate PhonesUnique(users: map<Id, User>) {
    forall a, b | a in users && b in users :: users[a].phone == users[b].phone ==> a == b
  }

  predicate HasPhone(users: map<Id, User>, phone: string) {
    exists id | id in users :: users[id].phone == phone
  }

  /** `.eq('phone', phone).single()`: the one user with that phone. */
  function UserByPhone(users: map<Id, User>, phone: string): (u: User)
    requires PhonesUnique(users) && HasPhone(users, phone)
    ensures exists id | id in users :: users[id] == u
    ensures u.phone == phone
  {
    var id :| id in users && users[id].phone == phone;
    users[id]
  }

  /** The row inserted for a new user: verified, email only when given. */
  function NewUser(id: Id, phone: string, data: UserData): (u: User)
    ensures u.id == id && u.phone == phone && u.isVerified
    ensures u.userType == data.userType
    ensures u.firstName == data.firstName && u.lastName == data.lastName
    ensures u.email.Some? <==> Present(data.email)
    ensures Present(data.email) ==> u.email == data.email
  {
    User(id, phone, data.firstName, data.lastName, data.userType,
         if Present(data.email) then data.email else None, true)
  }

  /** The insert: refused by the unique constraint when the phone is taken. */
  function InsertUser(users: map<Id, User>, id: Id, phone: string, data: UserData): (r: (map<Id, User>, Reply<User>))
    requires id !in users
    ensures HasPhone(users, phone) ==> r == (users, Failure(400, "User with this phone already exists"))
    ensures !HasPhone(users, phone) ==> r.0 == users[id := NewUser(id, phone, data)] && r.1 == Success(r.0[id])
  {
    if HasPhone(users, phone) then (users, Failure(BadRequest, "User with this phone already exists"))
    else (users[id := NewUser(id, phone, data)], Success(NewUser(id, phone, data)))
  }

  /** POST /verify-otp. `newId` is the id the database would assign. */
  function VerifyOtpRoute(users: map<Id, User>, store: Store, phone: Option<string>, otp: Option<string>,
                          userData: Option<UserData>, now: int, newId: Id): (r: (map<Id, User>, Store, Reply<User>))
    requires PhonesUnique(users) && newId !in users
    ensures !Present(phone) || !Present(otp) ==>
      r == (users, store, Failure(400, "Phone and OTP are required"))
    ensures Present(phone) && Present(otp) ==> r.1 == VerifyOtp(store, phone.value, otp.value, now).0
    ensures Present(phone) && Present(otp) && !VerifyOtp(store, phone.value, otp.value, now).1.valid ==>
      r.0 == users && r.2 == Failure(400, "Invalid OTP")
    ensures r.2.Success? <==>
      Present(phone) && Present(otp) && VerifyOtp(store, phone.value, otp.value, now).1.valid
      && (HasPhone(users, phone.value) || userData.Some?)
    ensures r.2.Success? && HasPhone(users, phone.value) ==>
      r.0 == users && r.2.data == UserByPhone(users, phone.value)
    ensures r.2.Success? && !HasPhone(users, phone.value) ==>
      r.0 == users[newId := r.2.data] && r.2.data == NewUser(newId, phone.value, userData.value)
    ensures r.2.Failure? ==> r.0 == users
  {
    if !Present(phone) || !Present(otp) then
      (users, store, Failure(BadRequest, "Phone and OTP are required"))
    else
      var (store', verification) := VerifyOtp(store, phone.value, otp.value, now);
      if !verification.valid then (users, store', Failure(BadRequest, "Invalid OTP"))
      else if HasPhone(users, phone.value) then
        (users, store', Success(UserByPhone(users, phone.value)))
      else if userData.None? then
        (users, store', Failure(BadRequest, "User data required for new users"))
      else
        var (users', reply) := InsertUser(users, newId, phone.value, userData.value);
        (users', store', reply)
  }

  /** Registration keeps phones unique. */
  lemma VerifyOtpRoutePreservesUniquePhones(users: map<Id, User>, store: Store, phone: Option<string>,
                                            otp: Option<string>, userData: Option<UserData>, now: int, newId: Id)
    requires PhonesUnique(users) && newId !in users
    ensures PhonesUnique(VerifyOtpRoute(users, store, phone, otp, userData, now, newId).0)
  {
  }

  /** A new phone without userData is turned away, yet its code is spent:
      the same code cannot be used for a second attempt with userData. */
  lemma MissingUserDataStillConsumesCode(users: map<Id, User>, store: Store, phone: string, otp: string,
                                         now: int, newId: Id, data: UserData)
    requires PhonesUnique(users) && newId !in users
    requires phone != "" && otp != "" && !HasPhone(users, phone)
    requires VerifyOtp(store, phone, otp, now).1.valid
    ensures var (users1, store1, reply1) := VerifyOtpRoute(users, store, Some(phone), Some(otp), None, now, newId);
      && reply1 == Failure(400, "User data required for new users")
      && users1 == users
      && VerifyOtpRoute(users1, store1, Some(phone), Some(otp), Some(data), now, newId).2.Failure?
  {
  }
}
