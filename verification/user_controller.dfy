/**
 * The user handlers: registration, the login decision sequence, the profile
 * update and account deletion, each on the stored users.
 */
module UserController {
  import opened Wrappers
  import opened External
  import opened Http
  import opened Text
  import opened FieldRules
  import opened KycModel
  import opened Validation
  import opened UserValidation
  import opened UserModel

  // ---------------------------------------------------------------------
  // The login decision sequence
  // ---------------------------------------------------------------------

  datatype LoginOutcome = LockedOut | WrongPassword | Deactivated | LoggedIn

  const InvalidCredentials := Unauthorized("Invalid credentials")

  function LoginResponse(o: LoginOutcome): Response {
    match o
    case LockedOut => Unauthorized("Account is locked due to too many failed attempts")
    case WrongPassword => InvalidCredentials
    case Deactivated => Unauthorized("Account is deactivated")
    case LoggedIn => Ok("Login successful")
  }

  /**
   * What `login` does once it has found the user: the lock check first (which
   * clears an expired lock), then the password, then whether the account is
   * active. A locked account is refused whatever the password and keeps its
   * state; a wrong password counts as a failure even on an inactive account;
   * a right password on an inactive account changes no counter.
   */
  function LoginStep(s: LoginState, isActive: bool, passwordMatches: bool, now: int): (r: (LoginOutcome, LoginState))
    ensures r.0 == LockedOut <==> s.accountLocked && !LockExpired(s, now)
    ensures r.0 == LockedOut ==> r.1 == s
    ensures r.0 == WrongPassword <==> r.0 != LockedOut && !passwordMatches
    ensures r.0 == Deactivated <==> r.0 != LockedOut && passwordMatches && !isActive
    ensures r.0 == WrongPassword ==>
              r.1.failedLoginAttempts == (if s.accountLocked then 0 else s.failedLoginAttempts) + 1
    ensures r.0 == Deactivated ==>
              r.1.failedLoginAttempts == (if s.accountLocked then 0 else s.failedLoginAttempts)
    ensures r.0 == LoggedIn ==> r.1 == LoginState(0, false, None, Some(now))
    ensures r.0 != LoggedIn ==> r.1.lastLogin == s.lastLogin
    ensures LockInvariant(s) ==> LockInvariant(r.1)
  {
    var c := CheckLock(s, now);
    if c.locked then (LockedOut, c.state)
    else if !passwordMatches then (WrongPassword, AfterFailedLogin(c.state, now))
    else if !isActive then (Deactivated, c.state)
    else (LoggedIn, AfterSuccessfulLogin(c.state, now))
  }

  /** One login request with the password's verdict and the time it arrived. */
  datatype Attempt = Attempt(passwordMatches: bool, at: int)

  function AfterAttempts(s: LoginState, isActive: bool, attempts: seq<Attempt>): LoginState
    decreases |attempts|
  {
    if attempts == [] then s
    else AfterAttempts(LoginStep(s, isActive, attempts[0].passwordMatches, attempts[0].at).1, isActive, attempts[1..])
  }

  /** Any sequence of login requests keeps the lock fields in a reachable combination. */
  lemma {:induction false} AttemptsKeepInvariant(s: LoginState, isActive: bool, attempts: seq<Attempt>)
    requires LockInvariant(s)
    ensures LockInvariant(AfterAttempts(s, isActive, attempts))
    decreases |attempts|
  {
    if attempts != [] {
      var a := attempts[0];
      AttemptsKeepInvariant(LoginStep(s, isActive, a.passwordMatches, a.at).1, isActive, attempts[1..]);
    }
  }

  /** Wrong-password attempts at the given times. */
  function WrongAttempts(times: seq<int>): (r: seq<Attempt>)
    ensures |r| == |times| && forall i :: 0 <= i < |times| ==> r[i] == Attempt(false, times[i])
  {
    seq(|times|, i requires 0 <= i < |times| => Attempt(false, times[i]))
  }

  /**
   * Wrong passwords on an unlocked account add up one by one; the one that
   * reaches five locks the account for 30 minutes from its own time.
   */
  lemma {:induction false} FailuresAccumulate(s: LoginState, isActive: bool, times: seq<int>)
    requires LockInvariant(s) && !s.accountLocked
    requires 0 < |times| && s.failedLoginAttempts + |times| <= LockThreshold
    ensures var r := AfterAttempts(s, isActive, WrongAttempts(times));
      && r.failedLoginAttempts == s.failedLoginAttempts + |times|
      && (r.accountLocked <==> r.failedLoginAttempts == LockThreshold)
      && (r.accountLocked ==> r.lockUntil == Some(times[|times| - 1] + LockDurationMs))
      && r.lastLogin == s.lastLogin
    decreases |times|
  {
    var next := LoginStep(s, isActive, false, times[0]).1;
    assert WrongAttempts(times)[1..] == WrongAttempts(times[1..]);
    if |times| > 1 {
      FailuresAccumulate(next, isActive, times[1..]);
      assert times[1..][|times[1..]| - 1] == times[|times| - 1];
    } else {
      assert WrongAttempts(times)[1..] == [];
    }
  }

  /**
   * Five wrong passwords in a row lock a fresh account, and the right
   * password is then refused as long as the lock lasts.
   */
  lemma FiveFailuresLock(s: LoginState, isActive: bool, times: seq<int>, now: int)
    requires LockInvariant(s) && s.failedLoginAttempts == 0
    requires |times| == LockThreshold && now <= times[|times| - 1] + LockDurationMs
    ensures var r := AfterAttempts(s, isActive, WrongAttempts(times));
      && r.accountLocked && r.lockUntil == Some(times[|times| - 1] + LockDurationMs)
      && LoginStep(r, isActive, true, now) == (LockedOut, r)
  {
    FailuresAccumulate(s, isActive, times);
  }

  /** While a lock lasts, every request is refused and nothing changes. */
  lemma {:induction false} LockHoldsThroughWindow(s: LoginState, isActive: bool, attempts: seq<Attempt>)
    requires s.accountLocked && s.lockUntil.Some?
    requires forall i :: 0 <= i < |attempts| ==> attempts[i].at <= s.lockUntil.value
    ensures AfterAttempts(s, isActive, attempts) == s
    decreases |attempts|
  {
    if attempts != [] {
      assert LoginStep(s, isActive, attempts[0].passwordMatches, attempts[0].at).1 == s;
      LockHoldsThroughWindow(s, isActive, attempts[1..]);
    }
  }

  /** Once a lock has expired, the next request is judged as if the account had never failed. */
  lemma ExpiredLockStartsAfresh(s: LoginState, isActive: bool, passwordMatches: bool, now: int)
    requires s.accountLocked && LockExpired(s, now)
    ensures LoginStep(s, isActive, passwordMatches, now)
         == LoginStep(LoginState(0, false, None, s.lastLogin), isActive, passwordMatches, now)
  {
  }

  /** A lock without an end is never lifted by a login request. */
  lemma LockWithoutEndIsPermanent(s: LoginState, isActive: bool, passwordMatches: bool, now: int)
    requires s.accountLocked && s.lockUntil.None?
    ensures LoginStep(s, isActive, passwordMatches, now) == (LockedOut, s)
  {
  }

  // ---------------------------------------------------------------------
  // Registration
  // ---------------------------------------------------------------------

  /** What saving checks that the request rules do not: the schema's e-mail pattern, the stored names' bound, a date that parsed. */
  predicate SchemaAccepts(email: string, password: string, profile: Profile, dateOfBirth: Option<int>, lib: Lib) {
    lib.emailPatternOk(email) && |password| >= MinPasswordLength && ProfileSchemaValid(profile) && dateOfBirth.Some?
  }

  /** The profile `new User(...)` builds from the sanitized body. */
  function NewProfile(b: RegisterBody): Profile {
    Profile(SanitizedName(b.firstName), SanitizedName(b.lastName), Str(b.phoneNumber), b.address)
  }

  /** The document a registration stores: the schema's defaults, the password hashed. */
  function NewUserData(email: string, b: RegisterBody, lib: Lib): UserData {
    UserData(email, lib.hash(Str(b.password)), NewProfile(b), lib.parseDate(Str(b.dateOfBirth)),
             true, Member, FreshLogin, false, None, None, None, None, false, None, None)
  }

  /**
   * For a body the rules accept, saving can still fail, but only on the
   * e-mail pattern, a date that does not parse, or a name whose stored
   * length exceeds 50 though its counted length does not; the password's
   * stored length is never short.
   */
  lemma SaveFailuresAfterRules(email: string, b: RegisterBody, lib: Lib)
    requires RegistrationAcceptable(b, lib)
    ensures SchemaAccepts(email, Str(b.password), NewProfile(b), lib.parseDate(Str(b.dateOfBirth)), lib) <==>
      && lib.emailPatternOk(email) && lib.parseDate(Str(b.dateOfBirth)).Some?
      && |SanitizedName(b.firstName)| <= MaxNameLength && |SanitizedName(b.lastName)| <= MaxNameLength
  {
    var p := NewProfile(b);
    assert |Str(b.password)| >= MinPasswordLength by {
      assert CountedLength(Str(b.password)) >= MinPasswordCount;
    }
    assert p.firstName != [] && p.lastName != [] && IsPhoneNumber(p.phoneNumber);
  }

  /** A user who has just registered can log in with the password they chose. */
  lemma RegisteredUserCanLogIn(email: string, b: RegisterBody, lib: Lib, now: int)
    requires Sound(lib)
    ensures var d := NewUserData(email, b, lib);
      LoginStep(d.login, d.isActive, lib.compare(Str(b.password), d.password), now)
        == (LoggedIn, LoginState(0, false, None, Some(now)))
  {
    assert lib.compare(Str(b.password), lib.hash(Str(b.password)));
  }

  /**
   * `register`'s answer, given whether the normalised e-mail address is
   * already taken: only a body the rules accept, for a free address, that the
   * schema accepts is stored.
   */
  function RegisterResponse(b: RegisterBody, emailTaken: bool, lib: Lib): (r: Response)
    ensures var email := lib.normalizeEmail(Str(b.email));
      r.status == 201 <==>
        && RegisterErrors(b, lib) == [] && !emailTaken
        && SchemaAccepts(email, Str(b.password), NewProfile(b), lib.parseDate(Str(b.dateOfBirth)), lib)
    ensures r.status == 201 ==> r == Created("User registered successfully") && RegistrationAcceptable(b, lib)
    ensures RegisterErrors(b, lib) != [] ==> r == BadRequest("Validation error")
    ensures RegisterErrors(b, lib) == [] && emailTaken ==> r == BadRequest("User already exists")
    ensures RegisterErrors(b, lib) == [] && !emailTaken && r.status != 201 ==> r == ServerError("Server error")
  {
    var email := lib.normalizeEmail(Str(b.email));
    if RegisterErrors(b, lib) != [] then BadRequest("Validation error")
    else if emailTaken then BadRequest("User already exists")
    else if !SchemaAccepts(email, Str(b.password), NewProfile(b), lib.parseDate(Str(b.dateOfBirth)), lib) then
      ServerError("Server error")
    else Created("User registered successfully")
  }

  method Register(store: UserStore, b: RegisterBody, newId: UserId, lib: Lib)
    returns (response: Response, token: Option<string>)
    requires store.Valid() && newId !in store.users
    modifies store`users
    ensures store.Valid()
    ensures var email := lib.normalizeEmail(Str(b.email));
      response == RegisterResponse(b, old(store.EmailOwner(email)).Some?, lib)
    ensures token == (if response.status == 201 then Some(lib.sign(newId)) else None)
    ensures response.status != 201 ==> store.users == old(store.users)
    ensures response.status == 201 ==>
      var email := lib.normalizeEmail(Str(b.email));
      && store.users.Keys == old(store.users.Keys) + {newId}
      && (forall j :: j in old(store.users) ==> store.users[j] == old(store.users[j]))
      && fresh(store.users[newId])
      && store.users[newId].Data() == NewUserData(email, b, lib)
      && store.EmailOwner(email) == Some(newId)
  {
    var errs := RegisterErrors(b, lib);
    if errs != [] {
      return BadRequest("Validation error"), None;
    }
    var email := lib.normalizeEmail(Str(b.email));
    var existing := store.FindByEmail(email);
    if existing.Some? {
      return BadRequest("User already exists"), None;
    }
    if !SchemaAccepts(email, Str(b.password), NewProfile(b), lib.parseDate(Str(b.dateOfBirth)), lib) {
      return ServerError("Server error"), None;
    }
    // the request rules already demanded the complexity the pre-save hook checks
    PasswordRuleIsComplexity(Str(b.password));
    CreateUser(store, b, email, newId, lib);
    return Created("User registered successfully"), Some(lib.sign(newId));
  }

  /** `new User(...)` and `user.save()` for a body the schema accepts and an address nobody has. */
  method CreateUser(store: UserStore, b: RegisterBody, email: string, newId: UserId, lib: Lib)
    requires store.Valid() && newId !in store.users && store.EmailOwner(email).None?
    requires ValidatePasswordComplexity(Str(b.password))
    requires SchemaAccepts(email, Str(b.password), NewProfile(b), lib.parseDate(Str(b.dateOfBirth)), lib)
    modifies store`users
    ensures store.Valid()
    ensures store.users.Keys == old(store.users.Keys) + {newId}
    ensures forall j :: j in old(store.users) ==> store.users[j] == old(store.users[j])
    ensures fresh(store.users[newId])
    ensures store.users[newId].Data() == NewUserData(email, b, lib)
    ensures store.EmailOwner(email) == Some(newId)
  {
    var user := SaveNewDocument(newId, email, b, lib);
    store.Insert(user);
  }

  /** `new User(...)` on the sanitized body: the schema trims the names again, which changes nothing. */
  method NewDocument(id: UserId, email: string, b: RegisterBody, lib: Lib) returns (user: User)
    ensures fresh(user) && user.id == id && user.email == email
    ensures user.passwordModified && user.password == Str(b.password)
    ensures user.ProfileView() == NewProfile(b) && IsTrimmed(user.firstName) && IsTrimmed(user.lastName)
    ensures user.dateOfBirth == lib.parseDate(Str(b.dateOfBirth)) && user.LoginView() == FreshLogin && user.kyc.None?
    ensures var d := NewUserData(email, b, lib);
      user.Data() == d.(password := Str(b.password))
  {
    user := new User(id, email, Str(b.password), SanitizedName(b.firstName), SanitizedName(b.lastName),
                     lib.parseDate(Str(b.dateOfBirth)), Str(b.phoneNumber), b.address);
    TrimIdempotent(Str(b.firstName));
    TrimIdempotent(Str(b.lastName));
  }

  /**
   * `user.save()` on a new document the schema accepts: the pre-save hook
   * finds the password complex enough and hashes it.
   */
  method SaveNewDocument(id: UserId, email: string, b: RegisterBody, lib: Lib) returns (user: User)
    requires ValidatePasswordComplexity(Str(b.password))
    requires SchemaAccepts(email, Str(b.password), NewProfile(b), lib.parseDate(Str(b.dateOfBirth)), lib)
    ensures fresh(user) && user.id == id && user.email == email
    ensures user.Valid() && user.Data() == NewUserData(email, b, lib)
  {
    user := NewDocument(id, email, b, lib);
    var err := user.PreSave(lib);
  }

  // ---------------------------------------------------------------------
  // Login
  // ---------------------------------------------------------------------

  /** The user's half of `login`: the lock check, the password, the active flag, each with its effect on the login state. */
  method LoginAttempt(user: User, password: string, now: int, lib: Lib) returns (outcome: LoginOutcome)
    modifies user`failedLoginAttempts, user`accountLocked, user`lockUntil, user`lastLogin
    ensures (outcome, user.LoginView()) == LoginStep(old(user.LoginView()), user.isActive, lib.compare(password, user.password), now)
  {
    var locked := user.IsAccountLocked(now);
    if locked {
      return LockedOut;
    }
    if !lib.compare(password, user.password) {
      user.HandleFailedLogin(now);
      outcome := WrongPassword;
    } else if !user.isActive {
      outcome := Deactivated;
    } else {
      user.UpdateLastLogin(now);
      outcome := LoggedIn;
    }
  }

  /** `login` once the user is found: the attempt on its document, which the store keeps valid. */
  method AttemptLogin(store: UserStore, id: UserId, password: string, now: int, lib: Lib) returns (outcome: LoginOutcome)
    requires store.Valid() && id in store.users
    modifies store.ById(id)`failedLoginAttempts, store.ById(id)`accountLocked, store.ById(id)`lockUntil,
             store.ById(id)`lastLogin
    ensures store.Valid()
    ensures var u := store.users[id];
      (outcome, u.LoginView()) == LoginStep(old(u.LoginView()), u.isActive, lib.compare(password, u.password), now)
  {
    var user := store.users[id];
    outcome := LoginAttempt(user, password, now, lib);
    store.OneUserChanged(id);
  }

  method Login(store: UserStore, b: LoginBody, now: int, lib: Lib) returns (response: Response, token: Option<string>)
    requires store.Valid()
    modifies store.ByEmail(lib.normalizeEmail(Str(b.email)))`failedLoginAttempts,
             store.ByEmail(lib.normalizeEmail(Str(b.email)))`accountLocked,
             store.ByEmail(lib.normalizeEmail(Str(b.email)))`lockUntil,
             store.ByEmail(lib.normalizeEmail(Str(b.email)))`lastLogin
    ensures store.Valid()
    ensures var owner := old(store.EmailOwner(lib.normalizeEmail(Str(b.email))));
      && (LoginErrors(b, lib) != [] ==> response == BadRequest("Validation error") && token.None?)
      && (LoginErrors(b, lib) == [] && owner.None? ==> response == InvalidCredentials && token.None?)
      && (LoginErrors(b, lib) != [] || owner.None? ==> unchanged(store.users.Values))
      && (LoginErrors(b, lib) == [] && owner.Some? ==>
            var u := store.users[owner.value];
            var step := LoginStep(old(u.LoginView()), u.isActive, lib.compare(Str(b.password), u.password), now);
            && response == LoginResponse(step.0)
            && u.LoginView() == step.1
            && token == (if step.0 == LoggedIn then Some(lib.sign(owner.value)) else None))
  {
    var errs := LoginErrors(b, lib);
    if errs != [] {
      return BadRequest("Validation error"), None;
    }
    var found := store.FindByEmail(lib.normalizeEmail(Str(b.email)));
    if found.None? {
      return InvalidCredentials, None;
    }
    var id := found.value;
    var outcome := AttemptLogin(store, id, Str(b.password), now, lib);
    token := if outcome == LoggedIn then Some(lib.sign(id)) else None;
    return LoginResponse(outcome), token;
  }

  // ---------------------------------------------------------------------
  // Profile update
  // ---------------------------------------------------------------------

  const AllowedUpdates: set<string> := {"firstName", "lastName", "phoneNumber", "address"}

  /** `updates.every(update => allowedUpdates.includes(update))`. */
  predicate IsValidOperation(updates: set<string>) {
    forall u :: u in updates ==> u in AllowedUpdates
  }

  /** One part of `{ ...address, ...update }`: the update's value when it has one. */
  function MergedPart(current: Option<string>, update: map<string, BodyValue>, sub: string): Option<string> {
    if sub in update then Some(ToStr(update[sub])) else current
  }

  /** `{ ...address, ...update }` over the five parts the schema stores. */
  function MergeAddress(a: Address, update: map<string, BodyValue>): Address {
    Address(MergedPart(a.street, update, "street"), MergedPart(a.city, update, "city"),
            MergedPart(a.state, update, "state"), MergedPart(a.country, update, "country"),
            MergedPart(a.postalCode, update, "postalCode"))
  }

  /**
   * One iteration of the update loop: a name is trimmed by the schema, the
   * phone number is taken as it is, an object address is merged and a `null`
   * one (an object to `typeof`) merges nothing; a string address is refused
   * by the document, which ends the request.
   */
  function AssignUpdate(p: Profile, key: string, v: BodyValue): Option<Profile> {
    if key == "address" then
      match v
      case ObjectValue(f) => Some(p.(address := MergeAddress(p.address, f)))
      case NullValue => Some(p)
      case StringValue(_) => None
    else if key == "firstName" then Some(p.(firstName := Trim(ToStr(v))))
    else if key == "lastName" then Some(p.(lastName := Trim(ToStr(v))))
    else if key == "phoneNumber" then Some(p.(phoneNumber := ToStr(v)))
    else Some(p)
  }

  /** The keys of `done` that the body holds. */
  predicate Given(body: map<string, BodyValue>, done: set<string>, key: string) {
    key in done && key in body
  }

  /** The profile once the keys in `done` have been assigned, in any order; None once the address was refused. */
  function Applied(p: Profile, body: map<string, BodyValue>, done: set<string>): Option<Profile> {
    if Given(body, done, "address") && body["address"].StringValue? then None
    else Some(Profile(
      if Given(body, done, "firstName") then Trim(ToStr(body["firstName"])) else p.firstName,
      if Given(body, done, "lastName") then Trim(ToStr(body["lastName"])) else p.lastName,
      if Given(body, done, "phoneNumber") then ToStr(body["phoneNumber"]) else p.phoneNumber,
      if Given(body, done, "address") && body["address"].ObjectValue? then MergeAddress(p.address, body["address"].fields)
      else p.address))
  }

  /** The profile after the whole loop. */
  function UpdatedProfile(p: Profile, body: map<string, BodyValue>): Option<Profile> {
    Applied(p, body, body.Keys)
  }

  /** Assigning one more key of the body takes the loop one step along `Applied`. */
  lemma AssignStep(p: Profile, body: map<string, BodyValue>, done: set<string>, key: string)
    requires key in body && key !in done && key in AllowedUpdates
    requires Applied(p, body, done).Some?
    ensures AssignUpdate(Applied(p, body, done).value, key, body[key]) == Applied(p, body, done + {key})
  {
    var after := done + {key};
    assert Given(body, after, key) && !Given(body, done, key);
    assert forall k :: k != key ==> (Given(body, after, k) <==> Given(body, done, k));
    if key == "address" {
      assert Applied(p, body, done).value.address == p.address;
    } else if key == "firstName" {
      assert Applied(p, body, done).value.firstName == p.firstName;
    } else if key == "lastName" {
      assert Applied(p, body, done).value.lastName == p.lastName;
    } else {
      assert Applied(p, body, done).value.phoneNumber == p.phoneNumber;
    }
  }

  /**
   * What an update does: a field the body does not name keeps its value, a
   * name is replaced by its trimmed value, and the address is merged part by
   * part, so a part the update does not name is kept.
   */
  lemma UpdateTouchesOnlyGivenFields(p: Profile, body: map<string, BodyValue>)
    requires UpdatedProfile(p, body).Some?
    ensures var q := UpdatedProfile(p, body).value;
      && ("firstName" !in body ==> q.firstName == p.firstName)
      && ("lastName" !in body ==> q.lastName == p.lastName)
      && ("phoneNumber" !in body ==> q.phoneNumber == p.phoneNumber)
      && ("address" !in body || body["address"].NullValue? ==> q.address == p.address)
      && ("firstName" in body ==> q.firstName == Trim(ToStr(body["firstName"])) && IsTrimmed(q.firstName))
      && ("lastName" in body ==> q.lastName == Trim(ToStr(body["lastName"])) && IsTrimmed(q.lastName))
      && ("phoneNumber" in body ==> q.phoneNumber == ToStr(body["phoneNumber"]))
      && ("address" in body && body["address"].ObjectValue? ==>
            var f := body["address"].fields;
            && ("street" !in f ==> q.address.street == p.address.street)
            && ("city" !in f ==> q.address.city == p.address.city)
            && ("state" !in f ==> q.address.state == p.address.state)
            && ("country" !in f ==> q.address.country == p.address.country)
            && ("postalCode" !in f ==> q.address.postalCode == p.address.postalCode)
            && ("street" in f ==> q.address.street == Some(ToStr(f["street"])))
            && ("city" in f ==> q.address.city == Some(ToStr(f["city"])))
            && ("state" in f ==> q.address.state == Some(ToStr(f["state"])))
            && ("country" in f ==> q.address.country == Some(ToStr(f["country"])))
            && ("postalCode" in f ==> q.address.postalCode == Some(ToStr(f["postalCode"]))))
  {
  }

  /** Sending the same update twice leaves the profile as the first one did. */
  lemma UpdateIsIdempotent(p: Profile, body: map<string, BodyValue>)
    requires UpdatedProfile(p, body).Some?
    ensures UpdatedProfile(UpdatedProfile(p, body).value, body) == UpdatedProfile(p, body)
  {
  }

  /** The loop over the body's keys, assigning each onto a copy of the profile. */
  method ApplyUpdates(start: Profile, updates: map<string, BodyValue>) returns (r: Option<Profile>)
    requires IsValidOperation(updates.Keys)
    ensures r == UpdatedProfile(start, updates)
  {
    var candidate := start;
    var pending := updates.Keys;
    while pending != {}
      invariant pending <= updates.Keys
      invariant Applied(start, updates, updates.Keys - pending) == Some(candidate)
      decreases |pending|
    {
      var key :| key in pending;
      AssignStep(start, updates, updates.Keys - pending, key);
      assert updates.Keys - pending + {key} == updates.Keys - (pending - {key});
      var next := AssignUpdate(candidate, key, updates[key]);
      if next.None? {
        assert Applied(start, updates, updates.Keys).None?;
        return None;
      }
      candidate := next.value;
      pending := pending - {key};
    }
    assert updates.Keys - {} == updates.Keys;
    return Some(candidate);
  }

  /** The profile of user `id`, if there is one. */
  function ProfileOf(store: UserStore, id: UserId): Option<Profile>
    reads store, store.users.Values
  {
    if id in store.users then Some(store.users[id].ProfileView()) else None
  }

  /**
   * `updateProfile` on the profile `before` (None: no such user). Only a
   * request that passes the rules, names allowed fields only, and yields a
   * profile the schema accepts changes anything; what it stores is the
   * updated profile.
   */
  function UpdateResult(before: Option<Profile>, body: map<string, BodyValue>): (r: (Response, Option<Profile>))
    ensures r.1.Some? <==> before.Some?
    ensures UpdateErrors(body) != [] ==> r.0 == BadRequest("Validation error")
    ensures UpdateErrors(body) == [] && !IsValidOperation(body.Keys) ==> r.0 == BadRequest("Invalid updates")
    ensures UpdateErrors(body) == [] && IsValidOperation(body.Keys) && before.None? ==>
              r.0 == NotFound("User not found")
    ensures before.Some? ==>
      var q := UpdatedProfile(before.value, Sanitized(body));
      && (r.0.status == 200 <==>
            UpdateErrors(body) == [] && IsValidOperation(body.Keys) && q.Some? && ProfileSchemaValid(q.value))
      && (r.0.status == 200 ==> r.0 == Ok("Profile updated successfully") && r.1 == q && ProfileSchemaValid(q.value))
      && (r.0.status != 200 ==> r.1 == before)
      && (UpdateErrors(body) == [] && IsValidOperation(body.Keys) && r.0.status != 200 ==>
            r.0 == ServerError("Server error"))
    ensures before.Some? && IsTrimmed(before.value.firstName) && IsTrimmed(before.value.lastName) ==>
              IsTrimmed(r.1.value.firstName) && IsTrimmed(r.1.value.lastName)
  {
    if UpdateErrors(body) != [] then (BadRequest("Validation error"), before)
    else if !IsValidOperation(body.Keys) then (BadRequest("Invalid updates"), before)
    else if before.None? then (NotFound("User not found"), None)
    else
      var q := UpdatedProfile(before.value, Sanitized(body));
      if q.Some? && ProfileSchemaValid(q.value) then (Ok("Profile updated successfully"), q)
      else (ServerError("Server error"), before)
  }

  /** `user.save()` after the update: the store keeps its invariant. */
  method SaveProfile(store: UserStore, id: UserId, p: Profile)
    requires store.Valid() && id in store.users
    requires ProfileSchemaValid(p) && IsTrimmed(p.firstName) && IsTrimmed(p.lastName)
    modifies store.ById(id)`firstName, store.ById(id)`lastName, store.ById(id)`phoneNumber, store.ById(id)`address
    ensures store.Valid() && ProfileOf(store, id) == Some(p)
  {
    store.users[id].SetProfile(p);
    store.OneUserChanged(id);
  }

  method UpdateProfile(store: UserStore, id: UserId, body: map<string, BodyValue>) returns (response: Response)
    requires store.Valid()
    modifies store.ById(id)`firstName, store.ById(id)`lastName, store.ById(id)`phoneNumber, store.ById(id)`address
    ensures store.Valid()
    ensures (response, ProfileOf(store, id)) == UpdateResult(old(ProfileOf(store, id)), body)
  {
    var errs := UpdateErrors(body);
    if errs != [] {
      return BadRequest("Validation error");
    }
    if !IsValidOperation(body.Keys) {
      return BadRequest("Invalid updates");
    }
    if id !in store.users {
      return NotFound("User not found");
    }
    var user := store.users[id];
    var updated := ApplyUpdates(user.ProfileView(), Sanitized(body));
    if updated.None? || !ProfileSchemaValid(updated.value) {
      return ServerError("Server error");
    }
    ghost var r := UpdateResult(Some(user.ProfileView()), body);
    assert r.1 == updated;
    SaveProfile(store, id, updated.value);
    return Ok("Profile updated successfully");
  }

  // ---------------------------------------------------------------------
  // Account deletion
  // ---------------------------------------------------------------------

  /** `findByIdAndDelete`: the document goes, and with it its e-mail address, which can register again. */
  method DeleteAccount(store: UserStore, id: UserId) returns (response: Response)
    requires store.Valid()
    modifies store`users
    ensures store.Valid()
    ensures old(id in store.users) ==>
      && response == Ok("Account deleted successfully")
      && store.users == old(store.users) - {id}
      && store.EmailOwner(old(store.users[id].email)).None?
    ensures old(id !in store.users) ==> response == NotFound("User not found") && store.users == old(store.users)
  {
    if id !in store.users {
      return NotFound("User not found");
    }
    store.users := store.users - {id};
    return Ok("Account deleted successfully");
  }
}
