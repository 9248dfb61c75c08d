/**
 * The user document: its fields, the login-attempt and lockout state it
 * carries, the password hook that runs before it is saved, the JSON view that
 * hides its secrets, and the store that holds one document per id.
 */
module UserModel {
  import opened Wrappers
  import opened External
  import opened Http
  import opened Text
  import opened FieldRules
  import opened KycModel

  datatype Role = Member | Admin

  function RoleName(r: Role): string {
    match r
    case Member => "user"
    case Admin => "admin"
  }

  /** The nested `address` path: five optional strings. */
  datatype Address = Address(
    street: Option<string>,
    city: Option<string>,
    state: Option<string>,
    country: Option<string>,
    postalCode: Option<string>)

  const NoAddress := Address(None, None, None, None, None)

  /** The fields a profile update may change. */
  datatype Profile = Profile(firstName: string, lastName: string, phoneNumber: string, address: Address)

  /**
   * What the schema demands of the profile fields when the document is saved:
   * both names present (a required string may not be empty) and at most 50
   * characters, and the phone number of the form `+` digit 1-9, then 1 to 14
   * digits.
   */
  predicate ProfileSchemaValid(p: Profile) {
    && 0 < |p.firstName| <= MaxNameLength
    && 0 < |p.lastName| <= MaxNameLength
    && IsPhoneNumber(p.phoneNumber)
  }

  // ---------------------------------------------------------------------
  // Login attempts and lockout
  // ---------------------------------------------------------------------

  /** Failed attempts that lock the account. */
  const LockThreshold: nat := 5
  /** How long a lock lasts: 30 minutes, in milliseconds. */
  const LockDurationMs: int := 30 * 60 * 1000

  /** The four fields of the login-attempt state machine. */
  datatype LoginState = LoginState(
    failedLoginAttempts: nat,
    accountLocked: bool,
    lockUntil: Option<int>,
    lastLogin: Option<int>)

  /** A new account: no failures, no lock, never logged in. */
  const FreshLogin := LoginState(0, false, None, None)

  /**
   * `handleFailedLogin`: one more failure; reaching the threshold locks the
   * account for 30 minutes from `now`, below it the lock fields stay as they were.
   */
  function AfterFailedLogin(s: LoginState, now: int): (r: LoginState)
    ensures r.failedLoginAttempts == s.failedLoginAttempts + 1
    ensures r.failedLoginAttempts >= LockThreshold ==>
              r.accountLocked && r.lockUntil == Some(now + LockDurationMs)
    ensures r.failedLoginAttempts < LockThreshold ==>
              r.accountLocked == s.accountLocked && r.lockUntil == s.lockUntil
    ensures r.lastLogin == s.lastLogin
  {
    var n := s.failedLoginAttempts + 1;
    if n >= LockThreshold then
      s.(failedLoginAttempts := n, accountLocked := true, lockUntil := Some(now + LockDurationMs))
    else
      s.(failedLoginAttempts := n)
  }

  /** A lock whose end lies strictly before `now`; a lock without an end never expires. */
  predicate LockExpired(s: LoginState, now: int) {
    s.lockUntil.Some? && s.lockUntil.value < now
  }

  datatype LockCheck = LockCheck(locked: bool, state: LoginState)

  /**
   * `isAccountLocked`: a query that clears an expired lock as a side effect.
   * It answers "locked" exactly for a lock that has not expired, and then
   * changes nothing; clearing a lock also resets the failure counter.
   */
  function CheckLock(s: LoginState, now: int): (r: LockCheck)
    ensures r.locked <==> s.accountLocked && !LockExpired(s, now)
    ensures !s.accountLocked || r.locked ==> r.state == s
    ensures s.accountLocked && !r.locked ==>
              r.state == LoginState(0, false, None, s.lastLogin)
  {
    if !s.accountLocked then LockCheck(false, s)
    else if s.lockUntil.Some? && s.lockUntil.value < now then
      LockCheck(false, s.(accountLocked := false, failedLoginAttempts := 0, lockUntil := None))
    else LockCheck(true, s)
  }

  /** `updateLastLogin`: a successful login records `now` and clears every failure and lock. */
  function AfterSuccessfulLogin(s: LoginState, now: int): (r: LoginState)
    ensures r.lastLogin == Some(now)
    ensures r.failedLoginAttempts == 0 && !r.accountLocked && r.lockUntil.None?
  {
    s.(lastLogin := Some(now), failedLoginAttempts := 0, accountLocked := false, lockUntil := None)
  }

  /**
   * The states the login flow can reach: at most five failures, locked exactly
   * at five, and a lock end present exactly while locked.
   */
  predicate LockInvariant(s: LoginState) {
    && s.failedLoginAttempts <= LockThreshold
    && (s.accountLocked <==> s.failedLoginAttempts == LockThreshold)
    && (s.accountLocked <==> s.lockUntil.Some?)
  }

  // ---------------------------------------------------------------------
  // The document and its JSON view
  // ---------------------------------------------------------------------

  /** Every persisted field of a user document. */
  datatype UserData = UserData(
    email: string,
    password: string,
    profile: Profile,
    dateOfBirth: Option<int>,
    isActive: bool,
    role: Role,
    login: LoginState,
    emailVerified: bool,
    emailVerificationToken: Option<string>,
    emailVerificationExpires: Option<int>,
    passwordResetToken: Option<string>,
    passwordResetExpires: Option<int>,
    twoFactorEnabled: bool,
    twoFactorSecret: Option<string>,
    kyc: Option<Kyc>)

  /** The top-level paths of a user document. */
  datatype Path =
    | IdPath | EmailPath | PasswordPath | FirstNamePath | LastNamePath | DateOfBirthPath
    | PhoneNumberPath | AddressPath | IsActivePath | RolePath | LastLoginPath
    | FailedLoginAttemptsPath | AccountLockedPath | LockUntilPath | EmailVerifiedPath
    | EmailVerificationTokenPath | EmailVerificationExpiresPath | PasswordResetTokenPath
    | PasswordResetExpiresPath | TwoFactorEnabledPath | TwoFactorSecretPath | KycPath

  /** The paths `toJSON` deletes. */
  const SecretPaths: set<Path> :=
    {PasswordPath, EmailVerificationTokenPath, PasswordResetTokenPath, TwoFactorSecretPath}

  function OptStr(s: Option<string>): Json {
    match s
    case None => JNull
    case Some(v) => JStr(v)
  }

  function OptTime(t: Option<int>): Json {
    match t
    case None => JNull
    case Some(v) => JNum(v)
  }

  /** Present optional fields only, as the document mapper leaves unset paths out. */
  function WithOptional(m: map<string, Json>, key: string, v: Option<string>): map<string, Json> {
    match v
    case None => m
    case Some(s) => m[key := JStr(s)]
  }

  function AddressObject(a: Address): Json {
    var m := WithOptional(map[], "street", a.street);
    var m := WithOptional(m, "city", a.city);
    var m := WithOptional(m, "state", a.state);
    var m := WithOptional(m, "country", a.country);
    JObj(WithOptional(m, "postalCode", a.postalCode))
  }

  function KycObject(k: Kyc): Json {
    var m := map[
      "status" := JStr(StatusName(k.status)),
      "documentType" := (match k.documentType case None => JNull case Some(d) => JStr(DocumentTypeName(d))),
      "documentNumber" := OptStr(k.documentNumber),
      "documentExpiry" := OptTime(k.documentExpiry),
      "verificationDate" := OptTime(k.verificationDate),
      "rejectionReason" := OptStr(k.rejectionReason)];
    var m := WithOptional(m, "documentFront", k.documentFront);
    var m := WithOptional(m, "documentBack", k.documentBack);
    JObj(WithOptional(m, "selfie", k.selfie))
  }

  /** The paths every document holds, with a value or a default. */
  const FixedPaths: set<Path> :=
    {IdPath, EmailPath, PasswordPath, FirstNamePath, LastNamePath, DateOfBirthPath, PhoneNumberPath,
     IsActivePath, RolePath, LastLoginPath, FailedLoginAttemptsPath, AccountLockedPath,
     LockUntilPath, EmailVerifiedPath, TwoFactorEnabledPath}

  /**
   * The paths a document holds: the fixed ones, and the optional ones that
   * are set. An address with no part set is an empty object, which the
   * default `minimize` option leaves out.
   */
  function PresentPaths(d: UserData): set<Path> {
    FixedPaths
    + (if d.profile.address != NoAddress then {AddressPath} else {})
    + (if d.emailVerificationToken.Some? then {EmailVerificationTokenPath} else {})
    + (if d.emailVerificationExpires.Some? then {EmailVerificationExpiresPath} else {})
    + (if d.passwordResetToken.Some? then {PasswordResetTokenPath} else {})
    + (if d.passwordResetExpires.Some? then {PasswordResetExpiresPath} else {})
    + (if d.twoFactorSecret.Some? then {TwoFactorSecretPath} else {})
    + (if d.kyc.Some? then {KycPath} else {})
  }

  /** The value the document holds at `path`. */
  function ValueAt(id: UserId, d: UserData, path: Path): Json {
    match path
    case IdPath => JStr(id)
    case EmailPath => JStr(d.email)
    case PasswordPath => JStr(d.password)
    case FirstNamePath => JStr(d.profile.firstName)
    case LastNamePath => JStr(d.profile.lastName)
    case DateOfBirthPath => OptTime(d.dateOfBirth)
    case PhoneNumberPath => JStr(d.profile.phoneNumber)
    case AddressPath => AddressObject(d.profile.address)
    case IsActivePath => JBool(d.isActive)
    case RolePath => JStr(RoleName(d.role))
    case LastLoginPath => OptTime(d.login.lastLogin)
    case FailedLoginAttemptsPath => JNum(d.login.failedLoginAttempts)
    case AccountLockedPath => JBool(d.login.accountLocked)
    case LockUntilPath => OptTime(d.login.lockUntil)
    case EmailVerifiedPath => JBool(d.emailVerified)
    case EmailVerificationTokenPath => OptStr(d.emailVerificationToken)
    case EmailVerificationExpiresPath => OptTime(d.emailVerificationExpires)
    case PasswordResetTokenPath => OptStr(d.passwordResetToken)
    case PasswordResetExpiresPath => OptTime(d.passwordResetExpires)
    case TwoFactorEnabledPath => JBool(d.twoFactorEnabled)
    case TwoFactorSecretPath => OptStr(d.twoFactorSecret)
    case KycPath => if d.kyc.Some? then KycObject(d.kyc.value) else JNull
  }

  /** `toObject()`: the document as a plain object, secrets included. */
  function ToObject(id: UserId, d: UserData): map<Path, Json> {
    map path | path in PresentPaths(d) :: ValueAt(id, d, path)
  }

  /** `toJSON`: the object with exactly the four secret paths deleted and every other path kept as it was. */
  function ToJson(obj: map<Path, Json>): (r: map<Path, Json>)
    ensures r.Keys == obj.Keys - SecretPaths
    ensures forall k :: k in r ==> r[k] == obj[k]
  {
    map k | k in obj && k !in SecretPaths :: obj[k]
  }

  /**
   * What a client sees of a user: every path the document holds except the
   * four secrets, each with the document's value. So the id, e-mail, names,
   * role and login counters are always shown, the password hash never.
   */
  lemma JsonViewOfUser(id: UserId, d: UserData)
    ensures var j := ToJson(ToObject(id, d));
      && j.Keys == PresentPaths(d) - SecretPaths
      && (forall path :: path in j ==> j[path] == ValueAt(id, d, path))
      && FixedPaths - SecretPaths <= j.Keys
      && SecretPaths !! j.Keys
  {
    var o := ToObject(id, d);
    assert o.Keys == PresentPaths(d);
  }

  /** The address is shown exactly when some part of it is set: an empty one is minimized away. */
  lemma AddressShownOnlyWhenSet(id: UserId, d: UserData)
    ensures AddressPath in ToJson(ToObject(id, d)) <==> d.profile.address != NoAddress
  {
    JsonViewOfUser(id, d);
    assert AddressPath !in FixedPaths + SecretPaths;
  }

  // ---------------------------------------------------------------------
  // The document as an object that its methods update in place
  // ---------------------------------------------------------------------

  class User {
    const id: UserId
    var email: string
    var password: string
    /** The document mapper's `isModified('password')`. */
    var passwordModified: bool
    var firstName: string
    var lastName: string
    var dateOfBirth: Option<int>
    var phoneNumber: string
    var address: Address
    var isActive: bool
    var role: Role
    var lastLogin: Option<int>
    var failedLoginAttempts: nat
    var accountLocked: bool
    var lockUntil: Option<int>
    var emailVerified: bool
    var emailVerificationToken: Option<string>
    var emailVerificationExpires: Option<int>
    var passwordResetToken: Option<string>
    var passwordResetExpires: Option<int>
    var twoFactorEnabled: bool
    var twoFactorSecret: Option<string>
    var kyc: Option<Kyc>

    function LoginView(): LoginState
      reads this
    {
      LoginState(failedLoginAttempts, accountLocked, lockUntil, lastLogin)
    }

    function ProfileView(): Profile
      reads this
    {
      Profile(firstName, lastName, phoneNumber, address)
    }

    function Data(): UserData
      reads this
    {
      UserData(email, password, ProfileView(), dateOfBirth, isActive, role, LoginView(), emailVerified,
               emailVerificationToken, emailVerificationExpires, passwordResetToken,
               passwordResetExpires, twoFactorEnabled, twoFactorSecret, kyc)
    }

    /**
     * A saved document: the schema holds of its profile, its names are trimmed
     * (the schema trims on assignment), its login state is reachable and its
     * KYC record is consistent.
     */
    ghost predicate Valid()
      reads this
    {
      && !passwordModified
      && ProfileSchemaValid(ProfileView())
      && IsTrimmed(firstName) && IsTrimmed(lastName)
      && dateOfBirth.Some?
      && LockInvariant(LoginView())
      && ConsistentRecord(kyc)
    }

    /** `new User({...})`: the schema's defaults, the password still in plain text and marked modified. */
    constructor (id: UserId, email: string, password: string, firstName: string, lastName: string,
                 dateOfBirth: Option<int>, phoneNumber: string, address: Address)
      ensures this.id == id && this.email == email && this.password == password && passwordModified
      ensures ProfileView() == Profile(Trim(firstName), Trim(lastName), phoneNumber, address)
      ensures this.dateOfBirth == dateOfBirth
      ensures isActive && role == Member && LoginView() == FreshLogin
      ensures !emailVerified && !twoFactorEnabled && kyc.None?
      ensures emailVerificationToken.None? && emailVerificationExpires.None?
      ensures passwordResetToken.None? && passwordResetExpires.None? && twoFactorSecret.None?
    {
      this.id := id;
      this.email := email;
      this.password := password;
      passwordModified := true;
      this.firstName := Trim(firstName);
      this.lastName := Trim(lastName);
      this.dateOfBirth := dateOfBirth;
      this.phoneNumber := phoneNumber;
      this.address := address;
      isActive := true;
      role := Member;
      lastLogin := None;
      failedLoginAttempts := 0;
      accountLocked := false;
      lockUntil := None;
      emailVerified := false;
      emailVerificationToken := None;
      emailVerificationExpires := None;
      passwordResetToken := None;
      passwordResetExpires := None;
      twoFactorEnabled := false;
      twoFactorSecret := None;
      kyc := None;
    }

    /** Assigning the profile fields an update names, all at once when the document is saved. */
    method SetProfile(p: Profile)
      modifies `firstName, `lastName, `phoneNumber, `address
      ensures ProfileView() == p
    {
      firstName := p.firstName;
      lastName := p.lastName;
      phoneNumber := p.phoneNumber;
      address := p.address;
    }

    /** `handleFailedLogin`. */
    method HandleFailedLogin(now: int)
      modifies `failedLoginAttempts, `accountLocked, `lockUntil
      ensures LoginView() == AfterFailedLogin(old(LoginView()), now)
    {
      failedLoginAttempts := failedLoginAttempts + 1;
      if failedLoginAttempts >= LockThreshold {
        accountLocked := true;
        lockUntil := Some(now + LockDurationMs);
      }
    }

    /** `isAccountLocked`, which clears an expired lock before answering. */
    method IsAccountLocked(now: int) returns (locked: bool)
      modifies `failedLoginAttempts, `accountLocked, `lockUntil
      ensures LockCheck(locked, LoginView()) == CheckLock(old(LoginView()), now)
    {
      if !accountLocked {
        return false;
      }
      if lockUntil.Some? && lockUntil.value < now {
        accountLocked := false;
        failedLoginAttempts := 0;
        lockUntil := None;
        return false;
      }
      return true;
    }

    /** `updateLastLogin`. */
    method UpdateLastLogin(now: int)
      modifies `lastLogin, `failedLoginAttempts, `accountLocked, `lockUntil
      ensures LoginView() == AfterSuccessfulLogin(old(LoginView()), now)
    {
      lastLogin := Some(now);
      failedLoginAttempts := 0;
      accountLocked := false;
      lockUntil := None;
    }

    /**
     * The pre-save hook: an unmodified password is left alone; a modified one
     * must pass the complexity rule, checked on the plain text before it is
     * replaced by its hash.
     */
    method PreSave(lib: Lib) returns (err: Option<string>)
      modifies `password, `passwordModified
      ensures err.None? <==> !old(passwordModified) || ValidatePasswordComplexity(old(password))
      ensures err.Some? ==> err == Some("validation.password.complexity")
      ensures password == (if old(passwordModified) && err.None? then lib.hash(old(password)) else old(password))
      ensures passwordModified == (old(passwordModified) && err.Some?)
    {
      if !passwordModified {
        return None;
      }
      if !ValidatePasswordComplexity(password) {
        return Some("validation.password.complexity");
      }
      password := lib.hash(password);
      passwordModified := false;
      return None;
    }
  }

  /** The user collection: one document per id, e-mail addresses unique. */
  class UserStore {
    var users: map<UserId, User>

    ghost predicate Valid()
      reads this, users.Values
    {
      && (forall i :: i in users ==> users[i].id == i && users[i].Valid())
      && (forall i, j :: i in users && j in users && users[i].email == users[j].email ==> i == j)
    }

    constructor ()
      ensures users == map[] && Valid()
    {
      users := map[];
    }

    /** The document `id` names, as a frame. */
    ghost function ById(id: UserId): set<User>
      reads this
    {
      if id in users then {users[id]} else {}
    }

    /** The id of the document whose e-mail is `email`, if any. */
    ghost function EmailOwner(email: string): (r: Option<UserId>)
      reads this, users.Values
      ensures r.Some? ==> r.value in users && users[r.value].email == email
      ensures r.None? ==> forall i :: i in users ==> users[i].email != email
    {
      if exists i :: i in users && users[i].email == email then
        Some(var i :| i in users && users[i].email == email; i)
      else None
    }

    /** The document whose e-mail is `email`, as a frame. */
    ghost function ByEmail(email: string): set<User>
      reads this, users.Values
    {
      match EmailOwner(email)
      case None => {}
      case Some(i) => {users[i]}
    }

    /**
     * A handler that changed only the user `id`, kept its e-mail and left it
     * valid leaves the store valid.
     */
    twostate lemma OneUserChanged(id: UserId)
      requires old(Valid()) && unchanged(this)
      requires forall j :: j in users && j != id ==> unchanged(users[j])
      requires id in users ==> users[id].Valid() && users[id].email == old(users[id].email)
      ensures Valid()
    {
    }

    /** Storing a new, saved document whose e-mail address no other document has. */
    method Insert(user: User)
      requires Valid() && user.Valid() && user.id !in users && user !in users.Values
      requires forall i :: i in users ==> users[i].email != user.email
      modifies this`users
      ensures users == old(users)[user.id := user]
      ensures Valid() && EmailOwner(user.email) == Some(user.id)
    {
      users := users[user.id := user];
      assert users[user.id].email == user.email;
    }

    /** `User.findOne({ email })`. */
    method FindByEmail(email: string) returns (found: Option<UserId>)
      requires Valid()
      ensures found == EmailOwner(email)
    {
      if exists i :: i in users && users[i].email == email {
        var i :| i in users && users[i].email == email;
        found := Some(i);
      } else {
        found := None;
      }
    }
  }
}
