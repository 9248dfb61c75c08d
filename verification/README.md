# User-account service: a verified model

This project models, in Dafny, the core of an Express/Mongoose user-account
service:

- the `User` document and its schema rules (email and phone patterns, name
  length, password complexity, the password-hashing save hook);
- the login lockout state machine. Five wrong passwords lock the account for
  30 minutes. A lock whose end has passed is cleared at the next login.
  A successful login resets the counter.
- the request validators of the register, login, profile-update, KYC-submit
  and KYC-verify routes (express-validator chains);
- the controllers: `register`, `login`, `updateProfile`, `deleteAccount`,
  `submitKYC`, `getKYCStatus` and `verifyKYC`;
- the bearer-token `auth` middleware and the `isAdmin` guard;
- the language-selection middleware.

## Modules

- `Wrappers`, `Http`: Option and the HTTP response value.
- `External`: the foreign collaborators as the `Lib` record of functions.
  These are bcrypt's hash and compare, JWT sign and verify, the validator
  library's `isEmail`, `isISO8601` and `normalizeEmail`, date parsing and the
  schema's email pattern. `Sound(lib)` states the only facts the model relies
  on: a password matches its own hash, and a signed token verifies to its
  user id.
- `Text`: JavaScript's `trim`, `replace` (first occurrence) and
  `split(',')[0]`.
- `FieldRules`: the password-complexity and phone regular expressions, as
  predicates, with the regex's look-ahead semantics proved equivalent.
- `KycModel`, `UserModel`: the KYC sub-document and the `User` class.
  - The class keeps the fields the service updates in place, with methods
    for the model's instance methods and the save hook.
  - `UserStore` is the collection, a map from id to `User` with unique emails.
- `Validation`: express-validator's result (all failures in declaration
  order). `KycValidation` and `UserValidation` hold the route chains.
- `UserController`, `KycController`: the controllers. Each state-changing
  handler is a method proved against a pure function of the old state.
- `Auth`, `KycRoutes`, `UserRoutes`, `Language`: the middleware and the
  route wiring that puts `auth`/`isAdmin` before a handler.

Two behaviours of the code that a reader might not expect:

- A lock ends only when `lockUntil < now`. At exactly `lockUntil` the account
  is still locked (`src/models/User.js:191`).
- A KYC record may be submitted again once it has been verified or rejected.
  Only a record in `submitted` refuses a new submission
  (`src/controllers/kycController.js:32-36`). `ResubmissionAfterDecision`
  states this.

## Model

| member | source | states |
|---|---|---|
| Text.LeadingEnd | src/routes/userRoutes.js:31 | the end of the leading whitespace run from an index: everything skipped is whitespace and the character there, if any, is not |
| Text.TrailingStart | src/routes/userRoutes.js:31 | the start of the trailing whitespace run before an index: everything skipped is whitespace and the character before it, if any, is not |
| Text.Trim | src/models/User.js:60 | the result has no whitespace at either end and is the input with only whitespace removed around it |
| Text.TrimOfPadded | src/models/User.js:60 | trimming a trimmed string padded with whitespace gives it back (the reference characterisation of trim) |
| Text.TrimIdempotent | src/models/User.js:60-67 | trimming twice is trimming once, so the schema's trim after the sanitizer's trim changes nothing |
| Text.IndexOf | src/middleware/auth.js:6 | the first index where the pattern occurs, or none when it never occurs |
| Text.OccursAfterFirst | src/middleware/auth.js:6 | an occurrence at j+1 is an occurrence at j in the tail |
| Text.FirstSegment | src/middleware/language.js:10 | the prefix before the first comma: a prefix with no comma, followed by a comma or the end |
| FieldRules.PatternIsComplexity | src/models/User.js:139-141 | the regex, read with JavaScript's look-ahead semantics, accepts exactly the passwords of at least 8 allowed characters holding a lower-case letter, an upper-case letter, a digit and one of @$!%*?& |
| FieldRules.FoundByLookahead | src/models/User.js:140 | a `(?=.*[class])` look-ahead that succeeds means a character of the class occurs |
| FieldRules.ReachedByLookahead | src/models/User.js:140 | conversely, on a password of allowed characters, an occurring class character makes the look-ahead succeed |
| FieldRules.PhoneNumberIsTrimmed | src/models/User.js:73-82 | a phone number matching the pattern is non-empty and has no surrounding whitespace |
| FieldRules.PhoneExamples | tests/user.test.js:94-106 | the pattern accepts "+1987654321" and refuses "123456", "+0123456" and "+1" |
| FieldRules.PasswordExamples | tests/auth.test.js:52-59 | "weak" and "password123!" fail the complexity rule and "Password123!" passes |
| KycModel.ParseDocumentType | src/models/User.js:13 | only the three enum names parse, each to the type whose name it is |
| KycModel.DocumentTypeRoundTrip | src/models/User.js:13 | every document type's name parses back to it |
| UserModel.AfterFailedLogin | src/models/User.js:176-186 | the counter goes up by one. At 5 or more the account is locked until now + 30 minutes; otherwise the lock fields and lastLogin stay as they were |
| UserModel.CheckLock | src/models/User.js:189-199 | locked exactly when the flag is set and the lock has not expired; an expired lock resets counter, flag and end, and only that case changes the state |
| UserModel.AfterSuccessfulLogin | src/models/User.js:162-168 | lastLogin becomes now; the counter, lock flag and lock end are reset |
| UserModel.ToJson | src/models/User.js:202-209 | removes exactly the four secret paths and keeps every other value |
| UserModel.JsonViewOfUser | src/models/User.js:202-209 | a user's JSON view holds every path the document holds except the password, 2FA secret and the two tokens, each with the document's value; the always-present paths are always shown and the four secrets never |
| UserModel.AddressShownOnlyWhenSet | src/models/User.js:202-203 | the address appears in the JSON view exactly when some part of it is set, since an empty object is minimized away |
| UserModel.User.constructor | src/models/User.js:37-133 | a new document: names trimmed, password marked modified, active member, fresh login state, no KYC, no tokens |
| UserModel.User.SetProfile | src/controllers/userController.js:183-189 | assigns the four profile fields and nothing else |
| UserModel.User.HandleFailedLogin | src/models/User.js:176-186 | the login fields become AfterFailedLogin of the old ones |
| UserModel.User.IsAccountLocked | src/models/User.js:189-199 | the answer and the new login fields are CheckLock of the old ones |
| UserModel.User.UpdateLastLogin | src/models/User.js:162-168 | the login fields become AfterSuccessfulLogin of the old ones |
| UserModel.User.PreSave | src/models/User.js:144-159 | an unmodified password passes untouched. A modified one is refused with "validation.password.complexity" unless complex, otherwise replaced by its hash |
| UserModel.UserStore.constructor | src/models/User.js:214 | an empty collection satisfies the store invariant |
| UserModel.UserStore.EmailOwner | src/models/User.js:41 | the unique user holding an email, or none when no user holds it |
| UserModel.UserStore.OneUserChanged | src/models/User.js:37-133 | a write to one document that keeps it schema-valid and its email keeps the store invariant |
| UserModel.UserStore.Insert | src/controllers/userController.js:56 | the new document is added under its id and becomes the owner of its email |
| UserModel.UserStore.FindByEmail | src/controllers/userController.js:37 | the lookup returns the owner of the email |
| Validation.Failures | src/controllers/userController.js:26-32 | one message at most per rule of the chain |
| Validation.NoFailuresIffAllPass | src/controllers/userController.js:26-32 | no failures exactly when every rule of the chain passes |
| Validation.FirstFailureReported | src/controllers/kycController.js:7-13 | the first message is that of the first failing check |
| Validation.FailuresOfConcatenation | src/routes/userRoutes.js:55-62 | the failures of consecutive chains are the failures of each, in order |
| KycValidation.SubmitErrors | src/routes/kycRoutes.js:9-35 | no errors exactly when the type is an enum value and all of these hold: a number is given, the expiry is ISO 8601 and strictly in the future, and front, back and selfie are given |
| KycValidation.SubmitFirstError | src/routes/kycRoutes.js:10-25 | the first error reported names the first rule broken: type, then number, then expiry format, then expiry date |
| KycValidation.SubmitImageError | src/routes/kycRoutes.js:26-34 | once the four document rules pass, a missing front, back or selfie is reported first with its own key, in that order |
| KycValidation.ExpiryAtNowIsExpired | src/routes/kycRoutes.js:21 | an expiry equal to now is refused as expired |
| KycValidation.ParseDecision | src/routes/kycRoutes.js:41-43 | only "approve" and "reject" parse, and "reject" is the rejection |
| KycValidation.VerifyErrors | src/routes/kycRoutes.js:37-48 | no errors exactly when a user id is given, the action is approve or reject, and a rejection carries a reason |
| KycValidation.ReasonOnlyForRejection | src/routes/kycRoutes.js:44-47 | an approval needs no reason; a rejection without one gets only "kyc.rejectionReasonRequired" |
| KycController.Submit | src/controllers/kycController.js:5-64 | 200 exactly when the body is valid, the user exists, the record is not awaiting review and the expiry parses. The new record is submitted, consistent and carries the body's documents. Every refusal leaves the record alone and names its reason |
| KycController.GetStatus | src/controllers/kycController.js:67-102 | an unknown user gets 404. A user without a record gets a pending one created; the reply shows status, type, date and reason |
| KycController.Verify | src/controllers/kycController.js:105-158 | 200 exactly when the body is valid and the record is submitted. Approve verifies and reject rejects with the reason, both dated now; no other field changes and each refusal names its reason |
| KycController.StepPreservesConsistency | src/models/User.js:5-35 | every handler keeps the record consistent with the schema and its status |
| KycController.RunPreservesConsistency | src/models/User.js:5-35 | any sequence of handler calls keeps the record consistent |
| KycController.RunKeepsExistence | src/controllers/kycController.js:24-29 | no KYC handler creates or removes a user |
| KycController.DecisionShape | src/controllers/kycController.js:137-143 | a consistent record is verified iff dated without a reason, and rejected iff it has a reason |
| KycController.SecondSubmissionIsRefused | tests/kyc.test.js:109-123 | a second submission right after a successful one changes nothing and is answered 400 "kyc.alreadySubmitted" when the body is valid |
| KycController.ResubmissionAfterDecision | src/controllers/kycController.js:32-49 | a verified or rejected record accepts a fresh submission that clears date and reason |
| KycController.ApprovalThenStatus | tests/kyc.test.js:159-171 | approving a submitted record makes the status query show verified, dated now |
| KycController.StatusQueryIsIdempotent | src/controllers/kycController.js:77-94 | querying twice equals querying once |
| KycController.NoReviewOfDecided | src/controllers/kycController.js:131-135 | a decided record cannot be reviewed again: "kyc.invalidStatus" and no change |
| KycController.SubmitKyc | src/controllers/kycController.js:5-64 | response and new record are Submit of the old record; the store invariant holds |
| KycController.GetKycStatus | src/controllers/kycController.js:67-102 | reply and new record are GetStatus of the old record |
| KycController.VerifyKyc | src/controllers/kycController.js:105-158 | response and new record of the named user are Verify of the old record |
| Auth.BearerHeaderYieldsToken | src/middleware/auth.js:6 | "Bearer " followed by a token yields the token |
| Auth.NoSchemeBefore | src/middleware/auth.js:6 | in a header whose leading text has no "Bearer ", no occurrence starts inside that text, even one running into what follows |
| Auth.ExtractionIsNotPrefixStrip | src/middleware/auth.js:6 | for every leading text without "Bearer " and every token, the first "Bearer " is removed in place, keeping the text before it; a header without it is taken whole |
| Auth.Authenticate | src/middleware/auth.js:4-25 | authenticated exactly when the extracted token is non-empty and verifies to an active user's id. Otherwise 401 "Authentication required" for a missing token or 401 "Please authenticate" |
| Auth.SignedTokenAuthenticates | src/middleware/auth.js:12-20 | a header carrying a token signed for an active user authenticates that user |
| Auth.AdminGuard | src/middleware/auth.js:27-36 | refuses with 403 exactly the non-admin roles |
| KycRoutes.AdminGate | src/routes/kycRoutes.js:147 | passes exactly an authenticated admin, forwards auth's refusal and answers 403 to other users |
| KycRoutes.PostSubmit | src/routes/kycRoutes.js:94 | a refused request changes nothing; otherwise the caller's record follows Submit and no other record changes |
| KycRoutes.GetStatusRoute | src/routes/kycRoutes.js:110 | a refused request changes nothing; otherwise the caller's record follows GetStatus and no other record changes |
| KycRoutes.PostVerify | src/routes/kycRoutes.js:147 | a non-admin changes nothing; an admin's request makes the named user's record follow Verify and no other record changes |
| Language.FirstNonEmpty | src/middleware/language.js:8-12 | the first non-empty candidate, or the default when all are empty |
| Language.ChooseLanguage | src/middleware/language.js:6-35 | the language is supported: the requested one if supported, else "en". The cookie is written exactly when it differs |
| Language.QueryDecides | src/middleware/language.js:9 | a non-empty query parameter decides, whatever the header and cookie say |
| Language.HeaderDecides | src/middleware/language.js:10 | without a query, the header's first comma segment decides when non-empty |
| Language.CookieDecides | src/middleware/language.js:11 | without query and header, the cookie decides |
| Language.RegionTagIsUnsupported | src/middleware/language.js:10-16 | "fr-FR,fr" falls back to "en", since the whole first segment is compared |
| Language.QualityValueIsUnsupported | src/middleware/language.js:10-16 | "fr;q=0.9" falls back to "en" |
| Language.PlainSegmentIsChosen | src/middleware/language.js:10-16 | without a query, a supported language followed by a comma and anything selects that language, whatever the cookie says |
| Language.FirstSegmentExample | src/middleware/language.js:10 | the first segment is the text before the first comma (reference characterisation) |
| UserValidation.CountedLength | src/routes/userRoutes.js:25 | the length isLength counts never exceeds the number of characters |
| UserValidation.CountedLengthOfPlain | src/routes/userRoutes.js:25 | without variation selectors isLength counts every character |
| UserValidation.SelectorsAreNotCounted | src/routes/userRoutes.js:34 | appending variation selectors lengthens the string but not the counted length |
| UserValidation.SelectorsOnly | src/routes/userRoutes.js:34 | a run of selectors counts as length 0 |
| UserValidation.RegisterErrors | src/routes/userRoutes.js:55-62 | no errors exactly when every register rule passes, so every field is present |
| UserValidation.PasswordRuleIsComplexity | src/routes/userRoutes.js:23-28 | the register password rules accept exactly the complex passwords |
| UserValidation.LoginErrors | src/routes/userRoutes.js:64-67 | no errors exactly when the email is present and an email and the password is present |
| UserValidation.LoginAcceptsWeakPassword | src/routes/userRoutes.js:64-67 | login does not check complexity: "weak" passes login's rules but not register's |
| UserValidation.AddressChecksPass | src/routes/userRoutes.js:77-81 | the address chains pass exactly when every given part is a string |
| UserValidation.UpdateErrors | src/routes/userRoutes.js:69-82 | no errors exactly when given names are strings of at most 50 counted characters once trimmed, a given phone matches, and given address parts are strings |
| UserValidation.AcceptedPhoneIsString | src/routes/userRoutes.js:74-76 | a phone value the pattern accepts was a string |
| UserValidation.UpdateNameBound | tests/user.test.js:108-120 | a first name over 50 counted characters is refused with "validation.firstName.maxLength" alone |
| UserValidation.OnlyFirstNameChecked | src/routes/userRoutes.js:69-82 | absent fields add no checks |
| UserValidation.AddressChecksEmpty | src/routes/userRoutes.js:77-81 | absent address parts add no checks |
| UserValidation.Sanitized | src/routes/userRoutes.js:70-81 | sanitizing keeps exactly the body's keys |
| UserController.LoginStep | src/controllers/userController.js:94-126 | locked out exactly while an unexpired lock holds, changing nothing. Otherwise a wrong password counts a failure, a deactivated account is refused, and a login resets the state and records now. The lock invariant is kept |
| UserController.AttemptsKeepInvariant | src/models/User.js:176-199 | any sequence of attempts keeps the lock invariant |
| UserController.WrongAttempts | tests/auth.test.js:107-126 | one wrong-password attempt per given time |
| UserController.FailuresAccumulate | src/models/User.js:176-186 | up to 5 consecutive failures add their number to the counter and lock exactly at 5, until the last failure + 30 minutes |
| UserController.FiveFailuresLock | tests/auth.test.js:107-126 | after five wrong passwords even the right password is locked out within the window |
| UserController.LockHoldsThroughWindow | src/models/User.js:189-199 | attempts up to the lock end change nothing |
| UserController.ExpiredLockStartsAfresh | src/models/User.js:191-197 | after the lock end an attempt behaves as on a cleared account |
| UserController.LockWithoutEndIsPermanent | src/models/User.js:191 | a lock without an end date never expires |
| UserController.SaveFailuresAfterRules | src/controllers/userController.js:46-56 | after the register rules pass, saving can fail only on the schema's email pattern, the date, or the stored name length |
| UserController.RegisteredUserCanLogIn | tests/auth.test.js:82-93 | a newly registered user logs in with the registered password |
| UserController.RegisterResponse | src/controllers/userController.js:24-71 | 201 "User registered successfully" exactly when the rules pass, the email is free and the schema accepts. Otherwise 400 "Validation error", 400 "User already exists" or 500 "Server error" |
| UserController.Register | src/controllers/userController.js:24-71 | the response is RegisterResponse; only on 201 is a new user stored, the owner of the normalised email with the hashed password and defaults, and a token for it returned |
| UserController.CreateUser | src/controllers/userController.js:46-56 | adds the saved document under its id and changes no other user |
| UserController.NewDocument | src/controllers/userController.js:46-54 | the unsaved document holds the body's values with the plain password |
| UserController.SaveNewDocument | src/models/User.js:144-159 | the saved document is schema-valid and holds the hashed password |
| UserController.LoginAttempt | src/controllers/userController.js:94-118 | on the found user: the outcome and the user's new login fields are LoginStep of the old ones, with the password compared against the stored hash |
| UserController.AttemptLogin | src/controllers/userController.js:94-118 | the outcome and the user's new login fields are LoginStep of the old ones, and the store stays valid with no other document changed |
| UserController.Login | src/controllers/userController.js:74-134 | a validation error gets 400 and an unknown email 401 "Invalid credentials", both changing nothing. Otherwise the reply and login fields follow LoginStep, and a token is issued exactly on success |
| UserController.AssignStep | src/controllers/userController.js:183-189 | one more key applied is one more assignment |
| UserController.UpdateTouchesOnlyGivenFields | src/controllers/userController.js:183-189 | a field the body does not name keeps its value; a given name is stored as its trimmed value; a given phone number as sent; an address object sets each part it gives and keeps the others; a null address changes nothing |
| UserController.UpdateIsIdempotent | src/controllers/userController.js:183-189 | applying the same update twice equals applying it once |
| UserController.ApplyUpdates | src/controllers/userController.js:183-189 | the loop over the keys computes the order-independent updated profile |
| UserController.UpdateResult | src/controllers/userController.js:155-205 | 200 "Profile updated successfully" exactly when the rules pass, the keys are allowed and the updated profile is schema-valid, which is then stored. Otherwise "Validation error", "Invalid updates", "User not found" or "Server error" with nothing stored; trimmed names stay trimmed |
| UserController.SaveProfile | src/controllers/userController.js:191 | stores the profile and keeps the store invariant |
| UserController.UpdateProfile | src/controllers/userController.js:155-205 | response and new profile are UpdateResult of the old profile |
| UserController.DeleteAccount | src/controllers/userController.js:208-229 | an existing user is removed and its email freed with 200 "Account deleted successfully"; otherwise 404 and nothing changes |
| UserRoutes.PatchProfile | src/routes/userRoutes.js:380 | a refused request answers auth's refusal; otherwise the caller's profile follows UpdateResult. No other user's profile changes |
| UserRoutes.DeleteAccountRoute | src/routes/userRoutes.js:408 | a refused request changes nothing; otherwise the caller is removed and its token no longer authenticates |

## Left out

- Hashing, token signing and verification, email normalisation, ISO 8601
  parsing and the email pattern are parameters (`Lib`). Salt, cost factor,
  JWT secret and expiry are not modelled. Only the two facts in
  `Sound(lib)` are assumed about them.
- External.Sound assumes `JWT_SECRET` is set. Tokens are signed with
  `process.env.JWT_SECRET || 'test-jwt-secret'`
  (`src/controllers/userController.js:9`) but verified with
  `process.env.JWT_SECRET` and no fallback (`src/middleware/auth.js:12`).
  With the variable unset, no issued token verifies, so the sign/verify
  half of `Sound` and `Auth.SignedTokenAuthenticates` do not apply.
- The clock is a parameter `now` (milliseconds).
- Lengths are counted in Unicode code points, not UTF-16 code units. A
  character outside the Basic Multilingual Plane counts 1 here where Mongoose
  counts 2.
- Request bodies of register, login and KYC are modelled as optional
  strings; non-string values there are not modelled. The profile update
  models strings, `null` and objects (`BodyValue`) and leaves out numbers,
  booleans and arrays. So `{"phoneNumber": 1234567890}`, which the pattern
  accepts on its string form and Mongoose casts to a string, and an array
  `address`, which `typeof` calls an object and so takes the merge branch at
  `src/controllers/userController.js:184-185`, have no representation.
- A malformed ObjectId (Mongoose's CastError) and every 500 path other
  than a failed save are not modelled: the database is always reachable.
- Concurrency is not modelled: handlers run one at a time. The
  duplicate-key race on the unique email index is not represented.
- UserModel.User.IsAccountLocked: the save after clearing an expired lock is
  not awaited in the source. The model commits it at once; a failure of that
  save is not represented.
- Mongoose timestamps (`createdAt`, `updatedAt`) and indexes are not
  modelled.
- The schema's lowercase and trim setters on the email are not modelled.
  The normalised email is taken as stored.
- The language cookie's options (max age, domain, secure flag) are left out.
  So are a `lng` query given as an array and the i18next instance's own
  language switch.
- Language.ChooseLanguage: i18next adds "cimode" to its supported list at
  start-up, and `src/server.js` filters it out only of the list it reports.
  So `?lng=cimode` selects "cimode" in the program and "en" in the model,
  whose list is the configured one ("en", "es", "fr").
- Localisation of messages through `req.t` is not modelled: responses carry
  the message key or English text. The `errors.array()` detail is reduced to
  its first message (KYC) or to "Validation error" (user routes).
- The user-route validators report every failure. The model keeps them all
  (`Validation.Failures`), but the user controllers only answer "Validation
  error", so only their emptiness matters there.
- `getProfile`, the Swagger documentation and the server set-up
  (`src/server.js`, `src/config/swagger.js`) are not part of this model.
- The update loop follows `Object.keys` order. The model proves the
  resulting profile independent of order (`Applied` over sets of keys).
- Response bodies carrying the user's JSON view are reduced to status and
  message. The view itself is `UserModel.ToJson`.
