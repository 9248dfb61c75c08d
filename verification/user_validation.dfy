/**
 * The rule chains the user routes run before register, login and the profile
 * update, with the validator's own string conversion, trimming and length
 * counting.
 */
module UserValidation {
  import opened Wrappers
  import opened External
  import opened Text
  import opened FieldRules
  import opened Validation
  import opened UserModel

  // ---------------------------------------------------------------------
  // Length as the validator counts it
  // ---------------------------------------------------------------------

  /** The two variation selectors, which `isLength` does not count. */
  predicate IsVariationSelector(c: char) {
    c == '\U{FE0E}' || c == '\U{FE0F}'
  }

  /**
   * `isLength`'s count: the code points of the string less its variation
   * selectors (surrogate pairs count once).
   */
  function CountedLength(s: string): (n: nat)
    ensures n <= |s|
  {
    if s == [] then 0
    else (if IsVariationSelector(s[0]) then 0 else 1) + CountedLength(s[1..])
  }

  /** Without variation selectors, every character counts. */
  lemma {:induction false} CountedLengthOfPlain(s: string)
    requires forall i :: 0 <= i < |s| ==> !IsVariationSelector(s[i])
    ensures CountedLength(s) == |s|
  {
    if s != [] {
      assert forall i :: 0 <= i < |s| - 1 ==> s[1..][i] == s[i + 1];
      CountedLengthOfPlain(s[1..]);
    }
  }

  /** Variation selectors are free: a name can hold more characters than the bound it passes. */
  lemma {:induction false} SelectorsAreNotCounted(s: string, k: nat)
    ensures CountedLength(s + Repeat('\U{FE0F}', k)) == CountedLength(s)
    ensures |s + Repeat('\U{FE0F}', k)| == |s| + k
    decreases |s|
  {
    if s == [] {
      assert s + Repeat('\U{FE0F}', k) == Repeat('\U{FE0F}', k);
      SelectorsOnly(k);
    } else {
      assert (s + Repeat('\U{FE0F}', k))[1..] == s[1..] + Repeat('\U{FE0F}', k);
      SelectorsAreNotCounted(s[1..], k);
    }
  }

  function Repeat(c: char, k: nat): (r: string)
    ensures |r| == k && forall i :: 0 <= i < k ==> r[i] == c
  {
    if k == 0 then [] else [c] + Repeat(c, k - 1)
  }

  lemma {:induction false} SelectorsOnly(k: nat)
    ensures CountedLength(Repeat('\U{FE0F}', k)) == 0
  {
    if k > 0 {
      assert Repeat('\U{FE0F}', k)[1..] == Repeat('\U{FE0F}', k - 1);
      SelectorsOnly(k - 1);
    }
  }

  // ---------------------------------------------------------------------
  // The chains `createValidation` builds
  // ---------------------------------------------------------------------

  const MinPasswordCount: nat := 8

  /** The message key `validation.<field>.<rule>`. */
  function FieldMessage(field: string, rule: string): string {
    "validation." + field + "." + rule
  }

  /** `'required'`: `notEmpty`, reported as `validation.<field>.required`. */
  function RequiredChecks(field: string, v: Option<string>): seq<Check> {
    [Check(NotEmpty(v), FieldMessage(field, "required"))]
  }

  /** `'email'`: `isEmail` (the address is then normalised). */
  function EmailChecks(v: Option<string>, lib: Lib): seq<Check> {
    [Check(lib.isEmail(Str(v)), "validation.email.invalid")]
  }

  /** `'password'`: at least eight counted characters, then the complexity pattern. */
  function PasswordChecks(v: Option<string>): seq<Check> {
    [ Check(CountedLength(Str(v)) >= MinPasswordCount, "validation.password.minLength"),
      Check(ValidatePasswordComplexity(Str(v)), "validation.password.complexity") ]
  }

  /** The value a name rule leaves in the body: trimmed. */
  function SanitizedName(v: Option<string>): string {
    Trim(Str(v))
  }

  /** `'name'`: trimmed, then not empty and at most 50 counted characters. */
  function NameChecks(field: string, v: Option<string>): seq<Check> {
    [ Check(SanitizedName(v) != "", FieldMessage(field, "required")),
      Check(CountedLength(SanitizedName(v)) <= MaxNameLength, FieldMessage(field, "maxLength")) ]
  }

  /** `'dateOfBirth'`: not empty, then ISO 8601 with the validator's default message. */
  function DateOfBirthChecks(v: Option<string>, lib: Lib): seq<Check> {
    [ Check(NotEmpty(v), "validation.dateOfBirth.required"),
      Check(lib.isIso8601(Str(v)), "Invalid value") ]
  }

  /** `'phoneNumber'`: not empty, then the phone pattern. */
  function PhoneChecks(v: Option<string>): seq<Check> {
    [ Check(NotEmpty(v), "validation.phoneNumber.required"),
      Check(IsPhoneNumber(Str(v)), "validation.phoneNumber.invalid") ]
  }

  /** The body of a registration request; a missing `address` is an empty one (`NoAddress`). */
  datatype RegisterBody = RegisterBody(
    email: Option<string>,
    password: Option<string>,
    firstName: Option<string>,
    lastName: Option<string>,
    dateOfBirth: Option<string>,
    phoneNumber: Option<string>,
    address: Address)

  /** `registerValidation`. */
  function RegisterChecks(b: RegisterBody, lib: Lib): seq<Check> {
    RequiredChecks("email", b.email) + EmailChecks(b.email, lib)
    + RequiredChecks("password", b.password) + PasswordChecks(b.password)
    + NameChecks("firstName", b.firstName)
    + NameChecks("lastName", b.lastName)
    + DateOfBirthChecks(b.dateOfBirth, lib)
    + PhoneChecks(b.phoneNumber)
  }

  /** A password the register rules let through. */
  predicate PasswordAcceptable(v: Option<string>) {
    NotEmpty(v) && CountedLength(Str(v)) >= MinPasswordCount && ValidatePasswordComplexity(Str(v))
  }

  predicate NameAcceptable(v: Option<string>) {
    SanitizedName(v) != "" && CountedLength(SanitizedName(v)) <= MaxNameLength
  }

  /** A registration the rules let through: every field present and well formed. */
  predicate RegistrationAcceptable(b: RegisterBody, lib: Lib) {
    && NotEmpty(b.email) && lib.isEmail(Str(b.email))
    && PasswordAcceptable(b.password)
    && NameAcceptable(b.firstName) && NameAcceptable(b.lastName)
    && NotEmpty(b.dateOfBirth) && lib.isIso8601(Str(b.dateOfBirth))
    && NotEmpty(b.phoneNumber) && IsPhoneNumber(Str(b.phoneNumber))
  }

  function RegisterErrors(b: RegisterBody, lib: Lib): (errs: seq<string>)
    ensures errs == [] <==> RegistrationAcceptable(b, lib)
    ensures errs == [] ==>
      && b.email.Some? && b.password.Some? && b.firstName.Some? && b.lastName.Some?
      && b.dateOfBirth.Some? && b.phoneNumber.Some?
  {
    var c1, c2 := RequiredChecks("email", b.email), EmailChecks(b.email, lib);
    var c3, c4 := RequiredChecks("password", b.password), PasswordChecks(b.password);
    var c5, c6 := NameChecks("firstName", b.firstName), NameChecks("lastName", b.lastName);
    var c7, c8 := DateOfBirthChecks(b.dateOfBirth, lib), PhoneChecks(b.phoneNumber);
    FailuresOfConcatenation(c1, c2);
    FailuresOfConcatenation(c1 + c2, c3);
    FailuresOfConcatenation(c1 + c2 + c3, c4);
    FailuresOfConcatenation(c1 + c2 + c3 + c4, c5);
    FailuresOfConcatenation(c1 + c2 + c3 + c4 + c5, c6);
    FailuresOfConcatenation(c1 + c2 + c3 + c4 + c5 + c6, c7);
    FailuresOfConcatenation(c1 + c2 + c3 + c4 + c5 + c6 + c7, c8);
    assert Failures(c5) == [] <==> NameAcceptable(b.firstName) by {
      assert Failures(c5) == [] <==> c5[0].ok && c5[1].ok;
    }
    assert Failures(c6) == [] <==> NameAcceptable(b.lastName) by {
      assert Failures(c6) == [] <==> c6[0].ok && c6[1].ok;
    }
    assert Failures(c4) == [] <==> c4[0].ok && c4[1].ok;
    assert Failures(c7) == [] <==> c7[0].ok && c7[1].ok;
    assert Failures(c8) == [] <==> c8[0].ok && c8[1].ok;
    assert NameAcceptable(b.firstName) ==> b.firstName.Some?;
    assert NameAcceptable(b.lastName) ==> b.lastName.Some?;
    Failures(RegisterChecks(b, lib))
  }

  /**
   * The register password rule is the model's complexity rule: the length
   * rule adds nothing, since a complex password is plain ASCII of eight or
   * more characters.
   */
  lemma {:induction false} PasswordRuleIsComplexity(p: string)
    ensures PasswordAcceptable(Some(p)) <==> ValidatePasswordComplexity(p)
  {
    if ValidatePasswordComplexity(p) {
      CountedLengthOfPlain(p);
    }
  }

  /** The body of a login request. */
  datatype LoginBody = LoginBody(email: Option<string>, password: Option<string>)

  /** `loginValidation`: a valid e-mail and some password. */
  function LoginErrors(b: LoginBody, lib: Lib): (errs: seq<string>)
    ensures errs == [] <==> NotEmpty(b.email) && lib.isEmail(Str(b.email)) && NotEmpty(b.password)
  {
    var checks := RequiredChecks("email", b.email) + EmailChecks(b.email, lib) + RequiredChecks("password", b.password);
    assert checks[0].ok && checks[1].ok && checks[2].ok <==> NotEmpty(b.email) && lib.isEmail(Str(b.email)) && NotEmpty(b.password);
    NoFailuresIffAllPass(checks);
    Failures(checks)
  }

  /** The login rules ask nothing of the password's strength: the register test's weak password is accepted. */
  lemma LoginAcceptsWeakPassword(email: string, lib: Lib)
    requires email != "" && lib.isEmail(email)
    ensures LoginErrors(LoginBody(Some(email), Some("weak")), lib) == []
    ensures !PasswordAcceptable(Some("weak"))
  {
    PasswordExamples();
  }

  // ---------------------------------------------------------------------
  // The profile update
  // ---------------------------------------------------------------------

  /** A value of a JSON request body, as far as the update rules can tell them apart. */
  datatype BodyValue = StringValue(s: string) | NullValue | ObjectValue(fields: map<string, BodyValue>)

  /** The validator's `toString`. */
  function ToStr(v: BodyValue): string {
    match v
    case StringValue(s) => s
    case NullValue => ""
    case ObjectValue(_) => "[object Object]"
  }

  const AddressFields: seq<string> := ["street", "city", "state", "country", "postalCode"]

  /** `body('address.<sub>')`: present only when `address` is an object holding `sub`. */
  function AddressPart(body: map<string, BodyValue>, sub: string): Option<BodyValue> {
    if "address" in body && body["address"].ObjectValue? && sub in body["address"].fields
    then Some(body["address"].fields[sub]) else None
  }

  /** `optional().isString().trim().isLength({ max: 50 })` on a name. */
  function OptionalNameChecks(body: map<string, BodyValue>, field: string): seq<Check> {
    if field !in body then []
    else [ Check(body[field].StringValue?, "Invalid value"),
           Check(CountedLength(Trim(ToStr(body[field]))) <= MaxNameLength, FieldMessage(field, "maxLength")) ]
  }

  function OptionalPhoneChecks(body: map<string, BodyValue>): seq<Check> {
    if "phoneNumber" !in body then []
    else [Check(IsPhoneNumber(ToStr(body["phoneNumber"])), "validation.phoneNumber.invalid")]
  }

  /** `optional().isString().trim()` on each address part. */
  function AddressChecks(body: map<string, BodyValue>, subs: seq<string>): seq<Check> {
    if subs == [] then []
    else
      (match AddressPart(body, subs[0])
       case None => []
       case Some(v) => [Check(v.StringValue?, "Invalid value")])
      + AddressChecks(body, subs[1..])
  }

  /** `updateProfileValidation`. */
  function UpdateChecks(body: map<string, BodyValue>): seq<Check> {
    OptionalNameChecks(body, "firstName") + OptionalNameChecks(body, "lastName")
    + OptionalPhoneChecks(body) + AddressChecks(body, AddressFields)
  }

  predicate OptionalNameAcceptable(body: map<string, BodyValue>, field: string) {
    field in body ==> body[field].StringValue? && CountedLength(Trim(body[field].s)) <= MaxNameLength
  }

  /**
   * An update the rules let through: names, when given, are strings of at most
   * 50 counted characters once trimmed; a phone number, when given, matches
   * the pattern; every address part given is a string. Absent fields are not
   * checked at all.
   */
  predicate UpdateAcceptable(body: map<string, BodyValue>) {
    && OptionalNameAcceptable(body, "firstName")
    && OptionalNameAcceptable(body, "lastName")
    && ("phoneNumber" in body ==> IsPhoneNumber(ToStr(body["phoneNumber"])))
    && (forall sub :: sub in AddressFields && AddressPart(body, sub).Some? ==> AddressPart(body, sub).value.StringValue?)
  }

  /** Each address part given must be a string. */
  predicate AddressPartsAcceptable(body: map<string, BodyValue>, subs: seq<string>) {
    forall i :: 0 <= i < |subs| && AddressPart(body, subs[i]).Some? ==> AddressPart(body, subs[i]).value.StringValue?
  }

  lemma {:induction false} AddressChecksPass(body: map<string, BodyValue>, subs: seq<string>)
    ensures Failures(AddressChecks(body, subs)) == [] <==> AddressPartsAcceptable(body, subs)
  {
    if subs != [] {
      AddressChecksPass(body, subs[1..]);
      var head := match AddressPart(body, subs[0]) case None => [] case Some(v) => [Check(v.StringValue?, "Invalid value")];
      assert AddressChecks(body, subs) == head + AddressChecks(body, subs[1..]);
      FailuresOfConcatenation(head, AddressChecks(body, subs[1..]));
      assert Failures(head) == [] <==> (AddressPart(body, subs[0]).Some? ==> AddressPart(body, subs[0]).value.StringValue?);
      assert forall i :: 0 <= i < |subs| - 1 ==> subs[1..][i] == subs[i + 1];
      if AddressPartsAcceptable(body, subs[1..]) && (AddressPart(body, subs[0]).Some? ==> AddressPart(body, subs[0]).value.StringValue?) {
        forall i | 0 <= i < |subs| && AddressPart(body, subs[i]).Some?
          ensures AddressPart(body, subs[i]).value.StringValue?
        {
          if i > 0 { assert subs[i] == subs[1..][i - 1]; }
        }
      }
    }
  }

  function UpdateErrors(body: map<string, BodyValue>): (errs: seq<string>)
    ensures errs == [] <==> UpdateAcceptable(body)
  {
    var first, last := OptionalNameChecks(body, "firstName"), OptionalNameChecks(body, "lastName");
    var phone := OptionalPhoneChecks(body);
    var parts := AddressChecks(body, AddressFields);
    FailuresOfConcatenation(first, last);
    FailuresOfConcatenation(first + last, phone);
    FailuresOfConcatenation(first + last + phone, parts);
    AddressChecksPass(body, AddressFields);
    assert Failures(first) == [] <==> OptionalNameAcceptable(body, "firstName") by {
      if "firstName" in body { assert Failures(first) == [] <==> first[0].ok && first[1].ok; }
    }
    assert Failures(last) == [] <==> OptionalNameAcceptable(body, "lastName") by {
      if "lastName" in body { assert Failures(last) == [] <==> last[0].ok && last[1].ok; }
    }
    assert AddressPartsAcceptable(body, AddressFields) <==>
      (forall sub :: sub in AddressFields && AddressPart(body, sub).Some? ==> AddressPart(body, sub).value.StringValue?);
    Failures(UpdateChecks(body))
  }

  /** A phone number the update rules accept is a string. */
  lemma AcceptedPhoneIsString(v: BodyValue)
    requires IsPhoneNumber(ToStr(v))
    ensures v.StringValue?
  {
  }

  /** A name over the bound is refused with its own message. */
  lemma UpdateNameBound(s: string)
    requires CountedLength(Trim(s)) > MaxNameLength
    ensures UpdateErrors(map["firstName" := StringValue(s)]) == [FieldMessage("firstName", "maxLength")]
  {
    var body := map["firstName" := StringValue(s)];
    var first := OptionalNameChecks(body, "firstName");
    OnlyFirstNameChecked(s);
    assert Failures(first) == [FieldMessage("firstName", "maxLength")] by {
      assert first[0].ok && !first[1].ok;
      assert first[1..][1..] == [];
    }
  }

  /** A body holding only a first name runs only the first-name rules. */
  lemma OnlyFirstNameChecked(s: string)
    ensures var body := map["firstName" := StringValue(s)];
      UpdateChecks(body) == OptionalNameChecks(body, "firstName")
  {
    var body := map["firstName" := StringValue(s)];
    var first, last := OptionalNameChecks(body, "firstName"), OptionalNameChecks(body, "lastName");
    var phone, parts := OptionalPhoneChecks(body), AddressChecks(body, AddressFields);
    assert "address" !in body && "lastName" !in body && "phoneNumber" !in body;
    assert last == [] && phone == [];
    assert parts == [] by {
      AddressChecksEmpty(body, AddressFields);
    }
    assert first + last == first;
    assert first + last + phone == first;
    assert first + last + phone + parts == first;
  }

  lemma {:induction false} AddressChecksEmpty(body: map<string, BodyValue>, subs: seq<string>)
    requires forall i :: 0 <= i < |subs| ==> AddressPart(body, subs[i]).None?
    ensures AddressChecks(body, subs) == []
  {
    if subs != [] {
      assert forall i :: 0 <= i < |subs| - 1 ==> subs[1..][i] == subs[i + 1];
      AddressChecksEmpty(body, subs[1..]);
    }
  }

  function TrimmedValue(v: BodyValue): BodyValue {
    StringValue(Trim(ToStr(v)))
  }

  /**
   * The body the handler sees: the trim sanitizers have replaced each name and
   * each address part present by its trimmed string form.
   */
  function Sanitized(body: map<string, BodyValue>): (r: map<string, BodyValue>)
    ensures r.Keys == body.Keys
  {
    map k | k in body ::
      if k == "firstName" || k == "lastName" then TrimmedValue(body[k])
      else if k == "address" && body[k].ObjectValue? then
        ObjectValue(map sub | sub in body[k].fields ::
          if sub in AddressFields then TrimmedValue(body[k].fields[sub]) else body[k].fields[sub])
      else body[k]
  }
}
