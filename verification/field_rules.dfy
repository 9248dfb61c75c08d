/**
 * The field rules shared by the user schema and the request validators: the
 * password-complexity pattern, the phone-number pattern and the name bounds.
 */
module FieldRules {
  import opened Text

  predicate IsLower(c: char) { 'a' <= c <= 'z' }
  predicate IsUpper(c: char) { 'A' <= c <= 'Z' }
  /** JavaScript's `\d`: ASCII digits only. */
  predicate IsDigit(c: char) { '0' <= c <= '9' }
  predicate IsPasswordSymbol(c: char) {
    c == '@' || c == '$' || c == '!' || c == '%' || c == '*' || c == '?' || c == '&'
  }
  /** The class `[A-Za-z\d@$!%*?&]`. */
  predicate IsPasswordChar(c: char) {
    IsLower(c) || IsUpper(c) || IsDigit(c) || IsPasswordSymbol(c)
  }

  const MinPasswordLength: nat := 8
  const MaxNameLength: nat := 50

  /**
   * The complexity rule in words: at least eight characters, all from the
   * allowed class, with a lower-case letter, an upper-case letter, a digit and
   * one of `@$!%*?&` among them.
   */
  predicate IsComplexPassword(p: string) {
    && |p| >= MinPasswordLength
    && (forall i :: 0 <= i < |p| ==> IsPasswordChar(p[i]))
    && (exists i :: 0 <= i < |p| && IsLower(p[i]))
    && (exists i :: 0 <= i < |p| && IsUpper(p[i]))
    && (exists i :: 0 <= i < |p| && IsDigit(p[i]))
    && (exists i :: 0 <= i < |p| && IsPasswordSymbol(p[i]))
  }

  /** What JavaScript's `.` does not match. */
  predicate IsLineTerminator(c: char) {
    c == '\n' || c == '\r' || c == '\U{2028}' || c == '\U{2029}'
  }

  /** No line terminator in `p[..i]`, so `.*` can reach index `i` from the start. */
  predicate DotStarReaches(p: string, i: nat)
    requires i <= |p|
  {
    forall j :: 0 <= j < i ==> !IsLineTerminator(p[j])
  }

  /** The look-ahead `(?=.*[class])` at the start of `p`. */
  predicate LookaheadFinds(p: string, inClass: char -> bool) {
    exists i :: 0 <= i < |p| && DotStarReaches(p, i) && inClass(p[i])
  }

  /**
   * `validatePasswordComplexity`: the pattern
   * `^(?=.*[a-z])(?=.*[A-Z])(?=.*\d)(?=.*[@$!%*?&])[A-Za-z\d@$!%*?&]{8,}$`
   * read with JavaScript's semantics (`.` stops at line terminators, `$` is
   * the end of input). It accepts exactly the complex passwords.
   */
  function ValidatePasswordComplexity(p: string): bool {
    && LookaheadFinds(p, IsLower)
    && LookaheadFinds(p, IsUpper)
    && LookaheadFinds(p, IsDigit)
    && LookaheadFinds(p, IsPasswordSymbol)
    && |p| >= MinPasswordLength
    && (forall i :: 0 <= i < |p| ==> IsPasswordChar(p[i]))
  }

  /** The pattern accepts exactly the complex passwords. */
  lemma PatternIsComplexity(p: string)
    ensures ValidatePasswordComplexity(p) <==> IsComplexPassword(p)
  {
    if ValidatePasswordComplexity(p) {
      FoundByLookahead(p, IsLower);
      FoundByLookahead(p, IsUpper);
      FoundByLookahead(p, IsDigit);
      FoundByLookahead(p, IsPasswordSymbol);
    } else if IsComplexPassword(p) {
      ReachedByLookahead(p, IsLower);
      ReachedByLookahead(p, IsUpper);
      ReachedByLookahead(p, IsDigit);
      ReachedByLookahead(p, IsPasswordSymbol);
    }
  }

  lemma FoundByLookahead(p: string, inClass: char -> bool)
    requires LookaheadFinds(p, inClass)
    ensures exists i :: 0 <= i < |p| && inClass(p[i])
  {
    var i :| 0 <= i < |p| && DotStarReaches(p, i) && inClass(p[i]);
  }

  /** In a string made only of password characters, `.*` reaches every index. */
  lemma ReachedByLookahead(p: string, inClass: char -> bool)
    requires forall i :: 0 <= i < |p| ==> IsPasswordChar(p[i])
    requires exists i :: 0 <= i < |p| && inClass(p[i])
    ensures LookaheadFinds(p, inClass)
  {
    var i :| 0 <= i < |p| && inClass(p[i]);
    assert DotStarReaches(p, i);
  }

  /** The pattern `^\+[1-9]\d{1,14}$`: a plus, a non-zero digit, then one to fourteen digits. */
  predicate IsPhoneNumber(s: string) {
    && 3 <= |s| <= 16
    && s[0] == '+'
    && '1' <= s[1] <= '9'
    && (forall i :: 2 <= i < |s| ==> IsDigit(s[i]))
  }

  /** A phone number is never blank and never changed by trimming. */
  lemma PhoneNumberIsTrimmed(s: string)
    requires IsPhoneNumber(s)
    ensures s != [] && Trim(s) == s
  {
    assert !IsWhitespace(s[|s| - 1]) by { assert IsDigit(s[|s| - 1]); }
    assert [] + s + [] == s;
    TrimOfPadded([], s, []);
  }

  /** The numbers the profile tests use: one is accepted, the unprefixed one is not. */
  lemma PhoneExamples()
    ensures IsPhoneNumber("+1987654321")
    ensures !IsPhoneNumber("123456")
    ensures !IsPhoneNumber("+0123456")
    ensures !IsPhoneNumber("+1")
  {
  }

  /** The register test's weak password fails; a password with all four classes passes. */
  lemma PasswordExamples()
    ensures !ValidatePasswordComplexity("weak")
    ensures ValidatePasswordComplexity("Password123!")
    ensures !ValidatePasswordComplexity("password123!")
  {
    var p := "Password123!";
    assert DotStarReaches(p, 0) && DotStarReaches(p, 1) && DotStarReaches(p, 8) && DotStarReaches(p, 11);
    assert IsUpper(p[0]) && IsLower(p[1]) && IsDigit(p[8]) && IsPasswordSymbol(p[11]);
    var q := "password123!";
    assert forall i :: 0 <= i < |q| ==> !IsUpper(q[i]);
  }

  /** A name rule's bound after trimming. */
  predicate NameWithinBound(name: string) {
    |Trim(name)| <= MaxNameLength
  }
}
