/**
 * How the request validator reports: every rule of every chain runs in
 * declaration order, and each failing rule adds its message to one list.
 */
module Validation {
  import opened Wrappers

  /** The validator's `toString` of a body field: a missing field reads as the empty string. */
  function Str(v: Option<string>): string {
    v.GetOr("")
  }

  /** `notEmpty()`. */
  predicate NotEmpty(v: Option<string>) {
    Str(v) != ""
  }

  /** One rule of a chain with the message it reports when it fails. */
  datatype Check = Check(ok: bool, message: string)

  /** `validationResult(req).array()`: the messages of the failing rules, in declaration order. */
  function Failures(checks: seq<Check>): (errs: seq<string>)
    ensures |errs| <= |checks|
  {
    if checks == [] then []
    else (if checks[0].ok then [] else [checks[0].message]) + Failures(checks[1..])
  }

  /** Every rule of the chain passes. */
  predicate AllPass(checks: seq<Check>) {
    forall i :: 0 <= i < |checks| ==> checks[i].ok
  }

  /** A request is let through exactly when every rule passes. */
  lemma {:induction false} NoFailuresIffAllPass(checks: seq<Check>)
    ensures Failures(checks) == [] <==> AllPass(checks)
  {
    if checks != [] {
      NoFailuresIffAllPass(checks[1..]);
      assert AllPass(checks) <==> checks[0].ok && AllPass(checks[1..]) by {
        assert forall i :: 1 <= i < |checks| ==> checks[i] == checks[1..][i - 1];
      }
    }
  }

  /**
   * The first message reported is that of the first failing rule: the order
   * in which the rules are declared decides which message a handler that
   * reports only the first error sends.
   */
  lemma {:induction false} FirstFailureReported(checks: seq<Check>, k: nat)
    requires k < |checks| && !checks[k].ok
    requires forall i :: 0 <= i < k ==> checks[i].ok
    ensures Failures(checks) != [] && Failures(checks)[0] == checks[k].message
  {
    if k > 0 {
      assert forall i :: 0 <= i < k - 1 ==> checks[1..][i] == checks[i + 1];
      FirstFailureReported(checks[1..], k - 1);
    }
  }

  /** Failures of two chains run one after the other are the failures of each, in order. */
  lemma {:induction false} FailuresOfConcatenation(a: seq<Check>, b: seq<Check>)
    ensures Failures(a + b) == Failures(a) + Failures(b)
  {
    if a == [] {
      assert a + b == b;
    } else {
      assert (a + b)[1..] == a[1..] + b;
      FailuresOfConcatenation(a[1..], b);
    }
  }
}
