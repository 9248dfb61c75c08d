/**
 * The JavaScript string operations the service depends on: `trim`, the first
 * occurrence of a substring, `replace` with a string pattern, and the first
 * segment of `split`.
 */
module Text {
  import opened Wrappers

  /** The characters `String.prototype.trim` and the regular-expression class `\s` remove. */
  predicate IsWhitespace(c: char) {
    || c == '\t' || c == '\n' || c == '\U{B}' || c == '\U{C}' || c == '\r' || c == ' '
    || c == '\U{A0}' || c == '\U{1680}' || ('\U{2000}' <= c <= '\U{200A}')
    || c == '\U{2028}' || c == '\U{2029}' || c == '\U{202F}' || c == '\U{205F}'
    || c == '\U{3000}' || c == '\U{FEFF}'
  }

  predicate AllWhitespace(s: string) {
    forall i :: 0 <= i < |s| ==> IsWhitespace(s[i])
  }

  /** Neither end of `s` is white space. */
  predicate IsTrimmed(s: string) {
    s != [] ==> !IsWhitespace(s[0]) && !IsWhitespace(s[|s| - 1])
  }

  /** The index of the first character at or after `i` that is not white space (or `|s|`). */
  function LeadingEnd(s: string, i: nat): (r: nat)
    requires i <= |s|
    ensures i <= r <= |s|
    ensures forall k :: i <= k < r ==> IsWhitespace(s[k])
    ensures r < |s| ==> !IsWhitespace(s[r])
    decreases |s| - i
  {
    if i < |s| && IsWhitespace(s[i]) then LeadingEnd(s, i + 1) else i
  }

  /** The index just after the last character before `j` that is not white space (or 0). */
  function TrailingStart(s: string, j: nat): (r: nat)
    requires j <= |s|
    ensures r <= j
    ensures forall k :: r <= k < j ==> IsWhitespace(s[k])
    ensures 0 < r ==> !IsWhitespace(s[r - 1])
  {
    if 0 < j && IsWhitespace(s[j - 1]) then TrailingStart(s, j - 1) else j
  }

  /**
   * `String.prototype.trim`: the part of `s` between its leading and its
   * trailing white space.
   */
  function Trim(s: string): (r: string)
    ensures IsTrimmed(r)
    ensures exists k :: 0 <= k <= |s| - |r| && r == s[k..k + |r|]
                     && AllWhitespace(s[..k]) && AllWhitespace(s[k + |r|..])
  {
    var i := LeadingEnd(s, 0);
    var j := TrailingStart(s, |s|);
    if j <= i then
      assert AllWhitespace(s[..i]) && AllWhitespace(s[i..]);
      []
    else
      assert AllWhitespace(s[..i]) && AllWhitespace(s[j..]);
      s[i..j]
  }

  /**
   * Trim is determined by its contract: whenever `s` is white space, then a
   * string with no white space at either end, then white space, trimming `s`
   * gives that middle string.
   */
  lemma TrimOfPadded(a: string, r: string, b: string)
    requires AllWhitespace(a) && AllWhitespace(b) && IsTrimmed(r)
    ensures Trim(a + r + b) == r
  {
    var s := a + r + b;
    var i, j := LeadingEnd(s, 0), TrailingStart(s, |s|);
    if r == [] {
      assert forall k :: 0 <= k < |s| ==> IsWhitespace(s[k]) by {
        forall k | 0 <= k < |s| ensures IsWhitespace(s[k]) {
          if k < |a| { assert s[k] == a[k]; } else { assert s[k] == b[k - |a|]; }
        }
      }
      assert i == |s| && j == 0;
    } else {
      assert s[|a|] == r[0] && s[|a| + |r| - 1] == r[|r| - 1];
      assert i == |a| && j == |a| + |r|;
      assert s[i..j] == r;
    }
  }

  /** Trimming twice is trimming once (the schema trims values the validator already trimmed). */
  lemma TrimIdempotent(s: string)
    ensures Trim(Trim(s)) == Trim(s)
  {
    var r := Trim(s);
    assert [] + r + [] == r;
    TrimOfPadded([], r, []);
  }

  /** `pat` occurs in `s` starting at index `i`. */
  predicate OccursAt(s: string, pat: string, i: nat) {
    i + |pat| <= |s| && s[i..i + |pat|] == pat
  }

  /** `s.indexOf(pat)`: the first index at which `pat` occurs, None for JavaScript's -1. */
  function IndexOf(s: string, pat: string): (r: Option<nat>)
    ensures r.Some? ==> OccursAt(s, pat, r.value)
    ensures r.Some? ==> forall j: nat :: j < r.value ==> !OccursAt(s, pat, j)
    ensures r.None? ==> forall j: nat :: !OccursAt(s, pat, j)
    decreases |s|
  {
    if |s| < |pat| then None
    else if s[..|pat|] == pat then Some(0)
    else
      var rest := IndexOf(s[1..], pat);
      assert !OccursAt(s, pat, 0) by {
        assert s[0..|pat|] == s[..|pat|];
      }
      match rest
      case None =>
        assert forall j: nat :: !OccursAt(s, pat, j) by {
          forall j: nat | 0 < j ensures !OccursAt(s, pat, j) {
            OccursAfterFirst(s, pat, j - 1);
          }
        }
        None
      case Some(i) =>
        OccursAfterFirst(s, pat, i);
        assert forall j: nat :: j < i + 1 ==> !OccursAt(s, pat, j) by {
          forall j: nat | 0 < j < i + 1 ensures !OccursAt(s, pat, j) {
            OccursAfterFirst(s, pat, j - 1);
          }
        }
        Some(i + 1)
  }

  /** Moving past the first character shifts every occurrence down by one. */
  lemma OccursAfterFirst(s: string, pat: string, j: nat)
    requires s != []
    ensures OccursAt(s, pat, j + 1) == OccursAt(s[1..], pat, j)
  {
    if j + 1 + |pat| <= |s| {
      var a, b := s[j + 1..j + 1 + |pat|], s[1..][j..j + |pat|];
      assert |a| == |b|;
      assert forall k :: 0 <= k < |a| ==> a[k] == s[j + 1 + k] == b[k];
      assert a == b;
    }
  }

  /**
   * `s.replace(pat, rep)` with a string pattern: only the first occurrence of
   * `pat` is replaced; without one, `s` is returned as it is.
   */
  function ReplaceFirst(s: string, pat: string, rep: string): string {
    match IndexOf(s, pat)
    case None => s
    case Some(i) => s[..i] + rep + s[i + |pat|..]
  }

  /** `s.split(sep)[0]`: everything before the first `sep`, or all of `s` without one. */
  function FirstSegment(s: string, sep: char): (r: string)
    ensures |r| <= |s| && r == s[..|r|]
    ensures sep !in r
    ensures |r| < |s| ==> s[|r|] == sep
  {
    if s == [] || s[0] == sep then [] else [s[0]] + FirstSegment(s[1..], sep)
  }
}
