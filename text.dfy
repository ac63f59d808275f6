/**
 * String operations the analysers rely on: Swift's `joined(separator:)`,
 * `contains(_:)` and integer interpolation, and Python's `str.strip()` and
 * `str.startswith()`.
 */
module Text {

  /**
   * Concatenation is associative. Proofs about texts and report lists built
   * piece by piece cite it rather than leave the solver to rediscover it.
   */
  lemma AppendAssoc<T>(a: seq<T>, b: seq<T>, c: seq<T>)
    ensures (a + b) + c == a + (b + c)
  {
  }

  /** `parts` with `sep` between consecutive elements (Swift's `joined(separator:)`). */
  function Join(parts: seq<string>, sep: string): string
  {
    if |parts| == 0 then ""
    else if |parts| == 1 then parts[0]
    else parts[0] + sep + Join(parts[1..], sep)
  }

  /** Every element of `parts` followed by `sep`: the reference form of a joined, terminated list. */
  function Terminated(parts: seq<string>, sep: string): string
  {
    if |parts| == 0 then "" else parts[0] + sep + Terminated(parts[1..], sep)
  }

  /** Joining and then appending one more separator (when there is any part) terminates every part. */
  lemma {:induction false} JoinThenSeparator(parts: seq<string>, sep: string)
    ensures Join(parts, sep) + (if |parts| == 0 then "" else sep) == Terminated(parts, sep)
  {
    if |parts| > 1 {
      JoinThenSeparator(parts[1..], sep);
      calc {
        Join(parts, sep) + sep;
        (parts[0] + sep + Join(parts[1..], sep)) + sep;
        { assert (parts[0] + sep + Join(parts[1..], sep)) + sep
              == parts[0] + sep + (Join(parts[1..], sep) + sep); }
        parts[0] + sep + Terminated(parts[1..], sep);
      }
    }
  }

  predicate IsDigit(c: char) { '0' <= c <= '9' }

  function DigitChar(d: nat): (c: char)
    requires d < 10
    ensures IsDigit(c) && c as int - '0' as int == d
  {
    "0123456789"[d]
  }

  /** The decimal numeral of `n`, as Swift's string interpolation of an `Int` writes it. */
  function NatToString(n: nat): (s: string)
    ensures |s| >= 1
    ensures forall i :: 0 <= i < |s| ==> IsDigit(s[i])
    ensures s[0] == '0' ==> n == 0 && s == "0"
  {
    if n < 10 then [DigitChar(n)] else NatToString(n / 10) + [DigitChar(n % 10)]
  }

  function DigitValue(c: char): nat
    requires IsDigit(c)
  {
    c as int - '0' as int
  }

  /** The value of a decimal numeral. */
  function ParseNat(s: string): nat
    requires forall i :: 0 <= i < |s| ==> IsDigit(s[i])
  {
    if |s| == 0 then 0 else 10 * ParseNat(s[..|s| - 1]) + DigitValue(s[|s| - 1])
  }

  /** Reading back a rendered number gives the number: the rendering loses nothing. */
  lemma {:induction false} ParseNatToString(n: nat)
    ensures ParseNat(NatToString(n)) == n
  {
    if n >= 10 {
      var s := NatToString(n);
      assert s[..|s| - 1] == NatToString(n / 10);
      ParseNatToString(n / 10);
    }
  }

  /** Swift's `haystack.contains(needle)` on strings: `needle` occurs as a contiguous run. */
  predicate IsSubstring(needle: string, haystack: string)
    decreases |haystack|
  {
    StartsWith(haystack, needle) || (|haystack| > 0 && IsSubstring(needle, haystack[1..]))
  }

  /** A text never contains anything longer than itself. */
  lemma {:induction false} SubstringNoLonger(needle: string, haystack: string)
    requires IsSubstring(needle, haystack)
    ensures |needle| <= |haystack|
    decreases |haystack|
  {
    if !StartsWith(haystack, needle) {
      SubstringNoLonger(needle, haystack[1..]);
    }
  }

  /** `needle` found at offset `k` of `haystack` makes `IsSubstring` hold. */
  lemma {:induction false} IsSubstringAt(needle: string, haystack: string, k: nat)
    requires k + |needle| <= |haystack| && haystack[k..k + |needle|] == needle
    ensures IsSubstring(needle, haystack)
    decreases k
  {
    if k > 0 {
      assert haystack[1..][k - 1..k - 1 + |needle|] == needle;
      IsSubstringAt(needle, haystack[1..], k - 1);
    } else {
      assert haystack[..|needle|] == needle;
    }
  }

  /** A member name occurs in the text of a qualified access `base.member`. */
  lemma MemberInQualifiedText(base: string, member: string)
    ensures IsSubstring(member, base + "." + member)
  {
    var t := base + "." + member;
    assert t[|base| + 1..|base| + 1 + |member|] == member;
    IsSubstringAt(member, t, |base| + 1);
  }

  /** Python's `s.startswith(prefix)`. */
  predicate StartsWith(s: string, prefix: string)
  {
    |prefix| <= |s| && s[..|prefix|] == prefix
  }

  /** The characters Python's `str.isspace()` accepts, which `str.strip()` removes. */
  predicate IsPySpace(c: char)
  {
    c == ' ' || ('\t' <= c <= '\r') || ('\U{1C}' <= c <= '\U{1F}')
    || c == '\U{85}' || c == '\U{A0}' || c == '\U{1680}'
    || ('\U{2000}' <= c <= '\U{200A}') || c == '\U{2028}' || c == '\U{2029}'
    || c == '\U{202F}' || c == '\U{205F}' || c == '\U{3000}'
  }

  function LeadingSpaces(s: string): (k: nat)
    ensures k <= |s|
    ensures forall i :: 0 <= i < k ==> IsPySpace(s[i])
    ensures k < |s| ==> !IsPySpace(s[k])
  {
    if |s| > 0 && IsPySpace(s[0]) then 1 + LeadingSpaces(s[1..]) else 0
  }

  function TrailingSpaces(s: string): (k: nat)
    ensures k <= |s|
    ensures forall i :: |s| - k <= i < |s| ==> IsPySpace(s[i])
    ensures k < |s| ==> !IsPySpace(s[|s| - 1 - k])
  {
    if |s| > 0 && IsPySpace(s[|s| - 1]) then 1 + TrailingSpaces(s[..|s| - 1]) else 0
  }

  /**
   * Python's `s.strip()`: `s` without its leading and trailing whitespace.
   * The result is the slice `s[k..k + |r|]`, everything outside it is
   * whitespace, and a non-empty result neither starts nor ends with whitespace.
   */
  function Strip(s: string): (r: string)
    ensures LeadingSpaces(s) + |r| <= |s|
    ensures s[LeadingSpaces(s)..LeadingSpaces(s) + |r|] == r
    ensures forall i :: 0 <= i < LeadingSpaces(s) ==> IsPySpace(s[i])
    ensures forall i :: LeadingSpaces(s) + |r| <= i < |s| ==> IsPySpace(s[i])
    ensures |r| > 0 ==> !IsPySpace(r[0]) && !IsPySpace(r[|r| - 1])
  {
    var k := LeadingSpaces(s);
    var rest := s[k..];
    rest[..|rest| - TrailingSpaces(rest)]
  }
}
