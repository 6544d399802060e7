/** Whitespace trimming as performed by Python's `str.strip()` with no
    arguments: leading and trailing whitespace removed, nothing else. */
module Text {

  /** The characters Python's `str.isspace` accepts, and therefore the ones
      `str.strip()` removes. */
  predicate IsSpace(c: char) {
    || ('\t' <= c <= '\r')
    || ('\U{1C}' <= c <= ' ')
    || c == '\U{85}' || c == '\U{A0}' || c == '\U{1680}'
    || ('\U{2000}' <= c <= '\U{200A}')
    || c == '\U{2028}' || c == '\U{2029}' || c == '\U{202F}'
    || c == '\U{205F}' || c == '\U{3000}'
  }

  predicate AllSpace(s: string) {
    forall k | 0 <= k < |s| :: IsSpace(s[k])
  }

  /** A string with no whitespace at either end. */
  predicate IsStripped(s: string) {
    s == [] || (!IsSpace(s[0]) && !IsSpace(s[|s| - 1]))
  }

  /** `s` is `r` with whitespace-only padding: `r` starts at index `i`. */
  predicate PaddedAt(s: string, i: int, r: string) {
    && 0 <= i && i + |r| <= |s|
    && s[i..i + |r|] == r
    && AllSpace(s[..i])
    && AllSpace(s[i + |r|..])
  }

  /** The length of the run of whitespace at the start of `s`. */
  function LeadingSpace(s: string): (n: nat)
    ensures n <= |s|
    ensures forall k | 0 <= k < n :: IsSpace(s[k])
    ensures n < |s| ==> !IsSpace(s[n])
  {
    if |s| == 0 || !IsSpace(s[0]) then 0 else 1 + LeadingSpace(s[1..])
  }

  /** The length of the run of whitespace at the end of `s`. */
  function TrailingSpace(s: string): (n: nat)
    ensures n <= |s|
    ensures forall k | |s| - n <= k < |s| :: IsSpace(s[k])
    ensures n < |s| ==> !IsSpace(s[|s| - 1 - n])
  {
    if |s| == 0 || !IsSpace(s[|s| - 1]) then 0 else 1 + TrailingSpace(s[..|s| - 1])
  }

  /** Python's `s.strip()`. */
  function Strip(s: string): (r: string)
    ensures IsStripped(r)
    ensures PaddedAt(s, LeadingSpace(s), r)
    ensures |r| <= |s|
  {
    var i := LeadingSpace(s);
    var e := if i == |s| then i else |s| - TrailingSpace(s);
    assert i <= e by {
      if i < |s| {
        assert !IsSpace(s[i]);
      }
    }
    forall k | 0 <= k < i ensures s[..i][k] == s[k] && IsSpace(s[k]) { }
    forall k | 0 <= k < |s| - e ensures s[e..][k] == s[e + k] && IsSpace(s[e + k]) { }
    s[i..e]
  }

  /** Strip's result is the only stripped string that `s` pads with whitespace:
      `Strip` agrees with this independent description of trimming. */
  lemma {:induction false} StripUnique(s: string, i: int, r: string)
    requires IsStripped(r) && PaddedAt(s, i, r)
    ensures Strip(s) == r
  {
  }

  /** Stripping twice is stripping once. */
  lemma StripIdempotent(s: string)
    ensures Strip(Strip(s)) == Strip(s)
  {
  }

  /** A text strips to the empty string exactly when it is all whitespace. */
  lemma StripEmptyIff(s: string)
    ensures Strip(s) == [] <==> AllSpace(s)
  {
  }

  /** Stripping removes exactly whitespace padding around a stripped core. */
  lemma StripPadding(a: string, t: string, b: string)
    requires AllSpace(a) && AllSpace(b) && IsStripped(t)
    ensures Strip(a + t + b) == t
  {
    var s := a + t + b;
    assert s[..|a|] == a;
    assert s[|a|..|a| + |t|] == t;
    assert s[|a| + |t|..] == b;
    StripUnique(s, |a|, t);
  }

  /** A stripped text is left unchanged. */
  lemma StripStripped(t: string)
    requires IsStripped(t)
    ensures Strip(t) == t
  {
  }
}
