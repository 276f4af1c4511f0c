/** The Python string primitives the runner relies on: clamped slicing,
    `str.strip()` with Python's whitespace set, and a first-occurrence search. */
module Text {

  /** The 29 code points for which Python 3's `str.isspace()` holds. */
  const Whitespace: set<char> := {
    '\t', '\n', '\U{b}', '\U{c}', '\r', '\U{1c}', '\U{1d}', '\U{1e}', '\U{1f}', ' ',
    '\U{85}', '\U{a0}', '\U{1680}', '\U{2000}', '\U{2001}', '\U{2002}', '\U{2003}',
    '\U{2004}', '\U{2005}', '\U{2006}', '\U{2007}', '\U{2008}', '\U{2009}', '\U{200a}',
    '\U{2028}', '\U{2029}', '\U{202f}', '\U{205f}', '\U{3000}'
  }

  predicate IsSpace(c: char) {
    c in Whitespace
  }

  predicate AllSpace(s: string) {
    forall k :: 0 <= k < |s| ==> IsSpace(s[k])
  }

  /** Neither end of `s` is whitespace (vacuous for the empty string). */
  predicate Trimmed(s: string) {
    |s| == 0 || (!IsSpace(s[0]) && !IsSpace(s[|s| - 1]))
  }

  function Min(a: int, b: int): int {
    if a <= b then a else b
  }

  /** Python's `s[lo:hi]` for non-negative bounds: both ends are clamped to the length. */
  function Slice(s: string, lo: nat, hi: nat): (r: string)
    requires lo <= hi
    ensures |r| == Min(hi, |s|) - Min(lo, |s|)
    ensures forall k :: 0 <= k < |r| ==> r[k] == s[lo + k]
  {
    s[Min(lo, |s|)..Min(hi, |s|)]
  }

  /** Python's `s[n:]`: empty when `s` is shorter than `n`. */
  function Drop(s: string, n: nat): (r: string)
    ensures |r| == if |s| >= n then |s| - n else 0
    ensures forall k :: 0 <= k < |r| ==> r[k] == s[n + k]
  {
    if |s| >= n then s[n..] else ""
  }

  /** How many whitespace characters `s` starts with. */
  function LeadingSpace(s: string): (k: nat)
    ensures k <= |s|
    ensures forall i :: 0 <= i < k ==> IsSpace(s[i])
    ensures k < |s| ==> !IsSpace(s[k])
  {
    if |s| > 0 && IsSpace(s[0]) then 1 + LeadingSpace(s[1..]) else 0
  }

  /** Where the whitespace that `s[lo..hi]` ends with begins. */
  function TrailingSpace(s: string, lo: nat, hi: nat): (k: nat)
    requires lo <= hi <= |s|
    ensures lo <= k <= hi
    ensures forall i :: k <= i < hi ==> IsSpace(s[i])
    ensures lo < k ==> !IsSpace(s[k - 1])
    decreases hi
  {
    if lo < hi && IsSpace(s[hi - 1]) then TrailingSpace(s, lo, hi - 1) else hi
  }

  /** `str.strip()`: the infix of `s` from the end of its leading whitespace to
      the start of its trailing whitespace, so everything removed is whitespace
      (by the contracts of `LeadingSpace` and `TrailingSpace`); neither end of
      what remains is whitespace. */
  function Strip(s: string): (r: string)
    ensures var lo := LeadingSpace(s);
            r == s[lo..TrailingSpace(s, lo, |s|)]
    ensures Trimmed(r)
  {
    var lo := LeadingSpace(s);
    s[lo..TrailingSpace(s, lo, |s|)]
  }

  /** Whatever whitespace surrounds a trimmed string, stripping recovers it exactly. */
  lemma StripSurrounded(a: string, t: string, b: string)
    requires AllSpace(a) && AllSpace(b) && Trimmed(t)
    ensures Strip(a + t + b) == t
  {
    var s := a + t + b;
    var lo := LeadingSpace(s);
    if |t| == 0 {
      assert forall i :: 0 <= i < |s| ==> IsSpace(s[i]);
      assert lo == |s|;
    } else {
      assert s[|a|] == t[0];
      assert lo == |a|;
      assert s[|a| + |t| - 1] == t[|t| - 1];
      assert forall i :: |a| + |t| <= i < |s| ==> s[i] == b[i - |a| - |t|];
      assert TrailingSpace(s, lo, |s|) == |a| + |t|;
      assert s[|a|..|a| + |t|] == t;
    }
  }

  /** Index of the first `c` in `s`, or `|s|` when there is none. */
  function FirstIndexOf(s: string, c: char): (k: nat)
    ensures k <= |s|
    ensures k < |s| ==> s[k] == c
    ensures forall i :: 0 <= i < k ==> s[i] != c
  {
    if |s| == 0 then 0
    else if s[0] == c then 0
    else 1 + FirstIndexOf(s[1..], c)
  }
}
