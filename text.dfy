/** The string operations the chat code relies on: JavaScript's String.prototype.trim,
    which both the send guard and the title editor apply to user text, and the in-order
    concatenation of streamed text fragments. */
module Text {

  /** The code points JavaScript's trim strips: the WhiteSpace and LineTerminator
      productions of ECMAScript (tab, vertical tab, form feed, the byte order mark, every
      space separator of category Zs, and the four line terminators). */
  predicate IsWhitespace(c: char) {
    || c == '\t' || c == '\n' || c == '\U{000B}' || c == '\U{000C}' || c == '\r'
    || c == ' ' || c == '\U{00A0}' || c == '\U{1680}' || ('\U{2000}' <= c <= '\U{200A}')
    || c == '\U{2028}' || c == '\U{2029}' || c == '\U{202F}' || c == '\U{205F}'
    || c == '\U{3000}' || c == '\U{FEFF}'
  }

  /** Whether `s[lo..hi]` is whitespace only. */
  predicate WhitespaceBetween(s: string, lo: int, hi: int) {
    forall i :: lo <= i < hi && 0 <= i < |s| ==> IsWhitespace(s[i])
  }

  predicate AllWhitespace(s: string) {
    WhitespaceBetween(s, 0, |s|)
  }

  /** The first index at or after `i` that does not hold whitespace, or `|s|`. */
  function SkipLeading(s: string, i: nat): (k: nat)
    requires i <= |s|
    ensures i <= k <= |s|
    ensures WhitespaceBetween(s, i, k)
    ensures k < |s| ==> !IsWhitespace(s[k])
    decreases |s| - i
  {
    if i < |s| && IsWhitespace(s[i]) then SkipLeading(s, i + 1) else i
  }

  /** Walking back from `j`, no further than `lo`: the end of the last character that is
      not whitespace, or `lo`. */
  function SkipTrailing(s: string, lo: nat, j: nat): (e: nat)
    requires lo <= j <= |s|
    ensures lo <= e <= j
    ensures WhitespaceBetween(s, e, j)
    ensures e > lo ==> !IsWhitespace(s[e - 1])
    decreases j
  {
    if j > lo && IsWhitespace(s[j - 1]) then SkipTrailing(s, lo, j - 1) else j
  }

  /** Where the trimmed text starts and ends inside `s`. */
  function TrimStart(s: string): nat {
    SkipLeading(s, 0)
  }

  function TrimEnd(s: string): nat {
    SkipTrailing(s, TrimStart(s), |s|)
  }

  /** String.prototype.trim: the slice of `s` between its leading and its trailing
      whitespace. It is empty exactly when `s` is whitespace only, and otherwise begins
      and ends with a character that is not whitespace. */
  function Trim(s: string): (r: string)
    ensures AllWhitespace(s) <==> r == []
    ensures r != [] ==> !IsWhitespace(r[0]) && !IsWhitespace(r[|r| - 1])
    ensures TrimStart(s) <= TrimEnd(s) <= |s| && r == s[TrimStart(s)..TrimEnd(s)]
    ensures WhitespaceBetween(s, 0, TrimStart(s)) && WhitespaceBetween(s, TrimEnd(s), |s|)
  {
    var k, e := TrimStart(s), TrimEnd(s);
    assert k < |s| ==> k < e;
    s[k..e]
  }

  /** Trim is determined by its contract: any slice of `s` with only whitespace around it
      and no whitespace at its two ends is the trimmed text. */
  lemma {:induction false} TrimUnique(s: string, k: nat, j: nat)
    requires k <= j <= |s|
    requires WhitespaceBetween(s, 0, k) && WhitespaceBetween(s, j, |s|)
    requires k < j ==> !IsWhitespace(s[k]) && !IsWhitespace(s[j - 1])
    ensures Trim(s) == s[k..j]
  {
    var k', e := TrimStart(s), TrimEnd(s);
    if k < j {
      assert k' == k;
      assert e == j;
    }
  }

  /** Trimming twice is trimming once. */
  lemma {:induction false} TrimIdempotent(s: string)
    ensures Trim(Trim(s)) == Trim(s)
  {
    var r := Trim(s);
    assert r[0..|r|] == r;
    TrimUnique(r, 0, |r|);
  }

  /** The in-order concatenation of text fragments. */
  function Concat(fs: seq<string>): string {
    if fs == [] then "" else Concat(fs[..|fs| - 1]) + fs[|fs| - 1]
  }

  /** Appending a fragment to the list appends its text to the concatenation; this is what
      lets a reader keep a running accumulator instead of re-concatenating. */
  lemma ConcatPrefixStep(fs: seq<string>, k: nat)
    requires k < |fs|
    ensures Concat(fs[..k + 1]) == Concat(fs[..k]) + fs[k]
  {
    assert fs[..k + 1][..k] == fs[..k];
  }

  /** Concatenation distributes over splitting the fragment list anywhere. */
  lemma {:induction false} ConcatAppend(a: seq<string>, b: seq<string>)
    ensures Concat(a + b) == Concat(a) + Concat(b)
  {
    if b == [] {
      assert a + b == a;
    } else {
      var b' := b[..|b| - 1];
      assert (a + b)[..|a + b| - 1] == a + b';
      ConcatAppend(a, b');
    }
  }

  function TotalLength(fs: seq<string>): nat {
    if fs == [] then 0 else TotalLength(fs[..|fs| - 1]) + |fs[|fs| - 1]|
  }

  /** The total length counted from the front: the first fragment, then the rest. */
  lemma {:induction false} TotalLengthFront(fs: seq<string>)
    requires |fs| >= 1
    ensures TotalLength(fs) == |fs[0]| + TotalLength(fs[1..])
  {
    if |fs| > 1 {
      var init := fs[..|fs| - 1];
      TotalLengthFront(init);
      assert init[1..] == fs[1..][..|fs[1..]| - 1];
      assert init[0] == fs[0];
    } else {
      assert fs[..0] == [];
      assert fs[1..] == [];
    }
  }

  /** Nothing is lost or duplicated: the concatenation is exactly as long as the fragments together. */
  lemma {:induction false} ConcatLength(fs: seq<string>)
    ensures |Concat(fs)| == TotalLength(fs)
  {
    if fs != [] { ConcatLength(fs[..|fs| - 1]); }
  }
}
