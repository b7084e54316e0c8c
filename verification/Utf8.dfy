/**
 * UTF-8 as section 4 of RFC 3629 defines it, and the daemon's search for a
 * character cut off at the end of a chunk.
 */
module Utf8 {

  type Byte = x: int | 0 <= x < 256
  type Bytes = seq<Byte>

  /** Bytes a character that starts with this byte takes; 1 for a byte that starts none. */
  function Size(lead: Byte): (n: nat)
    ensures 1 <= n <= 4
  {
    if 0xC2 <= lead <= 0xDF then 2
    else if 0xE0 <= lead <= 0xEF then 3
    else if 0xF0 <= lead <= 0xF4 then 4
    else 1
  }

  predicate Tail(b: Byte) { 0x80 <= b <= 0xBF }

  /** The second bytes allowed after a lead byte of a character of two bytes or more. */
  predicate Second(lead: Byte, b: Byte) {
    if lead == 0xE0 then 0xA0 <= b <= 0xBF
    else if lead == 0xED then 0x80 <= b <= 0x9F
    else if lead == 0xF0 then 0x90 <= b <= 0xBF
    else if lead == 0xF4 then 0x80 <= b <= 0x8F
    else Tail(b)
  }

  /** One character: the rules UTF8-1 to UTF8-4 of section 4. */
  predicate Char(b: Bytes) {
    && 0 < |b| == Size(b[0])
    && (|b| == 1 ==> b[0] < 0x80)
    && (|b| >= 2 ==> Second(b[0], b[1]))
    && (|b| >= 3 ==> Tail(b[2]))
    && (|b| >= 4 ==> Tail(b[3]))
  }

  /** A sequence of whole characters. */
  predicate Valid(b: Bytes)
    decreases |b|
  {
    b != [] ==> Size(b[0]) <= |b| && Char(b[..Size(b[0])]) && Valid(b[Size(b[0])..])
  }

  lemma EmptyValid()
    ensures Valid([])
  { }

  lemma {:induction false} ValidConcat(a: Bytes, b: Bytes)
    requires Valid(a) && Valid(b)
    ensures Valid(a + b)
    decreases |a|
  {
    hide Char, Size;
    if a == [] {
      assert a + b == b;
    } else {
      var k := Size(a[0]);
      ValidConcat(a[k..], b);
      assert (a + b)[..k] == a[..k] && (a + b)[k..] == a[k..] + b;
    }
  }

  // ---------------------------------------------------------------------------
  // The two tests of Go's unicode/utf8 package.

  predicate RuneStart(b: Byte) { !Tail(b) }

  /** Whether the bytes begin with a whole character, or with bytes no character begins with. */
  predicate FullRune(b: Bytes) {
    && b != []
    && (|b| >= Size(b[0])
        || (|b| > 1 && !Second(b[0], b[1]))
        || (|b| > 2 && !Tail(b[2])))
  }

  /** A character is full, and no shorter start of it is. */
  lemma FullRuneExact(c: Bytes, n: nat)
    requires Char(c) && 0 < n <= |c|
    ensures |c| <= 4 && (FullRune(c[..n]) <==> n == |c|)
    ensures RuneStart(c[0]) && forall j :: 1 <= j < n ==> !RuneStart(c[j])
  { }

  // ---------------------------------------------------------------------------
  // The cut.

  /** The search from index i down, at most four bytes from the end. */
  function CutFrom(b: Bytes, i: int): (cut: nat)
    requires -1 <= i < |b|
    ensures cut <= |b| && |b| - cut <= 3
    decreases i + 1
  {
    if i < 0 || i < |b| - 4 then |b|
    else if !RuneStart(b[i]) then CutFrom(b, i - 1)
    else if FullRune(b[i..]) then |b|
    else i
  }

  function Cut(b: Bytes): (cut: nat)
    ensures cut <= |b| && |b| - cut <= 3
  {
    CutFrom(b, |b| - 1)
  }

  method IncompleteRuneStart(b: Bytes) returns (cut: nat)
    ensures cut == Cut(b)
  {
    var i := |b| - 1;
    while i >= 0 && i >= |b| - 4
      invariant -1 <= i < |b| && CutFrom(b, i) == Cut(b)
    {
      if RuneStart(b[i]) {
        if FullRune(b[i..]) { return |b|; }
        return i;
      }
      i := i - 1;
    }
    return |b|;
  }

  lemma {:induction false} CutFromStart(b: Bytes, s: nat, i: int)
    requires s <= i < |b| && |b| - 4 <= s && RuneStart(b[s])
    requires forall j :: s < j <= i ==> !RuneStart(b[j])
    ensures CutFrom(b, i) == if FullRune(b[s..]) then |b| else s
    decreases i
  {
    if s < i { CutFromStart(b, s, i - 1); }
  }

  /** Where the character that holds byte p - 1 of a valid text starts. */
  function CharStart(w: Bytes, p: nat): (s: nat)
    requires Valid(w) && 0 < p <= |w|
    ensures s < p
    decreases |w|
  {
    var k := Size(w[0]);
    if p <= k then 0 else k + CharStart(w[k..], p - k)
  }

  lemma FirstCharValid(w: Bytes)
    requires Valid(w) && w != []
    ensures Size(w[0]) <= |w| && Char(w[..Size(w[0])])
    ensures Valid(w[..Size(w[0])]) && Valid(w[Size(w[0])..])
  {
    hide Char, Size;
    var c := w[..Size(w[0])];
    assert c[0] == w[0] && c[..Size(c[0])] == c && c[Size(c[0])..] == [];
  }

  lemma SliceOfSuffix(w: Bytes, k: nat, s: nat, e: nat)
    requires s <= e && k + e <= |w|
    ensures w[k..][s..e] == w[k + s..k + e] && w[k..][s..] == w[k + s..] && w[k..][e..] == w[k + e..]
    ensures w[..k] + w[k..][..s] == w[..k + s] && w[..k] + w[k..][..e] == w[..k + e]
  { }

  /** The start found and the end of its character split a valid text into valid texts. */
  lemma {:induction false} SplitAtChar(w: Bytes, p: nat) returns (e: nat)
    requires Valid(w) && 0 < p <= |w|
    ensures CharStart(w, p) < p <= e <= |w| && Char(w[CharStart(w, p)..e])
    ensures Valid(w[..CharStart(w, p)]) && Valid(w[CharStart(w, p)..])
    decreases |w|
  {
    hide Char, Size, Valid;
    var k := Size(w[0]);
    FirstCharValid(w);
    if p <= k {
      e := k;
      EmptyValid();
      assert w[..0] == [] && w[0..] == w && w[0..k] == w[..k];
    } else {
      e := SplitAtChar(w[k..], p - k);
      var s := CharStart(w[k..], p - k);
      ValidConcat(w[..k], w[k..][..s]);
      SliceOfSuffix(w, k, s, e);
      e := k + e;
    }
  }

  /** A character and a valid text behind it, or before it. */
  lemma CharEnds(w: Bytes, s: nat, e: nat)
    requires s < e <= |w| && Char(w[s..e]) && Valid(w[..s]) && Valid(w[s..])
    ensures Valid(w[..e]) && Valid(w[e..])
  {
    var t := w[s..];
    assert t[0] == w[s..e][0] && t[..e - s] == w[s..e] && t[e - s..] == w[e..];
    FirstCharValid(t);
    ValidConcat(w[..s], t[..e - s]);
    assert w[..s] + t[..e - s] == w[..e];
  }

  /**
   * Cut a valid text anywhere, then hold back what the search says: what is let
   * through is valid, and so is all that remains.
   */
  lemma CutKeepsValid(w: Bytes, p: nat)
    requires Valid(w) && p <= |w|
    ensures Valid(w[..Cut(w[..p])]) && Valid(w[Cut(w[..p])..])
  {
    hide Char, Size, FullRune, RuneStart, Valid;
    var b := w[..p];
    if p == 0 {
      EmptyValid();
      assert w[..0] == [] && w[0..] == w;
    } else {
      var e := SplitAtChar(w, p);
      var s := CharStart(w, p);
      CharEnds(w, s, e);
      var c := w[s..e];
      FullRuneExact(c, p - s);
      assert c[..p - s] == b[s..];
      forall j | s < j < p ensures !RuneStart(b[j]) { assert b[j] == c[j - s]; }
      assert b[s] == c[0];
      CutFromStart(b, s, p - 1);
    }
  }
}
