/**
 The SDK's incremental NDJSON reader: whatever chunks the stream arrives in, it yields
 the lines that splitting the whole stream at newlines would.  Chunks are the decoded
 text of TextDecoder's streaming mode, which concatenates to the text of the stream.
 */
module Ndjson {
  import opened ExecWire

  /** The pieces of a text between newlines. */
  function Split(s: string): (p: seq<string>)
    ensures |p| > 0
    decreases |s|
  {
    var i := IndexOf(s, '\n');
    if i < 0 then [s] else [s[..i]] + Split(s[i + 1..])
  }

  /** The terminated lines, and what follows the last newline. */
  function Terminated(s: string): seq<string> {
    Split(s)[..|Split(s)| - 1]
  }

  function Rest(s: string): string {
    Split(s)[|Split(s)| - 1]
  }

  function Unsplit(p: seq<string>): string
    requires |p| > 0
  {
    if |p| == 1 then p[0] else p[0] + "\n" + Unsplit(p[1..])
  }

  lemma SplitNone(p: string)
    requires '\n' !in p
    ensures Split(p) == [p] && Terminated(p) == [] && Rest(p) == p
  {
  }

  lemma SplitAt(p: string, rest: string)
    requires '\n' !in p
    ensures Split(p + ['\n'] + rest) == [p] + Split(rest)
    ensures Terminated(p + ['\n'] + rest) == [p] + Terminated(rest) && Rest(p + ['\n'] + rest) == Rest(rest)
  {
    var s := p + ['\n'] + rest;
    IndexAfter(p, '\n', rest);
    assert s[..|p|] == p && s[|p| + 1..] == rest;
  }

  /** A text is a piece without newline, or one followed by a newline and the rest. */
  lemma Cut(s: string) returns (p: string, rest: string)
    ensures '\n' !in p
    ensures '\n' in s ==> s == p + ['\n'] + rest && |p| == IndexOf(s, '\n')
    ensures '\n' !in s ==> s == p
  {
    var i := IndexOf(s, '\n');
    if i < 0 { p, rest := s, []; } else { p, rest := s[..i], s[i + 1..]; }
  }

  /** Splitting loses nothing and leaves no newline in a piece. */
  lemma {:induction false} SplitExact(s: string)
    ensures Unsplit(Split(s)) == s
    ensures forall k :: 0 <= k < |Split(s)| ==> '\n' !in Split(s)[k]
    decreases |s|
  {
    var p, rest := Cut(s);
    hide IndexOf, Split;
    if '\n' in s {
      SplitAt(p, rest);
      SplitExact(rest);
      assert Split(s)[1..] == Split(rest);
    } else {
      SplitNone(s);
    }
  }

  lemma {:induction false} SplitConcat(a: string, b: string)
    ensures Split(a + b) == Terminated(a) + Split(Rest(a) + b)
    decreases |a|
  {
    var p, rest := Cut(a);
    hide IndexOf, Split, Terminated, Rest;
    if '\n' in a {
      SplitConcat(rest, b);
      SplitAt(p, rest);
      SplitAt(p, rest + b);
      assert a + b == p + ['\n'] + (rest + b);
    } else {
      SplitNone(a);
    }
  }

  // ---- trimming ---------------------------------------------------------------

  /** The white space String.prototype.trim removes. */
  predicate IsSpace(c: char) {
    || c == ' ' || '\t' <= c <= '\r' || c == '\U{00A0}' || c == '\U{1680}' || '\U{2000}' <= c <= '\U{200A}'
    || c == '\U{2028}' || c == '\U{2029}' || c == '\U{202F}' || c == '\U{205F}' || c == '\U{3000}' || c == '\U{FEFF}'
  }

  function TrimStart(s: string): string {
    if s != [] && IsSpace(s[0]) then TrimStart(s[1..]) else s
  }

  function TrimEnd(s: string): (r: string)
    ensures r <= s
  {
    if s != [] && IsSpace(s[|s| - 1]) then TrimEnd(s[..|s| - 1]) else s
  }

  function Trim(s: string): string {
    TrimEnd(TrimStart(s))
  }

  /** The trimmed lines that are not blank. */
  function Keep(lines: seq<string>): seq<string> {
    if lines == [] then []
    else Keep(lines[..|lines| - 1]) + (if Trim(lines[|lines| - 1]) == [] then [] else [Trim(lines[|lines| - 1])])
  }

  lemma {:induction false} KeepConcat(a: seq<string>, b: seq<string>)
    ensures Keep(a + b) == Keep(a) + Keep(b)
  {
    if b == [] {
      assert a + b == a;
    } else {
      KeepConcat(a, b[..|b| - 1]);
      assert (a + b)[..|a + b| - 1] == a + b[..|b| - 1];
    }
  }

  function Concat(chunks: seq<string>): string {
    if chunks == [] then [] else Concat(chunks[..|chunks| - 1]) + chunks[|chunks| - 1]
  }

  lemma KeepSnoc(done: seq<string>, line: string)
    ensures Keep(done + [line]) == Keep(done) + (if Trim(line) == [] then [] else [Trim(line)])
  {
    assert (done + [line])[..|done|] == done;
  }

  lemma SplitStep(s: string)
    ensures var i := IndexOf(s, '\n');
      Split(s) == if i < 0 then [s] else [s[..i]] + Split(s[i + 1..])
  {
  }

  /** The inner loop: takes the terminated lines out of the pending text. */
  method TakeLines(text: string) returns (lines: seq<string>, pending: string)
    ensures lines == Keep(Terminated(text)) && pending == Rest(text)
  {
    hide IndexOf, Split, Keep, Trim;
    lines, pending := [], text;
    ghost var done: seq<string> := [];
    KeepNone();
    SplitStep(pending);
    var i := IndexOf(pending, '\n');
    while i >= 0
      invariant lines == Keep(done) && done + Split(pending) == Split(text)
      invariant i == IndexOf(pending, '\n')
      invariant Split(pending) == if i < 0 then [pending] else [pending[..i]] + Split(pending[i + 1..])
      decreases |pending|
    {
      ghost var before := pending;
      var line := Trim(pending[..i]);
      if line != [] { lines := lines + [line]; }
      pending := pending[i + 1..];
      KeepSnoc(done, before[..i]);
      done := done + [before[..i]];
      SplitStep(pending);
      i := IndexOf(pending, '\n');
    }
  }

  /** readNdjsonStream's lines. `failed` is a stream that ends in an error, in which case
      what is pending is never looked at. */
  method ReadLines(chunks: seq<string>, failed: bool) returns (lines: seq<string>)
    ensures lines == Keep(if failed then Terminated(Concat(chunks)) else Split(Concat(chunks)))
  {
    hide Split, Keep;
    lines := [];
    var pending := "";
    ghost var all := "";
    SplitNone("");
    assert Keep([]) == [] by { KeepNone(); }
    for k := 0 to |chunks|
      invariant all == Concat(chunks[..k])
      invariant lines == Keep(Terminated(all)) && pending == Rest(all)
    {
      assert chunks[..k + 1][..k] == chunks[..k];
      SplitConcat(all, chunks[k]);
      KeepConcat(Terminated(all), Terminated(pending + chunks[k]));
      assert Terminated(all + chunks[k]) == Terminated(all) + Terminated(pending + chunks[k]);
      all := all + chunks[k];
      var more;
      more, pending := TakeLines(pending + chunks[k]);
      lines := lines + more;
    }
    assert chunks[..|chunks|] == chunks;
    if !failed {
      var last := Trim(pending);
      assert Split(all) == Terminated(all) + [Rest(all)];
      KeepSnoc(Terminated(all), Rest(all));
      if last != [] { lines := lines + [last]; }
    }
  }

  lemma KeepNone()
    ensures Keep([]) == []
  {
  }
}
