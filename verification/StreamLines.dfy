/**
 * The daemon's output pump: lines read through a fixed buffer and sent on as
 * events, a long line in several pieces, never splitting a UTF-8 character.
 */
module StreamLines {
  import opened Utf8

  const NL: Byte := 10
  const CR: Byte := 13

  /** The buffer the daemon reads through. */
  const STREAM_CHUNK_BYTES: nat := 64 * 1024

  // ---------------------------------------------------------------------------
  // What the command wrote, line by line.

  function EndOfLine(b: Bytes): (k: nat)
    ensures k <= |b| && (k < |b| ==> b[k] == NL)
    ensures forall i :: 0 <= i < k ==> b[i] != NL
  {
    if b == [] || b[0] == NL then 0 else 1 + EndOfLine(b[1..])
  }

  function StripCR(line: Bytes): (r: Bytes) {
    if line != [] && line[|line| - 1] == CR then line[..|line| - 1] else line
  }

  /** The lines, without their ends; a last line needs no end, and then keeps a carriage return. */
  function Lines(text: Bytes): (lines: seq<Bytes>)
    ensures text != [] ==> lines != []
    decreases |text|
  {
    if text == [] then []
    else
      var k := EndOfLine(text);
      if k == |text| then [text] else [StripCR(text[..k])] + Lines(text[k + 1..])
  }

  /** The lines as bytes again, a newline after each. */
  function Rendered(lines: seq<Bytes>): (b: Bytes) {
    if lines == [] then [] else Rendered(lines[..|lines| - 1]) + (lines[|lines| - 1] + [NL])
  }

  /** The same bytes with the carriage return of every CR LF pair left out. */
  function Unix(text: Bytes): (b: Bytes)
    decreases |text|
  {
    if text == [] then []
    else if |text| >= 2 && text[0] == CR && text[1] == NL then Unix(text[1..])
    else [text[0]] + Unix(text[1..])
  }

  /** A last line is given its newline. */
  function Terminated(b: Bytes): (t: Bytes) {
    if b == [] || b[|b| - 1] == NL then b else b + [NL]
  }

  lemma StripCons(x: Byte, line: Bytes)
    ensures StripCR([x] + line) == if line == [] && x == CR then [] else [x] + StripCR(line)
  {
    if line != [] { assert ([x] + line)[..|line|] == [x] + line[..|line| - 1]; }
  }

  lemma UnixCons(x: Byte, more: Bytes)
    ensures Unix([x] + more) == if x == CR && more != [] && more[0] == NL then Unix(more) else [x] + Unix(more)
  {
    assert ([x] + more)[1..] == more;
  }

  lemma {:induction false} UnixPlain(line: Bytes)
    requires NL !in line
    ensures Unix(line) == line
    decreases |line|
  {
    if line != [] {
      assert line == [line[0]] + line[1..];
      UnixCons(line[0], line[1..]);
      UnixPlain(line[1..]);
      hide Unix;
    }
  }

  lemma UnixNewline(more: Bytes)
    ensures Unix([] + ([NL] + more)) == StripCR([]) + ([NL] + Unix(more))
  {
    hide Unix;
    assert [] + ([NL] + more) == [NL] + more;
    UnixCons(NL, more);
    EmptyStrip();
  }

  /** One byte more at the start of a line. */
  lemma UnixGrow(x: Byte, rest: Bytes, more: Bytes)
    requires x != NL && NL !in rest
    requires Unix(rest + ([NL] + more)) == StripCR(rest) + ([NL] + Unix(more))
    ensures Unix([x] + (rest + ([NL] + more))) == StripCR([x] + rest) + ([NL] + Unix(more))
  {
    hide Unix, StripCR;
    var t, u := rest + ([NL] + more), [NL] + Unix(more);
    UnixCons(x, t);
    StripCons(x, rest);
    EmptyStrip();
    assert t[0] == if rest == [] then NL else rest[0];
    assert [x] + (StripCR(rest) + u) == ([x] + StripCR(rest)) + u;
  }

  /** A line and its end, and what comes after. */
  lemma {:induction false} UnixLine(line: Bytes, more: Bytes)
    requires NL !in line
    ensures Unix(line + ([NL] + more)) == StripCR(line) + ([NL] + Unix(more))
    decreases |line|
  {
    hide Unix, StripCR;
    if line == [] {
      UnixNewline(more);
    } else {
      UnixLine(line[1..], more);
      UnixGrow(line[0], line[1..], more);
      assert line == [line[0]] + line[1..];
      assert line + ([NL] + more) == [line[0]] + (line[1..] + ([NL] + more));
    }
  }

  lemma EmptyStrip()
    ensures StripCR([]) == []
  { }

  lemma RenderedSnoc(lines: seq<Bytes>, x: Bytes)
    ensures Rendered(lines + [x]) == Rendered(lines) + (x + [NL])
  {
    assert (lines + [x])[..|lines|] == lines;
  }

  lemma {:induction false} RenderedCons(line: Bytes, lines: seq<Bytes>)
    ensures Rendered([line] + lines) == line + [NL] + Rendered(lines)
    decreases |lines|
  {
    if lines == [] {
      assert [line] + lines == [] + [line];
      RenderedSnoc([], line);
    } else {
      hide Rendered;
      var n := |lines| - 1;
      RenderedCons(line, lines[..n]);
      RenderedSnoc(lines[..n], lines[n]);
      RenderedSnoc([line] + lines[..n], lines[n]);
      assert lines == lines[..n] + [lines[n]] && [line] + lines == ([line] + lines[..n]) + [lines[n]];
    }
  }

  /** Splitting loses nothing but those carriage returns, and adds nothing but a last newline. */
  lemma LinesStep(text: Bytes)
    requires text != []
    ensures var k := EndOfLine(text);
      Lines(text) == if k < |text| then [StripCR(text[..k])] + Lines(text[k + 1..]) else [text]
  {
    hide EndOfLine, StripCR;
  }

  lemma TerminatedAfter(a: Bytes, b: Bytes)
    ensures Terminated(a + [NL] + b) == a + [NL] + Terminated(b)
  {
    if b == [] { assert a + [NL] + b == a + [NL]; } else { assert (a + [NL] + b)[|a| + |b|] == b[|b| - 1]; }
  }

  /** No line, one line without an end, and a line before others. */
  lemma NoLines()
    ensures Rendered(Lines([])) == Terminated(Unix([]))
  { }

  lemma LastLine(text: Bytes)
    requires text != [] && NL !in text
    ensures Rendered([text]) == Terminated(Unix(text))
  {
    UnixPlain(text);
    assert [text][..0] == [];
    hide Unix;
  }

  lemma FirstLine(line: Bytes, more: Bytes)
    requires NL !in line && Rendered(Lines(more)) == Terminated(Unix(more))
    ensures Rendered([StripCR(line)] + Lines(more)) == Terminated(Unix(line + ([NL] + more)))
  {
    hide Unix, StripCR, Lines, Rendered, Terminated;
    UnixLine(line, more);
    RenderedCons(StripCR(line), Lines(more));
    TerminatedAfter(StripCR(line), Unix(more));
    assert StripCR(line) + ([NL] + Unix(more)) == StripCR(line) + [NL] + Unix(more);
  }

  lemma {:induction false} LinesKeepBytes(text: Bytes)
    ensures Rendered(Lines(text)) == Terminated(Unix(text))
    decreases |text|
  {
    hide Unix, StripCR, Lines, Rendered, Terminated, EndOfLine;
    if text == [] {
      NoLines();
    } else {
      LinesStep(text);
      var k := EndOfLine(text);
      if k == |text| {
        LastLine(text);
      } else {
        LinesKeepBytes(text[k + 1..]);
        FirstLine(text[..k], text[k + 1..]);
        assert text == text[..k] + ([NL] + text[k + 1..]);
      }
    }
  }

  // ---------------------------------------------------------------------------
  // bufio.Reader.ReadLine on a non-empty rest of the input.

  datatype Read = Read(chunk: Bytes, isPrefix: bool, rest: Bytes)

  /** `early`: the input's end arrived together with the bytes that filled the buffer. */
  function ReadLine(rest: Bytes, size: nat, early: bool): (r: Read)
    requires rest != [] && size >= 16
    ensures |r.rest| < |rest| && |r.chunk| <= size
  {
    var k := EndOfLine(rest);
    if k < |rest| && k < size then Read(StripCR(rest[..k]), false, rest[k + 1..])
    else if |rest| > size || (|rest| == size && !early) then
      // Full, no line end seen: a carriage return waits for its newline.
      var n := if rest[size - 1] == CR then size - 1 else size;
      Read(rest[..n], true, rest[n..])
    else Read(rest, false, [])
  }

  // ---------------------------------------------------------------------------
  // Lines seen through a part already read.

  /** The start of a line that goes on in rest: no end in it, not even half of one. */
  predicate Plain(q: Bytes, rest: Bytes) {
    NL !in q && (q != [] && q[|q| - 1] == CR && rest != [] ==> rest[0] != NL)
  }

  lemma EndAfter(q: Bytes, rest: Bytes)
    requires NL !in q
    ensures EndOfLine(q + rest) == |q| + EndOfLine(rest)
  {
    var k, j := EndOfLine(q + rest), EndOfLine(rest);
    assert forall i :: 0 <= i < |q| ==> (q + rest)[i] == q[i] != NL;
    assert |q| <= k < |q + rest| ==> (q + rest)[k] == rest[k - |q|];
    assert j < |rest| ==> (q + rest)[|q| + j] == rest[j];
  }

  lemma StripAfter(q: Bytes, line: Bytes)
    requires line != [] || q == [] || q[|q| - 1] != CR
    ensures StripCR(q + line) == q + StripCR(line)
  {
    if line != [] { assert (q + line)[..|q + line| - 1] == q + line[..|line| - 1]; }
    else { assert q + line == q && q + StripCR(line) == q; }
  }

  lemma LinesAfter(q: Bytes, rest: Bytes)
    requires Plain(q, rest) && rest != []
    ensures var k := EndOfLine(rest);
      Lines(q + rest) ==
        if k < |rest| then [q + StripCR(rest[..k])] + Lines(rest[k + 1..]) else [q + rest]
  {
    hide Lines, StripCR, EndOfLine;
    EndAfter(q, rest);
    LinesStep(q + rest);
    var k := EndOfLine(rest);
    if k < |rest| {
      assert (q + rest)[..|q| + k] == q + rest[..k];
      assert (q + rest)[|q| + k + 1..] == rest[k + 1..];
      assert k == 0 ==> rest[0] == NL;
      StripAfter(q, rest[..k]);
    }
  }

  /** A start is a prefix of the line it starts. */
  lemma PlainStarts(q: Bytes, rest: Bytes)
    requires Plain(q, rest) && q + rest != []
    ensures q <= Lines(q + rest)[0]
  {
    if rest == [] {
      assert q + rest == q && EndOfLine(q) == |q|;
    } else {
      LinesAfter(q, rest);
    }
  }

  /** A read that is not a prefix brings the rest of the line, and leaves the lines after it. */
  lemma ReadEndsLine(q: Bytes, rest: Bytes, size: nat, early: bool)
    requires Plain(q, rest) && rest != [] && size >= 16 && !ReadLine(rest, size, early).isPrefix
    ensures var r := ReadLine(rest, size, early); Lines(q + rest) == [q + r.chunk] + Lines(r.rest)
  {
    LinesAfter(q, rest);
  }

  /** A prefix read moves on within the line. */
  lemma ReadStaysInLine(q: Bytes, rest: Bytes, size: nat, early: bool)
    requires Plain(q, rest) && rest != [] && size >= 16 && ReadLine(rest, size, early).isPrefix
    ensures var r := ReadLine(rest, size, early);
      q + r.chunk + r.rest == q + rest && Plain(q + r.chunk, r.rest)
  {
    var r := ReadLine(rest, size, early);
    assert rest == r.chunk + r.rest;
    assert NL !in r.chunk;
  }

  // ---------------------------------------------------------------------------
  // Pieces of a line.

  function Join<T>(parts: seq<seq<T>>): (all: seq<T>) {
    if parts == [] then [] else Join(parts[..|parts| - 1]) + parts[|parts| - 1]
  }

  lemma JoinSnoc<T>(parts: seq<seq<T>>, x: seq<T>)
    ensures Join(parts + [x]) == Join(parts) + x
  {
    assert (parts + [x])[..|parts|] == parts;
  }

  lemma JoinNothing()
    ensures Join<Bytes>([]) == []
  { }

  lemma {:induction false} JoinConcat<T>(a: seq<seq<T>>, b: seq<seq<T>>)
    ensures Join(a + b) == Join(a) + Join(b)
  {
    if b == [] {
      assert a + b == a;
    } else {
      var n := |b| - 1;
      JoinConcat(a, b[..n]);
      assert a + b == (a + b[..n]) + [b[n]];
      JoinSnoc(a + b[..n], b[n]);
    }
  }

  ghost predicate AllValid(pieces: seq<Bytes>) {
    forall i :: 0 <= i < |pieces| ==> Valid(pieces[i])
  }

  /** Pieces that make up a line and its newline; whole characters each, if the line is. */
  ghost predicate Whole(pieces: seq<Bytes>, line: Bytes) {
    Join(pieces) == line + [NL] && (Valid(line) ==> AllValid(pieces))
  }

  /** Pieces that make up the start of a line. */
  ghost predicate Started(pieces: seq<Bytes>, line: Bytes) {
    && Join(pieces) <= line
    && (Valid(line) ==> AllValid(pieces) && Valid(line[|Join(pieces)|..]))
  }

  lemma StartedEmpty(line: Bytes)
    ensures Started([], line)
  {
    assert Join<Byte>([]) == [] && line[0..] == line;
  }

  /** What the cut lets through is one more piece of the line. */
  lemma OnePiece(pieces: seq<Bytes>, line: Bytes, data: Bytes)
    requires Started(pieces, line) && Join(pieces) + data <= line
    ensures Started(pieces + [data[..Cut(data)]], line)
  {
    hide Valid, Cut;
    var done, cut := Join(pieces), Cut(data);
    JoinSnoc(pieces, data[..cut]);
    var w := line[|done|..];
    assert w[..|data|] == data;
    assert line[|done + data[..cut]|..] == w[cut..];
    assert w[..cut] == data[..cut];
    if Valid(line) { CutKeepsValid(w, |data|); }
  }

  lemma NewlineValid()
    ensures Valid([NL])
  {
    assert [NL][..1] == [NL] && [NL][1..] == [];
  }

  lemma LastPiece(pieces: seq<Bytes>, line: Bytes, data: Bytes)
    requires Started(pieces, line) && Join(pieces) + data == line
    ensures Whole(pieces + [data + [NL]], line)
  {
    hide Valid;
    JoinSnoc(pieces, data + [NL]);
    assert line[|Join(pieces)|..] == data;
    assert Join(pieces) + (data + [NL]) == line + [NL];
    NewlineValid();
    if Valid(line) { ValidConcat(data, [NL]); }
  }

  // ---------------------------------------------------------------------------
  // The pump.

  /** Every line of `lines` went out as the pieces of its group. */
  ghost predicate Sent(groups: seq<seq<Bytes>>, lines: seq<Bytes>) {
    |groups| == |lines| && forall k :: 0 <= k < |groups| ==> Whole(groups[k], lines[k])
  }

  lemma {:induction false} SentBytes(groups: seq<seq<Bytes>>, lines: seq<Bytes>)
    requires Sent(groups, lines)
    ensures Join(Join(groups)) == Rendered(lines)
    decreases |groups|
  {
    hide Valid;
    if groups == [] {
    } else {
      var n := |groups| - 1;
      SentBytes(groups[..n], lines[..n]);
      JoinConcat(Join(groups[..n]), groups[n]);
      assert Whole(groups[n], lines[n]);
    }
  }

  /** The pump between two reads: whole lines sent, and the pieces and carry of the open one. */
  ghost predicate Open(text: Bytes, groups: seq<seq<Bytes>>, closed: seq<Bytes>, cur: seq<Bytes>,
                       carry: Bytes, rest: Bytes)
  {
    var q := Join(cur) + carry;
    && Sent(groups, closed)
    && Lines(text) == closed + Lines(q + rest)
    && Plain(q, rest)
    && (cur != [] ==> Join(cur) != [])
    && (q + rest != [] ==> Started(cur, Lines(q + rest)[0]))
  }

  lemma OpenBetween(text: Bytes, groups: seq<seq<Bytes>>, closed: seq<Bytes>, rest: Bytes)
    requires Sent(groups, closed) && Lines(text) == closed + Lines(rest)
    ensures Open(text, groups, closed, [], [], rest)
  {
    assert Join<Byte>([]) + [] + rest == rest;
    if rest != [] { StartedEmpty(Lines(rest)[0]); }
  }

  /** A read that ended its line, by a newline or by the end of the input. */
  lemma CloseLine(text: Bytes, groups: seq<seq<Bytes>>, closed: seq<Bytes>, cur: seq<Bytes>, carry: Bytes,
                  rest: Bytes, size: nat, early: bool)
    requires rest != [] && size >= 16 && Open(text, groups, closed, cur, carry, rest)
    requires !ReadLine(rest, size, early).isPrefix
    ensures var r := ReadLine(rest, size, early); var data := carry + r.chunk;
      Open(text, groups + [cur + [data + [NL]]], closed + [Join(cur) + data], [], [], r.rest)
  {
    hide ReadLine, Lines, Started, Whole, Plain, Valid;
    var r := ReadLine(rest, size, early);
    var q := Join(cur) + carry;
    var data := carry + r.chunk;
    var line := Join(cur) + data;
    ReadEndsLine(q, rest, size, early);
    assert q + r.chunk == line;
    LastPiece(cur, line, data);
    assert closed + ([line] + Lines(r.rest)) == closed + [line] + Lines(r.rest);
    OpenBetween(text, groups + [cur + [data + [NL]]], closed + [line], r.rest);
  }

  /** The input ended inside a line the last read did not end. */
  lemma CloseLast(text: Bytes, groups: seq<seq<Bytes>>, closed: seq<Bytes>, cur: seq<Bytes>, carry: Bytes)
    requires Open(text, groups, closed, cur, carry, [])
    ensures carry == [] && cur == [] ==> Sent(groups, Lines(text))
    ensures carry != [] || cur != [] ==> Sent(groups + [cur + [carry + [NL]]], Lines(text))
  {
    hide Started, Whole, Valid;
    var q := Join(cur) + carry;
    assert q + [] == q;
    if carry != [] || cur != [] {
      assert EndOfLine(q) == |q| && Lines(q) == [q];
      LastPiece(cur, q, carry);
    }
  }

  /** A read that filled the buffer: a piece goes out, an unfinished character stays. */
  lemma KeepLine(text: Bytes, groups: seq<seq<Bytes>>, closed: seq<Bytes>, cur: seq<Bytes>, carry: Bytes,
                 rest: Bytes, size: nat, early: bool)
    requires rest != [] && size >= 16 && Open(text, groups, closed, cur, carry, rest)
    requires ReadLine(rest, size, early).isPrefix
    ensures var r := ReadLine(rest, size, early); var data := carry + r.chunk; var cut := Cut(data);
      Open(text, groups, closed, if cut > 0 then cur + [data[..cut]] else cur, data[cut..], r.rest)
  {
    hide ReadLine, Lines, Started, Whole, Plain, Valid, Cut, Sent;
    var r := ReadLine(rest, size, early);
    var data := carry + r.chunk;
    var cut := Cut(data);
    var q := Join(cur) + carry;
    ReadStaysInLine(q, rest, size, early);
    JoinSnoc(cur, data[..cut]);
    assert Join(cur) + data == q + r.chunk;
    assert Join(cur) + data[..cut] + data[cut..] == Join(cur) + data;
    PlainStarts(q + r.chunk, r.rest);
    OnePiece(cur, Lines(q + rest)[0], data);
    assert cut == 0 ==> data[cut..] == data;
  }

  /**
   * The pump, for any buffer of at least 16 bytes and any input. `groups` are the
   * emitted pieces by line: each line goes out whole, in order, with a newline.
   */
  method StreamLines(text: Bytes, size: nat, early: bool, fails: bool)
    returns (emits: seq<Bytes>, failed: bool, ghost groups: seq<seq<Bytes>>)
    requires size >= 16
    ensures emits == Join(groups) && Sent(groups, Lines(text))
    ensures Join(emits) == Terminated(Unix(text))
    ensures failed == fails
    ensures forall e :: e in emits ==> |e| <= size + 4
  {
    hide ReadLine, Lines, Started, Whole, Plain, Valid, Cut, Sent, Open, Unix, Terminated, Rendered, Join;
    JoinNothing();
    emits, groups := [], [];
    var carry: Bytes, midLine, rest := [], false, text;
    ghost var closed: seq<Bytes>, cur: seq<Bytes> := [], [];
    SentNothing();
    OpenBetween(text, [], [], text);
    while rest != []
      invariant Open(text, groups, closed, cur, carry, rest)
      invariant emits == Join(groups) + cur && midLine == (cur != []) && |carry| <= 3
      invariant forall e :: e in emits ==> |e| <= size + 4
      decreases |rest|
    {
      var r := ReadLine(rest, size, early);
      var data := carry + r.chunk;
      if !r.isPrefix {
        CloseLine(text, groups, closed, cur, carry, rest, size, early);
        JoinSnoc(groups, cur + [data + [NL]]);
        groups, closed, cur := groups + [cur + [data + [NL]]], closed + [Join(cur) + data], [];
        carry, midLine, rest := [], false, r.rest;
        emits := emits + [data + [NL]];
        continue;
      }
      var cut := IncompleteRuneStart(data);
      KeepLine(text, groups, closed, cur, carry, rest, size, early);
      carry, rest := data[cut..], r.rest;
      if cut > 0 {
        cur := cur + [data[..cut]];
        emits := emits + [data[..cut]];
        midLine := true;
      }
    }
    CloseLast(text, groups, closed, cur, carry);
    if |carry| > 0 || midLine {
      JoinSnoc(groups, cur + [carry + [NL]]);
      groups := groups + [cur + [carry + [NL]]];
      emits := emits + [carry + [NL]];
    }
    SentBytes(groups, Lines(text));
    LinesKeepBytes(text);
    failed := fails;
  }

  lemma SentNothing()
    ensures Sent([], []) && forall text :: Lines(text) == [] + Lines(text)
  { }
}
