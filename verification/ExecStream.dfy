/**
 The exec stream from the daemon to the SDK's caller.  The daemon's log `h` is streamed
 from a cursor; the runner proxy forwards lines and resumes; the SDK posts, resumes and
 accumulates.  Any connection may be refused or cut at any byte, and the SDK's reader
 may see it in any chunks.
 */
module ExecStream {
  import opened ExecWire
  import opened Ndjson

  /** A log carries at most one terminal event, and it is the last one. */
  predicate WellFormed(h: seq<Response>) {
    && |h| <= MAX64
    && forall i :: 0 <= i < |h| - 1 ==> !IsTerminal(h[i].kind)
  }

  predicate Ended(h: seq<Response>) {
    h != [] && IsTerminal(h[|h| - 1].kind)
  }

  function Line(h: seq<Response>, n: nat): string
    requires n < |h|
  {
    Marshal(n, h[n]) + "\n"
  }

  /** The bytes of events lo..hi-1 on the wire. */
  function Wire(h: seq<Response>, lo: nat, hi: nat): string
    requires lo <= hi <= |h|
  {
    if lo == hi then [] else Wire(h, lo, hi - 1) + Line(h, hi - 1)
  }

  function Min(a: nat, b: nat): nat {
    if a < b then a else b
  }

  /** A stream from event lo on that was cut after some bytes. */
  function Received(h: seq<Response>, lo: nat, cut: nat): string
    requires lo <= |h|
  {
    Wire(h, lo, |h|)[..Min(cut, |Wire(h, lo, |h|)|)]
  }

  lemma {:induction false} WireSplit(h: seq<Response>, lo: nat, mid: nat, hi: nat)
    requires lo <= mid <= hi <= |h|
    ensures Wire(h, lo, hi) == Wire(h, lo, mid) + Wire(h, mid, hi)
    decreases hi - mid
  {
    hide Line;
    if mid < hi { WireSplit(h, lo, mid, hi - 1); }
  }

  lemma WireHead(h: seq<Response>, lo: nat)
    requires lo < |h|
    ensures Wire(h, lo, |h|) == Line(h, lo) + Wire(h, lo + 1, |h|)
  {
    hide Line;
    WireSplit(h, lo, lo + 1, |h|);
    assert Wire(h, lo, lo) == [];
  }

  /** A cut stream is either shorter than its first line, or that line and a cut stream
      of what follows. */
  lemma ReceivedHead(h: seq<Response>, lo: nat, cut: nat)
    requires lo < |h|
    ensures cut < |Line(h, lo)| ==> Received(h, lo, cut) == Line(h, lo)[..cut]
    ensures cut >= |Line(h, lo)| ==> Received(h, lo, cut) == Line(h, lo) + Received(h, lo + 1, cut - |Line(h, lo)|)
  {
    WireHead(h, lo);
    hide Line, Wire;
    var a, b := Line(h, lo), Wire(h, lo + 1, |h|);
    if cut < |a| {
      assert (a + b)[..cut] == a[..cut];
    } else {
      var m := Min(cut, |a + b|);
      assert (a + b)[..m] == a + b[..m - |a|];
    }
  }

  lemma LineShape(h: seq<Response>, n: nat)
    requires n < |h|
    ensures |Line(h, n)| > 1 && Line(h, n)[..|Line(h, n)| - 1] == Marshal(n, h[n]) && '\n' !in Marshal(n, h[n])
    ensures forall m :: 0 <= m < |Line(h, n)| ==> '\n' !in Line(h, n)[..m]
  {
    LineOneLine(n, h[n]);
    hide Marshal;
    var l := Line(h, n);
    forall m | 0 <= m < |l| ensures '\n' !in l[..m] {
      assert l[..m] == Marshal(n, h[n])[..m];
    }
  }

  /** How far a reader gets that is given `cut` bytes of the stream from event lo on: all
      the lines that are whole, and a last one that lacks only its newline, if the stream did
      not fail. */
  function Yielded(h: seq<Response>, lo: nat, cut: nat, failed: bool): (m: nat)
    requires lo <= |h|
    ensures lo <= m <= |h|
    decreases |h| - lo
  {
    if lo < |h| && cut >= |Line(h, lo)| then Yielded(h, lo + 1, cut - |Line(h, lo)|, failed)
    else if lo < |h| && !failed && cut == |Marshal(lo, h[lo])| then lo + 1
    else lo
  }

  /** The stream ends inside a line, and without an error. */
  predicate Torn(h: seq<Response>, lo: nat, cut: nat, failed: bool)
    requires lo <= |h|
    decreases |h| - lo
  {
    if lo < |h| && cut >= |Line(h, lo)| then Torn(h, lo + 1, cut - |Line(h, lo)|, failed)
    else lo < |h| && !failed && 0 < cut < |Marshal(lo, h[lo])|
  }

  /** An uncut stream yields all there is. */
  lemma {:induction false} Uncut(h: seq<Response>, lo: nat, cut: nat, failed: bool)
    requires lo <= |h| && cut >= |Wire(h, lo, |h|)|
    ensures Yielded(h, lo, cut, failed) == |h| && !Torn(h, lo, cut, failed)
    decreases |h| - lo
  {
    if lo < |h| {
      WireHead(h, lo);
      hide Line, Wire;
      Uncut(h, lo + 1, cut - |Line(h, lo)|, failed);
    }
  }

  // ---- the runner proxy -------------------------------------------------------

  datatype End = Completed | ReadFailed | BadPrefix | WriteFailed

  /** `src` is the log's stream from event lo on, cut after `cut` bytes. */
  predicate FromLog(src: string, h: seq<Response>, lo: nat, cut: nat) {
    WellFormed(h) && lo <= |h| && src == Received(h, lo, cut)
  }

  /** What forwarding a log's stream from event lo amounts to: the lines of lo..m-1, in
      full, and never a byte that is not the log's.  They are all the lines that came in
      whole, or as many as the client took; it completes exactly when the terminal event is
      among them. */
  predicate Forwarded(h: seq<Response>, lo: nat, m: nat, out: string, next: nat, end: End) {
    && lo <= m <= |h| && !end.BadPrefix?
    && Wire(h, lo, m) <= out <= Wire(h, lo, |h|)
    && (!end.WriteFailed? ==> out == Wire(h, lo, m) && next == m)
    && (end.Completed? ==> m == |h| && Ended(h))
    && (end.ReadFailed? && lo < m ==> !IsTerminal(h[m - 1].kind))
  }

  predicate ForwardedAll(h: seq<Response>, lo: nat, cut: nat, writes: nat, m: nat, end: End)
    requires lo <= |h|
  {
    var whole := Yielded(h, lo, cut, true) - lo;
    && m == lo + Min(writes, whole)
    && (end.WriteFailed? <==> writes < whole)
    && (end.Completed? <==> 0 < whole <= writes && m == |h| && Ended(h))
  }

  lemma FirstLine(h: seq<Response>, m: nat, cut: nat)
    requires m < |h| && cut >= |Line(h, m)|
    ensures var src := Received(h, m, cut); var n := |Line(h, m)|;
      && IndexOf(src, '\n') == n - 1 && 0 < n <= |src|
      && src[..n] == Line(h, m) && src[n..] == Received(h, m + 1, cut - n)
  {
    ReceivedHead(h, m, cut);
    LineShape(h, m);
    hide Wire, Received, IndexOf;
    var a, b := Marshal(m, h[m]), Received(h, m + 1, cut - |Line(h, m)|);
    hide Marshal;
    IndexAfter(a, '\n', b);
    assert a + ['\n'] + b == Line(h, m) + b;
    assert (Line(h, m) + b)[..|Line(h, m)|] == Line(h, m);
  }

  lemma ForwardOne(h: seq<Response>, lo: nat, m: nat)
    requires WellFormed(h) && lo <= m < |h|
    ensures ExecEventPrefix(Line(h, m)) == Prefix(m, Name(h[m].kind))
    ensures Wire(h, lo, m) + Line(h, m) == Wire(h, lo, m + 1) <= Wire(h, lo, |h|)
  {
    PrefixRecovered(m, h[m], "\n");
    hide Marshal, ExecEventPrefix;
    WireStep(h, lo, m);
    WireSplit(h, lo, m + 1, |h|);
  }

  lemma WireStep(h: seq<Response>, lo: nat, m: nat)
    requires lo <= m < |h|
    ensures Wire(h, lo, m) + Line(h, m) == Wire(h, lo, m + 1)
  {
  }

  lemma ForwardNone(h: seq<Response>, m: nat, cut: nat)
    requires m <= |h| && (m < |h| ==> cut < |Line(h, m)|)
    ensures '\n' !in Received(h, m, cut)
  {
    if m < |h| {
      ReceivedHead(h, m, cut);
      LineShape(h, m);
    }
  }

  lemma Terminals(name: string)
    ensures forall k: Kind :: name == Name(k) ==> (IsTerminal(k) <==> name == Name(Exit) || name == Name(Error))
  { }

  /** One more line was forwarded, or none is there. */
  lemma YieldedOne(h: seq<Response>, m: nat, more: nat)
    requires m <= |h|
    ensures m < |h| && more >= |Line(h, m)| ==>
      Yielded(h, m, more, true) == Yielded(h, m + 1, more - |Line(h, m)|, true)
    ensures !(m < |h| && more >= |Line(h, m)|) ==> Yielded(h, m, more, true) == m
  {
    hide Line;
  }

  /** streamNDJSON. `next` is one more than lastSeq, or 0 while it is nil. The client's
      connection takes `writes` lines and then fails, after `spill` bytes of a line. */
  method StreamNDJSON(src: string, next0: nat, writes: nat, spill: nat, ghost h: seq<Response>, ghost cut: nat)
    returns (out: string, next: nat, end: End, ghost m: nat)
    ensures out <= src
    ensures FromLog(src, h, next0, cut) ==>
      Forwarded(h, next0, m, out, next, end) && ForwardedAll(h, next0, cut, writes, m, end)
  {
    hide Marshal, Wire, Received, ExecEventPrefix, Yielded, Name;
    out, next, m := "", next0, next0;
    var rest, left: nat := src, writes;
    ghost var more: nat := cut;
    hide IndexOf, Line;
    if FromLog(src, h, next0, cut) { WireSplit(h, next0, next0, |h|); WireNone(h, next0); }
    while true
      invariant out + rest == src
      invariant FromLog(src, h, next0, cut) ==>
        && next0 <= m <= |h| && rest == Received(h, m, more) && next == m
        && out == Wire(h, next0, m) <= Wire(h, next0, |h|)
        && (next0 < m ==> !IsTerminal(h[m - 1].kind))
        && Yielded(h, m, more, true) == Yielded(h, next0, cut, true) && left + (m - next0) == writes
      decreases |rest|
    {
      var i := IndexOf(rest, '\n');
      if FromLog(src, h, next0, cut) {
        YieldedOne(h, m, more);
        if m < |h| && more >= |Line(h, m)| {
          FirstLine(h, m, more);
          ForwardOne(h, next0, m);
        } else {
          ForwardNone(h, m, more);
        }
      }
      if i < 0 { end := ReadFailed; return; }
      var line := rest[..i + 1];
      var p := ExecEventPrefix(line);
      if !p.Prefix? { end := BadPrefix; return; }
      next := p.n + 1;
      if left == 0 {
        out := out + line[..Min(spill, |line|)];
        end := WriteFailed;
        return;
      }
      left := left - 1;
      out := out + line;
      rest := rest[i + 1..];
      m, more := m + 1, if more >= |line| then more - |line| else 0;
      if m <= |h| { YieldedOne(h, m, more); }
      Terminals(p.name);
      if p.name == Name(Exit) || p.name == Name(Error) { end := Completed; return; }
    }
  }

  lemma WireNone(h: seq<Response>, lo: nat)
    requires lo <= |h|
    ensures Wire(h, lo, lo) == []
  {
  }

  /** A connection to the daemon: refused, or opened and cut after some bytes; and how
      much of it the client's own connection takes. */
  datatype Conn = Refused | Open(cut: nat, writes: nat, spill: nat)

  const EXEC_MAX_RETRIES := 3

  /** ExecProxyHandler after the request was checked: the POST, then up to three resumes
      with the last seq forwarded. `gone(k)` is the client leaving during the k-th backoff. */
  method ProxyExec(h: seq<Response>, post: Conn, resume: nat -> Conn, gone: nat -> bool)
    returns (accepted: bool, out: string, completed: bool)
    requires WellFormed(h)
    ensures accepted <==> post.Open?
    ensures out <= Wire(h, 0, |h|)
    ensures completed ==> out == Wire(h, 0, |h|) && Ended(h)
    ensures Ended(h) && Reaches(h, post, resume, gone) ==> completed
  {
    hide Wire, Received, Forwarded, ForwardedAll, Yielded;
    out, completed, accepted := "", false, post.Open?;
    if post.Refused? { return; }
    var next: nat, end;
    ghost var m: nat;
    out, next, end, m := StreamNDJSON(Received(h, 0, post.cut), 0, post.writes, post.spill, h, post.cut);
    ForwardedFacts(h, 0, m, out, next, end);
    ForwardedWhole(h, 0, post, m, next, out, end);
    if end.Completed? { completed := true; return; }
    if !end.ReadFailed? { return; }
    for attempt := 0 to EXEC_MAX_RETRIES
      invariant next <= |h| && out == Wire(h, 0, next) <= Wire(h, 0, |h|)
      invariant accepted == post.Open? && !completed
      invariant Ended(h) && Reaches(h, post, resume, gone) ==>
        next < |h| && exists a :: attempt <= a < EXEC_MAX_RETRIES && ReachedBy(h, resume, gone, a)
    {
      if gone(attempt) { return; }
      var c := resume(attempt);
      if c.Open? {
        var more, next': nat;
        more, next', end, m := StreamNDJSON(Received(h, next, c.cut), next, c.writes, c.spill, h, c.cut);
        ForwardedFacts(h, next, m, more, next', end);
        ForwardedWhole(h, next, c, m, next', more, end);
        WireSplit(h, 0, next, m);
        WireSplit(h, 0, next, |h|);
        WireSplit(h, 0, m, |h|);
        out := out + more;
        if end.Completed? { completed := true; return; }
        if !end.ReadFailed? { return; }
        next := next';
      }
    }
  }

  lemma ForwardedFacts(h: seq<Response>, lo: nat, m: nat, out: string, next: nat, end: End)
    requires Forwarded(h, lo, m, out, next, end)
    ensures lo <= m <= |h| && out <= Wire(h, lo, |h|) && !end.BadPrefix?
    ensures !end.WriteFailed? ==> out == Wire(h, lo, m) && next == m
    ensures end.Completed? ==> m == |h| && Ended(h)
  {
  }

  /** A connection the client takes everything from. */
  predicate Willing(h: seq<Response>, c: Conn) {
    c.Open? ==> c.writes >= |h|
  }

  /** And that carries the log to its end. */
  predicate Carries(h: seq<Response>, c: Conn) {
    c.Open? && c.writes >= |h| && c.cut >= |Wire(h, 0, |h|)|
  }

  /** The a-th resume is made and carries the log to its end. */
  predicate ReachedBy(h: seq<Response>, resume: nat -> Conn, gone: nat -> bool, a: nat) {
    Carries(h, resume(a)) && forall b :: 0 <= b <= a ==> !gone(b) && Willing(h, resume(b))
  }

  /** The client takes everything and does not leave, and the POST or one of the resumes
      carries the log to its end. */
  predicate Reaches(h: seq<Response>, post: Conn, resume: nat -> Conn, gone: nat -> bool) {
    && post.Open? && Willing(h, post)
    && (Carries(h, post) || exists a :: 0 <= a < EXEC_MAX_RETRIES && ReachedBy(h, resume, gone, a))
  }

  lemma ForwardedWhole(h: seq<Response>, lo: nat, c: Conn, m: nat, next: nat, out: string, end: End)
    requires c.Open? && Forwarded(h, lo, m, out, next, end) && ForwardedAll(h, lo, c.cut, c.writes, m, end)
    ensures Willing(h, c) ==> !end.WriteFailed?
    ensures Ended(h) && lo < |h| && end.ReadFailed? ==> next < |h|
    ensures Ended(h) && lo < |h| && Carries(h, c) ==> end.Completed?
  {
    if lo < |h| && Carries(h, c) {
      WireSplit(h, 0, lo, |h|);
      Uncut(h, lo, c.cut, true);
    }
    hide Yielded, Wire;
  }

  // ---- the SDK's consumer -------------------------------------------------------

  /** Lines m of the log from lo on, and possibly one more that is a line cut short. */
  predicate LinesFor(h: seq<Response>, lo: nat, m: nat, lines: seq<string>) {
    && lo <= m <= |h| && m - lo <= |lines| <= m - lo + 1
    && (forall i :: 0 <= i < m - lo ==> lines[i] == Marshal(lo + i, h[lo + i]))
    && (|lines| == m - lo + 1 ==> m < |h| && CutLine(h, m, lines[m - lo]))
  }

  predicate CutLine(h: seq<Response>, m: nat, line: string)
    requires m < |h|
  {
    0 < |line| < |Marshal(m, h[m])| && line == Marshal(m, h[m])[..|line|]
  }

  lemma TrimKeepsLine(s: string)
    requires s != [] && !IsSpace(s[0]) && !IsSpace(s[|s| - 1])
    ensures Trim(s) == s
  {
  }

  lemma {:induction false} TrimEndNonEmpty(s: string)
    requires s != [] && !IsSpace(s[0])
    ensures TrimEnd(s) != []
  {
    if |s| > 1 && IsSpace(s[|s| - 1]) { TrimEndNonEmpty(s[..|s| - 1]); }
  }

  /** What is pending when a stream ends inside line m: nothing, the line, or a cut line. */
  lemma PendingLine(h: seq<Response>, m: nat, cut: nat)
    requires m < |h| && cut < |Line(h, m)|
    ensures var t := Trim(Line(h, m)[..cut]);
      if cut == 0 then t == [] else if cut == |Marshal(m, h[m])| then t == Marshal(m, h[m]) else CutLine(h, m, t)
  {
    LineOneLine(m, h[m]);
    hide Marshal;
    var a := Marshal(m, h[m]);
    var s := Line(h, m)[..cut];
    assert s == a[..cut];
    if cut > 0 {
      assert TrimStart(s) == s;
      TrimEndNonEmpty(s);
    }
  }

  lemma KeepHead(a: string, rest: seq<string>)
    requires Trim(a) == a && a != []
    ensures Keep([a] + rest) == [a] + Keep(rest)
  {
    KeepConcat([a], rest);
    assert Keep([a]) == [a] by { KeepSnoc([], a); assert [] + [a] == [a]; KeepNone(); }
  }

  /** The lines the reader yields from a cut stream are the log's, in order. */
  lemma {:induction false} ReceivedLines(h: seq<Response>, lo: nat, cut: nat, failed: bool) returns (m: nat)
    requires lo <= |h|
    ensures m == Yielded(h, lo, cut, failed)
    ensures var lines := Keep(if failed then Terminated(Received(h, lo, cut)) else Split(Received(h, lo, cut)));
      LinesFor(h, lo, m, lines) && (|lines| > m - lo <==> Torn(h, lo, cut, failed))
    decreases |h| - lo
  {
    hide Split, Keep, Marshal, Wire;
    var s := Received(h, lo, cut);
    if lo < |h| && cut >= |Line(h, lo)| {
      var a := Marshal(lo, h[lo]);
      var rest := Received(h, lo + 1, cut - |Line(h, lo)|);
      ReceivedHead(h, lo, cut);
      LineOneLine(lo, h[lo]);
      hide Received;
      assert s == a + ['\n'] + rest;
      m := ReceivedLines(h, lo + 1, cut - |Line(h, lo)|, failed);
      SplitAt(a, rest);
      TrimKeepsLine(a);
      KeepHead(a, if failed then Terminated(rest) else Split(rest));
    } else {
      m := LastLine(h, lo, cut, failed);
    }
  }

  lemma YieldedShort(h: seq<Response>, lo: nat, cut: nat, failed: bool)
    requires lo <= |h| && (lo < |h| ==> cut < |Line(h, lo)|)
    ensures Yielded(h, lo, cut, failed) == if lo < |h| && !failed && cut == |Marshal(lo, h[lo])| then lo + 1 else lo
    ensures Torn(h, lo, cut, failed) <==> lo < |h| && !failed && 0 < cut < |Marshal(lo, h[lo])|
  {
    hide Marshal;
  }

  lemma LastLine(h: seq<Response>, lo: nat, cut: nat, failed: bool) returns (m: nat)
    requires lo <= |h| && (lo < |h| ==> cut < |Line(h, lo)|)
    ensures m == Yielded(h, lo, cut, failed)
    ensures var lines := Keep(if failed then Terminated(Received(h, lo, cut)) else Split(Received(h, lo, cut)));
      LinesFor(h, lo, m, lines) && (|lines| > m - lo <==> Torn(h, lo, cut, failed))
  {
    hide Split, Marshal, Yielded, Torn;
    var s := Received(h, lo, cut);
    m := lo;
    YieldedShort(h, lo, cut, failed);
    ForwardNone(h, lo, cut);
    SplitNone(s);
    KeepNone();
    KeepSnoc([], s);
    assert [] + [s] == [s];
    if lo < |h| {
      ReceivedHead(h, lo, cut);
      PendingLine(h, lo, cut);
      LineOneLine(lo, h[lo]);
      hide Received, Wire, Trim, Keep;
      if !failed && cut == |Marshal(lo, h[lo])| { m := lo + 1; }
    } else {
      WireNone(h, lo);
      assert s == [] && Trim(s) == [];
    }
  }

  datatype Option<+T> = None | Some(value: T)

  /** The text of one stream, in order. */
  function Gathered(text: Response -> string, h: seq<Response>, kind: Kind): string {
    if h == [] then []
    else Gathered(text, h[..|h| - 1], kind) + (if h[|h| - 1].kind == kind then text(h[|h| - 1]) else [])
  }

  /** The output events, in the order the callbacks are called with them. */
  function Outputs(h: seq<Response>): seq<Response> {
    if h == [] then []
    else Outputs(h[..|h| - 1]) + (if h[|h| - 1].kind.Stdout? || h[|h| - 1].kind.Stderr? then [h[|h| - 1]] else [])
  }

  lemma LineParsed(h: seq<Response>, lo: nat, m: nat, lines: seq<string>, k: nat)
    requires WellFormed(h) && LinesFor(h, lo, m, lines) && k < |lines|
    ensures k < m - lo ==> ParseExecEvent(lines[k]) == Event(lo + k, h[lo + k])
    ensures k >= m - lo ==> ParseExecEvent(lines[k]) == Malformed
  {
    hide ParseExecEvent, Marshal;
    if k < m - lo { ParseMarshal(lo + k, h[lo + k]); } else { ParseCut(m, h[m], |lines[k]|); }
  }

  /** Accumulates events from one or more streams. `text` decodes an event's data field,
      `calls` are the callbacks made. */
  class ExecStreamConsumer {
    const text: Response -> string
    var stdout: string
    var stderr: string
    var lastSeq: int
    var exitMeta: Option<Response>
    var execError: Option<Response>
    var badPayload: bool
    var calls: seq<Response>

    predicate IsDone()
      reads this
    {
      exitMeta.Some? || execError.Some? || badPayload
    }

    /** The consumer has taken in exactly the first m events of the log. */
    predicate Took(h: seq<Response>, m: nat)
      reads this
    {
      && m <= |h| && lastSeq == m - 1
      && stdout == Gathered(text, h[..m], Stdout) && stderr == Gathered(text, h[..m], Stderr)
      && calls == Outputs(h[..m])
      && exitMeta == (if m > 0 && h[m - 1].kind.Exit? then Some(h[m - 1]) else None)
      && execError == (if m > 0 && h[m - 1].kind.Error? then Some(h[m - 1]) else None)
      && !badPayload
    }

    constructor (text: Response -> string)
      ensures this.text == text && forall h :: Took(h, 0)
    {
      this.text := text;
      stdout, stderr, lastSeq, exitMeta, execError, badPayload, calls := "", "", -1, None, None, false, [];
    }

    /** The body of consume's loop, for one event. */
    method Take(n: nat, r: Response, ghost h: seq<Response>)
      modifies this
      ensures WellFormed(h) && n < |h| && h[n] == r && old(Took(h, n)) ==> Took(h, n + 1)
    {
      ghost var m := n + 1;
      if n < |h| { assert h[..m][..n] == h[..n] && h[..m][n] == h[n]; }
      lastSeq := n;
      if exitMeta.Some? { return; }
      match r.kind {
        case Started =>
        case Stdout =>
          stdout := stdout + text(r);
          calls := calls + [r];
        case Stderr =>
          stderr := stderr + text(r);
          calls := calls + [r];
        case Exit => exitMeta := Some(r);
        case Error => execError := Some(r);
      }
    }

    /** consume: `threw` is the exception of a line that is not JSON. */
    method Consume(chunks: seq<string>, failed: bool, ghost h: seq<Response>, ghost lo: nat, ghost cut: nat)
      returns (threw: bool, ghost m: nat)
      modifies this
      ensures WellFormed(h) && lo <= |h| && Concat(chunks) == Received(h, lo, cut) && old(Took(h, lo)) ==>
        m == Yielded(h, lo, cut, failed) && threw == Torn(h, lo, cut, failed) && Took(h, m)
    {
      hide ParseExecEvent, Marshal, Received, Took, Keep, Terminated, Split;
      threw, m := false, lo;
      ghost var top: nat := lo;
      ghost var good := WellFormed(h) && lo <= |h| && Concat(chunks) == Received(h, lo, cut) && Took(h, lo);
      var lines := ReadLines(chunks, failed);
      if good { top := ReceivedLines(h, lo, cut, failed); }
      hide LinesFor;
      for k := 0 to |lines|
        invariant good ==> m == lo + k <= top && Took(h, m)
        invariant !threw
      {
        if good { LineParsed(h, lo, top, lines, k); }
        var p := ParseExecEvent(lines[k]);
        match p {
          case Malformed => threw := true; return;
          case Unknown =>
            if exitMeta.None? { badPayload := true; return; }
          case Event(n, r) =>
            var quiet := exitMeta.Some?;
            Take(n, r, h);
            m := m + 1;
            if r.kind.Error? && !quiet { return; }
        }
      }
    }
  }

  // ---- the SDK's exec ---------------------------------------------------------------

  datatype Fault = Transient | Limited | Fatal

  /** How the network treats the stream the SDK got: cut after some bytes, delivered in
      chunks of these sizes, ended cleanly or by an error. */
  datatype Delivery = Delivery(cut: nat, sizes: seq<nat>, fault: Option<Fault>)

  /** `log` is that of the execution that answers: a POST finds the one its id has, or,
      when that was deleted or has expired, starts the command anew. */
  datatype Post =
    | PostFailed(fault: Fault)
    | PostAnswered(log: seq<Response>, post: Conn, resume: nat -> Conn, gone: nat -> bool, refusal: Fault, d: Delivery)

  /** A GET never starts one. Once an event was received it is answered by the execution
      that logged it, or fails: a deleted or expired one is not found. */
  datatype Get = GetFailed(fault: Fault) | GetAnswered(log: seq<Response>, d: Delivery)

  predicate AnsweredWell(posts: nat -> Post, gets: nat -> Get, i: nat) {
    && (posts(i).PostAnswered? ==> WellFormed(posts(i).log))
    && (gets(i).GetAnswered? ==> WellFormed(gets(i).log))
  }

  /** h is the log of an execution that answered, or of none. */
  ghost predicate Answers(posts: nat -> Post, gets: nat -> Get, h: seq<Response>) {
    || h == []
    || (exists i :: posts(i).PostAnswered? && posts(i).log == h)
    || (exists i :: gets(i).GetAnswered? && gets(i).log == h)
  }

  /** A consumer that took in nothing has taken in nothing of any log. */
  lemma TookNothing(c: ExecStreamConsumer, h: seq<Response>, g: seq<Response>)
    requires c.Took(h, 0)
    ensures c.Took(g, 0)
  {
    assert h[..0] == g[..0];
  }

  datatype Result = Finished(stdout: string, stderr: string, exit: Response) | Thrown

  const MAX_RESUME_RETRIES := 10

  function Chop(s: string, sizes: seq<nat>): seq<string>
    decreases |sizes|
  {
    if sizes == [] then [s]
    else
      var n := Min(sizes[|sizes| - 1], |s|);
      Chop(s[..|s| - n], sizes[..|sizes| - 1]) + [s[|s| - n..]]
  }

  lemma {:induction false} ChopConcat(s: string, sizes: seq<nat>)
    ensures Concat(Chop(s, sizes)) == s
    decreases |sizes|
  {
    if sizes == [] {
      assert [s][..0] == [];
    } else {
      var n := Min(sizes[|sizes| - 1], |s|);
      var front := Chop(s[..|s| - n], sizes[..|sizes| - 1]);
      ChopConcat(s[..|s| - n], sizes[..|sizes| - 1]);
      assert Chop(s, sizes)[..|front|] == front;
    }
  }

  /** What one request came to: the events from..to-1 of the log, and the error it ended in. */
  datatype Asked = Asked(log: seq<Response>, from: nat, to: nat, fault: Option<Fault>)

  /** The part of a stream of `sent` bytes that the network delivers, as the reader yields
      it. A line that is not JSON counts as a transient error. */
  predicate Delivered(x: Asked, sent: nat, d: Delivery) {
    && x.from <= |x.log|
    && var n := Min(d.cut, sent);
      && x.to == Yielded(x.log, x.from, n, d.fault.Some?)
      && x.fault == if Torn(x.log, x.from, n, d.fault.Some?) then Some(Transient) else d.fault
  }

  /** One delivered stream, consumed. */
  method Deliver(c: ExecStreamConsumer, stream: string, d: Delivery, ghost h: seq<Response>, ghost lo: nat)
    returns (fault: Option<Fault>, ghost m: nat)
    modifies c
    ensures WellFormed(h) && lo <= |h| && stream <= Wire(h, lo, |h|) && old(c.Took(h, lo)) ==>
      c.Took(h, m) && Delivered(Asked(h, lo, m, fault), |stream|, d)
  {
    hide Received, Chop, Yielded, Torn;
    var bytes := stream[..Min(d.cut, |stream|)];
    var chunks := Chop(bytes, d.sizes);
    ChopConcat(bytes, d.sizes);
    if lo <= |h| && stream <= Wire(h, lo, |h|) { ReceivedOf(h, lo, stream, |bytes|); }
    var threw;
    threw, m := c.Consume(chunks, d.fault.Some?, h, lo, |bytes|);
    fault := if threw then Some(Transient) else d.fault;
  }

  lemma ReceivedOf(h: seq<Response>, lo: nat, stream: string, n: nat)
    requires lo <= |h| && stream <= Wire(h, lo, |h|) && n <= |stream|
    ensures stream[..n] == Received(h, lo, n)
  {
    hide Wire;
    assert stream[..n] == Wire(h, lo, |h|)[..n];
  }

  datatype Verdict = Again | Throw

  /** onError, with the 429 check of its callers before it. */
  function OnError(fault: Fault, aborted: bool, done: bool, retries: nat): (Verdict, nat) {
    if fault.Limited? && !aborted then (Throw, retries)
    else if aborted then (Throw, retries)
    else if done then (Again, retries)
    else if !fault.Transient? then (Throw, retries)
    else if retries + 1 > MAX_RESUME_RETRIES then (Throw, retries + 1)
    else (Again, retries + 1)
  }

  // ---- the requests of an exec ----------------------------------------------------------

  /** The log is over with its first m events. */
  predicate Over(log: seq<Response>, m: nat) {
    0 < m <= |log| && IsTerminal(log[m - 1].kind)
  }

  predicate Exited(log: seq<Response>, m: nat) {
    0 < m <= |log| && log[m - 1].kind.Exit?
  }

  /** The answer x of a POST, when no event had been received before. */
  ghost predicate PostGives(a: Post, before: Asked, x: Asked) {
    match a
    case PostFailed(f) => x.fault == Some(f) && x.to == x.from && x.log == before.log
    case PostAnswered(log, post, resume, gone, refusal, d) =>
      && x.log == log && x.from == 0
      && if post.Refused? then x.fault == Some(refusal) && x.to == 0 else Proxied(x, post, resume, gone, d)
  }

  /** It delivers what the runner forwarded, which is the whole log if it got that far. */
  ghost predicate Proxied(x: Asked, post: Conn, resume: nat -> Conn, gone: nat -> bool, d: Delivery) {
    exists sent: nat ::
      && sent <= |Wire(x.log, 0, |x.log|)| && Delivered(x, sent, d)
      && (Ended(x.log) && Reaches(x.log, post, resume, gone) ==> sent == |Wire(x.log, 0, |x.log|)|)
  }

  lemma ProxiedBy(x: Asked, sent: nat, post: Conn, resume: nat -> Conn, gone: nat -> bool, d: Delivery)
    requires sent <= |Wire(x.log, 0, |x.log|)| && Delivered(x, sent, d)
    requires Ended(x.log) && Reaches(x.log, post, resume, gone) ==> sent == |Wire(x.log, 0, |x.log|)|
    ensures Proxied(x, post, resume, gone, d)
  {
    hide Wire, Delivered, Reaches, Ended;
  }

  /** The answer x of a GET: the stream of the log from the first event not received. */
  predicate GetGives(a: Get, before: Asked, x: Asked) {
    match a
    case GetFailed(f) => x.fault == Some(f) && x.to == x.from && x.log == before.log
    case GetAnswered(log, d) =>
      && x.log == (if x.from == 0 then log else before.log) && x.from <= |x.log|
      && Delivered(x, |Wire(x.log, x.from, |x.log|)|, d)
  }

  const NOTHING := Asked([], 0, 0, None)

  function Prior(trace: seq<Asked>, i: nat): Asked
    requires i <= |trace|
  {
    if i == 0 then NOTHING else trace[i - 1]
  }

  /** Request i, one of the POSTs if i < p, goes on where the one before stopped. */
  ghost predicate Gives(posts: nat -> Post, gets: nat -> Get, p: nat, i: nat, before: Asked, x: Asked) {
    && x.from == before.to
    && if i < p then PostGives(posts(i), before, x) else GetGives(gets(i), before, x)
  }

  /** An answer that is no reason to give up. */
  predicate Soft(x: Asked, aborted: bool) {
    x.fault.None? || (x.fault.value.Transient? && !aborted)
  }

  /** One that is: an abort, a 429, or an error that will not pass, unless all is there. */
  predicate Hard(x: Asked, aborted: bool) {
    x.fault.Some? && (aborted || x.fault.value.Limited? || (x.fault.value.Fatal? && !Over(x.log, x.to)))
  }

  /** The requests made: each but the last left the execution unfinished and was soft. */
  ghost predicate Requests(posts: nat -> Post, gets: nat -> Get, aborted: nat -> bool, p: nat, trace: seq<Asked>) {
    && (forall i :: 0 <= i < |trace| ==> Gives(posts, gets, p, i, Prior(trace, i), trace[i]))
    && (forall i :: 0 <= i < |trace| - 1 ==>
          Soft(trace[i], aborted(i + 1)) && !Over(trace[i].log, trace[i].to))
  }

  lemma OneMore(posts: nat -> Post, gets: nat -> Get, aborted: nat -> bool, p: nat, trace: seq<Asked>, x: Asked)
    requires Requests(posts, gets, aborted, p, trace) && Gives(posts, gets, p, |trace|, Prior(trace, |trace|), x)
    requires trace != [] ==>
      var y := trace[|trace| - 1]; Settled(aborted, trace, false) && !Over(y.log, y.to)
    ensures Requests(posts, gets, aborted, p, trace + [x])
  {
    hide Gives, Soft, Over, Hard;
    var all := trace + [x];
    forall i | 0 <= i < |all| ensures Gives(posts, gets, p, i, Prior(all, i), all[i]) {
      assert Prior(all, i) == Prior(trace, i);
    }
  }

  lemma PostsOnly(posts: nat -> Post, gets: nat -> Get, aborted: nat -> bool, p: nat, q: nat, trace: seq<Asked>)
    requires Requests(posts, gets, aborted, p, trace) && |trace| <= p && |trace| <= q
    ensures Requests(posts, gets, aborted, q, trace)
  {
    hide PostGives, Soft, Over;
    forall i | 0 <= i < |trace| ensures Gives(posts, gets, q, i, Prior(trace, i), trace[i]) {
      assert Gives(posts, gets, p, i, Prior(trace, i), trace[i]);
    }
  }

  /** Where a phase of exec stands: what was taken in is what the last request left. */
  predicate Stands(trace: seq<Asked>, h: seq<Response>, m: nat) {
    h == Prior(trace, |trace|).log && m == Prior(trace, |trace|).to
  }

  /** How onError judges an answer that is an error, after `retries` of them. */
  lemma Judged(x: Asked, aborted: bool, retries: nat)
    requires x.fault.Some?
    ensures var v := OnError(x.fault.value, aborted, Over(x.log, x.to), retries);
      && retries <= v.1 <= retries + 1
      && (Hard(x, aborted) ==> v.0.Throw?) && (v.0.Again? && Over(x.log, x.to) ==> v.1 == retries)
      && (v.0.Throw? ==> Hard(x, aborted) || (!Over(x.log, x.to) && v.1 > MAX_RESUME_RETRIES))
      && (v.0.Again? && !Over(x.log, x.to) ==> Soft(x, aborted) && v.1 == retries + 1 <= MAX_RESUME_RETRIES)
  { }

  /** What the last request means for what comes next. */
  predicate Settled(aborted: nat -> bool, trace: seq<Asked>, threw: bool)
    requires trace != []
  {
    var last, n := trace[|trace| - 1], |trace|;
    && (threw ==> Hard(last, aborted(n)) || (n > MAX_RESUME_RETRIES && !Over(last.log, last.to)))
    && (!threw ==> !Hard(last, aborted(n)))
    && (!threw && !Over(last.log, last.to) ==> Soft(last, aborted(n)))
  }

  lemma Settles(aborted: nat -> bool, trace: seq<Asked>, retries: nat)
    requires trace != [] && retries < |trace|
    ensures var last, n := trace[|trace| - 1], |trace|;
      if last.fault.None? then Settled(aborted, trace, false)
      else
        var v := OnError(last.fault.value, aborted(n), Over(last.log, last.to), retries);
        Settled(aborted, trace, v.0.Throw?)
  {
    var last, n := trace[|trace| - 1], |trace|;
    if last.fault.None? { NoFault(last, aborted(n)); } else { Judged(last, aborted(n), retries); }
    hide OnError, Hard, Soft, Over;
  }

  lemma NoFault(x: Asked, aborted: bool)
    requires x.fault.None?
    ensures Soft(x, aborted) && !Hard(x, aborted)
  { }

  lemma DoneIsOver(c: ExecStreamConsumer, h: seq<Response>, m: nat)
    requires c.Took(h, m)
    ensures c.IsDone() <==> Over(h, m)
    ensures c.lastSeq == m - 1 && m <= |h|
  { }

  /** Phase 2 of exec: follow the execution by GET from the last event received. */
  method Resume(c: ExecStreamConsumer, ghost posts: nat -> Post, gets: nat -> Get, aborted: nat -> bool,
                attempt: nat, used: nat, failed: bool, log: seq<Response>, ghost from: nat, ghost made: seq<Asked>)
    returns (threw: bool, ghost h: seq<Response>, ghost m: nat, ghost trace: seq<Asked>)
    requires forall i :: AnsweredWell(posts, gets, i)
    requires WellFormed(log) && Answers(posts, gets, log) && c.Took(log, from)
    requires used <= MAX_RESUME_RETRIES + 1 || failed
    requires Requests(posts, gets, aborted, attempt, made) && |made| == attempt && Stands(made, log, from)
    requires used <= attempt <= MAX_RESUME_RETRIES + 1 && attempt <= used + 1
    requires made != [] && Settled(aborted, made, failed)
    modifies c
    ensures WellFormed(h) && Answers(posts, gets, h) && c.Took(h, m)
    ensures failed ==> threw
    ensures Requests(posts, gets, aborted, attempt, trace) && made <= trace && Stands(trace, h, m)
    ensures |trace| <= MAX_RESUME_RETRIES + 2
    ensures trace != [] && Settled(aborted, trace, threw)
    ensures threw || Over(h, m) || |trace| > MAX_RESUME_RETRIES
  {
    hide Wire, Gathered, Outputs, Answers, Requests, Delivered, Over, Hard, Soft, OnError, WellFormed, Settled;
    hide ExecStreamConsumer.Took, ExecStreamConsumer.IsDone, PostGives;
    var i, retries: nat := attempt, used;
    var answering := log;
    threw, h, m, trace := failed, log, from, made;
    DoneIsOver(c, h, m);
    while !c.IsDone() && !threw
      invariant h == answering && WellFormed(h) && Answers(posts, gets, h)
      invariant c.Took(h, m) && (failed ==> threw) && c.IsDone() == Over(h, m)
      invariant retries <= MAX_RESUME_RETRIES + 1 || threw
      invariant Requests(posts, gets, aborted, attempt, trace) && made <= trace && |trace| == i && Stands(trace, h, m)
      invariant retries <= i && (!threw && !Over(h, m) ==> i <= MAX_RESUME_RETRIES + 1 && i <= retries + 1)
      invariant i <= MAX_RESUME_RETRIES + 2
      invariant trace != [] && Settled(aborted, trace, threw)
      decreases MAX_RESUME_RETRIES + 2 - retries, !c.IsDone() && !threw
    {
      DoneIsOver(c, h, m);
      var a := gets(i);
      var fault: Option<Fault>;
      ghost var before := Prior(trace, i);
      if a.GetFailed? {
        fault := Some(a.fault);
      } else {
        if c.lastSeq < 0 {
          assert AnsweredWell(posts, gets, i);
          TookNothing(c, h, a.log);
          GetAnswers(posts, gets, i);
          answering, h := a.log, a.log;
        }
        // resumes after lastSeq, or from the start when nothing was received
        fault, m := Deliver(c, Wire(answering, c.lastSeq + 1, |answering|), a.d, h, m);
      }
      ghost var x := Asked(h, before.to, m, fault);
      OneMore(posts, gets, aborted, attempt, trace, x);
      trace := trace + [x];
      i := i + 1;
      DoneIsOver(c, h, m);
      Settles(aborted, trace, retries);
      if fault.Some? { Judged(x, aborted(i), retries); }
      if fault.None? {
        if c.IsDone() { break; }
        retries := retries + 1;
        if retries > MAX_RESUME_RETRIES { break; }
      } else {
        var v := OnError(fault.value, aborted(i), c.IsDone(), retries);
        retries := v.1;
        threw := v.0.Throw?;
      }
    }
  }

  lemma GetAnswers(posts: nat -> Post, gets: nat -> Get, i: nat)
    requires gets(i).GetAnswered?
    ensures Answers(posts, gets, gets(i).log)
  {
  }

  lemma PostAnswers(posts: nat -> Post, gets: nat -> Get, i: nat)
    requires posts(i).PostAnswered?
    ensures Answers(posts, gets, posts(i).log)
  {
  }

  /** One POST, answered through the runner's proxy. */
  method AskPost(c: ExecStreamConsumer, a: Post, known: seq<Response>, ghost before: Asked)
    returns (fault: Option<Fault>, log: seq<Response>, ghost m: nat)
    requires WellFormed(known) && (a.PostAnswered? ==> WellFormed(a.log))
    requires c.Took(known, 0) && before.log == known
    modifies c
    ensures log == if a.PostAnswered? then a.log else known
    ensures c.Took(log, m) && PostGives(a, before, Asked(log, 0, m, fault))
  {
    hide Wire, Gathered, Outputs, Delivered, ExecStreamConsumer.Took, Reaches, Ended, Proxied;
    log, m := known, 0;
    if a.PostFailed? { return Some(a.fault), log, m; }
    TookNothing(c, log, a.log);
    log := a.log;
    var accepted, out, completed := ProxyExec(log, a.post, a.resume, a.gone);
    if !accepted { return Some(a.refusal), log, m; }
    fault, m := Deliver(c, out, a.d, log, m);
    ProxiedBy(Asked(log, 0, m, fault), |out|, a.post, a.resume, a.gone, a.d);
  }

  /** Phase 1 of exec: POST until an event was received, the execution is over, or it gives up. */
  method Start(c: ExecStreamConsumer, posts: nat -> Post, ghost gets: nat -> Get, aborted: nat -> bool)
    returns (threw: bool, log: seq<Response>, ghost m: nat, next: nat, used: nat, ghost trace: seq<Asked>)
    requires forall i :: AnsweredWell(posts, gets, i)
    requires c.Took([], 0)
    modifies c
    ensures WellFormed(log) && Answers(posts, gets, log) && c.Took(log, m)
    ensures used <= MAX_RESUME_RETRIES + 1 || threw
    ensures Requests(posts, gets, aborted, next, trace) && |trace| == next > 0 && Stands(trace, log, m)
    ensures used <= next <= MAX_RESUME_RETRIES + 1 && next <= used + 1
    ensures Settled(aborted, trace, threw)
  {
    hide Wire, Gathered, Outputs, Answers, Requests, Delivered, Over, Hard, Soft, OnError, WellFormed, Settled;
    hide ExecStreamConsumer.Took, ExecStreamConsumer.IsDone, GetGives, PostGives;
    threw, log, m, next, used, trace := false, [], 0, 0, 0, [];
    NoneIsWell();
    DoneIsOver(c, log, m);
    NoAnswer(posts, gets);
    NoRequest(posts, gets, aborted);
    while !c.IsDone() && !threw
      invariant WellFormed(log) && Answers(posts, gets, log)
      invariant c.Took(log, m) && (!c.IsDone() && !threw ==> m == 0) && c.IsDone() == Over(log, m)
      invariant used <= MAX_RESUME_RETRIES || threw
      invariant Requests(posts, gets, aborted, next, trace) && |trace| == next && Stands(trace, log, m)
      invariant used <= next <= MAX_RESUME_RETRIES + 1 && next <= used + 1
      invariant !threw && !Over(log, m) ==> next == used
      invariant if trace == [] then !threw else Settled(aborted, trace, threw)
      decreases MAX_RESUME_RETRIES - used, !c.IsDone() && !threw
    {
      DoneIsOver(c, log, m);
      assert AnsweredWell(posts, gets, next);
      if posts(next).PostAnswered? { PostAnswers(posts, gets, next); }
      var fault;
      fault, log, m := AskPost(c, posts(next), log, Prior(trace, next));
      ghost var x := Asked(log, 0, m, fault);
      PostsOnly(posts, gets, aborted, next, next + 1, trace);
      OneMore(posts, gets, aborted, next + 1, trace, x);
      trace := trace + [x];
      next := next + 1;
      DoneIsOver(c, log, m);
      Settles(aborted, trace, used);
      if fault.Some? { Judged(x, aborted(next), used); }
      if fault.None? {
        if c.IsDone() || c.lastSeq >= 0 { break; }
        used := used + 1;
        if used > MAX_RESUME_RETRIES { break; }
      } else {
        var v := OnError(fault.value, aborted(next), c.IsDone(), used);
        used := v.1;
        threw := v.0.Throw?;
        if !threw && c.lastSeq >= 0 { break; }
      }
    }
  }

  lemma NoAnswer(posts: nat -> Post, gets: nat -> Get)
    ensures Answers(posts, gets, [])
  {
  }

  lemma NoneIsWell()
    ensures WellFormed([]) && !Over([], 0)
  { }

  lemma NoRequest(posts: nat -> Post, gets: nat -> Get, aborted: nat -> bool)
    ensures Requests(posts, gets, aborted, 0, [])
  {
  }

  // ---- when an exec succeeds ----------------------------------------------------------------

  predicate Mild(fault: Option<Fault>) {
    fault.None? || fault.value.Transient?
  }

  predicate ExitEnded(log: seq<Response>) {
    WellFormed(log) && log != [] && log[|log| - 1].kind.Exit?
  }

  /** Nothing but transient errors, of an execution that exits, whichever request it is. */
  predicate Gentle(posts: nat -> Post, gets: nat -> Get, i: nat) {
    && (match posts(i)
        case PostFailed(f) => f.Transient?
        case PostAnswered(log, _, _, _, refusal, d) => ExitEnded(log) && refusal.Transient? && Mild(d.fault))
    && (match gets(i)
        case GetFailed(f) => f.Transient?
        case GetAnswered(log, d) => ExitEnded(log) && Mild(d.fault))
  }

  /** The stream is delivered to the end, and without an error, for any log of requests 0..q. */
  predicate Uncutting(posts: nat -> Post, gets: nat -> Get, q: nat, d: Delivery) {
    && d.fault.None?
    && forall i :: 0 <= i <= q ==>
         && (posts(i).PostAnswered? ==> d.cut >= |Wire(posts(i).log, 0, |posts(i).log|)|)
         && (gets(i).GetAnswered? ==> d.cut >= |Wire(gets(i).log, 0, |gets(i).log|)|)
  }

  /** Nothing is aborted, the requests before the q-th fail at worst with transient errors,
      and the q-th, POST or GET, brings everything that is left. */
  predicate Served(posts: nat -> Post, gets: nat -> Get, aborted: nat -> bool, q: nat) {
    && (forall i :: 0 <= i <= q + 1 ==> !aborted(i))
    && (forall i :: 0 <= i <= q ==> Gentle(posts, gets, i))
    && (var a := posts(q);
        a.PostAnswered? && Reaches(a.log, a.post, a.resume, a.gone) && Uncutting(posts, gets, q, a.d))
    && gets(q).GetAnswered? && Uncutting(posts, gets, q, gets(q).d)
  }

  /** What is known of a log that a request up to the q-th left. */
  predicate Known(posts: nat -> Post, gets: nat -> Get, q: nat, log: seq<Response>) {
    || log == []
    || (ExitEnded(log) && exists i :: 0 <= i <= q && ((posts(i).PostAnswered? && posts(i).log == log) ||
                                                     (gets(i).GetAnswered? && gets(i).log == log)))
  }

  lemma NothingKnown(posts: nat -> Post, gets: nat -> Get, q: nat)
    ensures Known(posts, gets, q, NOTHING.log)
  { }

  lemma DeliveredMild(x: Asked, sent: nat, d: Delivery)
    requires Delivered(x, sent, d) && Mild(d.fault)
    ensures Mild(x.fault)
  {
    hide Yielded, Torn;
  }

  lemma GentleGives(posts: nat -> Post, gets: nat -> Get, p: nat, q: nat, i: nat, before: Asked, x: Asked)
    requires Gives(posts, gets, p, i, before, x) && Gentle(posts, gets, i)
    requires i <= q && Known(posts, gets, q, before.log)
    ensures Known(posts, gets, q, x.log) && Mild(x.fault)
  {
    hide Delivered, ExitEnded, Reaches;
    if i < p {
      if posts(i).PostAnswered? && posts(i).post.Open? {
        hide Known, Mild;
        var sent: nat :| Delivered(x, sent, posts(i).d);
        DeliveredMild(x, sent, posts(i).d);
      }
    } else if gets(i).GetAnswered? {
      DeliveredMild(x, |Wire(x.log, x.from, |x.log|)|, gets(i).d);
    }
    hide Wire;
  }

  lemma {:induction false} GentleSoFar(posts: nat -> Post, gets: nat -> Get, aborted: nat -> bool, p: nat,
                                       trace: seq<Asked>, q: nat, i: nat)
    requires Requests(posts, gets, aborted, p, trace) && i < |trace| && i <= q
    requires forall j :: 0 <= j <= q ==> Gentle(posts, gets, j)
    ensures Known(posts, gets, q, trace[i].log) && Mild(trace[i].fault)
  {
    hide Known, Mild, Gentle, Gives;
    assert Gives(posts, gets, p, i, Prior(trace, i), trace[i]);
    assert Gentle(posts, gets, i);
    hide Requests;
    if i > 0 { GentleSoFar(posts, gets, aborted, p, trace, q, i - 1); }
    else { NothingKnown(posts, gets, q); }
    GentleGives(posts, gets, p, q, i, Prior(trace, i), trace[i]);
  }

  lemma WholeBrought(x: Asked, sent: nat, d: Delivery)
    requires Delivered(x, sent, d) && d.fault.None? && sent >= |Wire(x.log, x.from, |x.log|)|
    requires d.cut >= |Wire(x.log, x.from, |x.log|)|
    ensures x.to == |x.log| && x.fault.None?
  {
    Uncut(x.log, x.from, Min(d.cut, sent), false);
  }

  lemma PostBrings(posts: nat -> Post, gets: nat -> Get, aborted: nat -> bool, q: nat, before: Asked, x: Asked)
    requires PostGives(posts(q), before, x) && Served(posts, gets, aborted, q)
    ensures Exited(x.log, x.to) && x.fault.None?
  {
    hide Delivered, Wire, WellFormed;
    var a := posts(q);
    assert Gentle(posts, gets, q);
    assert a.post.Open? && Reaches(a.log, a.post, a.resume, a.gone) && ExitEnded(a.log);
    assert x.log == a.log && x.from == 0;
    assert a.d.fault.None? && a.d.cut >= |Wire(a.log, 0, |a.log|)|;
    hide Served, Gentle, Reaches;
    var sent: nat :| Delivered(x, sent, a.d) && sent == |Wire(x.log, 0, |x.log|)|;
    WholeBrought(x, sent, a.d);
  }

  lemma GetBrings(posts: nat -> Post, gets: nat -> Get, aborted: nat -> bool, q: nat, before: Asked, x: Asked)
    requires GetGives(gets(q), before, x) && Served(posts, gets, aborted, q) && Known(posts, gets, q, x.log)
    ensures Exited(x.log, x.to) && x.fault.None?
  {
    hide Delivered, Wire, Reaches;
    assert Gentle(posts, gets, q) && x.from <= |x.log|;
    var d := gets(q).d;
    assert x.log != [] ==> d.cut >= |Wire(x.log, 0, |x.log|)|;
    hide Served, Gentle, Uncutting, WellFormed;
    WireSplit(x.log, 0, x.from, |x.log|);
    WholeBrought(x, |Wire(x.log, x.from, |x.log|)|, d);
  }

  lemma LastBrings(posts: nat -> Post, gets: nat -> Get, aborted: nat -> bool, p: nat, trace: seq<Asked>, q: nat)
    requires Requests(posts, gets, aborted, p, trace) && q < |trace| && Served(posts, gets, aborted, q)
    ensures Exited(trace[q].log, trace[q].to) && trace[q].fault.None?
  {
    var before, x := Prior(trace, q), trace[q];
    ServedFacts(posts, gets, aborted, q);
    GentleSoFar(posts, gets, aborted, p, trace, q, q);
    assert Gives(posts, gets, p, q, before, x) by { hide Gives, Known, Mild, Gentle, Served; }
    hide Requests, Delivered, Mild, Gentle, Known;
    if q < p {
      PostBrings(posts, gets, aborted, q, before, x);
    } else {
      GetBrings(posts, gets, aborted, q, before, x);
    }
  }

  lemma KnownExits(posts: nat -> Post, gets: nat -> Get, q: nat, log: seq<Response>, m: nat)
    requires Known(posts, gets, q, log) && Over(log, m)
    ensures Exited(log, m)
  { }

  lemma MildIsSoft(x: Asked)
    requires Mild(x.fault)
    ensures !Hard(x, false)
  { }

  lemma LastIsLast(posts: nat -> Post, gets: nat -> Get, aborted: nat -> bool, p: nat, trace: seq<Asked>, q: nat)
    requires Requests(posts, gets, aborted, p, trace) && q < |trace| && Exited(trace[q].log, trace[q].to)
    ensures q == |trace| - 1
  {
    hide Gives, Soft;
  }

  lemma ServedFacts(posts: nat -> Post, gets: nat -> Get, aborted: nat -> bool, q: nat)
    requires Served(posts, gets, aborted, q)
    ensures forall i :: 0 <= i <= q + 1 ==> !aborted(i)
    ensures forall i :: 0 <= i <= q ==> Gentle(posts, gets, i)
  {
    hide Gentle, Reaches, Uncutting;
  }

  /** An exec that is served by request q ends with the exit event, and on no error. */
  lemma ServedExits(posts: nat -> Post, gets: nat -> Get, aborted: nat -> bool, p: nat, trace: seq<Asked>,
                    h: seq<Response>, m: nat, q: nat)
    requires Requests(posts, gets, aborted, p, trace) && trace != [] && Stands(trace, h, m)
    requires Served(posts, gets, aborted, q) && q <= MAX_RESUME_RETRIES
    requires !Over(h, m) ==> Hard(trace[|trace| - 1], aborted(|trace|)) || |trace| > MAX_RESUME_RETRIES
    ensures Exited(h, m) && !Hard(trace[|trace| - 1], aborted(|trace|))
  {
    hide Known, Mild, Served, Requests, Gentle, Hard, Over, Exited;
    var n := |trace|;
    ServedFacts(posts, gets, aborted, q);
    if n > q {
      LastBrings(posts, gets, aborted, p, trace, q);
      LastIsLast(posts, gets, aborted, p, trace, q);
      NoFault(trace[n - 1], aborted(n));
    } else {
      GentleSoFar(posts, gets, aborted, p, trace, q, n - 1);
      MildIsSoft(trace[n - 1]);
      KnownExits(posts, gets, q, h, m);
    }
  }

  /** exec. Whatever happens on the way, the consumer has taken in a prefix of the log h of
      one execution, each event once and in order; and when exec returns a result it is the
      whole log's: all of stdout, all of stderr, and the exit event.  It asks again exactly
      after a soft answer that left the execution unfinished, until its retries are used up;
      and it returns a result exactly when the last answer brought the exit event and was
      neither aborted nor a 429.  In particular it does whenever one of its requests is
      served before the retries are used up. */
  method Exec(text: Response -> string, posts: nat -> Post, gets: nat -> Get, aborted: nat -> bool)
    returns (res: Result, c: ExecStreamConsumer, ghost h: seq<Response>, ghost m: nat, ghost p: nat,
             ghost trace: seq<Asked>)
    requires forall i :: AnsweredWell(posts, gets, i)
    ensures fresh(c) && c.text == text && Answers(posts, gets, h) && c.Took(h, m)
    ensures res.Finished? ==>
      && m == |h| && Ended(h) && res.exit == h[|h| - 1] && res.exit.kind.Exit?
      && res.stdout == Gathered(text, h, Stdout) && res.stderr == Gathered(text, h, Stderr)
      && c.calls == Outputs(h)
    ensures 0 < |trace| <= MAX_RESUME_RETRIES + 2 && Requests(posts, gets, aborted, p, trace) && Stands(trace, h, m)
    ensures var last := trace[|trace| - 1];
      && (res.Finished? <==> Exited(h, m) && !Hard(last, aborted(|trace|)))
      && (!Over(h, m) ==> Hard(last, aborted(|trace|)) || |trace| > MAX_RESUME_RETRIES)
    ensures forall q :: 0 <= q <= MAX_RESUME_RETRIES && Served(posts, gets, aborted, q) ==> res.Finished?
  {
    hide Wire, Gathered, Outputs, Answers, AnsweredWell, Requests, Served;
    c := new ExecStreamConsumer(text);
    assert c.Took([], 0);
    var threw, log, next, used;
    threw, log, m, next, used, trace := Start(c, posts, gets, aborted);
    p := next;
    threw, h, m, trace := Resume(c, posts, gets, aborted, next, used, threw, log, m, trace);
    forall q: nat | q <= MAX_RESUME_RETRIES && Served(posts, gets, aborted, q)
      ensures Exited(h, m) && !Hard(trace[|trace| - 1], aborted(|trace|))
    {
      ServedExits(posts, gets, aborted, p, trace, h, m, q);
    }
    if threw || c.exitMeta.None? { return Thrown, c, h, m, p, trace; }
    assert h[..m] == h;
    res := Finished(c.stdout, c.stderr, c.exitMeta.value);
  }
}
