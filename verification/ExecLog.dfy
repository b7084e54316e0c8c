/**
 The daemon's event log of one execution: a retained suffix of everything appended,
 trimmed by size, with its index arithmetic in 64-bit words.  `Execution` is the
 object; `Replay` says what its fields are after any sequence of appends.
 */
module ExecLog {
  import opened ExecWire

  datatype Option<+T> = None | Some(value: T)

  /** A uint64 cursor. */
  type Cursor = n: nat | n <= MAX64

  const MAX_INT := 0x7FFF_FFFF_FFFF_FFFF

  datatype Stored = Stored(n: nat, data: string)

  datatype Log = Log(events: seq<Stored>, size: int, minSeq: nat, nextSeq: nat, completed: bool)

  const EMPTY := Log([], 0, 0, 0, false)

  // ---- append ---------------------------------------------------------------

  /** The trimming loop. */
  function Trim(l: Log, cap: int): Log
    decreases |l.events|
  {
    if l.size > cap && |l.events| > 1 then
      Trim(l.(size := l.size - |l.events[0].data|, events := l.events[1..], minSeq := l.events[1].n), cap)
    else l
  }

  function Appended(l: Log, cap: int, r: Response): Log {
    var e := Stored(l.nextSeq, Marshal(l.nextSeq, r));
    Trim(l.(events := l.events + [e], size := l.size + |e.data|, nextSeq := l.nextSeq + 1), cap)
      .(completed := l.completed || IsTerminal(r.kind))
  }

  /** The log after a whole history of appends. */
  function Replay(h: seq<Response>, cap: int): Log {
    if h == [] then EMPTY else Appended(Replay(h[..|h| - 1], cap), cap, h[|h| - 1])
  }

  lemma ReplaySnoc(h: seq<Response>, r: Response, cap: int)
    ensures Replay(h + [r], cap) == Appended(Replay(h, cap), cap, r)
  {
    assert (h + [r])[..|h|] == h;
    hide Appended;
  }

  // ---- what the log retains -----------------------------------------------

  /** Bytes of the events from the k-th on. */
  function Bytes(h: seq<Response>, k: nat): nat
    requires k <= |h|
    decreases |h| - k
  {
    if k == |h| then 0 else |Marshal(k, h[k])| + Bytes(h, k + 1)
  }

  /** The log holds exactly the events from `minSeq` on, with their sizes added up. */
  predicate Holds(l: Log, h: seq<Response>) {
    && l.nextSeq == |h| && l.minSeq <= |h|
    && |l.events| == |h| - l.minSeq
    && (forall i :: 0 <= i < |l.events| ==> l.events[i] == Stored(l.minSeq + i, Marshal(l.minSeq + i, h[l.minSeq + i])))
    && l.size == Bytes(h, l.minSeq)
  }

  /** `minSeq` is the first point from which the events fit, or the last event. */
  predicate Minimal(l: Log, h: seq<Response>, cap: int)
    requires l.minSeq <= |h|
  {
    && (h != [] ==> l.minSeq < |h|)
    && (l.minSeq < |h| - 1 ==> Bytes(h, l.minSeq) <= cap)
    && (forall k :: 0 <= k < l.minSeq ==> Bytes(h, k) > cap)
  }

  lemma {:induction false} TrimHolds(l: Log, h: seq<Response>, cap: int)
    requires Holds(l, h) && h != [] && l.minSeq < |h|
    requires forall k :: 0 <= k < l.minSeq ==> Bytes(h, k) > cap
    ensures Holds(Trim(l, cap), h) && Minimal(Trim(l, cap), h, cap)
    ensures Trim(l, cap).completed == l.completed
    decreases |l.events|
  {
    hide Marshal;
    if l.size > cap && |l.events| > 1 {
      var l1 := l.(size := l.size - |l.events[0].data|, events := l.events[1..], minSeq := l.events[1].n);
      assert l.events[0] == Stored(l.minSeq, Marshal(l.minSeq, h[l.minSeq]));
      assert Holds(l1, h);
      hide Holds;
      TrimHolds(l1, h, cap);
    }
  }

  lemma {:induction false} BytesSnoc(h: seq<Response>, r: Response, k: nat)
    requires k <= |h|
    ensures Bytes(h + [r], k) == Bytes(h, k) + |Marshal(|h|, r)|
    decreases |h| - k
  {
    hide Marshal;
    if k == |h| {
      assert Bytes(h + [r], k + 1) == 0;
    } else {
      BytesSnoc(h, r, k + 1);
      assert (h + [r])[k] == h[k];
    }
  }

  /** After any appends: the retained events are exactly minSeq..nextSeq-1, the size is
      their total, and exactly the oldest events that had to go for the size to fit are
      gone (the newest one always stays). */
  lemma {:induction false} ReplayShape(h: seq<Response>, cap: int)
    ensures Holds(Replay(h, cap), h) && Minimal(Replay(h, cap), h, cap)
    ensures Replay(h, cap).completed <==> exists i :: 0 <= i < |h| && IsTerminal(h[i].kind)
  {
    if h != [] {
      var g, r := h[..|h| - 1], h[|h| - 1];
      assert h == g + [r];
      hide Holds, Minimal, Marshal, Trim;
      ReplayShape(g, cap);
      AppendHolds(Replay(g, cap), g, cap, r);
      assert Replay(h, cap) == Appended(Replay(g, cap), cap, r);
    }
  }

  lemma AppendHolds(l: Log, g: seq<Response>, cap: int, r: Response)
    requires Holds(l, g) && Minimal(l, g, cap)
    ensures Holds(Appended(l, cap, r), g + [r]) && Minimal(Appended(l, cap, r), g + [r], cap)
    ensures Appended(l, cap, r).completed == (l.completed || IsTerminal(r.kind))
  {
    hide Marshal;
    var h := g + [r];
    var e := Stored(l.nextSeq, Marshal(l.nextSeq, r));
    var l1 := l.(events := l.events + [e], size := l.size + |e.data|, nextSeq := l.nextSeq + 1);
    forall k | 0 <= k <= |g| ensures Bytes(h, k) == Bytes(g, k) + |Marshal(|g|, r)| { BytesSnoc(g, r, k); }
    hide Bytes, Trim;
    assert Holds(l1, h);
    TrimHolds(l1, h, cap);
  }

  // ---- reads ------------------------------------------------------------------

  /** hasHistoryAfter. */
  predicate HasHistoryAfter(l: Log, after: Option<Cursor>) {
    match after
    case None => l.minSeq == 0
    case Some(a) => a == MAX64 || a + 1 >= l.minSeq
  }

  /** The seqs a cursor asks for are those above it. */
  predicate Wanted(after: Option<Cursor>, n: nat) {
    after == None || n > after.value
  }

  /** hasHistoryAfter holds exactly when no wanted event was trimmed. */
  lemma HistoryComplete(h: seq<Response>, cap: int, after: Option<Cursor>)
    requires |h| <= MAX64
    ensures HasHistoryAfter(Replay(h, cap), after) <==>
      forall n :: 0 <= n < |h| && Wanted(after, n) ==> exists e :: e in Replay(h, cap).events && e.n == n
  {
    ReplayShape(h, cap);
    hide Marshal, Bytes, Replay;
    var l := Replay(h, cap);
    if HasHistoryAfter(l, after) {
      forall n | 0 <= n < |h| && Wanted(after, n) ensures exists e :: e in l.events && e.n == n {
        assert l.events[n - l.minSeq].n == n;
      }
    } else {
      assert Wanted(after, l.minSeq - 1);
    }
  }

  datatype Batch = Panic | Batch(data: seq<string>)

  function Data(events: seq<Stored>): (d: seq<string>)
    ensures |d| == |events| && forall i :: 0 <= i < |d| ==> d[i] == events[i].data
  {
    seq(|events|, i requires 0 <= i < |events| => events[i].data)
  }

  /** Go's conversion of a uint64 to int. */
  function ToInt(u: nat): int
    requires u <= MAX64
  {
    if u <= MAX_INT then u else u - MAX64 - 1
  }

  /** eventsAfter. A negative start index makes the slice expression panic. */
  function EventsAfter(l: Log, after: Option<Cursor>): Batch {
    if after.Some? && after.value == MAX64 then Batch([])
    else
      var start := if after.Some? && after.value >= l.minSeq then ToInt(after.value - l.minSeq + 1) else 0;
      if start >= |l.events| then Batch([])
      else if start < 0 then Panic
      else Batch(Data(l.events[start..]))
  }

  /** The reference reading: filter by seq. */
  function Newer(events: seq<Stored>, after: Option<Cursor>): seq<string> {
    if events == [] then []
    else (if Wanted(after, events[0].n) then [events[0].data] else []) + Newer(events[1..], after)
  }

  /** The cursors on which the conversion overflows. */
  predicate Overflows(l: Log, after: Option<Cursor>) {
    after.Some? && after.value != MAX64 && after.value >= l.minSeq && after.value - l.minSeq + 1 > MAX_INT
  }

  lemma {:induction false} NewerIsSuffix(events: seq<Stored>, after: Option<Cursor>, start: nat)
    requires start <= |events| && forall i :: 0 <= i < |events| ==> (Wanted(after, events[i].n) <==> i >= start)
    ensures Newer(events, after) == Data(events[start..])
    decreases |events|
  {
    if events != [] {
      var rest := events[1..];
      forall i | 0 <= i < |rest| ensures Wanted(after, rest[i].n) <==> i + 1 >= start {
        assert rest[i] == events[i + 1];
      }
      if start == 0 {
        NewerIsSuffix(rest, after, 0);
        assert Data(events[0..]) == [events[0].data] + Data(rest[0..]);
      } else {
        NewerIsSuffix(rest, after, start - 1);
        assert rest[start - 1..] == events[start..];
      }
    }
  }

  /** The index arithmetic of eventsAfter is the filter by seq, for every cursor on which
      the conversion to a signed index does not overflow; on the others, and only on
      those, it panics. */
  lemma EventsAfterFilters(h: seq<Response>, cap: int, after: Option<Cursor>)
    requires |h| <= MAX_INT
    ensures EventsAfter(Replay(h, cap), after).Panic? <==> Overflows(Replay(h, cap), after)
    ensures !Overflows(Replay(h, cap), after) ==>
      EventsAfter(Replay(h, cap), after) == Batch(Newer(Replay(h, cap).events, after))
  {
    ReplayShape(h, cap);
    hide Marshal, Bytes, Replay;
    var l := Replay(h, cap);
    if !Overflows(l, after) {
      var start :=
        if after == None || after.value < l.minSeq then 0
        else if after.value - l.minSeq + 1 < |l.events| then after.value - l.minSeq + 1 else |l.events|;
      NewerIsSuffix(l.events, after, start);
      assert l.events[|l.events|..] == [];
    }
  }

  // ---- the object ---------------------------------------------------------------

  class Execution {
    var events: seq<Stored>
    var size: int
    const maxEventBytes: int
    var minSeq: nat
    var nextSeq: nat
    var completed: bool
    var notify: nat
    ghost var history: seq<Response>

    function View(): Log
      reads this
    {
      Log(events, size, minSeq, nextSeq, completed)
    }

    ghost predicate Valid()
      reads this
    {
      View() == Replay(history, maxEventBytes)
    }

    constructor (maxEventBytes: int)
      ensures Valid() && history == [] && this.maxEventBytes == maxEventBytes
    {
      this.maxEventBytes := maxEventBytes;
      events, size, minSeq, nextSeq, completed := [], 0, 0, 0, false;
      notify, history := 0, [];
    }

    /** append's trimming loop. */
    method TrimEvents()
      modifies `events, `size, `minSeq
      ensures View() == Trim(old(View()), maxEventBytes)
    {
      while size > maxEventBytes && |events| > 1
        invariant Trim(View(), maxEventBytes) == Trim(old(View()), maxEventBytes)
        decreases |events|
      {
        size := size - |events[0].data|;
        events := events[1..];
        minSeq := events[0].n;
      }
    }

    /** append; channels are numbered, and the one replaced is returned for closing. */
    method Append(r: Response) returns (replaced: nat)
      requires Valid()
      modifies this
      ensures Valid() && history == old(history) + [r]
      ensures replaced == old(notify) && notify == old(notify) + 1
    {
      hide Marshal, Trim, Replay;
      ReplaySnoc(history, r, maxEventBytes);
      history := history + [r];
      var n := nextSeq;
      nextSeq := nextSeq + 1;
      var data := Marshal(n, r);
      events := events + [Stored(n, data)];
      size := size + |data|;
      TrimEvents();
      if IsTerminal(r.kind) { completed := true; }
      replaced := notify;
      notify := notify + 1;
    }

    /** HasHistory. */
    method HasHistory(after: Option<Cursor>) returns (ok: bool)
      requires Valid() && |history| <= MAX64
      ensures ok <==> forall n :: 0 <= n < |history| && Wanted(after, n) ==> exists e :: e in events && e.n == n
    {
      HistoryComplete(history, maxEventBytes, after);
      if after == None { return minSeq == 0; }
      if after.value == MAX64 { return true; }
      return after.value + 1 >= minSeq;
    }

    /** Snapshot. */
    method Snapshot(after: Option<Cursor>) returns (r: Shot)
      requires Valid() && |history| <= MAX_INT
      ensures r.Trimmed? <==> !HasHistoryAfter(View(), after)
      ensures r.Crashed? <==> HasHistoryAfter(View(), after) && Overflows(View(), after)
      ensures r.Taken? ==> r.data == Newer(events, after)
    {
      var ok := HasHistory(after);
      HistoryComplete(history, maxEventBytes, after);
      if !ok { return Trimmed; }
      EventsAfterFilters(history, maxEventBytes, after);
      match EventsAfter(View(), after)
      case Panic => return Crashed;
      case Batch(data) => return Taken(data);
    }
  }

  /** A snapshot: refused because events were trimmed, a panic, or the events. */
  datatype Shot = Trimmed | Crashed | Taken(data: seq<string>)
}
