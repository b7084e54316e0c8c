/**
 Followers of an execution interleaved with appends.  One step is one critical section
 of append or Follow, one close of a replaced channel, one callback, or one wait that
 ends.  Channels are numbered; `channel` is the current one, `closing` holds those
 replaced but not closed yet, since append closes after it unlocked.
 */
module ExecFollow {
  import opened ExecWire
  import opened ExecLog

  datatype Pc = Enter | Deliver | Wait | Returned(ok: bool, cancelled: bool) | Panicked

  /** `seen` is how many events existed when the follower last held the lock. */
  datatype Follower = Follower(
    start: Option<Cursor>, after: Option<Cursor>, batch: seq<string>, delivered: seq<string>,
    completed: bool, notify: nat, seen: nat, pc: Pc)

  /** `wedged`: a follower panicked while it held the lock, which is then never released. */
  datatype State = State(
    history: seq<Response>, cap: int, channel: nat, closing: set<nat>, closed: set<nat>,
    wedged: bool, followers: seq<Follower>)

  datatype Step =
    | Append(r: Response)
    | Close(c: nat)
    | Begin(after: Option<Cursor>)
    | Lock(f: nat)
    | Emit(f: nat)
    | Settle(f: nat)
    | Wake(f: nat)
    | Cancel(f: nat)

  function Events(s: State): Log {
    Replay(s.history, s.cap)
  }

  /** The stream carries fewer than 2^63 events. */
  predicate Possible(s: State, step: Step) {
    match step
    case Append(_) => !s.wedged && |s.history| < MAX_INT
    case Close(c) => c in s.closing
    case Begin(_) => true
    case Lock(f) => !s.wedged && f < |s.followers| && s.followers[f].pc.Enter?
    case Emit(f) => f < |s.followers| && s.followers[f].pc.Deliver? && s.followers[f].batch != []
    case Settle(f) => f < |s.followers| && s.followers[f].pc.Deliver? && s.followers[f].batch == []
    case Wake(f) => f < |s.followers| && s.followers[f].pc.Wait? && s.followers[f].notify in s.closed
    case Cancel(f) => f < |s.followers| && s.followers[f].pc.Wait?
  }

  /** Follow's critical section. */
  function Locked(s: State, x: Follower): Follower {
    if !HasHistoryAfter(Events(s), x.after) then x.(pc := Returned(false, false))
    else
      match EventsAfter(Events(s), x.after)
      case Panic => x.(pc := Panicked)
      case Batch(b) =>
        x.(batch := b, completed := Events(s).completed, notify := s.channel, seen := |s.history|, pc := Deliver,
           after := if |b| > 0 && 0 < |s.history| <= MAX64 then Some(|s.history| - 1) else x.after)
  }

  function Put(s: State, f: nat, x: Follower): State
    requires f < |s.followers|
  {
    s.(followers := s.followers[f := x])
  }

  function Apply(s: State, step: Step): State
    requires Possible(s, step)
  {
    match step
    case Append(r) => s.(history := s.history + [r], closing := s.closing + {s.channel}, channel := s.channel + 1)
    case Close(c) => s.(closing := s.closing - {c}, closed := s.closed + {c})
    case Begin(after) => s.(followers := s.followers + [Follower(after, after, [], [], false, 0, 0, Enter)])
    case Lock(f) =>
      var x := Locked(s, s.followers[f]);
      Put(s, f, x).(wedged := x.pc.Panicked?)
    case Emit(f) =>
      var x := s.followers[f];
      Put(s, f, x.(delivered := x.delivered + [x.batch[0]], batch := x.batch[1..]))
    case Settle(f) =>
      var x := s.followers[f];
      Put(s, f, x.(pc := if x.completed then Returned(true, false) else Wait))
    case Wake(f) => Put(s, f, s.followers[f].(pc := Enter))
    case Cancel(f) => Put(s, f, s.followers[f].(pc := Returned(true, true)))
  }

  predicate Init(s: State) {
    s.history == [] && s.closing == {} && s.closed == {} && !s.wedged && s.followers == []
  }

  predicate Run(states: seq<State>, steps: seq<Step>) {
    && |states| == |steps| + 1 && Init(states[0])
    && forall k :: 0 <= k < |steps| ==> Possible(states[k], steps[k]) && states[k + 1] == Apply(states[k], steps[k])
  }

  // ---- the invariant --------------------------------------------------------

  /** The first seq a cursor asks for. */
  function From(after: Option<Cursor>): nat {
    if after.None? then 0 else after.value + 1
  }

  /** The lines of events lo..hi-1. */
  function Lines(h: seq<Response>, lo: nat, hi: nat): (d: seq<string>)
    requires lo <= hi <= |h|
    ensures |d| == hi - lo
  {
    seq(hi - lo, i requires 0 <= i < hi - lo => Marshal(lo + i, h[lo + i]))
  }

  /** The lines from a cursor up to the n-th event: none if the cursor is past them. */
  function Upto(h: seq<Response>, start: Option<Cursor>, n: nat): seq<string>
    requires n <= |h|
  {
    if From(start) <= n then Lines(h, From(start), n) else []
  }

  predicate Terminated(h: seq<Response>, n: nat)
    requires n <= |h|
  {
    exists i :: 0 <= i < n && IsTerminal(h[i].kind)
  }

  predicate Progress(h: seq<Response>, x: Follower) {
    && (x.after == x.start || From(x.start) < From(x.after) <= |h|)
    && x.delivered + x.batch == (if x.after == x.start then [] else Lines(h, From(x.start), From(x.after)))
  }

  /** What the follower knew when it last held the lock. */
  predicate Knows(s: State, x: Follower) {
    && x.seen <= |s.history| && From(x.after) >= x.seen && (From(x.after) > x.seen ==> x.after == x.start)
    && (x.completed <==> Terminated(s.history, x.seen))
    && x.notify <= s.channel
    && (x.notify < s.channel ==> x.notify in s.closing + s.closed)
    && (x.notify == s.channel ==> x.seen == |s.history|)
  }

  predicate FollowerInv(s: State, x: Follower) {
    && Progress(s.history, x)
    && (x.pc.Deliver? || x.pc.Wait? || x.pc == Returned(true, false) ==> Knows(s, x))
    && (!x.pc.Deliver? ==> x.batch == [])
    && (x.pc.Wait? ==> !x.completed)
    && (x.pc == Returned(true, false) ==> x.completed)
    && (x.pc == Returned(false, false) ==> From(x.after) < Events(s).minSeq)
    && (x.pc.Panicked? ==> x.start.Some? && MAX_INT <= x.start.value < MAX64)
    && (x.pc.Returned? ==> x.pc.ok || !x.pc.cancelled)
  }

  predicate Inv(s: State) {
    && |s.history| <= MAX_INT
    && (forall f :: 0 <= f < |s.followers| ==> FollowerInv(s, s.followers[f]))
    && (s.wedged ==> exists f :: 0 <= f < |s.followers| && s.followers[f].pc.Panicked?)
  }

  // ---- preservation -----------------------------------------------------------

  /** Trimming only moves forward. */
  lemma MinSeqGrows(h: seq<Response>, r: Response, cap: int)
    ensures Replay(h, cap).minSeq <= Replay(h + [r], cap).minSeq
  {
    ReplayShape(h, cap);
    ReplayShape(h + [r], cap);
    hide Replay, Marshal;
    var m, m' := Replay(h, cap).minSeq, Replay(h + [r], cap).minSeq;
    if m' < m {
      BytesSnoc(h, r, m');
    }
  }

  lemma AppendProgress(h: seq<Response>, r: Response, x: Follower)
    requires Progress(h, x)
    ensures Progress(h + [r], x)
  {
    hide Marshal;
    if x.after != x.start {
      assert Lines(h + [r], From(x.start), From(x.after)) == Lines(h, From(x.start), From(x.after));
    }
  }

  lemma TerminatedPrefix(h: seq<Response>, r: Response, n: nat)
    requires n <= |h|
    ensures Terminated(h + [r], n) <==> Terminated(h, n)
  {
    assert forall i :: 0 <= i < n ==> (h + [r])[i] == h[i];
  }

  lemma AppendKnows(s: State, r: Response, x: Follower)
    requires Possible(s, Append(r)) && Knows(s, x)
    ensures Knows(Apply(s, Append(r)), x)
  {
    TerminatedPrefix(s.history, r, x.seen);
    hide Terminated;
  }

  lemma AppendFollower(s: State, r: Response, x: Follower)
    requires Possible(s, Append(r)) && FollowerInv(s, x)
    ensures FollowerInv(Apply(s, Append(r)), x)
  {
    MinSeqGrows(s.history, r, s.cap);
    AppendProgress(s.history, r, x);
    if Knows(s, x) { AppendKnows(s, r, x); }
    hide Replay, Progress, Knows;
  }

  lemma AppendKeeps(s: State, r: Response)
    requires Inv(s) && Possible(s, Append(r))
    ensures Inv(Apply(s, Append(r)))
  {
    hide FollowerInv;
    forall f | 0 <= f < |s.followers| { AppendFollower(s, r, s.followers[f]); }
  }

  /** What Follow reads under the lock is everything from its cursor on. */
  lemma BatchIsRest(h: seq<Response>, cap: int, after: Option<Cursor>)
    requires |h| <= MAX_INT && HasHistoryAfter(Replay(h, cap), after)
    ensures EventsAfter(Replay(h, cap), after).Panic? ==> after.Some? && MAX_INT <= after.value < MAX64
    ensures EventsAfter(Replay(h, cap), after).Batch? ==> EventsAfter(Replay(h, cap), after).data == Upto(h, after, |h|)
  {
    ReplayShape(h, cap);
    hide Replay, Marshal, Bytes;
    var l := Replay(h, cap);
    var b := EventsAfter(l, after);
    if b.Batch? && From(after) < |h| {
      var start := From(after) - l.minSeq;
      assert b.data == Data(l.events[start..]);
      assert b.data == Lines(h, From(after), |h|);
    }
  }

  lemma LinesSplit(h: seq<Response>, lo: nat, mid: nat, hi: nat)
    requires lo <= mid <= hi <= |h|
    ensures Lines(h, lo, hi) == Lines(h, lo, mid) + Lines(h, mid, hi)
  {
  }

  /** A batch of everything from the cursor on continues what was delivered. */
  lemma TakesRest(h: seq<Response>, x: Follower, x': Follower)
    requires Progress(h, x) && x.batch == [] && x'.start == x.start && x'.delivered == x.delivered
    requires x'.batch == Upto(h, x.after, |h|)
    requires x'.after == if x'.batch != [] && h != [] then Some(|h| - 1) else x.after
    ensures Progress(h, x')
  {
    hide Marshal, Lines;
    if x'.batch != [] && x.after != x.start {
      LinesSplit(h, From(x.start), From(x.after), |h|);
    }
  }

  /** The batch a follower takes continues what it has delivered. */
  lemma LockProgress(s: State, x: Follower)
    requires Progress(s.history, x) && x.batch == [] && |s.history| <= MAX_INT && HasHistoryAfter(Events(s), x.after)
    requires Locked(s, x).pc.Deliver? && !x.pc.Deliver?
    ensures Progress(s.history, Locked(s, x))
  {
    BatchIsRest(s.history, s.cap, x.after);
    hide Replay, EventsAfter, HasHistoryAfter, Progress, Upto;
    TakesRest(s.history, x, Locked(s, x));
  }

  lemma SameProgress(h: seq<Response>, x: Follower, pc: Pc)
    requires Progress(h, x)
    ensures Progress(h, x.(pc := pc))
  {
  }

  lemma LockFollower(s: State, x: Follower)
    requires FollowerInv(s, x) && |s.history| <= MAX_INT && x.pc.Enter?
    ensures FollowerInv(s, Locked(s, x))
  {
    var x' := Locked(s, x);
    hide Replay, Marshal, EventsAfter, HasHistoryAfter, Lines;
    ReplayShape(s.history, s.cap);
    if HasHistoryAfter(Events(s), x.after) {
      BatchIsRest(s.history, s.cap, x.after);
      if x'.pc.Deliver? {
        assert Knows(s, x');
        LockProgress(s, x);
        hide Progress, Knows;
      } else {
        SameProgress(s.history, x, x'.pc);
      }
    } else {
      SameProgress(s.history, x, x'.pc);
      assert From(x.after) < Events(s).minSeq by { HistoryGap(Events(s), x.after); }
    }
  }

  lemma HistoryGap(l: Log, after: Option<Cursor>)
    requires !HasHistoryAfter(l, after)
    ensures From(after) < l.minSeq
  {
  }

  /** An invariant on a follower only reads the log and the channels. */
  lemma SameLog(s: State, s': State, x: Follower)
    requires FollowerInv(s, x)
    requires s'.history == s.history && s'.cap == s.cap && s'.channel == s.channel
    requires s.closing + s.closed <= s'.closing + s'.closed
    ensures FollowerInv(s', x)
  {
    hide Progress, Replay, Terminated;
  }

  lemma LockKeeps(s: State, f: nat)
    requires Inv(s) && Possible(s, Lock(f))
    ensures Inv(Apply(s, Lock(f)))
  {
    var s' := Apply(s, Lock(f));
    LockFollower(s, s.followers[f]);
    hide FollowerInv, Locked;
    forall g | 0 <= g < |s.followers| ensures FollowerInv(s', s'.followers[g]) {
      SameLog(s, s', s'.followers[g]);
    }
    assert s'.wedged ==> s'.followers[f].pc.Panicked?;
  }

  function Touched(step: Step): int {
    match step
    case Emit(f) => f
    case Settle(f) => f
    case Wake(f) => f
    case Cancel(f) => f
    case _ => -1
  }

  lemma EmitFollower(s: State, x: Follower)
    requires FollowerInv(s, x) && x.pc.Deliver? && x.batch != []
    ensures FollowerInv(s, x.(delivered := x.delivered + [x.batch[0]], batch := x.batch[1..]))
  {
    hide Lines, Replay;
    assert x.delivered + [x.batch[0]] + x.batch[1..] == x.delivered + x.batch;
  }

  /** A follower that settles, wakes or is cancelled. */
  lemma MoveFollower(s: State, x: Follower, pc: Pc)
    requires FollowerInv(s, x) && x.batch == []
    requires
      || (x.pc.Deliver? && pc == if x.completed then Returned(true, false) else Wait)
      || (x.pc.Wait? && (pc.Enter? || pc == Returned(true, true)))
    ensures FollowerInv(s, x.(pc := pc))
  {
    hide Lines, Replay, Terminated;
  }

  lemma OtherFollower(s: State, step: Step, g: nat)
    requires Inv(s) && Possible(s, step) && !step.Append? && !step.Lock?
    requires g < |s.followers|
    ensures FollowerInv(Apply(s, step), Apply(s, step).followers[g])
  {
    var x, x' := s.followers[g], Apply(s, step).followers[g];
    hide FollowerInv;
    if g == Touched(step) {
      if step.Emit? { EmitFollower(s, x); } else { MoveFollower(s, x, x'.pc); }
    }
    SameLog(s, Apply(s, step), x');
  }

  /** A follower that has just joined. */
  lemma NewFollower(s: State, step: Step)
    requires Inv(s) && Possible(s, step) && !step.Append? && !step.Lock? && |Apply(s, step).followers| > |s.followers|
    ensures FollowerInv(Apply(s, step), Apply(s, step).followers[|s.followers|])
  {
    hide Lines, Replay, Terminated;
  }

  lemma OtherKeeps(s: State, step: Step)
    requires Inv(s) && Possible(s, step) && !step.Append? && !step.Lock?
    ensures Inv(Apply(s, step))
  {
    hide FollowerInv;
    var s' := Apply(s, step);
    forall g | 0 <= g < |s'.followers| ensures FollowerInv(s', s'.followers[g]) {
      if g < |s.followers| { OtherFollower(s, step, g); } else { NewFollower(s, step); }
    }
    if s.wedged {
      var f :| 0 <= f < |s.followers| && s.followers[f].pc.Panicked?;
      assert s'.followers[f].pc.Panicked?;
    }
  }

  /** Every state of every run satisfies the invariant. */
  lemma {:induction false} RunInv(states: seq<State>, steps: seq<Step>, k: nat)
    requires Run(states, steps) && k < |states|
    ensures Inv(states[k])
  {
    if k > 0 {
      RunInv(states, steps, k - 1);
      var s, step := states[k - 1], steps[k - 1];
      assert Possible(s, step) && states[k] == Apply(s, step);
      hide Inv, Apply, Run;
      if step.Append? { AppendKeeps(s, step.r); }
      else if step.Lock? { LockKeeps(s, step.f); }
      else { OtherKeeps(s, step); }
    }
  }

  // ---- what a follower gets ------------------------------------------------------

  /** A follower is handed consecutive events starting just after its cursor: no gap, no
      repetition, in order, whatever was appended or trimmed meanwhile. */
  lemma Consecutive(states: seq<State>, steps: seq<Step>, k: nat, f: nat)
    requires Run(states, steps) && k < |states| && f < |states[k].followers|
    ensures var x := states[k].followers[f];
      exists n: nat :: n <= |states[k].history| && x.delivered == Upto(states[k].history, x.start, n)
  {
    RunInv(states, steps, k);
    hide Run, Marshal;
    var h, x := states[k].history, states[k].followers[f];
    assert FollowerInv(states[k], x);
    if x.after == x.start {
      var n := if From(x.start) <= |h| then From(x.start) else |h|;
      assert x.delivered == Upto(h, x.start, n);
    } else {
      var n := From(x.start) + |x.delivered|;
      LinesSplit(h, From(x.start), n, From(x.after));
      assert x.delivered == (x.delivered + x.batch)[..|x.delivered|];
      assert x.delivered == Upto(h, x.start, n);
    }
  }

  /** A follower that returns true without being cancelled was handed everything after its
      cursor up to a point by which the execution had ended. */
  lemma CompleteOnTrue(states: seq<State>, steps: seq<Step>, k: nat, f: nat)
    requires Run(states, steps) && k < |states| && f < |states[k].followers|
    requires states[k].followers[f].pc == Returned(true, false)
    ensures var x := states[k].followers[f];
      exists n: nat :: n <= |states[k].history| && Terminated(states[k].history, n) &&
        x.delivered == Upto(states[k].history, x.start, n)
  {
    RunInv(states, steps, k);
    hide Run, Marshal;
    var h, x := states[k].history, states[k].followers[f];
    assert FollowerInv(states[k], x);
    assert x.delivered == Upto(h, x.start, x.seen);
  }

  /** A follower that returns false was about to skip a trimmed event: the next one it
      wanted is not retained any more. */
  lemma FalseMeansTrimmed(states: seq<State>, steps: seq<Step>, k: nat, f: nat)
    requires Run(states, steps) && k < |states| && f < |states[k].followers|
    requires states[k].followers[f].pc.Returned? && !states[k].followers[f].pc.ok
    ensures var h := states[k].history; var x := states[k].followers[f];
      && From(x.start) + |x.delivered| < |h|
      && x.delivered == Upto(h, x.start, From(x.start) + |x.delivered|)
      && forall e :: e in Replay(h, states[k].cap).events ==> e.n > From(x.start) + |x.delivered|
  {
    RunInv(states, steps, k);
    hide Run;
    var h, x := states[k].history, states[k].followers[f];
    assert FollowerInv(states[k], x);
    ReplayShape(h, states[k].cap);
    hide Replay, Marshal, Bytes;
  }

  /** No lost wakeup: a follower that waits while an event beyond its cursor exists holds
      a channel that has been replaced, and that is closed or about to be. */
  lemma NoLostWakeup(states: seq<State>, steps: seq<Step>, k: nat, f: nat)
    requires Run(states, steps) && k < |states| && f < |states[k].followers|
    requires states[k].followers[f].pc.Wait? && From(states[k].followers[f].after) < |states[k].history|
    ensures var x := states[k].followers[f];
      && x.notify != states[k].channel
      && (x.notify in states[k].closed || x.notify in states[k].closing)
      && (states[k].closing == {} ==> Possible(states[k], Wake(f)))
  {
    RunInv(states, steps, k);
    hide Run, Marshal;
    assert FollowerInv(states[k], states[k].followers[f]);
  }

  /** The log only wedges on a cursor in the upper half of the uint64 range. */
  lemma WedgedOnlyByHugeCursor(states: seq<State>, steps: seq<Step>, k: nat)
    requires Run(states, steps) && k < |states| && states[k].wedged
    ensures exists f :: 0 <= f < |states[k].followers| && states[k].followers[f].start.Some? &&
                        MAX_INT <= states[k].followers[f].start.value < MAX64
  {
    RunInv(states, steps, k);
    hide Run, Marshal;
    var f :| 0 <= f < |states[k].followers| && states[k].followers[f].pc.Panicked?;
    assert FollowerInv(states[k], states[k].followers[f]);
  }

  /** Taking the lock wedges the log exactly when the cursor overflows the index. */
  lemma WedgesIff(s: State, f: nat)
    requires Inv(s) && Possible(s, Lock(f))
    ensures Apply(s, Lock(f)).wedged <==> Overflows(Events(s), s.followers[f].after)
  {
    EventsAfterFilters(s.history, s.cap, s.followers[f].after);
    hide Replay;
  }

  /** A follower that waits has not been past the terminal event: there is none among the
      events it has seen, so that every follower of a finished execution returns. */
  lemma WaitsUnfinished(states: seq<State>, steps: seq<Step>, k: nat, f: nat)
    requires Run(states, steps) && k < |states| && f < |states[k].followers| && states[k].followers[f].pc.Wait?
    ensures states[k].followers[f].seen <= |states[k].history|
    ensures !Terminated(states[k].history, states[k].followers[f].seen)
  {
    RunInv(states, steps, k);
    hide Run;
    assert FollowerInv(states[k], states[k].followers[f]);
  }
}
