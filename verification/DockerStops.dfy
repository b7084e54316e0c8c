/**
 * How the docker runtime tells the container deaths it asked for from crashes: a
 * mark per container, recorded before the call it excuses, taken back by a call
 * that failed, used up by a death, and swept once it is too old.
 */
module DockerStops {

  type Container = string
  type SandboxId = string

  /** expectedStopTTL, in nanoseconds. */
  const TTL: int := 120_000_000_000

  datatype Option<T> = None | Some(value: T)
  datatype Stop = Stop(token: nat, at: int)

  predicate Stale(stop: Stop, now: int) { now - stop.at > TTL }

  function Sweep(stops: map<Container, Stop>, now: int): (kept: map<Container, Stop>) {
    map c | c in stops && !Stale(stops[c], now) :: stops[c]
  }

  // ---------------------------------------------------------------------------
  // The runtime's own state.

  class Runtime {
    var expectedStops: map<Container, Stop>
    var stopToken: nat
    var restarted: set<SandboxId>

    method ExpectStop(c: Container, now: int) returns (token: nat)
      modifies this`expectedStops, this`stopToken
      ensures c == "" ==> token == 0 && expectedStops == old(expectedStops) && stopToken == old(stopToken)
      ensures c != "" ==>
        && token == stopToken == old(stopToken) + 1
        && expectedStops == Sweep(old(expectedStops), now)[c := Stop(token, now)]
    {
      if c == "" { return 0; }
      var todo := expectedStops.Keys;
      while todo != {}
        invariant todo <= old(expectedStops).Keys
        invariant forall id :: id in expectedStops <==>
          id in old(expectedStops) && (id in todo || !Stale(old(expectedStops)[id], now))
        invariant forall id :: id in expectedStops ==> expectedStops[id] == old(expectedStops)[id]
        invariant stopToken == old(stopToken)
        decreases |todo|
      {
        var id :| id in todo;
        var stop := expectedStops[id];
        if now - stop.at > TTL { expectedStops := expectedStops - {id}; }
        todo := todo - {id};
      }
      assert expectedStops == Sweep(old(expectedStops), now);
      stopToken := stopToken + 1;
      expectedStops := expectedStops[c := Stop(stopToken, now)];
      return stopToken;
    }

    method ForgetExpectedStop(c: Container, token: nat)
      modifies this`expectedStops
      ensures expectedStops == Forget(old(expectedStops), c, token)
    {
      var held := if c in expectedStops then expectedStops[c].token else 0;
      if held == token { expectedStops := expectedStops - {c}; }
    }

    method TakeExpectedStop(c: Container, now: int) returns (excused: bool)
      modifies this`expectedStops
      ensures excused <==> c in old(expectedStops) && !Stale(old(expectedStops)[c], now)
      ensures expectedStops == old(expectedStops) - {c}
    {
      if c !in expectedStops { return false; }
      var stop := expectedStops[c];
      expectedStops := expectedStops - {c};
      excused := now - stop.at <= TTL;
    }

    method HandleContainerDeath(c: Container, sandbox: SandboxId, now: int)
      modifies this`expectedStops, this`restarted
      ensures expectedStops == old(expectedStops) - {c}
      ensures restarted == old(restarted)
        + if sandbox != "" && !(c in old(expectedStops) && !Stale(old(expectedStops)[c], now)) then {sandbox} else {}
    {
      var excused := TakeExpectedStop(c, now);
      if excused { return; }
      if sandbox == "" { return; }
      restarted := restarted + {sandbox};
    }

    method ClearRestarted(sandbox: SandboxId)
      modifies this`restarted
      ensures restarted == old(restarted) - {sandbox}
    {
      restarted := restarted - {sandbox};
    }
  }

  function Forget(stops: map<Container, Stop>, c: Container, token: nat): (r: map<Container, Stop>) {
    if c in stops && stops[c].token == token then stops - {c} else stops
  }

  // ---------------------------------------------------------------------------
  // The machine: the same steps, and the history they make.

  datatype Event =
    | Asked(c: Container, stop: Stop)
    | Failed(c: Container, token: nat)
    | Died(c: Container, sandbox: SandboxId, at: int, excused: bool)

  datatype State = State(
    clock: int,
    stops: map<Container, Stop>,
    token: nat,
    marking: Option<SandboxId>,                   // a crash taken note of and not marked yet
    restarted: set<SandboxId>,
    history: seq<Event>)

  datatype Step =
    | Tick(t: int)
    | Ask(c: Container, now: int)                 // the clock was read before the lock was taken
    | Fail(ask: nat)                              // the call of that event of the history reports failure
    | Die(c: Container, sandbox: SandboxId)       // the event: the container's mark is used up
    | Mark                                        // under a second lock: the sandbox is marked restarted
    | Clear(sandbox: SandboxId)

  predicate Possible(s: State, step: Step) {
    match step
    case Tick(t) => s.clock <= t
    case Ask(c, now) => c != "" && now <= s.clock
    case Fail(ask) => ask < |s.history| && s.history[ask].Asked?
    case Die(c, _) => s.marking.None?             // one watcher handles the events one by one
    case Mark => s.marking.Some?
    case Clear(_) => true
  }

  predicate Excuses(stops: map<Container, Stop>, c: Container, now: int) {
    c in stops && !Stale(stops[c], now)
  }

  function Apply(s: State, step: Step): (s': State)
    requires Possible(s, step)
  {
    match step
    case Tick(t) => s.(clock := t)
    case Ask(c, now) =>
      var stop := Stop(s.token + 1, now);
      s.(stops := Sweep(s.stops, now)[c := stop], token := s.token + 1, history := s.history + [Asked(c, stop)])
    case Fail(ask) =>
      var e := s.history[ask];
      s.(stops := Forget(s.stops, e.c, e.stop.token), history := s.history + [Failed(e.c, e.stop.token)])
    case Die(c, sandbox) =>
      var excused := Excuses(s.stops, c, s.clock);
      s.(stops := s.stops - {c},
         marking := if sandbox != "" && !excused then Some(sandbox) else None,
         history := s.history + [Died(c, sandbox, s.clock, excused)])
    case Mark => s.(marking := None, restarted := s.restarted + {s.marking.value})
    case Clear(sandbox) => s.(restarted := s.restarted - {sandbox})
  }

  predicate Run(states: seq<State>, steps: seq<Step>) {
    && |states| == |steps| + 1
    && states[0].stops == map[] && states[0].token == 0 && states[0].history == []
    && states[0].marking == None && states[0].restarted == {}
    && forall i :: 0 <= i < |steps| ==> Possible(states[i], steps[i]) && states[i + 1] == Apply(states[i], steps[i])
  }

  // ---------------------------------------------------------------------------
  // The reference: the stop a death of the container would use up, from the
  // history alone and with nothing swept.

  function Pending(h: seq<Event>, c: Container): (p: Option<Stop>) {
    if h == [] then None
    else
      var before := Pending(h[..|h| - 1], c);
      match h[|h| - 1]
      case Asked(c', stop) => if c' == c then Some(stop) else before
      case Failed(c', token) => if c' == c && before.Some? && before.value.token == token then None else before
      case Died(c', _, _, _) => if c' == c then None else before
  }

  lemma PendingSnoc(h: seq<Event>, e: Event, c: Container)
    ensures Pending(h + [e], c) ==
      match e
      case Asked(c', stop) => if c' == c then Some(stop) else Pending(h, c)
      case Failed(c', token) =>
        if c' == c && Pending(h, c).Some? && Pending(h, c).value.token == token then None else Pending(h, c)
      case Died(c', _, _, _) => if c' == c then None else Pending(h, c)
  {
    assert (h + [e])[..|h|] == h;
  }

  /** Index i holds the asking that is still pending: no later asking, death or failure undid it. */
  predicate Open(h: seq<Event>, c: Container, stop: Stop, i: nat) {
    && i < |h| && h[i] == Asked(c, stop)
    && forall j :: i < j < |h| ==>
         && !(h[j].Asked? && h[j].c == c)
         && !(h[j].Died? && h[j].c == c)
         && h[j] != Failed(c, stop.token)
  }

  /** What is pending was asked for, and nothing since has undone it; and the other way round. */
  lemma {:induction false} PendingIsOpen(h: seq<Event>, c: Container) returns (i: nat)
    requires Pending(h, c).Some?
    ensures Open(h, c, Pending(h, c).value, i)
  {
    var n := |h| - 1;
    if h[n].Asked? && h[n].c == c {
      i := n;
    } else {
      i := PendingIsOpen(h[..n], c);
    }
  }

  lemma {:induction false} OpenIsPending(h: seq<Event>, c: Container, stop: Stop, i: nat)
    requires Open(h, c, stop, i)
    ensures Pending(h, c) == Some(stop)
    decreases |h|
  {
    var n := |h| - 1;
    if i < n {
      assert Open(h[..n], c, stop, i);
      OpenIsPending(h[..n], c, stop, i);
    }
  }

  // ---------------------------------------------------------------------------
  // The invariant.

  /** The swept map holds pending stops only, and every pending stop that is not stale. */
  ghost predicate Refines(s: State) {
    && (forall c :: c in s.stops ==> Pending(s.history, c) == Some(s.stops[c]))
    && (forall c :: Pending(s.history, c).Some? && !Stale(Pending(s.history, c).value, s.clock) ==> c in s.stops)
  }

  /** Every call has a token of its own, from 1 up. */
  predicate Tokens(s: State) {
    && (forall i :: 0 <= i < |s.history| && s.history[i].Asked? ==> 1 <= s.history[i].stop.token <= s.token)
    && (forall i, j :: 0 <= i < j < |s.history| && s.history[i].Asked? && s.history[j].Asked? ==>
          s.history[i].stop.token < s.history[j].stop.token)
  }

  /** Each death was excused exactly when a stop was pending then, and fresh. */
  predicate Judged(h: seq<Event>) {
    forall j :: 0 <= j < |h| && h[j].Died? ==> (h[j].excused <==> Due(h[..j], h[j].c, h[j].at))
  }

  predicate Due(h: seq<Event>, c: Container, now: int) {
    Pending(h, c).Some? && !Stale(Pending(h, c).value, now)
  }

  ghost predicate Inv(s: State) {
    Refines(s) && Tokens(s) && Judged(s.history)
  }

  /** The swept map answers as the reference does. */
  lemma SweptAnswersAlike(s: State, c: Container)
    requires Refines(s)
    ensures Excuses(s.stops, c, s.clock) <==> Due(s.history, c, s.clock)
  { }

  lemma JudgedSnoc(h: seq<Event>, e: Event)
    requires Judged(h) && (e.Died? ==> (e.excused <==> Due(h, e.c, e.at)))
    ensures Judged(h + [e])
  {
    var more := h + [e];
    forall j | 0 <= j < |more| && more[j].Died? ensures more[j].excused <==> Due(more[..j], more[j].c, more[j].at) {
      assert more[..j] == if j < |h| then h[..j] else h;
    }
  }

  lemma AskKeeps(s: State, c: Container, now: int)
    requires Inv(s) && Possible(s, Ask(c, now))
    ensures Inv(Apply(s, Ask(c, now)))
  {
    var e := Asked(c, Stop(s.token + 1, now));
    forall x ensures Pending(s.history + [e], x) == if x == c then Some(e.stop) else Pending(s.history, x) {
      PendingSnoc(s.history, e, x);
    }
    JudgedSnoc(s.history, e);
  }

  lemma FailKeeps(s: State, ask: nat)
    requires Inv(s) && Possible(s, Fail(ask))
    ensures Inv(Apply(s, Fail(ask)))
  {
    var e := Failed(s.history[ask].c, s.history[ask].stop.token);
    forall x ensures Pending(s.history + [e], x) ==
      if x == e.c && Pending(s.history, x).Some? && Pending(s.history, x).value.token == e.token then None
      else Pending(s.history, x)
    {
      PendingSnoc(s.history, e, x);
    }
    JudgedSnoc(s.history, e);
  }

  lemma DieKeeps(s: State, c: Container, sandbox: SandboxId)
    requires Inv(s) && Possible(s, Die(c, sandbox))
    ensures Inv(Apply(s, Die(c, sandbox)))
  {
    var e := Died(c, sandbox, s.clock, Excuses(s.stops, c, s.clock));
    SweptAnswersAlike(s, c);
    forall x ensures Pending(s.history + [e], x) == if x == c then None else Pending(s.history, x) {
      PendingSnoc(s.history, e, x);
    }
    JudgedSnoc(s.history, e);
  }

  lemma StepKeeps(s: State, step: Step)
    requires Inv(s) && Possible(s, step)
    ensures Inv(Apply(s, step))
  {
    match step
    case Ask(c, now) => AskKeeps(s, c, now);
    case Fail(ask) => FailKeeps(s, ask);
    case Die(c, sandbox) => DieKeeps(s, c, sandbox);
    case Tick(_) =>
    case Mark =>
    case Clear(_) =>
  }

  lemma {:induction false} RunInv(states: seq<State>, steps: seq<Step>, i: nat)
    requires Run(states, steps) && i < |states|
    ensures Inv(states[i])
  {
    if i > 0 {
      RunInv(states, steps, i - 1);
      StepKeeps(states[i - 1], steps[i - 1]);
    }
  }

  // ---------------------------------------------------------------------------
  // The promises.

  /**
   * A death is excused exactly when the last stop asked of its container is at
   * most two minutes old, has not reported failure and has excused no death yet.
   */
  lemma ExcusedExactly(states: seq<State>, steps: seq<Step>, n: nat, j: nat)
    requires Run(states, steps) && n < |states| && j < |states[n].history| && states[n].history[j].Died?
    ensures var h := states[n].history; var d := h[j];
      d.excused <==> exists i, stop :: Open(h[..j], d.c, stop, i) && d.at - stop.at <= TTL
  {
    RunInv(states, steps, n);
    var h := states[n].history;
    var d := h[j];
    if d.excused {
      var i := PendingIsOpen(h[..j], d.c);
      assert d.at - Pending(h[..j], d.c).value.at <= TTL;
    }
    forall i, stop | Open(h[..j], d.c, stop, i) && d.at - stop.at <= TTL ensures d.excused {
      OpenIsPending(h[..j], d.c, stop, i);
    }
  }

  /** Two deaths are never excused by the same call. */
  lemma OneDeathEach(states: seq<State>, steps: seq<Step>, n: nat, j: nat, k: nat,
                     stop: Stop, i: nat, stop': Stop, i': nat)
    requires Run(states, steps) && n < |states| && j < k < |states[n].history|
    requires states[n].history[j].Died? && states[n].history[k].Died?
    requires Open(states[n].history[..j], states[n].history[j].c, stop, i)
    requires Open(states[n].history[..k], states[n].history[k].c, stop', i')
    ensures stop.token != stop'.token
  {
    RunInv(states, steps, n);
    var h := states[n].history;
    assert h[i] == Asked(h[j].c, stop) && h[i'] == Asked(h[k].c, stop');
    assert h[j].c == h[k].c ==> i < j < i' by { assert h[..k][j] == h[j]; }
    assert i != i';
  }

  /** A call that fails takes back its own mark and no other call's. */
  lemma FailTakesItsOwn(states: seq<State>, steps: seq<Step>, n: nat, ask: nat, c: Container)
    requires Run(states, steps) && n < |steps| && steps[n] == Fail(ask)
    ensures ask < |states[n].history| && states[n].history[ask].Asked?
    ensures c in states[n].stops && states[n].stops[c] != states[n].history[ask].stop ==>
      c in states[n + 1].stops && states[n + 1].stops[c] == states[n].stops[c]
    ensures states[n].history[ask].c !in states[n + 1].stops
      || states[n + 1].stops[states[n].history[ask].c].token != states[n].history[ask].stop.token
  {
    RunInv(states, steps, n);
    var s := states[n];
    assert Possible(s, steps[n]) && states[n + 1] == Apply(s, steps[n]);
    if c in s.stops && c == s.history[ask].c && s.stops[c].token == s.history[ask].stop.token {
      var i := PendingIsOpen(s.history, c);
      assert i == ask;
    }
  }

  /** The step is a labelled death that nothing excuses. */
  predicate Crash(s: State, step: Step) {
    step.Die? && step.sandbox != "" && !Due(s.history, step.c, s.clock)
  }

  /** A crash is held on to, whatever is asked or cleared meanwhile, until it is marked. */
  lemma {:induction false} CrashAwaitsMark(states: seq<State>, steps: seq<Step>, n: nat, m: nat)
    requires Run(states, steps) && n < m < |states| && Crash(states[n], steps[n])
    requires forall k :: n < k < m ==> steps[k] != Mark
    ensures states[m].marking == Some(steps[n].sandbox)
    decreases m
  {
    assert Possible(states[m - 1], steps[m - 1]) && states[m] == Apply(states[m - 1], steps[m - 1]);
    if m == n + 1 {
      RunInv(states, steps, n);
      SweptAnswersAlike(states[n], steps[n].c);
    } else {
      CrashAwaitsMark(states, steps, n, m - 1);
    }
  }

  /** Once marked, its sandbox stays marked until the mark is cleared. */
  lemma {:induction false} CrashStaysMarked(states: seq<State>, steps: seq<Step>, n: nat, q: nat, m: nat)
    requires Run(states, steps) && n < q < m < |states| && Crash(states[n], steps[n])
    requires steps[q] == Mark && forall k :: n < k < q ==> steps[k] != Mark
    requires forall k :: q < k < m ==> steps[k] != Clear(steps[n].sandbox)
    ensures steps[n].sandbox in states[m].restarted
    decreases m
  {
    assert states[m] == Apply(states[m - 1], steps[m - 1]);
    if m == q + 1 {
      CrashAwaitsMark(states, steps, n, q);
    } else {
      CrashStaysMarked(states, steps, n, q, m - 1);
    }
  }

  /** What is being marked goes back to the last death, a crash. */
  lemma {:induction false} MarkingHasCrash(states: seq<State>, steps: seq<Step>, m: nat) returns (n: nat)
    requires Run(states, steps) && m < |states| && states[m].marking.Some?
    ensures n < m && Crash(states[n], steps[n]) && steps[n].sandbox == states[m].marking.value
    ensures forall k :: n < k < m ==> steps[k] != Mark
  {
    assert m > 0;
    assert Possible(states[m - 1], steps[m - 1]) && states[m] == Apply(states[m - 1], steps[m - 1]);
    if steps[m - 1].Die? {
      n := m - 1;
      RunInv(states, steps, n);
      SweptAnswersAlike(states[n], steps[n].c);
    } else {
      n := MarkingHasCrash(states, steps, m - 1);
    }
  }

  /** And nothing else marks one: a crash, then its mark, with no clearing since that mark. */
  lemma {:induction false} MarkedOnlyByCrash(states: seq<State>, steps: seq<Step>, m: nat, sandbox: SandboxId)
    returns (n: nat, q: nat)
    requires Run(states, steps) && m < |states| && sandbox in states[m].restarted
    ensures n < q < m && Crash(states[n], steps[n]) && steps[n].sandbox == sandbox
    ensures steps[q] == Mark && forall k :: n < k < q ==> steps[k] != Mark
    ensures forall k :: q < k < m ==> steps[k] != Clear(sandbox)
  {
    assert m > 0;
    assert Possible(states[m - 1], steps[m - 1]) && states[m] == Apply(states[m - 1], steps[m - 1]);
    if sandbox in states[m - 1].restarted && steps[m - 1] != Clear(sandbox) {
      n, q := MarkedOnlyByCrash(states, steps, m - 1, sandbox);
    } else {
      q := m - 1;
      n := MarkingHasCrash(states, steps, q);
    }
  }
}
