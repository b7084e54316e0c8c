/**
 * The idle sweeper of the API server, racing the requests that create, use and
 * delete the same sandboxes.
 *
 * A sweep reads the clock once, lists candidate rows, and later takes each
 * candidate's lock and reads the row again. The row read under the lock may be
 * another sandbox: the id can be deleted and created anew in between.
 */
module IdleSweep {

  type Id = nat

  const SECOND: nat := 1_000_000_000
  const MAX_INT64: nat := 9_223_372_036_854_775_807

  // ---------------------------------------------------------------------------
  // Windows, in whole seconds, and the request fence.

  /** The three durations, in nanoseconds, as the configuration loads them. */
  datatype Config = Config(idleStop: nat, idleDelete: nat, buffer: nat)

  /** Loading forces a positive buffer whenever a window is set. */
  predicate Loaded(cfg: Config) {
    && cfg.idleStop <= MAX_INT64 && cfg.idleDelete <= MAX_INT64 && cfg.buffer <= MAX_INT64
    && (cfg.idleStop > 0 || cfg.idleDelete > 0 ==> cfg.buffer > 0)
  }

  function Seconds(d: nat): (secs: nat)
    // The least whole number of seconds that is not shorter than d.
    ensures forall n: nat :: d <= n * SECOND <==> secs <= n
  {
    var secs := d / SECOND;
    assert d == secs * SECOND + d % SECOND;
    if d % SECOND != 0 then secs + 1 else secs
  }

  /** No sum of a time and a window, nor the division itself, leaves int64. */
  lemma SecondsFit(d: nat, at: int)
    requires d <= MAX_INT64 && 0 <= at <= MAX_INT64 - 9_223_372_037
    ensures Seconds(d) <= 9_223_372_037
    ensures at + Seconds(d) <= MAX_INT64
    ensures Seconds(d) > 0 <==> d > 0
  {
    assert d <= 9_223_372_037 * SECOND;
    assert d <= 0 * SECOND <==> Seconds(d) <= 0;
  }

  function EphemeralWindow(cfg: Config): (d: nat) {
    if cfg.idleStop > 0 then cfg.idleStop else cfg.idleDelete
  }

  datatype Row = Row(ephemeral: bool, running: bool, lastActive: int)

  /** The requests' fence: past it a sandbox is not found, whatever its row says. */
  predicate PastWindow(cfg: Config, row: Row, now: int) {
    var window := if row.ephemeral then EphemeralWindow(cfg) else cfg.idleDelete;
    window > 0 && now > row.lastActive + Seconds(window)
  }

  // ---------------------------------------------------------------------------
  // The phases of a sweep.

  datatype Phase = StopPhase | DeletePhase | EphemeralPhase

  predicate Enabled(cfg: Config, phase: Phase) {
    match phase
    case StopPhase => cfg.idleStop > 0
    case DeletePhase => cfg.idleDelete > 0
    case EphemeralPhase => EphemeralWindow(cfg) > 0
  }

  function Cutoff(cfg: Config, phase: Phase, now: int): (cut: int) {
    match phase
    case StopPhase => now - Seconds(cfg.idleStop)
    case DeletePhase => now - Seconds(cfg.idleDelete) - Seconds(cfg.buffer)
    case EphemeralPhase => now - Seconds(EphemeralWindow(cfg)) - Seconds(cfg.buffer)
  }

  /** The check made again on the row read under the lock; it ignores `ephemeral`. */
  predicate StillDue(cfg: Config, phase: Phase, now: int, row: Row) {
    row.running == !phase.DeletePhase? && row.lastActive <= Cutoff(cfg, phase, now)
  }

  /** The store query that lists the candidates of a phase. */
  predicate Matches(cfg: Config, phase: Phase, now: int, row: Row) {
    && StillDue(cfg, phase, now, row)
    && (phase.StopPhase? ==> !row.ephemeral)
    && (phase.EphemeralPhase? ==> row.ephemeral)
  }

  function Listed(cfg: Config, phase: Phase, now: int, rows: map<Id, Row>): (ids: set<Id>) {
    set id | id in rows && Matches(cfg, phase, now, rows[id])
  }

  /** The store writes that follow a runner call that succeeded. */
  function Settle(phase: Phase, rows: map<Id, Row>, id: Id): (r: map<Id, Row>) {
    if phase.StopPhase? then
      if id in rows then rows[id := rows[id].(running := false)] else rows
    else rows - {id}
  }

  /** One candidate: lock, read again, call the runner, write the outcome. */
  class SandboxTable {
    var rows: map<Id, Row>

    method Candidate(cfg: Config, phase: Phase, now: int, id: Id, reached: bool) returns (called: bool)
      modifies this
      ensures called <==> id in old(rows) && StillDue(cfg, phase, now, old(rows)[id])
      ensures rows == if called && reached then Settle(phase, old(rows), id) else old(rows)
      ensures called && reached ==>
        && rows - {id} == old(rows) - {id}
        && if phase.StopPhase? then id in rows && rows[id] == old(rows)[id].(running := false) else id !in rows
    {
      called := false;
      if id !in rows { return; }
      var rec := rows[id];
      if rec.running != !phase.DeletePhase? || rec.lastActive > Cutoff(cfg, phase, now) { return; }
      called := true;
      if !reached { return; }
      if phase.StopPhase? {
        rows := rows[id := rec.(running := false)];
      } else {
        rows := rows - {id};
      }
    }
  }

  // ---------------------------------------------------------------------------
  // The machine.

  datatype Option<T> = None | Some(value: T)

  /** What the holder of a sandbox's lock is doing. */
  datatype Holder =
    | Acting(phase: Phase)                            // a sweep, its runner call in flight
    | Replacing(ephemeral: bool)                      // a create, deleting the expired row first
    | Creating(ephemeral: bool, at: Option<int>)      // a create, before or after it reads the clock
    | Removing                                        // a delete request

  datatype Sweep = Sweep(phase: Phase, now: int, listed: set<Id>)

  /** A proxied response, between reading the clock and its write to the row. */
  datatype Mark = Mark(id: Id, at: int)

  /** A delete the sweeper sent to a runner: its sweep's time and the row it re-read. */
  datatype Issue = Issue(now: int, row: Row)

  datatype State = State(
    clock: int,
    rows: map<Id, Row>,
    held: map<Id, Holder>,
    sweeps: seq<Sweep>,
    marks: seq<Mark>,
    deletes: seq<Issue>)

  datatype Step =
    | Tick(t: int)
    | List(phase: Phase, now: int)
    | Act(p: nat, id: Id)
    | Finish(id: Id)
    | BeginCreate(id: Id, ephemeral: bool)
    | Replaced(id: Id)
    | Stamp(id: Id)
    | Save(id: Id)
    | BeginRemove(id: Id)
    | Removed(id: Id)
    | Abort(id: Id)
    | Drop(id: Id)
    | Observe(id: Id)
    | Touch(m: nat)
    | MarkRunning(id: Id)

  predicate Possible(cfg: Config, s: State, step: Step) {
    match step
    case Tick(t) => s.clock <= t
    case List(phase, now) => Enabled(cfg, phase) && now <= s.clock
    case Act(p, id) => p < |s.sweeps| && id in s.sweeps[p].listed && id !in s.held
    case Finish(id) => id in s.held && s.held[id].Acting?
    case BeginCreate(id, _) => id !in s.held && (id in s.rows ==> PastWindow(cfg, s.rows[id], s.clock))
    case Replaced(id) => id in s.held && s.held[id].Replacing?
    case Stamp(id) => id in s.held && s.held[id].Creating? && s.held[id].at.None?
    case Save(id) => id in s.held && s.held[id].Creating? && s.held[id].at.Some?
    case BeginRemove(id) => id !in s.held
    case Removed(id) => id in s.held && s.held[id].Removing?
    case Abort(id) => id in s.held
    case Drop(id) => true
    case Observe(id) => true
    case Touch(m) => m < |s.marks|
    case MarkRunning(id) => true
  }

  function DoAct(cfg: Config, s: State, p: nat, id: Id): (s': State)
    requires p < |s.sweeps|
  {
    var sw := s.sweeps[p];
    if id in s.rows && StillDue(cfg, sw.phase, sw.now, s.rows[id]) then
      s.(held := s.held[id := Acting(sw.phase)],
         deletes := if sw.phase.StopPhase? then s.deletes else s.deletes + [Issue(sw.now, s.rows[id])])
    else s
  }

  function DoTouch(s: State, m: nat): (s': State)
    requires m < |s.marks|
  {
    var mark := s.marks[m];
    if mark.id in s.rows
    then s.(rows := s.rows[mark.id := s.rows[mark.id].(lastActive := mark.at)])
    else s
  }

  function Apply(cfg: Config, s: State, step: Step): (s': State)
    requires Possible(cfg, s, step)
  {
    match step
    case Tick(t) => s.(clock := t)
    case List(phase, now) => s.(sweeps := s.sweeps + [Sweep(phase, now, Listed(cfg, phase, now, s.rows))])
    case Act(p, id) => DoAct(cfg, s, p, id)
    case Finish(id) => s.(rows := Settle(s.held[id].phase, s.rows, id), held := s.held - {id})
    case BeginCreate(id, ephemeral) =>
      s.(held := s.held[id := if id in s.rows then Replacing(ephemeral) else Creating(ephemeral, None)])
    case Replaced(id) => s.(rows := s.rows - {id}, held := s.held[id := Creating(s.held[id].ephemeral, None)])
    case Stamp(id) => s.(held := s.held[id := s.held[id].(at := Some(s.clock))])
    case Save(id) =>
      s.(rows := s.rows[id := Row(s.held[id].ephemeral, true, s.held[id].at.value)], held := s.held - {id})
    case BeginRemove(id) => s.(held := s.held[id := Removing])
    case Removed(id) => s.(rows := s.rows - {id}, held := s.held - {id})
    case Abort(id) => s.(held := s.held - {id})
    case Drop(id) => s.(rows := s.rows - {id})
    case Observe(id) => s.(marks := s.marks + [Mark(id, s.clock)])
    case Touch(m) => DoTouch(s, m)
    case MarkRunning(id) => if id in s.rows then s.(rows := s.rows[id := s.rows[id].(running := true)]) else s
  }

  const EMPTY: State := State(0, map[], map[], [], [], [])

  predicate Run(cfg: Config, states: seq<State>, steps: seq<Step>) {
    && |states| == |steps| + 1
    && states[0] == EMPTY.(clock := states[0].clock)
    && forall i :: 0 <= i < |steps| ==>
         Possible(cfg, states[i], steps[i]) && states[i + 1] == Apply(cfg, states[i], steps[i])
  }

  // ---------------------------------------------------------------------------
  // How late an activity write may land after it read the clock.

  /** Any lateness at all, or fewer than l seconds. */
  datatype Bound = Any | Below(l: int)

  predicate Timely(b: Bound, s: State, step: Step) {
    step.Touch? && step.m < |s.marks| && b.Below? ==> s.clock < s.marks[step.m].at + b.l
  }

  predicate TimelyRun(b: Bound, states: seq<State>, steps: seq<Step>)
    requires |states| == |steps| + 1
  {
    forall i :: 0 <= i < |steps| ==> Timely(b, states[i], steps[i])
  }

  /** No write is late enough to make the stop phase stop a re-created ephemeral sandbox. */
  predicate StopSafe(cfg: Config, b: Bound) {
    cfg.idleStop == 0 || (b.Below? && b.l <= Seconds(cfg.idleStop))
  }

  /** No write is late enough to make the ephemeral phase delete a re-created lasting sandbox. */
  predicate KindSafe(cfg: Config, b: Bound) {
    b.Below? && b.l <= Seconds(EphemeralWindow(cfg)) + Seconds(cfg.buffer)
  }

  /**
   * Windows so close together, compared with the buffer, that a row which one kind's
   * phase may delete is past the other kind's window too.
   */
  predicate WindowsAgree(cfg: Config) {
    var w, d, n := Seconds(cfg.idleStop), Seconds(cfg.idleDelete), Seconds(cfg.buffer);
    cfg.idleStop == 0 || (cfg.idleDelete > 0 && d + n > w && w + n > d)
  }

  /** With other windows, the lateness from which a delete can come before the fence. */
  function Patience(cfg: Config): (l: nat) {
    var w, d, n := Seconds(cfg.idleStop), Seconds(cfg.idleDelete), Seconds(cfg.buffer);
    if cfg.idleDelete > 0 && d + n <= w then w else w + n
  }

  predicate FenceSafe(cfg: Config, b: Bound) {
    WindowsAgree(cfg) || (b.Below? && b.l <= Patience(cfg))
  }

  // ---------------------------------------------------------------------------
  // The invariant.

  /** An ephemeral sandbox is never recorded as stopped. */
  predicate NeverStopped(rows: map<Id, Row>) {
    forall id :: id in rows && rows[id].ephemeral ==> rows[id].running
  }

  /** A create that holds the lock has seen its id unused. */
  predicate CreatesOk(s: State) {
    forall id :: id in s.held && s.held[id].Creating? ==> id !in s.rows
  }

  /** A stop in flight is on a lasting sandbox. */
  predicate StopsOk(s: State) {
    forall id :: id in s.held && s.held[id] == Acting(StopPhase) && id in s.rows ==> !s.rows[id].ephemeral
  }

  /** Whether a row of this kind is one the phase lists. */
  predicate Wanted(phase: Phase, ephemeral: bool) {
    (phase.StopPhase? ==> !ephemeral) && (phase.EphemeralPhase? ==> ephemeral)
  }

  /** Whether the bound keeps rows of the other kind out of the phase's reach. */
  predicate Guarded(cfg: Config, b: Bound, phase: Phase) {
    (phase.StopPhase? && StopSafe(cfg, b)) || (phase.EphemeralPhase? && KindSafe(cfg, b))
  }

  /** A create about to save, or a row that took over a listed id, is too recent for the sweep. */
  predicate SweepOk(cfg: Config, b: Bound, s: State, sw: Sweep) {
    && Enabled(cfg, sw.phase) && sw.now <= s.clock
    && (forall id :: id in sw.listed && id in s.held && s.held[id].Creating? && s.held[id].at.Some? ==>
          s.held[id].at.value > Cutoff(cfg, sw.phase, sw.now))
    && (Guarded(cfg, b, sw.phase) ==>
          forall id :: id in sw.listed && id in s.rows && !Wanted(sw.phase, s.rows[id].ephemeral) ==>
            s.rows[id].lastActive > Cutoff(cfg, sw.phase, sw.now))
  }

  predicate SweepsOk(cfg: Config, b: Bound, s: State) {
    forall p :: 0 <= p < |s.sweeps| ==> SweepOk(cfg, b, s, s.sweeps[p])
  }

  /** The fence refuses the record at every time from the sweep's on. */
  ghost predicate Fenced(cfg: Config, issue: Issue) {
    forall t :: t >= issue.now ==> PastWindow(cfg, issue.row, t)
  }

  ghost predicate DeletesOk(cfg: Config, s: State) {
    forall d :: 0 <= d < |s.deletes| ==> Fenced(cfg, s.deletes[d])
  }

  ghost predicate Inv(cfg: Config, b: Bound, s: State) {
    && CreatesOk(s) && SweepsOk(cfg, b, s)
    && (StopSafe(cfg, b) ==> NeverStopped(s.rows) && StopsOk(s))
    && (FenceSafe(cfg, b) ==> DeletesOk(cfg, s))
  }

  // ---------------------------------------------------------------------------
  // Preservation.

  lemma Positive(d: nat)
    ensures Seconds(d) > 0 <==> d > 0
  {
    assert d <= 0 * SECOND <==> Seconds(d) <= 0;
  }

  lemma ClockIsPastCutoff(cfg: Config, phase: Phase, now: int, clock: int)
    requires Loaded(cfg) && Enabled(cfg, phase) && now <= clock
    ensures clock > Cutoff(cfg, phase, now)
  {
    Positive(cfg.idleStop);
    Positive(cfg.idleDelete);
    Positive(cfg.buffer);
  }

  /** A row that passes the locked check is of the kind its phase listed, where the bound guards the phase. */
  lemma DueIsWanted(cfg: Config, b: Bound, s: State, p: nat, id: Id)
    requires SweepsOk(cfg, b, s)
    requires p < |s.sweeps| && id in s.sweeps[p].listed && id in s.rows
    requires Guarded(cfg, b, s.sweeps[p].phase) && StillDue(cfg, s.sweeps[p].phase, s.sweeps[p].now, s.rows[id])
    ensures Wanted(s.sweeps[p].phase, s.rows[id].ephemeral)
  {
    assert SweepOk(cfg, b, s, s.sweeps[p]);
  }

  /** A due row is fenced from the sweep's time on, if it is of the phase's kind or the windows agree. */
  lemma DueIsFenced(cfg: Config, phase: Phase, now: int, row: Row)
    requires Loaded(cfg) && Enabled(cfg, phase) && !phase.StopPhase? && StillDue(cfg, phase, now, row)
    requires
      || (phase.EphemeralPhase? <==> row.ephemeral)
      || (phase.DeletePhase? && Seconds(cfg.idleDelete) + Seconds(cfg.buffer) > Seconds(EphemeralWindow(cfg)))
      || (phase.EphemeralPhase? && cfg.idleDelete > 0
          && Seconds(EphemeralWindow(cfg)) + Seconds(cfg.buffer) > Seconds(cfg.idleDelete))
    ensures Fenced(cfg, Issue(now, row))
  {
    Positive(cfg.buffer);
  }

  /** Every delete a sweep sends is fenced, under a bound that keeps the fence. */
  lemma SentIsFenced(cfg: Config, b: Bound, s: State, p: nat, id: Id)
    requires Loaded(cfg) && Inv(cfg, b, s) && FenceSafe(cfg, b)
    requires p < |s.sweeps| && id in s.sweeps[p].listed && id in s.rows && !s.sweeps[p].phase.StopPhase?
    requires StillDue(cfg, s.sweeps[p].phase, s.sweeps[p].now, s.rows[id])
    ensures Fenced(cfg, Issue(s.sweeps[p].now, s.rows[id]))
  {
    var sw := s.sweeps[p];
    assert SweepOk(cfg, b, s, sw);
    Positive(cfg.buffer);
    if Guarded(cfg, b, sw.phase) { DueIsWanted(cfg, b, s, p, id); }
    DueIsFenced(cfg, sw.phase, sw.now, s.rows[id]);
  }

  lemma ActKeeps(cfg: Config, b: Bound, s: State, p: nat, id: Id)
    requires Loaded(cfg) && Inv(cfg, b, s) && Possible(cfg, s, Act(p, id))
    ensures Inv(cfg, b, DoAct(cfg, s, p, id))
  {
    var s' := DoAct(cfg, s, p, id);
    var sw := s.sweeps[p];
    if id in s.rows && StillDue(cfg, sw.phase, sw.now, s.rows[id]) {
      if Guarded(cfg, b, sw.phase) { DueIsWanted(cfg, b, s, p, id); }
      if !sw.phase.StopPhase? && FenceSafe(cfg, b) { SentIsFenced(cfg, b, s, p, id); }
      hide Fenced, StillDue, FenceSafe, StopSafe;
      forall q | 0 <= q < |s'.sweeps| ensures SweepOk(cfg, b, s', s'.sweeps[q]) {
        assert SweepOk(cfg, b, s, s.sweeps[q]);
      }
    }
  }

  /** A freshly listed sweep holds: no listed id has been taken over yet. */
  lemma ListKeeps(cfg: Config, b: Bound, s: State, phase: Phase, now: int)
    requires Loaded(cfg) && Inv(cfg, b, s) && Possible(cfg, s, List(phase, now))
    ensures Inv(cfg, b, Apply(cfg, s, List(phase, now)))
  {
    var s' := Apply(cfg, s, List(phase, now));
    hide Fenced, FenceSafe, StopSafe;
    forall q | 0 <= q < |s'.sweeps| ensures SweepOk(cfg, b, s', s'.sweeps[q]) {
      if q < |s.sweeps| { assert SweepOk(cfg, b, s, s.sweeps[q]); }
    }
  }

  lemma StampKeeps(cfg: Config, b: Bound, s: State, id: Id)
    requires Loaded(cfg) && Inv(cfg, b, s) && Possible(cfg, s, Stamp(id))
    ensures Inv(cfg, b, Apply(cfg, s, Stamp(id)))
  {
    var s' := Apply(cfg, s, Stamp(id));
    hide Fenced, FenceSafe, StopSafe;
    forall q | 0 <= q < |s'.sweeps| ensures SweepOk(cfg, b, s', s'.sweeps[q]) {
      assert SweepOk(cfg, b, s, s.sweeps[q]);
      ClockIsPastCutoff(cfg, s.sweeps[q].phase, s.sweeps[q].now, s.clock);
    }
  }

  /** A timely stamp is past the cutoff of every guarded sweep. */
  lemma TimelyIsPastCutoff(cfg: Config, b: Bound, phase: Phase, now: int, clock: int, at: int)
    requires Enabled(cfg, phase) && Guarded(cfg, b, phase) && now <= clock
    requires b.Below? ==> clock < at + b.l
    ensures at > Cutoff(cfg, phase, now)
  { }

  lemma TouchKeeps(cfg: Config, b: Bound, s: State, m: nat)
    requires Loaded(cfg) && Inv(cfg, b, s) && Possible(cfg, s, Touch(m)) && Timely(b, s, Touch(m))
    ensures Inv(cfg, b, DoTouch(s, m))
  {
    var s' := DoTouch(s, m);
    hide Fenced, FenceSafe, StopSafe, Guarded;
    forall q | 0 <= q < |s'.sweeps| ensures SweepOk(cfg, b, s', s'.sweeps[q]) {
      var sw := s.sweeps[q];
      assert SweepOk(cfg, b, s, sw);
      if Guarded(cfg, b, sw.phase) { TimelyIsPastCutoff(cfg, b, sw.phase, sw.now, s.clock, s.marks[m].at); }
    }
  }

  /** Rows only lose entries or change status, locks only move away from creates: nothing to recheck. */
  lemma QuietKeeps(cfg: Config, b: Bound, s: State, s': State)
    requires Inv(cfg, b, s)
    requires s'.sweeps == s.sweeps && s'.deletes == s.deletes && s.clock <= s'.clock
    requires CreatesOk(s') && (StopSafe(cfg, b) ==> NeverStopped(s'.rows) && StopsOk(s'))
    requires forall id :: id in s'.rows ==>
      id in s.rows && s'.rows[id].ephemeral == s.rows[id].ephemeral && s'.rows[id].lastActive == s.rows[id].lastActive
    requires forall id :: id in s'.held && s'.held[id].Creating? && s'.held[id].at.Some? ==>
      id in s.held && s'.held[id] == s.held[id]
    ensures Inv(cfg, b, s')
  {
    hide Fenced, FenceSafe, StopSafe;
    forall q | 0 <= q < |s'.sweeps| ensures SweepOk(cfg, b, s', s'.sweeps[q]) {
      assert SweepOk(cfg, b, s, s.sweeps[q]);
    }
  }

  lemma SaveKeeps(cfg: Config, b: Bound, s: State, id: Id)
    requires Inv(cfg, b, s) && Possible(cfg, s, Save(id))
    ensures Inv(cfg, b, Apply(cfg, s, Save(id)))
  {
    var s' := Apply(cfg, s, Save(id));
    hide Fenced, FenceSafe, StopSafe;
    forall q | 0 <= q < |s'.sweeps| ensures SweepOk(cfg, b, s', s'.sweeps[q]) {
      assert SweepOk(cfg, b, s, s.sweeps[q]);
    }
  }

  lemma StepKeeps(cfg: Config, b: Bound, s: State, step: Step)
    requires Loaded(cfg) && Inv(cfg, b, s) && Possible(cfg, s, step) && Timely(b, s, step)
    ensures Inv(cfg, b, Apply(cfg, s, step))
  {
    match step
    case Act(p, id) => ActKeeps(cfg, b, s, p, id);
    case List(phase, now) => ListKeeps(cfg, b, s, phase, now);
    case Stamp(id) => StampKeeps(cfg, b, s, id);
    case Touch(m) => TouchKeeps(cfg, b, s, m);
    case Save(id) => SaveKeeps(cfg, b, s, id);
    case _ => OtherKeeps(cfg, b, s, step);
  }

  lemma OtherKeeps(cfg: Config, b: Bound, s: State, step: Step)
    requires Inv(cfg, b, s) && Possible(cfg, s, step)
    requires !step.Act? && !step.List? && !step.Stamp? && !step.Touch? && !step.Save?
    ensures Inv(cfg, b, Apply(cfg, s, step))
  {
    hide SweepsOk, DeletesOk, FenceSafe, StopSafe;
    QuietKeeps(cfg, b, s, Apply(cfg, s, step));
  }

  lemma {:induction false} RunInv(cfg: Config, b: Bound, states: seq<State>, steps: seq<Step>, i: nat)
    requires Loaded(cfg) && Run(cfg, states, steps) && TimelyRun(b, states, steps) && i < |states|
    ensures Inv(cfg, b, states[i])
  {
    if i > 0 {
      RunInv(cfg, b, states, steps, i - 1);
      assert Timely(b, states[i - 1], steps[i - 1]);
      StepKeeps(cfg, b, states[i - 1], steps[i - 1]);
    }
  }

  // ---------------------------------------------------------------------------
  // The promises, and how far they reach.

  lemma EphemeralNeverStops(cfg: Config, b: Bound, states: seq<State>, steps: seq<Step>, i: nat, id: Id)
    requires Loaded(cfg) && StopSafe(cfg, b)
    requires Run(cfg, states, steps) && TimelyRun(b, states, steps) && i < |states|
    requires id in states[i].rows && states[i].rows[id].ephemeral
    ensures states[i].rows[id].running
  {
    RunInv(cfg, b, states, steps, i);
  }

  /** The fence is up before, and stays up after, every delete the sweeper sends. */
  lemma DeletesAreFenced(cfg: Config, b: Bound, states: seq<State>, steps: seq<Step>, i: nat, d: nat, t: int)
    requires Loaded(cfg) && FenceSafe(cfg, b)
    requires Run(cfg, states, steps) && TimelyRun(b, states, steps) && i < |states|
    requires d < |states[i].deletes| && t >= states[i].deletes[d].now
    ensures PastWindow(cfg, states[i].deletes[d].row, t)
  {
    RunInv(cfg, b, states, steps, i);
    assert Fenced(cfg, states[i].deletes[d]);
  }

  /** In every run, however late its writes, where the windows agree. */
  lemma DeletesAlwaysFenced(cfg: Config, states: seq<State>, steps: seq<Step>, i: nat, d: nat, t: int)
    requires Loaded(cfg) && WindowsAgree(cfg) && Run(cfg, states, steps) && i < |states|
    requires d < |states[i].deletes| && t >= states[i].deletes[d].now
    ensures PastWindow(cfg, states[i].deletes[d].row, t)
  {
    DeletesAreFenced(cfg, Any, states, steps, i, d, t);
  }

  /** With idle stop disabled nothing is ever recorded as stopped. */
  lemma {:induction false} NoStopPhase(cfg: Config, states: seq<State>, steps: seq<Step>, i: nat)
    requires cfg.idleStop == 0 && Run(cfg, states, steps) && i < |states|
    ensures forall id :: id in states[i].rows ==> states[i].rows[id].running
    ensures forall p :: 0 <= p < |states[i].sweeps| ==> !states[i].sweeps[p].phase.StopPhase?
    ensures forall id :: id in states[i].held ==> states[i].held[id] != Acting(StopPhase)
  {
    if i > 0 {
      NoStopPhase(cfg, states, steps, i - 1);
      assert states[i] == Apply(cfg, states[i - 1], steps[i - 1]);
    }
  }

  /** No run with writes within the bound ever records an ephemeral sandbox as stopped. */
  ghost predicate NeverStopsWithin(cfg: Config, b: Bound) {
    forall states: seq<State>, steps: seq<Step>, i ::
      Run(cfg, states, steps) && TimelyRun(b, states, steps) && 0 <= i < |states| ==>
      NeverStopped(states[i].rows)
  }

  /** Every delete of every run with writes within the bound is fenced. */
  ghost predicate FencedWithin(cfg: Config, b: Bound) {
    forall states: seq<State>, steps: seq<Step>, i ::
      Run(cfg, states, steps) && TimelyRun(b, states, steps) && 0 <= i < |states| ==>
      DeletesOk(cfg, states[i])
  }

  /** Exactly how late writes may be before an ephemeral sandbox can be stopped. */
  lemma NeverStopsIff(cfg: Config, b: Bound)
    requires Loaded(cfg)
    ensures NeverStopsWithin(cfg, b) <==> StopSafe(cfg, b)
  {
    if StopSafe(cfg, b) {
      forall states: seq<State>, steps: seq<Step>, i |
        Run(cfg, states, steps) && TimelyRun(b, states, steps) && 0 <= i < |states|
        ensures NeverStopped(states[i].rows)
      {
        RunInv(cfg, b, states, steps, i);
      }
    } else {
      var states, steps := LateTouchStops(cfg);
      LateIsTimely(cfg, b, states, steps, Seconds(cfg.idleStop));
      assert !NeverStopped(states[|steps|].rows);
    }
  }

  /** Exactly which windows, and otherwise how late writes may be, keep every delete behind the fence. */
  lemma FencedIff(cfg: Config, b: Bound)
    requires Loaded(cfg)
    ensures FencedWithin(cfg, b) <==> FenceSafe(cfg, b)
  {
    if FenceSafe(cfg, b) {
      forall states: seq<State>, steps: seq<Step>, i |
        Run(cfg, states, steps) && TimelyRun(b, states, steps) && 0 <= i < |states|
        ensures DeletesOk(cfg, states[i])
      {
        RunInv(cfg, b, states, steps, i);
      }
    } else {
      var states, steps := UnfencedDelete(cfg);
      LateIsTimely(cfg, b, states, steps, Patience(cfg));
      assert !DeletesOk(cfg, states[|steps|]);
    }
  }

  // ---------------------------------------------------------------------------
  // The runs that show the bounds are tight.

  /** Every activity write of the run lands exactly l seconds late. */
  predicate LateBy(l: int, states: seq<State>, steps: seq<Step>)
    requires |states| == |steps| + 1
  {
    forall i :: 0 <= i < |steps| && steps[i].Touch? ==>
      steps[i].m < |states[i].marks| && states[i].clock == states[i].marks[steps[i].m].at + l
  }

  lemma LateIsTimely(cfg: Config, b: Bound, states: seq<State>, steps: seq<Step>, l: int)
    requires Run(cfg, states, steps) && LateBy(l, states, steps) && (b.Below? ==> l < b.l)
    ensures TimelyRun(b, states, steps)
  { }

  /** One step at the end of a run. */
  lemma Extend(cfg: Config, states: seq<State>, steps: seq<Step>, step: Step, l: int)
    returns (more: seq<State>, all: seq<Step>)
    requires Run(cfg, states, steps) && Possible(cfg, states[|steps|], step) && LateBy(l, states, steps)
    requires step.Touch? ==> states[|steps|].clock == states[|steps|].marks[step.m].at + l
    ensures Run(cfg, more, all) && LateBy(l, more, all) && all == steps + [step]
    ensures more == states + [Apply(cfg, states[|steps|], step)]
  {
    more, all := states + [Apply(cfg, states[|steps|], step)], steps + [step];
  }

  /** A sandbox saved at time 0, an activity mark of that time, and l seconds gone by. */
  lemma Aged(cfg: Config, ephemeral: bool, l: nat) returns (states: seq<State>, steps: seq<Step>)
    ensures Run(cfg, states, steps) && LateBy(l, states, steps)
    ensures states[|steps|] == State(l, map[0 := Row(ephemeral, true, 0)], map[], [], [Mark(0, 0)], [])
  {
    states, steps := [EMPTY], [];
    states, steps := Extend(cfg, states, steps, BeginCreate(0, ephemeral), l);
    states, steps := Extend(cfg, states, steps, Stamp(0), l);
    states, steps := Extend(cfg, states, steps, Save(0), l);
    states, steps := Extend(cfg, states, steps, Observe(0), l);
    states, steps := Extend(cfg, states, steps, Tick(l), l);
    assert states[|steps|].held == map[];
  }

  /** The id listed by a phase, then deleted by a request. */
  lemma Retired(cfg: Config, phase: Phase, l: nat) returns (states: seq<State>, steps: seq<Step>)
    requires !phase.DeletePhase? && Enabled(cfg, phase) && Cutoff(cfg, phase, l) == 0
    ensures Run(cfg, states, steps) && LateBy(l, states, steps)
    ensures states[|steps|] == State(l, map[], map[], [Sweep(phase, l, {0})], [Mark(0, 0)], [])
  {
    states, steps := Aged(cfg, phase.EphemeralPhase?, l);
    assert Listed(cfg, phase, l, states[|steps|].rows) == {0};
    states, steps := Extend(cfg, states, steps, List(phase, l), l);
    states, steps := Extend(cfg, states, steps, BeginRemove(0), l);
    states, steps := Extend(cfg, states, steps, Removed(0), l);
    assert states[|steps|].held == map[] && states[|steps|].rows == map[];
  }

  /** The same id created anew as the other kind, and given the old mark. */
  lemma Recreated(cfg: Config, phase: Phase, l: nat) returns (states: seq<State>, steps: seq<Step>)
    requires !phase.DeletePhase? && Enabled(cfg, phase) && Cutoff(cfg, phase, l) == 0
    ensures Run(cfg, states, steps) && LateBy(l, states, steps)
    ensures states[|steps|]
      == State(l, map[0 := Row(phase.StopPhase?, true, 0)], map[], [Sweep(phase, l, {0})], [Mark(0, 0)], [])
  {
    states, steps := Retired(cfg, phase, l);
    hide Run, LateBy, Listed;
    states, steps := Extend(cfg, states, steps, BeginCreate(0, phase.StopPhase?), l);
    states, steps := Extend(cfg, states, steps, Stamp(0), l);
    states, steps := Extend(cfg, states, steps, Save(0), l);
    assert states[|steps|].held == map[];
    states, steps := Extend(cfg, states, steps, Touch(0), l);
  }

  /** With idle stop enabled, one write a whole stop window late stops an ephemeral sandbox. */
  lemma LateTouchStops(cfg: Config) returns (states: seq<State>, steps: seq<Step>)
    requires cfg.idleStop > 0
    ensures Run(cfg, states, steps) && LateBy(Seconds(cfg.idleStop), states, steps)
    ensures var w := Seconds(cfg.idleStop);
      states[|steps|] == State(w, map[0 := Row(true, false, 0)], map[], [Sweep(StopPhase, w, {0})], [Mark(0, 0)], [])
    ensures !NeverStopped(states[|steps|].rows)
  {
    var w := Seconds(cfg.idleStop);
    states, steps := Recreated(cfg, StopPhase, w);
    states, steps := Extend(cfg, states, steps, Act(0, 0), w);
    states, steps := Extend(cfg, states, steps, Finish(0), w);
    assert states[|steps|].held == map[];
    assert 0 in states[|steps|].rows;
  }

  /** A lasting sandbox with a longer window, or none, deleted by the ephemeral phase. */
  lemma LateTouchDeletes(cfg: Config) returns (states: seq<State>, steps: seq<Step>)
    requires cfg.idleStop > 0
    requires cfg.idleDelete == 0 || Seconds(cfg.idleDelete) >= Seconds(cfg.idleStop) + Seconds(cfg.buffer)
    ensures var l := Seconds(cfg.idleStop) + Seconds(cfg.buffer);
      Run(cfg, states, steps) && LateBy(l, states, steps) && states[|steps|].deletes == [Issue(l, Row(false, true, 0))]
    ensures !Fenced(cfg, states[|steps|].deletes[0])
  {
    var l := Seconds(cfg.idleStop) + Seconds(cfg.buffer);
    states, steps := Recreated(cfg, EphemeralPhase, l);
    states, steps := Extend(cfg, states, steps, Act(0, 0), l);
    assert !PastWindow(cfg, Row(false, true, 0), l);
  }

  /** An ephemeral sandbox that was stopped, deleted by the delete phase of the same sweep. */
  lemma LateTouchDeletesStopped(cfg: Config) returns (states: seq<State>, steps: seq<Step>)
    requires cfg.idleStop > 0 && cfg.idleDelete > 0
    requires Seconds(cfg.idleDelete) + Seconds(cfg.buffer) <= Seconds(cfg.idleStop)
    ensures var w := Seconds(cfg.idleStop);
      Run(cfg, states, steps) && LateBy(w, states, steps) && states[|steps|].deletes == [Issue(w, Row(true, false, 0))]
    ensures !Fenced(cfg, states[|steps|].deletes[0])
  {
    var w := Seconds(cfg.idleStop);
    states, steps := LateTouchStops(cfg);
    assert Listed(cfg, DeletePhase, w, states[|steps|].rows) == {0};
    states, steps := Extend(cfg, states, steps, List(DeletePhase, w), w);
    states, steps := Extend(cfg, states, steps, Act(1, 0), w);
    assert !PastWindow(cfg, Row(true, false, 0), w);
  }

  /** Where the windows do not agree, one write exactly that late has a sandbox deleted before its fence. */
  lemma UnfencedDelete(cfg: Config) returns (states: seq<State>, steps: seq<Step>)
    requires Loaded(cfg) && !WindowsAgree(cfg)
    ensures Run(cfg, states, steps) && LateBy(Patience(cfg), states, steps)
    ensures !DeletesOk(cfg, states[|steps|])
  {
    if cfg.idleDelete > 0 && Seconds(cfg.idleDelete) + Seconds(cfg.buffer) <= Seconds(cfg.idleStop) {
      states, steps := LateTouchDeletesStopped(cfg);
    } else {
      states, steps := LateTouchDeletes(cfg);
    }
    assert !Fenced(cfg, states[|steps|].deletes[0]);
  }

  // ---------------------------------------------------------------------------
  // What a sweep gets done.

  /** Idle for the phase's window, and for the buffer too where it deletes. */
  predicate IdleFor(cfg: Config, phase: Phase, now: int, row: Row) {
    match phase
    case StopPhase => !row.ephemeral && row.running && row.lastActive + Seconds(cfg.idleStop) <= now
    case DeletePhase => !row.running && row.lastActive + Seconds(cfg.idleDelete) + Seconds(cfg.buffer) <= now
    case EphemeralPhase =>
      row.ephemeral && row.running && row.lastActive + Seconds(EphemeralWindow(cfg)) + Seconds(cfg.buffer) <= now
  }

  lemma RunStep(cfg: Config, states: seq<State>, steps: seq<Step>, i: nat)
    requires Run(cfg, states, steps) && i < |steps|
    ensures Possible(cfg, states[i], steps[i]) && states[i + 1] == Apply(cfg, states[i], steps[i])
  { }

  /** A sweep stays as it was listed. */
  lemma SweepStays(cfg: Config, s: State, step: Step, p: nat)
    requires Possible(cfg, s, step) && p < |s.sweeps|
    ensures p < |Apply(cfg, s, step).sweeps| && Apply(cfg, s, step).sweeps[p] == s.sweeps[p]
  { }

  lemma {:induction false} SweepKept(cfg: Config, states: seq<State>, steps: seq<Step>, i: nat, k: nat, p: nat)
    requires Run(cfg, states, steps) && i <= k < |states| && p < |states[i].sweeps|
    ensures p < |states[k].sweeps| && states[k].sweeps[p] == states[i].sweeps[p]
  {
    hide Possible, Apply;
    if i < k {
      SweepKept(cfg, states, steps, i, k - 1, p);
      RunStep(cfg, states, steps, k - 1);
      hide Run;
      SweepStays(cfg, states[k - 1], steps[k - 1], p);
    }
  }

  /** The lock of a sweep's runner call is let go by the call alone. */
  lemma LockStays(cfg: Config, s: State, step: Step, id: Id)
    requires Possible(cfg, s, step) && id in s.held && s.held[id].Acting?
    requires step != Finish(id) && step != Abort(id)
    ensures id in Apply(cfg, s, step).held && Apply(cfg, s, step).held[id] == s.held[id]
  { }

  lemma {:induction false} LockKept(cfg: Config, states: seq<State>, steps: seq<Step>, i: nat, k: nat, id: Id)
    requires Run(cfg, states, steps) && i <= k < |states| && |states| == |steps| + 1
    requires id in states[i].held && states[i].held[id].Acting?
    requires forall j :: i <= j < k ==> steps[j] != Finish(id) && steps[j] != Abort(id)
    ensures id in states[k].held && states[k].held[id] == states[i].held[id]
  {
    hide Possible, Apply;
    if i < k {
      LockKept(cfg, states, steps, i, k - 1, id);
      RunStep(cfg, states, steps, k - 1);
      hide Run;
      LockStays(cfg, states[k - 1], steps[k - 1], id);
    }
  }

  /** A sandbox that was idle for its phase when the sweep listed it, and still is when the
      sweep has its lock, is stopped or deleted: when the runner call has succeeded, the row
      of a stop phase says so and that of a delete phase is gone, whatever happened to it
      meanwhile; no other row changes, and the lock is free. */
  lemma IdleIsSwept(cfg: Config, states: seq<State>, steps: seq<Step>, l: nat, a: nat, f: nat, id: Id)
    requires Run(cfg, states, steps) && |states| == |steps| + 1 && l < a < f < |steps|
    requires steps[l].List? && steps[a] == Act(|states[l].sweeps|, id) && steps[f] == Finish(id)
    requires id in states[l].rows && IdleFor(cfg, steps[l].phase, steps[l].now, states[l].rows[id])
    requires id in states[a].rows && states[a].rows[id] == states[l].rows[id]
    requires forall j :: a < j < f ==> steps[j] != Finish(id) && steps[j] != Abort(id)
    ensures id in states[f].held && states[f].held[id] == Acting(steps[l].phase)
    ensures states[f + 1].rows - {id} == states[f].rows - {id} && id !in states[f + 1].held
    ensures if steps[l].phase.StopPhase?
      then id in states[f].rows ==>
             id in states[f + 1].rows && states[f + 1].rows[id] == states[f].rows[id].(running := false)
      else id !in states[f + 1].rows
  {
    var p := |states[l].sweeps|;
    RunStep(cfg, states, steps, l);
    ListedWhenIdle(cfg, states[l], steps[l].phase, steps[l].now, id);
    RunStep(cfg, states, steps, a);
    RunStep(cfg, states, steps, f);
    SweepKept(cfg, states, steps, l + 1, a, p);
    DueWhenIdle(cfg, steps[l].phase, steps[l].now, states[a].rows[id]);
    LockKept(cfg, states, steps, a + 1, f, id);
    hide Run, StillDue, Listed, IdleFor;
  }

  lemma DueWhenIdle(cfg: Config, phase: Phase, now: int, row: Row)
    requires IdleFor(cfg, phase, now, row)
    ensures StillDue(cfg, phase, now, row)
  { }

  lemma ListedWhenIdle(cfg: Config, s: State, phase: Phase, now: int, id: Id)
    requires Possible(cfg, s, List(phase, now)) && id in s.rows && IdleFor(cfg, phase, now, s.rows[id])
    ensures var sweeps := Apply(cfg, s, List(phase, now)).sweeps;
      |sweeps| == |s.sweeps| + 1 && sweeps[|s.sweeps|].phase == phase && sweeps[|s.sweeps|].now == now
      && id in sweeps[|s.sweeps|].listed
  { }
}
