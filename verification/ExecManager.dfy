/**
 * The daemon's table of executions: one execution per exec_id while it is
 * retained, and a log that runs from "started" to at most one terminal event.
 */
module ExecManager {
  import opened ExecWire
  import ExecStream

  type ExecId = string

  datatype Option<T> = None | Some(value: T)

  // ---------------------------------------------------------------------------
  // The table.

  /** What the table needs of an execution. */
  class Entry {
    const id: ExecId
    var history: seq<Response>
    var completedAt: Option<int>
    var cancelled: bool

    constructor (id: ExecId, started: Response)
      ensures this.id == id && history == [started] && completedAt == None && !cancelled
    {
      this.id, history, completedAt, cancelled := id, [started], None, false;
    }

    /** Kills the command's process group; the log ends when the command has. */
    method Cancel()
      modifies this`cancelled
      ensures cancelled
    {
      cancelled := true;
    }
  }

  predicate Expired(completedAt: Option<int>, retain: int, now: int) {
    completedAt.Some? && now - completedAt.value > retain
  }

  class Manager {
    var executions: map<ExecId, Entry>
    const retain: int

    constructor (retain: int)
      ensures executions == map[] && this.retain == retain
    {
      executions, this.retain := map[], retain;
    }

    /** `generated` is the id the daemon makes up for a request without one. */
    method GetOrCreate(execId: ExecId, generated: ExecId, started: Response) returns (ex: Entry)
      modifies this
      ensures execId != "" && execId in old(executions) ==>
        ex == old(executions)[execId] && executions == old(executions)
      ensures execId == "" || execId !in old(executions) ==>
        && var id := if execId == "" then generated else execId;
        && fresh(ex) && ex.id == id && ex.history == [started] && ex.completedAt == None && !ex.cancelled
        && executions == old(executions)[id := ex]
    {
      var id := execId;
      if execId != "" {
        if execId in executions { return executions[execId]; }
      } else {
        id := generated;
      }
      ex := new Entry(id, started);
      executions := executions[id := ex];
    }

    /** Drops exactly the executions that completed longer ago than they are retained. */
    method Gc(now: int)
      modifies this
      ensures forall id :: id in executions <==>
        id in old(executions) && !Expired(old(executions)[id].completedAt, retain, now)
      ensures forall id :: id in executions ==> executions[id] == old(executions)[id]
    {
      var todo := executions.Keys;
      while todo != {}
        invariant todo <= old(executions).Keys
        invariant forall id :: id in executions <==>
          id in old(executions) && (id in todo || !Expired(old(executions)[id].completedAt, retain, now))
        invariant forall id :: id in executions ==> executions[id] == old(executions)[id]
        decreases |todo|
      {
        var id :| id in todo;
        var ex := executions[id];
        if ex.completedAt.Some? && now - ex.completedAt.value > retain { executions := executions - {id}; }
        todo := todo - {id};
      }
    }

    /** The command is cancelled and its id free again; its log is left to whoever follows it. */
    method Delete(execId: ExecId) returns (found: bool)
      modifies this, if execId in executions then {executions[execId]} else {}
      ensures found <==> execId in old(executions)
      ensures executions == old(executions) - {execId}
      ensures found ==>
        && var ex := old(executions)[execId];
        && ex.cancelled && ex.history == old(executions[execId].history)
        && ex.completedAt == old(executions[execId].completedAt)
    {
      if execId !in executions { return false; }
      executions[execId].Cancel();
      executions := executions - {execId};
      return true;
    }
  }

  // ---------------------------------------------------------------------------
  // The machine: requests, the two output pumps of each command, its end, and gc.

  /**
   * Where an execution is: not started yet, running with its pumps open or closed, over,
   * or over by a recovered panic that left a pump open.
   */
  datatype Stage = Launching | Pumping(stdout: bool, stderr: bool) | Ended | Crashed(stdout: bool, stderr: bool)

  datatype Exec = Exec(id: ExecId, history: seq<Response>, stage: Stage, completedAt: Option<int>, deleted: bool)

  datatype State = State(clock: int, retain: nat, table: map<ExecId, nat>, execs: seq<Exec>)

  datatype Step =
    | Tick(t: int)
    | Post(id: ExecId, started: Response)
    | Delete(id: ExecId)
    | Gc(now: int)
    | Start(k: nat)
    | StartFails(k: nat, r: Response)
    | Output(k: nat, r: Response)
    | Drain(k: nat, out: bool)
    | Exit(k: nat, r: Response)
    | Panic(k: nat, r: Response)

  predicate Possible(s: State, step: Step) {
    match step
    case Tick(t) => s.clock <= t
    case Post(id, started) => id != "" && started.kind.Started?
    case Delete(id) => true
    case Gc(now) => now <= s.clock
    case Start(k) => k < |s.execs| && s.execs[k].stage.Launching?
    case StartFails(k, r) => k < |s.execs| && s.execs[k].stage.Launching? && r.kind.Error?
    case Output(k, r) =>
      && k < |s.execs| && (s.execs[k].stage.Pumping? || s.execs[k].stage.Crashed?)
      && ((r.kind.Stdout? && s.execs[k].stage.stdout) || (r.kind.Stderr? && s.execs[k].stage.stderr))
    case Drain(k, out) => k < |s.execs| && (s.execs[k].stage.Pumping? || s.execs[k].stage.Crashed?)
    case Exit(k, r) => k < |s.execs| && s.execs[k].stage == Pumping(false, false) && r.kind.Exit?
    case Panic(k, r) => k < |s.execs| && Live(s.execs[k]) && r.kind.Error?
  }

  /** The command has not ended: it is being started, or runs. */
  predicate Live(x: Exec) { x.stage.Launching? || x.stage.Pumping? }

  /** The execution after one more event, its goroutine at the given stage. */
  function Logged(x: Exec, r: Response, clock: int, stage: Stage): (x': Exec) {
    x.(history := x.history + [r], completedAt := if IsTerminal(r.kind) then Some(clock) else x.completedAt,
       stage := stage)
  }

  function Append(s: State, k: nat, r: Response): (s': State)
    requires k < |s.execs|
  {
    var stage := if IsTerminal(r.kind) then Ended else s.execs[k].stage;
    s.(execs := s.execs[k := Logged(s.execs[k], r, s.clock, stage)])
  }

  /** A panic leaves the pumps as they are. */
  function AfterPanic(stage: Stage): (after: Stage) {
    if stage.Pumping? && (stage.stdout || stage.stderr) then Crashed(stage.stdout, stage.stderr) else Ended
  }

  function PutStage(s: State, k: nat, stage: Stage): (s': State)
    requires k < |s.execs|
  {
    s.(execs := s.execs[k := s.execs[k].(stage := stage)])
  }

  predicate Gone(s: State, id: ExecId, now: int) {
    id in s.table && s.table[id] < |s.execs| && Expired(s.execs[s.table[id]].completedAt, s.retain, now)
  }

  function Apply(s: State, step: Step): (s': State)
    requires Possible(s, step)
  {
    match step
    case Tick(t) => s.(clock := t)
    case Post(id, started) =>
      if id in s.table then s
      else s.(table := s.table[id := |s.execs|], execs := s.execs + [Exec(id, [started], Launching, None, false)])
    case Delete(id) =>
      if id in s.table && s.table[id] < |s.execs|
      then s.(table := s.table - {id}, execs := s.execs[s.table[id] := s.execs[s.table[id]].(deleted := true)])
      else s
    case Gc(now) => s.(table := map id | id in s.table && !Gone(s, id, now) :: s.table[id])
    case Start(k) => PutStage(s, k, Pumping(true, true))
    case StartFails(k, r) => Append(s, k, r)
    case Output(k, r) => Append(s, k, r)
    case Drain(k, out) =>
      var g := s.execs[k].stage;
      PutStage(s, k, if out then g.(stdout := false) else g.(stderr := false))
    case Exit(k, r) => Append(s, k, r)
    case Panic(k, r) => s.(execs := s.execs[k := Logged(s.execs[k], r, s.clock, AfterPanic(s.execs[k].stage))])
  }

  predicate Run(states: seq<State>, steps: seq<Step>) {
    && |states| == |steps| + 1
    && states[0].table == map[] && states[0].execs == []
    && forall i :: 0 <= i < |steps| ==> Possible(states[i], steps[i]) && states[i + 1] == Apply(states[i], steps[i])
  }

  // ---------------------------------------------------------------------------
  // The invariant.

  /** A log: "started", output, and a terminal event exactly when the execution has ended. */
  predicate InOrder(x: Exec) {
    && (forall i :: 1 <= i < |x.history| - 1 ==> x.history[i].kind.Stdout? || x.history[i].kind.Stderr?)
    && (|x.history| > 1 ==> !x.history[|x.history| - 1].kind.Started?)
    && (x.stage.Ended? <==> |x.history| > 1 && IsTerminal(x.history[|x.history| - 1].kind))
    && (x.stage.Launching? ==> |x.history| == 1)
  }

  predicate LogOk(x: Exec) {
    && x.history != [] && x.history[0].kind.Started?
    && (!x.stage.Crashed? ==> InOrder(x))
    && (x.completedAt.Some? <==> !Live(x))
  }

  predicate TableOk(s: State) {
    && (forall id :: id in s.table ==> s.table[id] < |s.execs| && s.execs[s.table[id]].id == id)
    && (forall k :: 0 <= k < |s.execs| && Live(s.execs[k]) && !s.execs[k].deleted ==>
          s.execs[k].id in s.table && s.table[s.execs[k].id] == k)
  }

  predicate Inv(s: State) {
    TableOk(s) && forall k :: 0 <= k < |s.execs| ==> LogOk(s.execs[k])
  }

  /** What may be logged next, and where that leaves the goroutine. */
  predicate Logs(x: Exec, r: Response, stage: Stage) {
    && !r.kind.Started?
    && (Live(x) && !x.stage.Launching? && !IsTerminal(r.kind) ==> stage == x.stage)
    && (Live(x) && IsTerminal(r.kind) ==> stage.Ended? || stage.Crashed?)
    && (x.stage.Launching? ==> IsTerminal(r.kind))
    && (!Live(x) ==> x.stage.Crashed? && stage == x.stage && !IsTerminal(r.kind))
  }

  lemma AppendLog(x: Exec, r: Response, clock: int, stage: Stage)
    requires LogOk(x) && Logs(x, r, stage)
    ensures LogOk(Logged(x, r, clock, stage))
  { }

  /** A change of execution k that keeps its id, its log in order, and does not bring it back. */
  lemma ExecKeeps(s: State, k: nat, x: Exec)
    requires Inv(s) && k < |s.execs| && LogOk(x) && x.id == s.execs[k].id && x.deleted == s.execs[k].deleted
    requires Live(x) ==> Live(s.execs[k])
    ensures Inv(s.(execs := s.execs[k := x]))
  {
    hide LogOk;
  }

  lemma LogKeeps(s: State, k: nat, r: Response, stage: Stage)
    requires Inv(s) && k < |s.execs| && Logs(s.execs[k], r, stage)
    ensures Inv(s.(execs := s.execs[k := Logged(s.execs[k], r, s.clock, stage)]))
  {
    AppendLog(s.execs[k], r, s.clock, stage);
    hide Inv, LogOk;
    ExecKeeps(s, k, Logged(s.execs[k], r, s.clock, stage));
  }

  lemma StageLog(x: Exec, stage: Stage)
    requires LogOk(x) && ((Live(x) && stage.Pumping?) || (x.stage.Crashed? && stage.Crashed?))
    ensures LogOk(x.(stage := stage))
  { }

  lemma StageKeeps(s: State, k: nat, stage: Stage)
    requires Inv(s) && k < |s.execs|
    requires (Live(s.execs[k]) && stage.Pumping?) || (s.execs[k].stage.Crashed? && stage.Crashed?)
    ensures Inv(PutStage(s, k, stage))
  {
    StageLog(s.execs[k], stage);
    hide Inv, LogOk;
    ExecKeeps(s, k, s.execs[k].(stage := stage));
  }

  lemma PostKeeps(s: State, id: ExecId, started: Response)
    requires Inv(s) && Possible(s, Post(id, started))
    ensures Inv(Apply(s, Post(id, started)))
  {
    assert LogOk(Exec(id, [started], Launching, None, false));
    hide LogOk;
  }

  lemma DeletedLog(x: Exec)
    requires LogOk(x)
    ensures LogOk(x.(deleted := true))
  { }

  lemma DeleteKeeps(s: State, id: ExecId)
    requires Inv(s)
    ensures Inv(Apply(s, Delete(id)))
  {
    hide LogOk;
    if id in s.table && s.table[id] < |s.execs| { DeletedLog(s.execs[s.table[id]]); }
  }

  lemma CompletedIsOver(x: Exec)
    requires LogOk(x) && x.completedAt.Some?
    ensures !Live(x)
  { }

  lemma GcKeeps(s: State, now: int)
    requires Inv(s) && Possible(s, Gc(now))
    ensures Inv(Apply(s, Gc(now)))
  {
    hide LogOk;
    forall id | id in s.table && Gone(s, id, now) ensures !Live(s.execs[s.table[id]]) {
      CompletedIsOver(s.execs[s.table[id]]);
    }
  }

  lemma StepKeeps(s: State, step: Step)
    requires Inv(s) && Possible(s, step)
    ensures Inv(Apply(s, step))
  {
    hide Inv, LogOk;
    match step
    case Tick(_) => TickKeeps(s, step);
    case Post(id, started) => PostKeeps(s, id, started);
    case Delete(id) => DeleteKeeps(s, id);
    case Gc(now) => GcKeeps(s, now);
    case Start(k) => StageKeeps(s, k, Pumping(true, true));
    case StartFails(k, r) => LogKeeps(s, k, r, Ended);
    case Output(k, r) => LogKeeps(s, k, r, s.execs[k].stage);
    case Drain(k, _) => StageKeeps(s, k, Apply(s, step).execs[k].stage);
    case Exit(k, r) => LogKeeps(s, k, r, Ended);
    case Panic(k, r) => LogKeeps(s, k, r, AfterPanic(s.execs[k].stage));
  }

  lemma TickKeeps(s: State, step: Step)
    requires Inv(s) && Possible(s, step) && step.Tick?
    ensures Inv(Apply(s, step))
  {
    hide LogOk;
  }

  lemma {:induction false} RunInv(states: seq<State>, steps: seq<Step>, i: nat)
    requires Run(states, steps) && i < |states|
    ensures Inv(states[i])
  {
    if i > 0 {
      RunInv(states, steps, i - 1);
      hide Inv;
      StepKeeps(states[i - 1], steps[i - 1]);
    }
  }

  // ---------------------------------------------------------------------------
  // The promises.

  /** The step is a panic in the goroutine of execution k while one of its pumps is open. */
  predicate OpenPanic(s: State, step: Step, k: nat) {
    step.Panic? && step.k == k && k < |s.execs| && AfterPanic(s.execs[k].stage).Crashed?
  }

  lemma {:induction false} CrashHasCause(states: seq<State>, steps: seq<Step>, i: nat, k: nat) returns (j: nat)
    requires Run(states, steps) && i < |states| && k < |states[i].execs| && states[i].execs[k].stage.Crashed?
    ensures j < i && OpenPanic(states[j], steps[j], k)
  {
    assert i > 0;
    assert Possible(states[i - 1], steps[i - 1]) && states[i] == Apply(states[i - 1], steps[i - 1]);
    if k < |states[i - 1].execs| && states[i - 1].execs[k].stage.Crashed? {
      j := CrashHasCause(states, steps, i - 1, k);
    } else {
      j := i - 1;
    }
  }

  /** A pump of execution k writes on after its goroutine panicked. */
  predicate StrayOutput(s: State, step: Step, k: nat) {
    step.Output? && step.k == k && k < |s.execs| && s.execs[k].stage.Crashed?
  }

  /** A log with its first terminal event at p. */
  predicate EndsAt(h: seq<Response>, p: nat) {
    p < |h| && IsTerminal(h[p].kind) && forall i :: 0 <= i < p ==> !IsTerminal(h[i].kind)
  }

  /** What has not crashed never had. */
  lemma {:induction false} NeverCrashed(states: seq<State>, steps: seq<Step>, m: nat, i: nat, k: nat)
    requires Run(states, steps) && m <= i < |states| && k < |states[i].execs| && !states[i].execs[k].stage.Crashed?
    ensures k < |states[m].execs| ==> !states[m].execs[k].stage.Crashed?
    decreases i - m
  {
    if m < i {
      assert Possible(states[i - 1], steps[i - 1]) && states[i] == Apply(states[i - 1], steps[i - 1]);
      if k < |states[i - 1].execs| {
        NeverCrashed(states, steps, m, i - 1, k);
      } else if k < |states[m].execs| {
        LogsGrow(states, steps, m, i - 1, k);
      }
    }
  }

  /** One step of a crashed execution: only a pump that writes on adds to its log. */
  lemma CrashedStep(s: State, step: Step, k: nat)
    requires Possible(s, step) && k < |s.execs| && s.execs[k].stage.Crashed?
    ensures k < |Apply(s, step).execs|
    ensures var h, h' := s.execs[k].history, Apply(s, step).execs[k].history;
      if StrayOutput(s, step, k) then |h'| == |h| + 1 && h <= h' && !IsTerminal(h'[|h|].kind) else h' == h
  { }

  /** The step that crashes it logs the terminal event. */
  lemma CrashingStep(s: State, step: Step, k: nat)
    requires Inv(s) && Possible(s, step) && k < |Apply(s, step).execs| && Apply(s, step).execs[k].stage.Crashed?
    requires k < |s.execs| ==> !s.execs[k].stage.Crashed?
    ensures k < |s.execs| && EndsAt(Apply(s, step).execs[k].history, |s.execs[k].history|)
    ensures |Apply(s, step).execs[k].history| == |s.execs[k].history| + 1
  {
    assert k < |s.execs| ==> LogOk(s.execs[k]);
    hide Inv;
    assert step.Panic? && step.k == k;
    hide Apply;
    assert Apply(s, step).execs[k].history == s.execs[k].history + [step.r] by { PanicLogs(s, step); }
  }

  lemma PanicLogs(s: State, step: Step)
    requires Possible(s, step) && step.Panic?
    ensures step.k < |Apply(s, step).execs|
    ensures Apply(s, step).execs[step.k].history == s.execs[step.k].history + [step.r]
  { }

  /** After such a panic the log has its terminal event, and nothing behind it exactly as long
      as no pump has written on. */
  lemma {:induction false} CrashedLog(states: seq<State>, steps: seq<Step>, i: nat, k: nat) returns (p: nat)
    requires Run(states, steps) && i < |states| && k < |states[i].execs| && states[i].execs[k].stage.Crashed?
    ensures EndsAt(states[i].execs[k].history, p)
    ensures p == |states[i].execs[k].history| - 1 <==> forall m :: 0 <= m < i ==> !StrayOutput(states[m], steps[m], k)
  {
    assert i > 0;
    var s, step := states[i - 1], steps[i - 1];
    assert Possible(s, step) && states[i] == Apply(s, step);
    hide Apply, Possible;
    if k < |s.execs| && s.execs[k].stage.Crashed? {
      p := CrashedLog(states, steps, i - 1, k);
      CrashedStep(s, step, k);
    } else {
      RunInv(states, steps, i - 1);
      hide Inv;
      CrashingStep(s, step, k);
      p := |s.execs[k].history|;
      forall m | 0 <= m < i ensures !StrayOutput(states[m], steps[m], k) { NeverCrashed(states, steps, m, i - 1, k); }
    }
  }

  /**
   * A log is one the streams rely on, with nothing behind a terminal event, if and only if no
   * pump wrote on after a panic of its goroutine. It begins with "started", and if it is such
   * a log it has its terminal event exactly when the command is over.
   */
  lemma LogsAreWellFormed(states: seq<State>, steps: seq<Step>, i: nat, k: nat)
    requires Run(states, steps) && i < |states| && k < |states[i].execs|
    ensures var x := states[i].execs[k];
      && x.history != [] && x.history[0].kind.Started?
      && (ExecStream.WellFormed(x.history) <==>
            |x.history| <= MAX64 && forall m :: 0 <= m < i ==> !StrayOutput(states[m], steps[m], k))
      && (ExecStream.WellFormed(x.history) ==> (ExecStream.Ended(x.history) <==> !Live(x)))
  {
    RunInv(states, steps, i);
    var x := states[i].execs[k];
    assert LogOk(x);
    if x.stage.Crashed? {
      var p := CrashedLog(states, steps, i, k);
    } else {
      forall m | 0 <= m < i ensures !StrayOutput(states[m], steps[m], k) { NeverCrashed(states, steps, m, i, k); }
    }
  }

  /** Such a panic is not harmless: the pump that goes on writes after the terminal event. */
  lemma PanicBreaksLog(started: Response, error: Response, output: Response)
    returns (states: seq<State>, steps: seq<Step>)
    requires started.kind.Started? && error.kind.Error? && output.kind.Stdout?
    ensures Run(states, steps) && |states[|steps|].execs| == 1
    ensures states[|steps|].execs[0].history == [started, error, output]
    ensures !ExecStream.WellFormed(states[|steps|].execs[0].history)
  {
    var s0 := State(0, 0, map[], []);
    var s1 := Apply(s0, Post("e", started));
    var s2 := Apply(s1, Start(0));
    var s3 := Apply(s2, Panic(0, error));
    var s4 := Apply(s3, Output(0, output));
    states, steps := [s0, s1, s2, s3, s4], [Post("e", started), Start(0), Panic(0, error), Output(0, output)];
    assert s4.execs[0].history == [started, error, output];
    assert IsTerminal([started, error, output][1].kind);
  }

  /** A command that still runs is never started a second time by a request that repeats its id. */
  lemma OneRunning(states: seq<State>, steps: seq<Step>, i: nat, j: nat, k: nat)
    requires Run(states, steps) && i < |states| && j < |states[i].execs| && k < |states[i].execs|
    requires states[i].execs[j].id == states[i].execs[k].id
    requires Live(states[i].execs[j]) && !states[i].execs[j].deleted
    requires Live(states[i].execs[k]) && !states[i].execs[k].deleted
    ensures j == k
  {
    RunInv(states, steps, i);
  }

  /** A repeated request finds the execution it made, until that is deleted or has been complete
      longer than retained. */
  lemma {:induction false} SameExecution(states: seq<State>, steps: seq<Step>, i: nat, j: nat, id: ExecId)
    requires Run(states, steps) && i <= j < |states| && id in states[i].table
    requires forall m :: i <= m < j ==> steps[m] != Delete(id)
    requires forall m :: i <= m < j && steps[m].Gc? ==> !Gone(states[m], id, steps[m].now)
    ensures id in states[j].table && states[j].table[id] == states[i].table[id]
    decreases j
  {
    if i < j {
      SameExecution(states, steps, i, j - 1, id);
      assert states[j] == Apply(states[j - 1], steps[j - 1]);
    }
  }

  /** Logs only grow. */
  lemma {:induction false} LogsGrow(states: seq<State>, steps: seq<Step>, i: nat, j: nat, k: nat)
    requires Run(states, steps) && i <= j < |states| && k < |states[i].execs|
    ensures k < |states[j].execs| && states[i].execs[k].history <= states[j].execs[k].history
    decreases j
  {
    if i < j {
      LogsGrow(states, steps, i, j - 1, k);
      assert states[j] == Apply(states[j - 1], steps[j - 1]);
    }
  }

  /** What the step writes to the log of execution k. */
  function Writes(s: State, step: Step, k: nat): (w: seq<Response>) {
    match step
    case Post(id, started) => if id !in s.table && k == |s.execs| then [started] else []
    case StartFails(j, r) => if j == k then [r] else []
    case Output(j, r) => if j == k then [r] else []
    case Exit(j, r) => if j == k then [r] else []
    case Panic(j, r) => if j == k then [r] else []
    case _ => []
  }

  /** What the first i steps wrote to it, in order. */
  function Written(states: seq<State>, steps: seq<Step>, i: nat, k: nat): (w: seq<Response>)
    requires i <= |steps| && |states| == |steps| + 1
  {
    if i == 0 then [] else Written(states, steps, i - 1, k) + Writes(states[i - 1], steps[i - 1], k)
  }

  lemma StepWrites(s: State, step: Step, k: nat)
    requires Possible(s, step) && k < |Apply(s, step).execs|
    ensures Apply(s, step).execs[k].history == (if k < |s.execs| then s.execs[k].history else []) + Writes(s, step, k)
  { }

  lemma NoneShrinks(s: State, step: Step)
    requires Possible(s, step)
    ensures |s.execs| <= |Apply(s, step).execs| <= |s.execs| + 1
    ensures forall k :: k >= |Apply(s, step).execs| ==> Writes(s, step, k) == []
  { }

  /** A log holds exactly what was written to it, in order: nothing is lost, doubled or put
      into the log of another execution. */
  lemma {:induction false} LogIsWritten(states: seq<State>, steps: seq<Step>, i: nat, k: nat)
    requires Run(states, steps) && i < |states|
    ensures |states| == |steps| + 1
    ensures Written(states, steps, i, k) == if k < |states[i].execs| then states[i].execs[k].history else []
  {
    if i > 0 {
      assert Possible(states[i - 1], steps[i - 1]) && states[i] == Apply(states[i - 1], steps[i - 1]);
      LogIsWritten(states, steps, i - 1, k);
      hide Run, Apply, Writes;
      NoneShrinks(states[i - 1], steps[i - 1]);
      if k < |states[i].execs| { StepWrites(states[i - 1], steps[i - 1], k); }
    }
  }
}
