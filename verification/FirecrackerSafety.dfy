/**
 What holds in every run of the Firecracker machine, under every interleaving of
 creates, stops, wakes, deletes, guest deaths and the wirer, with host commands that
 fail at any point.
 */
module FirecrackerSafety {
  import opened FirecrackerModel
  import opened FirecrackerMachine
  import opened FirecrackerInvariant
  import opened FirecrackerPreserve
  import opened FirecrackerSteps
  import opened FirecrackerTables
  import FirecrackerRuntime

  // ---- the invariant over runs ------------------------------------------------

  lemma ActKeeps(s: State, t: nat, o: Outcome)
    requires Inv(s) && Enabled(s, t)
    ensures Inv(DoAct(s, t, o))
  {
    var th := s.threads[t];
    ThreadOf(s, t);
    hide Inv, Local, ClaimInv, NetInv, DeathInv;
    match th.pc {
      case Reserve => if th.op.Wake? { KeepWakeSlot(s, t); } else { KeepReserve(s, t, o.ok); }
      case Waiting => KeepWait(s, t);
      case Record => KeepRecord(s, t);
      case NetWait => KeepTakeLock(s, t, NetLocked);
      case NetLocked => KeepNetBuild(s, t, o);
      case NetWired => if th.op.Wire? { KeepWirerFinish(s, t, o); } else { KeepNetFinish(s, t, o); }
      case ClearWait => KeepTakeLock(s, t, ClearHeld);
      case ClearHeld => KeepClearCheck(s, t);
      case ClearGo => KeepClear(s, t, o);
      case Final => KeepFinal(s, t);
      case Untrack => KeepUntrack(s, t, false);
      case LateUntrack => KeepUntrack(s, t, true);
      case Wiring => KeepWire(s, t, o.pick);
      case Done =>
      case _ => KeepLocal(s, t, o);
    }
  }

  lemma StepKeeps(s: State, step: Step)
    requires Inv(s) && Possible(s, step)
    ensures Inv(Apply(s, step))
  {
    hide Inv, DoAct;
    match step {
      case Spawn(op, id, block) => SpawnKeeps(s, op, id, block);
      case Act(t, o) => ActKeeps(s, t, o);
      case GiveUp(t) => KeepDone(s, t);
      case Write(r) => KeepWrite(s, r);
      case Crash(r, pid) => KeepCrash(s, r, pid);
      case Exit(r, pid) => KeepExit(s, r, pid);
    }
  }

  lemma SpawnKeeps(s: State, op: Op, id: Id, block: bool)
    requires Inv(s) && Possible(s, Spawn(op, id, block))
    ensures Inv(Apply(s, Spawn(op, id, block)))
  {
    hide Inv;
    AddThread(s, NewThread(op, id, block, FirstPc(op)));
  }

  lemma RunShape(states: seq<State>, steps: seq<Step>)
    requires Run(states, steps)
    ensures |states| == |steps| + 1
  { }

  lemma RunStep(states: seq<State>, steps: seq<Step>, k: nat)
    requires Run(states, steps) && k < |steps|
    ensures |states| == |steps| + 1
    ensures Possible(states[k], steps[k]) && states[k + 1] == Apply(states[k], steps[k])
  {
    hide Possible, Apply;
  }

  lemma InitInv(states: seq<State>, steps: seq<Step>)
    requires Run(states, steps)
    ensures Inv(states[0])
  { }

  /** Every state of every run satisfies the invariant. */
  lemma {:induction false} RunInv(states: seq<State>, steps: seq<Step>, k: nat)
    requires Run(states, steps) && k < |states|
    ensures Inv(states[k])
  {
    hide Inv, Apply, Possible, Init;
    if k == 0 {
      InitInv(states, steps);
    } else {
      RunInv(states, steps, k - 1);
      RunStep(states, steps, k - 1);
      StepKeeps(states[k - 1], steps[k - 1]);
    }
  }

  // ---- restores -----------------------------------------------------------------

  /** The step sends Firecracker a snapshot load for sandbox r. */
  predicate LoadIssued(s: State, step: Step, r: nat) {
    && step.Act? && Enabled(s, step.t)
    && s.threads[step.t].pc.Boot? && !s.threads[step.t].cold && s.threads[step.t].ref == r
  }

  /** The step is of a thread that works on an incarnation of the id, at pc. */
  predicate ActsOn(s: State, step: Step, id: Id, pc: Pc) {
    && step.Act? && Enabled(s, step.t) && s.threads[step.t].pc == pc
    && s.threads[step.t].ref < |s.heap| && s.heap[s.threads[step.t].ref].r.id == id
  }

  /** A kill aimed at an executing guest of the id reports failure. */
  predicate FailedKill(s: State, step: Step, id: Id) {
    && ActsOn(s, step, id, Kill) && !step.o.ok
    && TakenRuns(s.threads[step.t], Box(s, s.threads[step.t].ref))
  }

  /** A create of the id whose cleanup failed untracks its state although another
      operation has claimed it meanwhile. */
  predicate Disowns(s: State, step: Step, id: Id) {
    && ActsOn(s, step, id, LateUntrack)
    && var r := s.threads[step.t].ref;
      Tracked(s, r) && !s.heap[r].r.transition.Unclaimed?
  }

  /** A teardown or removal of a state of the id that is not the tracked one takes away
      the jail or a file. */
  predicate Takes(s: State, step: Step, id: Id) {
    && (ActsOn(s, step, id, CleanHost) || ActsOn(s, step, id, Remove))
    && !Tracked(s, s.threads[step.t].ref) && Less(FilesOf(s, id), FilesOf(DoAct(s, step.t, step.o), id))
  }

  /** The rootfs and the snapshot of the id are mounted in its jail. */
  predicate Mounts(s: State, step: Step, id: Id) {
    && ActsOn(s, step, id, PrepareJail) && step.o.ok
    && !FilesOf(s, id).disk.Missing? && !FilesOf(s, id).snap.Missing?
  }

  ghost predicate KillFailed(states: seq<State>, steps: seq<Step>, k: nat, id: Id)
    requires k <= |steps| && |states| == |steps| + 1
  {
    exists j :: 0 <= j < k && FailedKill(states[j], steps[j], id)
  }

  ghost predicate Disowned(states: seq<State>, steps: seq<Step>, k: nat, id: Id)
    requires k <= |steps| && |states| == |steps| + 1
  {
    exists j :: 0 <= j < k && Disowns(states[j], steps[j], id)
  }

  /** Something was taken away and has not been mounted since. */
  ghost predicate TakenAway(states: seq<State>, steps: seq<Step>, k: nat, id: Id)
    requires k <= |steps| && |states| == |steps| + 1
  {
    exists j :: 0 <= j < k && Takes(states[j], steps[j], id) && NotMounted(states, steps, j + 1, k, id)
  }

  ghost predicate NotMounted(states: seq<State>, steps: seq<Step>, j: nat, k: nat, id: Id)
    requires k <= |steps| && |states| == |steps| + 1
  {
    forall m :: j <= m < k ==> !Mounts(states[m], steps[m], id)
  }

  /** The same sandbox, with the policy it was created with, and no earlier generation. */
  predicate SameName(x: Rec, x': Rec) {
    x'.id == x.id && x'.blockEgress == x.blockEgress && x'.generation >= x.generation
  }

  /** What a thread's step on its own sandbox does to the record of the id's past: it
      remembers its own failed kill and what it took from a tracked state that is not its
      own, and starts counting afresh where the snapshot is brought up to date. */
  predicate Recorded(th: Thread, x: Sandbox, o: Outcome, x': Sandbox, tracked: bool) {
    && SameName(x.r, x'.r)
    && x'.f.late == x.f.late
    && x'.f.lost == (!(o.ok && MountsIn(th, x)) && (x.f.lost || (!tracked && Tears(th) && Less(x.f, x'.f))))
    && x'.f.stray == (x.f.stray || (th.pc.Kill? && !o.ok && TakenRuns(th, x)))
    && x'.f.writes == (if o.ok && StartsOver(th, x) then 0 else x.f.writes)
  }

  /** The guest whose handle the teardown took executes. */
  predicate TakenRuns(th: Thread, x: Sandbox) {
    th.taken.Some? && th.taken.value < |x.h.guests| && x.h.guests[th.taken.value].status.Executing?
  }

  predicate MountsIn(th: Thread, x: Sandbox) {
    th.pc.PrepareJail? && !x.f.disk.Missing? && !x.f.snap.Missing?
  }

  predicate Tears(th: Thread) {
    th.pc.CleanHost? || th.pc.Remove?
  }

  predicate StartsOver(th: Thread, x: Sandbox) {
    th.pc.CloneRootfs? || th.pc.Remove? || (th.pc.Snapshot? && Alive(x))
  }

  lemma BuildRecorded(th: Thread, x: Sandbox, o: Outcome, tracked: bool)
    requires !th.pc.Kill? && !Tears(th) && !th.pc.Snapshot?
    ensures Recorded(th, x, o, DoBuild(th, x, o, tracked).1, tracked)
  {
    hide Abandon, TakenRuns, Alive;
  }

  lemma BootRecorded(th: Thread, x: Sandbox, o: Outcome, tracked: bool)
    requires !th.pc.Kill? && !Tears(th) && !th.pc.Snapshot? && !th.pc.CloneRootfs? && !th.pc.PrepareJail?
    ensures Recorded(th, x, o, DoBoot(th, x, o, tracked).1, tracked)
  {
    hide Abandon, TakenRuns, Alive;
  }

  lemma StopRecorded(th: Thread, x: Sandbox, o: Outcome, tracked: bool)
    requires !th.pc.Kill? && !Tears(th) && !th.pc.CloneRootfs? && !th.pc.PrepareJail?
    ensures Recorded(th, x, o, DoStop(th, x, o).1, tracked)
  {
    hide TakenRuns, Alive;
  }

  lemma TeardownRecorded(th: Thread, x: Sandbox, o: Outcome, tracked: bool)
    requires th.pc.Mark? || th.pc.Teardown? || th.pc.Kill? || th.pc.CleanHost?
    ensures Recorded(th, x, o, DoTeardown(th, x, o, tracked).1, tracked)
  {
    hide Alive;
  }

  lemma FinishRecorded(th: Thread, x: Sandbox, o: Outcome, tracked: bool)
    requires !th.pc.Kill? && !th.pc.CleanHost? && !th.pc.Snapshot? && !th.pc.CloneRootfs? && !th.pc.PrepareJail?
    ensures Recorded(th, x, o, DoFinish(th, x, o, tracked).1, tracked)
  {
    hide TakenRuns, Alive;
  }

  lemma LocalRecorded(th: Thread, x: Sandbox, o: Outcome, tracked: bool)
    requires LocalPc(th)
    ensures Recorded(th, x, o, DoLocal(th, x, o, tracked).1, tracked)
  {
    hide AfterClaim, DoBuild, DoBoot, DoStop, DoTeardown, DoFinish, Recorded;
    match th.pc {
      case Begun => NothingRecorded(th, x, o, tracked);
      case StartGuest | Boot | NewProxy | PublishProxy | Probe | Up => BootRecorded(th, x, o, tracked);
      case DiskCheck | Pause | Snapshot | Unpin | Resume => StopRecorded(th, x, o, tracked);
      case Mark | Teardown | Kill | CleanHost => TeardownRecorded(th, x, o, tracked);
      case TornDown | Remove | FailDelete | End => FinishRecorded(th, x, o, tracked);
      case _ => BuildRecorded(th, x, o, tracked);
    }
  }

  lemma NothingRecorded(th: Thread, x: Sandbox, o: Outcome, tracked: bool)
    requires th.pc.Begun?
    ensures Recorded(th, x, o, x, tracked)
  {
  }

  lemma TableStepKeepsFiles(s: State, t: nat, o: Outcome)
    requires Enabled(s, t) && !LocalPc(s.threads[t])
    ensures !s.threads[t].pc.Untrack? && !s.threads[t].pc.LateUntrack? ==> DoAct(s, t, o).files == s.files
  {
    hide DoLocal, DoUntrack;
  }

  /** Only a thread's steps on its own sandbox reach the files; a late untrack is noted. */
  lemma TablesKeepFiles(s: State, t: nat, o: Outcome, id: Id)
    requires Enabled(s, t) && !LocalPc(s.threads[t])
    ensures FilesOf(DoAct(s, t, o), id)
      == FilesOf(s, id).(late := FilesOf(s, id).late || Disowns(s, Act(t, o), id))
  {
    hide DoLocal, ReleaseSlots, FirstFree, Owners, Abandon, DoReserve, DoWakeSlot, DoWait;
    TableStepKeepsFiles(s, t, o);
  }

  /** A guest of the id changes its rootfs. */
  predicate Rewrites(s: State, step: Step, id: Id) {
    step.Write? && step.r < |s.heap| && s.heap[step.r].r.id == id && FilesOf(s, id).disk.At?
  }

  /** The step makes the snapshot describe the rootfs, or starts over with a new rootfs. */
  predicate Resets(s: State, step: Step, id: Id) {
    && step.Act? && Enabled(s, step.t) && step.o.ok
    && var th := s.threads[step.t];
      th.ref < |s.heap| && s.heap[th.ref].r.id == id && StartsOver(th, Box(s, th.ref))
  }

  /** What each step adds to what is remembered of an id. */
  predicate Remembered(s: State, step: Step, id: Id, f: Files) {
    && f.late == (FilesOf(s, id).late || Disowns(s, step, id))
    && f.stray == (FilesOf(s, id).stray || FailedKill(s, step, id))
    && f.lost == (!Mounts(s, step, id) && (FilesOf(s, id).lost || Takes(s, step, id)))
    && f.writes == (if Resets(s, step, id) then 0
                    else FilesOf(s, id).writes + if Rewrites(s, step, id) then 1 else 0)
  }

  lemma OwnRemembered(s: State, t: nat, o: Outcome)
    requires Enabled(s, t) && LocalPc(s.threads[t]) && s.threads[t].ref < |s.heap|
    ensures var id := s.heap[s.threads[t].ref].r.id; Remembered(s, Act(t, o), id, FilesOf(DoAct(s, t, o), id))
  {
    var th := s.threads[t];
    var x := Box(s, th.ref);
    var res := DoLocal(th, x, o, Tracked(s, th.ref));
    LocalRecorded(th, x, o, Tracked(s, th.ref));
    assert DoAct(s, t, o) == PutLocal(s, t, res.0, res.1);
    assert FilesOf(DoAct(s, t, o), x.r.id) == res.1.f;
    hide DoLocal, DoAct, Enabled, Alive, Tracked, LocalPc, PutLocal, FilesOf;
  }

  lemma OthersRemembered(s: State, t: nat, o: Outcome, id: Id)
    requires Enabled(s, t) && LocalPc(s.threads[t]) && s.threads[t].ref < |s.heap|
    requires s.heap[s.threads[t].ref].r.id != id && FilesOf(DoAct(s, t, o), id) == FilesOf(s, id)
    ensures Remembered(s, Act(t, o), id, FilesOf(DoAct(s, t, o), id))
  {
    hide DoAct, Enabled, LocalPc, FilesOf;
  }

  lemma LocalRemembered(s: State, t: nat, o: Outcome, id: Id)
    requires Enabled(s, t) && LocalPc(s.threads[t])
    ensures Remembered(s, Act(t, o), id, FilesOf(DoAct(s, t, o), id))
  {
    hide DoAct, DoLocal, Remembered, InRange, LocalPc;
    LocalKeepsOthers(s, t, o, id);
    if s.heap[s.threads[t].ref].r.id == id { OwnRemembered(s, t, o); } else { OthersRemembered(s, t, o, id); }
  }

  lemma TablesRemember(s: State, t: nat, o: Outcome, id: Id)
    requires Enabled(s, t) && !LocalPc(s.threads[t])
    ensures Remembered(s, Act(t, o), id, FilesOf(DoAct(s, t, o), id))
  {
    TablesKeepFiles(s, t, o, id);
    hide DoAct, Enabled, Alive;
  }

  lemma StepRemembers(s: State, step: Step, id: Id)
    requires Possible(s, step)
    ensures Remembered(s, step, id, FilesOf(Apply(s, step), id))
  {
    hide DoAct;
    if step.Act? {
      hide Remembered, Enabled, LocalPc;
      if LocalPc(s.threads[step.t]) { LocalRemembered(s, step.t, step.o, id); }
      else { TablesRemember(s, step.t, step.o, id); }
    }
  }

  lemma NothingYet(states: seq<State>, steps: seq<Step>, id: Id)
    requires Run(states, steps)
    ensures FilesOf(states[0], id) == NO_FILES
    ensures !Disowned(states, steps, 0, id) && !KillFailed(states, steps, 0, id) && !TakenAway(states, steps, 0, id)
  { }

  lemma {:induction false} LateIsRun(states: seq<State>, steps: seq<Step>, k: nat, id: Id)
    requires Run(states, steps) && k < |states|
    ensures FilesOf(states[k], id).late <==> Disowned(states, steps, k, id)
  {
    hide Run, Init, Apply, Possible, FilesOf, Disowned, KillFailed;
    hide FailedKill, Disowns, Takes, Mounts, Resets, Rewrites;
    RunShape(states, steps);
    if k == 0 {
      NothingYet(states, steps, id);
    } else {
      LateIsRun(states, steps, k - 1, id);
      RunStep(states, steps, k - 1);
      StepRemembers(states[k - 1], steps[k - 1], id);
      DisownedSoFar(states, steps, k, id);
    }
  }

  lemma DisownedSoFar(states: seq<State>, steps: seq<Step>, k: nat, id: Id)
    requires 0 < k <= |steps| && |states| == |steps| + 1
    ensures Disowned(states, steps, k, id) <==>
      Disowned(states, steps, k - 1, id) || Disowns(states[k - 1], steps[k - 1], id)
  {
    hide Disowns;
  }

  lemma {:induction false} StrayIsRun(states: seq<State>, steps: seq<Step>, k: nat, id: Id)
    requires Run(states, steps) && k < |states|
    ensures FilesOf(states[k], id).stray <==> KillFailed(states, steps, k, id)
  {
    hide Run, Init, Apply, Possible, FilesOf, Disowned, KillFailed;
    hide FailedKill, Disowns, Takes, Mounts, Resets, Rewrites;
    RunShape(states, steps);
    if k == 0 {
      NothingYet(states, steps, id);
    } else {
      StrayIsRun(states, steps, k - 1, id);
      RunStep(states, steps, k - 1);
      StepRemembers(states[k - 1], steps[k - 1], id);
      KillSoFar(states, steps, k, id);
    }
  }

  lemma KillSoFar(states: seq<State>, steps: seq<Step>, k: nat, id: Id)
    requires 0 < k <= |steps| && |states| == |steps| + 1
    ensures KillFailed(states, steps, k, id) <==>
      KillFailed(states, steps, k - 1, id) || FailedKill(states[k - 1], steps[k - 1], id)
  {
    hide FailedKill;
  }

  lemma {:induction false} LostIsRun(states: seq<State>, steps: seq<Step>, k: nat, id: Id)
    requires Run(states, steps) && k < |states|
    ensures FilesOf(states[k], id).lost <==> TakenAway(states, steps, k, id)
  {
    hide Run, Init, Apply, Possible, FilesOf, TakenAway, Takes, Mounts, FailedKill, Disowns, Resets, Rewrites;
    RunShape(states, steps);
    if k == 0 {
      NothingYet(states, steps, id);
    } else {
      LostIsRun(states, steps, k - 1, id);
      RunStep(states, steps, k - 1);
      StepRemembers(states[k - 1], steps[k - 1], id);
      TakenSoFar(states, steps, k, id);
    }
  }

  lemma TakesIsNoMount(s: State, step: Step, id: Id)
    ensures !(Takes(s, step, id) && Mounts(s, step, id))
  {
    hide DoAct, Less;
  }

  lemma TakenSoFar(states: seq<State>, steps: seq<Step>, k: nat, id: Id)
    requires 0 < k <= |steps| && |states| == |steps| + 1
    ensures TakenAway(states, steps, k, id) <==>
      && !Mounts(states[k - 1], steps[k - 1], id)
      && (TakenAway(states, steps, k - 1, id) || Takes(states[k - 1], steps[k - 1], id))
  {
    hide Takes, Mounts;
    TakesIsNoMount(states[k - 1], steps[k - 1], id);
    if Takes(states[k - 1], steps[k - 1], id) { assert NotMounted(states, steps, k, k, id); }
    if TakenAway(states, steps, k - 1, id) && !Mounts(states[k - 1], steps[k - 1], id) {
      var j :| 0 <= j < k - 1 && Takes(states[j], steps[j], id) && NotMounted(states, steps, j + 1, k - 1, id);
      assert NotMounted(states, steps, j + 1, k, id);
    }
    if TakenAway(states, steps, k, id) {
      var j :| 0 <= j < k && Takes(states[j], steps[j], id) && NotMounted(states, steps, j + 1, k, id);
      if j < k - 1 { assert NotMounted(states, steps, j + 1, k - 1, id); }
    }
  }

  /** The files of an id remember exactly what happened in the run: a failed kill, a late
      untrack of a claimed state, and a loss since the last mount. */
  lemma PastIsRun(states: seq<State>, steps: seq<Step>, k: nat, id: Id)
    requires Run(states, steps) && k < |states|
    ensures FilesOf(states[k], id).late <==> Disowned(states, steps, k, id)
    ensures FilesOf(states[k], id).stray <==> KillFailed(states, steps, k, id)
    ensures FilesOf(states[k], id).lost <==> TakenAway(states, steps, k, id)
  {
    hide Run, FilesOf, Disowned, KillFailed, TakenAway;
    LateIsRun(states, steps, k, id);
    StrayIsRun(states, steps, k, id);
    LostIsRun(states, steps, k, id);
  }

  /** No guest of any incarnation of the id executes. */
  ghost predicate NothingRuns(s: State, id: Id) {
    forall q :: 0 <= q < |s.heap| && s.heap[q].r.id == id ==> NoExec(s.heap[q].h.guests)
  }

  lemma OthersQuiet(s: State, r: nat)
    requires Inv(s) && r < |s.heap| && Tracked(s, r) && NoExec(s.heap[r].h.guests) && !Box(s, r).f.stray
    ensures NothingRuns(s, s.heap[r].r.id)
  {
    forall q | 0 <= q < |s.heap| && s.heap[q].r.id == s.heap[r].r.id ensures NoExec(s.heap[q].h.guests) {
      hide SandboxInv, FilesOk, NoExec, Rest, EntryInv, SlotInv, ThreadInv;
      assert HeapInv(s, q);
    }
  }

  /** What the invariant says where a load is issued. */
  lemma LoadFacts(s: State, t: nat)
    requires Inv(s) && t < |s.threads| && s.threads[t].pc.Boot? && !s.threads[t].cold
    ensures s.threads[t].ref < |s.heap| && Tracked(s, s.threads[t].ref)
    ensures var x := Box(s, s.threads[t].ref);
      BootSafe(x.f) && (!x.f.stray ==> NoExec(x.h.guests))
  {
    Mine(s, t);
    LastQuiet(s.heap[s.threads[t].ref].h.guests);
    hide Inv;
  }

  /** In every run: the rootfs and the snapshot a load is issued on are there and mounted
      in the jail, exactly unless something was taken away since the mount; neither is half
      written; and they agree and nothing executes in any incarnation of the id, unless a
      kill of one failed. */
  lemma RestoreSafe(states: seq<State>, steps: seq<Step>, k: nat, r: nat)
    requires Run(states, steps) && k < |steps| && LoadIssued(states[k], steps[k], r)
    ensures r < |states[k].heap| && Tracked(states[k], r)
    ensures var s := states[k]; var id := s.heap[r].r.id; var f := FilesOf(s, id);
      && (!f.disk.Missing? && !f.snap.Missing? && f.jail <==> !TakenAway(states, steps, k, id))
      && !f.disk.Garbled? && (!f.disk.Missing? ==> !f.snap.Garbled?)
      && (f.disk.At? && f.snap.At? ==> f.disk.version == f.snap.version + f.writes)
      && ((f.writes == 0 && NothingRuns(s, id)) || KillFailed(states, steps, k, id))
  {
    RunInv(states, steps, k);
    LoadFacts(states[k], steps[k].t);
    PastIsRun(states, steps, k, states[k].heap[r].r.id);
    hide Run, TakenAway, KillFailed, Disowned;
    if !Box(states[k], r).f.stray { OthersQuiet(states[k], r); }
    hide Inv, NothingRuns;
  }

  // ---- when something can be taken away ------------------------------------------

  lemma TakerIsLate(s: State, step: Step, id: Id)
    requires Inv(s) && Takes(s, step, id)
    ensures FilesOf(s, id).late
  {
    Mine(s, step.t);
    assert HeapInv(s, s.threads[step.t].ref);
    hide Inv, Local, SandboxInv, FilesOk, Quiet, DoAct;
  }

  /** Nothing is taken from an id before a create of it has disowned a claimed state. */
  lemma TakenNeedsDisowned(states: seq<State>, steps: seq<Step>, k: nat, id: Id)
    requires Run(states, steps) && k < |states| && TakenAway(states, steps, k, id)
    ensures Disowned(states, steps, k, id)
  {
    var j :| 0 <= j < k && Takes(states[j], steps[j], id) && NotMounted(states, steps, j + 1, k, id);
    RunInv(states, steps, j);
    hide Run, Takes, Disowns;
    TakerIsLate(states[j], steps[j], id);
    PastIsRun(states, steps, j, id);
    var i :| 0 <= i < j && Disowns(states[i], steps[i], id);
    assert i < k;
  }

  /** Every snapshot load finds a rootfs the snapshot describes exactly, mounted in the
      jail and with nothing executing on it, in every run in which no create of the id has
      disowned a claimed state and no kill of any incarnation of it has failed. */
  lemma RestoreMatches(states: seq<State>, steps: seq<Step>, k: nat, r: nat)
    requires Run(states, steps) && k < |steps| && LoadIssued(states[k], steps[k], r) && r < |states[k].heap|
    requires !Disowned(states, steps, k, states[k].heap[r].r.id)
    requires !KillFailed(states, steps, k, states[k].heap[r].r.id)
    ensures var f := FilesOf(states[k], states[k].heap[r].r.id);
      f.disk.At? && f.disk == f.snap && f.jail && NothingRuns(states[k], states[k].heap[r].r.id)
  {
    RestoreSafe(states, steps, k, r);
    hide Run, Disowned, KillFailed, NothingRuns;
    if TakenAway(states, steps, k, states[k].heap[r].r.id) {
      TakenNeedsDisowned(states, steps, k, states[k].heap[r].r.id);
    }
  }

  // ---- exactly which writes a restore survives -------------------------------------

  /** Every write of a guest of the id was followed by such a step. */
  ghost predicate Caught(states: seq<State>, steps: seq<Step>, k: nat, id: Id)
    requires k <= |steps| && |states| == |steps| + 1
  {
    forall j :: 0 <= j < k && Rewrites(states[j], steps[j], id) ==>
      exists m :: j < m < k && Resets(states[m], steps[m], id)
  }

  /** A step that neither writes nor resets leaves that as it was. */
  lemma CaughtSteps(states: seq<State>, steps: seq<Step>, k: nat, id: Id)
    requires 0 < k <= |steps| && |states| == |steps| + 1
    ensures Resets(states[k - 1], steps[k - 1], id) ==> Caught(states, steps, k, id)
    ensures !Resets(states[k - 1], steps[k - 1], id) ==>
      (Caught(states, steps, k, id) <==> Caught(states, steps, k - 1, id) && !Rewrites(states[k - 1], steps[k - 1], id))
  {
    assert Resets(states[k - 1], steps[k - 1], id) ==> !Rewrites(states[k - 1], steps[k - 1], id);
    hide Rewrites, Resets;
    if !Resets(states[k - 1], steps[k - 1], id) && Caught(states, steps, k, id) {
      forall j | 0 <= j < k - 1 && Rewrites(states[j], steps[j], id)
        ensures exists m :: j < m < k - 1 && Resets(states[m], steps[m], id)
      {
        var m :| j < m < k && Resets(states[m], steps[m], id);
        assert m != k - 1;
      }
    }
  }

  lemma NothingToCatch(states: seq<State>, steps: seq<Step>, id: Id)
    requires |states| == |steps| + 1
    ensures Caught(states, steps, 0, id)
  { }

  lemma {:induction false} WritesAreRun(states: seq<State>, steps: seq<Step>, k: nat, id: Id)
    requires Run(states, steps) && k < |states|
    ensures FilesOf(states[k], id).writes == 0 <==> Caught(states, steps, k, id)
  {
    hide Run, Apply, Possible, FilesOf, Rewrites, Resets, Caught, FailedKill, Disowns, Takes, Mounts;
    RunShape(states, steps);
    if k == 0 {
      NothingYet(states, steps, id);
      NothingToCatch(states, steps, id);
    } else {
      WritesAreRun(states, steps, k - 1, id);
      RunStep(states, steps, k - 1);
      StepRemembers(states[k - 1], steps[k - 1], id);
      CaughtSteps(states, steps, k, id);
    }
  }

  /** In every run, a load finds its rootfs and snapshot mounted in the jail and in
      agreement if and only if no guest of the id wrote since the snapshot was taken and
      nothing was taken away since the mount. */
  lemma RestoreExact(states: seq<State>, steps: seq<Step>, k: nat, r: nat)
    requires Run(states, steps) && k < |steps| && LoadIssued(states[k], steps[k], r) && r < |states[k].heap|
    ensures var id := states[k].heap[r].r.id; var f := FilesOf(states[k], id);
      f.disk.At? && f.disk == f.snap && f.jail <==> Caught(states, steps, k, id) && !TakenAway(states, steps, k, id)
  {
    RestoreSafe(states, steps, k, r);
    WritesAreRun(states, steps, k, states[k].heap[r].r.id);
    hide Run, Caught, TakenAway, KillFailed, NothingRuns;
  }

  /** The pin: a tracked sandbox that runs or is stopped and is not pinned to a cold boot
      has no guest executing, and a snapshot that describes its rootfs unless one of the
      two is missing, in every run in which no kill of any incarnation of the id failed. */
  lemma UnpinnedMatches(states: seq<State>, steps: seq<Step>, k: nat, r: nat)
    requires Run(states, steps) && k < |states| && r < |states[k].heap| && Tracked(states[k], r)
    requires states[k].heap[r].r.running || states[k].heap[r].r.stopped
    requires !states[k].heap[r].r.mustColdBoot
    requires !KillFailed(states, steps, k, states[k].heap[r].r.id)
    ensures var f := FilesOf(states[k], states[k].heap[r].r.id);
      && NothingRuns(states[k], states[k].heap[r].r.id)
      && (f.disk.Missing? || f.snap.Missing? || (f.disk.At? && f.disk == f.snap))
  {
    RunInv(states, steps, k);
    PastIsRun(states, steps, k, states[k].heap[r].r.id);
    hide Run;
    assert HeapInv(states[k], r);
    assert NoExec(states[k].heap[r].h.guests);
    OthersQuiet(states[k], r);
    hide Inv;
  }

  // ---- whose files they are --------------------------------------------------------

  lemma LocalKeepsOthers(s: State, t: nat, o: Outcome, id: Id)
    requires Enabled(s, t) && LocalPc(s.threads[t])
    ensures s.threads[t].ref < |s.heap|
    ensures s.heap[s.threads[t].ref].r.id != id ==> FilesOf(DoAct(s, t, o), id) == FilesOf(s, id)
  {
    var th := s.threads[t];
    LocalRecorded(th, Box(s, th.ref), o, Tracked(s, th.ref));
    hide DoLocal;
  }

  /** The same rootfs and snapshot, mounted or not. */
  predicate Alike(f: Files, f': Files) {
    f'.disk == f.disk && f'.snap == f.snap && f'.jail == f.jail
  }

  lemma LocalHolds(th: Thread)
    requires LocalPc(th)
    ensures Holds(th) && !HoldsNet(th)
  { }

  lemma ChangeErodes(v: Here, res: (Thread, Sandbox))
    requires Goes(v, res) && !v.tracked
    ensures Erodes(v.x.f, res.1.f)
  {
    hide Evolves, Settles, SandboxInv, Quiet;
  }

  lemma ErodedIsLess(f: Files, f': Files)
    requires Erodes(f, f')
    ensures Alike(f, f') || Less(f, f')
  { }

  /** A thread of a state that is not tracked only ever takes away. */
  lemma OutsiderTakes(s: State, t: nat, o: Outcome)
    requires Inv(s) && Enabled(s, t) && LocalPc(s.threads[t]) && !Tracked(s, s.threads[t].ref)
    ensures var id := s.heap[s.threads[t].ref].r.id;
      Alike(FilesOf(s, id), FilesOf(DoAct(s, t, o), id)) || Takes(s, Act(t, o), id)
  {
    var th := s.threads[t];
    var x := Box(s, th.ref);
    var res := DoLocal(th, x, o, false);
    assert DoAct(s, t, o) == PutLocal(s, t, res.0, res.1);
    LocalHolds(th);
    hide Inv, DoAct, DoLocal, Held, Change, Less;
    HeldHere(s, t);
    var v := Here(t, th, x, false, |s.slots|);
    LocalGoes(v, o);
    ChangeErodes(v, res);
    OutsiderTears(v, o);
    LocalKeepsId(th, x, o, false);
    assert FilesOf(DoAct(s, t, o), x.r.id) == res.1.f;
    ErodedIsLess(x.f, res.1.f);
  }

  /** Its steps that reach the files are those of a teardown. */
  lemma OutsiderTears(v: Here, o: Outcome)
    requires Held(v) && !v.tracked && LocalPc(v.th)
    ensures !Tears(v.th) ==> Alike(v.x.f, DoLocal(v.th, v.x, o, false).1.f)
  {
    hide SandboxInv, FilesOk, Quiet, Rest, Tearing, Tearable, Bare, AfterClaim, Abandon;
  }

  lemma ActOwnsFiles(s: State, t: nat, o: Outcome, r: nat)
    requires Inv(s) && Enabled(s, t) && r < |s.heap| && Tracked(s, r)
    requires !Alike(Box(s, r).f, FilesOf(DoAct(s, t, o), s.heap[r].r.id))
    ensures (s.threads[t].ref == r && s.heap[r].h.holder == Some(t)) || Takes(s, Act(t, o), s.heap[r].r.id)
  {
    var th := s.threads[t];
    hide DoAct;
    if LocalPc(th) {
      Mine(s, t);
      hide Inv, HeapInv, ThreadInv, EntryInv, Local, LocalPc, Takes, Enabled;
      LocalKeepsOthers(s, t, o, s.heap[r].r.id);
      if th.ref != r { OutsiderTakes(s, t, o); }
    } else {
      TablesKeepFiles(s, t, o, s.heap[r].r.id);
    }
  }

  /** In every run, the files of a tracked sandbox are changed only by the holder of its
      claim and by its own guests; by a guest of an earlier incarnation, after a failed
      kill; and by a teardown of one, which takes them away, after a create disowned it. */
  lemma FilesOwned(states: seq<State>, steps: seq<Step>, k: nat, r: nat)
    requires Run(states, steps) && k < |steps| && r < |states[k].heap| && Tracked(states[k], r)
    requires var id := states[k].heap[r].r.id; !Alike(FilesOf(states[k], id), FilesOf(states[k + 1], id))
    ensures var id := states[k].heap[r].r.id;
      || (steps[k].Act? && steps[k].t < |states[k].threads| && states[k].threads[steps[k].t].ref == r
          && states[k].heap[r].h.holder == Some(steps[k].t))
      || (steps[k].Write? && (steps[k].r == r || KillFailed(states, steps, k, id)))
      || (Takes(states[k], steps[k], id) && Disowned(states, steps, k, id))
  {
    var s, step := states[k], steps[k];
    RunInv(states, steps, k);
    PastIsRun(states, steps, k, s.heap[r].r.id);
    RunStep(states, steps, k);
    hide Run, DoAct, TakenAway, KillFailed, Disowned, Takes;
    if step.Act? {
      hide Inv;
      ActOwnsFiles(s, step.t, step.o, r);
      if Takes(s, step, s.heap[r].r.id) { TakerIsLate(s, step, s.heap[r].r.id); }
    } else if step.Write? {
      assert HeapInv(s, step.r);
    }
  }

  /** Nobody holds the sandbox's claim and none of its guests executes. */
  predicate Idle(s: State, r: nat) {
    r < |s.heap| && Tracked(s, r) && s.heap[r].h.holder == None && NoExec(s.heap[r].h.guests)
  }

  lemma LocalKeepsId(th: Thread, x: Sandbox, o: Outcome, tracked: bool)
    requires LocalPc(th)
    ensures SameName(x.r, DoLocal(th, x, o, tracked).1.r)
  {
    LocalRecorded(th, x, o, tracked);
    hide DoLocal;
  }

  lemma LocalStepKeepsIds(s: State, t: nat, o: Outcome, r: nat)
    requires Enabled(s, t) && LocalPc(s.threads[t]) && r < |s.heap|
    ensures r < |DoAct(s, t, o).heap| && SameName(s.heap[r].r, DoAct(s, t, o).heap[r].r)
  {
    var th := s.threads[t];
    LocalKeepsId(th, Box(s, th.ref), o, Tracked(s, th.ref));
    hide DoLocal;
  }

  lemma TableStepKeepsIds(s: State, t: nat, o: Outcome, r: nat)
    requires Enabled(s, t) && !LocalPc(s.threads[t]) && r < |s.heap|
    ensures r < |DoAct(s, t, o).heap| && SameName(s.heap[r].r, DoAct(s, t, o).heap[r].r)
  {
    hide DoLocal, ReleaseSlots, FirstFree, Owners, Abandon;
    match s.threads[t].pc {
      case Reserve => hide DoWait;
      case Waiting =>
      case _ => hide DoWait, DoReserve, DoWakeSlot;
    }
  }

  lemma StepKeepsIds(s: State, step: Step, r: nat)
    requires Possible(s, step) && r < |s.heap|
    ensures r < |Apply(s, step).heap| && SameName(s.heap[r].r, Apply(s, step).heap[r].r)
  {
    hide DoAct;
    if step.Act? {
      if LocalPc(s.threads[step.t]) { LocalStepKeepsIds(s, step.t, step.o, r); }
      else { TableStepKeepsIds(s, step.t, step.o, r); }
    }
  }

  lemma IdleStep(states: seq<State>, steps: seq<Step>, k: nat, r: nat)
    requires Run(states, steps) && k < |steps| && Idle(states[k], r)
    requires !Disowned(states, steps, k, states[k].heap[r].r.id)
    requires !KillFailed(states, steps, k, states[k].heap[r].r.id)
    ensures r < |states[k + 1].heap| && states[k + 1].heap[r].r.id == states[k].heap[r].r.id
    ensures Alike(FilesOf(states[k], states[k].heap[r].r.id), FilesOf(states[k + 1], states[k].heap[r].r.id))
  {
    var s, step := states[k], steps[k];
    assert Possible(s, step) && states[k + 1] == Apply(s, step);
    StepKeepsIds(s, step, r);
    WriterExecutes(s, step);
    if !Alike(FilesOf(s, s.heap[r].r.id), FilesOf(states[k + 1], s.heap[r].r.id)) {
      hide Apply, Possible, FilesOf, KillFailed, Disowned, NoExec, Takes;
      FilesOwned(states, steps, k, r);
    }
  }

  /** What a stop left is what the next wake finds: while a tracked sandbox is left alone,
      its files stay as they are, under the same condition. */
  lemma {:induction false} FilesStable(states: seq<State>, steps: seq<Step>, j: nat, k: nat, r: nat)
    requires Run(states, steps) && j <= k < |states| && r < |states[j].heap|
    requires forall m :: j <= m < k ==> Idle(states[m], r)
    requires !Disowned(states, steps, k, states[j].heap[r].r.id)
    requires !KillFailed(states, steps, k, states[j].heap[r].r.id)
    ensures r < |states[k].heap| && states[k].heap[r].r.id == states[j].heap[r].r.id
    ensures Alike(FilesOf(states[j], states[j].heap[r].r.id), FilesOf(states[k], states[j].heap[r].r.id))
  {
    hide Run, Idle, FilesOf, Disowned, KillFailed, FailedKill, Disowns;
    RunShape(states, steps);
    if j < k {
      DisownedSoFar(states, steps, k, states[j].heap[r].r.id);
      KillSoFar(states, steps, k, states[j].heap[r].r.id);
      FilesStable(states, steps, j, k - 1, r);
      IdleStep(states, steps, k - 1, r);
    }
  }

  lemma WriterExecutes(s: State, step: Step)
    requires Possible(s, step)
    ensures step.Write? ==> step.r < |s.heap| && !NoExec(s.heap[step.r].h.guests)
  {
  }

  // ---- slots --------------------------------------------------------------------

  /** The slot table and the sandbox table are inverse to each other. */
  lemma SlotTableInverse(states: seq<State>, steps: seq<Step>, k: nat, i: nat, id: Id)
    requires Run(states, steps) && k < |states| && i < |states[k].slots| && id != FREE
    ensures states[k].slots[i].owner == id <==>
      (id in states[k].sandboxes && states[k].sandboxes[id] < |states[k].heap| &&
       states[k].heap[states[k].sandboxes[id]].r.slot == i)
  {
    RunInv(states, steps, k);
    assert SlotInv(states[k], i);
    if id in states[k].sandboxes { EntryOfId(states[k], id); }
    hide Run, Inv;
  }

  /** No two tracked sandboxes share a slot, and with it a netns and a proxy port. */
  lemma SlotsDisjoint(states: seq<State>, steps: seq<Step>, k: nat, id1: Id, id2: Id)
    requires Run(states, steps) && k < |states|
    requires id1 in states[k].sandboxes && id2 in states[k].sandboxes && id1 != id2
    ensures states[k].sandboxes[id1] < |states[k].heap| && states[k].sandboxes[id2] < |states[k].heap|
    ensures states[k].heap[states[k].sandboxes[id1]].r.slot >= 0 ==>
      states[k].heap[states[k].sandboxes[id1]].r.slot != states[k].heap[states[k].sandboxes[id2]].r.slot
  {
    RunInv(states, steps, k);
    EntryOfId(states[k], id1);
    EntryOfId(states[k], id2);
    hide Run, Inv;
  }

  /** What Capacity reports as used is exactly the number of tracked sandboxes that
      hold a slot, and never more than there are slots. */
  lemma UsedIsExact(states: seq<State>, steps: seq<Step>, k: nat)
    requires Run(states, steps) && k < |states|
    ensures var s := states[k];
      && FirecrackerRuntime.Occupied(Owners(s.slots)) <= |s.slots|
      && FirecrackerRuntime.Occupied(Owners(s.slots)) ==
         |set id | id in s.sandboxes && s.sandboxes[id] < |s.heap| && s.heap[s.sandboxes[id]].r.slot >= 0|
  {
    var s := states[k];
    var owners := Owners(s.slots);
    var holding := set id | id in s.sandboxes && s.sandboxes[id] < |s.heap| && s.heap[s.sandboxes[id]].r.slot >= 0;
    RunInv(states, steps, k);
    hide Run;
    forall i, j | 0 <= i < j < |owners| && owners[i] != FREE ensures owners[i] != owners[j] {
      hide Rest;
      assert SlotInv(s, i) && SlotInv(s, j);
    }
    FirecrackerRuntime.OccupiedCountsOwners(owners);
    assert FirecrackerRuntime.OwnerSet(owners) == holding by {
      forall id | id in holding ensures id in FirecrackerRuntime.OwnerSet(owners) {
        EntryOfId(s, id);
        assert owners[s.heap[s.sandboxes[id]].r.slot] == id;
      }
      forall id | id in FirecrackerRuntime.OwnerSet(owners) ensures id in holding {
        var i :| 0 <= i < |owners| && owners[i] == id;
        assert SlotInv(s, i);
      }
    }
  }

  /** No step of any thread reads a slot or sandbox that does not exist: the runner's
      own range panics cannot fire. */
  lemma NoPanic(states: seq<State>, steps: seq<Step>, k: nat, t: nat)
    requires Run(states, steps) && k < |states| && t < |states[k].threads|
    ensures InRange(states[k], t)
  {
    RunInv(states, steps, k);
    var s := states[k];
    hide Run;
    ThreadOf(s, t);
    if Holds(s.threads[t]) { Mine(s, t); }
    if s.threads[t].pc.LateUntrack? { assert HeapInv(s, s.threads[t].ref); }
    hide Inv;
  }

  /** Lifecycle operations exclude each other: one sandbox, one claim holder. */
  lemma OneHolder(states: seq<State>, steps: seq<Step>, k: nat, t: nat, u: nat)
    requires Run(states, steps) && k < |states| && t < |states[k].threads| && u < |states[k].threads|
    requires Holds(states[k].threads[t]) && Holds(states[k].threads[u])
    requires states[k].threads[t].ref == states[k].threads[u].ref
    ensures t == u
  {
    RunInv(states, steps, k);
    hide Run;
    Mine(states[k], t);
    Mine(states[k], u);
  }

  // ---- incarnations -------------------------------------------------------------

  /** A microVM is started with a generation above every earlier one of its sandbox. */
  lemma GenerationsGrow(states: seq<State>, steps: seq<Step>, k: nat, r: nat, i: nat, j: nat)
    requires Run(states, steps) && k < |states| && r < |states[k].heap|
    requires i < j < |states[k].heap[r].h.guests|
    ensures states[k].heap[r].h.guests[i].gen < states[k].heap[r].h.guests[j].gen
  {
    RunInv(states, steps, k);
    assert HeapInv(states[k], r);
    hide Run, Inv;
  }

  /** recordGuestDeath counts an exit as a death exactly when no teardown of that
      microVM had begun. */
  lemma DeathCounted(states: seq<State>, steps: seq<Step>, k: nat)
    requires Run(states, steps) && k < |steps| && steps[k].Act? && Enabled(states[k], steps[k].t)
    requires states[k].threads[steps[k].t].pc.Record?
    ensures var th := states[k].threads[steps[k].t];
      && th.died < |states[k].heap| && th.pid < |states[k].heap[th.died].h.guests|
      && states[k].heap[th.died].h.guests[th.pid].status == Dead
      && (states[k + 1].threads[steps[k].t].pc.Waiting? <==> !states[k].heap[th.died].h.guests[th.pid].torn)
  {
    RunInv(states, steps, k);
    ThreadOf(states[k], steps[k].t);
    assert HeapInv(states[k], states[k].threads[steps[k].t].died);
    assert states[k + 1] == Apply(states[k], steps[k]);
    hide Run, Inv;
  }

  /** When a crash handler tears down, what it tears down is the microVM that died, of
      the very sandboxState it died in, however long the handler waited. */
  lemma DeathTearsDownItsOwn(states: seq<State>, steps: seq<Step>, k: nat, t: nat)
    requires Run(states, steps) && k < |states| && t < |states[k].threads|
    requires states[k].threads[t].op.Death? && states[k].threads[t].pc.Teardown?
    ensures var th := states[k].threads[t];
      && th.ref == th.died && th.ref < |states[k].heap|
      && states[k].heap[th.ref].r.process == Some(th.pid)
      && th.pid < |states[k].heap[th.ref].h.guests| && states[k].heap[th.ref].h.guests[th.pid].status == Dead
  {
    RunInv(states, steps, k);
    hide Run;
    Mine(states[k], t);
    var th := states[k].threads[t];
    var x := Box(states[k], th.ref);
    CurrentIsLast(x.h.guests, x.r.generation, th.pid);
  }

  /** While its microVM is being started, a sandbox is never taken away from the
      activation: the abandoned path needs a Shutdown. */
  lemma NeverAbandoned(states: seq<State>, steps: seq<Step>, k: nat, t: nat)
    requires Run(states, steps) && k < |states| && t < |states[k].threads|
    requires states[k].threads[t].pc.Publish? || states[k].threads[t].pc.PublishProxy?
    ensures states[k].threads[t].ref < |states[k].heap| && Tracked(states[k], states[k].threads[t].ref)
    ensures states[k].heap[states[k].threads[t].ref].r.transition != Deleting
  {
    RunInv(states, steps, k);
    hide Run;
    Mine(states[k], t);
  }

  // ---- namespaces ---------------------------------------------------------------

  predicate HasNet(s: State, r: nat) {
    r < |s.heap| && s.heap[r].h.net.NetReady? && 0 <= s.heap[r].r.slot < |s.slots|
  }

  /** The namespace of a sandbox that finished setupNetwork carries exactly its policy;
      a running sandbox has one; a free wired slot carries the default policy. */
  lemma NetworkPolicy(states: seq<State>, steps: seq<Step>, k: nat, r: nat, i: nat)
    requires Run(states, steps) && k < |states|
    ensures r < |states[k].heap| && states[k].heap[r].h.net.NetReady? ==>
      && HasNet(states[k], r)
      && states[k].slots[states[k].heap[r].r.slot].wired
      && states[k].slots[states[k].heap[r].r.slot].owner == states[k].heap[r].r.id
      && states[k].slots[states[k].heap[r].r.slot].ns.Built?
      && states[k].slots[states[k].heap[r].r.slot].ns.drop == states[k].heap[r].r.blockEgress
    ensures r < |states[k].heap| && Tracked(states[k], r) ==>
      states[k].heap[r].r.running && states[k].heap[r].r.transition.Unclaimed? ==>
      states[k].heap[r].h.net.NetReady?
    ensures i < |states[k].slots| && states[k].slots[i].owner == FREE && states[k].slots[i].wired ==>
      states[k].slots[i].ns.Built? && !states[k].slots[i].ns.drop
  {
    RunInv(states, steps, k);
    if r < |states[k].heap| {
      assert HeapInv(states[k], r);
      EntryOf(states[k], r);
    }
    if i < |states[k].slots| { assert SlotInv(states[k], i); }
    hide Run, Inv;
  }

  // ---- whose policy it is --------------------------------------------------------

  predicate SameJob(th: Thread, th': Thread) {
    th'.op == th.op && th'.id == th.id && th'.block == th.block
  }

  /** On the same sandbox, too. */
  predicate SameWork(th: Thread, th': Thread) {
    && SameJob(th, th') && th'.ref == th.ref && th'.died == th.died
    && (!th.pc.Capture? && !th.pc.StartJailer? ==> th'.gen == th.gen && th'.pid == th.pid)
  }

  lemma ClaimKeepsJob(th: Thread, x: Sandbox)
    ensures SameWork(th, AfterClaim(th, x))
  { }

  lemma AbandonKeepsJob(th: Thread)
    ensures SameWork(th, Abandon(th))
  { }

  lemma BuildKeepsJob(th: Thread, x: Sandbox, o: Outcome, tracked: bool)
    ensures SameWork(th, DoBuild(th, x, o, tracked).0)
  {
    AbandonKeepsJob(th);
    hide Abandon;
    if th.pc.StartJailer? || th.pc.PrepareJail? { }
  }

  lemma BootKeepsJob(th: Thread, x: Sandbox, o: Outcome, tracked: bool)
    ensures SameWork(th, DoBoot(th, x, o, tracked).0)
  {
    AbandonKeepsJob(th);
    hide Alive, SetLast, Abandon;
  }

  lemma FinishKeepsJob(th: Thread, x: Sandbox, o: Outcome, tracked: bool)
    ensures SameWork(th, DoFinish(th, x, o, tracked).0)
  {
    hide Take;
  }

  lemma StopKeepsJob(th: Thread, x: Sandbox, o: Outcome, tracked: bool)
    ensures SameWork(th, DoStop(th, x, o).0) && SameWork(th, DoTeardown(th, x, o, tracked).0)
  {
    hide Alive, SetLast, MarkTorn;
  }

  lemma LocalKeepsJob(th: Thread, x: Sandbox, o: Outcome, tracked: bool)
    requires LocalPc(th)
    ensures SameWork(th, DoLocal(th, x, o, tracked).0)
  {
    hide AfterClaim, DoBuild, DoBoot, DoStop, DoTeardown, DoFinish, SameWork;
    match th.pc {
      case Begun => ClaimKeepsJob(th, x);
      case StartGuest | Boot | NewProxy | PublishProxy | Probe | Up => BootKeepsJob(th, x, o, tracked);
      case DiskCheck | Pause | Snapshot | Unpin | Resume => StopKeepsJob(th, x, o, tracked);
      case Mark | Teardown | Kill | CleanHost => StopKeepsJob(th, x, o, tracked);
      case TornDown | Remove | FailDelete | End => FinishKeepsJob(th, x, o, tracked);
      case _ => BuildKeepsJob(th, x, o, tracked);
    }
  }

  lemma SameJobSelf(th: Thread)
    ensures SameJob(th, th)
  { }

  /** The step of thread t moves that thread and no other, on the same job. */
  predicate Moves(s: State, t: nat, s': State)
    requires t < |s.threads|
  {
    |s'.threads| == |s.threads| && s'.threads == s.threads[t := s'.threads[t]] && SameJob(s.threads[t], s'.threads[t])
  }

  /** And keeps to the same sandbox. */
  predicate Stays(s: State, t: nat, s': State)
    requires t < |s.threads|
  {
    && Moves(s, t, s') && s'.threads[t].ref == s.threads[t].ref && !s'.threads[t].pc.Reserve?
    && s'.threads[t].died == s.threads[t].died && s'.threads[t].gen == s.threads[t].gen
    && s'.threads[t].pid == s.threads[t].pid
  }

  lemma ReserveMoves(s: State, t: nat, ok: bool)
    requires t < |s.threads|
    ensures Moves(s, t, DoReserve(s, t, ok)) && Moves(s, t, DoWait(s, t))
    ensures s.threads[t].ref < |s.heap| ==> Stays(s, t, DoWakeSlot(s, t))
  { }

  lemma NetBuildMoves(s: State, t: nat, o: Outcome)
    requires t < |s.threads| && 0 <= s.threads[t].slot < |s.slots|
    ensures Stays(s, t, DoNetBuild(s, t, o))
  { }

  lemma NetFinishMoves(s: State, t: nat, o: Outcome)
    requires t < |s.threads| && 0 <= s.threads[t].slot < |s.slots|
    requires !s.threads[t].op.Wire? ==> s.threads[t].ref < |s.heap|
    ensures Stays(s, t, DoNetFinish(s, t, o))
  { }

  lemma ClearMoves(s: State, t: nat, o: Outcome)
    requires t < |s.threads| && 0 <= s.threads[t].slot < |s.slots| && s.threads[t].ref < |s.heap|
    ensures Stays(s, t, DoClear(s, t, o)) && Stays(s, t, DoClearCheck(s, t))
  { }

  lemma ReleaseMoves(s: State, t: nat, late: bool)
    requires t < |s.threads| && s.threads[t].ref < |s.heap| && s.heap[s.threads[t].ref].r.slot < |s.slots|
    ensures Stays(s, t, DoFinal(s, t)) && Stays(s, t, DoUntrack(s, t, late))
  { }

  lemma SimpleMoves(s: State, t: nat, pc: Pc, i: nat)
    requires t < |s.threads|
    ensures 0 <= s.threads[t].slot < |s.slots| && !pc.Reserve? ==> Stays(s, t, TakeLock(s, t, pc))
    ensures s.threads[t].died < |s.heap| ==> Moves(s, t, DoRecord(s, t))
    ensures Moves(s, t, DoWire(s, t, i)) && Moves(s, t, s)
  { }

  lemma TableMoves(s: State, t: nat, o: Outcome)
    requires Enabled(s, t) && !LocalPc(s.threads[t])
    ensures Moves(s, t, DoAct(s, t, o))
    ensures Holds(s.threads[t]) || s.threads[t].pc.LateUntrack? ==> Stays(s, t, DoAct(s, t, o))
  {
    hide Moves, DoLocal, DoReserve, DoWakeSlot, DoWait, DoRecord, DoNetBuild, DoNetFinish, DoClear, DoClearCheck;
    hide DoFinal, DoUntrack, DoWire, TakeLock;
    match s.threads[t].pc {
      case Reserve => ReserveMoves(s, t, o.ok);
      case Waiting => ReserveMoves(s, t, o.ok);
      case NetLocked => NetBuildMoves(s, t, o);
      case NetWired => NetFinishMoves(s, t, o);
      case ClearHeld => ClearMoves(s, t, o);
      case ClearGo => ClearMoves(s, t, o);
      case Final => ReleaseMoves(s, t, false);
      case Untrack => ReleaseMoves(s, t, false);
      case LateUntrack => ReleaseMoves(s, t, true);
      case NetWait => SimpleMoves(s, t, NetLocked, o.pick);
      case ClearWait => SimpleMoves(s, t, ClearHeld, o.pick);
      case _ => SimpleMoves(s, t, NetLocked, o.pick);
    }
  }

  lemma ActKeepsJobs(s: State, t: nat, o: Outcome, u: nat)
    requires Enabled(s, t) && u < |s.threads|
    ensures u < |DoAct(s, t, o).threads| == |s.threads| && SameJob(s.threads[u], DoAct(s, t, o).threads[u])
  {
    hide DoLocal, SameJob, ReleaseSlots, FirstFree, Owners, Abandon;
    SameJobSelf(s.threads[u]);
    if LocalPc(s.threads[t]) {
      LocalKeepsJob(s.threads[t], Box(s, s.threads[t].ref), o, Tracked(s, s.threads[t].ref));
    } else {
      TableMoves(s, t, o);
    }
  }

  /** An operation is what it was started as. */
  lemma {:induction false} SpawnedBy(states: seq<State>, steps: seq<Step>, k: nat, t: nat) returns (i: nat)
    requires Run(states, steps) && k < |states| && t < |states[k].threads| && states[k].threads[t].op != Death
    ensures i < k && |states[i].threads| == t
    ensures var th := states[k].threads[t]; steps[i] == Spawn(th.op, th.id, th.block)
  {
    hide Run, Apply, Possible;
    RunShape(states, steps);
    if k == 0 {
      NoThreadsYet(states, steps);
      assert false;
    } else {
      RunStep(states, steps, k - 1);
      if t < |states[k - 1].threads| {
        StepKeepsJobs(states[k - 1], steps[k - 1], t);
        i := SpawnedBy(states, steps, k - 1, t);
      } else {
        NewThreadIsSpawned(states[k - 1], steps[k - 1], t);
        i := k - 1;
      }
    }
  }

  lemma NoThreadsYet(states: seq<State>, steps: seq<Step>)
    requires Run(states, steps)
    ensures states[0].threads == [] && states[0].heap == []
  { }

  lemma StepKeepsJobs(s: State, step: Step, u: nat)
    requires Possible(s, step) && u < |s.threads|
    ensures u < |Apply(s, step).threads| && SameJob(s.threads[u], Apply(s, step).threads[u])
  {
    hide DoAct;
    if step.Act? { ActKeepsJobs(s, step.t, step.o, u); }
  }

  lemma NewThreadIsSpawned(s: State, step: Step, t: nat)
    requires Possible(s, step) && |s.threads| <= t < |Apply(s, step).threads| && Apply(s, step).threads[t].op != Death
    ensures var th := Apply(s, step).threads[t]; t == |s.threads| && step == Spawn(th.op, th.id, th.block)
  {
    hide DoAct;
    if step.Act? { ActKeepsJobs(s, step.t, step.o, step.t); }
  }

  /** The step reserves incarnation r for the create that takes it. */
  predicate Reserving(s: State, step: Step, r: nat) {
    && step.Act? && Enabled(s, step.t) && s.threads[step.t].pc.Reserve? && s.threads[step.t].op.Create?
    && |s.heap| == r
  }

  lemma GrowsByReserve(s: State, t: nat, o: Outcome)
    requires Enabled(s, t)
    ensures |DoAct(s, t, o).heap| > |s.heap| ==>
      && s.threads[t].pc.Reserve? && !s.threads[t].op.Wake? && |DoAct(s, t, o).heap| == |s.heap| + 1
      && var x := DoAct(s, t, o).heap[|s.heap|].r;
      && x.id == s.threads[t].id && x.blockEgress == s.threads[t].block
  {
    hide DoLocal, ReleaseSlots, FirstFree, Owners, Abandon;
    match s.threads[t].pc {
      case Reserve => hide DoWait;
      case Waiting =>
      case _ => hide DoWait, DoReserve, DoWakeSlot;
    }
  }

  lemma NewEntryIsReserved(s: State, step: Step, r: nat)
    requires Inv(s) && Possible(s, step) && |s.heap| <= r < |Apply(s, step).heap|
    ensures Reserving(s, step, r)
    ensures var x, th := Apply(s, step).heap[r].r, s.threads[step.t]; x.id == th.id && x.blockEgress == th.block
  {
    hide Inv;
    if step.Act? { GrowsByReserve(s, step.t, step.o); } else { hide DoAct; }
    ThreadOf(s, step.t);
    hide ClaimInv, NetInv, DeathInv, DoAct;
  }

  /** Every incarnation goes back to the create that reserved it, and has its id and policy. */
  lemma {:induction false} ReservedBy(states: seq<State>, steps: seq<Step>, k: nat, r: nat) returns (j: nat)
    requires Run(states, steps) && k < |states| && r < |states[k].heap|
    ensures j < k && Reserving(states[j], steps[j], r)
    ensures var x, th := states[k].heap[r].r, states[j].threads[steps[j].t]; x.id == th.id && x.blockEgress == th.block
  {
    hide Run, Apply, Possible, Inv, Reserving;
    RunShape(states, steps);
    if k == 0 {
      NoThreadsYet(states, steps);
      assert false;
    } else {
      RunStep(states, steps, k - 1);
      if r < |states[k - 1].heap| {
        StepKeepsIds(states[k - 1], steps[k - 1], r);
        j := ReservedBy(states, steps, k - 1, r);
      } else {
        RunInv(states, steps, k - 1);
        NewEntryIsReserved(states[k - 1], steps[k - 1], r);
        j := k - 1;
      }
    }
  }

  /** The namespace a sandbox uses drops egress exactly when the create that reserved this
      very incarnation was started to block it. */
  lemma EgressAsAsked(states: seq<State>, steps: seq<Step>, k: nat, r: nat) returns (i: nat, j: nat)
    requires Run(states, steps) && k < |states| && r < |states[k].heap| && states[k].heap[r].h.net.NetReady?
    ensures i < j < k && Reserving(states[j], steps[j], r) && |states[i].threads| == steps[j].t
    ensures steps[i].Spawn? && steps[i].op == Create && steps[i].id == states[k].heap[r].r.id
    ensures HasNet(states[k], r)
    ensures states[k].slots[states[k].heap[r].r.slot].ns.Built?
    ensures states[k].slots[states[k].heap[r].r.slot].ns.drop == steps[i].block
  {
    j := ReservedBy(states, steps, k, r);
    i := SpawnedBy(states, steps, j, steps[j].t);
    NetworkPolicy(states, steps, k, r, 0);
  }

  /** The step is the teardown of sandbox r's own microVM. */
  predicate OwnTeardown(s: State, step: Step, r: nat) {
    step.Act? && step.t < |s.threads| && s.threads[step.t].pc.Teardown? && s.threads[step.t].ref == r
  }

  /** The slot and namespace of sandbox r are the same in s and s'. */
  predicate SameNet(s: State, s': State, r: nat)
    requires HasNet(s, r)
  {
    HasNet(s', r) && s'.heap[r].r.slot == s.heap[r].r.slot &&
    s'.slots[s.heap[r].r.slot].ns == s.slots[s.heap[r].r.slot].ns && s'.slots[s.heap[r].r.slot].wired
  }

  lemma BuildStepKeepsNet(s: State, t: nat, o: Outcome, r: nat)
    requires Inv(s) && Enabled(s, t) && HasNet(s, r) && s.threads[t].pc.NetLocked?
    ensures SameNet(s, DoAct(s, t, o), r)
  {
    NetHolder(s, t);
    assert HeapInv(s, r);
    hide Inv, SandboxInv, Rest, Local, EntryInv, Holds;
  }

  lemma FinishStepKeepsNet(s: State, t: nat, o: Outcome, r: nat)
    requires Inv(s) && Enabled(s, t) && HasNet(s, r) && s.threads[t].pc.NetWired?
    ensures SameNet(s, DoAct(s, t, o), r)
  {
    NetHolder(s, t);
    assert HeapInv(s, r);
    if !s.threads[t].op.Wire? { FinishFacts(s, t); }
    hide Inv, SandboxInv, Rest, Local, EntryInv, Holds, PreStart;
  }

  /** A clear that goes ahead is not on the slot of a sandbox with a namespace. */
  lemma ClearsElsewhere(s: State, t: nat, r: nat)
    requires Inv(s) && t < |s.threads| && HasNet(s, r) && s.threads[t].pc.ClearGo?
    ensures s.threads[t].ref != r && s.threads[t].slot != s.heap[r].r.slot
  {
    NetHolder(s, t);
    assert HeapInv(s, r);
    EntryOf(s, r);
    hide Inv, SandboxInv, Rest, Quiet, AllTorn;
  }

  lemma ClearKeepsNet(s: State, t: nat, o: Outcome, r: nat)
    requires t < |s.threads| && s.threads[t].ref < |s.heap| && 0 <= s.threads[t].slot < |s.slots|
    requires HasNet(s, r) && s.slots[s.heap[r].r.slot].wired
    ensures s.threads[t].ref != r && s.threads[t].slot != s.heap[r].r.slot ==> SameNet(s, DoClear(s, t, o), r)
    ensures SameNet(s, DoClearCheck(s, t), r)
  { }

  lemma ClearStepKeepsNet(s: State, t: nat, o: Outcome, r: nat)
    requires Inv(s) && Enabled(s, t) && HasNet(s, r) && (s.threads[t].pc.ClearGo? || s.threads[t].pc.ClearHeld?)
    ensures SameNet(s, DoAct(s, t, o), r)
  {
    hide Inv, SameNet, DoClear, DoClearCheck, DoLocal;
    NetIsWired(s, r);
    if s.threads[t].pc.ClearGo? { ClearsElsewhere(s, t, r); }
    ClearKeepsNet(s, t, o, r);
  }

  lemma SlotStepKeepsNet(s: State, t: nat, o: Outcome, r: nat)
    requires Inv(s) && Enabled(s, t) && HasNet(s, r) && HoldsNet(s.threads[t])
    ensures SameNet(s, DoAct(s, t, o), r)
  {
    hide Inv, DoAct, SameNet, HasNet;
    if s.threads[t].pc.NetLocked? { BuildStepKeepsNet(s, t, o, r); }
    else if s.threads[t].pc.NetWired? { FinishStepKeepsNet(s, t, o, r); }
    else { ClearStepKeepsNet(s, t, o, r); }
  }

  lemma NetIsWired(s: State, r: nat)
    requires Inv(s) && HasNet(s, r)
    ensures s.slots[s.heap[r].r.slot].wired
  {
    assert HeapInv(s, r);
  }

  /** A slot is only given back once nothing is left of the namespace on it. */
  lemma ReleaserHasNoNet(s: State, t: nat)
    requires Inv(s) && Enabled(s, t)
    requires s.threads[t].pc.Final? || s.threads[t].pc.Untrack? || s.threads[t].pc.LateUntrack?
    ensures s.heap[s.threads[t].ref].h.net.NoNet?
  {
    ThreadOf(s, t);
    hide Inv, NetInv, DeathInv, Pin;
  }

  lemma FinalKeepsNet(s: State, t: nat, r: nat)
    requires t < |s.threads| && s.threads[t].ref < |s.heap| && s.heap[s.threads[t].ref].r.slot < |s.slots|
    requires HasNet(s, r) && s.slots[s.heap[r].r.slot].wired && s.threads[t].ref != r
    ensures SameNet(s, DoFinal(s, t), r)
  { }

  lemma UntrackKeepsNet(s: State, t: nat, late: bool, r: nat)
    requires t < |s.threads| && s.threads[t].ref < |s.heap| && s.heap[s.threads[t].ref].r.slot < |s.slots|
    requires HasNet(s, r) && s.slots[s.heap[r].r.slot].wired && s.threads[t].ref != r
    ensures SameNet(s, DoUntrack(s, t, late), r)
  { }

  lemma ReleaseStepKeepsNet(s: State, t: nat, o: Outcome, r: nat)
    requires Inv(s) && Enabled(s, t) && HasNet(s, r)
    requires s.threads[t].pc.Final? || s.threads[t].pc.Untrack? || s.threads[t].pc.LateUntrack?
    ensures SameNet(s, DoAct(s, t, o), r)
  {
    hide Inv, DoLocal, DoFinal, DoUntrack, SameNet;
    ReleaserHasNoNet(s, t);
    NetIsWired(s, r);
    if s.threads[t].pc.Final? { FinalKeepsNet(s, t, r); }
    else { UntrackKeepsNet(s, t, s.threads[t].pc.LateUntrack?, r); }
  }

  lemma WakerHasNoNet(s: State, t: nat)
    requires Inv(s) && Enabled(s, t) && s.threads[t].pc.Reserve? && s.threads[t].op.Wake?
    ensures s.heap[s.threads[t].ref].h.net.NoNet?
  {
    ThreadOf(s, t);
    hide Inv, NetInv, DeathInv;
  }

  lemma WakeKeepsNet(s: State, t: nat, r: nat)
    requires t < |s.threads| && s.threads[t].ref < |s.heap| && s.threads[t].ref != r
    requires HasNet(s, r) && s.slots[s.heap[r].r.slot].wired
    ensures SameNet(s, DoWakeSlot(s, t), r)
  { }

  lemma ReserveKeepsNet(s: State, t: nat, ok: bool, r: nat)
    requires t < |s.threads| && HasNet(s, r) && s.slots[s.heap[r].r.slot].wired
    ensures SameNet(s, DoReserve(s, t, ok), r)
  { }

  lemma WaitKeepsNet(s: State, t: nat, r: nat)
    requires t < |s.threads| && HasNet(s, r) && s.slots[s.heap[r].r.slot].wired
    ensures SameNet(s, DoWait(s, t), r)
  { }

  /** A take of a netMu, and the steps that change the thread alone. */
  lemma LockKeepsNet(s: State, t: nat, o: Outcome, r: nat)
    requires Enabled(s, t) && HasNet(s, r) && s.slots[s.heap[r].r.slot].wired
    requires match s.threads[t].pc
             case Record | NetWait | ClearWait | Wiring | Done => true
             case _ => false
    ensures SameNet(s, DoAct(s, t, o), r)
  {
    hide DoLocal, DoFinal, DoUntrack, DoReserve, DoWakeSlot, DoWait;
  }

  lemma TableStepKeepsNet(s: State, t: nat, o: Outcome, r: nat)
    requires Inv(s) && Enabled(s, t) && HasNet(s, r) && !LocalPc(s.threads[t])
    requires !HoldsNet(s.threads[t])
    ensures SameNet(s, DoAct(s, t, o), r)
  {
    hide Inv, SameNet, DoLocal, DoFinal, DoUntrack, DoReserve, DoWakeSlot, DoWait;
    NetIsWired(s, r);
    if s.threads[t].pc.Final? || s.threads[t].pc.Untrack? || s.threads[t].pc.LateUntrack? {
      ReleaseStepKeepsNet(s, t, o, r);
    } else if s.threads[t].pc.Reserve? && s.threads[t].op.Wake? {
      WakerHasNoNet(s, t);
      WakeKeepsNet(s, t, r);
    } else if s.threads[t].pc.Reserve? {
      ReserveKeepsNet(s, t, o.ok, r);
    } else if s.threads[t].pc.Waiting? {
      WaitKeepsNet(s, t, r);
    } else {
      LockKeepsNet(s, t, o, r);
    }
  }

  /** x' is x with the same slot and network use. */
  predicate NetAlike(x: Sandbox, x': Sandbox) {
    x'.h.net == x.h.net && x'.r.slot == x.r.slot
  }

  lemma BuildKeepsNet(th: Thread, x: Sandbox, o: Outcome, tracked: bool)
    ensures NetAlike(x, DoBuild(th, x, o, tracked).1)
  { }

  lemma BootKeepsNet(th: Thread, x: Sandbox, o: Outcome, tracked: bool)
    ensures NetAlike(x, DoBoot(th, x, o, tracked).1)
  {
    hide Abandon, Alive;
  }

  lemma EndKeepsNet(th: Thread, x: Sandbox, o: Outcome, tracked: bool)
    requires !th.pc.Teardown?
    ensures NetAlike(x, DoStop(th, x, o).1)
    ensures NetAlike(x, DoTeardown(th, x, o, tracked).1) && NetAlike(x, DoFinish(th, x, o, tracked).1)
  { }

  /** No step of a thread on its own sandbox but the teardown touches slot or network. */
  lemma LocalKeepsNet(th: Thread, x: Sandbox, o: Outcome, tracked: bool)
    requires LocalPc(th) && !th.pc.Teardown?
    ensures NetAlike(x, DoLocal(th, x, o, tracked).1)
  {
    hide AfterClaim, DoBuild, DoBoot, DoStop, DoTeardown, DoFinish;
    BuildKeepsNet(th, x, o, tracked);
    BootKeepsNet(th, x, o, tracked);
    EndKeepsNet(th, x, o, tracked);
  }

  lemma LocalStepKeepsNet(s: State, t: nat, o: Outcome, r: nat)
    requires Inv(s) && Enabled(s, t) && HasNet(s, r) && LocalPc(s.threads[t])
    requires !OwnTeardown(s, Act(t, o), r)
    ensures SameNet(s, DoAct(s, t, o), r)
  {
    assert HeapInv(s, r);
    var th := s.threads[t];
    if th.ref == r { LocalKeepsNet(th, Box(s, r), o, Tracked(s, r)); }
    var res := DoLocal(th, Box(s, th.ref), o, Tracked(s, th.ref));
    assert DoAct(s, t, o) == PutLocal(s, t, res.0, res.1);
    hide Inv, SandboxInv, Rest, DoLocal, Tracked, DoAct, Enabled;
  }

  /** From the moment a sandbox has set up its network, no step of any thread deletes,
      rebuilds or changes its namespace, except the teardown of its own microVM. */
  lemma NetworkKept(s: State, step: Step, r: nat)
    requires Inv(s) && Possible(s, step) && HasNet(s, r) && !OwnTeardown(s, step, r)
    ensures SameNet(s, Apply(s, step), r)
  {
    if step.Act? {
      hide DoAct, Inv;
      if LocalPc(s.threads[step.t]) { LocalStepKeepsNet(s, step.t, step.o, r); }
      else if HoldsNet(s.threads[step.t]) { SlotStepKeepsNet(s, step.t, step.o, r); }
      else { TableStepKeepsNet(s, step.t, step.o, r); }
    } else {
      assert HeapInv(s, r);
      hide Inv;
    }
  }

  /** Over a stretch of a run with no teardown of its own, a sandbox keeps the very
      namespace it set up. */
  lemma {:induction false} NetworkStable(states: seq<State>, steps: seq<Step>, j: nat, k: nat, r: nat)
    requires Run(states, steps) && j <= k < |states| && HasNet(states[j], r)
    requires forall m :: j <= m < k ==> !OwnTeardown(states[m], steps[m], r)
    ensures SameNet(states[j], states[k], r)
  {
    hide Inv, Apply, Possible, SameNet, HasNet, OwnTeardown;
    if j == k {
      RunInv(states, steps, j);
      SameNetSelf(states[j], r);
    } else {
      NetworkStable(states, steps, j, k - 1, r);
      RunInv(states, steps, k - 1);
      assert Possible(states[k - 1], steps[k - 1]) && states[k] == Apply(states[k - 1], steps[k - 1]);
      SameNetHas(states[j], states[k - 1], r);
      NetworkKept(states[k - 1], steps[k - 1], r);
      SameNetAgain(states[j], states[k - 1], states[k], r);
    }
  }

  lemma SameNetSelf(s: State, r: nat)
    requires Inv(s) && HasNet(s, r)
    ensures SameNet(s, s, r)
  {
    assert HeapInv(s, r);
  }

  lemma SameNetHas(a: State, b: State, r: nat)
    requires HasNet(a, r) && SameNet(a, b, r)
    ensures HasNet(b, r)
  { }

  lemma SameNetAgain(a: State, b: State, c: State, r: nat)
    requires HasNet(a, r) && HasNet(b, r) && SameNet(a, b, r) && SameNet(b, c, r)
    ensures SameNet(a, c, r)
  { }
}
