/**
 What is left over at rest, and what became of a crash.  A sandbox nobody works on that
 neither runs nor is stopped goes back to a step that failed, in the teardown of that very
 sandboxState by a create or a delete.  And a crash handler is over only when the microVM
 that died has been torn down, or its sandboxState is gone or going.
 */
module FirecrackerLeftovers {
  import opened FirecrackerModel
  import opened FirecrackerMachine
  import opened FirecrackerInvariant
  import opened FirecrackerPreserve
  import opened FirecrackerSteps
  import opened FirecrackerTables
  import opened FirecrackerSafety
  import opened FirecrackerOutcomes

  // ---- failed cleanups ---------------------------------------------------------------

  predicate Cleans(op: Op) {
    op.Create? || op.Delete?
  }

  /** A host command of a create's or delete's teardown of sandboxState r goes wrong: the
      kill or the proxy, the jail, the network, or the removal of the files. */
  predicate CleanupFails(s: State, step: Step, r: nat) {
    && step.Act? && Enabled(s, step.t)
    && var th := s.threads[step.t];
      && th.ref == r && Cleans(th.op)
      && match th.pc
         case Kill => !step.o.ok || !step.o.effect
         case CleanHost | ClearGo | Remove => !step.o.ok
         case _ => false
  }

  /** A create or delete that knows its teardown failed. */
  predicate Troubled(th: Thread) {
    && Cleans(th.op)
    && match th.pc
       case Kill | CleanHost | ClearWait | ClearHeld | ClearGo | TornDown | Remove => th.err
       case FailDelete => true
       case _ => false
  }

  /** Where the trouble comes from, within one step of the thread on its own sandbox. */
  predicate FromHere(th: Thread, o: Outcome, th': Thread) {
    Troubled(th') ==>
      || Troubled(th)
      || (Cleans(th.op) && match th.pc
          case Kill => !o.ok || !o.effect
          case CleanHost | ClearGo | Remove => !o.ok
          case _ => false)
  }

  lemma ClaimTrouble(th: Thread, x: Sandbox, o: Outcome)
    ensures FromHere(th, o, AfterClaim(th, x))
  { }

  lemma AbandonTrouble(th: Thread)
    ensures !Troubled(Abandon(th))
  { }

  lemma BuildTrouble(th: Thread, x: Sandbox, o: Outcome, tracked: bool)
    ensures !Troubled(DoBuild(th, x, o, tracked).0)
  {
    AbandonTrouble(th);
    hide Abandon;
  }

  lemma BootTrouble(th: Thread, x: Sandbox, o: Outcome, tracked: bool)
    ensures !Troubled(DoBoot(th, x, o, tracked).0)
  {
    AbandonTrouble(th);
    hide Abandon, Alive, SetLast;
  }

  lemma StopTrouble(th: Thread, x: Sandbox, o: Outcome)
    ensures !Troubled(DoStop(th, x, o).0)
  {
    hide Alive, SetLast;
  }

  lemma TeardownTrouble(th: Thread, x: Sandbox, o: Outcome, tracked: bool)
    requires th.pc.Mark? || th.pc.Teardown? || th.pc.Kill? || th.pc.CleanHost?
    ensures FromHere(th, o, DoTeardown(th, x, o, tracked).0)
  {
    hide MarkTorn, Take;
  }

  lemma FinishTrouble(th: Thread, x: Sandbox, o: Outcome, tracked: bool)
    requires th.pc.TornDown? || th.pc.Remove? || th.pc.FailDelete? || th.pc.End?
    ensures FromHere(th, o, DoFinish(th, x, o, tracked).0)
  {
    hide Take;
  }

  lemma LocalTrouble(th: Thread, x: Sandbox, o: Outcome, tracked: bool)
    requires LocalPc(th)
    ensures FromHere(th, o, DoLocal(th, x, o, tracked).0)
  {
    hide AfterClaim, DoBuild, DoBoot, DoStop, DoTeardown, DoFinish, Troubled;
    match th.pc {
      case Begun => ClaimTrouble(th, x, o);
      case StartGuest | Boot | NewProxy | PublishProxy | Probe | Up => BootTrouble(th, x, o, tracked);
      case DiskCheck | Pause | Snapshot | Unpin | Resume => StopTrouble(th, x, o);
      case Mark | Teardown | Kill | CleanHost => TeardownTrouble(th, x, o, tracked);
      case TornDown | Remove | FailDelete | End => FinishTrouble(th, x, o, tracked);
      case _ => BuildTrouble(th, x, o, tracked);
    }
  }

  lemma NetTrouble(s: State, t: nat, o: Outcome)
    requires t < |s.threads| && 0 <= s.threads[t].slot < |s.slots|
    ensures !Troubled(DoNetBuild(s, t, o).threads[t])
    ensures s.threads[t].op.Wire? || s.threads[t].ref < |s.heap| ==> !Troubled(DoNetFinish(s, t, o).threads[t])
  {
    AbandonTrouble(s.threads[t]);
    hide Abandon;
  }

  lemma StartTrouble(s: State, t: nat, ok: bool)
    requires t < |s.threads|
    ensures s.threads[t].ref < |s.heap| ==> !Troubled(DoWakeSlot(s, t).threads[t])
    ensures !Troubled(DoReserve(s, t, ok).threads[t])
  {
    hide FirstFree, Owners;
  }

  lemma WaitTrouble(s: State, t: nat, i: nat)
    requires t < |s.threads| && !Troubled(s.threads[t])
    ensures !Troubled(DoWait(s, t).threads[t]) && !Troubled(DoWire(s, t, i).threads[t])
    ensures s.threads[t].died < |s.heap| ==> !Troubled(DoRecord(s, t).threads[t])
    ensures 0 <= s.threads[t].slot < |s.slots| ==> !Troubled(TakeLock(s, t, NetLocked).threads[t])
  {
    hide Claimable;
  }

  lemma ClearTrouble(s: State, t: nat, o: Outcome)
    requires t < |s.threads| && 0 <= s.threads[t].slot < |s.slots| && s.threads[t].ref < |s.heap|
    ensures s.threads[t].pc.ClearHeld? ==> FromHere(s.threads[t], o, DoClearCheck(s, t).threads[t])
    ensures s.threads[t].pc.ClearGo? ==> FromHere(s.threads[t], o, DoClear(s, t, o).threads[t])
    ensures s.threads[t].pc.ClearWait? ==> FromHere(s.threads[t], o, TakeLock(s, t, ClearHeld).threads[t])
  { }

  lemma EndTrouble(s: State, t: nat, late: bool)
    requires t < |s.threads| && s.threads[t].ref < |s.heap| && s.heap[s.threads[t].ref].r.slot < |s.slots|
    ensures !Troubled(DoFinal(s, t).threads[t]) && !Troubled(DoUntrack(s, t, late).threads[t])
  {
    hide ReleaseSlots;
  }

  lemma TableTrouble(s: State, t: nat, o: Outcome)
    requires Enabled(s, t) && !LocalPc(s.threads[t])
    ensures t < |DoAct(s, t, o).threads| && FromHere(s.threads[t], o, DoAct(s, t, o).threads[t])
  {
    TableMoves(s, t, o);
    var th := s.threads[t];
    assert !Troubled(th) || th.pc.ClearWait? || th.pc.ClearHeld? || th.pc.ClearGo?;
    hide DoLocal, Troubled, DoReserve, DoWakeSlot, DoWait, DoRecord, DoNetBuild, DoNetFinish, DoClear, DoClearCheck;
    hide DoFinal, DoUntrack, DoWire, TakeLock;
    match th.pc {
      case Reserve => StartTrouble(s, t, o.ok);
      case NetLocked => NetTrouble(s, t, o);
      case NetWired => NetTrouble(s, t, o);
      case ClearWait => ClearTrouble(s, t, o);
      case ClearHeld => ClearTrouble(s, t, o);
      case ClearGo => ClearTrouble(s, t, o);
      case Final => EndTrouble(s, t, false);
      case Untrack => EndTrouble(s, t, false);
      case LateUntrack => EndTrouble(s, t, true);
      case _ => WaitTrouble(s, t, o.pick);
    }
  }

  lemma OwnTrouble(s: State, t: nat, o: Outcome)
    requires Inv(s) && Enabled(s, t) && t < |DoAct(s, t, o).threads| && Troubled(DoAct(s, t, o).threads[t])
    ensures DoAct(s, t, o).threads[t].ref == s.threads[t].ref
    ensures Troubled(s.threads[t]) || CleanupFails(s, Act(t, o), s.threads[t].ref)
  {
    var th := s.threads[t];
    if LocalPc(th) {
      var res := DoLocal(th, Box(s, th.ref), o, Tracked(s, th.ref));
      assert DoAct(s, t, o) == PutLocal(s, t, res.0, res.1);
      hide Inv, Troubled, DoLocal, DoAct, LocalPc;
      LocalTrouble(th, Box(s, th.ref), o, Tracked(s, th.ref));
      LocalKeepsJob(th, Box(s, th.ref), o, Tracked(s, th.ref));
    } else {
      hide Inv, Troubled, DoLocal, DoAct, LocalPc;
      TableTrouble(s, t, o);
      TroubleHolds(s, t, o, DoAct(s, t, o).threads[t]);
      TableMoves(s, t, o);
    }
  }

  lemma TroubleHolds(s: State, t: nat, o: Outcome, th': Thread)
    requires Enabled(s, t) && FromHere(s.threads[t], o, th') && Troubled(th')
    ensures Holds(s.threads[t])
  { }

  /** A create or delete that cannot finish goes back to a failure of its own teardown. */
  lemma {:induction false} TroubleHasCause(states: seq<State>, steps: seq<Step>, k: nat, t: nat) returns (m: nat)
    requires Run(states, steps) && k < |states| && t < |states[k].threads| && Troubled(states[k].threads[t])
    ensures m < k && CleanupFails(states[m], steps[m], states[k].threads[t].ref) && steps[m].t == t
  {
    hide Run, Inv, Apply, Possible, Troubled, CleanupFails;
    RunShape(states, steps);
    if k == 0 {
      NoThreadsYet(states, steps);
      assert false;
    } else {
      m := k - 1;
      RunStep(states, steps, m);
      RunInv(states, steps, m);
      TroubleStep(states[m], steps[m], t);
      if Troubled(states[m].threads[t]) {
        m := TroubleHasCause(states, steps, k - 1, t);
      }
    }
  }

  lemma TroubleStep(s: State, step: Step, t: nat)
    requires Inv(s) && Possible(s, step) && t < |Apply(s, step).threads| && Troubled(Apply(s, step).threads[t])
    ensures t < |s.threads| && s.threads[t].ref == Apply(s, step).threads[t].ref
    ensures Troubled(s.threads[t]) || (step.Act? && step.t == t && CleanupFails(s, step, s.threads[t].ref))
  {
    if t >= |s.threads| {
      TroubledHolds(Apply(s, step).threads[t]);
      NewThreadIdle(s, step, t);
      assert false;
    } else if step.Act? && step.t == t {
      hide Inv, Troubled, DoAct, CleanupFails;
      OwnTrouble(s, t, step.o);
    } else if s.threads[t].pc.Waiting? {
      TroubledHolds(Apply(s, step).threads[t]);
      OthersNotHolding(s, step, t);
      assert false;
    } else {
      OthersKeepThread(s, step, t);
      hide Apply, Inv;
    }
  }

  lemma TroubledHolds(th: Thread)
    requires Troubled(th)
    ensures Holds(th)
  { }

  // ---- leftovers ---------------------------------------------------------------------------

  /** A tracked sandbox that neither runs nor is stopped, and that no create or delete is
      working on. */
  predicate LeftOver(s: State, r: nat) {
    && r < |s.heap| && Tracked(s, r) && !s.heap[r].r.running && !s.heap[r].r.stopped
    && Unattended(s, r)
  }

  predicate Unattended(s: State, r: nat)
    requires r < |s.heap|
  {
    s.heap[r].h.holder.Some? ==>
      s.heap[r].h.holder.value < |s.threads| && !Cleans(s.threads[s.heap[r].h.holder.value].op)
  }

  predicate IsUp(x: Rec) {
    x.running || x.stopped
  }

  /** The holder's step on its own sandbox leaves it down and unattended only at the end of
      a delete that failed. */
  predicate Drops(th: Thread, x: Sandbox, x': Sandbox) {
    && (!Cleans(th.op) && IsUp(x.r) ==> IsUp(x'.r))
    && (Cleans(th.op) && x'.h.holder == None ==> IsUp(x'.r) || th.pc.FailDelete?)
    && (x'.h.holder == x.h.holder || x'.h.holder == None)
  }

  lemma BuildDrops(th: Thread, x: Sandbox, o: Outcome, tracked: bool)
    requires x.h.holder.Some?
    ensures Drops(th, x, DoBuild(th, x, o, tracked).1)
  { }

  lemma BootDrops(th: Thread, x: Sandbox, o: Outcome, tracked: bool)
    requires x.h.holder.Some?
    ensures Drops(th, x, DoBoot(th, x, o, tracked).1)
  {
    hide Alive;
  }

  lemma StopDrops(th: Thread, x: Sandbox, o: Outcome)
    requires x.h.holder.Some?
    ensures Drops(th, x, DoStop(th, x, o).1)
  {
    hide Alive;
  }

  lemma TeardownDrops(th: Thread, x: Sandbox, o: Outcome, tracked: bool)
    requires x.h.holder.Some? && (th.pc.Mark? ==> Cleans(th.op))
    ensures Drops(th, x, DoTeardown(th, x, o, tracked).1)
  {
    hide MarkTorn, Take;
  }

  lemma FinishDrops(th: Thread, x: Sandbox, o: Outcome, tracked: bool)
    requires x.h.holder.Some? && (th.pc.End? ==> !Cleans(th.op))
    requires th.pc.TornDown? || th.pc.Remove? || th.pc.FailDelete? || th.pc.End?
    ensures Drops(th, x, DoFinish(th, x, o, tracked).1)
  {
    hide Take;
  }

  lemma LocalDrops(th: Thread, x: Sandbox, o: Outcome, tracked: bool)
    requires LocalPc(th) && Local(th, x) && x.h.holder.Some?
    ensures Drops(th, x, DoLocal(th, x, o, tracked).1)
  {
    assert (th.pc.Mark? ==> Cleans(th.op)) && (th.pc.End? ==> !Cleans(th.op));
    hide AfterClaim, DoBuild, DoBoot, DoStop, DoTeardown, DoFinish, Local;
    match th.pc {
      case Begun =>
      case StartGuest | Boot | NewProxy | PublishProxy | Probe | Up => BootDrops(th, x, o, tracked);
      case DiskCheck | Pause | Snapshot | Unpin | Resume => StopDrops(th, x, o);
      case Mark | Teardown | Kill | CleanHost => TeardownDrops(th, x, o, tracked);
      case TornDown | Remove | FailDelete | End => FinishDrops(th, x, o, tracked);
      case _ => BuildDrops(th, x, o, tracked);
    }
  }

  /** So do its steps on the tables, short of untracking it. */
  lemma TableDrops(s: State, t: nat, o: Outcome)
    requires Enabled(s, t) && !LocalPc(s.threads[t]) && Holds(s.threads[t]) && s.threads[t].ref < |s.heap|
    requires s.heap[s.threads[t].ref].h.holder.Some?
    ensures var r := s.threads[t].ref;
      && r < |DoAct(s, t, o).heap|
      && (Tracked(DoAct(s, t, o), r) && !s.threads[t].pc.Untrack? ==>
            Drops(s.threads[t], Box(s, r), Box(DoAct(s, t, o), r)))
      && (s.threads[t].pc.Untrack? ==> !Tracked(DoAct(s, t, o), r))
  {
    hide DoLocal, ReleaseSlots, FirstFree, Owners, DoWait, DoReserve, DoRecord, DoWire, Abandon;
  }

  lemma UnheldTables(s: State, t: nat, o: Outcome, r: nat)
    requires Enabled(s, t) && !LocalPc(s.threads[t]) && r < |s.heap| && (Holds(s.threads[t]) ==> s.threads[t].ref != r)
    ensures r < |DoAct(s, t, o).heap| && IsUp(DoAct(s, t, o).heap[r].r) == IsUp(s.heap[r].r)
  {
    hide DoLocal, ReleaseSlots, FirstFree, Owners, Abandon, Tracked;
    match s.threads[t].pc {
      case Reserve => hide DoWait;
      case Waiting =>
      case _ => hide DoWait, DoReserve, DoWakeSlot;
    }
  }

  lemma LocalElsewhere(s: State, t: nat, o: Outcome, r: nat)
    requires Enabled(s, t) && LocalPc(s.threads[t]) && r < |s.heap| && s.threads[t].ref != r
    ensures r < |DoAct(s, t, o).heap| && DoAct(s, t, o).heap[r] == s.heap[r]
  {
    hide DoLocal;
  }

  /** Nobody changes whether a sandbox is up while nobody holds it. */
  lemma UnheldKept(s: State, t: nat, o: Outcome, r: nat)
    requires Inv(s) && Enabled(s, t) && r < |s.heap| && s.heap[r].h.holder == None
    ensures r < |DoAct(s, t, o).heap| && IsUp(DoAct(s, t, o).heap[r].r) == IsUp(s.heap[r].r)
  {
    if Holds(s.threads[t]) { Mine(s, t); }
    hide Inv, Local, HeapInv, ThreadInv, EntryInv, DoLocal, Tracked;
    if LocalPc(s.threads[t]) {
      LocalHolds(s.threads[t]);
      LocalElsewhere(s, t, o, r);
    } else {
      UnheldTables(s, t, o, r);
    }
    hide DoAct;
  }

  lemma HeldStep(s: State, t: nat, o: Outcome, r: nat)
    requires Inv(s) && Enabled(s, t) && r < |s.heap| && s.heap[r].h.holder == Some(t)
    ensures r < |DoAct(s, t, o).heap| && s.threads[t].ref == r
    ensures Tracked(DoAct(s, t, o), r) ==> Drops(s.threads[t], Box(s, r), Box(DoAct(s, t, o), r))
  {
    assert HeapInv(s, r);
    Mine(s, t);
    hide Inv, HeapInv, ThreadInv, EntryInv, Local, Tracked, Drops, Holds;
    if LocalPc(s.threads[t]) {
      var res := DoLocal(s.threads[t], Box(s, r), o, Tracked(s, r));
      assert DoAct(s, t, o) == PutLocal(s, t, res.0, res.1);
      hide DoAct, LocalPc, DoLocal;
      LocalDrops(s.threads[t], Box(s, r), o, Tracked(s, r));
      LocalKeepsId(s.threads[t], Box(s, r), o, Tracked(s, r));
    } else {
      hide DoAct;
      TableDrops(s, t, o);
    }
  }

  lemma LeftByAct(s: State, t: nat, o: Outcome, r: nat)
    requires Inv(s) && Enabled(s, t) && r < |s.heap| && Tracked(s, r) && !LeftOver(s, r) && LeftOver(DoAct(s, t, o), r)
    ensures s.threads[t].pc.FailDelete? && s.threads[t].ref == r && Cleans(s.threads[t].op)
  {
    assert HeapInv(s, r);
    hide Inv, DoAct, HeapInv, Tracked;
    match s.heap[r].h.holder {
      case None => UnheldKept(s, t, o, r);
      case Some(u) =>
        HolderIs(s, r);
        if u == t {
          HeldStep(s, t, o, r);
          ActKeepsJobs(s, t, o, t);
        } else {
          OthersLeaveAlone(s, t, o, u);
        }
        hide Holds;
    }
  }

  lemma HolderIs(s: State, r: nat)
    requires Inv(s) && r < |s.heap| && s.heap[r].h.holder.Some?
    ensures s.heap[r].h.holder.value < |s.threads|
    ensures Holds(s.threads[s.heap[r].h.holder.value]) && s.threads[s.heap[r].h.holder.value].ref == r
  {
    assert HeapInv(s, r);
    hide Inv, Holds, SandboxInv, Quiet, FilesOk;
  }

  lemma LeftByStep(s: State, step: Step, r: nat)
    requires Inv(s) && Possible(s, step) && r < |s.heap| && !LeftOver(s, r) && LeftOver(Apply(s, step), r)
    ensures step.Act? && step.t < |s.threads| && Troubled(s.threads[step.t]) && s.threads[step.t].ref == r
  {
    if !Tracked(s, r) { UntrackedStays(s, step, r); }
    if step.Act? {
      hide Inv, DoAct, LeftOver;
      LeftByAct(s, step.t, step.o, r);
    } else {
      if s.heap[r].h.holder.Some? { HolderIs(s, r); }
      hide Inv, Holds;
    }
  }

  lemma NewIsAttended(s: State, step: Step, r: nat)
    requires Inv(s) && Possible(s, step) && |s.heap| <= r
    ensures !LeftOver(Apply(s, step), r)
  {
    if r < |Apply(s, step).heap| {
      NewEntryIsReserved(s, step, r);
      hide Inv, DoLocal, FirstFree, Owners, Tracked;
    }
  }

  /** What is left over goes back to a failed step of the teardown of that very state. */
  lemma {:induction false} LeftHasCause(states: seq<State>, steps: seq<Step>, k: nat, r: nat) returns (m: nat)
    requires Run(states, steps) && k < |states| && LeftOver(states[k], r)
    ensures m < k && CleanupFails(states[m], steps[m], r)
  {
    hide Run, Inv, Apply, Possible, LeftOver, CleanupFails;
    RunShape(states, steps);
    if k == 0 {
      NoThreadsYet(states, steps);
      NothingLeft(states[0], r);
      assert false;
    } else {
      m := k - 1;
      RunStep(states, steps, m);
      RunInv(states, steps, m);
      if LeftOver(states[m], r) {
        m := LeftHasCause(states, steps, m, r);
      } else {
        if r >= |states[m].heap| {
          NewIsAttended(states[m], steps[m], r);
          assert false;
        }
        LeftByStep(states[m], steps[m], r);
        m := TroubleHasCause(states, steps, m, steps[m].t);
      }
    }
  }

  lemma NothingLeft(s: State, r: nat)
    requires s.heap == []
    ensures !LeftOver(s, r)
  { }

  /** A tracked sandbox nobody is working on either runs on a slot of its own, or is stopped
      without one; or some step of a create's or delete's teardown of it failed before, and
      it has no process and no namespace. */
  lemma AtRest(states: seq<State>, steps: seq<Step>, k: nat, id: Id) returns (m: nat)
    requires Run(states, steps) && k < |states| && id in states[k].sandboxes
    ensures states[k].sandboxes[id] < |states[k].heap|
    ensures var x := states[k].heap[states[k].sandboxes[id]];
      x.r.transition == Unclaimed ==>
        && (x.r.running ==>
              0 <= x.r.slot < |states[k].slots| && states[k].slots[x.r.slot].owner == id && x.r.process.Some?)
        && (x.r.stopped ==> !x.r.running && x.r.slot == -1 && x.r.process == None)
        && (!x.r.running && !x.r.stopped ==>
              && x.r.process == None && x.h.net == NoNet
              && m < k && CleanupFails(states[m], steps[m], states[k].sandboxes[id]))
  {
    RunInv(states, steps, k);
    EntryOfId(states[k], id);
    var r := states[k].sandboxes[id];
    m := 0;
    hide Run, Inv, CleanupFails;
    if LeftOver(states[k], r) { m := LeftHasCause(states, steps, k, r); }
  }

  // ---- crashes -------------------------------------------------------------------------------

  /** The microVM that died has been torn down, or its sandboxState is no longer tracked. */
  predicate Reckoned(s: State, th: Thread) {
    th.died < |s.heap| && (s.heap[th.died].r.generation > th.gen || !Tracked(s, th.died))
  }

  /** How far the handler of a crash has come with it. */
  predicate Handling(s: State, t: nat) {
    t < |s.threads| && s.threads[t].op.Death? ==>
      match s.threads[t].pc
      case Record | Waiting | Done | Teardown => true
      case Begun => s.threads[t].ref == s.threads[t].died || Reckoned(s, s.threads[t])
      case _ => Reckoned(s, s.threads[t])
  }

  lemma ReckonedStays(s: State, step: Step, th: Thread)
    requires Possible(s, step) && Reckoned(s, th)
    ensures Reckoned(Apply(s, step), th)
  {
    StepKeepsIds(s, step, th.died);
    if !Tracked(s, th.died) { UntrackedStays(s, step, th.died); }
    hide Apply, Tracked;
  }

  lemma DeathOf(s: State, t: nat)
    requires Inv(s) && t < |s.threads| && s.threads[t].op.Death?
    ensures var th := s.threads[t];
      && th.died < |s.heap| && s.heap[th.died].r.id == th.id && th.pid < |s.heap[th.died].h.guests|
      && s.heap[th.died].h.guests[th.pid].gen == th.gen <= s.heap[th.died].r.generation
      && (s.heap[th.died].h.guests[th.pid].torn <==> th.gen < s.heap[th.died].r.generation)
  {
    assert ThreadInv(s, t) && HeapInv(s, s.threads[t].died) by {
      hide EntryInv, SlotInv, HeapInv, ClaimInv, NetInv, ShapeInv;
      ThreadOf(s, t);
    }
    hide Inv;
  }

  lemma ClaimsOther(s: State, t: nat)
    requires t < |s.threads| && s.threads[t].pc.Waiting? && s.threads[t].died < |s.heap|
    requires s.heap[s.threads[t].died].r.id == s.threads[t].id
    ensures var s' := DoWait(s, t);
      && t < |s'.threads| && (s'.threads[t].pc.Waiting? || s'.threads[t].pc.Done? || s'.threads[t].pc.Begun?)
      && (s'.threads[t].pc.Begun? && s'.threads[t].ref != s.threads[t].died ==> Reckoned(s', s'.threads[t]))
  { }

  lemma HandlerClaims(s: State, t: nat)
    requires Inv(s) && t < |s.threads| && s.threads[t].op.Death? && s.threads[t].pc.Waiting?
    ensures Handling(DoWait(s, t), t)
  {
    DeathOf(s, t);
    ClaimsOther(s, t);
    ReserveMoves(s, t, false);
    WaitKeepsDied(s, t);
    hide Inv, DoWait, Reckoned, DoReserve, DoWakeSlot;
  }

  lemma WaitKeepsDied(s: State, t: nat)
    requires t < |s.threads|
    ensures t < |DoWait(s, t).threads| && DoWait(s, t).threads[t].died == s.threads[t].died
  {
    hide Claimable;
  }

  lemma HandlerLooks(s: State, t: nat, o: Outcome)
    requires Inv(s) && Enabled(s, t) && s.threads[t].op.Death? && s.threads[t].pc.Begun? && Handling(s, t)
    ensures Handling(DoAct(s, t, o), t)
  {
    DeathOf(s, t);
    var th := s.threads[t];
    assert DoAct(s, t, o) == PutLocal(s, t, AfterClaim(th, Box(s, th.ref)), Box(s, th.ref));
    hide Inv, DoAct;
  }

  /** What a handler's own step does before anything is torn down. */
  lemma HandlerBegins(s: State, t: nat, o: Outcome)
    requires Inv(s) && Enabled(s, t) && s.threads[t].op.Death? && Handling(s, t)
    requires s.threads[t].pc.Record? || s.threads[t].pc.Waiting? || s.threads[t].pc.Begun?
    ensures Handling(DoAct(s, t, o), t)
  {
    DeathOf(s, t);
    match s.threads[t].pc {
      case Record => hide Inv, DoWait, DoLocal;
      case Waiting => HandlerClaims(s, t);
      case _ => HandlerLooks(s, t, o);
    }
  }

  lemma TeardownStep(s: State, t: nat, o: Outcome)
    requires Enabled(s, t) && s.threads[t].pc.Teardown?
    ensures var s', th := DoAct(s, t, o), s.threads[t];
      && t < |s'.threads| && s'.threads[t].pc.Kill? && th.ref < |s'.heap|
      && s'.threads[t].died == th.died && s'.threads[t].gen == th.gen
      && s'.heap[th.ref].r.generation == s.heap[th.ref].r.generation + 1
  {
    hide MarkTorn, Tracked;
  }

  lemma TearsOwn(th: Thread, x: Sandbox)
    requires th.op.Death? && th.pc.Teardown? && Local(th, x)
    ensures th.died == th.ref && x.r.generation == th.gen
  {
    hide AllTorn, Quiet;
  }

  lemma HandlerTears(s: State, t: nat, o: Outcome)
    requires Inv(s) && Enabled(s, t) && s.threads[t].op.Death? && s.threads[t].pc.Teardown?
    ensures Handling(DoAct(s, t, o), t)
  {
    hide Inv, HeapInv, EntryInv, ThreadInv, Tracked, DoAct, Local, Holds;
    HandlerHolds(s, t);
    Mine(s, t);
    TearsOwn(s.threads[t], Box(s, s.threads[t].ref));
    TeardownStep(s, t, o);
  }

  lemma HandlerGoesOn(s: State, t: nat, o: Outcome)
    requires Inv(s) && Enabled(s, t) && s.threads[t].op.Death? && Handling(s, t)
    requires !s.threads[t].pc.Record? && !s.threads[t].pc.Waiting?
    requires !s.threads[t].pc.Begun? && !s.threads[t].pc.Teardown?
    ensures t < |DoAct(s, t, o).threads| && Reckoned(DoAct(s, t, o), DoAct(s, t, o).threads[t])
  {
    HandlerHolds(s, t);
    if Holds(s.threads[t]) { HolderKeepsRef(s, t, o); } else { TableMoves(s, t, o); }
    ReckonedStays(s, Act(t, o), s.threads[t]);
    hide Inv, DoAct, Tracked;
  }

  lemma HandlerHolds(s: State, t: nat)
    requires Inv(s) && Enabled(s, t) && s.threads[t].op.Death?
    requires !s.threads[t].pc.Record? && !s.threads[t].pc.Waiting?
    ensures Holds(s.threads[t]) || s.threads[t].pc.LateUntrack?
  {
    ThreadOf(s, t);
    hide Inv;
  }

  lemma HandlingStep(s: State, step: Step, t: nat)
    requires Inv(s) && Possible(s, step) && Handling(s, t)
    ensures Handling(Apply(s, step), t)
  {
    if t >= |s.threads| {
      NewHandler(s, step, t);
    } else if s.threads[t].op.Death? {
      var th := s.threads[t];
      if step.Act? && step.t == t {
        hide Inv, DoAct, Reckoned;
        if th.pc.Record? || th.pc.Waiting? || th.pc.Begun? { HandlerBegins(s, t, step.o); }
        else if th.pc.Teardown? { HandlerTears(s, t, step.o); }
        else { HandlerGoesOn(s, t, step.o); }
      } else if th.pc.Waiting? {
        OthersNotHolding(s, step, t);
        StepKeepsJobs(s, step, t);
        OthersAtWaiting(s, step, t);
        hide Inv, Apply, Reckoned;
      } else {
        OthersKeepThread(s, step, t);
        if Reckoned(s, th) { ReckonedStays(s, step, th); }
        hide Inv, Apply, Reckoned;
      }
    } else {
      StepKeepsJobs(s, step, t);
      hide Inv, Apply;
    }
  }

  lemma OthersAtWaiting(s: State, step: Step, t: nat)
    requires Possible(s, step) && t < |s.threads| && !(step.Act? && step.t == t) && s.threads[t].pc.Waiting?
    ensures t < |Apply(s, step).threads|
    ensures Apply(s, step).threads[t] == s.threads[t] || (step == GiveUp(t) && Apply(s, step).threads[t].pc.Done?)
  {
    hide DoAct;
    if step.Act? { ActMovesOne(s, step.t, step.o, t); }
  }

  lemma NewHandler(s: State, step: Step, t: nat)
    requires Possible(s, step) && t >= |s.threads|
    ensures t < |Apply(s, step).threads| && Apply(s, step).threads[t].op.Death? ==> Apply(s, step).threads[t].pc.Record?
  {
    hide DoAct;
    if step.Act? { ActKeepsJobs(s, step.t, step.o, step.t); }
  }

  lemma {:induction false} AlwaysHandling(states: seq<State>, steps: seq<Step>, k: nat, t: nat)
    requires Run(states, steps) && k < |states|
    ensures Handling(states[k], t)
  {
    hide Run, Inv, Apply, Possible, Handling;
    RunShape(states, steps);
    if k == 0 {
      NoThreadsYet(states, steps);
      NoneToHandle(states[0], t);
    } else {
      AlwaysHandling(states, steps, k - 1, t);
      RunInv(states, steps, k - 1);
      RunStep(states, steps, k - 1);
      HandlingStep(states[k - 1], steps[k - 1], t);
    }
  }

  lemma NoneToHandle(s: State, t: nat)
    requires s.threads == []
    ensures Handling(s, t)
  { }

  /** The handler finds the sandboxState its microVM died in being deleted. */
  predicate FindsDeleting(s: State, step: Step, th: Thread) {
    && step.Act? && step.t < |s.threads| && s.threads[step.t].pc.Waiting?
    && th.died < |s.heap| && Tracked(s, th.died) && s.heap[th.died].r.transition.Deleting?
  }

  lemma HandlerEnds(s: State, t: nat, o: Outcome)
    requires Inv(s) && Enabled(s, t) && s.threads[t].op.Death? && Handling(s, t)
    requires t < |DoAct(s, t, o).threads| && DoAct(s, t, o).threads[t].pc.Done?
    ensures var th := DoAct(s, t, o).threads[t]; Reckoned(DoAct(s, t, o), th) || FindsDeleting(s, Act(t, o), th)
  {
    if s.threads[t].pc.Record? || s.threads[t].pc.Waiting? {
      HandlerLeaves(s, t, o);
    } else if s.threads[t].pc.Begun? || s.threads[t].pc.Teardown? {
      NotDoneYet(s, t, o);
      assert false;
    } else {
      hide Inv, DoAct, Reckoned;
      HandlerGoesOn(s, t, o);
    }
  }

  lemma NotDoneYet(s: State, t: nat, o: Outcome)
    requires Enabled(s, t) && s.threads[t].op.Death? && (s.threads[t].pc.Begun? || s.threads[t].pc.Teardown?)
    ensures t < |DoAct(s, t, o).threads| && !DoAct(s, t, o).threads[t].pc.Done?
  {
    hide MarkTorn, Tracked;
  }

  lemma WaitLeaves(s: State, t: nat)
    requires t < |s.threads| && s.threads[t].died < |s.heap| && s.heap[s.threads[t].died].r.id == s.threads[t].id
    requires s.threads[t].id in s.sandboxes ==> s.sandboxes[s.threads[t].id] < |s.heap|
    ensures var s' := DoWait(s, t);
      && t < |s'.threads| && s'.threads[t].died == s.threads[t].died
      && (s'.threads[t].pc.Done? && !s.threads[t].pc.Done? ==>
            || Reckoned(s', s'.threads[t])
            || (Tracked(s, s.threads[t].died) && s.heap[s.threads[t].died].r.transition.Deleting?))
  { }

  lemma HandlerLeaves(s: State, t: nat, o: Outcome)
    requires Inv(s) && Enabled(s, t) && s.threads[t].op.Death? && (s.threads[t].pc.Record? || s.threads[t].pc.Waiting?)
    requires t < |DoAct(s, t, o).threads| && DoAct(s, t, o).threads[t].pc.Done?
    ensures var th := DoAct(s, t, o).threads[t]; Reckoned(DoAct(s, t, o), th) || FindsDeleting(s, Act(t, o), th)
  {
    DeathOf(s, t);
    if s.threads[t].pc.Record? {
      hide Inv, DoWait, DoLocal;
    } else {
      if s.threads[t].id in s.sandboxes { EntryOfId(s, s.threads[t].id); }
      WaitLeaves(s, t);
      hide Inv, EntryInv, HeapInv, DoLocal, DoRecord, DoWait, Reckoned, Tracked;
    }
  }

  /** Every crash is dealt with.  A handler nobody cancelled is over only when the microVM
      that died has been torn down, or its sandboxState is untracked, or the handler found
      it being deleted. */
  lemma {:induction false} CrashHandled(states: seq<State>, steps: seq<Step>, k: nat, t: nat) returns (m: nat)
    requires Run(states, steps) && k < |states| && t < |states[k].threads|
    requires states[k].threads[t].op.Death? && states[k].threads[t].pc.Done?
    requires forall i :: 0 <= i < k ==> steps[i] != GiveUp(t)
    ensures var th := states[k].threads[t];
      && th.died < |states[k].heap| && th.pid < |states[k].heap[th.died].h.guests|
      && states[k].heap[th.died].h.guests[th.pid].status == Dead
      && (|| states[k].heap[th.died].h.guests[th.pid].torn
          || !Tracked(states[k], th.died)
          || (m < k && steps[m].Act? && steps[m].t == t && FindsDeleting(states[m], steps[m], th)))
  {
    m := HandlerOver(states, steps, k, t);
    RunInv(states, steps, k);
    ThreadOf(states[k], t);
    DeathOf(states[k], t);
    hide Run, Inv, FindsDeleting, Tracked;
  }

  lemma {:induction false} HandlerOver(states: seq<State>, steps: seq<Step>, k: nat, t: nat) returns (m: nat)
    requires Run(states, steps) && k < |states| && t < |states[k].threads|
    requires states[k].threads[t].op.Death? && states[k].threads[t].pc.Done?
    requires forall i :: 0 <= i < k ==> steps[i] != GiveUp(t)
    ensures var th := states[k].threads[t];
      || Reckoned(states[k], th)
      || (m < k && steps[m].Act? && steps[m].t == t && FindsDeleting(states[m], steps[m], th))
  {
    hide Run, Inv, Apply, Possible, Reckoned, FindsDeleting, Handling;
    RunShape(states, steps);
    if k == 0 {
      NoThreadsYet(states, steps);
      assert false;
    } else {
      m := k - 1;
      RunStep(states, steps, m);
      RunInv(states, steps, m);
      AlwaysHandling(states, steps, m, t);
      OverStep(states[m], steps[m], t);
      if states[m].threads[t].pc.Done? && states[m].threads[t] == states[k].threads[t] {
        m := HandlerOver(states, steps, k - 1, t);
        if Reckoned(states[k - 1], states[k].threads[t]) {
          ReckonedStays(states[k - 1], steps[k - 1], states[k].threads[t]);
        }
      }
    }
  }

  lemma OverStep(s: State, step: Step, t: nat)
    requires Inv(s) && Possible(s, step) && Handling(s, t) && step != GiveUp(t)
    requires t < |Apply(s, step).threads| && Apply(s, step).threads[t].op.Death? && Apply(s, step).threads[t].pc.Done?
    ensures t < |s.threads|
    ensures
      var th := Apply(s, step).threads[t];
      || (s.threads[t].pc.Done? && s.threads[t] == th)
      || Reckoned(Apply(s, step), th)
      || (step.Act? && step.t == t && FindsDeleting(s, step, th))
  {
    if t >= |s.threads| {
      NewHandler(s, step, t);
      assert false;
    } else if step.Act? && step.t == t {
      StepKeepsJobs(s, step, t);
      hide Inv, DoAct, Reckoned, FindsDeleting, Handling;
      HandlerEnds(s, t, step.o);
    } else if s.threads[t].pc.Waiting? {
      OthersAtWaiting(s, step, t);
      hide Inv, Apply;
    } else {
      OthersKeepThread(s, step, t);
      hide Inv, Apply;
    }
  }

  lemma ExitStarts(s: State, step: Step)
    requires Possible(s, step) && step.Exit?
    ensures |Apply(s, step).threads| == |s.threads| + 1
    ensures var th := Apply(s, step).threads[|s.threads|];
      th.op.Death? && th.pc.Record? && th.died == step.r && th.pid == step.pid
  { }

  /** And every reported exit has a handler of its own, for that microVM. */
  lemma {:induction false} ExitHasHandler(states: seq<State>, steps: seq<Step>, j: nat, k: nat)
    requires Run(states, steps) && j < k < |states| && j < |steps| && steps[j].Exit?
    ensures var t := |states[j].threads|;
      && t < |states[k].threads| && states[k].threads[t].op.Death?
      && states[k].threads[t].died == steps[j].r && states[k].threads[t].pid == steps[j].pid
    decreases k
  {
    hide Run, Inv, Apply, Possible;
    var t := |states[j].threads|;
    RunShape(states, steps);
    RunStep(states, steps, k - 1);
    if j < k - 1 {
      ExitHasHandler(states, steps, j, k - 1);
      RunInv(states, steps, k - 1);
      HandlerStays(states[k - 1], steps[k - 1], t);
    } else {
      ExitStarts(states[j], steps[j]);
    }
  }

  lemma HandlerStays(s: State, step: Step, t: nat)
    requires Inv(s) && Possible(s, step) && t < |s.threads| && s.threads[t].op.Death?
    ensures t < |Apply(s, step).threads|
    ensures var th, th' := s.threads[t], Apply(s, step).threads[t];
      th'.op.Death? && th'.died == th.died && th'.pid == th.pid
  {
    StepKeepsJobs(s, step, t);
    if step.Act? && step.t == t {
      hide Inv, DoAct;
      if s.threads[t].pc.Record? || s.threads[t].pc.Waiting? {
        WaitKeepsMicrovm(s, t, step.o);
      } else {
        HandlerHolds(s, t);
        if Holds(s.threads[t]) { HolderKeepsRef(s, t, step.o); } else { TableMoves(s, t, step.o); }
      }
    } else if s.threads[t].pc.Waiting? {
      OthersWaiting(s, step, t);
      hide Inv, Apply;
    } else {
      OthersKeepThread(s, step, t);
      hide Inv, Apply;
    }
  }

  lemma WaitKeepsMicrovm(s: State, t: nat, o: Outcome)
    requires Enabled(s, t) && (s.threads[t].pc.Record? || s.threads[t].pc.Waiting?)
    ensures t < |DoAct(s, t, o).threads|
    ensures DoAct(s, t, o).threads[t].died == s.threads[t].died && DoAct(s, t, o).threads[t].pid == s.threads[t].pid
  {
    hide DoLocal, Claimable;
  }

  lemma OthersWaiting(s: State, step: Step, t: nat)
    requires Possible(s, step) && t < |s.threads| && !(step.Act? && step.t == t) && s.threads[t].pc.Waiting?
    ensures t < |Apply(s, step).threads|
    ensures Apply(s, step).threads[t].(pc := Waiting) == s.threads[t]
  {
    hide DoAct;
    if step.Act? { ActMovesOne(s, step.t, step.o, t); }
  }
}
