/**
 What the operations of the Firecracker machine achieve.  An operation whose own steps
 all succeed ends as it should, whatever the other threads do meanwhile: a create and a
 wake with a running sandbox, a stop with a stopped one that can be restored, a delete
 with nothing tracked and no file left.  A crash handler needs no such luck.
 */
module FirecrackerOutcomes {
  import opened FirecrackerModel
  import opened FirecrackerMachine
  import opened FirecrackerInvariant
  import opened FirecrackerPreserve
  import opened FirecrackerSteps
  import opened FirecrackerTables
  import opened FirecrackerSafety

  // ---- the way of an operation that meets no failure -------------------------------

  predicate ToDelete(th: Thread) {
    match th.pc
    case Begun | Mark | Teardown | Untrack => true
    case Kill | CleanHost | ClearWait | ClearHeld | ClearGo | TornDown | Remove => !th.err
    case _ => false
  }

  predicate ToStop(th: Thread, x: Sandbox) {
    match th.pc
    case Begun | DiskCheck | Pause | Snapshot => x.r.running && !x.r.stopped && Alive(x)
    case Unpin => x.r.running
    case Teardown | Kill | CleanHost | ClearWait | ClearHeld | ClearGo | TornDown | Final =>
      x.r.running && !x.r.mustColdBoot
    case End => x.r.stopped && !x.r.running && !x.r.mustColdBoot
    case _ => false
  }

  predicate ToRun(th: Thread, x: Sandbox) {
    match th.pc
    case Begun => th.op.Wake? && x.r.stopped && !x.r.running
    case Reserve | CloneRootfs | CloneSnapshot | PrepareJail => true
    case NetWait | NetLocked | NetWired | Capture | StartJailer => true
    case Publish | WaitSocket | StartGuest | Boot | NewProxy | PublishProxy | Probe | Up => Alive(x)
    case End => th.op.Wake? && x.r.running && !x.r.stopped
    case _ => false
  }

  predicate ToSettle(th: Thread, x: Sandbox) {
    match th.pc
    case Begun => th.ref == th.died && x.r.generation == th.gen
    case Teardown | Kill | CleanHost | ClearWait | ClearHeld | ClearGo | TornDown | Final => x.r.running
    case End => x.r.stopped && !x.r.running
    case _ => false
  }

  predicate Way(th: Thread, x: Sandbox) {
    match th.op
    case Delete => ToDelete(th)
    case Stop => ToStop(th, x)
    case Death => ToSettle(th, x)
    case Wire => false
    case _ => ToRun(th, x)
  }

  /** Thread t is a create about to reserve, or holds a claim and is on its way. */
  predicate OnCourse(s: State, t: nat) {
    && t < |s.threads|
    && ((s.threads[t].pc.Reserve? && s.threads[t].op.Create?) ||
        (Holds(s.threads[t]) && s.threads[t].ref < |s.heap| && Way(s.threads[t], Box(s, s.threads[t].ref))))
  }

  /** Nothing goes wrong for thread t in this step: its host command succeeds, a reservation
      finds a new id and a free slot, a mount finds the files, and the guest it starts or
      saves does not die. */
  predicate Smooth(s: State, step: Step, t: nat)
    requires t < |s.threads|
  {
    var th := s.threads[t];
    && (step.Act? && step.t == t && !th.op.Death? ==>
          && step.o.ok && step.o.effect
          && (th.pc.Reserve? ==> FirstFree(Owners(s.slots), 0) >= 0 && (th.op.Create? ==> th.id !in s.sandboxes))
          && (th.pc.PrepareJail? && th.ref < |s.heap| ==>
                var f := Box(s, th.ref).f; !f.disk.Missing? && !f.snap.Missing?))
    && (step.Crash? && Holds(th) && !th.op.Death? && !th.op.Delete? ==> step.r != th.ref)
  }

  /** Stopped and released, without slot or process. */
  predicate Stopped(x: Rec) {
    x.stopped && !x.running && x.slot == -1 && x.process == None && x.transition.Unclaimed?
  }

  /** Running and released, on a slot and with a process. */
  predicate Running(x: Rec) {
    x.running && !x.stopped && x.slot >= 0 && x.process.Some? && x.transition.Unclaimed?
  }

  /** What an operation leaves that went its way to the end. */
  predicate Achieved(s: State, th: Thread, r: nat) {
    && r < |s.heap|
    && match th.op
       case Delete => !Tracked(s, r)
       case Stop => Stopped(s.heap[r].r) && !s.heap[r].r.mustColdBoot
       case Death => Stopped(s.heap[r].r)
       case _ => Running(s.heap[r].r)
  }

  // ---- its own steps -----------------------------------------------------------------

  /** The step of the holder in v leads on, or to the end. */
  predicate Leads(v: Here, res: (Thread, Sandbox)) {
    if res.0.pc.Done? then
      match v.th.op
      case Delete => false
      case Stop => Stopped(res.1.r) && !res.1.r.mustColdBoot
      case Death => Stopped(res.1.r)
      case _ => Running(res.1.r)
    else Holds(res.0) && Way(res.0, res.1)
  }

  predicate Lucky(v: Here, o: Outcome) {
    && (!v.th.op.Death? ==> o.ok && o.effect)
    && (v.th.pc.PrepareJail? ==> !v.x.f.disk.Missing? && !v.x.f.snap.Missing?)
  }

  lemma ClaimLeads(v: Here)
    requires Held(v) && v.th.pc.Begun? && Way(v.th, v.x)
    ensures Leads(v, (AfterClaim(v.th, v.x), v.x))
  {
    hide Pin, GuestsInv, NoExec, OnlyLast, FilesOk, Quiet;
    if v.th.op.Death? { CurrentIsLast(v.x.h.guests, v.x.r.generation, v.th.pid); }
  }

  lemma BuildLeads(v: Here, o: Outcome)
    requires Held(v) && Way(v.th, v.x) && Lucky(v, o)
    requires match v.th.pc
             case CloneRootfs | CloneSnapshot | PrepareJail | Capture | StartJailer | Publish | WaitSocket => true
             case _ => false
    ensures Leads(v, DoBuild(v.th, v.x, o, v.tracked))
  {
    hide Pin, GuestsInv, NoExec, OnlyLast, FilesOk, Quiet, SandboxInv, Rest, Tearing, Tearable;
  }

  lemma BootLeads(v: Here, o: Outcome)
    requires Held(v) && Way(v.th, v.x) && Lucky(v, o)
    requires match v.th.pc
             case StartGuest | Boot | NewProxy | PublishProxy | Probe | Up => true
             case _ => false
    ensures Leads(v, DoBoot(v.th, v.x, o, v.tracked))
  {
    hide Pin, GuestsInv, NoExec, OnlyLast, FilesOk, Quiet, SandboxInv, Rest, Tearing, Tearable;
  }

  lemma StopLeads(v: Here, o: Outcome)
    requires Held(v) && Way(v.th, v.x) && Lucky(v, o)
    requires match v.th.pc
             case DiskCheck | Pause | Snapshot | Unpin => true
             case _ => false
    ensures Leads(v, DoStop(v.th, v.x, o))
  {
    hide Pin, GuestsInv, NoExec, OnlyLast, FilesOk, Quiet, SandboxInv, Rest, Tearing, Tearable;
  }

  lemma TeardownLeads(v: Here, o: Outcome)
    requires Held(v) && Way(v.th, v.x) && Lucky(v, o)
    requires match v.th.pc
             case Mark | Teardown | Kill | CleanHost => true
             case _ => false
    ensures Leads(v, DoTeardown(v.th, v.x, o, v.tracked))
  {
    hide Pin, GuestsInv, NoExec, OnlyLast, FilesOk, Quiet, SandboxInv, Rest, Tearing, Tearable, MarkTorn, Take;
  }

  lemma FinishLeads(v: Here, o: Outcome)
    requires Held(v) && Way(v.th, v.x) && Lucky(v, o)
    requires match v.th.pc
             case TornDown | Remove | End => true
             case _ => false
    ensures Leads(v, DoFinish(v.th, v.x, o, v.tracked))
  {
    hide Pin, GuestsInv, NoExec, OnlyLast, FilesOk, Quiet, SandboxInv, Take;
  }

  lemma LocalLeads(v: Here, o: Outcome)
    requires Held(v) && LocalPc(v.th) && Way(v.th, v.x) && Lucky(v, o)
    ensures Leads(v, DoLocal(v.th, v.x, o, v.tracked))
  {
    assert !v.th.pc.Resume? && !v.th.pc.FailDelete?;
    hide AfterClaim, DoBuild, DoBoot, DoStop, DoTeardown, DoFinish, Leads, Held, Way, Lucky;
    match v.th.pc {
      case Begun => ClaimLeads(v);
      case StartGuest | Boot | NewProxy | PublishProxy | Probe | Up => BootLeads(v, o);
      case DiskCheck | Pause | Snapshot | Unpin => StopLeads(v, o);
      case Mark | Teardown | Kill | CleanHost => TeardownLeads(v, o);
      case TornDown | Remove | End => FinishLeads(v, o);
      case Resume | FailDelete =>
      case _ => BuildLeads(v, o);
    }
  }

  // ---- its steps on the tables ---------------------------------------------------------

  /** Thread t is on its way after the step, or has got there. */
  predicate Onward(s: State, t: nat, s': State)
    requires t < |s.threads|
  {
    OnCourse(s', t) ||
    (t < |s'.threads| && s'.threads[t].pc.Done? && s'.threads[t].ref == s.threads[t].ref
     && Achieved(s', s.threads[t], s.threads[t].ref))
  }

  lemma ReserveLeads(s: State, t: nat, o: Outcome)
    requires Enabled(s, t) && OnCourse(s, t) && Smooth(s, Act(t, o), t) && s.threads[t].pc.Reserve?
    ensures Onward(s, t, DoAct(s, t, o))
  {
    hide DoLocal, FirstFree, Alive;
  }

  /** A thread that gets a lock, or finds it need not clear, is still on its way. */
  lemma LockWay(th: Thread, x: Sandbox, pc: Pc)
    requires Way(th, x)
    requires (th.pc.NetWait? && pc.NetLocked?) || (th.pc.ClearWait? && pc.ClearHeld?) ||
             (th.pc.ClearHeld? && (pc.ClearGo? || pc.TornDown?))
    ensures Way(th.(pc := pc), x) && (Holds(th) ==> Holds(th.(pc := pc)))
  {
    hide Alive;
  }

  lemma LockLeads(s: State, t: nat, o: Outcome)
    requires Enabled(s, t) && OnCourse(s, t) && Smooth(s, Act(t, o), t)
    requires s.threads[t].pc.NetWait? || s.threads[t].pc.ClearWait? || s.threads[t].pc.ClearHeld?
    ensures Onward(s, t, DoAct(s, t, o))
  {
    var th := s.threads[t];
    assert Holds(th) && th.ref < |s.heap| && Way(th, Box(s, th.ref));
    var pc := if th.pc.NetWait? then NetLocked else if th.pc.ClearWait? then ClearHeld else ClearGo;
    LockWay(th, Box(s, th.ref), pc);
    if th.pc.ClearHeld? { LockWay(th, Box(s, th.ref), TornDown); }
    hide DoLocal, Alive, Way, Holds;
  }

  lemma NetWay(th: Thread, x: Sandbox, pc: Pc, x': Sandbox)
    requires Way(th, x) && (th.pc.NetLocked? || th.pc.NetWired?) && (pc.NetWired? || pc.Capture?) && !th.op.Wire?
    ensures Way(th.(pc := pc), x') && Holds(th.(pc := pc))
  {
    hide Alive;
  }

  lemma NetLeads(s: State, t: nat, o: Outcome)
    requires Enabled(s, t) && OnCourse(s, t) && Smooth(s, Act(t, o), t)
    requires s.threads[t].pc.NetLocked? || s.threads[t].pc.NetWired?
    ensures Onward(s, t, DoAct(s, t, o))
  {
    var th := s.threads[t];
    assert Holds(th) && th.ref < |s.heap| && Way(th, Box(s, th.ref)) by { hide DoAct; }
    assert !th.op.Wire? by { hide DoAct; }
    hide DoLocal, Way, Holds, FirstFree, Owners;
    if th.pc.NetLocked? {
      NetWay(th, Box(s, th.ref), NetWired, Box(s, th.ref));
      hide DoNetFinish;
    } else {
      NetWay(th, Box(s, th.ref), Capture, Box(DoNetFinish(s, t, o), th.ref));
      hide DoNetBuild;
    }
  }

  lemma ClearLeads(s: State, t: nat, o: Outcome)
    requires Enabled(s, t) && OnCourse(s, t) && Smooth(s, Act(t, o), t) && s.threads[t].pc.ClearGo?
    ensures Onward(s, t, DoAct(s, t, o))
  {
    hide DoLocal, Alive;
  }

  lemma FinalWay(th: Thread, x: Sandbox)
    requires th.pc.Final? && Way(th, x) && Local(th, x)
    ensures Way(th.(pc := End), x.(r := MarkStopped(x.r))) && Holds(th.(pc := End))
  {
    hide Alive, Bare;
  }

  lemma FinalLeads(s: State, t: nat, o: Outcome)
    requires Inv(s) && Enabled(s, t) && OnCourse(s, t) && s.threads[t].pc.Final?
    ensures Onward(s, t, DoAct(s, t, o))
  {
    hide Inv, Way, Local, DoLocal, ReleaseSlots, HeapInv, ThreadInv, EntryInv;
    Mine(s, t);
    FinalWay(s.threads[t], Box(s, s.threads[t].ref));
  }

  lemma UntrackLeads(s: State, t: nat, o: Outcome)
    requires Inv(s) && Enabled(s, t) && OnCourse(s, t) && s.threads[t].pc.Untrack?
    ensures Onward(s, t, DoAct(s, t, o))
  {
    assert s.threads[t].op.Delete? by { hide Inv; }
    hide Inv, Way, Local, DoLocal, ReleaseSlots, OnCourse;
  }

  lemma OwnStep(s: State, t: nat, o: Outcome)
    requires Inv(s) && Enabled(s, t) && OnCourse(s, t) && Smooth(s, Act(t, o), t)
    ensures Onward(s, t, DoAct(s, t, o))
  {
    if LocalPc(s.threads[t]) {
      LocalStep(s, t, o);
    } else {
      hide Inv, DoAct, Onward, Smooth;
      match s.threads[t].pc {
        case Reserve => ReserveLeads(s, t, o);
        case NetLocked => NetLeads(s, t, o);
        case NetWired => NetLeads(s, t, o);
        case ClearGo => ClearLeads(s, t, o);
        case Final => FinalLeads(s, t, o);
        case Untrack => UntrackLeads(s, t, o);
        case _ => LockLeads(s, t, o);
      }
    }
  }

  lemma LocalStep(s: State, t: nat, o: Outcome)
    requires Inv(s) && Enabled(s, t) && OnCourse(s, t) && Smooth(s, Act(t, o), t) && LocalPc(s.threads[t])
    ensures Onward(s, t, DoAct(s, t, o))
  {
    LocalHolds(s.threads[t]);
    hide Inv, DoLocal, Way, Held;
    HeldHere(s, t);
    var th := s.threads[t];
    var x := Box(s, th.ref);
    var v := Here(t, th, x, Tracked(s, th.ref), |s.slots|);
    var res := DoLocal(th, x, o, v.tracked);
    assert DoAct(s, t, o) == PutLocal(s, t, res.0, res.1);
    LocalLeads(v, o);
    LocalKeepsId(th, x, o, v.tracked);
    LocalKeepsJob(th, x, o, v.tracked);
    assert Box(DoAct(s, t, o), th.ref) == res.1;
  }

  // ---- the steps of others -------------------------------------------------------------

  /** While thread t holds its sandbox nobody else changes its record or t itself. */
  lemma OthersLeaveAlone(s: State, u: nat, o: Outcome, t: nat)
    requires Inv(s) && Enabled(s, u) && t < |s.threads| && u != t && Holds(s.threads[t])
    ensures s.threads[t].ref < |s.heap| <= |DoAct(s, u, o).heap|
    ensures t < |DoAct(s, u, o).threads| && DoAct(s, u, o).threads[t] == s.threads[t]
    ensures DoAct(s, u, o).heap[s.threads[t].ref] == s.heap[s.threads[t].ref]
  {
    hide Inv, Local, HeapInv, ThreadInv, EntryInv, DoLocal, Tracked;
    Mine(s, t);
    if Holds(s.threads[u]) { Mine(s, u); }
    if s.threads[u].id in s.sandboxes { EntryOfId(s, s.threads[u].id); }
    if LocalPc(s.threads[u]) {
      LocalHolds(s.threads[u]);
    } else {
      TableMoves(s, u, o);
      TableLeaves(s, u, o, t);
      hide DoAct;
    }
  }

  lemma TableLeaves(s: State, u: nat, o: Outcome, t: nat)
    requires Enabled(s, u) && !LocalPc(s.threads[u]) && t < |s.threads| && u != t && s.threads[t].ref < |s.heap|
    requires Holds(s.threads[u]) ==> s.threads[u].ref != s.threads[t].ref
    requires s.heap[s.threads[t].ref].h.holder == Some(t)
    requires s.threads[u].id in s.sandboxes ==> EntryInv(s, s.threads[u].id)
    ensures |s.heap| <= |DoAct(s, u, o).heap| && DoAct(s, u, o).heap[s.threads[t].ref] == s.heap[s.threads[t].ref]
  {
    hide DoLocal, ReleaseSlots, FirstFree, Owners, Abandon, Rest;
    match s.threads[u].pc {
      case Reserve => hide DoWait;
      case Waiting =>
      case _ => hide DoWait, DoReserve, DoWakeSlot;
    }
  }

  lemma WaySame(th: Thread, x: Sandbox, x': Sandbox)
    requires Way(th, x) && x'.r == x.r && Alive(x') == Alive(x)
    ensures Way(th, x')
  {
    hide Alive;
  }

  lemma AliveAlike(x: Sandbox, x': Sandbox)
    requires x'.h == x.h
    ensures Alive(x') == Alive(x)
  { }

  /** What the environment does beside: other guests die, this one's exit is reported. */
  lemma EnvironmentKeeps(s: State, step: Step, t: nat)
    requires Possible(s, step) && !step.Act? && OnCourse(s, t) && Smooth(s, step, t)
    ensures t < |Apply(s, step).threads| && Apply(s, step).threads[t] == s.threads[t]
    ensures |s.heap| <= |Apply(s, step).heap|
    ensures s.threads[t].ref < |s.heap| && Holds(s.threads[t]) && !(step.Crash? && step.r == s.threads[t].ref) ==>
      && var x, x' := Box(s, s.threads[t].ref), Box(Apply(s, step), s.threads[t].ref);
      && x'.r == x.r && Alive(x') == Alive(x)
  {
    hide Way;
  }

  /** A crash handler does not mind a further death, nor does a delete. */
  lemma CrashKeepsSettling(th: Thread, x: Sandbox, x': Sandbox)
    requires (th.op.Death? || th.op.Delete?) && Way(th, x) && x'.r == x.r
    ensures Way(th, x')
  { }

  lemma CrashKeepsRecord(s: State, step: Step, r: nat)
    requires Possible(s, step) && step.Crash? && r < |s.heap|
    ensures |Apply(s, step).heap| == |s.heap| && Apply(s, step).heap[r].r == s.heap[r].r
  { }

  lemma OthersKeepCourse(s: State, step: Step, t: nat)
    requires Inv(s) && Possible(s, step) && OnCourse(s, t) && Smooth(s, step, t)
    requires !(step.Act? && step.t == t)
    ensures OnCourse(Apply(s, step), t)
  {
    hide Inv, Way, DoAct, Alive, FirstFree;
    var th := s.threads[t];
    if step.Act? {
      if Holds(th) {
        OthersLeaveAlone(s, step.t, step.o, t);
        AliveAlike(Box(s, th.ref), Box(Apply(s, step), th.ref));
        WaySame(th, Box(s, th.ref), Box(Apply(s, step), th.ref));
      } else {
        ActMovesOne(s, step.t, step.o, t);
      }
    } else {
      EnvironmentKeeps(s, step, t);
      hide Apply;
      if Holds(th) {
        if step.Crash? && step.r == th.ref {
          CrashKeepsRecord(s, step, th.ref);
          CrashKeepsSettling(th, Box(s, th.ref), Box(Apply(s, step), th.ref));
        } else {
          WaySame(th, Box(s, th.ref), Box(Apply(s, step), th.ref));
        }
      }
    }
  }

  lemma ActMovesOne(s: State, u: nat, o: Outcome, t: nat)
    requires Enabled(s, u) && t < |s.threads| && u != t
    ensures t < |DoAct(s, u, o).threads| && DoAct(s, u, o).threads[t] == s.threads[t]
  {
    hide DoLocal;
    if !LocalPc(s.threads[u]) {
      TableMoves(s, u, o);
      hide DoAct;
    }
  }

  /** A holder keeps to its sandbox. */
  lemma HolderKeepsRef(s: State, t: nat, o: Outcome)
    requires Inv(s) && Enabled(s, t) && Holds(s.threads[t])
    ensures t < |DoAct(s, t, o).threads|
    ensures var th, th' := s.threads[t], DoAct(s, t, o).threads[t];
      && th'.ref == th.ref && th'.op == th.op && th'.id == th.id && (th'.pc.Reserve? ==> th'.op.Wake?)
      && th'.died == th.died && (th.op.Death? ==> th'.gen == th.gen && th'.pid == th.pid)
  {
    hide DoLocal, Inv, Holds, Change;
    if LocalPc(s.threads[t]) {
      LocalHolds(s.threads[t]);
      HeldHere(s, t);
      var v := Here(t, s.threads[t], Box(s, s.threads[t].ref), Tracked(s, s.threads[t].ref), |s.slots|);
      LocalGoes(v, o);
      GoesOn(v, DoLocal(v.th, v.x, o, v.tracked));
      hide Goes, Held;
    } else {
      TableMoves(s, t, o);
      hide DoAct;
    }
  }

  lemma GoesOn(v: Here, res: (Thread, Sandbox))
    requires Goes(v, res)
    ensures var th, th' := v.th, res.0;
      && th'.ref == th.ref && th'.op == th.op && th'.id == th.id && (th'.pc.Reserve? ==> th'.op.Wake?)
      && th'.died == th.died && (th.op.Death? ==> th'.gen == th.gen && th'.pid == th.pid)
  {
    hide Evolves, Settles, SandboxInv, Quiet, FilesOk, Erodes;
  }

  // ---- what operations achieve ------------------------------------------------------------

  /** The thread on course after the step works on what it worked on before. */
  predicate SameTask(th: Thread, th': Thread) {
    th'.op == th.op && th'.id == th.id && (Holds(th) ==> th'.ref == th.ref)
  }

  lemma CourseStep(s: State, step: Step, t: nat)
    requires Inv(s) && Possible(s, step) && OnCourse(s, t) && (t < |s.threads| ==> Smooth(s, step, t))
    ensures t < |s.threads| && t < |Apply(s, step).threads|
    ensures OnCourse(Apply(s, step), t) || (step.Act? && step.t == t && Onward(s, t, Apply(s, step)))
    ensures SameTask(s.threads[t], Apply(s, step).threads[t])
    ensures Holds(s.threads[t]) && OnCourse(Apply(s, step), t) ==> Holds(Apply(s, step).threads[t])
  {
    assert t < |s.threads| by { hide Inv, Possible; }
    StepKeepsJobs(s, step, t);
    if step.Act? && step.t == t {
      hide Inv, Smooth, Onward, DoAct, Way;
      OwnStep(s, t, step.o);
      if Holds(s.threads[t]) { HolderKeepsRef(s, t, step.o); }
    } else {
      OthersKeepThread(s, step, t);
      hide Inv, Smooth, Onward, OnCourse, DoAct, Apply, Possible;
      OthersKeepCourse(s, step, t);
    }
  }

  /** The steps of others leave a thread where it is, unless its caller gives up. */
  lemma OthersKeepThread(s: State, step: Step, t: nat)
    requires Possible(s, step) && t < |s.threads| && !(step.Act? && step.t == t) && !s.threads[t].pc.Waiting?
    ensures t < |Apply(s, step).threads| && Apply(s, step).threads[t] == s.threads[t]
  {
    hide DoAct;
    if step.Act? { ActMovesOne(s, step.t, step.o, t); }
  }

  /** Thread t is still on the way it was on in s. */
  predicate UnderWay(s: State, s': State, t: nat)
    requires t < |s.threads|
  {
    && OnCourse(s', t) && t < |s'.threads| && SameTask(s.threads[t], s'.threads[t])
    && (Holds(s.threads[t]) ==> Holds(s'.threads[t]))
  }

  lemma OnCourseIs(s: State, t: nat)
    requires OnCourse(s, t)
    ensures t < |s.threads| && UnderWay(s, s, t)
  {
    hide Way, Holds;
  }

  /** One more step on the way. */
  lemma OneMore(states: seq<State>, steps: seq<Step>, j: nat, n: nat, t: nat)
    requires Run(states, steps) && j <= n < |steps| && t < |states[j].threads| && UnderWay(states[j], states[n], t)
    requires Smooth(states[n], steps[n], t)
    ensures UnderWay(states[j], states[n + 1], t) || Arrived(states, steps, j, n, n + 1, t)
  {
    hide Run, Inv, Apply, Possible, OnCourse, Smooth, Onward, Holds, SameTask;
    RunShape(states, steps);
    RunInv(states, steps, n);
    RunStep(states, steps, n);
    CourseStep(states[n], steps[n], t);
    SameTaskOn(states[j].threads[t], states[n].threads[t], states[n + 1].threads[t]);
  }

  lemma SameTaskOn(a: Thread, b: Thread, c: Thread)
    requires SameTask(a, b) && SameTask(b, c) && (Holds(a) ==> Holds(b))
    ensures SameTask(a, c)
  {
    hide Holds;
  }

  lemma ArrivedStill(states: seq<State>, steps: seq<Step>, j: nat, n: nat, k: nat, t: nat)
    requires |states| == |steps| + 1 && k < |states| && j < k && t < |states[j].threads|
    requires Arrived(states, steps, j, n, k - 1, t)
    ensures Arrived(states, steps, j, n, k, t)
  {
    hide OnCourse, Onward, SameTask;
  }

  lemma UnderWayIs(s: State, s': State, t: nat)
    requires t < |s.threads| && UnderWay(s, s', t)
    ensures t < |s'.threads|
  {
    hide OnCourse, SameTask;
  }

  /** From state j on, as long as nothing goes wrong for it, an operation stays on its way;
      and when it is over it has achieved what it is for. */
  lemma {:induction false} StaysOnCourse(states: seq<State>, steps: seq<Step>, j: nat, k: nat, t: nat) returns (n: nat)
    requires Run(states, steps) && j <= k < |states| && OnCourse(states[j], t)
    requires forall m :: j <= m < k && t < |states[m].threads| ==> Smooth(states[m], steps[m], t)
    ensures t < |states[j].threads|
    ensures UnderWay(states[j], states[k], t) || Arrived(states, steps, j, n, k, t)
    decreases k
  {
    hide Run, OnCourse, Smooth, UnderWay, Arrived;
    RunShape(states, steps);
    OnCourseIs(states[j], t);
    n := j;
    if j < k {
      n := StaysOnCourse(states, steps, j, k - 1, t);
      if Arrived(states, steps, j, n, k - 1, t) {
        ArrivedStill(states, steps, j, n, k, t);
      } else {
        n := k - 1;
        UnderWayIs(states[j], states[n], t);
        OneMore(states, steps, j, n, t);
      }
    }
  }

  /** At step n thread t, which set out in state j, got there. */
  predicate Arrived(states: seq<State>, steps: seq<Step>, j: nat, n: nat, k: nat, t: nat)
    requires |states| == |steps| + 1 && k < |states| && j <= k && t < |states[j].threads|
  {
    && j <= n < k && steps[n].Act? && steps[n].t == t && t < |states[n].threads|
    && OnCourse(states[n], t) && !OnCourse(states[n + 1], t) && Onward(states[n], t, states[n + 1])
    && SameTask(states[j].threads[t], states[n].threads[t])
  }

  /** An operation that gets its turn wins the claim exactly if its sandbox is tracked and
      nobody has claimed it, is turned away exactly if it is not tracked or being deleted,
      and waits on otherwise.  What it wins is the record as it was. */
  lemma ClaimExactly(states: seq<State>, steps: seq<Step>, k: nat)
    requires Run(states, steps) && k < |steps| && steps[k].Act? && steps[k].t < |states[k].threads|
    requires states[k].threads[steps[k].t].pc.Waiting?
    ensures var s, s', t := states[k], states[k + 1], steps[k].t; var id := s.threads[t].id;
      && t < |s'.threads| && (id in s.sandboxes ==> s.sandboxes[id] < |s.heap|)
      && (s'.threads[t].pc.Begun? <==> id in s.sandboxes && s.heap[s.sandboxes[id]].r.transition.Unclaimed?)
      && (s'.threads[t].pc.Done? <==> id !in s.sandboxes || s.heap[s.sandboxes[id]].r.transition.Deleting?)
      && (s'.threads[t].pc.Begun? ==>
            && var r := s.sandboxes[id];
            && s'.threads[t].ref == r < |s'.heap| && s'.heap[r].h.holder == Some(t)
            && s'.heap[r].r.(transition := Unclaimed) == s.heap[r].r)
  {
    RunInv(states, steps, k);
    RunStep(states, steps, k);
    var s, t := states[k], steps[k].t;
    if s.threads[t].id in s.sandboxes { EntryOfId(s, s.threads[t].id); }
    hide Run, Inv, EntryInv, HeapInv, DoLocal;
  }

  /** A create about to reserve, or an operation that has just won the claim on a sandbox
      it has something to do on: a stop of a live one, a wake of a stopped one, a delete,
      the handler of the death of the very microVM the sandbox has. */
  predicate Starts(s: State, t: nat) {
    && t < |s.threads|
    && var th := s.threads[t];
      if th.op.Create? then th.pc.Reserve?
      else
        && th.pc.Begun? && th.ref < |s.heap|
        && var x := Box(s, th.ref);
          match th.op
          case Stop => x.r.running && !x.r.stopped && Alive(x)
          case Wake => x.r.stopped && !x.r.running
          case Death => th.ref == th.died && x.r.generation == th.gen
          case _ => th.op.Delete?
  }

  lemma StartsOnCourse(s: State, t: nat)
    requires Starts(s, t)
    ensures OnCourse(s, t)
  {
    hide Alive;
  }

  /** Whatever the other threads do meanwhile, an operation for which nothing goes wrong
      achieves what it is for by the time it is over, on the sandbox it claimed. */
  lemma Achieves(states: seq<State>, steps: seq<Step>, j: nat, k: nat, t: nat) returns (n: nat)
    requires Run(states, steps) && j <= k < |states| && Starts(states[j], t)
    requires forall m :: j <= m < k && t < |states[m].threads| ==> Smooth(states[m], steps[m], t)
    requires t < |states[k].threads| && states[k].threads[t].pc.Done?
    ensures j <= n < k && steps[n].Act? && steps[n].t == t && t < |states[n].threads|
    ensures OnCourse(states[n], t) && t < |states[n + 1].threads| && states[n + 1].threads[t].pc.Done?
    ensures states[n].threads[t].op == states[j].threads[t].op && states[n].threads[t].id == states[j].threads[t].id
    ensures !states[j].threads[t].op.Create? ==> states[n].threads[t].ref == states[j].threads[t].ref
    ensures Achieved(states[n + 1], states[n].threads[t], states[n].threads[t].ref)
  {
    StartsOnCourse(states[j], t);
    StartHolds(states[j], t);
    hide Run, Smooth, OnCourse, Achieved, Starts, Holds;
    RunShape(states, steps);
    n := StaysOnCourse(states, steps, j, k, t);
    DoneIsOffCourse(states[k], t);
  }

  lemma StartHolds(s: State, t: nat)
    requires Starts(s, t)
    ensures !s.threads[t].op.Create? ==> Holds(s.threads[t])
  { }

  lemma DoneIsOffCourse(s: State, t: nat)
    requires t < |s.threads| && s.threads[t].pc.Done?
    ensures !OnCourse(s, t)
  {
    hide Way;
  }

  // ---- what was deleted stays deleted --------------------------------------------------------

  /** A state that is no longer tracked never is again. */
  lemma UntrackedStays(s: State, step: Step, r: nat)
    requires Possible(s, step) && r < |s.heap| && !Tracked(s, r)
    ensures r < |Apply(s, step).heap| && !Tracked(Apply(s, step), r)
  {
    StepKeepsIds(s, step, r);
    if step.Act? { SandboxesShrink(s, step.t, step.o); }
    hide DoAct;
  }

  lemma SandboxesShrink(s: State, t: nat, o: Outcome)
    requires Enabled(s, t)
    ensures var m := DoAct(s, t, o).sandboxes;
      forall id :: id in m ==> (id in s.sandboxes && m[id] == s.sandboxes[id]) || m[id] == |s.heap|
  {
    hide DoLocal, ReleaseSlots, FirstFree, Owners, Abandon;
    match s.threads[t].pc {
      case Reserve => hide DoWait;
      case Waiting =>
      case _ => hide DoReserve, DoWakeSlot, DoWait;
    }
  }

  lemma {:induction false} UntrackedForever(states: seq<State>, steps: seq<Step>, j: nat, k: nat, r: nat)
    requires Run(states, steps) && j <= k < |states| && r < |states[j].heap| && !Tracked(states[j], r)
    ensures r < |states[k].heap| && !Tracked(states[k], r) && states[k].heap[r].r.id == states[j].heap[r].r.id
  {
    hide Run, Apply, Possible, Tracked;
    RunShape(states, steps);
    if j < k {
      UntrackedForever(states, steps, j, k - 1, r);
      RunStep(states, steps, k - 1);
      UntrackedStays(states[k - 1], steps[k - 1], r);
      StepKeepsIds(states[k - 1], steps[k - 1], r);
    }
  }

  /** What a finished teardown has taken away by the time a thread is at its pc. */
  predicate Cleared(th: Thread, f: Files) {
    match th.pc
    case ClearWait | ClearHeld | ClearGo | TornDown | Remove => !th.err ==> !f.jail
    case Untrack => !f.jail && f.disk.Missing? && f.snap.Missing?
    case _ => true
  }

  predicate Fewer(f: Files, f': Files) {
    (f'.jail ==> f.jail) && (f.disk.Missing? ==> f'.disk.Missing?) && (f.snap.Missing? ==> f'.snap.Missing?)
  }

  lemma FewerCleared(th: Thread, f: Files, f': Files)
    requires Cleared(th, f) && Fewer(f, f')
    ensures Cleared(th, f')
  { }

  lemma ClaimClears(th: Thread, x: Sandbox)
    ensures Cleared(AfterClaim(th, x), x.f)
  { }

  lemma AbandonClears(th: Thread, f: Files)
    ensures Cleared(Abandon(th), f)
  { }

  lemma BuildClears(th: Thread, x: Sandbox, o: Outcome, tracked: bool)
    ensures var res := DoBuild(th, x, o, tracked); Cleared(res.0, res.1.f)
  {
    AbandonClears(th, x.f);
    if th.pc.PrepareJail? { AbandonClears(th, DoBuild(th, x, o, tracked).1.f); }
    hide Abandon;
  }

  lemma BootClears(th: Thread, x: Sandbox, o: Outcome, tracked: bool)
    ensures var res := DoBoot(th, x, o, tracked); Cleared(res.0, res.1.f)
  {
    hide Alive, SetLast;
  }

  lemma StopClears(th: Thread, x: Sandbox, o: Outcome)
    ensures var res := DoStop(th, x, o); Cleared(res.0, res.1.f)
  {
    hide Alive, SetLast;
  }

  lemma TeardownClears(th: Thread, x: Sandbox, o: Outcome, tracked: bool)
    ensures var res := DoTeardown(th, x, o, tracked); Cleared(res.0, res.1.f)
  {
    hide MarkTorn, Less;
  }

  lemma FinishClears(th: Thread, x: Sandbox, o: Outcome, tracked: bool)
    requires Cleared(th, x.f)
    ensures var res := DoFinish(th, x, o, tracked); Cleared(res.0, res.1.f)
  {
    hide Less;
  }

  lemma LocalClears(th: Thread, x: Sandbox, o: Outcome, tracked: bool)
    requires LocalPc(th) && Cleared(th, x.f)
    ensures var res := DoLocal(th, x, o, tracked); Cleared(res.0, res.1.f)
  {
    hide AfterClaim, DoBuild, DoBoot, DoStop, DoTeardown, DoFinish, Cleared;
    match th.pc {
      case Begun => ClaimClears(th, x);
      case StartGuest | Boot | NewProxy | PublishProxy | Probe | Up => BootClears(th, x, o, tracked);
      case DiskCheck | Pause | Snapshot | Unpin | Resume => StopClears(th, x, o);
      case Mark | Teardown | Kill | CleanHost => TeardownClears(th, x, o, tracked);
      case TornDown | Remove | FailDelete | End => FinishClears(th, x, o, tracked);
      case _ => BuildClears(th, x, o, tracked);
    }
  }

  lemma TakesFewer(s: State, t: nat, o: Outcome, id: Id)
    requires Takes(s, Act(t, o), id)
    ensures Fewer(FilesOf(s, id), FilesOf(DoAct(s, t, o), id))
  {
    hide Less;
  }

  predicate ClearedAt(s: State, t: nat, f: Files) {
    t < |s.threads| && Cleared(s.threads[t], f)
  }

  lemma BuildNetClears(s: State, t: nat, o: Outcome, f: Files)
    requires t < |s.threads| && 0 <= s.threads[t].slot < |s.slots|
    ensures ClearedAt(DoNetBuild(s, t, o), t, f)
  {
    AbandonClears(s.threads[t], f);
    hide Abandon;
  }

  lemma FinishNetClears(s: State, t: nat, o: Outcome, f: Files)
    requires t < |s.threads| && 0 <= s.threads[t].slot < |s.slots|
    requires !s.threads[t].op.Wire? ==> s.threads[t].ref < |s.heap|
    ensures ClearedAt(DoNetFinish(s, t, o), t, f)
  {
    AbandonClears(s.threads[t], f);
    hide Abandon;
  }

  lemma StartClears(s: State, t: nat, ok: bool, i: nat, f: Files)
    requires t < |s.threads| && Cleared(s.threads[t], f)
    ensures s.threads[t].ref < |s.heap| ==> ClearedAt(DoWakeSlot(s, t), t, f)
    ensures ClearedAt(DoReserve(s, t, ok), t, f) && ClearedAt(DoWait(s, t), t, f) && ClearedAt(DoWire(s, t, i), t, f)
    ensures s.threads[t].died < |s.heap| ==> ClearedAt(DoRecord(s, t), t, f)
  {
    hide FirstFree, Owners, Claimable;
  }

  lemma LockClears(s: State, t: nat, o: Outcome, f: Files)
    requires t < |s.threads| && 0 <= s.threads[t].slot < |s.slots| && Cleared(s.threads[t], f)
    ensures ClearedAt(TakeLock(s, t, NetLocked), t, f)
    ensures s.threads[t].pc.ClearWait? ==> ClearedAt(TakeLock(s, t, ClearHeld), t, f)
  { }

  lemma ClearClears(s: State, t: nat, o: Outcome, f: Files)
    requires t < |s.threads| && 0 <= s.threads[t].slot < |s.slots| && s.threads[t].ref < |s.heap|
    requires (s.threads[t].pc.ClearHeld? || s.threads[t].pc.ClearGo?) && Cleared(s.threads[t], f)
    ensures ClearedAt(DoClearCheck(s, t), t, f) && ClearedAt(DoClear(s, t, o), t, f)
  { }

  lemma EndClears(s: State, t: nat, f: Files)
    requires t < |s.threads| && s.threads[t].ref < |s.heap| && s.heap[s.threads[t].ref].r.slot < |s.slots|
    ensures ClearedAt(DoFinal(s, t), t, f) && ClearedAt(DoUntrack(s, t, false), t, f)
    ensures ClearedAt(DoUntrack(s, t, true), t, f)
  {
    hide ReleaseSlots;
  }

  lemma TableClears(s: State, t: nat, o: Outcome, f: Files)
    requires Enabled(s, t) && !LocalPc(s.threads[t]) && Cleared(s.threads[t], f)
    ensures t < |DoAct(s, t, o).threads| && Cleared(DoAct(s, t, o).threads[t], f)
  {
    hide DoLocal, Cleared, DoReserve, DoWakeSlot, DoWait, DoRecord, DoNetBuild, DoNetFinish, DoClear, DoClearCheck;
    hide DoFinal, DoUntrack, DoWire, TakeLock;
    match s.threads[t].pc {
      case NetLocked => BuildNetClears(s, t, o, f);
      case NetWired => FinishNetClears(s, t, o, f);
      case NetWait => LockClears(s, t, o, f);
      case ClearWait => LockClears(s, t, o, f);
      case ClearHeld => ClearClears(s, t, o, f);
      case ClearGo => ClearClears(s, t, o, f);
      case Final => EndClears(s, t, f);
      case Untrack => EndClears(s, t, f);
      case LateUntrack => EndClears(s, t, f);
      case _ => StartClears(s, t, o.ok, o.pick, f);
    }
  }

  /** A tracked sandbox is as its holder's teardown has left it so far. */
  predicate Tidy(s: State, t: nat) {
    t < |s.threads| && Holds(s.threads[t]) && s.threads[t].ref < |s.heap| && Tracked(s, s.threads[t].ref) ==>
      Cleared(s.threads[t], Box(s, s.threads[t].ref).f)
  }

  lemma NotHolding(th: Thread, f: Files)
    requires !Holds(th)
    ensures Cleared(th, f)
  { }

  /** Others take files away from a held sandbox, and never bring any. */
  lemma OthersTakeFiles(s: State, step: Step, t: nat)
    requires Inv(s) && Possible(s, step) && t < |s.threads| && Holds(s.threads[t]) && !(step.Act? && step.t == t)
    requires s.threads[t].ref < |s.heap| && Tracked(s, s.threads[t].ref)
    ensures var id := s.heap[s.threads[t].ref].r.id; Fewer(FilesOf(s, id), FilesOf(Apply(s, step), id))
  {
    var r := s.threads[t].ref;
    if step.Act? {
      Mine(s, t);
      hide Inv, DoAct, Takes, Holds, Tracked, HeapInv, ThreadInv, Local, EntryInv;
      var f, f' := FilesOf(s, s.heap[r].r.id), FilesOf(DoAct(s, step.t, step.o), s.heap[r].r.id);
      if !Alike(f, f') {
        ActOwnsFiles(s, step.t, step.o, r);
        TakesFewer(s, step.t, step.o, s.heap[r].r.id);
      }
    } else {
      hide Inv;
    }
  }

  lemma OwnStaysTidy(s: State, t: nat, o: Outcome)
    requires Inv(s) && Enabled(s, t) && Tidy(s, t)
    ensures Tidy(DoAct(s, t, o), t)
  {
    var th := s.threads[t];
    var s' := DoAct(s, t, o);
    if !Holds(th) {
      hide Inv, DoAct;
      if t < |s'.threads| && s'.threads[t].ref < |s'.heap| {
        var f := Box(s', s'.threads[t].ref).f;
        NotHolding(th, f);
        if LocalPc(th) { LocalHolds(th); } else { TableClears(s, t, o, f); }
      }
    } else {
      HolderKeepsRef(s, t, o);
      Mine(s, t);
      hide Inv, HeapInv, ThreadInv, EntryInv, Local, Holds, Cleared;
      if Tracked(s, th.ref) {
        if LocalPc(th) { LocalStaysTidy(s, t, o); } else { TableStaysTidy(s, t, o); }
      } else {
        UntrackedStays(s, Act(t, o), th.ref);
      }
    }
  }

  lemma LocalStaysTidy(s: State, t: nat, o: Outcome)
    requires Enabled(s, t) && LocalPc(s.threads[t]) && Cleared(s.threads[t], Box(s, s.threads[t].ref).f)
    ensures var s' := DoAct(s, t, o);
      && t < |s'.threads| && s.threads[t].ref < |s'.heap|
      && Cleared(s'.threads[t], Box(s', s.threads[t].ref).f)
  {
    var th := s.threads[t];
    var x := Box(s, th.ref);
    var res := DoLocal(th, x, o, Tracked(s, th.ref));
    assert DoAct(s, t, o) == PutLocal(s, t, res.0, res.1);
    hide DoAct, DoLocal, Cleared, LocalPc;
    LocalClears(th, x, o, Tracked(s, th.ref));
    LocalKeepsId(th, x, o, Tracked(s, th.ref));
  }

  lemma TableStaysTidy(s: State, t: nat, o: Outcome)
    requires Enabled(s, t) && !LocalPc(s.threads[t]) && s.threads[t].ref < |s.heap|
    requires Cleared(s.threads[t], Box(s, s.threads[t].ref).f)
    ensures var s' := DoAct(s, t, o);
      && t < |s'.threads| && s.threads[t].ref < |s'.heap|
      && Cleared(s'.threads[t], Box(s', s.threads[t].ref).f)
  {
    var f := Box(s, s.threads[t].ref).f;
    TableClears(s, t, o, f);
    TableStepKeepsIds(s, t, o, s.threads[t].ref);
    TablesKeepFiles(s, t, o, s.heap[s.threads[t].ref].r.id);
    hide DoAct, Cleared;
    FewerCleared(DoAct(s, t, o).threads[t], f, Box(DoAct(s, t, o), s.threads[t].ref).f);
  }

  lemma StaysTidy(s: State, step: Step, t: nat)
    requires Inv(s) && Possible(s, step) && Tidy(s, t)
    ensures Tidy(Apply(s, step), t)
  {
    if t < |s.threads| {
      if step.Act? && step.t == t {
        hide Inv, Tidy, DoAct;
        OwnStaysTidy(s, t, step.o);
      } else {
        OthersStayTidy(s, step, t);
      }
    } else {
      NewThreadIdle(s, step, t);
      hide Inv, Apply;
    }
  }

  lemma NewThreadIdle(s: State, step: Step, t: nat)
    requires Possible(s, step) && |s.threads| <= t
    ensures t < |Apply(s, step).threads| ==> !Holds(Apply(s, step).threads[t])
  {
    hide DoAct;
    if step.Act? { ActKeepsJobs(s, step.t, step.o, step.t); }
  }

  lemma OthersStayTidy(s: State, step: Step, t: nat)
    requires Inv(s) && Possible(s, step) && Tidy(s, t) && t < |s.threads| && !(step.Act? && step.t == t)
    ensures Tidy(Apply(s, step), t)
  {
    var th := s.threads[t];
    if Holds(th) {
      assert !th.pc.Waiting?;
      OthersKeepThread(s, step, t);
      Mine(s, t);
      StepKeepsIds(s, step, th.ref);
      hide Inv, Apply, Possible, Holds, Tracked, HeapInv, ThreadInv, EntryInv, Local, Cleared;
      if Tracked(s, th.ref) {
        OthersTakeFiles(s, step, t);
        FewerCleared(th, Box(s, th.ref).f, Box(Apply(s, step), th.ref).f);
      } else {
        UntrackedStays(s, step, th.ref);
      }
    } else {
      OthersNotHolding(s, step, t);
      hide Inv, Apply, Holds;
    }
  }

  lemma OthersNotHolding(s: State, step: Step, t: nat)
    requires Possible(s, step) && t < |s.threads| && !(step.Act? && step.t == t) && !Holds(s.threads[t])
    ensures t < |Apply(s, step).threads| && !Holds(Apply(s, step).threads[t])
  {
    if s.threads[t].pc.Waiting? {
      hide DoAct;
      if step.Act? { ActMovesOne(s, step.t, step.o, t); }
    } else {
      OthersKeepThread(s, step, t);
      hide Apply;
    }
  }

  lemma {:induction false} AlwaysTidy(states: seq<State>, steps: seq<Step>, k: nat, t: nat)
    requires Run(states, steps) && k < |states|
    ensures Tidy(states[k], t)
  {
    hide Run, Inv, Apply, Possible, Tidy;
    RunShape(states, steps);
    if k == 0 {
      NoThreadsYet(states, steps);
      TidyAtFirst(states[0], t);
    } else {
      AlwaysTidy(states, steps, k - 1, t);
      RunInv(states, steps, k - 1);
      RunStep(states, steps, k - 1);
      StaysTidy(states[k - 1], steps[k - 1], t);
    }
  }

  lemma TidyAtFirst(s: State, t: nat)
    requires s.threads == []
    ensures Tidy(s, t)
  { }

  /** A delete ends by untracking. */
  lemma DeleteEnds(s: State, t: nat, o: Outcome)
    requires Enabled(s, t) && OnCourse(s, t) && s.threads[t].op.Delete? && !s.threads[t].pc.Untrack?
    ensures t < |DoAct(s, t, o).threads| && !DoAct(s, t, o).threads[t].pc.Done?
  {
    var th := s.threads[t];
    assert Holds(th) && th.ref < |s.heap| && ToDelete(th);
    if LocalPc(th) {
      var res := DoLocal(th, Box(s, th.ref), o, Tracked(s, th.ref));
      assert DoAct(s, t, o) == PutLocal(s, t, res.0, res.1);
      hide DoAct, Less, MarkTorn, Take, TakeHandles, WithStatus, Alive, Holds;
    } else {
      hide DoLocal, Holds, LocalPc;
    }
  }

  /** A delete none of whose steps fails deletes: when it is over, the state it claimed is
      untracked, and stays so; no slot is owned through it; and its step that untracked it
      left neither rootfs nor snapshot nor jail under the id. */
  lemma DeleteDeletes(states: seq<State>, steps: seq<Step>, j: nat, k: nat, t: nat) returns (n: nat)
    requires Run(states, steps) && j <= k < |states| && Starts(states[j], t) && states[j].threads[t].op.Delete?
    requires forall m :: j <= m < k && t < |states[m].threads| ==> Smooth(states[m], steps[m], t)
    requires t < |states[k].threads| && states[k].threads[t].pc.Done?
    ensures var r := states[j].threads[t].ref;
      && r < |states[k].heap| && !Tracked(states[k], r)
      && (forall i :: 0 <= i < |states[k].slots| && states[k].slots[i].owner == states[k].heap[r].r.id ==>
            && states[k].slots[i].owner in states[k].sandboxes
            && states[k].sandboxes[states[k].slots[i].owner] != r)
    ensures j <= n < k && steps[n].Act? && steps[n].t == t
    ensures var r := states[j].threads[t].ref;
      && r < |states[n].heap| && states[n].heap[r].r.id == states[k].heap[r].r.id
      && var f := FilesOf(states[n + 1], states[k].heap[r].r.id);
        Tracked(states[n], r) ==> f.disk.Missing? && f.snap.Missing? && !f.jail
  {
    n := Achieves(states, steps, j, k, t);
    var r := states[j].threads[t].ref;
    DeleteLast(states, steps, n, t);
    UntrackedForever(states, steps, n + 1, k, r);
    forall i | 0 <= i < |states[k].slots| && states[k].slots[i].owner == states[k].heap[r].r.id
      ensures states[k].slots[i].owner in states[k].sandboxes && states[k].sandboxes[states[k].slots[i].owner] != r
    {
      OwnersTracked(states, steps, k, r, i);
    }
  }

  lemma OwnersTracked(states: seq<State>, steps: seq<Step>, k: nat, r: nat, i: nat)
    requires Run(states, steps) && k < |states| && r < |states[k].heap| && !Tracked(states[k], r)
    requires i < |states[k].slots| && states[k].slots[i].owner == states[k].heap[r].r.id
    ensures states[k].slots[i].owner in states[k].sandboxes && states[k].sandboxes[states[k].slots[i].owner] != r
  {
    RunInv(states, steps, k);
    assert SlotInv(states[k], i) && HeapInv(states[k], r);
    hide Run, Inv;
  }

  lemma DeleteLast(states: seq<State>, steps: seq<Step>, n: nat, t: nat)
    requires Run(states, steps) && n < |steps| && steps[n].Act? && steps[n].t == t && t < |states[n].threads|
    requires OnCourse(states[n], t) && t < |states[n + 1].threads| && states[n + 1].threads[t].pc.Done?
    requires states[n].threads[t].op.Delete?
    ensures var r := states[n].threads[t].ref;
      && r < |states[n].heap| && r < |states[n + 1].heap| && !Tracked(states[n + 1], r)
      && states[n + 1].heap[r].r.id == states[n].heap[r].r.id
      && var f := FilesOf(states[n + 1], states[n].heap[r].r.id);
        Tracked(states[n], r) ==> f.disk.Missing? && f.snap.Missing? && !f.jail
  {
    var s := states[n];
    RunStep(states, steps, n);
    AlwaysTidy(states, steps, n, t);
    hide Run;
    if s.threads[t].pc.Untrack? {
      hide Way, ReleaseSlots, DoLocal;
    } else {
      DeleteEnds(s, t, steps[n].o);
      assert false;
    }
  }
}
