/**
 The steps that go beyond one thread and its sandbox: claims, the slot table, the
 slots' namespaces, and the environment.
 */
module FirecrackerSteps {
  import opened FirecrackerModel
  import opened FirecrackerMachine
  import opened FirecrackerInvariant
  import opened FirecrackerPreserve

  /** The thread's own steps on its own sandbox. */
  predicate LocalPc(th: Thread) {
    match th.pc
    case Reserve | Waiting | Record | NetWait | NetLocked | NetWired | ClearWait | ClearHeld | ClearGo
       | Untrack | LateUntrack | Final | Wiring | Done => false
    case _ => true
  }

  lemma HeldHere(s: State, t: nat)
    requires Inv(s) && t < |s.threads| && Holds(s.threads[t]) && !HoldsNet(s.threads[t])
    ensures s.threads[t].ref < |s.heap|
    ensures Held(Here(t, s.threads[t], Box(s, s.threads[t].ref), Tracked(s, s.threads[t].ref), |s.slots|))
  {
    hide Local, SandboxInv, FilesOk, Quiet, Rest, Holds, Doomed;
    assert ThreadInv(s, t);
    var r := s.threads[t].ref;
    assert HeapInv(s, r);
    if Tracked(s, r) { assert EntryInv(s, s.heap[r].r.id); }
  }

  lemma LocalGoes(v: Here, o: Outcome)
    requires Held(v) && LocalPc(v.th)
    ensures Goes(v, DoLocal(v.th, v.x, o, v.tracked))
  {
    hide Held, Goes, DoBuild, DoBoot, DoStop, DoTeardown, DoFinish, AfterClaim;
    match v.th.pc {
      case Begun => AtBegun(v);
      case CloneRootfs => AtCloneRootfs(v, o);
      case CloneSnapshot => AtCloneSnapshot(v, o);
      case PrepareJail => AtPrepareJail(v, o);
      case Capture => AtCapture(v, o);
      case StartJailer => AtStartJailer(v, o);
      case Publish => AtPublish(v, o);
      case WaitSocket => AtWaitSocket(v, o);
      case StartGuest => AtStartGuest(v, o);
      case Boot => AtBoot(v, o);
      case NewProxy => AtNewProxy(v, o);
      case PublishProxy => AtPublishProxy(v, o);
      case Probe => AtProbe(v, o);
      case Up => AtUp(v, o);
      case DiskCheck => AtDiskCheck(v, o);
      case Pause => AtPause(v, o);
      case Snapshot => AtSnapshot(v, o);
      case Unpin => AtUnpin(v, o);
      case Resume => AtResume(v, o);
      case Mark => AtMark(v, o);
      case Teardown => AtTeardown(v, o);
      case Kill => AtKill(v, o);
      case CleanHost => AtCleanHost(v, o);
      case TornDown => AtTornDown(v, o);
      case Remove => AtRemove(v, o);
      case FailDelete => AtFailDelete(v, o);
      case End => AtEnd(v, o);
      case _ =>
    }
  }

  lemma KeepLocal(s: State, t: nat, o: Outcome)
    requires Inv(s) && Enabled(s, t) && LocalPc(s.threads[t])
    ensures Inv(DoAct(s, t, o))
  {
    hide Held, Change, DoLocal, Inv;
    HeldHere(s, t);
    var r := s.threads[t].ref;
    var v := Here(t, s.threads[t], Box(s, r), Tracked(s, r), |s.slots|);
    LocalGoes(v, o);
    var res := DoLocal(v.th, v.x, o, v.tracked);
    LocalUpdate(s, t, res.0, res.1);
  }

  // ---- steps that change the thread alone -----------------------------------

  lemma ThreadUpdate(s: State, t: nat, th': Thread)
    requires Inv(s) && t < |s.threads|
    requires Holds(th') == Holds(s.threads[t]) && (Holds(th') ==> th'.ref == s.threads[t].ref)
    requires HoldsNet(th') == HoldsNet(s.threads[t]) && (HoldsNet(th') ==> th'.slot == s.threads[t].slot)
    requires ThreadInv(PutThread(s, t, th'), t)
    ensures Inv(PutThread(s, t, th'))
  {
    var s' := PutThread(s, t, th');
    forall id | id in s.sandboxes ensures EntryInv(s', id) {
      hide Rest;
      assert EntryInv(s, id);
    }
    forall i | 0 <= i < |s.slots| ensures SlotInv(s', i) {
      hide HoldsNet;
      assert SlotInv(s, i);
    }
    forall r | 0 <= r < |s.heap| ensures HeapInv(s', r) {
      hide SandboxInv, FilesOk, Quiet, Holds;
      assert HeapInv(s, r);
    }
    forall u | 0 <= u < |s.threads| ensures ThreadInv(s', u) {
      hide Local, Holds, Doomed;
      assert ThreadInv(s, u);
    }
  }

  lemma AddThread(s: State, th: Thread)
    requires Inv(s) && !Holds(th) && !NetPc(th)
    requires ThreadInv(s.(threads := s.threads + [th]), |s.threads|)
    ensures Inv(s.(threads := s.threads + [th]))
  {
    var s' := s.(threads := s.threads + [th]);
    forall id | id in s.sandboxes ensures EntryInv(s', id) {
      hide Rest;
      assert EntryInv(s, id);
    }
    forall i | 0 <= i < |s.slots| ensures SlotInv(s', i) {
      hide HoldsNet;
      assert SlotInv(s, i);
    }
    forall r | 0 <= r < |s.heap| ensures HeapInv(s', r) {
      hide SandboxInv, FilesOk, Quiet, Holds;
      assert HeapInv(s, r);
    }
    forall u | 0 <= u < |s'.threads| ensures ThreadInv(s', u) {
      hide Local, Holds, Doomed;
      if u < |s.threads| { assert ThreadInv(s, u) && s'.threads[u] == s.threads[u]; }
    }
  }

  // ---- steps on a slot's namespace ------------------------------------------

  /** Thread t changes the network half of slot i, whose netMu is free or its own, and
      leaves a wired namespace as it was. */
  predicate SlotStep(s: State, t: nat, th': Thread, i: nat, sl': Slot) {
    && t < |s.threads| && i < |s.slots|
    && Holds(th') == Holds(s.threads[t]) && (Holds(th') ==> th'.ref == s.threads[t].ref)
    && (s.slots[i].lock == None || s.slots[i].lock == Some(t))
    && (HoldsNet(s.threads[t]) ==> s.threads[t].slot == i)
    && sl'.lock == (if HoldsNet(th') then Some(t) else None) && (HoldsNet(th') ==> th'.slot == i)
    && sl'.owner == s.slots[i].owner
    && (s.slots[i].wired ==> sl'.wired && sl'.ns == s.slots[i].ns)
    && (sl'.wired && !s.slots[i].wired ==> sl'.ns.Built? && !sl'.ns.drop)
  }

  lemma SlotSlots(s: State, t: nat, th': Thread, i: nat, sl': Slot, j: nat)
    requires Inv(s) && SlotStep(s, t, th', i, sl') && j < |s.slots|
    ensures SlotInv(PutThread(PutSlot(s, i, sl'), t, th'), j)
  {
    assert SlotInv(s, j) && SlotInv(s, i);
    hide Inv, Holds;
  }

  lemma SlotThreads(s: State, t: nat, th': Thread, i: nat, sl': Slot, u: nat)
    requires Inv(s) && SlotStep(s, t, th', i, sl') && u < |s.threads| && u != t
    ensures ThreadInv(PutThread(PutSlot(s, i, sl'), t, th'), u)
  {
    assert ThreadInv(s, u) && SlotInv(s, i);
    hide Inv, Local, Holds, Doomed;
  }

  lemma SlotUpdate(s: State, t: nat, th': Thread, i: nat, sl': Slot)
    requires Inv(s) && SlotStep(s, t, th', i, sl')
    requires ThreadInv(PutThread(PutSlot(s, i, sl'), t, th'), t)
    ensures Inv(PutThread(PutSlot(s, i, sl'), t, th'))
  {
    var s' := PutThread(PutSlot(s, i, sl'), t, th');
    forall id | id in s.sandboxes ensures EntryInv(s', id) {
      hide Rest;
      assert EntryInv(s, id);
    }
    forall j | 0 <= j < |s.slots| ensures SlotInv(s', j) {
      hide SlotInv;
      SlotSlots(s, t, th', i, sl', j);
    }
    forall r | 0 <= r < |s.heap| ensures HeapInv(s', r) {
      hide SandboxInv, FilesOk, Quiet, Holds;
      assert HeapInv(s, r);
    }
    forall u | 0 <= u < |s.threads| ensures ThreadInv(s', u) {
      hide ThreadInv;
      if u != t { SlotThreads(s, t, th', i, sl', u); }
    }
  }

  lemma BuildCount(s: State, b: nat)
    requires Inv(s)
    ensures Inv(s.(builds := b))
  {
    hide Rest, SandboxInv, FilesOk, Quiet, Local, Holds, HoldsNet, Doomed;
    var s' := s.(builds := b);
    forall id | id in s.sandboxes ensures EntryInv(s', id) { assert EntryInv(s, id); }
    forall i | 0 <= i < |s.slots| ensures SlotInv(s', i) { assert SlotInv(s, i); }
    forall r | 0 <= r < |s.heap| ensures HeapInv(s', r) { assert HeapInv(s, r); }
    forall u | 0 <= u < |s.threads| ensures ThreadInv(s', u) { assert ThreadInv(s, u); }
  }

  lemma ThreadOf(s: State, t: nat)
    requires Inv(s) && t < |s.threads|
    ensures ThreadInv(s, t)
  {
  }

  /** Thread t moves on with its sandbox untouched. */
  lemma OwnThread(s: State, s': State, t: nat, th': Thread)
    requires t < |s.threads| && ThreadInv(s, t)
    requires s'.heap == s.heap && s'.files == s.files && s'.threads == s.threads[t := th']
    requires th' == s.threads[t].(pc := th'.pc, err := th'.err, slot := th'.slot) && !th'.pc.LateUntrack?
    requires Holds(th') ==> Holds(s.threads[t]) && (th'.ref < |s.heap| ==> Local(th', Box(s, th'.ref)))
    requires NetInv(s', t) && ShapeInv(th')
    ensures ThreadInv(s', t)
  {
    hide Local, Holds, NetInv, ShapeInv;
  }

  lemma KeepTakeLock(s: State, t: nat, pc: Pc)
    requires Inv(s) && t < |s.threads| && 0 <= s.threads[t].slot < |s.slots| && s.slots[s.threads[t].slot].lock == None
    requires if pc.NetLocked? then s.threads[t].pc.NetWait? else pc.ClearHeld? && s.threads[t].pc.ClearWait?
    ensures Inv(TakeLock(s, t, pc))
  {
    hide PreStart, Tearing, Inv;
    ThreadOf(s, t);
    OwnThread(s, TakeLock(s, t, pc), t, s.threads[t].(pc := pc));
    hide ThreadInv, Local;
    SlotUpdate(s, t, s.threads[t].(pc := pc), s.threads[t].slot, s.slots[s.threads[t].slot].(lock := Some(t)));
  }

  /** What the invariant says about a thread that holds its slot's netMu. */
  lemma NetHolder(s: State, t: nat)
    requires Inv(s) && t < |s.threads| && HoldsNet(s.threads[t])
    ensures 0 <= s.threads[t].slot < |s.slots|
    ensures s.slots[s.threads[t].slot].lock == Some(t)
    ensures s.threads[t].op.Wire? ||
      (Holds(s.threads[t]) && s.threads[t].ref < |s.heap| && Local(s.threads[t], Box(s, s.threads[t].ref)))
    ensures !s.threads[t].op.Wire? ==> s.heap[s.threads[t].ref].h.holder == Some(t) && HeapInv(s, s.threads[t].ref)
    ensures SlotInv(s, s.threads[t].slot) && ThreadInv(s, t)
  {
    hide PreStart, Tearing, SandboxInv;
    ThreadOf(s, t);
  }

  lemma KeepBuilt(s: State, t: nat)
    requires Inv(s) && t < |s.threads| && s.threads[t].pc.NetLocked? && 0 <= s.threads[t].slot < |s.slots|
    requires s.slots[s.threads[t].slot].wired
    ensures Inv(PutThread(s, t, s.threads[t].(pc := NetWired)))
  {
    hide Inv, SlotInv, HeapInv, SandboxInv, PreStart;
    NetHolder(s, t);
    var th' := s.threads[t].(pc := NetWired);
    OwnThread(s, PutThread(s, t, th'), t, th');
    hide ThreadInv, Local;
    ThreadUpdate(s, t, th');
  }

  lemma KeepBuilds(s: State, t: nat)
    requires Inv(s) && t < |s.threads| && s.threads[t].pc.NetLocked? && 0 <= s.threads[t].slot < |s.slots|
    requires !s.slots[s.threads[t].slot].wired
    ensures var th := s.threads[t];
      Inv(PutThread(PutSlot(s, th.slot, s.slots[th.slot].(wired := true, ns := Built(s.builds, false))), t,
                    th.(pc := NetWired)))
  {
    hide Inv, SlotInv, HeapInv, SandboxInv, PreStart;
    NetHolder(s, t);
    var th := s.threads[t];
    var sl' := s.slots[th.slot].(wired := true, ns := Built(s.builds, false));
    OwnThread(s, PutThread(PutSlot(s, th.slot, sl'), t, th.(pc := NetWired)), t, th.(pc := NetWired));
    hide ThreadInv, Local;
    SlotUpdate(s, t, th.(pc := NetWired), th.slot, sl');
  }

  /** An activation that has not started its microVM can be given up as it stands. */
  lemma AbandonPreStart(th: Thread, x: Sandbox)
    requires PreStart(th.op, x)
    ensures var th' := Abandon(th);
      Local(th', x) && Holds(th') && !NetPc(th') && ShapeInv(th') && !th'.pc.LateUntrack?
  {
    hide AllTorn, Quiet, Pin;
  }

  lemma NetLockedStarts(th: Thread, x: Sandbox)
    requires th.pc.NetLocked? && Local(th, x)
    ensures PreStart(th.op, x)
  {
    hide PreStart, Present;
  }

  lemma BuildGivenUp(s: State, t: nat, sl': Slot)
    requires Inv(s) && t < |s.threads| && s.threads[t].pc.NetLocked? && 0 <= s.threads[t].slot < |s.slots|
    ensures var th := s.threads[t]; var th' := if th.op.Wire? then th.(pc := Wiring) else Abandon(th);
      && ThreadInv(PutThread(PutSlot(s, th.slot, sl'), t, th'), t)
      && Holds(th') == Holds(th) && !HoldsNet(th') && th'.ref == th.ref
  {
    hide Inv, SlotInv, HeapInv, SandboxInv, PreStart, Local, ClaimInv, DeathInv;
    NetHolder(s, t);
    var th := s.threads[t];
    var th' := if th.op.Wire? then th.(pc := Wiring) else Abandon(th);
    if !th.op.Wire? {
      NetLockedStarts(th, Box(s, th.ref));
      AbandonPreStart(th, Box(s, th.ref));
    }
    OwnThread(s, PutThread(PutSlot(s, th.slot, sl'), t, th'), t, th');
  }

  lemma KeepBuildFails(s: State, t: nat)
    requires Inv(s) && t < |s.threads| && s.threads[t].pc.NetLocked? && 0 <= s.threads[t].slot < |s.slots|
    requires !s.slots[s.threads[t].slot].wired
    ensures var th := s.threads[t];
      Inv(PutThread(PutSlot(s, th.slot, s.slots[th.slot].(lock := None, ns := Unknown)), t,
                    if th.op.Wire? then th.(pc := Wiring) else Abandon(th)))
  {
    hide Inv, SlotInv, HeapInv, SandboxInv, PreStart, Local, ThreadInv, Holds;
    var th := s.threads[t];
    var sl' := s.slots[th.slot].(lock := None, ns := Unknown);
    NetHolder(s, t);
    BuildGivenUp(s, t, sl');
    SlotUpdate(s, t, if th.op.Wire? then th.(pc := Wiring) else Abandon(th), th.slot, sl');
  }

  lemma KeepNetBuild(s: State, t: nat, o: Outcome)
    requires Inv(s) && t < |s.threads| && s.threads[t].pc.NetLocked? && 0 <= s.threads[t].slot < |s.slots|
    ensures Inv(DoNetBuild(s, t, o))
  {
    hide Inv;
    var th := s.threads[t];
    var sl := s.slots[th.slot];
    if sl.wired {
      KeepBuilt(s, t);
    } else if o.ok {
      KeepBuilds(s, t);
      var sl' := sl.(wired := true, ns := Built(s.builds, false));
      BuildCount(PutThread(PutSlot(s, th.slot, sl'), t, th.(pc := NetWired)), s.builds + 1);
    } else {
      KeepBuildFails(s, t);
    }
  }

  lemma KeepWirerFinish(s: State, t: nat, o: Outcome)
    requires Inv(s) && t < |s.threads| && s.threads[t].pc.NetWired?
    requires 0 <= s.threads[t].slot < |s.slots| && s.threads[t].op.Wire?
    ensures Inv(DoNetFinish(s, t, o))
  {
    hide Inv, SlotInv, HeapInv, SandboxInv;
    NetHolder(s, t);
    SlotUpdate(s, t, s.threads[t].(pc := Wiring), s.threads[t].slot, s.slots[s.threads[t].slot].(lock := None));
  }

  /** Another sandbox has the slot: the clear leaves it alone. */
  lemma KeepClearSkip(s: State, t: nat)
    requires Inv(s) && t < |s.threads| && s.threads[t].pc.ClearHeld?
    requires s.threads[t].ref < |s.heap| && 0 <= s.threads[t].slot < |s.slots|
    requires s.slots[s.threads[t].slot].owner != FREE
    requires var id := s.heap[s.threads[t].ref].r.id;
      !(s.slots[s.threads[t].slot].owner == id && (id !in s.sandboxes || s.sandboxes[id] == s.threads[t].ref))
    ensures var th := s.threads[t];
      Inv(PutThread(PutSlot(s, th.slot, s.slots[th.slot].(lock := None)), t, th.(pc := TornDown)))
  {
    hide Inv, SandboxInv;
    NetHolder(s, t);
    var th := s.threads[t];
    var sl' := s.slots[th.slot].(lock := None);
    EntryOf(s, th.ref);
    OwnThread(s, PutThread(PutSlot(s, th.slot, sl'), t, th.(pc := TornDown)), t, th.(pc := TornDown));
    hide ThreadInv, Local, SlotInv, HeapInv, EntryInv;
    SlotUpdate(s, t, th.(pc := TornDown), th.slot, sl');
  }

  /** The slot is free or the teardown's own: the clear may go ahead. */
  lemma ClearGoes(s: State, t: nat)
    requires Inv(s) && t < |s.threads| && s.threads[t].pc.ClearHeld?
    requires s.threads[t].ref < |s.heap| && 0 <= s.threads[t].slot < |s.slots|
    requires var sl := s.slots[s.threads[t].slot]; var id := s.heap[s.threads[t].ref].r.id;
      sl.owner == FREE || (sl.owner == id && (id !in s.sandboxes || s.sandboxes[id] == s.threads[t].ref))
    ensures var th' := s.threads[t].(pc := ClearGo);
      && ThreadInv(PutThread(s, t, th'), t)
      && Holds(th') == Holds(s.threads[t]) && HoldsNet(th') && HoldsNet(s.threads[t])
  {
    hide Inv, SandboxInv, FilesOk, Quiet, Tearing;
    NetHolder(s, t);
    var th' := s.threads[t].(pc := ClearGo);
    OwnThread(s, PutThread(s, t, th'), t, th');
  }

  lemma KeepClearCheck(s: State, t: nat)
    requires Inv(s) && t < |s.threads| && s.threads[t].pc.ClearHeld?
    requires s.threads[t].ref < |s.heap| && 0 <= s.threads[t].slot < |s.slots|
    ensures Inv(DoClearCheck(s, t))
  {
    hide Inv, SandboxInv, FilesOk, Quiet, Tearing, ThreadInv, HeapInv, SlotInv;
    var th := s.threads[t];
    var sl := s.slots[th.slot];
    var x := s.heap[th.ref];
    var ours := sl.owner == x.r.id && (x.r.id !in s.sandboxes || s.sandboxes[x.r.id] == th.ref);
    if sl.owner != FREE && !ours {
      KeepClearSkip(s, t);
    } else {
      ClearGoes(s, t);
      hide Local, Holds;
      ThreadUpdate(s, t, th.(pc := ClearGo));
    }
  }

  lemma EntryOf(s: State, r: nat)
    requires Inv(s) && r < |s.heap|
    ensures Tracked(s, r) ==> EntryInv(s, s.heap[r].r.id)
  {
    hide EntryInv, SlotInv, HeapInv, ThreadInv;
  }

  // ---- steps on a thread, its sandbox and its slot at once ------------------

  /** The sandbox a network step belongs to keeps everything but its network use. */
  predicate NetStep(s: State, t: nat, th': Thread, x': Sandbox, sl': Slot)
    requires t < |s.threads| && s.threads[t].ref < |s.heap| && 0 <= s.threads[t].slot < |s.slots|
  {
    var th := s.threads[t];
    var x := Box(s, th.ref);
    var sl := s.slots[th.slot];
    && HoldsNet(th) && sl.lock == Some(t) && Holds(th) && x.h.holder == Some(t)
    && th' == th.(pc := th'.pc, err := th'.err) && Holds(th') && !NetPc(th') && ShapeInv(th') && !th'.pc.LateUntrack?
    && x' == x.(h := x.h.(net := x'.h.net)) && SandboxInv(x') && Local(th', x')
    && sl'.owner == sl.owner && sl'.lock == None
  }

  function NetApply(s: State, t: nat, th': Thread, x': Sandbox, sl': Slot): State
    requires t < |s.threads| && s.threads[t].ref < |s.heap| && 0 <= s.threads[t].slot < |s.slots|
  {
    PutBoth(s, t, th', Entry(x'.r, x'.h)).(slots := s.slots[s.threads[t].slot := sl'])
  }

  /** What a network step must show of its own sandbox and slot. */
  ghost predicate NetStepOk(s: State, t: nat, th': Thread, x': Sandbox, sl': Slot) {
    && t < |s.threads| && s.threads[t].ref < |s.heap| && 0 <= s.threads[t].slot < |s.slots|
    && NetStep(s, t, th', x', sl')
    && (forall q :: 0 <= q < |s.heap| && q != s.threads[t].ref && s.heap[q].h.net == NetReady ==>
          s.heap[q].r.slot != s.threads[t].slot)
    && (x'.h.net != s.heap[s.threads[t].ref].h.net ==> s.heap[s.threads[t].ref].r.slot == s.threads[t].slot)
    && (Doomed(Box(s, s.threads[t].ref)) ==> Doomed(x'))
  }

  lemma NetEntry(s: State, t: nat, th': Thread, x': Sandbox, sl': Slot, id: Id)
    requires Inv(s) && NetStepOk(s, t, th', x', sl') && id in s.sandboxes
    ensures EntryInv(NetApply(s, t, th', x', sl'), id)
  {
    assert EntryInv(s, id);
    hide Inv, Rest, Local, SandboxInv, Holds, NetPc, Doomed;
  }

  lemma NetSlot(s: State, t: nat, th': Thread, x': Sandbox, sl': Slot, j: nat)
    requires Inv(s) && NetStepOk(s, t, th', x', sl') && j < |s.slots| && j != s.threads[t].slot
    ensures SlotInv(NetApply(s, t, th', x', sl'), j)
  {
    assert SlotInv(s, j);
    hide Inv, Rest, Local, SandboxInv, Holds, Doomed;
  }

  lemma NetHeap(s: State, t: nat, th': Thread, x': Sandbox, sl': Slot, q: nat)
    requires Inv(s) && NetStepOk(s, t, th', x', sl') && q < |s.heap| && q != s.threads[t].ref
    ensures HeapInv(NetApply(s, t, th', x', sl'), q)
  {
    assert HeapInv(s, q);
    hide Inv, SandboxInv, FilesOk, Quiet, Holds, Local, Doomed;
  }

  lemma NetNet(s: State, t: nat, th': Thread, x': Sandbox, sl': Slot, u: nat)
    requires Inv(s) && NetStepOk(s, t, th', x', sl') && u < |s.threads|
    ensures NetInv(NetApply(s, t, th', x', sl'), u)
  {
    assert ThreadInv(s, u);
    if s.threads[u].pc.ClearGo? { assert SlotInv(s, s.threads[u].slot); }
    hide Inv, Local, Doomed, SandboxInv, ClaimInv, DeathInv, Holds;
  }

  lemma NetThread(s: State, t: nat, th': Thread, x': Sandbox, sl': Slot, u: nat)
    requires Inv(s) && NetStepOk(s, t, th', x', sl') && u < |s.threads|
    ensures ThreadInv(NetApply(s, t, th', x', sl'), u)
  {
    hide Inv, Local, Doomed, SandboxInv, EntryInv, SlotInv;
    ThreadOf(s, u);
    var s' := NetApply(s, t, th', x', sl');
    assert ClaimInv(s', u) by { hide NetInv, DeathInv; }
    assert DeathInv(s', u) by { hide ClaimInv, NetInv; }
    NetNet(s, t, th', x', sl', u);
  }

  lemma NetUpdate(s: State, t: nat, th': Thread, x': Sandbox, sl': Slot)
    requires Inv(s) && NetStepOk(s, t, th', x', sl')
    requires HeapInv(NetApply(s, t, th', x', sl'), s.threads[t].ref)
    requires SlotInv(NetApply(s, t, th', x', sl'), s.threads[t].slot)
    ensures Inv(NetApply(s, t, th', x', sl'))
  {
    hide EntryInv, SlotInv, HeapInv, ThreadInv, NetStep;
    var s' := NetApply(s, t, th', x', sl');
    forall id | id in s.sandboxes ensures EntryInv(s', id) { NetEntry(s, t, th', x', sl', id); }
    forall j | 0 <= j < |s.slots| ensures SlotInv(s', j) {
      if j != s.threads[t].slot { NetSlot(s, t, th', x', sl', j); }
    }
    forall q | 0 <= q < |s.heap| ensures HeapInv(s', q) {
      if q != s.threads[t].ref { NetHeap(s, t, th', x', sl', q); }
    }
    forall u | 0 <= u < |s.threads| ensures ThreadInv(s', u) { NetThread(s, t, th', x', sl', u); }
  }

  /** No other sandbox has its namespace set up on the slot this one occupies. */
  lemma SoleUser(s: State, r: nat, i: nat)
    requires Inv(s) && r < |s.heap| && i < |s.slots|
    requires s.slots[i].owner == FREE || (SlotRef(s, i) && s.sandboxes[s.slots[i].owner] == r) ||
             (SlotRef(s, i) && Occupant(s, i).h.net == NoNet)
    ensures forall q :: 0 <= q < |s.heap| && q != r && s.heap[q].h.net == NetReady ==> s.heap[q].r.slot != i
  {
    forall q | 0 <= q < |s.heap| && q != r && s.heap[q].h.net == NetReady ensures s.heap[q].r.slot != i {
      hide Rest, SlotInv, ThreadInv;
      assert HeapInv(s, q);
      EntryOf(s, q);
    }
  }

  /** What holds where an activation finishes its network: the slot is its own. */
  lemma FinishFacts(s: State, t: nat)
    requires Inv(s) && t < |s.threads| && s.threads[t].pc.NetWired? && !s.threads[t].op.Wire?
    requires s.threads[t].ref < |s.heap| && 0 <= s.threads[t].slot < |s.slots|
    ensures var th := s.threads[t]; var x := Box(s, th.ref); var sl := s.slots[th.slot];
      && sl.owner == x.r.id && SlotRef(s, th.slot) && s.sandboxes[sl.owner] == th.ref && x.r.slot == th.slot
      && sl.lock == Some(t) && sl.wired && sl.ns.Built? && !sl.ns.drop
      && PreStart(th.op, x) && x.h.net.NoNet? && Present(x.f) && SandboxInv(x) && x.h.holder == Some(t)
      && HeapInv(s, th.ref) && Holds(th) && HoldsNet(th)
    ensures forall q :: 0 <= q < |s.heap| && q != s.threads[t].ref && s.heap[q].h.net == NetReady ==>
      s.heap[q].r.slot != s.threads[t].slot
  {
    hide Inv;
    NetHolder(s, t);
    var th := s.threads[t];
    EntryOf(s, th.ref);
    assert s.slots[th.slot].owner == s.heap[th.ref].r.id;
    SoleUser(s, th.ref, th.slot);
  }

  /** The sandbox and the slot it occupies, after a network step on both. */
  lemma NetOwn(s: State, t: nat, th': Thread, x': Sandbox, sl': Slot)
    requires t < |s.threads| && s.threads[t].ref < |s.heap| && 0 <= s.threads[t].slot < |s.slots|
    requires NetStep(s, t, th', x', sl') && HeapInv(s, s.threads[t].ref) && x'.r.slot == s.threads[t].slot
    requires sl'.owner in s.sandboxes && s.sandboxes[sl'.owner] == s.threads[t].ref && sl'.owner == x'.r.id
    requires sl'.wired && sl'.ns.Built? && !x'.h.net.NoNet? && sl'.owner != FREE
    requires sl'.ns.drop ==> x'.r.blockEgress
    requires x'.h.net.NetReady? ==> sl'.ns.drop == x'.r.blockEgress
    ensures HeapInv(NetApply(s, t, th', x', sl'), s.threads[t].ref)
    ensures SlotInv(NetApply(s, t, th', x', sl'), s.threads[t].slot)
  {
    hide SandboxInv, Local;
  }

  /** The activation after its network, ready or given up. */
  lemma FinishLocal(th: Thread, x: Sandbox, ok: bool)
    requires PreStart(th.op, x) && Present(x.f) && SandboxInv(x) && x.h.net.NoNet? && !th.op.Wire?
    ensures var th' := if ok then th.(pc := Capture) else Abandon(th);
      var x' := x.(h := x.h.(net := if ok then NetReady else NetLeaving));
      && Local(th', x') && SandboxInv(x') && Holds(th') && !NetPc(th') && ShapeInv(th') && !th'.pc.LateUntrack?
      && !Doomed(x)
  {
    hide GuestsInv, NoExec, OnlyLast;
    AbandonPreStart(th, x.(h := x.h.(net := NetLeaving)));
  }

  lemma KeepNetFinish(s: State, t: nat, o: Outcome)
    requires Inv(s) && t < |s.threads| && s.threads[t].pc.NetWired? && !s.threads[t].op.Wire?
    requires s.threads[t].ref < |s.heap| && 0 <= s.threads[t].slot < |s.slots|
    ensures Inv(DoNetFinish(s, t, o))
  {
    hide Inv;
    FinishFacts(s, t);
    var th := s.threads[t];
    var x := Box(s, th.ref);
    var sl := s.slots[th.slot];
    var ok := o.ok || !x.r.blockEgress;
    var ns := if x.r.blockEgress && (o.ok || o.effect) then sl.ns.(drop := true) else sl.ns;
    var th' := if ok then th.(pc := Capture) else Abandon(th);
    var x' := x.(h := x.h.(net := if ok then NetReady else NetLeaving));
    FinishLocal(th, x, ok);
    assert x.r.id != FREE;
    hide PreStart, Local, SandboxInv, Doomed;
    assert NetStepOk(s, t, th', x', sl.(lock := None, ns := ns));
    hide NetStepOk;
    NetOwn(s, t, th', x', sl.(lock := None, ns := ns));
    hide HeapInv, SlotInv;
    NetUpdate(s, t, th', x', sl.(lock := None, ns := ns));
  }

  /** A sandbox whose namespace is gone, and the teardown that removed it. */
  lemma Cleared(th: Thread, x: Sandbox, err: bool)
    requires th.pc.ClearGo? && Local(th, x) && SandboxInv(x)
    ensures var x' := x.(h := x.h.(net := NoNet)); var th' := th.(pc := TornDown, err := err);
      Local(th', x') && SandboxInv(x') && (Doomed(x) ==> Doomed(x')) && (FilesOk(x) ==> FilesOk(x'))
  {
    hide GuestsInv;
  }

  lemma KeepClear(s: State, t: nat, o: Outcome)
    requires Inv(s) && t < |s.threads| && s.threads[t].pc.ClearGo?
    requires s.threads[t].ref < |s.heap| && 0 <= s.threads[t].slot < |s.slots|
    ensures Inv(DoClear(s, t, o))
  {
    hide Inv, SandboxInv, FilesOk, Quiet, Tearing, Doomed;
    NetHolder(s, t);
    var th := s.threads[t];
    var x := Box(s, th.ref);
    var th' := th.(pc := TornDown, err := th.err || !o.ok);
    var x' := x.(h := x.h.(net := NoNet));
    var sl' := s.slots[th.slot].(wired := false, lock := None, ns := Unknown);
    assert x.r.slot == th.slot by { SameSlot(th, x); }
    SoleUser(s, th.ref, th.slot);
    Cleared(th, x, th.err || !o.ok);
    hide Local;
    assert HeapInv(NetApply(s, t, th', x', sl'), th.ref) by { hide SlotInv, ThreadInv; }
    assert SlotInv(NetApply(s, t, th', x', sl'), th.slot) by { hide HeapInv, ThreadInv; }
    hide HeapInv, SlotInv, ThreadInv;
    NetUpdate(s, t, th', x', sl');
  }

  lemma SameSlot(th: Thread, x: Sandbox)
    requires th.pc.ClearGo? && Local(th, x)
    ensures x.r.slot == th.slot
  { }
}
