/**
 The steps that change who is tracked, who owns a slot or who holds a claim, and the
 steps of the environment: guests that write or die, and exit callbacks.
 */
module FirecrackerTables {
  import opened FirecrackerModel
  import opened FirecrackerMachine
  import opened FirecrackerInvariant
  import opened FirecrackerPreserve
  import opened FirecrackerSteps

  /** The invariant, gathered from its parts. */
  lemma Gather(s: State)
    requires forall id :: id in s.sandboxes ==> EntryInv(s, id)
    requires forall i :: 0 <= i < |s.slots| ==> SlotInv(s, i)
    requires forall r :: 0 <= r < |s.heap| ==> HeapInv(s, r)
    requires forall t :: 0 <= t < |s.threads| ==> ThreadInv(s, t)
    ensures Inv(s)
  {
  }

  lemma EntryOfId(s: State, id: Id)
    requires Inv(s) && id in s.sandboxes
    ensures id != FREE && EntryInv(s, id) && HeapInv(s, s.sandboxes[id])
  {
    hide SlotInv, ThreadInv, Rest;
    assert EntryInv(s, id);
    assert HeapInv(s, s.sandboxes[id]);
  }

  lemma SlotOf(s: State, i: nat)
    requires Inv(s) && i < |s.slots|
    ensures SlotInv(s, i)
  {
    hide EntryInv, SlotInv, HeapInv, ThreadInv;
  }

  // ---- reserveSandbox -------------------------------------------------------

  predicate Reserves(s: State, t: nat) {
    && Inv(s) && t < |s.threads| && s.threads[t].pc.Reserve? && s.threads[t].op.Create?
    && s.threads[t].id !in s.sandboxes && FirstFree(Owners(s.slots), 0) >= 0
  }

  lemma ReserveEntries(s: State, t: nat)
    requires Reserves(s, t)
    ensures var s' := DoReserve(s, t, true); forall id :: id in s'.sandboxes ==> EntryInv(s', id)
  {
    var s' := DoReserve(s, t, true);
    forall id | id in s'.sandboxes ensures EntryInv(s', id) {
      hide Rest, Inv;
      if id != s.threads[t].id { EntryOfId(s, id); }
    }
  }

  lemma ReserveSlots(s: State, t: nat)
    requires Reserves(s, t)
    ensures var s' := DoReserve(s, t, true); forall i :: 0 <= i < |s'.slots| ==> SlotInv(s', i)
  {
    var s' := DoReserve(s, t, true);
    forall i | 0 <= i < |s'.slots| ensures SlotInv(s', i) {
      assert SlotInv(s, i) && ThreadInv(s, t);
      hide Local, HoldsNet, SandboxInv, Rest;
    }
  }

  lemma ReserveHeap(s: State, t: nat)
    requires Reserves(s, t)
    ensures var s' := DoReserve(s, t, true); forall r :: 0 <= r < |s'.heap| ==> HeapInv(s', r)
  {
    var s' := DoReserve(s, t, true);
    assert ThreadInv(s, t);
    forall r | 0 <= r < |s.heap| ensures HeapInv(s', r) {
      hide SandboxInv, Local, Rest;
      assert HeapInv(s, r) && s'.heap[r] == s.heap[r];
    }
    assert HeapInv(s', |s.heap|) by { hide Inv; }
  }

  lemma ReserveThreads(s: State, t: nat)
    requires Reserves(s, t)
    ensures var s' := DoReserve(s, t, true); forall u :: 0 <= u < |s'.threads| ==> ThreadInv(s', u)
  {
    var s' := DoReserve(s, t, true);
    assert ThreadInv(s, t);
    assert ThreadInv(s', t) by { hide Inv; }
    forall u | 0 <= u < |s'.threads| && u != t ensures ThreadInv(s', u) {
      hide Local, Holds, Doomed;
      assert ThreadInv(s, u);
    }
  }

  lemma KeepReserve(s: State, t: nat, ok: bool)
    requires Inv(s) && t < |s.threads| && s.threads[t].pc.Reserve? && s.threads[t].op.Create?
    ensures Inv(DoReserve(s, t, ok))
  {
    if ok && Reserves(s, t) {
      hide Inv, EntryInv, SlotInv, HeapInv, ThreadInv;
      ReserveEntries(s, t);
      ReserveSlots(s, t);
      ReserveHeap(s, t);
      ReserveThreads(s, t);
      Gather(DoReserve(s, t, ok));
    } else {
      ThreadOf(s, t);
      hide Inv;
      ThreadUpdate(s, t, s.threads[t].(pc := Done));
    }
  }

  // ---- reserveWakeSlot ------------------------------------------------------

  predicate Wakes(s: State, t: nat) {
    && Inv(s) && t < |s.threads| && s.threads[t].pc.Reserve? && s.threads[t].op.Wake?
    && s.threads[t].ref < |s.heap| && FirstFree(Owners(s.slots), 0) >= 0
  }

  /** What the invariant gives a thread that holds its claim. */
  lemma Mine(s: State, t: nat)
    requires Inv(s) && t < |s.threads| && Holds(s.threads[t])
    ensures s.threads[t].ref < |s.heap|
    ensures ThreadInv(s, t) && HeapInv(s, s.threads[t].ref) && Local(s.threads[t], Box(s, s.threads[t].ref))
    ensures s.heap[s.threads[t].ref].h.holder == Some(t)
    ensures Tracked(s, s.threads[t].ref) ==> EntryInv(s, s.heap[s.threads[t].ref].r.id)
  {
    hide SlotInv, Rest, SandboxInv, Local, Holds, Doomed;
    assert ThreadInv(s, t);
    assert HeapInv(s, s.threads[t].ref);
  }

  lemma WakeEntries(s: State, t: nat)
    requires Wakes(s, t)
    ensures var s' := DoWakeSlot(s, t); forall id :: id in s'.sandboxes ==> EntryInv(s', id)
  {
    var s' := DoWakeSlot(s, t);
    Mine(s, t);
    forall id | id in s'.sandboxes ensures EntryInv(s', id) {
      hide Rest, Inv, Local, SandboxInv, Holds;
      EntryOfId(s, id);
      assert id != FREE;
    }
  }

  lemma WakeSlots(s: State, t: nat)
    requires Wakes(s, t)
    ensures var s' := DoWakeSlot(s, t); forall i :: 0 <= i < |s'.slots| ==> SlotInv(s', i)
  {
    var s' := DoWakeSlot(s, t);
    Mine(s, t);
    forall i | 0 <= i < |s'.slots| ensures SlotInv(s', i) {
      assert SlotInv(s, i);
      hide HoldsNet, Inv;
    }
  }

  lemma WakeHeap(s: State, t: nat)
    requires Wakes(s, t)
    ensures var s' := DoWakeSlot(s, t); forall r :: 0 <= r < |s'.heap| ==> HeapInv(s', r)
  {
    var s' := DoWakeSlot(s, t);
    Mine(s, t);
    assert HeapInv(s', s.threads[t].ref) by { hide Inv, GuestsInv, NoExec, OnlyLast; }
    forall r | 0 <= r < |s.heap| && r != s.threads[t].ref ensures HeapInv(s', r) {
      hide SandboxInv, Local, Rest;
      assert HeapInv(s, r);
    }
  }

  lemma WakeLocal(th: Thread, x: Sandbox, k: nat)
    requires th.pc.Reserve? && Local(th, x) && SandboxInv(x) && FilesOk(x)
    ensures Local(th.(pc := PrepareJail), x.(r := x.r.(slot := k)))
  {
    hide GuestsInv, NoExec, OnlyLast, Match;
  }

  lemma WakeThreads(s: State, t: nat)
    requires Wakes(s, t)
    ensures var s' := DoWakeSlot(s, t); forall u :: 0 <= u < |s'.threads| ==> ThreadInv(s', u)
  {
    var s' := DoWakeSlot(s, t);
    Mine(s, t);
    assert Box(s, s.threads[t].ref).r.stopped;
    WakeLocal(s.threads[t], Box(s, s.threads[t].ref), FirstFree(Owners(s.slots), 0));
    hide Local, SandboxInv, FilesOk, Quiet, Rest, EntryInv, HeapInv, SlotInv;
    forall u | 0 <= u < |s'.threads| && u != t ensures ThreadInv(s', u) { assert ThreadInv(s, u); }
    hide Inv;
  }

  lemma KeepWakeSlot(s: State, t: nat)
    requires Inv(s) && t < |s.threads| && s.threads[t].pc.Reserve?
    requires s.threads[t].op.Wake? && s.threads[t].ref < |s.heap|
    ensures Inv(DoWakeSlot(s, t))
  {
    if Wakes(s, t) {
      hide Inv, EntryInv, SlotInv, HeapInv, ThreadInv;
      WakeEntries(s, t);
      WakeSlots(s, t);
      WakeHeap(s, t);
      WakeThreads(s, t);
      Gather(DoWakeSlot(s, t));
    } else {
      ThreadOf(s, t);
      hide Inv;
      ThreadUpdate(s, t, s.threads[t].(pc := End));
    }
  }

  // ---- the section that ends a stop, a failed wake and a crash --------------

  predicate Finals(s: State, t: nat) {
    && Inv(s) && t < |s.threads| && s.threads[t].pc.Final?
    && s.threads[t].ref < |s.heap| && s.heap[s.threads[t].ref].r.slot < |s.slots|
  }

  lemma FinalHolds(th: Thread)
    requires th.pc.Final?
    ensures Holds(th) && !HoldsNet(th)
  { }

  lemma FinalEntries(s: State, t: nat)
    requires Finals(s, t)
    ensures var s' := DoFinal(s, t); forall id :: id in s'.sandboxes ==> EntryInv(s', id)
  {
    hide Inv, Rest, Local, SandboxInv, FilesOk, Quiet, Holds, ThreadInv, SlotInv;
    var s' := DoFinal(s, t);
    FinalHolds(s.threads[t]);
    Mine(s, t);
    FinalIsTracked(s, t);
    forall id | id in s'.sandboxes ensures EntryInv(s', id) { EntryOfId(s, id); }
  }

  lemma FinalSlots(s: State, t: nat)
    requires Finals(s, t)
    ensures var s' := DoFinal(s, t); forall i :: 0 <= i < |s'.slots| ==> SlotInv(s', i)
  {
    hide Inv, Rest, Local, SandboxInv, FilesOk, Quiet, Holds, HoldsNet, ThreadInv;
    var s' := DoFinal(s, t);
    FinalHolds(s.threads[t]);
    Mine(s, t);
    FinalIsTracked(s, t);
    forall i | 0 <= i < |s'.slots| ensures SlotInv(s', i) {
      SlotOf(s, i);
      if s.slots[i].owner != FREE { EntryOfId(s, s.slots[i].owner); }
    }
  }

  lemma FinalSandbox(th: Thread, x: Sandbox)
    requires th.pc.Final? && Local(th, x) && SandboxInv(x) && FilesOk(x)
    ensures SandboxInv(x.(r := MarkStopped(x.r))) && FilesOk(x.(r := MarkStopped(x.r)))
    ensures (x.r.running || x.r.stopped) && !Doomed(x) && x.h.net.NoNet?
  {
    hide GuestsInv, NoExec, OnlyLast, Whole, Fitting;
  }

  /** The sandbox of a thread about to end a stop, a wake or a crash is the tracked one. */
  lemma FinalIsTracked(s: State, t: nat)
    requires Finals(s, t)
    ensures s.threads[t].ref < |s.heap| && Tracked(s, s.threads[t].ref)
    ensures var x := Box(s, s.threads[t].ref);
      && SandboxInv(x.(r := MarkStopped(x.r))) && FilesOk(x.(r := MarkStopped(x.r)))
      && !Doomed(x) && x.h.net.NoNet?
  {
    Mine(s, t);
    var x := Box(s, s.threads[t].ref);
    assert x.r.running || x.r.stopped;
    hide Inv, Local, SandboxInv, FilesOk;
    FinalSandbox(s.threads[t], x);
  }

  lemma FinalHeap(s: State, t: nat)
    requires Finals(s, t)
    ensures var s' := DoFinal(s, t); forall r :: 0 <= r < |s'.heap| ==> HeapInv(s', r)
  {
    var s' := DoFinal(s, t);
    Mine(s, t);
    FinalIsTracked(s, t);
    hide SandboxInv, FilesOk, Quiet, Local, Rest, Doomed, SlotInv, ThreadInv;
    forall r | 0 <= r < |s.heap| && r != s.threads[t].ref ensures HeapInv(s', r) { assert HeapInv(s, r); }
    hide Inv;
  }

  lemma FinalLocal(th: Thread, x: Sandbox)
    requires th.pc.Final? && Local(th, x)
    ensures Local(th.(pc := End), x.(r := MarkStopped(x.r)))
  {
    hide GuestsInv, NoExec;
  }

  lemma FinalOwnThread(s: State, t: nat)
    requires Finals(s, t)
    ensures ThreadInv(DoFinal(s, t), t)
  {
    Mine(s, t);
    FinalLocal(s.threads[t], Box(s, s.threads[t].ref));
    hide Inv, SandboxInv, FilesOk, Quiet, Local, EntryInv, HeapInv;
  }

  lemma FinalOtherThread(s: State, t: nat, u: nat)
    requires Finals(s, t) && u < |s.threads| && u != t
    ensures ThreadInv(DoFinal(s, t), u)
  {
    Mine(s, t);
    FinalIsTracked(s, t);
    assert ThreadInv(s, u);
    hide Inv, SandboxInv, FilesOk, Quiet, Doomed, Local, EntryInv;
  }

  lemma FinalThreads(s: State, t: nat)
    requires Finals(s, t)
    ensures var s' := DoFinal(s, t); forall u :: 0 <= u < |s'.threads| ==> ThreadInv(s', u)
  {
    hide Inv, ThreadInv;
    var s' := DoFinal(s, t);
    FinalOwnThread(s, t);
    forall u | 0 <= u < |s'.threads| && u != t ensures ThreadInv(s', u) { FinalOtherThread(s, t, u); }
  }

  lemma KeepFinal(s: State, t: nat)
    requires Finals(s, t)
    ensures Inv(DoFinal(s, t))
  {
    hide Inv, EntryInv, SlotInv, HeapInv, ThreadInv;
    FinalEntries(s, t);
    FinalSlots(s, t);
    FinalHeap(s, t);
    FinalThreads(s, t);
    Gather(DoFinal(s, t));
  }

  // ---- untrackSandbox -------------------------------------------------------

  predicate Untracks(s: State, t: nat, late: bool) {
    && Inv(s) && t < |s.threads| && s.threads[t].ref < |s.heap| && s.heap[s.threads[t].ref].r.slot < |s.slots|
    && (if late then s.threads[t].pc.LateUntrack? else s.threads[t].pc.Untrack?)
  }

  /** Whoever untracks a sandbox has nothing left of its namespace. */
  lemma UntrackFacts(s: State, t: nat, late: bool)
    requires Untracks(s, t, late)
    ensures var r := s.threads[t].ref; var x := Box(s, r);
      && ThreadInv(s, t) && HeapInv(s, r) && x.h.net == NoNet
      && (!late ==> x.h.holder == Some(t))
      && (late ==> Doomed(x))
      && Quiet(x)
      && (Tracked(s, r) ==> EntryInv(s, x.r.id))
  {
    ThreadOf(s, t);
    EntryOf(s, s.threads[t].ref);
  }

  lemma UntrackEntries(s: State, t: nat, late: bool)
    requires Untracks(s, t, late)
    ensures var s' := DoUntrack(s, t, late); forall id :: id in s'.sandboxes ==> EntryInv(s', id)
  {
    var s' := DoUntrack(s, t, late);
    UntrackFacts(s, t, late);
    forall id | id in s'.sandboxes ensures EntryInv(s', id) {
      hide Rest, Inv, Local, SandboxInv, Holds, Doomed;
      EntryOfId(s, id);
    }
  }

  lemma UntrackSlots(s: State, t: nat, late: bool)
    requires Untracks(s, t, late)
    ensures var s' := DoUntrack(s, t, late); forall i :: 0 <= i < |s'.slots| ==> SlotInv(s', i)
  {
    hide Inv, Local, SandboxInv, FilesOk, Quiet, Rest, Doomed, ThreadInv;
    var s' := DoUntrack(s, t, late);
    UntrackFacts(s, t, late);
    forall i | 0 <= i < |s'.slots| ensures SlotInv(s', i) {
      SlotOf(s, i);
      if s.slots[i].owner != FREE { EntryOfId(s, s.slots[i].owner); }
    }
  }

  lemma Unheld(x: Sandbox)
    requires SandboxInv(x)
    ensures SandboxInv(x.(h := x.h.(holder := None)))
    ensures Doomed(x) ==> Doomed(x.(h := x.h.(holder := None)))
  {
    hide GuestsInv;
  }

  /** What an untrack leaves of an incarnation: the claim given back where it was the
      thread's own, and the files as they are, with the late untrack noted. */
  lemma UntrackBox(s: State, t: nat, late: bool, q: nat)
    requires Untracks(s, t, late) && q < |s.heap|
    ensures var x := Box(s, q); var x' := Box(DoUntrack(s, t, late), q);
      && x' == x.(h := x'.h, f := x.f.(late := x'.f.late))
      && x'.h == (if !late && q == s.threads[t].ref then x.h.(holder := None) else x.h)
      && Erodes(x.f, x'.f)
  {
    hide Inv, ReleaseSlots, SetOwners;
  }

  lemma UntrackHeapOwn(s: State, t: nat, late: bool)
    requires Untracks(s, t, late)
    ensures HeapInv(DoUntrack(s, t, late), s.threads[t].ref)
  {
    hide Inv, SandboxInv, Local, Rest, GuestsInv, NoExec, ThreadInv, Erodes, ReleaseSlots;
    UntrackFacts(s, t, late);
    var x := Box(s, s.threads[t].ref);
    var f := Box(DoUntrack(s, t, late), s.threads[t].ref).f;
    UntrackBox(s, t, late, s.threads[t].ref);
    Unheld(x);
    ErodesAges(x.f, f);
    SandboxShared(if late then x else x.(h := x.h.(holder := None)), f);
  }

  lemma HeapOf(s: State, r: nat)
    requires Inv(s) && r < |s.heap|
    ensures HeapInv(s, r)
  {
    hide EntryInv, SlotInv, HeapInv, ThreadInv;
  }

  lemma NetHasSlot(x: Sandbox)
    requires SandboxInv(x)
    ensures !x.h.net.NoNet? ==> x.r.slot >= 0
  { }

  lemma ErodesAges(f: Files, f': Files)
    requires Erodes(f, f')
    ensures Ages(f, f')
  { }

  lemma UntrackHeapAt(s: State, t: nat, late: bool, r: nat)
    requires Untracks(s, t, late) && r < |s.heap| && r != s.threads[t].ref
    ensures HeapInv(DoUntrack(s, t, late), r)
  {
    hide Inv, SandboxInv, FilesOk, Quiet, Local, Doomed, Rest, Erodes;
    UntrackFacts(s, t, late);
    EntryOf(s, r);
    HeapOf(s, r);
    UntrackBox(s, t, late, r);
    var x, f := Box(s, r), Box(DoUntrack(s, t, late), r).f;
    NetHasSlot(x);
    ErodesAges(x.f, f);
    SandboxShared(x, f);
    if Tracked(s, r) { FilesEroded(x, f); }
  }

  lemma UntrackHeap(s: State, t: nat, late: bool)
    requires Untracks(s, t, late)
    ensures var s' := DoUntrack(s, t, late); forall r :: 0 <= r < |s'.heap| ==> HeapInv(s', r)
  {
    hide Inv, HeapInv;
    var s' := DoUntrack(s, t, late);
    UntrackHeapOwn(s, t, late);
    forall r | 0 <= r < |s.heap| && r != s.threads[t].ref ensures HeapInv(s', r) { UntrackHeapAt(s, t, late, r); }
  }

  lemma UntrackClaim(s: State, t: nat, late: bool, u: nat)
    requires Untracks(s, t, late) && u < |s.threads|
    ensures ClaimInv(DoUntrack(s, t, late), u)
  {
    hide Inv, Local, Doomed, Quiet, SandboxInv, FilesOk, NetInv, DeathInv, HeapInv, EntryInv;
    UntrackFacts(s, t, late);
    ThreadOf(s, u);
    var s', th := DoUntrack(s, t, late), s.threads[u];
    assert s'.threads == s.threads[t := s.threads[t].(pc := Done)] && |s'.heap| == |s.heap|;
    if u != t && (Holds(th) || th.pc.LateUntrack?) {
      UntrackBox(s, t, late, th.ref);
      SandboxOf(s, th.ref);
      Unheld(Box(s, th.ref));
      hide DoUntrack;
      var x := Box(s, th.ref);
      var x1 := if !late && th.ref == s.threads[t].ref then x.(h := x.h.(holder := None)) else x;
      SandboxShared(x1, Box(s', th.ref).f);
      if Holds(th) { LocalEroded(th, x, Box(s', th.ref).f); }
    }
  }

  lemma UntrackNet(s: State, t: nat, late: bool, u: nat)
    requires Untracks(s, t, late) && u < |s.threads|
    ensures NetInv(DoUntrack(s, t, late), u)
  {
    hide Inv, Local, SandboxInv, FilesOk, Quiet, ClaimInv, DeathInv, Doomed, Holds, Rest;
    UntrackFacts(s, t, late);
    ThreadOf(s, u);
    if s.threads[u].pc.ClearGo? { SlotOf(s, s.threads[u].slot); }
  }

  lemma UntrackThreadAt(s: State, t: nat, late: bool, u: nat)
    requires Untracks(s, t, late) && u < |s.threads|
    ensures ThreadInv(DoUntrack(s, t, late), u)
  {
    UntrackClaim(s, t, late, u);
    UntrackNet(s, t, late, u);
    ThreadOf(s, u);
    hide Inv, ClaimInv, NetInv;
  }

  lemma UntrackThreads(s: State, t: nat, late: bool)
    requires Untracks(s, t, late)
    ensures var s' := DoUntrack(s, t, late); forall u :: 0 <= u < |s'.threads| ==> ThreadInv(s', u)
  {
    hide Inv, ThreadInv;
    var s' := DoUntrack(s, t, late);
    forall u | 0 <= u < |s'.threads| ensures ThreadInv(s', u) { UntrackThreadAt(s, t, late, u); }
  }

  lemma KeepUntrack(s: State, t: nat, late: bool)
    requires Untracks(s, t, late)
    ensures Inv(DoUntrack(s, t, late))
  {
    hide Inv, EntryInv, SlotInv, HeapInv, ThreadInv;
    UntrackEntries(s, t, late);
    UntrackSlots(s, t, late);
    UntrackHeap(s, t, late);
    UntrackThreads(s, t, late);
    Gather(DoUntrack(s, t, late));
  }

  // ---- beginTransition ------------------------------------------------------

  predicate Claims(s: State, t: nat) {
    && Inv(s) && t < |s.threads| && s.threads[t].pc.Waiting?
    && s.threads[t].id in s.sandboxes && Claimable(s, s.threads[t].id)
  }

  lemma ClaimFacts(s: State, t: nat)
    requires Claims(s, t)
    ensures ThreadInv(s, t)
    ensures var r := s.sandboxes[s.threads[t].id]; var x := s.heap[r];
      Tracked(s, r) && EntryInv(s, x.r.id) && HeapInv(s, r) && x.h.holder == None && Rest(Box(s, r))
  {
    ThreadOf(s, t);
    EntryOfId(s, s.threads[t].id);
  }

  lemma ClaimEntries(s: State, t: nat)
    requires Claims(s, t)
    ensures var s' := DoWait(s, t); forall id :: id in s'.sandboxes ==> EntryInv(s', id)
  {
    var s' := DoWait(s, t);
    ClaimFacts(s, t);
    forall id | id in s'.sandboxes ensures EntryInv(s', id) {
      hide Rest, Inv, Local, SandboxInv, Holds, Doomed;
      EntryOfId(s, id);
    }
  }

  lemma ClaimSlots(s: State, t: nat)
    requires Claims(s, t)
    ensures var s' := DoWait(s, t); forall i :: 0 <= i < |s'.slots| ==> SlotInv(s', i)
  {
    var s' := DoWait(s, t);
    ClaimFacts(s, t);
    forall i | 0 <= i < |s'.slots| ensures SlotInv(s', i) {
      assert SlotInv(s, i);
      hide Inv, Local, SandboxInv, Doomed, Rest;
    }
  }

  lemma ClaimHeap(s: State, t: nat)
    requires Claims(s, t)
    ensures var s' := DoWait(s, t); forall r :: 0 <= r < |s'.heap| ==> HeapInv(s', r)
  {
    var s' := DoWait(s, t);
    ClaimFacts(s, t);
    forall r | 0 <= r < |s.heap| ensures HeapInv(s', r) {
      hide GuestsInv, NoExec, OnlyLast, Local, Rest;
      assert HeapInv(s, r);
    }
  }

  lemma ClaimOwnThread(s: State, t: nat)
    requires Claims(s, t)
    ensures ThreadInv(DoWait(s, t), t)
  {
    ClaimFacts(s, t);
    hide Inv, GuestsInv, NoExec, OnlyLast, FilesOk, HeapInv;
  }

  lemma ClaimOtherThread(s: State, t: nat, u: nat)
    requires Claims(s, t) && u < |s.threads| && u != t
    ensures ThreadInv(DoWait(s, t), u)
  {
    ClaimFacts(s, t);
    assert ThreadInv(s, u);
    hide Inv, Local, SandboxInv, Rest, FilesOk, HeapInv;
  }

  lemma ClaimThreads(s: State, t: nat)
    requires Claims(s, t)
    ensures var s' := DoWait(s, t); forall u :: 0 <= u < |s'.threads| ==> ThreadInv(s', u)
  {
    hide Local, SandboxInv, FilesOk, Quiet, Rest, EntryInv, SlotInv, HeapInv;
    var s' := DoWait(s, t);
    ClaimFacts(s, t);
    ClaimOwnThread(s, t);
    forall u | 0 <= u < |s'.threads| && u != t ensures ThreadInv(s', u) { ClaimOtherThread(s, t, u); }
  }

  lemma KeepWait(s: State, t: nat)
    requires Inv(s) && t < |s.threads| && s.threads[t].pc.Waiting?
    ensures Inv(DoWait(s, t))
  {
    if Claims(s, t) {
      hide Inv, EntryInv, SlotInv, HeapInv, ThreadInv;
      ClaimEntries(s, t);
      ClaimSlots(s, t);
      ClaimHeap(s, t);
      ClaimThreads(s, t);
      Gather(DoWait(s, t));
    } else {
      KeepDone(s, t);
    }
  }

  /** A thread that holds nothing may end. */
  lemma KeepDone(s: State, t: nat)
    requires Inv(s) && t < |s.threads| && (s.threads[t].pc.Waiting? || s.threads[t].pc.Record?)
    ensures Inv(PutThread(s, t, s.threads[t].(pc := Done)))
  {
    ThreadOf(s, t);
    hide Inv;
    ThreadUpdate(s, t, s.threads[t].(pc := Done));
  }

  lemma KeepRecord(s: State, t: nat)
    requires Inv(s) && t < |s.threads| && s.threads[t].pc.Record? && s.threads[t].died < |s.heap|
    ensures Inv(DoRecord(s, t))
  {
    ThreadOf(s, t);
    hide Inv;
    var th := s.threads[t];
    ThreadUpdate(s, t, th.(pc := if s.heap[th.died].r.generation == th.gen then Waiting else Done));
  }

  lemma KeepWire(s: State, t: nat, i: nat)
    requires Inv(s) && t < |s.threads| && s.threads[t].pc.Wiring?
    ensures Inv(DoWire(s, t, i))
  {
    ThreadOf(s, t);
    hide Inv;
    if i < |s.slots| { ThreadUpdate(s, t, s.threads[t].(pc := NetWait, slot := i)); }
  }

  // ---- the environment --------------------------------------------------------

  /** A guest of incarnation r dies, or its exit is reported. */
  predicate EnvStep(s: State, r: nat, x': Sandbox) {
    && r < |s.heap|
    && var x := Box(s, r);
      && x'.r == x.r && x'.f == x.f && x'.h.holder == x.h.holder && x'.h.net == x.h.net
      && Evolves(x, x') && SandboxInv(x')
      && (Rest(x) ==> Rest(x')) && (Quiet(x) ==> Quiet(x'))
      && (x.h.holder.Some? && x.h.holder.value < |s.threads| ==> Local(s.threads[x.h.holder.value], x'))
  }

  function PutHost(s: State, r: nat, x: Sandbox): State
    requires r < |s.heap|
  {
    PutEntry(s, r, Entry(x.r, x.h))
  }

  lemma EnvThread(s: State, r: nat, x': Sandbox, u: nat)
    requires Inv(s) && EnvStep(s, r, x') && u < |s.threads|
    ensures ThreadInv(PutHost(s, r, x'), u)
  {
    assert ThreadInv(s, u);
    hide Inv, Rest, Quiet, SandboxInv, Local, Doomed;
  }

  lemma EnvHeap(s: State, r: nat, x': Sandbox, q: nat)
    requires Inv(s) && EnvStep(s, r, x') && q < |s.heap|
    ensures HeapInv(PutHost(s, r, x'), q)
  {
    assert HeapInv(s, q);
    hide Inv, Rest, Quiet, SandboxInv, Local, Doomed, Holds, Whole, Fitting;
  }

  lemma EnvUpdate(s: State, r: nat, x': Sandbox)
    requires Inv(s) && EnvStep(s, r, x')
    ensures Inv(PutHost(s, r, x'))
  {
    var s' := PutHost(s, r, x');
    hide Rest, Quiet, SandboxInv, Local, Doomed;
    forall id | id in s.sandboxes ensures EntryInv(s', id) {
      assert EntryInv(s, id);
      hide Inv, Holds;
    }
    forall i | 0 <= i < |s.slots| ensures SlotInv(s', i) {
      assert SlotInv(s, i);
      hide Inv, Holds;
    }
    forall q | 0 <= q < |s.heap| ensures HeapInv(s', q) {
      hide HeapInv;
      EnvHeap(s, r, x', q);
    }
    forall u | 0 <= u < |s.threads| ensures ThreadInv(s', u) {
      hide ThreadInv;
      EnvThread(s, r, x', u);
    }
  }

  // ---- a guest writes ---------------------------------------------------------

  function Written(x: Sandbox): Sandbox {
    x.(f := Wrote(x.f))
  }

  /** A write costs nothing that is relied on: where something executes on it, no one
      counts on the rootfs standing still. */
  lemma WriteKeeps(th: Thread, x: Sandbox)
    requires SandboxInv(x) && (x.f.stray || !NoExec(x.h.guests))
    ensures Local(th, x) ==> Local(th, Written(x))
    ensures FilesOk(x) ==> FilesOk(Written(x))
  {
    hide GuestsInv;
    LastQuiet(x.h.guests);
    Sturdy(th, x, Wrote(x.f));
    assert NoExec([]);
    hide NoExec, OnlyLast, Rest, Bare, Starting, Tearable, Tearing, StopHeld, Unbooted;
  }

  /** The tracked state of the writer's id knows that something executes. */
  lemma WriterIsKnown(s: State, r: nat, q: nat)
    requires Inv(s) && r < |s.heap| && q < |s.heap| && !NoExec(s.heap[r].h.guests)
    requires s.heap[q].r.id == s.heap[r].r.id && Tracked(s, q)
    ensures Box(s, q).f.stray || !NoExec(s.heap[q].h.guests)
  {
    assert HeapInv(s, r) && HeapInv(s, q);
    hide Inv, SandboxInv, NoExec, FilesOk, Holds;
  }

  lemma WriteBox(s: State, r: nat, q: nat)
    requires Possible(s, Write(r)) && q < |s.heap|
    ensures Box(Apply(s, Write(r)), q) == if s.heap[q].r.id == s.heap[r].r.id then Written(Box(s, q)) else Box(s, q)
  {
  }

  lemma WriteHeap(s: State, r: nat, q: nat)
    requires Inv(s) && Possible(s, Write(r)) && q < |s.heap|
    ensures HeapInv(Apply(s, Write(r)), q)
  {
    assert HeapInv(s, q);
    WriteBox(s, r, q);
    var x := Box(s, q);
    if s.heap[q].r.id == s.heap[r].r.id {
      SandboxShared(x, Wrote(x.f));
      if Tracked(s, q) {
        WriterIsKnown(s, r, q);
        WriteKeeps(NewThread(Stop, "", false, Done), x);
      }
    }
    hide Inv, SandboxInv, Quiet, Holds, Possible;
  }

  lemma WriteThread(s: State, r: nat, u: nat)
    requires Inv(s) && Possible(s, Write(r)) && u < |s.threads|
    ensures ThreadInv(Apply(s, Write(r)), u)
  {
    assert ThreadInv(s, u);
    var th := s.threads[u];
    if Holds(th) || th.pc.LateUntrack? {
      assert HeapInv(s, th.ref);
      WriteBox(s, r, th.ref);
      var x := Box(s, th.ref);
      if x.r.id == s.heap[r].r.id {
        SandboxShared(x, Wrote(x.f));
        if Holds(th) && Tracked(s, th.ref) {
          WriterIsKnown(s, r, th.ref);
          WriteKeeps(th, x);
        } else if Holds(th) {
          HeldApart(s, th.ref);
          LocalApart(th, x, Wrote(x.f));
        }
      }
    }
    hide Inv, Local, SandboxInv, Doomed, Possible;
  }

  lemma KeepWrite(s: State, r: nat)
    requires Inv(s) && Possible(s, Write(r))
    ensures Inv(Apply(s, Write(r)))
  {
    var s' := Apply(s, Write(r));
    forall id | id in s.sandboxes ensures EntryInv(s', id) {
      EntryOfId(s, id);
      WriteBox(s, r, s.sandboxes[id]);
      SandboxShared(Box(s, s.sandboxes[id]), Wrote(Box(s, s.sandboxes[id]).f));
      hide Inv, SandboxInv, Rest, Quiet, FilesOk, Holds, Possible;
    }
    forall i | 0 <= i < |s.slots| ensures SlotInv(s', i) {
      assert SlotInv(s, i);
      hide Inv, Possible;
    }
    hide EntryInv, SlotInv, HeapInv, ThreadInv;
    forall q | 0 <= q < |s.heap| ensures HeapInv(s', q) { WriteHeap(s, r, q); }
    forall u | 0 <= u < |s.threads| ensures ThreadInv(s', u) { WriteThread(s, r, u); }
  }

  // ---- a guest dies -------------------------------------------------------------

  function Died(x: Sandbox, pid: nat): Sandbox
    requires pid < |x.h.guests|
  {
    x.(h := x.h.(guests := WithStatus(x.h.guests, pid, Dead)))
  }

  lemma CrashGuests(x: Sandbox, pid: nat)
    requires SandboxInv(x) && pid < |x.h.guests|
    ensures Evolves(x, Died(x, pid)) && SandboxInv(Died(x, pid))
    ensures Rest(x) ==> Rest(Died(x, pid))
    ensures Quiet(x) ==> Quiet(Died(x, pid))
    ensures Pin(x) ==> Pin(Died(x, pid))
    ensures AllTorn(x) ==> AllTorn(Died(x, pid))
  {
    StatusKeeps(x.h.guests, x.r.generation, pid, Dead);
  }

  lemma CrashKeeps(th: Thread, x: Sandbox, pid: nat)
    requires SandboxInv(x) && pid < |x.h.guests| && Local(th, x)
    ensures Local(th, Died(x, pid))
  {
    CrashGuests(x, pid);
    hide GuestsInv, NoExec, OnlyLast, SandboxInv, Quiet, Pin, Rest;
  }

  lemma SandboxOf(s: State, r: nat)
    requires Inv(s) && r < |s.heap|
    ensures SandboxInv(Box(s, r))
  {
    hide EntryInv, SlotInv, ThreadInv, SandboxInv;
    assert HeapInv(s, r);
  }

  lemma HolderLocal(s: State, r: nat)
    requires Inv(s) && r < |s.heap|
    ensures s.heap[r].h.holder.Some? && s.heap[r].h.holder.value < |s.threads| ==>
      Local(s.threads[s.heap[r].h.holder.value], Box(s, r))
  {
    hide SandboxInv, Rest, Local, Doomed, Holds, EntryInv, SlotInv;
    assert HeapInv(s, r);
    if s.heap[r].h.holder.Some? { assert ThreadInv(s, s.heap[r].h.holder.value); }
  }

  lemma KeepCrash(s: State, r: nat, pid: nat)
    requires Inv(s) && Possible(s, Crash(r, pid))
    ensures Inv(Apply(s, Crash(r, pid)))
  {
    hide Inv, SandboxInv, FilesOk, Rest, Quiet, Local, HeapInv, EntryInv, SlotInv;
    var x := Box(s, r);
    SandboxOf(s, r);
    HolderLocal(s, r);
    CrashGuests(x, pid);
    if x.h.holder.Some? && x.h.holder.value < |s.threads| { CrashKeeps(s.threads[x.h.holder.value], x, pid); }
    EnvUpdate(s, r, Died(x, pid));
  }

  function Reported(x: Sandbox, pid: nat): Sandbox
    requires pid < |x.h.guests|
  {
    x.(h := x.h.(guests := x.h.guests[pid := x.h.guests[pid].(reported := true)]))
  }

  lemma ReportGuests(x: Sandbox, pid: nat)
    requires SandboxInv(x) && pid < |x.h.guests| && x.h.guests[pid].status.Dead?
    ensures Evolves(x, Reported(x, pid)) && SandboxInv(Reported(x, pid))
    ensures Rest(x) ==> Rest(Reported(x, pid))
    ensures Quiet(x) ==> Quiet(Reported(x, pid))
    ensures Pin(x) ==> Pin(Reported(x, pid))
    ensures AllTorn(x) ==> AllTorn(Reported(x, pid))
  {
  }

  lemma ReportKeeps(th: Thread, x: Sandbox, pid: nat)
    requires SandboxInv(x) && pid < |x.h.guests| && x.h.guests[pid].status.Dead? && Local(th, x)
    ensures Local(th, Reported(x, pid))
  {
    ReportGuests(x, pid);
    hide GuestsInv, NoExec, OnlyLast, SandboxInv, Quiet, Pin, Rest;
  }

  lemma KeepExit(s: State, r: nat, pid: nat)
    requires Inv(s) && Possible(s, Exit(r, pid))
    ensures Inv(Apply(s, Exit(r, pid)))
  {
    hide Inv, SandboxInv, FilesOk, Rest, Quiet, Local, HeapInv, EntryInv, SlotInv;
    var x := Box(s, r);
    SandboxOf(s, r);
    HolderLocal(s, r);
    ReportGuests(x, pid);
    if x.h.holder.Some? && x.h.holder.value < |s.threads| { ReportKeeps(s.threads[x.h.holder.value], x, pid); }
    EnvUpdate(s, r, Reported(x, pid));
    hide EnvStep, Evolves, Doomed;
    AddThread(PutHost(s, r, Reported(x, pid)),
              NewThread(Death, x.r.id, false, Record).(died := r, pid := pid, gen := x.h.guests[pid].gen));
  }
}
