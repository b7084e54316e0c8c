/**
 Every step of the Firecracker machine keeps the invariant.  `LocalUpdate` lifts a
 change of one thread and its own sandbox to the whole state, so that the steps that
 touch nothing else are proved on those two alone.
 */
module FirecrackerPreserve {
  import opened FirecrackerModel
  import opened FirecrackerMachine
  import opened FirecrackerInvariant

  /** Nothing another thread relies on is lost: identity, started microVMs, deaths. */
  predicate Evolves(x: Sandbox, x': Sandbox) {
    && x'.r.id == x.r.id && x'.r.blockEgress == x.r.blockEgress
    && |x.h.guests| <= |x'.h.guests|
    && (forall i :: 0 <= i < |x.h.guests| ==>
          && x'.h.guests[i].gen == x.h.guests[i].gen
          && (x.h.guests[i].status.Dead? ==> x'.h.guests[i].status.Dead?))
    && (Doomed(x) ==> Doomed(x'))
    && Ages(x.f, x'.f)
  }

  /** What is remembered of the files' past is not forgotten. */
  predicate Ages(f: Files, f': Files) {
    (f.stray ==> f'.stray) && (f.late ==> f'.late)
  }

  /** All a thread does to the files of an id whose tracked state is another: it takes
      away, and that is recorded. */
  predicate Erodes(f: Files, f': Files) {
    && Ages(f, f')
    && (f'.disk == f.disk || f'.disk.Missing?)
    && (f'.snap == f.snap || f'.snap.Missing?)
    && (f'.jail ==> f.jail)
    && (f'.writes == f.writes || (f'.writes == 0 && f'.disk.Missing? && f'.snap.Missing?))
    && f'.lost == (f.lost || Less(f, f'))
  }

  /** The new thread and sandbox fit together after a step of the claim's holder. */
  predicate Settles(t: nat, th': Thread, x': Sandbox, tracked: bool) {
    if Holds(th') then
      && x'.h.holder == Some(t) && Local(th', x')
      && (tracked ==> !x'.r.transition.Unclaimed?)
      && (!x'.f.late || x'.r.running || x'.r.stopped || x'.r.transition.Creating? ==> tracked)
    else
      && x'.h.holder == None
      && (tracked ==> x'.r.transition.Unclaimed? && Rest(x'))
      && (th'.pc.LateUntrack? ==> Doomed(x'))
  }

  /** A step from (th, x) to (th', x') that touches nothing else, among n slots. */
  predicate Change(t: nat, th: Thread, x: Sandbox, th': Thread, x': Sandbox, tracked: bool, n: nat) {
    && Evolves(x, x')
    && SandboxInv(x') && (if tracked then FilesOk(x') else Quiet(x') && Erodes(x.f, x'.f))
    && x'.r.slot == x.r.slot
    && (x'.h.net == x.h.net || (x.h.net.NetReady? && x'.h.net.NetLeaving?))
    && th'.ref == th.ref && th'.op == th.op && th'.died == th.died && th'.id == th.id
    && (th.op.Death? ==> th'.gen == th.gen && th'.pid == th.pid)
    && !HoldsNet(th') && (NetPc(th') ==> 0 <= th'.slot < n)
    && (th'.pc.Reserve? ==> th'.op.Wake?)
    && !th'.pc.Waiting? && !th'.pc.Record? && !th'.pc.Wiring? && !th'.op.Wire?
    && Settles(t, th', x', tracked)
  }

  predicate LocalChange(s: State, t: nat, th': Thread, x': Sandbox)
    requires t < |s.threads| && s.threads[t].ref < |s.heap|
  {
    Change(t, s.threads[t], Box(s, s.threads[t].ref), th', x', Tracked(s, s.threads[t].ref), |s.slots|)
  }

  // ---- the files of one id, changed under another incarnation of it --------------

  /** What holds of an incarnation on its own survives what others do to its files, as
      long as nothing of the past is forgotten. */
  lemma SandboxShared(x: Sandbox, f: Files)
    requires SandboxInv(x) && Ages(x.f, f)
    ensures SandboxInv(x.(f := f))
    ensures Quiet(x) ==> Quiet(x.(f := f))
    ensures Rest(x) ==> Rest(x.(f := f))
    ensures Doomed(x) ==> Doomed(x.(f := f))
  {
    hide GuestsInv, NoExec, OnlyLast;
  }

  /** Most of what is known of an incarnation has nothing to do with its files. */
  lemma Sturdy(th: Thread, x: Sandbox, f: Files)
    requires Ages(x.f, f)
    ensures Quiet(x) ==> Quiet(x.(f := f))
    ensures Rest(x) ==> Rest(x.(f := f))
    ensures Bare(x) ==> Bare(x.(f := f))
    ensures Starting(th.op, x) ==> Starting(th.op, x.(f := f))
    ensures Tearable(th, x) ==> Tearable(th, x.(f := f))
    ensures Tearing(th.op, th.slot, x) ==> Tearing(th.op, th.slot, x.(f := f))
    ensures StopHeld(th.op, x) ==> StopHeld(th.op, x.(f := f))
    ensures Unbooted(x) ==> Unbooted(x.(f := f))
  {
    hide NoExec;
  }

  lemma FileFactsEroded(x: Sandbox, f: Files)
    requires Erodes(x.f, f)
    ensures Whole(x.f) ==> Whole(f)
    ensures Fitting(x.f) ==> Fitting(f)
    ensures Present(x.f) ==> Present(f)
    ensures Pin(x) ==> Pin(x.(f := f))
  {
    hide NoExec;
  }

  /** A claim holder that works on a state no longer tracked relies on none of its files. */
  lemma LocalApart(th: Thread, x: Sandbox, f: Files)
    requires Local(th, x) && Ages(x.f, f) && !x.r.running && !x.r.stopped && !x.r.transition.Creating?
    ensures Local(th, x.(f := f))
  {
    Sturdy(th, x, f);
    hide Quiet, Rest, Bare, Tearable, Tearing, StopHeld, Unbooted, Present, Whole, Fitting, Pin;
  }

  lemma FilesEroded(x: Sandbox, f: Files)
    requires FilesOk(x) && Erodes(x.f, f)
    ensures FilesOk(x.(f := f))
  {
  }

  /** One that works on the tracked state knows what it relies on whatever is taken away. */
  lemma LocalEroded(th: Thread, x: Sandbox, f: Files)
    requires Local(th, x) && Erodes(x.f, f)
    ensures Local(th, x.(f := f))
  {
    Sturdy(th, x, f);
    FileFactsEroded(x, f);
    hide Quiet, Rest, Bare, Starting, Tearable, Tearing, StopHeld, Unbooted, Present, Whole, Fitting, Pin;
  }

  /** What a step on one incarnation is to another one. */
  lemma BoxAfter(s: State, t: nat, th': Thread, x': Sandbox, q: nat)
    requires t < |s.threads| && s.threads[t].ref < |s.heap| && q < |s.heap|
    requires x'.r.id == s.heap[s.threads[t].ref].r.id
    ensures Box(PutLocal(s, t, th', x'), q) ==
      if q == s.threads[t].ref then x'
      else if s.heap[q].r.id == x'.r.id then Box(s, q).(f := x'.f)
      else Box(s, q)
  {
  }

  lemma HeapHasInv(s: State, q: nat)
    requires q < |s.heap| && HeapInv(s, q)
    ensures SandboxInv(Box(s, q))
  {
  }

  /** A state that is held and not tracked is what a failed create left. */
  lemma HeldApart(s: State, q: nat)
    requires q < |s.heap| && HeapInv(s, q) && s.heap[q].h.holder.Some? && !Tracked(s, q)
    ensures !s.heap[q].r.running && !s.heap[q].r.stopped && !s.heap[q].r.transition.Creating?
  {
    hide SandboxInv, FilesOk, Quiet, Holds;
  }

  lemma LocalEntries(s: State, t: nat, th': Thread, x': Sandbox, id: Id)
    requires Inv(s) && t < |s.threads|
    requires Holds(s.threads[t]) && !HoldsNet(s.threads[t])
    requires s.threads[t].ref < |s.heap|
    requires LocalChange(s, t, th', x')
    requires id in s.sandboxes
    ensures EntryInv(PutLocal(s, t, th', x'), id)
  {
    hide Local, SandboxInv, FilesOk, Quiet, Rest, Doomed, Holds, SlotInv, HeapInv;
    assert EntryInv(s, id);
    var q := s.sandboxes[id];
    BoxAfter(s, t, th', x', q);
    if q != s.threads[t].ref && s.heap[q].r.id == x'.r.id {
      assert SandboxInv(Box(s, q)) by { assert HeapInv(s, q); HeapHasInv(s, q); }
      SandboxShared(Box(s, q), x'.f);
    }
  }

  lemma LocalSlots(s: State, t: nat, th': Thread, x': Sandbox, i: nat)
    requires Inv(s) && t < |s.threads|
    requires Holds(s.threads[t]) && !HoldsNet(s.threads[t])
    requires s.threads[t].ref < |s.heap|
    requires LocalChange(s, t, th', x')
    requires i < |s.slots|
    ensures SlotInv(PutLocal(s, t, th', x'), i)
  {
    hide Local, SandboxInv, FilesOk, Rest, Doomed, Holds, Settles, EntryInv, HeapInv, ThreadInv;
    assert SlotInv(s, i);
  }

  /** The step's own sandbox. */
  lemma LocalHeapHere(s: State, t: nat, th': Thread, x': Sandbox)
    requires Inv(s) && t < |s.threads|
    requires Holds(s.threads[t]) && !HoldsNet(s.threads[t])
    requires s.threads[t].ref < |s.heap|
    requires LocalChange(s, t, th', x')
    ensures HeapInv(PutLocal(s, t, th', x'), s.threads[t].ref)
  {
    hide Local, SandboxInv, FilesOk, Quiet, Rest, Doomed, Holds, EntryInv, SlotInv;
    assert ThreadInv(s, t) && HeapInv(s, s.threads[t].ref);
    BoxAfter(s, t, th', x', s.threads[t].ref);
  }

  /** Any other incarnation. */
  lemma LocalHeap(s: State, t: nat, th': Thread, x': Sandbox, q: nat)
    requires Inv(s) && t < |s.threads|
    requires Holds(s.threads[t]) && !HoldsNet(s.threads[t])
    requires s.threads[t].ref < |s.heap|
    requires LocalChange(s, t, th', x')
    requires q < |s.heap| && q != s.threads[t].ref
    ensures HeapInv(PutLocal(s, t, th', x'), q)
  {
    hide Local, SandboxInv, Quiet, Rest, Doomed, Holds, EntryInv, SlotInv, Settles, Pin;
    assert ThreadInv(s, t) && HeapInv(s, s.threads[t].ref) && HeapInv(s, q);
    BoxAfter(s, t, th', x', q);
    if s.heap[q].r.id == x'.r.id {
      SandboxShared(Box(s, q), x'.f);
      if Tracked(s, q) { FilesEroded(Box(s, q), x'.f); }
    }
  }

  lemma LocalClaims(s: State, t: nat, th': Thread, x': Sandbox, u: nat)
    requires Inv(s) && t < |s.threads| && u < |s.threads|
    requires Holds(s.threads[t]) && !HoldsNet(s.threads[t])
    requires s.threads[t].ref < |s.heap|
    requires LocalChange(s, t, th', x')
    ensures ClaimInv(PutLocal(s, t, th', x'), u)
  {
    hide Local, SandboxInv, FilesOk, Quiet, Rest, Doomed, EntryInv, SlotInv, NetInv, DeathInv, HeapInv;
    assert ThreadInv(s, t) && ThreadInv(s, u);
    var r, q := s.threads[t].ref, s.threads[u].ref;
    if u != t && (Holds(s.threads[u]) || s.threads[u].pc.LateUntrack?) {
      BoxAfter(s, t, th', x', q);
      if q != r && s.heap[q].r.id == x'.r.id {
        assert HeapInv(s, r) && HeapInv(s, q);
        HeapHasInv(s, q);
        SandboxShared(Box(s, q), x'.f);
        if Holds(s.threads[u]) {
          if Tracked(s, q) { LocalEroded(s.threads[u], Box(s, q), x'.f); }
          else { LocalApart(s.threads[u], Box(s, q), x'.f) by { HeldApart(s, q); } }
        }
      }
    }
  }

  lemma LocalThreads(s: State, t: nat, th': Thread, x': Sandbox, u: nat)
    requires Inv(s) && t < |s.threads| && u < |s.threads|
    requires Holds(s.threads[t]) && !HoldsNet(s.threads[t])
    requires s.threads[t].ref < |s.heap|
    requires LocalChange(s, t, th', x')
    ensures ThreadInv(PutLocal(s, t, th', x'), u)
  {
    hide Local, SandboxInv, FilesOk, Quiet, Rest, Doomed, EntryInv, SlotInv, HeapInv;
    assert ThreadInv(s, t) && ThreadInv(s, u);
    var s' := PutLocal(s, t, th', x');
    LocalClaims(s, t, th', x', u);
    assert NetInv(s', u) by { hide ClaimInv, DeathInv; }
    assert DeathInv(s', u) by { hide ClaimInv, NetInv; }
  }

  lemma LocalUpdate(s: State, t: nat, th': Thread, x': Sandbox)
    requires Inv(s) && t < |s.threads|
    requires Holds(s.threads[t]) && !HoldsNet(s.threads[t])
    requires s.threads[t].ref < |s.heap|
    requires LocalChange(s, t, th', x')
    ensures Inv(PutLocal(s, t, th', x'))
  {
    hide LocalChange, EntryInv, SlotInv, HeapInv, ThreadInv;
    forall id | id in s.sandboxes { LocalEntries(s, t, th', x', id); }
    forall i | 0 <= i < |s.slots| { LocalSlots(s, t, th', x', i); }
    LocalHeapHere(s, t, th', x');
    forall q | 0 <= q < |s.heap| && q != s.threads[t].ref { LocalHeap(s, t, th', x', q); }
    forall u | 0 <= u < |s.threads| { LocalThreads(s, t, th', x', u); }
  }

  // ---- the steps of DoLocal ------------------------------------------------

  /** A thread, the sandbox it holds, whether that is the tracked one, and the slots. */
  datatype Here = Here(t: nat, th: Thread, x: Sandbox, tracked: bool, n: nat)

  /** What the invariant says about them. */
  predicate Held(v: Here) {
    && Holds(v.th) && !HoldsNet(v.th) && ShapeInv(v.th)
    && v.x.h.holder == Some(v.t) && Local(v.th, v.x) && SandboxInv(v.x) && v.x.r.slot < v.n
    && (v.tracked ==> !v.x.r.transition.Unclaimed?)
    && (!v.x.f.late || v.x.r.running || v.x.r.stopped || v.x.r.transition.Creating? || !v.x.h.net.NoNet? ==> v.tracked)
    && (if v.tracked then FilesOk(v.x) else Quiet(v.x))
    && (v.th.op.Death? && v.th.ref == v.th.died ==> v.th.pid < |v.x.h.guests| && v.x.h.guests[v.th.pid].gen == v.th.gen)
  }

  predicate Goes(v: Here, res: (Thread, Sandbox)) {
    Change(v.t, v.th, v.x, res.0, res.1, v.tracked, v.n)
  }

  /** Only the last microVM can carry the current generation. */
  lemma CurrentIsLast(g: seq<Guest>, generation: nat, pid: nat)
    requires GuestsInv(g, generation) && pid < |g| && g[pid].gen == generation
    ensures pid == |g| - 1
  {
    assert g[|g| - 1].gen <= generation;
  }

  /** Changing the status of the last microVM, or of any to a non-executing one. */
  lemma StatusKeeps(g: seq<Guest>, generation: nat, i: nat, st: Status)
    requires GuestsInv(g, generation) && i < |g| && (g[i].status.Dead? ==> st == Dead)
    ensures GuestsInv(WithStatus(g, i, st), generation)
    ensures OnlyLast(g) && i == |g| - 1 ==> OnlyLast(WithStatus(g, i, st))
    ensures OnlyLast(g) && i == |g| - 1 && st != Executing ==> NoExec(WithStatus(g, i, st))
    ensures NoExec(g) && st != Executing ==> NoExec(WithStatus(g, i, st))
  {
  }

  lemma TornKeeps(g: seq<Guest>, generation: nat)
    requires GuestsInv(g, generation)
    ensures GuestsInv(MarkTorn(g, generation), generation + 1)
    ensures OnlyLast(g) ==> OnlyLast(MarkTorn(g, generation))
    ensures NoExec(g) ==> NoExec(MarkTorn(g, generation))
  {
  }

  lemma LastQuiet(g: seq<Guest>)
    ensures OnlyLast(g) && |g| > 0 && !g[|g| - 1].status.Executing? ==> NoExec(g)
  {
  }

  lemma EvolvesSame(x: Sandbox)
    ensures Evolves(x, x)
  {
    hide Doomed;
  }

  lemma BegunRests(th: Thread, x: Sandbox)
    requires th.pc.Begun? && Local(th, x)
    ensures Rest(x) && !th.op.Create? && !th.op.Wire? && x.r.transition == Want(th.op)
  {
    hide Rest;
  }

  /** What an operation that has something to do relies on. */
  lemma RestingLocal(th: Thread, x: Sandbox)
    requires Rest(x) && x.r.transition == Want(th.op)
    requires match th.op
             case Delete => th.pc.Mark?
             case Stop => th.pc.DiskCheck? && x.r.running
             case Wake => th.pc.Reserve? && x.r.stopped
             case Death =>
               th.pc.Teardown? && th.ref == th.died && x.r.generation == th.gen
               && 0 < |x.h.guests| && Last(x).gen == x.r.generation
             case _ => false
    ensures Local(th, x)
  {
    hide NoExec;
  }

  /** The first section after a claim finds the sandbox as no operation left it. */
  lemma BegunLocal(v: Here)
    requires Held(v) && v.th.pc.Begun?
    ensures Local(AfterClaim(v.th, v.x), v.x)
  {
    hide Local, Rest, GuestsInv;
    BegunRests(v.th, v.x);
    var th' := AfterClaim(v.th, v.x);
    if th'.pc.End? {
      EndLocal(th', v.x);
    } else {
      if th'.pc.Teardown? { CurrentIsLast(v.x.h.guests, v.x.r.generation, v.th.pid); }
      RestingLocal(th', v.x);
    }
  }

  lemma AtBegun(v: Here)
    requires Held(v) && v.th.pc.Begun?
    ensures Goes(v, (AfterClaim(v.th, v.x), v.x))
  {
    hide Match, Fitting, Whole, Present, BootSafe;
    BegunLocal(v);
    EvolvesSame(v.x);
    assert !v.th.op.Create? && !v.th.op.Wire?;
    hide Local, SandboxInv, Rest, Evolves;
  }

  lemma CloneRootfsLocal(v: Here, o: Outcome)
    requires Held(v) && v.th.pc.CloneRootfs?
    ensures var res := DoBuild(v.th, v.x, o, v.tracked); Local(res.0, res.1)
  {
    hide Rest, Tearing, Started, StopHeld;
    hide GuestsInv, NoExec, OnlyLast;
  }

  lemma AtCloneRootfs(v: Here, o: Outcome)
    requires Held(v) && v.th.pc.CloneRootfs?
    ensures Goes(v, DoBuild(v.th, v.x, o, v.tracked))
  {
    hide Rest, Tearing, Started, StopHeld;
    hide GuestsInv, NoExec, OnlyLast;
    var res := DoBuild(v.th, v.x, o, v.tracked);
    CloneRootfsLocal(v, o);
    assert Evolves(v.x, res.1);
    assert SandboxInv(res.1);
    hide Local, SandboxInv, Evolves;
    assert Settles(v.t, res.0, res.1, v.tracked);
  }

  lemma CloneSnapshotLocal(v: Here, o: Outcome)
    requires Held(v) && v.th.pc.CloneSnapshot?
    ensures var res := DoBuild(v.th, v.x, o, v.tracked); Local(res.0, res.1)
  {
    hide Rest, Tearing, Started, StopHeld;
    hide GuestsInv, NoExec, OnlyLast;
  }

  lemma AtCloneSnapshot(v: Here, o: Outcome)
    requires Held(v) && v.th.pc.CloneSnapshot?
    ensures Goes(v, DoBuild(v.th, v.x, o, v.tracked))
  {
    hide Rest, Tearing, Started, StopHeld;
    hide GuestsInv, NoExec, OnlyLast;
    var res := DoBuild(v.th, v.x, o, v.tracked);
    CloneSnapshotLocal(v, o);
    assert Evolves(v.x, res.1);
    assert SandboxInv(res.1);
    hide Local, SandboxInv, Evolves;
    assert Settles(v.t, res.0, res.1, v.tracked);
  }

  /** An activation given up before its microVM was started can be torn down as it stands. */
  lemma GivenUp(th: Thread, x: Sandbox, op: Op)
    requires th.op == op && Starting(op, x) && (if op.Create? then th.pc.Mark? else th.pc.Teardown?)
    ensures Local(th, x)
  {
    hide AllTorn, Quiet;
  }

  lemma PrepareJailLocal(v: Here, o: Outcome)
    requires Held(v) && v.th.pc.PrepareJail?
    ensures var res := DoBuild(v.th, v.x, o, v.tracked); Local(res.0, res.1)
  {
    hide Rest, Tearing, Started, StopHeld, Bare, BootSafe, Unbooted, AllTorn, Quiet, Less, FilesOk, SandboxInv;
    var res := DoBuild(v.th, v.x, o, v.tracked);
    Sturdy(v.th, v.x, res.1.f);
    assert PreStart(v.th.op, v.x) && v.x.h.net.NoNet?;
    hide Held;
    if res.0.pc.NetWait? { hide Tearable, Starting; } else { GivenUp(res.0, res.1, v.th.op); }
  }

  lemma AtPrepareJail(v: Here, o: Outcome)
    requires Held(v) && v.th.pc.PrepareJail?
    ensures Goes(v, DoBuild(v.th, v.x, o, v.tracked))
  {
    hide Rest, Tearing, Started, StopHeld;
    hide GuestsInv, NoExec, OnlyLast;
    var res := DoBuild(v.th, v.x, o, v.tracked);
    PrepareJailLocal(v, o);
    assert Evolves(v.x, res.1);
    assert SandboxInv(res.1);
    hide Local, SandboxInv, Evolves;
    assert Settles(v.t, res.0, res.1, v.tracked);
  }

  lemma AtCapture(v: Here, o: Outcome)
    requires Held(v) && v.th.pc.Capture?
    ensures Goes(v, DoBuild(v.th, v.x, o, v.tracked))
  {
    hide GuestsInv, NoExec, OnlyLast;
    var res := DoBuild(v.th, v.x, o, v.tracked);
    assert Evolves(v.x, res.1);
    assert SandboxInv(res.1);
    assert Settles(v.t, res.0, res.1, v.tracked);
  }

  lemma StartJailerLocal(v: Here, o: Outcome)
    requires Held(v) && v.th.pc.StartJailer?
    ensures var res := DoBuild(v.th, v.x, o, v.tracked); Local(res.0, res.1)
  {
    hide Match, Fitting, Whole, Present, BootSafe;
    hide Rest, Tearing, StopHeld;
  }

  lemma AtStartJailer(v: Here, o: Outcome)
    requires Held(v) && v.th.pc.StartJailer?
    ensures Goes(v, DoBuild(v.th, v.x, o, v.tracked))
  {
    hide Match, Fitting, Whole, Present, BootSafe;
    hide Rest, Tearing, StopHeld;
    var res := DoBuild(v.th, v.x, o, v.tracked);
    StartJailerLocal(v, o);
    assert Evolves(v.x, res.1);
    assert SandboxInv(res.1);
    hide Local, SandboxInv, Evolves;
    assert Settles(v.t, res.0, res.1, v.tracked);
  }

  lemma PublishLocal(v: Here, o: Outcome)
    requires Held(v) && v.th.pc.Publish?
    ensures var res := DoBuild(v.th, v.x, o, v.tracked); Local(res.0, res.1)
  {
    hide Rest, Tearing, StopHeld, PreStart;
    hide GuestsInv, NoExec, OnlyLast;
  }

  lemma AtPublish(v: Here, o: Outcome)
    requires Held(v) && v.th.pc.Publish?
    ensures Goes(v, DoBuild(v.th, v.x, o, v.tracked))
  {
    hide Rest, Tearing, StopHeld, PreStart;
    hide GuestsInv, NoExec, OnlyLast;
    var res := DoBuild(v.th, v.x, o, v.tracked);
    PublishLocal(v, o);
    assert Evolves(v.x, res.1);
    assert SandboxInv(res.1);
    hide Local, SandboxInv, Evolves;
    assert Settles(v.t, res.0, res.1, v.tracked);
  }

  lemma AtWaitSocket(v: Here, o: Outcome)
    requires Held(v) && v.th.pc.WaitSocket?
    ensures Goes(v, DoBuild(v.th, v.x, o, v.tracked))
  {
    hide Rest, Tearing, StopHeld, PreStart;
    hide GuestsInv, NoExec, OnlyLast;
    var res := DoBuild(v.th, v.x, o, v.tracked);
    assert Evolves(v.x, res.1);
    assert SandboxInv(res.1);
    assert Settles(v.t, res.0, res.1, v.tracked);
  }

  lemma AtStartGuest(v: Here, o: Outcome)
    requires Held(v) && v.th.pc.StartGuest?
    ensures Goes(v, DoBoot(v.th, v.x, o, v.tracked))
  {
    hide GuestsInv, NoExec, OnlyLast;
    var res := DoBoot(v.th, v.x, o, v.tracked);
    assert Evolves(v.x, res.1);
    assert SandboxInv(res.1);
    assert Settles(v.t, res.0, res.1, v.tracked);
  }

  lemma BootLocal(v: Here, o: Outcome)
    requires Held(v) && v.th.pc.Boot?
    ensures var res := DoBoot(v.th, v.x, o, v.tracked); Local(res.0, res.1)
  {
    hide Rest, Tearing, StopHeld, PreStart;
  }

  lemma AtBoot(v: Here, o: Outcome)
    requires Held(v) && v.th.pc.Boot?
    ensures Goes(v, DoBoot(v.th, v.x, o, v.tracked))
  {
    hide Rest, Tearing, StopHeld, PreStart;
    var res := DoBoot(v.th, v.x, o, v.tracked);
    BootLocal(v, o);
    assert Evolves(v.x, res.1);
    assert SandboxInv(res.1);
    hide Local, SandboxInv, Evolves;
    assert Settles(v.t, res.0, res.1, v.tracked);
  }

  lemma AtNewProxy(v: Here, o: Outcome)
    requires Held(v) && v.th.pc.NewProxy?
    ensures Goes(v, DoBoot(v.th, v.x, o, v.tracked))
  {
    hide Rest, Tearing, StopHeld, PreStart;
    hide GuestsInv, NoExec, OnlyLast;
    var res := DoBoot(v.th, v.x, o, v.tracked);
    assert Evolves(v.x, res.1);
    assert SandboxInv(res.1);
    assert Settles(v.t, res.0, res.1, v.tracked);
  }

  lemma AtPublishProxy(v: Here, o: Outcome)
    requires Held(v) && v.th.pc.PublishProxy?
    ensures Goes(v, DoBoot(v.th, v.x, o, v.tracked))
  {
    hide Rest, Tearing, StopHeld, PreStart;
    hide GuestsInv, NoExec, OnlyLast;
    var res := DoBoot(v.th, v.x, o, v.tracked);
    assert Evolves(v.x, res.1);
    assert SandboxInv(res.1);
    assert Settles(v.t, res.0, res.1, v.tracked);
  }

  lemma AtProbe(v: Here, o: Outcome)
    requires Held(v) && v.th.pc.Probe?
    ensures Goes(v, DoBoot(v.th, v.x, o, v.tracked))
  {
    hide Rest, Tearing, StopHeld, PreStart;
    hide GuestsInv, NoExec, OnlyLast;
    var res := DoBoot(v.th, v.x, o, v.tracked);
    assert Evolves(v.x, res.1);
    assert SandboxInv(res.1);
    assert Settles(v.t, res.0, res.1, v.tracked);
  }

  /** What an activation that came up leaves. */
  lemma UpRests(v: Here, o: Outcome)
    requires Held(v) && v.th.pc.Up?
    ensures var x' := DoBoot(v.th, v.x, o, v.tracked).1;
      Rest(x') && SandboxInv(x') && FilesOk(x') && !Doomed(v.x)
  {
    hide Match, Fitting, Whole, GuestsInv, NoExec, OnlyLast;
    assert Started(v.th.op, v.x) && v.x.r.mustColdBoot && v.x.r.process.Some?;
    hide Local;
  }

  lemma UpTracked(v: Here)
    requires Held(v) && v.th.pc.Up?
    ensures (v.th.op.Create? || v.th.op.Wake?) && v.tracked && v.x.h.holder == Some(v.t)
    ensures v.th.op.Wake? ==> !v.x.r.transition.Unclaimed?
  {
    hide SandboxInv, FilesOk;
  }

  lemma EndLocal(th: Thread, x: Sandbox)
    requires th.pc.End? && !th.op.Create? && !th.op.Delete? && Rest(x)
    ensures Local(th, x)
  {
    hide Rest;
  }

  lemma UpSettles(v: Here, o: Outcome)
    requires Held(v) && v.th.pc.Up?
    ensures var res := DoBoot(v.th, v.x, o, v.tracked); Settles(v.t, res.0, res.1, v.tracked)
    ensures v.th.op.Create? || v.th.op.Wake?
  {
    hide Rest, SandboxInv, FilesOk, Doomed, Held, Local, Alive, SetLast;
    UpRests(v, o);
    UpTracked(v);
    var res := DoBoot(v.th, v.x, o, v.tracked);
    if v.th.op.Wake? { EndLocal(res.0, res.1); }
  }

  lemma AtUp(v: Here, o: Outcome)
    requires Held(v) && v.th.pc.Up?
    ensures Goes(v, DoBoot(v.th, v.x, o, v.tracked))
  {
    hide Rest, SandboxInv, FilesOk, Doomed, Settles;
    UpRests(v, o);
    UpSettles(v, o);
    assert Evolves(v.x, DoBoot(v.th, v.x, o, v.tracked).1);
    hide Local, Evolves;
  }

  lemma AtDiskCheck(v: Here, o: Outcome)
    requires Held(v) && v.th.pc.DiskCheck?
    ensures Goes(v, DoStop(v.th, v.x, o))
  {
    hide GuestsInv, NoExec, OnlyLast;
    var res := DoStop(v.th, v.x, o);
    assert Evolves(v.x, res.1);
    assert SandboxInv(res.1);
    assert Settles(v.t, res.0, res.1, v.tracked);
  }

  lemma PauseLocal(v: Here, o: Outcome)
    requires Held(v) && v.th.pc.Pause?
    ensures var res := DoStop(v.th, v.x, o); Local(res.0, res.1)
  {
    hide Rest, Tearing, PreStart, Started, Tearable;
  }

  lemma AtPause(v: Here, o: Outcome)
    requires Held(v) && v.th.pc.Pause?
    ensures Goes(v, DoStop(v.th, v.x, o))
  {
    hide Rest, Tearing, PreStart, Started, Tearable;
    var res := DoStop(v.th, v.x, o);
    PauseLocal(v, o);
    assert Evolves(v.x, res.1);
    assert SandboxInv(res.1);
    hide Local, SandboxInv, Evolves;
    assert Settles(v.t, res.0, res.1, v.tracked);
  }

  lemma SnapshotLocal(v: Here, o: Outcome)
    requires Held(v) && v.th.pc.Snapshot?
    ensures var res := DoStop(v.th, v.x, o); Local(res.0, res.1)
  {
    hide Rest, Tearing, PreStart, Started;
    hide GuestsInv, NoExec, OnlyLast;
  }

  lemma AtSnapshot(v: Here, o: Outcome)
    requires Held(v) && v.th.pc.Snapshot?
    ensures Goes(v, DoStop(v.th, v.x, o))
  {
    hide Rest, Tearing, PreStart, Started;
    hide GuestsInv, NoExec, OnlyLast;
    var res := DoStop(v.th, v.x, o);
    SnapshotLocal(v, o);
    assert Evolves(v.x, res.1);
    assert SandboxInv(res.1);
    hide Local, SandboxInv, Evolves;
    assert Settles(v.t, res.0, res.1, v.tracked);
  }

  lemma AtUnpin(v: Here, o: Outcome)
    requires Held(v) && v.th.pc.Unpin?
    ensures Goes(v, DoStop(v.th, v.x, o))
  {
    hide Rest, Tearing, PreStart, Started;
    hide GuestsInv, NoExec, OnlyLast;
    var res := DoStop(v.th, v.x, o);
    assert Evolves(v.x, res.1);
    assert SandboxInv(res.1);
    assert Settles(v.t, res.0, res.1, v.tracked);
  }

  lemma ResumeLocal(v: Here, o: Outcome)
    requires Held(v) && v.th.pc.Resume?
    ensures var res := DoStop(v.th, v.x, o); Local(res.0, res.1)
  {
    hide Tearing, PreStart, Started, GuestsInv, Pin;
  }

  lemma AtResume(v: Here, o: Outcome)
    requires Held(v) && v.th.pc.Resume?
    ensures Goes(v, DoStop(v.th, v.x, o))
  {
    hide Tearing, PreStart, Started, Rest, Pin, BootSafe, Present;
    var res := DoStop(v.th, v.x, o);
    ResumeLocal(v, o);
    assert Evolves(v.x, res.1);
    assert SandboxInv(res.1);
    hide Local, SandboxInv, Evolves;
    assert Settles(v.t, res.0, res.1, v.tracked);
  }

  lemma AtMark(v: Here, o: Outcome)
    requires Held(v) && v.th.pc.Mark?
    ensures Goes(v, DoTeardown(v.th, v.x, o, v.tracked))
  {
    hide Match, Fitting, Whole, Present, BootSafe;
    hide PreStart, Started, StopHeld;
    hide GuestsInv, NoExec, OnlyLast;
    var res := DoTeardown(v.th, v.x, o, v.tracked);
    assert Evolves(v.x, res.1);
    assert SandboxInv(res.1);
    assert Settles(v.t, res.0, res.1, v.tracked);
  }

  /** What taking the handles leaves of the sandbox. */
  lemma TeardownSandbox(v: Here, o: Outcome)
    requires Held(v) && v.th.pc.Teardown?
    ensures var x' := DoTeardown(v.th, v.x, o, v.tracked).1; Evolves(v.x, x') && SandboxInv(x') && AllTorn(x')
  {
    hide PreStart, Started, StopHeld, GuestsInv, NoExec, OnlyLast, Tearing;
    TornKeeps(v.x.h.guests, v.x.r.generation);
  }

  /** Taking the handles of a sandbox a teardown may begin on. */
  lemma TearableTears(th: Thread, x: Sandbox, x': Sandbox)
    requires Tearable(th, x) && (th.op.Create? ==> x.r.transition.Deleting?)
    requires x'.r == TakeHandles(x.r) && AllTorn(x')
    requires x'.h.net == if x.h.net.NetReady? then NetLeaving else x.h.net
    ensures Tearing(th.op, x.r.slot, x')
  {
    hide AllTorn, Quiet;
  }

  lemma CanTearDown(th: Thread, x: Sandbox)
    requires th.pc.Teardown? && Local(th, x)
    ensures Tearable(th, x) && (th.op.Create? ==> x.r.transition.Deleting?)
  {
    hide Tearable;
  }

  lemma KillIsLocal(th: Thread, x: Sandbox)
    requires th.pc.Kill? && Tearing(th.op, th.slot, x) && (th.taken == None ==> Quiet(x))
    requires th.taken.Some? ==> 0 < |x.h.guests| && th.taken.value == |x.h.guests| - 1
    ensures Local(th, x)
  {
    hide Tearing, Quiet;
  }

  lemma TeardownLocal(v: Here, o: Outcome)
    requires Held(v) && v.th.pc.Teardown?
    ensures var res := DoTeardown(v.th, v.x, o, v.tracked); Local(res.0, res.1)
  {
    hide Local, GuestsInv, NoExec, OnlyLast, AllTorn, Evolves, Tearing;
    var res := DoTeardown(v.th, v.x, o, v.tracked);
    TornKeeps(v.x.h.guests, v.x.r.generation);
    TeardownSandbox(v, o);
    CanTearDown(v.th, v.x);
    assert v.x.r.process.Some? ==> v.x.r.process.value == |v.x.h.guests| - 1;
    hide Held, SandboxInv, MarkTorn;
    TearableTears(v.th, v.x, res.1);
    KillIsLocal(res.0, res.1);
  }

  lemma AtTeardown(v: Here, o: Outcome)
    requires Held(v) && v.th.pc.Teardown?
    ensures Goes(v, DoTeardown(v.th, v.x, o, v.tracked))
  {
    TeardownSandbox(v, o);
    TeardownLocal(v, o);
    assert !v.th.op.Wire?;
    hide Local, SandboxInv, Rest, Evolves, MarkTorn, AllTorn;
  }

  lemma KillLocal(v: Here, o: Outcome)
    requires Held(v) && v.th.pc.Kill?
    ensures var res := DoTeardown(v.th, v.x, o, v.tracked); Local(res.0, res.1)
  {
    hide Present, BootSafe, Pin;
    hide Rest, PreStart, Started, StopHeld, Tearable;
    hide GuestsInv, NoExec;
    if v.th.taken.Some? {
      StatusKeeps(v.x.h.guests, v.x.r.generation, |v.x.h.guests| - 1, Dead);
      LastQuiet(v.x.h.guests);
    }
  }

  lemma KilledStays(v: Here)
    requires Held(v) && v.th.pc.Kill?
    ensures !v.th.op.Wire? && (v.th.slot >= 0 ==> v.th.slot < v.n)
  {
    hide SandboxInv, FilesOk, Quiet;
  }

  /** What a kill leaves of the sandbox, whether it works or not. */
  lemma KillKeeps(v: Here, o: Outcome)
    requires Held(v) && v.th.pc.Kill?
    ensures var x' := DoTeardown(v.th, v.x, o, v.tracked).1;
      && Evolves(v.x, x') && SandboxInv(x')
      && (if v.tracked then FilesOk(x') else Quiet(x') && Erodes(v.x.f, x'.f))
  {
    hide Present, BootSafe, Pin, Rest, PreStart, Started, StopHeld, Tearable, GuestsInv, NoExec;
    if v.th.taken.Some? {
      StatusKeeps(v.x.h.guests, v.x.r.generation, |v.x.h.guests| - 1, Dead);
      LastQuiet(v.x.h.guests);
    }
    assert Tearing(v.th.op, v.th.slot, v.x);
    hide Local;
  }

  lemma AtKill(v: Here, o: Outcome)
    requires Held(v) && v.th.pc.Kill?
    ensures Goes(v, DoTeardown(v.th, v.x, o, v.tracked))
  {
    hide Local, Present, BootSafe, Pin, Rest, PreStart, Started, StopHeld, Tearable, GuestsInv, NoExec, Quiet;
    KillLocal(v, o);
    KillKeeps(v, o);
    KilledStays(v);
    hide Tearing, SandboxInv, FilesOk, Fitting, Whole;
    var res := DoTeardown(v.th, v.x, o, v.tracked);
    assert Settles(v.t, res.0, res.1, v.tracked);
  }

  lemma CleanHostLocal(v: Here, o: Outcome)
    requires Held(v) && v.th.pc.CleanHost?
    ensures var res := DoTeardown(v.th, v.x, o, v.tracked); Local(res.0, res.1)
  {
    hide Present, BootSafe, Pin;
    hide Rest, PreStart, Started, StopHeld, Tearable;
    hide GuestsInv, NoExec, OnlyLast;
  }

  lemma AtCleanHost(v: Here, o: Outcome)
    requires Held(v) && v.th.pc.CleanHost?
    ensures Goes(v, DoTeardown(v.th, v.x, o, v.tracked))
  {
    hide Present, BootSafe, Pin;
    hide Rest, PreStart, Started, StopHeld, Tearable;
    hide GuestsInv, NoExec, OnlyLast;
    var res := DoTeardown(v.th, v.x, o, v.tracked);
    CleanHostLocal(v, o);
    assert Evolves(v.x, res.1);
    assert SandboxInv(res.1);
    hide Local, SandboxInv, Evolves;
    assert Settles(v.t, res.0, res.1, v.tracked);
  }

  lemma AtTornDown(v: Here, o: Outcome)
    requires Held(v) && v.th.pc.TornDown?
    ensures Goes(v, DoFinish(v.th, v.x, o, v.tracked))
  {
    hide Rest, PreStart, Started, StopHeld, Tearable;
    hide GuestsInv, NoExec, OnlyLast;
    var res := DoFinish(v.th, v.x, o, v.tracked);
    assert Evolves(v.x, res.1);
    assert SandboxInv(res.1);
    assert Settles(v.t, res.0, res.1, v.tracked);
  }

  lemma RemoveLocal(v: Here, o: Outcome)
    requires Held(v) && v.th.pc.Remove?
    ensures var res := DoFinish(v.th, v.x, o, v.tracked); Local(res.0, res.1)
  {
    Sturdy(v.th, v.x, DoFinish(v.th, v.x, o, v.tracked).1.f);
    hide Present, BootSafe, Pin, Fitting, Whole, Less;
    hide Rest, PreStart, Started, StopHeld, Tearable, Tearing, Bare, Quiet;
  }

  lemma AtRemove(v: Here, o: Outcome)
    requires Held(v) && v.th.pc.Remove?
    ensures Goes(v, DoFinish(v.th, v.x, o, v.tracked))
  {
    hide Present, BootSafe, Pin;
    hide Rest, PreStart, Started, StopHeld, Tearable;
    hide GuestsInv, NoExec, OnlyLast;
    var res := DoFinish(v.th, v.x, o, v.tracked);
    RemoveLocal(v, o);
    assert Evolves(v.x, res.1);
    assert SandboxInv(res.1);
    hide Local, SandboxInv, Evolves;
    assert Settles(v.t, res.0, res.1, v.tracked);
  }

  lemma AtFailDelete(v: Here, o: Outcome)
    requires Held(v) && v.th.pc.FailDelete?
    ensures Goes(v, DoFinish(v.th, v.x, o, v.tracked))
  {
    hide Match, Fitting, Whole, Present, BootSafe;
    hide PreStart, Started, StopHeld, Tearable;
    hide GuestsInv, NoExec, OnlyLast;
    var res := DoFinish(v.th, v.x, o, v.tracked);
    assert Evolves(v.x, res.1);
    assert SandboxInv(res.1);
    assert Settles(v.t, res.0, res.1, v.tracked);
  }

  lemma AtEnd(v: Here, o: Outcome)
    requires Held(v) && v.th.pc.End?
    ensures Goes(v, DoFinish(v.th, v.x, o, v.tracked))
  {
    hide Tearing, PreStart, Started, StopHeld, Tearable;
    hide GuestsInv, NoExec, OnlyLast;
    var res := DoFinish(v.th, v.x, o, v.tracked);
    assert Evolves(v.x, res.1);
    assert SandboxInv(res.1);
    assert Settles(v.t, res.0, res.1, v.tracked);
  }
}
