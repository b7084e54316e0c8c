/**
 The inductive invariant of the Firecracker machine.  It is built from predicates on
 one thread and its sandbox (`Local`, `Rest`, `SandboxInv`), and from the couplings
 between the slot table, the sandbox table, the claims and the netMu locks.
 */
module FirecrackerInvariant {
  import opened FirecrackerModel
  import opened FirecrackerMachine

  // ---- one sandbox --------------------------------------------------------

  predicate NoExec(g: seq<Guest>) {
    forall i :: 0 <= i < |g| ==> !g[i].status.Executing?
  }

  predicate OnlyLast(g: seq<Guest>) {
    forall i :: 0 <= i < |g| - 1 ==> !g[i].status.Executing?
  }

  /** Nothing executes, unless a failed kill left a guest behind. */
  predicate Quiet(x: Sandbox) {
    x.f.stray || NoExec(x.h.guests)
  }

  /** Every microVM started so far has been torn down. */
  predicate AllTorn(x: Sandbox) {
    |x.h.guests| == 0 || Last(x).gen < x.r.generation
  }

  /** Where both files exist, the rootfs is exactly `writes` writes past the snapshot. */
  predicate Match(f: Files) {
    f.disk.Missing? || f.snap.Missing? ||
    (f.disk.At? && f.snap.At? && f.disk.version == f.snap.version + f.writes)
  }

  /** The snapshot describes the rootfs, unless something survived to write to it. */
  predicate Fitting(f: Files) {
    Match(f) && (!f.stray ==> f.writes == 0)
  }

  predicate Whole(f: Files) {
    !f.disk.Garbled?
  }

  /** An unpinned sandbox can be restored: its snapshot describes its rootfs, and nothing
      executes on it. */
  predicate Pin(x: Sandbox) {
    !x.r.mustColdBoot ==> Fitting(x.f) && (!x.f.stray ==> NoExec(x.h.guests))
  }

  /** What the files of a tracked sandbox that runs or is stopped are good for. */
  predicate FilesOk(x: Sandbox) {
    x.r.running || x.r.stopped ==> Whole(x.f) && (!x.r.mustColdBoot ==> Fitting(x.f))
  }

  /** Generations only grow, and a microVM is torn down exactly when it is out of date. */
  predicate GuestsInv(g: seq<Guest>, generation: nat) {
    && (forall i, j :: 0 <= i < j < |g| ==> g[i].gen < g[j].gen)
    && (forall i :: 0 <= i < |g| ==>
          && g[i].gen <= generation
          && (g[i].torn <==> g[i].gen < generation)
          && (g[i].reported ==> g[i].status.Dead?))
  }

  predicate SandboxInv(x: Sandbox) {
    && GuestsInv(x.h.guests, x.r.generation)
    && x.r.id != FREE
    && x.r.slot >= -1
    && (x.r.process.Some? ==>
          0 < |x.h.guests| && x.r.process.value == |x.h.guests| - 1 && Last(x).gen == x.r.generation)
    && !(x.r.running && x.r.stopped)
    && (x.f.stray || OnlyLast(x.h.guests))
    && ((x.r.running || x.r.stopped) && !x.r.mustColdBoot ==> Quiet(x))
    && (!x.h.net.NoNet? ==> x.r.slot >= 0)
  }

  /** A sandbox with no handle left to tear down and nothing of its namespace. */
  predicate Bare(x: Sandbox) {
    && x.r.process == None && !x.r.proxy && AllTorn(x) && x.h.net.NoNet? && Quiet(x)
  }

  /** A sandbox no operation is working on. */
  predicate Rest(x: Sandbox) {
    && (x.r.running ==> x.r.process.Some? && x.r.mustColdBoot && x.h.net.NetReady? && x.r.slot >= 0)
    && (!x.r.running ==> Bare(x))
    && (x.r.stopped ==> x.r.slot == -1)
  }

  /** What a create leaves whose cleanup failed: nothing but a delete can get anywhere
      with it. */
  predicate Doomed(x: Sandbox) {
    && !x.r.running && !x.r.stopped && !x.r.transition.Creating? && Bare(x)
  }

  // ---- one thread and the sandbox it holds --------------------------------

  /** The program counters at which the thread holds its sandbox's claim. */
  predicate Holds(th: Thread) {
    match th.pc
    case Reserve => th.op.Wake?
    case Waiting | Record | LateUntrack | Wiring | Done => false
    case NetWait | NetLocked | NetWired => !th.op.Wire?
    case _ => true
  }

  predicate HoldsNet(th: Thread) {
    th.pc.NetLocked? || th.pc.NetWired? || th.pc.ClearHeld? || th.pc.ClearGo?
  }

  predicate NetPc(th: Thread) {
    th.pc.NetWait? || th.pc.ClearWait? || HoldsNet(th)
  }

  /** An activation before its microVM is started, its files aside. */
  predicate Starting(op: Op, x: Sandbox) {
    && !x.r.running
    && (op.Create? || op.Wake?)
    && (op.Create? <==> x.r.transition.Creating?)
    && (op.Wake? <==> x.r.stopped)
    && (op.Wake? ==> x.r.transition.Waking?)
    && x.r.process == None && !x.r.proxy && AllTorn(x) && Quiet(x)
    && x.r.slot >= 0
  }

  /** And with its files in place. */
  predicate PreStart(op: Op, x: Sandbox) {
    Starting(op, x) && Pin(x) && Whole(x.f)
  }

  /** Both files are there and mounted in the jail, exactly unless one was taken away. */
  predicate Present(f: Files) {
    f.lost <==> f.disk.Missing? || f.snap.Missing? || !f.jail
  }

  /** An activation whose microVM was started. */
  predicate Started(op: Op, x: Sandbox) {
    && !x.r.running
    && (op.Create? || op.Wake?)
    && (op.Create? <==> x.r.transition.Creating?)
    && (op.Wake? <==> x.r.stopped)
    && (op.Wake? ==> x.r.transition.Waking?)
    && Whole(x.f)
    && x.r.slot >= 0 && x.h.net.NetReady?
    && 0 < |x.h.guests| && Last(x).gen == x.r.generation
  }

  /** The started process has not run guest code. */
  predicate Unbooted(x: Sandbox) {
    0 < |x.h.guests| && (Last(x).status == Loaded || Last(x).status == Dead)
  }

  predicate BootSafe(f: Files) {
    Present(f) && Whole(f) && Fitting(f)
  }

  /** What a teardown may begin on. */
  predicate Tearable(th: Thread, x: Sandbox) {
    && (x.r.process == None ==> AllTorn(x) && Quiet(x))
    && (match th.op
        case Create => !x.r.running && !x.r.stopped
        case Delete => !x.r.running && (x.r.stopped ==> Bare(x) && x.r.slot == -1)
        case Wake => !x.r.running && x.r.stopped && x.r.slot >= 0
        case Stop => x.r.running && x.r.slot >= 0
        case Death => x.r.running && x.r.slot >= 0 && th.died == th.ref && x.r.generation == th.gen
        case Wire => false)
  }

  /** During a teardown, after it took the handles. */
  predicate Tearing(op: Op, slot: int, x: Sandbox) {
    && x.r.process == None && !x.r.proxy && AllTorn(x) && !x.h.net.NetReady?
    && slot == x.r.slot
    && (match op
        case Create => !x.r.running && !x.r.stopped && x.r.transition.Deleting?
        case Delete => !x.r.running && (x.r.stopped ==> x.r.slot == -1 && x.h.net.NoNet?)
        case Wake => !x.r.running && x.r.stopped && x.r.slot >= 0
        case Stop => x.r.running && x.r.slot >= 0
        case Death => x.r.running && x.r.slot >= 0
        case Wire => false)
  }

  predicate StopHeld(op: Op, x: Sandbox) {
    && op.Stop?
    && x.r.running && x.r.process.Some? && x.h.net.NetReady? && x.r.slot >= 0
  }

  predicate Local(th: Thread, x: Sandbox) {
    match th.pc
    case Begun => Rest(x) && !th.op.Create? && !th.op.Wire? && x.r.transition == Want(th.op)
    case Reserve => Rest(x) && x.r.stopped && th.op.Wake? && x.r.transition.Waking?
    case CloneRootfs => th.op.Create? && x.h.guests == [] && Starting(th.op, x) && x.h.net.NoNet? && !x.r.mustColdBoot
    case CloneSnapshot =>
      && th.op.Create? && x.h.guests == [] && Starting(th.op, x) && x.h.net.NoNet? && !x.r.mustColdBoot
      && (x.f.disk.Missing? || x.f.disk == At(x.f.writes)) && (!x.f.stray ==> x.f.writes == 0)
    case PrepareJail => PreStart(th.op, x) && x.h.net.NoNet?
    case NetWait | NetLocked | NetWired => PreStart(th.op, x) && x.h.net.NoNet? && Present(x.f) && th.slot == x.r.slot
    case Capture => PreStart(th.op, x) && x.h.net.NetReady? && Present(x.f)
    case StartJailer => PreStart(th.op, x) && x.h.net.NetReady? && Present(x.f) && th.gen == x.r.generation
    case Publish =>
      && Started(th.op, x) && Unbooted(x) && Pin(x) && Present(x.f)
      && x.r.process == None && !x.r.proxy && th.pid == |x.h.guests| - 1
    case WaitSocket | StartGuest => Started(th.op, x) && Unbooted(x) && Pin(x) && Present(x.f) && x.r.process.Some?
    case Boot =>
      Started(th.op, x) && Unbooted(x) && x.r.mustColdBoot && x.r.process.Some? && (!th.cold ==> BootSafe(x.f))
    case NewProxy | PublishProxy | Probe | Up => Started(th.op, x) && x.r.mustColdBoot && x.r.process.Some?
    case DiskCheck | Pause | Resume => StopHeld(th.op, x) && x.r.mustColdBoot
    case Snapshot => StopHeld(th.op, x) && x.r.mustColdBoot && Quiet(x)
    case Unpin => StopHeld(th.op, x) && x.r.mustColdBoot && Quiet(x) && Fitting(x.f)
    case Mark =>
      if th.op.Create? then x.r.transition.Creating? && Tearable(th, x) else th.op.Delete? && Rest(x)
    case Teardown => Tearable(th, x) && (th.op.Create? ==> x.r.transition.Deleting?)
    case Kill =>
      && Tearing(th.op, th.slot, x)
      && (th.taken == None ==> Quiet(x))
      && (th.taken.Some? ==> 0 < |x.h.guests| && th.taken.value == |x.h.guests| - 1)
    case CleanHost => Tearing(th.op, th.slot, x) && Quiet(x)
    case ClearWait | ClearHeld | ClearGo => Tearing(th.op, th.slot, x) && Quiet(x) && th.slot >= 0
    case TornDown | Remove | FailDelete =>
      Tearing(th.op, th.slot, x) && Bare(x) && ((!th.pc.TornDown?) ==> th.op.Create? || th.op.Delete?)
    case Untrack => Tearing(th.op, th.slot, x) && Bare(x) && (th.op.Create? || th.op.Delete?)
    case Final => Tearing(th.op, th.slot, x) && Bare(x) && (th.op.Stop? || th.op.Wake? || th.op.Death?)
    case End => Rest(x) && !th.op.Create? && !th.op.Delete?
    case _ => true
  }

  // ---- the whole state ----------------------------------------------------

  predicate SlotRef(s: State, i: nat)
    requires i < |s.slots|
  {
    && s.slots[i].owner in s.sandboxes
    && s.sandboxes[s.slots[i].owner] < |s.heap|
  }

  function Occupant(s: State, i: nat): Entry
    requires i < |s.slots| && SlotRef(s, i)
  {
    s.heap[s.sandboxes[s.slots[i].owner]]
  }

  /** The entry for one sandbox id. */
  predicate EntryInv(s: State, id: Id)
    requires id in s.sandboxes
  {
    var r := s.sandboxes[id];
    && r < |s.heap|
    && s.heap[r].r.id == id
    && (s.heap[r].r.slot >= 0 ==> s.heap[r].r.slot < |s.slots| && s.slots[s.heap[r].r.slot].owner == id)
    && (s.heap[r].h.holder.Some? <==> !s.heap[r].r.transition.Unclaimed?)
    && (s.heap[r].h.holder == None ==> Rest(Box(s, r)))
  }

  predicate SlotInv(s: State, i: nat)
    requires i < |s.slots|
  {
    var sl := s.slots[i];
    && (sl.owner != FREE ==> SlotRef(s, i) && Occupant(s, i).r.slot == i)
    && (sl.wired ==> sl.ns.Built?)
    && (sl.wired && sl.ns.drop ==>
          sl.owner != FREE && SlotRef(s, i) && !Occupant(s, i).h.net.NoNet? && Occupant(s, i).r.blockEgress)
    && (sl.lock.Some? ==>
          sl.lock.value < |s.threads| && HoldsNet(s.threads[sl.lock.value]) && s.threads[sl.lock.value].slot == i)
  }

  predicate HeapInv(s: State, r: nat)
    requires r < |s.heap|
  {
    var x := Box(s, r);
    && SandboxInv(x)
    && x.r.slot < |s.slots|
    && (Tracked(s, r) ==> FilesOk(x))
    && (!Tracked(s, r) ==> Quiet(x))
    && (!x.h.net.NoNet? ==> Tracked(s, r))
    && (x.h.net.NetReady? ==>
          s.slots[x.r.slot].wired && s.slots[x.r.slot].ns.Built? && s.slots[x.r.slot].ns.drop == x.r.blockEgress)
    && (x.h.holder.Some? ==>
          && x.h.holder.value < |s.threads|
          && Holds(s.threads[x.h.holder.value])
          && s.threads[x.h.holder.value].ref == r
          && (!x.f.late || x.r.running || x.r.stopped || x.r.transition.Creating? ==> Tracked(s, r)))
  }

  /** A holder's claim, and what it knows of its sandbox. */
  predicate ClaimInv(s: State, t: nat)
    requires t < |s.threads|
  {
    var th := s.threads[t];
    && (Holds(th) ==> th.ref < |s.heap| && s.heap[th.ref].h.holder == Some(t) && Local(th, Box(s, th.ref)))
    && (th.pc.LateUntrack? ==> th.ref < |s.heap| && Doomed(Box(s, th.ref)))
  }

  /** The netMu of the slot the thread works on. */
  predicate NetInv(s: State, t: nat)
    requires t < |s.threads|
  {
    var th := s.threads[t];
    && (NetPc(th) ==> 0 <= th.slot < |s.slots|)
    && (HoldsNet(th) ==> s.slots[th.slot].lock == Some(t))
    && (th.pc.NetWired? ==> s.slots[th.slot].wired)
    && (th.pc.ClearGo? ==>
          s.slots[th.slot].owner == FREE ||
          (SlotRef(s, th.slot) && (s.sandboxes[s.slots[th.slot].owner] == th.ref || Occupant(s, th.slot).h.net.NoNet?)))
  }

  /** A Death thread reacts to a microVM that really died. */
  predicate DeathInv(s: State, t: nat)
    requires t < |s.threads|
  {
    var th := s.threads[t];
    th.op.Death? ==>
      && th.died < |s.heap| && s.heap[th.died].r.id == th.id && th.pid < |s.heap[th.died].h.guests|
      && s.heap[th.died].h.guests[th.pid].gen == th.gen
      && s.heap[th.died].h.guests[th.pid].status.Dead?
  }

  /** Which operations visit which program counters. */
  predicate ShapeInv(th: Thread) {
    && (th.pc.Reserve? ==> th.op.Wake? || (th.op.Create? && |th.id| >= 12))
    && (th.op.Wire? ==> th.pc.Wiring? || th.pc.NetWait? || th.pc.NetLocked? || th.pc.NetWired? || th.pc.Done?)
    && (th.pc.Waiting? ==> !th.op.Create? && !th.op.Wire?)
    && (th.pc.Record? ==> th.op.Death?)
    && (th.pc.Wiring? ==> th.op.Wire?)
  }

  predicate ThreadInv(s: State, t: nat)
    requires t < |s.threads|
  {
    ClaimInv(s, t) && NetInv(s, t) && DeathInv(s, t) && ShapeInv(s.threads[t])
  }

  predicate Inv(s: State) {
    && (forall id :: id in s.sandboxes ==> EntryInv(s, id))
    && (forall i :: 0 <= i < |s.slots| ==> SlotInv(s, i))
    && (forall r :: 0 <= r < |s.heap| ==> HeapInv(s, r))
    && (forall t :: 0 <= t < |s.threads| ==> ThreadInv(s, t))
  }
}
