/**
 The Firecracker runtime as a state machine.  Every operation is a thread; one step
 is one `r.mu` critical section, one take of a slot's netMu, or one host command.
 A host command's result is chosen by the environment: it may succeed, fail, or take
 effect and still report failure.  Shutdown is not part of the machine.
 */
module FirecrackerMachine {
  import opened FirecrackerModel

  datatype Op = Create | Stop | Wake | Delete | Death | Wire

  datatype Pc =
    | Reserve                                                       // reserveSandbox
    | Waiting                                                       // beginTransition
    | Record                                                        // recordGuestDeath
    | Begun                                                         // the claim was just won
    | CloneRootfs | CloneSnapshot                                   // CreateSandbox
    | PrepareJail | NetWait | NetLocked | NetWired                  // activateSandboxVM
    | Capture | StartJailer | Publish | WaitSocket | StartGuest | Boot
    | NewProxy | PublishProxy | Probe | Up
    | DiskCheck | Pause | Snapshot | Unpin | Resume                 // StopSandbox
    | Mark                                                          // deleteSandbox
    | Teardown | Kill | CleanHost | ClearWait | ClearHeld | ClearGo // teardownRunningVM
    | TornDown
    | Remove | FailDelete | Untrack | LateUntrack                   // deleteSandbox, CreateSandbox
    | Final | End
    | Wiring                                                        // wireSlots
    | Done

  /** `ref` is the sandboxState the operation works on, `died`/`pid`/`gen` the microVM
      whose exit a Death thread reacts to, `taken` the handle a teardown took. */
  datatype Thread = Thread(
    op: Op, id: Id, block: bool, pc: Pc,
    ref: nat, slot: int, gen: nat, pid: nat, died: nat,
    cold: bool, err: bool, taken: Option<nat>)

  datatype State = State(
    slots: seq<Slot>, sandboxes: map<Id, nat>, heap: seq<Entry>,
    threads: seq<Thread>, builds: nat, files: map<Id, Files>)

  /** What the environment answers to a host command: `ok` is the reported result,
      `effect` whether a failed call took effect anyway, `disk`/`snap` what a failed
      clone, snapshot or removal left behind. `pick` is the slot the wirer looks at. */
  datatype Outcome = Outcome(ok: bool, effect: bool, disk: File, snap: File, pick: nat)

  datatype Step =
    | Spawn(op: Op, id: Id, block: bool)
    | Act(t: nat, o: Outcome)
    | GiveUp(t: nat)
    | Write(r: nat)
    | Crash(r: nat, pid: nat)
    | Exit(r: nat, pid: nat)

  predicate Tracked(s: State, r: nat)
    requires r < |s.heap|
  {
    s.heap[r].r.id in s.sandboxes && s.sandboxes[s.heap[r].r.id] == r
  }

  predicate Init(s: State) {
    && s.sandboxes == map[] && s.heap == [] && s.threads == [] && s.files == map[]
    && forall i :: 0 <= i < |s.slots| ==> s.slots[i].owner == FREE && !s.slots[i].wired && s.slots[i].lock == None
  }

  function FilesOf(s: State, id: Id): Files {
    if id in s.files then s.files[id] else NO_FILES
  }

  /** Incarnation r with the files of its id. */
  function Box(s: State, r: nat): Sandbox
    requires r < |s.heap|
  {
    Sandbox(s.heap[r].r, s.heap[r].h, FilesOf(s, s.heap[r].r.id))
  }

  // ---- updates -----------------------------------------------------------

  function PutThread(s: State, t: nat, th: Thread): State
    requires t < |s.threads|
  {
    s.(threads := s.threads[t := th])
  }

  function PutEntry(s: State, r: nat, x: Entry): State
    requires r < |s.heap|
  {
    s.(heap := s.heap[r := x])
  }

  function PutBoth(s: State, t: nat, th: Thread, x: Entry): State
    requires t < |s.threads| && s.threads[t].ref < |s.heap|
  {
    s.(threads := s.threads[t := th], heap := s.heap[s.threads[t].ref := x])
  }

  function PutFiles(s: State, id: Id, f: Files): State {
    s.(files := s.files[id := f])
  }

  /** Thread, its sandbox and the files under its id, as one step on all three leaves them. */
  function PutLocal(s: State, t: nat, th: Thread, x: Sandbox): State
    requires t < |s.threads| && s.threads[t].ref < |s.heap|
  {
    PutFiles(PutBoth(s, t, th, Entry(x.r, x.h)), x.r.id, x.f)
  }

  function PutSlot(s: State, i: nat, sl: Slot): State
    requires i < |s.slots|
  {
    s.(slots := s.slots[i := sl])
  }

  function SetOwners(slots: seq<Slot>, owners: seq<Id>): (r: seq<Slot>)
    requires |owners| == |slots|
    ensures |r| == |slots|
    ensures forall i :: 0 <= i < |r| ==> r[i] == slots[i].(owner := owners[i])
  {
    seq(|slots|, i requires 0 <= i < |slots| => slots[i].(owner := owners[i]))
  }

  function WithStatus(g: seq<Guest>, i: nat, st: Status): seq<Guest>
    requires i < |g|
  {
    g[i := g[i].(status := st)]
  }

  /** The guest the current activation or stop talks to is the last one started. */
  function Last(x: Sandbox): Guest
    requires |x.h.guests| > 0
  {
    x.h.guests[|x.h.guests| - 1]
  }

  predicate Alive(x: Sandbox) {
    |x.h.guests| > 0 && Last(x).status != Dead
  }

  function SetLast(x: Sandbox, st: Status): Sandbox
    requires |x.h.guests| > 0
  {
    x.(h := x.h.(guests := WithStatus(x.h.guests, |x.h.guests| - 1, st)))
  }

  /** A failed activation: a create deletes what it built, a wake tears it down. */
  function Abandon(th: Thread): Thread {
    th.(pc := if th.op.Create? then Mark else Teardown)
  }

  // ---- what each program counter does -------------------------------------

  function DoReserve(s: State, t: nat, ok: bool): State
    requires t < |s.threads|
  {
    var th := s.threads[t];
    var k := FirstFree(Owners(s.slots), 0);
    if !ok || th.id in s.sandboxes || k < 0 then PutThread(s, t, th.(pc := Done))
    else
      var x := Entry(Fresh(th.id, th.block, k), Host(Some(t), [], NoNet));
      s.(slots := s.slots[k := s.slots[k].(owner := th.id)],
         sandboxes := s.sandboxes[th.id := |s.heap|],
         heap := s.heap + [x],
         threads := s.threads[t := th.(pc := CloneRootfs, ref := |s.heap|)])
  }

  function Want(op: Op): Transition {
    match op
    case Wake => Waking
    case Delete => Deleting
    case _ => Stopping
  }

  predicate Claimable(s: State, id: Id) {
    id in s.sandboxes && s.sandboxes[id] < |s.heap| && s.heap[s.sandboxes[id]].r.transition.Unclaimed?
  }

  /** beginTransition: not found or deleting ends it, a free sandbox is claimed. */
  function DoWait(s: State, t: nat): State
    requires t < |s.threads|
  {
    var th := s.threads[t];
    if th.id !in s.sandboxes || s.sandboxes[th.id] >= |s.heap| || s.heap[s.sandboxes[th.id]].r.transition.Deleting? then
      PutThread(s, t, th.(pc := Done))
    else if Claimable(s, th.id) then
      var r := s.sandboxes[th.id];
      var x := s.heap[r];
      PutThread(PutEntry(s, r, Entry(x.r.(transition := Want(th.op)), x.h.(holder := Some(t)))),
                t, th.(pc := Begun, ref := r))
    else s
  }

  function DoRecord(s: State, t: nat): State
    requires t < |s.threads| && s.threads[t].died < |s.heap|
  {
    var th := s.threads[t];
    PutThread(s, t, th.(pc := if s.heap[th.died].r.generation == th.gen then Waiting else Done))
  }

  /** The first section after the claim, per operation. */
  function AfterClaim(th: Thread, x: Sandbox): Thread {
    match th.op
    case Delete => th.(pc := Mark)
    case Stop => th.(pc := if !x.r.stopped && x.r.running then DiskCheck else End)
    case Wake => th.(pc := if !x.r.running && x.r.stopped then Reserve else End)
    case _ => th.(pc := if th.ref != th.died || x.r.generation != th.gen then End else Teardown)
  }

  function DoWakeSlot(s: State, t: nat): State
    requires t < |s.threads| && s.threads[t].ref < |s.heap|
  {
    var th := s.threads[t];
    var x := s.heap[th.ref];
    var k := FirstFree(Owners(s.slots), 0);
    if k < 0 then PutThread(s, t, th.(pc := End))
    else
      PutBoth(s, t, th.(pc := PrepareJail), x.(r := x.r.(slot := k)))
        .(slots := s.slots[k := s.slots[k].(owner := x.r.id)])
  }

  function DoNetBuild(s: State, t: nat, o: Outcome): State
    requires t < |s.threads| && 0 <= s.threads[t].slot < |s.slots|
  {
    var th := s.threads[t];
    var sl := s.slots[th.slot];
    if sl.wired then PutThread(s, t, th.(pc := NetWired))
    else if o.ok then
      PutThread(PutSlot(s, th.slot, sl.(wired := true, ns := Built(s.builds, false))), t, th.(pc := NetWired))
        .(builds := s.builds + 1)
    else
      PutThread(PutSlot(s, th.slot, sl.(lock := None, ns := Unknown)), t,
                if th.op.Wire? then th.(pc := Wiring) else Abandon(th))
  }

  /** The tail of setupNetwork: the DROP if asked for, then the unlock. */
  function DoNetFinish(s: State, t: nat, o: Outcome): State
    requires t < |s.threads| && 0 <= s.threads[t].slot < |s.slots|
    requires !s.threads[t].op.Wire? ==> s.threads[t].ref < |s.heap|
  {
    var th := s.threads[t];
    var sl := s.slots[th.slot];
    if th.op.Wire? then PutThread(PutSlot(s, th.slot, sl.(lock := None)), t, th.(pc := Wiring))
    else
      var x := s.heap[th.ref];
      var drop := x.r.blockEgress && (o.ok || o.effect);
      var ok := o.ok || !x.r.blockEgress;
      var ns := if drop && sl.ns.Built? then sl.ns.(drop := true) else sl.ns;
      PutBoth(s, t, if ok then th.(pc := Capture) else Abandon(th),
              x.(h := x.h.(net := if ok then NetReady else NetLeaving)))
        .(slots := s.slots[th.slot := sl.(lock := None, ns := ns)])
  }

  function DoClearCheck(s: State, t: nat): State
    requires t < |s.threads| && s.threads[t].ref < |s.heap| && 0 <= s.threads[t].slot < |s.slots|
  {
    var th := s.threads[t];
    var sl := s.slots[th.slot];
    var id := s.heap[th.ref].r.id;
    var ours := sl.owner == id && (id !in s.sandboxes || s.sandboxes[id] == th.ref);
    if sl.owner != FREE && !ours then
      PutThread(PutSlot(s, th.slot, sl.(lock := None)), t, th.(pc := TornDown))
    else PutThread(s, t, th.(pc := ClearGo))
  }

  function DoClear(s: State, t: nat, o: Outcome): State
    requires t < |s.threads| && s.threads[t].ref < |s.heap| && 0 <= s.threads[t].slot < |s.slots|
  {
    var th := s.threads[t];
    var x := s.heap[th.ref];
    PutBoth(s, t, th.(pc := TornDown, err := th.err || !o.ok), x.(h := x.h.(net := NoNet)))
      .(slots := s.slots[th.slot := s.slots[th.slot].(wired := false, lock := None, ns := Unknown)])
  }

  function ReleaseSlots(s: State, x: Rec): (r: seq<Slot>)
    requires x.slot < |s.slots|
    ensures |r| == |s.slots|
    ensures forall i :: 0 <= i < |r| ==>
      r[i] == if i == x.slot && s.slots[i].owner == x.id then s.slots[i].(owner := FREE) else s.slots[i]
  {
    SetOwners(s.slots, ReleaseOwned(Owners(s.slots), x.slot, x.id))
  }

  function DoFinal(s: State, t: nat): State
    requires t < |s.threads| && s.threads[t].ref < |s.heap| && s.heap[s.threads[t].ref].r.slot < |s.slots|
  {
    var th := s.threads[t];
    var x := s.heap[th.ref];
    PutBoth(s, t, th.(pc := End), x.(r := MarkStopped(x.r))).(slots := ReleaseSlots(s, x.r))
  }

  /** untrackSandbox; `late` is the one a create runs after its delete failed, when it
      no longer holds the claim. */
  function DoUntrack(s: State, t: nat, late: bool): State
    requires t < |s.threads| && s.threads[t].ref < |s.heap| && s.heap[s.threads[t].ref].r.slot < |s.slots|
  {
    var th := s.threads[t];
    var x := s.heap[th.ref];
    var s1 := PutBoth(s, t, th.(pc := Done), if late then x else x.(h := x.h.(holder := None)));
    if !Tracked(s, th.ref) then s1
    else
      var f := FilesOf(s, x.r.id);
      s1.(sandboxes := s.sandboxes - {x.r.id}, slots := ReleaseSlots(s, x.r),
          files := s.files[x.r.id := f.(late := f.late || (late && !x.r.transition.Unclaimed?))])
  }

  // ---- steps that touch only the acting thread and its own sandbox ---------

  /** CreateSandbox's clones, and the activation up to the published process handle. */
  function DoBuild(th: Thread, x: Sandbox, o: Outcome, tracked: bool): (Thread, Sandbox) {
    match th.pc
    case CloneRootfs =>
      if o.ok then (th.(pc := CloneSnapshot), x.(f := x.f.(disk := At(0), writes := 0)))
      else (th.(pc := Mark), x.(f := x.f.(disk := o.disk)))
    case CloneSnapshot =>
      if o.ok then (th.(pc := PrepareJail), x.(f := x.f.(snap := At(0))))
      else (th.(pc := Mark), x.(f := x.f.(snap := o.snap)))
    case PrepareJail =>
      // bind-mounting a missing file fails, so success means both are there
      if o.ok && !x.f.disk.Missing? && !x.f.snap.Missing?
      then (th.(pc := NetWait, slot := x.r.slot), x.(f := x.f.(jail := true, lost := false)))
      else (Abandon(th), x.(f := x.f.(jail := x.f.jail || o.effect)))
    case Capture => (th.(pc := StartJailer, gen := x.r.generation), x)
    case StartJailer =>
      if o.ok then
        (th.(pc := Publish, pid := |x.h.guests|),
         x.(h := x.h.(guests := x.h.guests + [Guest(th.gen, Loaded, false, false)])))
      else (Abandon(th), x)
    case Publish =>
      (if tracked && !x.r.transition.Deleting? then th.(pc := WaitSocket) else Abandon(th),
       x.(r := x.r.(process := Some(th.pid))))
    case _ => (if o.ok then th.(pc := StartGuest) else Abandon(th), x)
  }

  /** startGuest, the proxy, the probe, and the section that ends the activation. */
  function DoBoot(th: Thread, x: Sandbox, o: Outcome, tracked: bool): (Thread, Sandbox) {
    match th.pc
    case StartGuest => (th.(pc := Boot, cold := x.r.mustColdBoot), x.(r := PinColdBoot(x.r)))
    case Boot =>
      (if o.ok && Alive(x) then th.(pc := NewProxy) else Abandon(th),
       if (o.ok || o.effect) && Alive(x) then SetLast(x, Executing) else x)
    case NewProxy => (if o.ok then th.(pc := PublishProxy) else Abandon(th), x)
    case PublishProxy =>
      (if tracked && !x.r.transition.Deleting? then th.(pc := Probe) else Abandon(th),
       x.(r := x.r.(proxy := true)))
    case Probe => (if o.ok then th.(pc := Up) else Abandon(th), x)
    case _ =>
      if th.op.Create? then
        (th.(pc := Done), x.(r := x.r.(running := true, transition := Unclaimed), h := x.h.(holder := None)))
      else (th.(pc := End), x.(r := x.r.(running := true, stopped := false)))
  }

  /** StopSandbox between its claim and its teardown. */
  function DoStop(th: Thread, x: Sandbox, o: Outcome): (Thread, Sandbox) {
    match th.pc
    case DiskCheck => (th.(pc := if o.ok then Pause else End), x)
    case Pause =>
      (th.(pc := if o.ok && Alive(x) then Snapshot else Resume),
       if (o.ok || o.effect) && Alive(x) then SetLast(x, Paused) else x)
    case Snapshot =>
      if o.ok && Alive(x) then (th.(pc := Unpin), x.(f := x.f.(snap := x.f.disk, writes := 0)))
      else (th.(pc := Resume), x.(f := x.f.(snap := o.snap)))
    case Unpin => (th.(pc := Teardown), x.(r := x.r.(mustColdBoot := false)))
    case _ =>
      (th.(pc := if o.ok && Alive(x) then End else Teardown),
       if (o.ok || o.effect) && Alive(x) then SetLast(x, Executing) else x)
  }

  function MarkTorn(g: seq<Guest>, generation: nat): (r: seq<Guest>)
    ensures |r| == |g|
    ensures forall i :: 0 <= i < |g| ==> r[i] == if g[i].gen == generation then g[i].(torn := true) else g[i]
  {
    seq(|g|, i requires 0 <= i < |g| => if g[i].gen == generation then g[i].(torn := true) else g[i])
  }

  /** deleteSandbox's first section and teardownRunningVM up to the slot's network. */
  function DoTeardown(th: Thread, x: Sandbox, o: Outcome, tracked: bool): (Thread, Sandbox) {
    match th.pc
    case Mark => (th.(pc := Teardown), if tracked then x.(r := MarkDeleting(x.r)) else x)
    case Teardown =>
      (th.(pc := Kill, taken := x.r.process, slot := x.r.slot, err := false),
       x.(r := TakeHandles(x.r),
          h := x.h.(guests := MarkTorn(x.h.guests, x.r.generation),
                    net := if x.h.net.NetReady? then NetLeaving else x.h.net)))
    case Kill =>
      // `ok` is the kill, `effect` whether the proxy stopped
      (th.(pc := CleanHost, err := th.err || (th.taken.Some? && !o.ok) || !o.effect),
       if th.taken == None || th.taken.value >= |x.h.guests| then x
       else if o.ok then x.(h := x.h.(guests := WithStatus(x.h.guests, th.taken.value, Dead)))
       else x.(f := x.f.(stray := x.f.stray || x.h.guests[th.taken.value].status.Executing?)))
    case _ =>
      (th.(pc := if th.slot >= 0 then ClearWait else TornDown, err := th.err || !o.ok),
       x.(f := Take(x.f, x.f.(jail := x.f.jail && !o.ok && !o.effect), tracked)))
  }

  /** What follows a teardown, and the release of the claim. */
  function DoFinish(th: Thread, x: Sandbox, o: Outcome, tracked: bool): (Thread, Sandbox) {
    match th.pc
    case TornDown => (th.(pc := if th.op.Create? || th.op.Delete? then Remove else Final), x)
    case Remove =>
      if o.ok then
        (th.(pc := if th.err then FailDelete else Untrack),
         x.(f := Take(x.f, x.f.(disk := Missing, snap := Missing, writes := 0), tracked)))
      else
        (th.(pc := FailDelete),
         x.(f := Take(x.f, x.f.(disk := if o.disk.Missing? then Missing else x.f.disk,
                                snap := if o.snap.Missing? then Missing else x.f.snap), tracked)))
    case FailDelete =>
      (th.(pc := if th.op.Create? then LateUntrack else Done),
       x.(r := if tracked then x.r.(transition := Unclaimed) else x.r, h := x.h.(holder := None)))
    case _ => (th.(pc := Done), x.(r := x.r.(transition := Unclaimed), h := x.h.(holder := None)))
  }

  function DoLocal(th: Thread, x: Sandbox, o: Outcome, tracked: bool): (Thread, Sandbox) {
    match th.pc
    case Begun => (AfterClaim(th, x), x)
    case StartGuest | Boot | NewProxy | PublishProxy | Probe | Up => DoBoot(th, x, o, tracked)
    case DiskCheck | Pause | Snapshot | Unpin | Resume => DoStop(th, x, o)
    case Mark | Teardown | Kill | CleanHost => DoTeardown(th, x, o, tracked)
    case TornDown | Remove | FailDelete | End => DoFinish(th, x, o, tracked)
    case _ => DoBuild(th, x, o, tracked)
  }

  function TakeLock(s: State, t: nat, pc: Pc): State
    requires t < |s.threads| && 0 <= s.threads[t].slot < |s.slots|
  {
    var th := s.threads[t];
    PutThread(PutSlot(s, th.slot, s.slots[th.slot].(lock := Some(t))), t, th.(pc := pc))
  }

  /** wireSlots reads the occupancy of a slot of its choosing and lets r.mu go. */
  function DoWire(s: State, t: nat, i: nat): State
    requires t < |s.threads|
  {
    var th := s.threads[t];
    if i < |s.slots| && s.slots[i].owner == FREE then PutThread(s, t, th.(pc := NetWait, slot := i)) else s
  }

  /** The indices a step reads exist. The invariant establishes it for every thread. */
  predicate InRange(s: State, t: nat)
    requires t < |s.threads|
  {
    var th := s.threads[t];
    match th.pc
    case Record => th.died < |s.heap|
    case Reserve => th.op.Wake? ==> th.ref < |s.heap|
    case NetWait | NetLocked => 0 <= th.slot < |s.slots|
    case NetWired => 0 <= th.slot < |s.slots| && (!th.op.Wire? ==> th.ref < |s.heap|)
    case ClearWait | ClearHeld | ClearGo => 0 <= th.slot < |s.slots| && th.ref < |s.heap|
    case Final | Untrack | LateUntrack => th.ref < |s.heap| && s.heap[th.ref].r.slot < |s.slots|
    case Waiting | Wiring | Done => true
    case _ => th.ref < |s.heap|
  }

  /** A thread waiting for a netMu can only move once it is free. */
  predicate Enabled(s: State, t: nat) {
    && t < |s.threads|
    && InRange(s, t)
    && !s.threads[t].pc.Done?
    && (s.threads[t].pc.NetWait? || s.threads[t].pc.ClearWait? ==> s.slots[s.threads[t].slot].lock == None)
  }

  function DoAct(s: State, t: nat, o: Outcome): State
    requires Enabled(s, t)
  {
    var th := s.threads[t];
    match th.pc
    case Reserve => if th.op.Wake? then DoWakeSlot(s, t) else DoReserve(s, t, o.ok)
    case Waiting => DoWait(s, t)
    case Record => DoRecord(s, t)
    case NetWait => TakeLock(s, t, NetLocked)
    case NetLocked => DoNetBuild(s, t, o)
    case NetWired => DoNetFinish(s, t, o)
    case ClearWait => TakeLock(s, t, ClearHeld)
    case ClearHeld => DoClearCheck(s, t)
    case ClearGo => DoClear(s, t, o)
    case Final => DoFinal(s, t)
    case Untrack => DoUntrack(s, t, false)
    case LateUntrack => DoUntrack(s, t, true)
    case Wiring => DoWire(s, t, o.pick)
    case Done => s
    case _ =>
      var res := DoLocal(th, Box(s, th.ref), o, Tracked(s, th.ref));
      PutLocal(s, t, res.0, res.1)
  }

  function NewThread(op: Op, id: Id, block: bool, pc: Pc): Thread {
    Thread(op, id, block, pc, 0, -1, 0, 0, 0, false, false, None)
  }

  /** CreateSandbox rejects ids shorter than 12 before it does anything. */
  predicate Possible(s: State, step: Step) {
    match step
    case Spawn(op, id, _) => op != Death && (op == Create ==> |id| >= 12)
    case Act(t, _) => Enabled(s, t)
    case GiveUp(t) => t < |s.threads| && s.threads[t].pc.Waiting?
    case Write(r) =>
      r < |s.heap| && exists i :: 0 <= i < |s.heap[r].h.guests| && s.heap[r].h.guests[i].status.Executing?
    case Crash(r, pid) => r < |s.heap| && pid < |s.heap[r].h.guests| && !s.heap[r].h.guests[pid].status.Dead?
    case Exit(r, pid) =>
      r < |s.heap| && pid < |s.heap[r].h.guests| &&
      s.heap[r].h.guests[pid].status.Dead? && !s.heap[r].h.guests[pid].reported
  }

  function FirstPc(op: Op): Pc {
    match op
    case Create => Reserve
    case Wire => Wiring
    case _ => Waiting
  }

  /** A guest writes to the rootfs under its id. */
  function Wrote(f: Files): Files {
    if f.disk.At? then f.(disk := At(f.disk.version + 1), writes := f.writes + 1) else f
  }

  function Apply(s: State, step: Step): State
    requires Possible(s, step)
  {
    match step
    case Spawn(op, id, block) => s.(threads := s.threads + [NewThread(op, id, block, FirstPc(op))])
    case Act(t, o) => DoAct(s, t, o)
    case GiveUp(t) => PutThread(s, t, s.threads[t].(pc := Done))
    case Write(r) => PutFiles(s, s.heap[r].r.id, Wrote(FilesOf(s, s.heap[r].r.id)))
    case Crash(r, pid) =>
      var x := s.heap[r];
      PutEntry(s, r, x.(h := x.h.(guests := WithStatus(x.h.guests, pid, Dead))))
    case Exit(r, pid) =>
      var x := s.heap[r];
      var th := NewThread(Death, x.r.id, false, Record).(died := r, pid := pid, gen := x.h.guests[pid].gen);
      PutEntry(s, r, x.(h := x.h.(guests := x.h.guests[pid := x.h.guests[pid].(reported := true)])))
        .(threads := s.threads + [th])
  }

  /** A run: from an initial state, each state obtained from the one before by the step
      named beside it. */
  predicate Run(states: seq<State>, steps: seq<Step>) {
    && |states| == |steps| + 1
    && Init(states[0])
    && forall k :: 0 <= k < |steps| ==> Possible(states[k], steps[k]) && states[k + 1] == Apply(states[k], steps[k])
  }
}
