/**
 The two ways a restore can meet files its snapshot does not fit.  In one run a kill
 fails on an executing guest, which writes after a later stop has taken its snapshot.
 In the other no kill fails: a create that failed to clean up lets go of its id while a
 delete still works on what it left, the id is created again, and the delete unmounts
 the jail and removes the files of the new sandbox.
 */
module FirecrackerStray {
  import opened FirecrackerModel
  import opened FirecrackerMachine
  import opened FirecrackerInvariant
  import opened FirecrackerSteps
  import opened FirecrackerSafety

  const OK := Outcome(true, true, Missing, Missing, 0)
  const FAILED := Outcome(false, false, Garbled, Garbled, 0)

  predicate Path(s: State, steps: seq<Step>, s': State)
    decreases |steps|
  {
    if steps == [] then s == s'
    else Possible(s, steps[0]) && Path(Apply(s, steps[0]), steps[1..], s')
  }

  lemma {:induction false} Snoc(s0: State, p: seq<Step>, s: State, step: Step)
    requires Path(s0, p, s) && Possible(s, step)
    ensures Path(s0, p + [step], Apply(s, step))
    decreases |p|
  {
    if p != [] {
      Snoc(Apply(s0, p[0]), p[1..], s, step);
      assert (p + [step])[1..] == p[1..] + [step];
    } else {
      assert [step][1..] == [];
      assert p + [step] == [step];
    }
  }

  // One slot, one id, one operation at a time on its newest incarnation.

  const BOX: Id := "sandbox-0001"

  const S0 := State([Slot(FREE, false, None, Unknown)], map[], [], [], 0, map[])

  /** `before` are earlier incarnations, `past` the threads besides the acting one. */
  datatype Config = Config(sl: Slot, before: seq<Entry>, x: Sandbox, past: seq<Thread>, th: Thread, builds: nat)

  predicate Plain(c: Config) {
    c.x.r.id == BOX && c.th.ref == |c.before| && c.th.id == BOX && (NetPc(c.th) ==> c.th.slot == 0)
  }

  function St(c: Config): State {
    State([c.sl], map[BOX := |c.before|], c.before + [Entry(c.x.r, c.x.h)], c.past + [c.th], c.builds,
          map[BOX := c.x.f])
  }

  lemma Local(p: seq<Step>, c: Config, o: Outcome) returns (p': seq<Step>, c': Config)
    requires Path(S0, p, St(c)) && Plain(c) && LocalPc(c.th)
    ensures Path(S0, p', St(c'))
    ensures var res := DoLocal(c.th, c.x, o, true); c' == c.(th := res.0, x := res.1)
  {
    hide Path, DoLocal;
    var t := |c.past|;
    var res := DoLocal(c.th, c.x, o, true);
    Snoc(S0, p, St(c), Act(t, o));
    p', c' := p + [Act(t, o)], c.(th := res.0, x := res.1);
    LocalKeepsId(c.th, c.x, o, true);
    assert Box(St(c), c.th.ref) == c.x;
    assert (c.past + [c.th])[t := res.0] == c.past + [res.0];
    assert St(c).heap[c.th.ref := Entry(res.1.r, res.1.h)] == c.before + [Entry(res.1.r, res.1.h)];
    assert map[BOX := c.x.f][BOX := res.1.f] == map[BOX := res.1.f];
  }

  /** The steps that involve the slot, on a slot that nobody else uses. */
  function Shared(c: Config, o: Outcome): Config {
    var t := Some(|c.past|);
    match c.th.pc
    case Reserve => c.(th := c.th.(pc := PrepareJail), x := c.x.(r := c.x.r.(slot := 0)), sl := c.sl.(owner := BOX))
    case NetWait => c.(th := c.th.(pc := NetLocked), sl := c.sl.(lock := t))
    case NetLocked =>
      c.(th := c.th.(pc := NetWired), sl := c.sl.(wired := true, ns := Built(c.builds, false)), builds := c.builds + 1)
    case NetWired => c.(th := c.th.(pc := Capture), x := c.x.(h := c.x.h.(net := NetReady)), sl := c.sl.(lock := None))
    case ClearWait => c.(th := c.th.(pc := ClearHeld), sl := c.sl.(lock := t))
    case ClearHeld => c.(th := c.th.(pc := ClearGo))
    case ClearGo =>
      c.(th := c.th.(pc := TornDown, err := c.th.err || !o.ok), x := c.x.(h := c.x.h.(net := NoNet)),
         sl := c.sl.(wired := false, lock := None, ns := Unknown))
    case _ => c.(th := c.th.(pc := End), x := c.x.(r := MarkStopped(c.x.r)), sl := c.sl.(owner := FREE))
  }

  predicate Sharable(c: Config) {
    match c.th.pc
    case Reserve => c.th.op.Wake? && c.sl.owner == FREE
    case NetWait | ClearWait => c.sl.lock == None
    case NetLocked => !c.sl.wired
    case NetWired => c.sl.wired && !c.th.op.Wire? && !c.x.r.blockEgress
    case ClearHeld => c.sl.owner == BOX
    case ClearGo => true
    case Final => c.x.r.slot == 0 && c.sl.owner == BOX
    case _ => false
  }

  lemma ActsAt(c: Config)
    requires Plain(c) && Sharable(c)
    ensures Enabled(St(c), |c.past|) && St(c).threads[|c.past|] == c.th && St(c).heap[|c.before|] == Entry(c.x.r, c.x.h)
  { }

  lemma SharedNet(c: Config, o: Outcome)
    requires Plain(c) && Sharable(c) && o.ok && (NetPc(c.th) || HoldsNet(c.th))
    ensures Possible(St(c), Act(|c.past|, o)) && Apply(St(c), Act(|c.past|, o)) == St(Shared(c, o))
  {
    hide DoLocal, DoReserve, DoWakeSlot, DoWait, DoRecord, DoFinal, DoUntrack, DoWire, Enabled;
    ActsAt(c);
    var s', c' := Apply(St(c), Act(|c.past|, o)), Shared(c, o);
    assert s'.threads == St(c').threads;
    assert s'.heap == St(c').heap;
    assert s'.slots == St(c').slots;
  }

  lemma SharedTables(c: Config, o: Outcome)
    requires Plain(c) && Sharable(c) && o.ok && (c.th.pc.Reserve? || c.th.pc.Final?)
    ensures Possible(St(c), Act(|c.past|, o)) && Apply(St(c), Act(|c.past|, o)) == St(Shared(c, o))
  {
    hide DoLocal, DoReserve, DoWait, DoRecord, DoNetBuild, DoNetFinish, DoClear, DoClearCheck, DoUntrack, DoWire;
    ActsAt(c);
    var s', c' := Apply(St(c), Act(|c.past|, o)), Shared(c, o);
    assert Owners([c.sl]) == [c.sl.owner];
    assert s'.threads == St(c').threads;
    assert s'.heap == St(c').heap;
    assert s'.slots == St(c').slots;
  }

  lemma SharedStep(c: Config, o: Outcome)
    requires Plain(c) && Sharable(c) && o.ok
    ensures Possible(St(c), Act(|c.past|, o)) && Apply(St(c), Act(|c.past|, o)) == St(Shared(c, o))
  {
    assert NetPc(c.th) || HoldsNet(c.th) || c.th.pc.Reserve? || c.th.pc.Final?;
    hide Possible, Apply, St, Shared, Sharable;
    if NetPc(c.th) || HoldsNet(c.th) { SharedNet(c, o); } else { SharedTables(c, o); }
  }

  lemma Slotted(p: seq<Step>, c: Config, o: Outcome) returns (p': seq<Step>, c': Config)
    requires Path(S0, p, St(c)) && Plain(c) && Sharable(c) && o.ok
    ensures Path(S0, p', St(c')) && c' == Shared(c, o)
  {
    hide Path, Apply, Possible, St, Shared;
    SharedStep(c, o);
    Snoc(S0, p, St(c), Act(|c.past|, o));
    p', c' := p + [Act(|c.past|, o)], Shared(c, o);
  }

  /** Starts an operation on a sandbox nobody has claimed. */
  lemma Begin(p: seq<Step>, c: Config, op: Op) returns (p': seq<Step>, c': Config)
    requires Path(S0, p, St(c)) && Plain(c) && c.x.r.transition.Unclaimed? && (op.Stop? || op.Wake? || op.Delete?)
    ensures Path(S0, p', St(c'))
    ensures c' == c.(x := Sandbox(c.x.r.(transition := Want(op)), c.x.h.(holder := Some(|c.past| + 1)), c.x.f),
                     past := c.past + [c.th], th := NewThread(op, BOX, false, Begun).(ref := |c.before|))
  {
    hide Path;
    var t := |c.past| + 1;
    Snoc(S0, p, St(c), Spawn(op, BOX, false));
    var c1 := c.(past := c.past + [c.th], th := NewThread(op, BOX, false, Waiting));
    assert Apply(St(c), Spawn(op, BOX, false)) == St(c1);
    Snoc(S0, p + [Spawn(op, BOX, false)], St(c1), Act(t, OK));
    p' := p + [Spawn(op, BOX, false)] + [Act(t, OK)];
    c' := c.(x := Sandbox(c.x.r.(transition := Want(op)), c.x.h.(holder := Some(t)), c.x.f),
             past := c.past + [c.th], th := NewThread(op, BOX, false, Begun).(ref := |c.before|));
    assert Apply(St(c1), Act(t, OK)).threads == St(c').threads;
    assert Apply(St(c1), Act(t, OK)).heap == St(c').heap;
  }

  /** The network of an activation on a slot not wired yet. */
  lemma Wired(p: seq<Step>, c: Config) returns (p': seq<Step>, c': Config)
    requires Path(S0, p, St(c)) && Plain(c) && c.th.pc.PrepareJail? && (c.th.op.Create? || c.th.op.Wake?)
    requires c.x.r.slot == 0 && c.sl.lock == None && !c.sl.wired && !c.x.r.blockEgress
    requires c.x.f.disk.At? && c.x.f.snap.At?
    ensures Path(S0, p', St(c'))
    ensures c' == c.(th := c.th.(pc := Capture, slot := 0),
                     x := c.x.(h := c.x.h.(net := NetReady), f := c.x.f.(jail := true, lost := false)),
                     sl := c.sl.(wired := true, ns := Built(c.builds, false)), builds := c.builds + 1)
  {
    hide Path, St, DoBoot, DoStop, DoTeardown, DoFinish;
    p', c' := Local(p, c, OK);
    assert c' == c.(th := c.th.(pc := NetWait, slot := 0), x := c.x.(f := c.x.f.(jail := true, lost := false)));
    hide DoBuild;
    p', c' := Slotted(p', c', OK);
    p', c' := Slotted(p', c', OK);
    p', c' := Slotted(p', c', OK);
  }

  /** An activation, from the jail to the point where the guest is about to start. */
  lemma Activate(p: seq<Step>, c: Config) returns (p': seq<Step>, c': Config)
    requires Path(S0, p, St(c)) && Plain(c) && c.th.pc.PrepareJail? && (c.th.op.Create? || c.th.op.Wake?)
    requires c.x.r.slot == 0 && c.sl.lock == None && !c.sl.wired && !c.x.r.blockEgress && !c.x.r.transition.Deleting?
    requires c.x.f.disk.At? && c.x.f.snap.At?
    ensures Path(S0, p', St(c')) && Plain(c')
    ensures c'.th.pc.Boot? && c'.th.op == c.th.op && c'.th.cold == c.x.r.mustColdBoot
    ensures c'.past == c.past && c'.before == c.before && c'.sl == c.sl.(wired := true, ns := Built(c.builds, false))
    ensures c'.x.f == c.x.f.(jail := true, lost := false)
    ensures c'.x.h == c.x.h.(net := NetReady, guests := c.x.h.guests + [Guest(c.x.r.generation, Loaded, false, false)])
    ensures c'.x.r == c.x.r.(process := Some(|c.x.h.guests|), mustColdBoot := true)
  {
    hide Path, St, DoStop, DoTeardown, DoFinish, SetLast, Alive;
    p', c' := Wired(p, c);
    p', c' := Spawned(p', c');
    p', c' := Local(p', c', OK);
    p', c' := Local(p', c', OK);
  }

  /** The microVM started and its handle published. */
  lemma Spawned(p: seq<Step>, c: Config) returns (p': seq<Step>, c': Config)
    requires Path(S0, p, St(c)) && Plain(c) && c.th.pc.Capture? && !c.x.r.transition.Deleting?
    ensures Path(S0, p', St(c'))
    ensures c' == c.(th := c.th.(pc := WaitSocket, gen := c.x.r.generation, pid := |c.x.h.guests|),
                     x := Sandbox(c.x.r.(process := Some(|c.x.h.guests|)),
                                  c.x.h.(guests := c.x.h.guests + [Guest(c.x.r.generation, Loaded, false, false)]),
                                  c.x.f))
  {
    hide Path, St, DoBoot, DoStop, DoTeardown, DoFinish;
    p', c' := Local(p, c, OK);
    p', c' := Local(p', c', OK);
    p', c' := Local(p', c', OK);
  }

  /** The rest of an activation that succeeds, up to the released claim. */
  lemma Complete(p: seq<Step>, c: Config) returns (p': seq<Step>, c': Config)
    requires Path(S0, p, St(c)) && Plain(c) && c.th.pc.Boot? && (c.th.op.Create? || c.th.op.Wake?)
    requires Alive(c.x) && !c.x.r.transition.Deleting?
    ensures Path(S0, p', St(c')) && Plain(c') && c'.before == c.before
    ensures c'.th.pc.Done? && c'.past == c.past && c'.sl == c.sl
    ensures c'.x == Sandbox(c.x.r.(proxy := true, running := true, stopped := c.th.op.Create? && c.x.r.stopped,
                                    transition := Unclaimed),
                            SetLast(c.x, Executing).h.(holder := None), c.x.f)
  {
    hide Path, St, DoStop, DoTeardown, DoBuild;
    p', c' := Local(p, c, OK);
    assert c' == c.(th := c.th.(pc := NewProxy), x := SetLast(c.x, Executing));
    p', c' := Serve(p', c');
  }

  lemma Serve(p: seq<Step>, c: Config) returns (p': seq<Step>, c': Config)
    requires Path(S0, p, St(c)) && Plain(c) && c.th.pc.NewProxy?
    requires (c.th.op.Create? || c.th.op.Wake?) && !c.x.r.transition.Deleting?
    ensures Path(S0, p', St(c')) && Plain(c') && c'.before == c.before
    ensures c'.th.pc.Done? && c'.past == c.past && c'.sl == c.sl
    ensures c'.x == Sandbox(c.x.r.(proxy := true, running := true, stopped := c.th.op.Create? && c.x.r.stopped,
                                    transition := Unclaimed),
                            c.x.h.(holder := None), c.x.f)
  {
    hide Path, St, DoStop, DoTeardown, DoBuild, SetLast, Alive;
    p', c' := Local(p, c, OK);
    p', c' := Local(p', c', OK);
    p', c' := Local(p', c', OK);
    assert c' == c.(th := c.th.(pc := Up), x := c.x.(r := c.x.r.(proxy := true)));
    p', c' := Report(p', c');
  }

  /** The section that ends an activation. */
  lemma Report(p: seq<Step>, c: Config) returns (p': seq<Step>, c': Config)
    requires Path(S0, p, St(c)) && Plain(c) && c.th.pc.Up? && (c.th.op.Create? || c.th.op.Wake?)
    ensures Path(S0, p', St(c')) && Plain(c') && c'.before == c.before
    ensures c'.th.pc.Done? && c'.past == c.past && c'.sl == c.sl
    ensures c'.x == Sandbox(c.x.r.(running := true, stopped := c.th.op.Create? && c.x.r.stopped,
                                    transition := Unclaimed),
                            c.x.h.(holder := None), c.x.f)
  {
    hide Path, St, DoStop, DoTeardown, DoBuild, SetLast, Alive;
    p', c' := Local(p, c, OK);
    if c.th.op.Wake? { p', c' := Local(p', c', OK); }
  }

  /** The kill and the cleanup of the jail, the handles taken. */
  lemma Finished(p: seq<Step>, c: Config, kill: Outcome) returns (p': seq<Step>, c': Config)
    requires Path(S0, p, St(c)) && Plain(c) && c.th.pc.Kill? && c.th.slot == 0
    requires c.th.taken.Some? && c.th.taken.value < |c.x.h.guests|
    ensures Path(S0, p', St(c')) && Plain(c') && c'.th.pc.ClearWait?
    ensures var g := c.x.h.guests; var i := c.th.taken.value;
      && c'.x.h == c.x.h.(guests := if kill.ok then WithStatus(g, i, Dead) else g)
      && c'.x.f == c.x.f.(jail := false, stray := c.x.f.stray || (!kill.ok && g[i].status.Executing?))
      && c' == c.(x := c.x.(h := c'.x.h, f := c'.x.f), th := c.th.(pc := ClearWait, err := c'.th.err))
  {
    hide Path, St, DoBuild, DoBoot, DoStop, DoFinish;
    p', c' := Local(p, c, kill);
    p', c' := Local(p', c', OK);
  }

  /** A teardown up to the slot's network. */
  lemma KillGuest(p: seq<Step>, c: Config, kill: Outcome) returns (p': seq<Step>, c': Config)
    requires Path(S0, p, St(c)) && Plain(c) && c.th.pc.Teardown? && c.th.op.Stop? && c.x.r.slot == 0
    requires c.x.r.process.Some? && c.x.r.process.value < |c.x.h.guests|
    ensures Path(S0, p', St(c')) && Plain(c') && c'.before == c.before
    ensures c'.th.pc.ClearWait? && c'.th.op.Stop? && c'.past == c.past && c'.sl == c.sl
    ensures c'.x.r == TakeHandles(c.x.r)
    ensures var g := MarkTorn(c.x.h.guests, c.x.r.generation); var i := c.x.r.process.value;
      && c'.x.h == c.x.h.(net := c'.x.h.net, guests := if kill.ok then WithStatus(g, i, Dead) else g)
      && c'.x.f == c.x.f.(jail := false, stray := c.x.f.stray || (!kill.ok && g[i].status.Executing?))
  {
    hide Path, St, MarkTorn, DoBuild, DoBoot, DoStop, DoFinish;
    p', c' := Local(p, c, OK);
    p', c' := Finished(p', c', kill);
  }

  lemma Unwire(p: seq<Step>, c: Config) returns (p': seq<Step>, c': Config)
    requires Path(S0, p, St(c)) && Plain(c) && c.th.pc.ClearWait? && c.sl.owner == BOX && c.sl.lock == None
    ensures Path(S0, p', St(c'))
    ensures c' == c.(th := c.th.(pc := TornDown), x := c.x.(h := c.x.h.(net := NoNet)),
                     sl := Slot(BOX, false, None, Unknown))
  {
    hide Path, St;
    p', c' := Slotted(p, c, OK);
    assert c' == c.(th := c.th.(pc := ClearHeld), sl := c.sl.(lock := Some(|c.past|)));
    p', c' := Slotted(p', c', OK);
    assert c' == c.(th := c.th.(pc := ClearGo), sl := c.sl.(lock := Some(|c.past|)));
    p', c' := Slotted(p', c', OK);
  }

  /** The rest of a stop: the slot's network, and the section that ends it. */
  lemma Leave(p: seq<Step>, c: Config) returns (p': seq<Step>, c': Config)
    requires Path(S0, p, St(c)) && Plain(c) && c.th.pc.ClearWait? && c.th.op.Stop?
    requires c.x.r.slot == 0 && c.sl.owner == BOX && c.sl.lock == None
    ensures Path(S0, p', St(c')) && Plain(c') && c'.before == c.before && c'.th.pc.Done? && c'.past == c.past
    ensures c'.sl == Slot(FREE, false, None, Unknown)
    ensures c'.x == Sandbox(MarkStopped(c.x.r).(transition := Unclaimed), c.x.h.(net := NoNet, holder := None), c.x.f)
  {
    hide Path, St, DoBuild, DoBoot, DoStop, DoTeardown;
    p', c' := Unwire(p, c);
    p', c' := Local(p', c', OK);
    p', c' := Slotted(p', c', OK);
    p', c' := Local(p', c', OK);
  }

  /** reserveSandbox, for the first time. */
  lemma First() returns (p: seq<Step>, c: Config)
    ensures Path(S0, p, St(c)) && Plain(c)
    ensures c == Config(Slot(BOX, false, None, Unknown), [],
                        Sandbox(Fresh(BOX, false, 0), Host(Some(0), [], NoNet), NO_FILES.(disk := At(0))),
                        [], NewThread(Create, BOX, false, CloneSnapshot), 0)
  {
    var s1 := Apply(S0, Spawn(Create, BOX, false));
    Snoc(S0, [], S0, Spawn(Create, BOX, false));
    p := [] + [Spawn(Create, BOX, false)];
    Snoc(S0, p, s1, Act(0, OK));
    p := p + [Act(0, OK)];
    var s2 := Apply(s1, Act(0, OK));
    Snoc(S0, p, s2, Act(0, OK));
    p := p + [Act(0, OK)];
    c := Config(Slot(BOX, false, None, Unknown), [],
                Sandbox(Fresh(BOX, false, 0), Host(Some(0), [], NoNet), NO_FILES.(disk := At(0))),
                [], NewThread(Create, BOX, false, CloneSnapshot), 0);
    hide Path;
    assert Owners(S0.slots) == [FREE];
    assert Apply(s2, Act(0, OK)).threads == St(c).threads;
    assert Apply(s2, Act(0, OK)).heap == St(c).heap;
    assert Apply(s2, Act(0, OK)) == St(c);
  }

  /** A stop up to the disk-space check. */
  lemma StartStop(p: seq<Step>, c: Config) returns (p': seq<Step>, c': Config)
    requires Path(S0, p, St(c)) && Plain(c) && c.th.pc.Done?
    requires c.x.r.running && !c.x.r.stopped && c.x.r.transition.Unclaimed?
    ensures Path(S0, p', St(c')) && Plain(c') && c'.before == c.before
    ensures c'.th.pc.Pause? && c'.th.op.Stop? && c'.sl == c.sl
    ensures c'.x == Sandbox(c.x.r.(transition := Stopping), c.x.h.(holder := Some(|c.past| + 1)), c.x.f)
  {
    hide Path, St, DoBuild, DoBoot, DoTeardown, DoFinish;
    p', c' := Begin(p, c, Stop);
    p', c' := Local(p', c', OK);
    p', c' := Local(p', c', OK);
  }

  /** A running sandbox whose only handle is to its last microVM. */
  predicate Running(c: Config) {
    && Plain(c) && c.th.pc.Done? && c.x.r.running && !c.x.r.stopped && c.x.r.transition.Unclaimed?
    && c.x.r.slot == 0 && c.sl.owner == BOX && c.sl.lock == None && !c.x.r.blockEgress
    && |c.x.h.guests| > 0 && c.x.r.process == Some(|c.x.h.guests| - 1)
    && Last(c.x) == Guest(c.x.r.generation, Executing, false, false)
  }

  /** A stop whose pause and resume both fail and whose kill leaves the guest executing. */
  lemma BotchedStop(p: seq<Step>, c: Config) returns (p': seq<Step>, c': Config)
    requires Path(S0, p, St(c)) && Running(c)
    ensures Path(S0, p', St(c')) && Plain(c') && c'.before == c.before && c'.th.pc.Done?
    ensures c'.sl == Slot(FREE, false, None, Unknown)
    ensures c'.x.r == MarkStopped(TakeHandles(c.x.r))
    ensures c'.x.h == c.x.h.(net := NoNet, holder := None, guests := MarkTorn(c.x.h.guests, c.x.r.generation))
    ensures c'.x.f == c.x.f.(jail := false, stray := true)
  {
    hide Path, St, DoBuild, DoBoot, DoTeardown, DoFinish;
    p', c' := StartStop(p, c);
    p', c' := Local(p', c', FAILED);
    p', c' := Local(p', c', FAILED);
    hide DoStop;
    p', c' := KillGuest(p', c', FAILED);
    p', c' := Leave(p', c');
  }

  /** The pause, the snapshot and the pin taken off. */
  lemma Snapshotted(p: seq<Step>, c: Config) returns (p': seq<Step>, c': Config)
    requires Path(S0, p, St(c)) && Plain(c) && c.th.pc.Pause? && Alive(c.x)
    ensures Path(S0, p', St(c')) && Plain(c')
    ensures c' == c.(th := c.th.(pc := Teardown),
                     x := SetLast(c.x, Paused).(r := c.x.r.(mustColdBoot := false),
                                                f := c.x.f.(snap := c.x.f.disk, writes := 0)))
  {
    hide Path, St, DoBuild, DoBoot, DoTeardown, DoFinish;
    p', c' := Local(p, c, OK);
    p', c' := Local(p', c', OK);
    p', c' := Local(p', c', OK);
  }

  /** A stop in which everything works: the snapshot describes the rootfs. */
  lemma CleanStop(p: seq<Step>, c: Config) returns (p': seq<Step>, c': Config)
    requires Path(S0, p, St(c)) && Running(c)
    ensures Path(S0, p', St(c')) && Plain(c') && c'.before == c.before && c'.th.pc.Done?
    ensures c'.sl == Slot(FREE, false, None, Unknown)
    ensures c'.x.r == MarkStopped(TakeHandles(c.x.r)).(mustColdBoot := false)
    ensures c'.x.f == c.x.f.(snap := c.x.f.disk, writes := 0, jail := false) && |c'.x.h.guests| == |c.x.h.guests|
    ensures forall i :: 0 <= i < |c.x.h.guests| - 1 ==> c'.x.h.guests[i].status == c.x.h.guests[i].status
  {
    hide Path, St, DoBuild, DoBoot, DoTeardown, DoFinish, DoStop;
    p', c' := StartStop(p, c);
    p', c' := Snapshotted(p', c');
    p', c' := KillGuest(p', c', OK);
    p', c' := Leave(p', c');
  }

  /** A wake up to its boot request. */
  lemma StartWake(p: seq<Step>, c: Config) returns (p': seq<Step>, c': Config)
    requires Path(S0, p, St(c)) && Plain(c) && c.th.pc.Done?
    requires c.x.r.stopped && !c.x.r.running && c.x.r.transition.Unclaimed?
    requires c.sl == Slot(FREE, false, None, Unknown) && c.x.f.disk.At? && c.x.f.snap.At? && !c.x.r.blockEgress
    ensures Path(S0, p', St(c')) && Plain(c') && c'.before == c.before
    ensures c'.th.pc.Boot? && c'.th.op.Wake? && c'.th.cold == c.x.r.mustColdBoot
    ensures c'.sl.owner == BOX && c'.sl.lock == None
    ensures c'.x.f == c.x.f.(jail := true, lost := false)
    ensures c'.x.h == c.x.h.(net := NetReady, holder := Some(|c.past| + 1),
                             guests := c.x.h.guests + [Guest(c.x.r.generation, Loaded, false, false)])
    ensures c'.x.r == c.x.r.(transition := Waking, slot := 0, process := Some(|c.x.h.guests|), mustColdBoot := true)
  {
    hide Path, St, DoBuild, DoBoot, DoTeardown, DoFinish, DoStop;
    p', c' := Begin(p, c, Wake);
    p', c' := Local(p', c', OK);
    p', c' := Slotted(p', c', OK);
    p', c' := Activate(p', c');
  }

  lemma Scribble(p: seq<Step>, c: Config, i: nat) returns (p': seq<Step>, c': Config)
    requires Path(S0, p, St(c)) && Plain(c) && i < |c.x.h.guests| && c.x.h.guests[i].status == Executing
    ensures Path(S0, p', St(c')) && c' == c.(x := c.x.(f := Wrote(c.x.f)))
  {
    hide Path;
    var r := |c.before|;
    assert St(c).heap[r] == Entry(c.x.r, c.x.h);
    Snoc(S0, p, St(c), Write(r));
    p', c' := p + [Write(r)], c.(x := c.x.(f := Wrote(c.x.f)));
    assert map[BOX := c.x.f][BOX := Wrote(c.x.f)] == map[BOX := Wrote(c.x.f)];
  }

  lemma {:induction false} Unfold(s: State, steps: seq<Step>, s': State) returns (states: seq<State>)
    requires Path(s, steps, s')
    ensures |states| == |steps| + 1 && states[0] == s && states[|steps|] == s'
    ensures forall k :: 0 <= k < |steps| ==>
      Possible(states[k], steps[k]) && states[k + 1] == Apply(states[k], steps[k])
    decreases |steps|
  {
    if steps == [] {
      states := [s];
    } else {
      var rest := Unfold(Apply(s, steps[0]), steps[1..], s');
      states := [s] + rest;
      hide Apply, Possible;
      forall k | 0 <= k < |steps| ensures Possible(states[k], steps[k]) && states[k + 1] == Apply(states[k], steps[k]) {
        if k > 0 { assert steps[k] == steps[1..][k - 1] && states[k] == rest[k - 1] && states[k + 1] == rest[k]; }
      }
    }
  }

  /** A path and one more step, as a run that remembers nothing it did not end with. */
  lemma Close(p: seq<Step>, s: State, last: Step) returns (states: seq<State>, steps: seq<Step>)
    requires Path(S0, p, s) && Possible(s, last)
    ensures Run(states, steps) && |steps| > 0 && states[|steps| - 1] == s && steps[|steps| - 1] == last
    ensures Disowned(states, steps, |steps| - 1, BOX) <==> FilesOf(s, BOX).late
    ensures TakenAway(states, steps, |steps| - 1, BOX) <==> FilesOf(s, BOX).lost
    ensures KillFailed(states, steps, |steps| - 1, BOX) <==> FilesOf(s, BOX).stray
  {
    hide Path, Apply, Possible, Disowned, KillFailed, TakenAway, FilesOf, FailedKill, Disowns;
    var run := Unfold(S0, p, s);
    states, steps := run + [Apply(s, last)], p + [last];
    forall k | 0 <= k < |steps| ensures Possible(states[k], steps[k]) && states[k + 1] == Apply(states[k], steps[k]) {
      if k < |p| { assert states[k] == run[k] && states[k + 1] == run[k + 1] && steps[k] == p[k]; }
    }
    assert Run(states, steps);
    hide Run;
    PastIsRun(states, steps, |steps| - 1, BOX);
  }

  // ---- a guest that survives its kill -----------------------------------------

  /** Up to a running sandbox beside which an earlier guest of it still executes. */
  lemma TwoGuests() returns (p: seq<Step>, c: Config)
    ensures Path(S0, p, St(c)) && Running(c) && c.before == []
    ensures c.x.f.disk == At(0) && c.x.f.stray && !c.x.f.late && !c.x.f.lost
    ensures |c.x.h.guests| == 2 && c.x.h.guests[0].status == Executing
  {
    hide Path, St, DoBoot, DoStop, DoTeardown, DoFinish;
    p, c := First();
    p, c := Local(p, c, OK);
    assert c.x.f == NO_FILES.(disk := At(0), snap := At(0));
    hide DoLocal;
    p, c := Activate(p, c);
    p, c := Complete(p, c);
    assert c.x.h.guests == [Guest(0, Executing, false, false)];
    p, c := BotchedStop(p, c);
    p, c := StartWake(p, c);
    p, c := Complete(p, c);
  }

  /** A failed kill is not harmless: in this run, in which every cleanup succeeds, a load
      is issued on a rootfs that the snapshot does not describe. */
  lemma StrayRestore() returns (states: seq<State>, steps: seq<Step>)
    ensures Run(states, steps) && |steps| > 0
    ensures LoadIssued(states[|steps| - 1], steps[|steps| - 1], 0)
    ensures 0 < |states[|steps| - 1].heap| && states[|steps| - 1].heap[0].r.id == BOX
    ensures !Disowned(states, steps, |steps| - 1, BOX) && !TakenAway(states, steps, |steps| - 1, BOX)
    ensures var f := FilesOf(states[|steps| - 1], BOX); f.disk.At? && f.snap.At? && f.disk != f.snap
  {
    hide Path, DoLocal, Disowned, KillFailed, TakenAway;
    var p, c := TwoGuests();
    p, c := CleanStop(p, c);
    p, c := Scribble(p, c, 0);
    p, c := StartWake(p, c);
    states, steps := Close(p, St(c), Act(|c.past|, FAILED));
  }

  // ---- a create that disowns a claimed state ---------------------------------------

  /** A teardown of a sandbox with no microVM, up to the jail. */
  lemma TakeNothing(p: seq<Step>, c: Config) returns (p': seq<Step>, c': Config)
    requires Path(S0, p, St(c)) && Plain(c) && c.th.pc.Mark?
    requires c.x.r.slot == 0 && c.x.r.process == None && c.x.h.net.NoNet?
    ensures Path(S0, p', St(c')) && Plain(c')
    ensures c'.th == c.th.(pc := CleanHost, taken := None, slot := 0, err := false)
    ensures c'.x.r == TakeHandles(MarkDeleting(c.x.r)) && c'.x.f == c.x.f
    ensures c'.x.h == c.x.h.(guests := MarkTorn(c.x.h.guests, c.x.r.generation))
    ensures c' == c.(th := c'.th, x := c'.x)
  {
    hide Path, St, MarkTorn, DoBuild, DoBoot, DoStop, DoFinish;
    p', c' := Local(p, c, OK);
    p', c' := Local(p', c', OK);
    p', c' := Local(p', c', OK);
  }

  lemma GiveUpClaim(p: seq<Step>, c: Config) returns (p': seq<Step>, c': Config)
    requires Path(S0, p, St(c)) && Plain(c) && c.th.pc.TornDown? && c.th.op.Create?
    ensures Path(S0, p', St(c')) && Plain(c') && c'.th.pc.LateUntrack?
    ensures c' == c.(th := c'.th, x := c.x.(r := c.x.r.(transition := Unclaimed), h := c.x.h.(holder := None)))
  {
    hide Path, St, DoBuild, DoBoot, DoStop, DoTeardown;
    p', c' := Local(p, c, OK);
    p', c' := Local(p', c', FAILED);
    p', c' := Local(p', c', OK);
  }

  /** The cleanup of a failed create, up to its last step: the data directory cannot be
      removed, and the claim is given back. */
  lemma LeaveBehind(p: seq<Step>, c: Config) returns (p': seq<Step>, c': Config)
    requires Path(S0, p, St(c)) && Plain(c) && c.th.pc.CleanHost? && c.th.op.Create? && c.th.slot == 0
    requires c.sl == Slot(BOX, false, None, Unknown)
    ensures Path(S0, p', St(c')) && Plain(c') && c'.th.pc.LateUntrack?
    ensures c'.x == Sandbox(c.x.r.(transition := Unclaimed), c.x.h.(net := NoNet, holder := None),
                            c.x.f.(jail := false))
    ensures c' == c.(th := c'.th, x := c'.x)
  {
    hide Path, St, DoBuild, DoBoot, DoStop, DoFinish;
    p', c' := Local(p, c, OK);
    hide DoTeardown;
    p', c' := Unwire(p', c');
    p', c' := GiveUpClaim(p', c');
  }

  /** A create fails at its snapshot and leaves its files; a delete claims what it left. */
  lemma Claimed() returns (p: seq<Step>, c: Config)
    ensures Path(S0, p, St(c)) && Plain(c) && c.before == [] && c.sl == Slot(BOX, false, None, Unknown)
    ensures |c.past| == 1 && c.past[0].pc.LateUntrack? && c.past[0].ref == 0
    ensures c.th.pc.CleanHost? && c.th.op.Delete? && c.th.slot == 0 && !c.th.err
    ensures c.x.r.slot == 0 && c.x.r.id == BOX && c.x.r.transition.Deleting? && !c.x.f.stray
  {
    hide Path, St, DoBoot, DoStop, DoTeardown, DoFinish;
    p, c := First();
    p, c := Local(p, c, FAILED);
    hide DoBuild;
    p, c := TakeNothing(p, c);
    p, c := LeaveBehind(p, c);
    p, c := Begin(p, c, Delete);
    p, c := Local(p, c, OK);
    p, c := TakeNothing(p, c);
  }

  /** The create lets go of the id while the delete is at work, and the id is created again. */
  lemma Rebirth(p: seq<Step>, c: Config) returns (p': seq<Step>, c': Config)
    requires Path(S0, p, St(c)) && Plain(c) && c.before == [] && c.sl == Slot(BOX, false, None, Unknown)
    requires |c.past| == 1 && c.past[0].pc.LateUntrack? && c.past[0].ref == 0
    requires c.x.r.slot == 0 && c.x.r.transition.Deleting?
    ensures Path(S0, p', St(c')) && Plain(c')
    ensures c' == Config(c.sl, [Entry(c.x.r, c.x.h)],
                         Sandbox(Fresh(BOX, false, 0), Host(Some(2), [], NoNet), c.x.f.(late := true)),
                         [c.past[0].(pc := Done), c.th],
                         NewThread(Create, BOX, false, CloneRootfs).(ref := 1), c.builds)
  {
    hide Path, DoLocal;
    var e := Entry(c.x.r, c.x.h);
    var s1 := State([Slot(FREE, false, None, Unknown)], map[], [e], [c.past[0].(pc := Done), c.th], c.builds,
                    map[BOX := c.x.f.(late := true)]);
    assert Owners([c.sl]) == [BOX];
    Snoc(S0, p, St(c), Act(0, OK));
    assert Apply(St(c), Act(0, OK)).slots == s1.slots;
    assert Apply(St(c), Act(0, OK)).threads == s1.threads;
    assert Apply(St(c), Act(0, OK)).files == s1.files;
    assert Apply(St(c), Act(0, OK)) == s1;
    p' := p + [Act(0, OK)];
    var s2 := s1.(threads := s1.threads + [NewThread(Create, BOX, false, Reserve)]);
    Snoc(S0, p', s1, Spawn(Create, BOX, false));
    p' := p' + [Spawn(Create, BOX, false)];
    c' := Config(c.sl, [e], Sandbox(Fresh(BOX, false, 0), Host(Some(2), [], NoNet), c.x.f.(late := true)),
                 [c.past[0].(pc := Done), c.th], NewThread(Create, BOX, false, CloneRootfs).(ref := 1), c.builds);
    assert Owners(s2.slots) == [FREE];
    Snoc(S0, p', s2, Act(2, OK));
    assert Apply(s2, Act(2, OK)).threads == St(c').threads;
    assert Apply(s2, Act(2, OK)).heap == St(c').heap;
    assert Apply(s2, Act(2, OK)) == St(c');
    p' := p' + [Act(2, OK)];
  }

  /** The new sandbox is brought up to its boot request. */
  lemma Raised(p: seq<Step>, c: Config) returns (p': seq<Step>, c': Config)
    requires Path(S0, p, St(c)) && Plain(c) && c.th.pc.CloneRootfs? && c.th.op.Create?
    requires c.sl == Slot(BOX, false, None, Unknown)
    requires c.x.r == Fresh(BOX, false, 0)
    ensures Path(S0, p', St(c')) && Plain(c') && c'.th.pc.Boot? && !c'.th.cold
    ensures c'.before == c.before && c'.past == c.past && c'.sl.owner == BOX && c'.sl.lock == None
    ensures c'.x.f.late == c.x.f.late && c'.x.f.stray == c.x.f.stray
  {
    hide Path, St, DoBoot, DoStop, DoTeardown, DoFinish;
    p', c' := Local(p, c, OK);
    p', c' := Local(p', c', OK);
    hide DoLocal, DoBuild;
    p', c' := Activate(p', c');
  }

  /** A step of a thread of the earlier incarnation, on that and on the files it shares. */
  lemma Elsewhere(p: seq<Step>, c: Config, o: Outcome) returns (p': seq<Step>, c': Config)
    requires Path(S0, p, St(c)) && |c.before| == 1 && c.before[0].r.id == BOX && c.x.r.id == BOX
    requires |c.past| == 2 && c.past[1].ref == 0 && LocalPc(c.past[1])
    ensures Path(S0, p', St(c'))
    ensures var res := DoLocal(c.past[1], Sandbox(c.before[0].r, c.before[0].h, c.x.f), o, false);
      c' == c.(past := [c.past[0], res.0], before := [Entry(res.1.r, res.1.h)], x := c.x.(f := res.1.f))
  {
    hide Path, DoLocal;
    var x := Sandbox(c.before[0].r, c.before[0].h, c.x.f);
    var res := DoLocal(c.past[1], x, o, false);
    LocalKeepsId(c.past[1], x, o, false);
    Snoc(S0, p, St(c), Act(1, o));
    p' := p + [Act(1, o)];
    c' := c.(past := [c.past[0], res.0], before := [Entry(res.1.r, res.1.h)], x := c.x.(f := res.1.f));
    assert Box(St(c), 0) == x;
    assert St(c).threads[1 := res.0] == St(c').threads;
    assert St(c).heap[0 := Entry(res.1.r, res.1.h)] == St(c').heap;
    assert map[BOX := c.x.f][BOX := res.1.f] == map[BOX := res.1.f];
  }

  lemma StaleLock(c: Config)
    requires |c.before| == 1 && |c.past| == 2
    requires c.past[1].ref == 0 && c.past[1].pc.ClearWait? && c.past[1].slot == 0 && c.sl.lock == None
    ensures Possible(St(c), Act(1, OK))
    ensures Apply(St(c), Act(1, OK))
      == St(c.(past := [c.past[0], c.past[1].(pc := ClearHeld)], sl := c.sl.(lock := Some(1))))
  {
    hide DoLocal, DoReserve, DoWakeSlot, DoWait, DoFinal, DoUntrack, DoNetBuild, DoNetFinish, DoClear;
    var c1 := c.(past := [c.past[0], c.past[1].(pc := ClearHeld)], sl := c.sl.(lock := Some(1)));
    assert Apply(St(c), Act(1, OK)).threads == St(c1).threads;
  }

  lemma StaleCheck(c: Config)
    requires |c.before| == 1 && c.before[0].r.id == BOX && c.x.r.id == BOX && |c.past| == 2
    requires c.past[1].ref == 0 && c.past[1].pc.ClearHeld? && c.past[1].slot == 0 && c.sl.owner == BOX
    ensures Possible(St(c), Act(1, OK))
    ensures Apply(St(c), Act(1, OK))
      == St(c.(past := [c.past[0], c.past[1].(pc := TornDown)], sl := c.sl.(lock := None)))
  {
    hide DoLocal, DoReserve, DoWakeSlot, DoWait, DoFinal, DoUntrack, DoNetBuild, DoNetFinish, DoClear;
    var c1 := c.(past := [c.past[0], c.past[1].(pc := TornDown)], sl := c.sl.(lock := None));
    assert Apply(St(c), Act(1, OK)).threads == St(c1).threads;
  }

  /** clearSlotNetwork finds the slot in the hands of the new incarnation and lets it be. */
  lemma SlotSpared(p: seq<Step>, c: Config) returns (p': seq<Step>, c': Config)
    requires Path(S0, p, St(c)) && |c.before| == 1 && c.before[0].r.id == BOX && c.x.r.id == BOX
    requires |c.past| == 2 && c.past[1].ref == 0 && c.past[1].pc.ClearWait? && c.past[1].slot == 0
    requires c.sl.owner == BOX && c.sl.lock == None
    ensures Path(S0, p', St(c')) && c' == c.(past := [c.past[0], c.past[1].(pc := TornDown)])
  {
    hide Path, Apply, Possible, St;
    var c1 := c.(past := [c.past[0], c.past[1].(pc := ClearHeld)], sl := c.sl.(lock := Some(1)));
    StaleLock(c);
    Snoc(S0, p, St(c), Act(1, OK));
    StaleCheck(c1);
    Snoc(S0, p + [Act(1, OK)], St(c1), Act(1, OK));
    p', c' := p + [Act(1, OK)] + [Act(1, OK)], c.(past := [c.past[0], c.past[1].(pc := TornDown)]);
  }

  /** The delete goes on where it was: it unmounts the jail and removes the data directory. */
  lemma StaleDelete(p: seq<Step>, c: Config) returns (p': seq<Step>, c': Config)
    requires Path(S0, p, St(c)) && |c.before| == 1 && c.before[0].r.id == BOX && c.x.r.id == BOX
    requires |c.past| == 2 && c.past[1].ref == 0 && c.past[1].pc.CleanHost? && c.past[1].slot == 0
    requires c.past[1].op.Delete? && c.sl.owner == BOX && c.sl.lock == None
    ensures Path(S0, p', St(c')) && c'.th == c.th && |c'.before| == 1 && |c'.past| == 2
    ensures c'.x == c.x.(f := c.x.f.(jail := false, disk := Missing, snap := Missing, writes := 0, lost := c'.x.f.lost))
  {
    hide Path, St, DoBuild, DoBoot, DoStop;
    p', c' := Elsewhere(p, c, OK);
    hide DoTeardown;
    p', c' := SlotSpared(p', c');
    p', c' := Elsewhere(p', c', OK);
    p', c' := Elsewhere(p', c', OK);
  }

  /** Neither is untracking a claimed state: in this run, in which no kill fails, a load is issued
      with the rootfs and the snapshot removed and the jail unmounted, by a delete of an
      earlier incarnation. */
  lemma StaleRestore() returns (states: seq<State>, steps: seq<Step>)
    ensures Run(states, steps) && |steps| > 0
    ensures LoadIssued(states[|steps| - 1], steps[|steps| - 1], 1)
    ensures 1 < |states[|steps| - 1].heap| && states[|steps| - 1].heap[1].r.id == BOX && Tracked(states[|steps| - 1], 1)
    ensures !KillFailed(states, steps, |steps| - 1, BOX)
    ensures var f := FilesOf(states[|steps| - 1], BOX); f.disk.Missing? && f.snap.Missing? && !f.jail
  {
    hide Path, DoLocal, Disowned, KillFailed, TakenAway;
    var p, c := Claimed();
    p, c := Rebirth(p, c);
    p, c := Raised(p, c);
    p, c := StaleDelete(p, c);
    states, steps := Close(p, St(c), Act(2, FAILED));
  }
}
