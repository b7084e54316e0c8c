/**
 * The in-memory runner registry and the placement of one create: pick the least
 * used eligible runner, and move on only when a runner refused for capacity.
 */
module Placement {
  import FirecrackerRuntime
  import RunnerControl

  type Name = string
  type Id = string

  datatype Option<T> = None | Some(value: T)

  // ---------------------------------------------------------------------------
  // Order on runner ids, byte by byte.

  predicate Less(a: Name, b: Name)
    decreases |a|
  {
    if b == [] then false
    else if a == [] then true
    else a[0] < b[0] || (a[0] == b[0] && Less(a[1..], b[1..]))
  }

  lemma {:induction false} LessTransitive(a: Name, b: Name, c: Name)
    requires Less(a, b) && Less(b, c)
    ensures Less(a, c)
    decreases |a|
  {
    if a != [] && a[0] == b[0] && b[0] == c[0] { LessTransitive(a[1..], b[1..], c[1..]); }
  }

  lemma {:induction false} LessTotal(a: Name, b: Name)
    ensures Less(a, b) || Less(b, a) || a == b
    ensures !(Less(a, b) && Less(b, a)) && !Less(a, a)
    decreases |a|
  {
    if a != [] && b != [] && a[0] == b[0] {
      LessTotal(a[1..], b[1..]);
      assert a == [a[0]] + a[1..] && b == [b[0]] + b[1..];
    }
    if a != [] { LessIrreflexive(a); }
  }

  lemma {:induction false} LessIrreflexive(a: Name)
    ensures !Less(a, a)
    decreases |a|
  {
    if a != [] { LessIrreflexive(a[1..]); }
  }

  // ---------------------------------------------------------------------------
  // The registry.

  datatype Runner = Runner(id: Name, healthy: bool, cordoned: bool, total: int, used: int, lastSeen: int)

  predicate Eligible(run: Runner, grace: int, now: int) {
    && now - run.lastSeen <= grace
    && run.healthy && !run.cordoned
    && (run.total > 0 ==> run.used < run.total)
  }

  /** a comes before b in (capacity used, id). */
  predicate Better(a: Runner, b: Runner) {
    a.used < b.used || (a.used == b.used && Less(a.id, b.id))
  }

  lemma BetterTransitive(a: Runner, b: Runner, c: Runner)
    requires Better(a, b) && Better(b, c)
    ensures Better(a, c)
  {
    if a.used == b.used && b.used == c.used { LessTransitive(a.id, b.id, c.id); }
  }

  /** r is the one runner of the list, exclusions aside, that comes before all others. */
  predicate IsLowest(eligible: seq<Runner>, exclude: seq<Name>, r: Runner) {
    && r in eligible && r.id !in exclude
    && forall x :: x in eligible && x.id !in exclude && x.id != r.id ==> Better(r, x)
  }

  predicate DistinctIds(runs: seq<Runner>) {
    forall i, j :: 0 <= i < j < |runs| ==> runs[i].id != runs[j].id
  }

  /** The choice is unique: equal loads leave nothing to chance. */
  lemma LowestIsUnique(eligible: seq<Runner>, exclude: seq<Name>, a: Runner, b: Runner)
    requires DistinctIds(eligible) && IsLowest(eligible, exclude, a) && IsLowest(eligible, exclude, b)
    ensures a == b
  {
    if a.id != b.id { LessTotal(a.id, b.id); }
  }

  method LowestUsed(eligible: seq<Runner>, exclude: seq<Name>) returns (best: Option<Runner>)
    requires DistinctIds(eligible)
    ensures best.None? <==> forall r :: r in eligible ==> r.id in exclude
    ensures best.Some? ==> IsLowest(eligible, exclude, best.value)
  {
    best := None;
    for i := 0 to |eligible|
      invariant best.None? <==> forall r :: r in eligible[..i] ==> r.id in exclude
      invariant best.Some? ==> IsLowest(eligible[..i], exclude, best.value)
    {
      var run := eligible[i];
      assert eligible[..i + 1] == eligible[..i] + [run];
      if run.id in exclude { continue; }
      if best.None? {
        best := Some(run);
      } else if run.used < best.value.used || (run.used == best.value.used && Less(run.id, best.value.id)) {
        forall x | x in eligible[..i] && x.id !in exclude ensures x.id != run.id && Better(run, x) {
          if x.id != best.value.id { BetterTransitive(run, best.value, x); }
        }
        best := Some(run);
      } else {
        LessTotal(run.id, best.value.id);
        assert run.id != best.value.id;
      }
    }
    assert eligible[..|eligible|] == eligible;
  }

  predicate NoRepeats(names: seq<Name>) {
    forall i, j :: 0 <= i < j < |names| ==> names[i] != names[j]
  }

  /** names without id, in order. */
  function Without(names: seq<Name>, id: Name): (r: seq<Name>)
    ensures forall x :: x in r <==> x in names && x != id
    ensures NoRepeats(names) ==> NoRepeats(r)
  {
    if names == [] then []
    else
      var rest := Without(names[1..], id);
      assert names == [names[0]] + names[1..];
      assert NoRepeats(names) ==> NoRepeats(names[1..]) && names[0] !in names[1..];
      if names[0] == id then rest else [names[0]] + rest
  }

  lemma {:induction false} WithoutSnoc(names: seq<Name>, x: Name, id: Name)
    ensures Without(names + [x], id) == Without(names, id) + if x == id then [] else [x]
  {
    if names == [] {
      assert [x][1..] == [];
    } else {
      WithoutSnoc(names[1..], x, id);
      assert (names + [x])[1..] == names[1..] + [x];
    }
  }

  class MemoryRegistry {
    var runners: map<Name, Runner>
    var order: seq<Name>
    var removedAt: map<Name, int>
    const grace: int

    /** The registration order lists exactly the registered runners, each once; none is also marked gone. */
    ghost predicate Valid()
      reads this
    {
      && NoRepeats(order)
      && (forall id :: id in order <==> id in runners)
      && (forall id :: id in runners ==> runners[id].id == id)
      && (forall id :: id in runners ==> id !in removedAt)
    }

    constructor (heartbeatGrace: int)
      ensures Valid() && runners == map[] && removedAt == map[] && grace > 0
      ensures heartbeatGrace > 0 ==> grace == heartbeatGrace
    {
      grace := if heartbeatGrace <= 0 then 45_000_000_000 else heartbeatGrace;
      runners, order, removedAt := map[], [], map[];
    }

    method Upsert(id: Name, httpBaseUrl: string, run: Runner, now: int)
      requires Valid() && run.id == id
      modifies this
      ensures Valid()
      ensures id == "" || httpBaseUrl == "" ==>
        runners == old(runners) && order == old(order) && removedAt == old(removedAt)
      ensures id != "" && httpBaseUrl != "" ==>
        && runners == old(runners)[id := run.(lastSeen := now)]
        && order == (if id in old(runners) then old(order) else old(order) + [id])
        && removedAt == old(removedAt) - {id}
    {
      if id == "" || httpBaseUrl == "" { return; }
      if id !in runners { order := order + [id]; }
      runners := runners[id := run.(lastSeen := now)];
      removedAt := removedAt - {id};
    }

    method Remove(id: Name, now: int)
      requires Valid()
      modifies this
      ensures Valid()
      ensures id == "" ==> runners == old(runners) && order == old(order) && removedAt == old(removedAt)
      ensures id != "" ==>
        && runners == old(runners) - {id} && order == Without(old(order), id)
        && removedAt == old(removedAt)[id := now]
    {
      if id == "" { return; }
      runners := runners - {id};
      removedAt := removedAt[id := now];
      var was, out: seq<Name> := order, [];
      for i := 0 to |was|
        modifies {}
        invariant out == Without(was[..i], id)
      {
        assert was[..i + 1] == was[..i] + [was[i]];
        WithoutSnoc(was[..i], was[i], id);
        if was[i] != id { out := out + [was[i]]; }
      }
      assert was[..|was|] == was;
      order := out;
    }

    /** Only a runner that is not registered can be past its removal; registering again undoes it. */
    method GoneLongEnough(id: Name, buffer: int, now: int) returns (gone: bool)
      requires Valid()
      ensures gone ==> id !in runners
      ensures gone <==> id != "" && buffer > 0 && id in removedAt && now >= removedAt[id] + buffer
    {
      if id == "" || buffer <= 0 { return false; }
      if id in runners { return false; }
      if id !in removedAt { return false; }
      gone := !(now < removedAt[id] + buffer);
    }

    method EligibleLocked(now: int) returns (eligible: seq<Runner>)
      requires Valid()
      ensures DistinctIds(eligible)
      ensures forall r :: r in eligible <==> r.id in runners && runners[r.id] == r && Eligible(r, grace, now)
    {
      eligible := [];
      for i := 0 to |order|
        invariant DistinctIds(eligible)
        invariant forall r :: r in eligible <==>
          r.id in order[..i] && r.id in runners && runners[r.id] == r && Eligible(r, grace, now)
      {
        assert order[..i + 1] == order[..i] + [order[i]];
        assert order[i] !in order[..i];
        var run := runners[order[i]];
        if now - run.lastSeen > grace { continue; }
        if !run.healthy || run.cordoned { continue; }
        if run.total > 0 && run.used >= run.total { continue; }
        eligible := eligible + [run];
      }
      assert order[..|order|] == order;
    }

    method PickLowestUsed(exclude: seq<Name>, now: int) returns (best: Option<Runner>)
      requires Valid()
      ensures best.None? <==> forall id :: id in runners && Eligible(runners[id], grace, now) ==> id in exclude
      ensures best.Some? ==>
        && var b := best.value;
        && b.id in runners && runners[b.id] == b && Eligible(b, grace, now) && b.id !in exclude
        && forall id :: id in runners && Eligible(runners[id], grace, now) && id !in exclude && id != b.id ==>
             Better(b, runners[id])
    {
      var eligible := EligibleLocked(now);
      best := LowestUsed(eligible, exclude);
      forall id | id in runners && Eligible(runners[id], grace, now) ensures runners[id] in eligible { }
    }
  }

  // ---------------------------------------------------------------------------
  // Placement.

  const ATTEMPTS: nat := 3

  /** A heartbeat, or a runner that leaves. */
  datatype Beat = Seen(run: Runner, httpBaseUrl: string, at: int) | Left(id: Name, at: int)

  /** Another sandbox that comes to or goes from a runner meanwhile. */
  datatype Other = Comes(at: Name, id: Id, diskError: bool) | Goes(at: Name, id: Id)

  /** What happens around one attempt. */
  datatype Moment = Moment(
    beats: seq<Beat>,             // before it: what the registry hears
    others: seq<Other>,           // before it: what other requests do on the runners
    now: int,                     // when it picks
    call: RunnerControl.Call,     // what decides the runner's answer, its tables aside
    over: bool)                   // afterwards: the budget is spent or the client is gone

  datatype Placed = Placed(run: Runner) | NoRunners | AtCapacity | Failed

  /** The registry at one pick. */
  datatype View = View(runners: map<Name, Runner>, now: int)

  /** A runner's own tables when it is asked. */
  datatype Stock = Stock(tracked: set<Id>, owners: seq<Id>)

  /** Asked with these tables, the runner creates the sandbox and its reply arrives. */
  predicate AcceptsWith(id: Id, call: RunnerControl.Call, at: Stock) {
    call.transport.None? && RunnerControl.Accepts(id, call, at.tracked, at.owners)
  }

  /** Asked with these tables, the runner refuses and its marked reply arrives. */
  predicate RefusesWith(id: Id, call: RunnerControl.Call, at: Stock) {
    call.attached && call.transport.None? && RunnerControl.Refuses(id, call, at.tracked, at.owners)
  }

  /** r is the least used runner of the view that is eligible and not excluded. */
  predicate Picked(view: View, grace: int, exclude: seq<Name>, r: Runner) {
    && r.id in view.runners && view.runners[r.id] == r && Eligible(r, grace, view.now) && r.id !in exclude
    && forall id ::
         id in view.runners && Eligible(view.runners[id], grace, view.now) && id !in exclude && id != r.id ==>
           Better(r, view.runners[id])
  }

  predicate NonePickable(view: View, grace: int, exclude: seq<Name>) {
    forall id :: id in view.runners && Eligible(view.runners[id], grace, view.now) ==> id in exclude
  }

  /** What the registry hears between two picks. */
  method Hear(reg: MemoryRegistry, beats: seq<Beat>)
    requires reg.Valid()
    modifies reg
    ensures reg.Valid()
  {
    for i := 0 to |beats|
      invariant reg.Valid()
    {
      match beats[i]
      case Seen(run, url, at) => reg.Upsert(run.id, url, run, at);
      case Left(id, at) => reg.Remove(id, at);
    }
  }

  /** The runners, by the id they are registered under, each with its own tables. */
  class Fleet {
    const nodes: map<Name, FirecrackerRuntime.Runtime>

    constructor (nodes: map<Name, FirecrackerRuntime.Runtime>)
      ensures this.nodes == nodes
    {
      this.nodes := nodes;
    }

    ghost function Tables(): (objects: set<object>) {
      (set n | n in nodes :: nodes[n]) + (set n | n in nodes :: nodes[n].owners)
    }

    /** No two runners share a table. */
    ghost predicate Apart() {
      forall a, b :: a in nodes && b in nodes && a != b ==>
        nodes[a] != nodes[b] && nodes[a].owners != nodes[b].owners
    }

    /** The runners that track sandbox id. */
    ghost function Holders(id: Id): (names: set<Name>)
      reads Tables()
    {
      set n | n in nodes && id in nodes[n].sandboxes
    }

    /** Other requests leave alone what the runners hold of this sandbox. */
    method Meanwhile(others: seq<Other>, id: Id)
      requires Apart() && forall i :: 0 <= i < |others| ==> others[i].id != id
      modifies Tables()
      ensures Holders(id) == old(Holders(id))
    {
      for i := 0 to |others|
        invariant forall n :: n in nodes ==> (id in nodes[n].sandboxes <==> id in old(nodes[n].sandboxes))
      {
        var o := others[i];
        if o.at !in nodes { continue; }
        var rt := nodes[o.at];
        match o
        case Comes(_, other, diskError) =>
          if |other| >= 12 { var _ := rt.ReserveSandbox(other, false, diskError); }
        case Goes(_, other) =>
          if other in rt.sandboxes && rt.sandboxes[other].id == other && rt.sandboxes[other].slot < rt.owners.Length {
            rt.UntrackSandbox(rt.sandboxes[other]);
          }
      }
    }

    /** One create call; a runner nobody answers for is unavailable. */
    method Ask(run: Name, id: Id, call: RunnerControl.Call) returns (refused: bool, ok: bool, ghost at: Stock)
      requires Apart()
      modifies Tables()
      ensures refused ==> !ok && Holders(id) == old(Holders(id))
      ensures ok ==> run !in old(Holders(id)) && run in Holders(id)
      ensures Holders(id) - {run} == old(Holders(id)) - {run}
      // It is a refusal exactly when that runner refuses and its marked reply arrives.
      ensures run in nodes ==> at == Stock(old(nodes[run].sandboxes).Keys, old(nodes[run].owners[..]))
      ensures refused <==> run in nodes && RefusesWith(id, call, at)
      ensures ok <==> run in nodes && AcceptsWith(id, call, at)
      ensures refused ==> at == Stock(nodes[run].sandboxes.Keys, nodes[run].owners[..])
    {
      at := Stock({}, []);
      if run !in nodes { return false, false, at; }
      at := Stock(nodes[run].sandboxes.Keys, nodes[run].owners[..]);
      var reply := RunnerControl.Serve(nodes[run], id, call);
      ok := reply.Created?;
      refused := false;
      if reply.Failed? { refused := RunnerControl.IsCapacityRefusal(reply.status); }
    }

    /** Time passes, the least used runner left is picked, and it is asked. */
    method Attempt(id: Id, reg: MemoryRegistry, m: Moment, refusedBy: seq<Name>)
      returns (run: Option<Runner>, refused: bool, ok: bool, ghost view: View, ghost at: Stock)
      requires reg.Valid() && Apart() && reg !in Tables()
      requires forall i :: 0 <= i < |m.others| ==> m.others[i].id != id
      modifies reg, Tables()
      ensures reg.Valid()
      ensures run.None? ==> NonePickable(view, reg.grace, refusedBy)
      ensures run.Some? ==> Picked(view, reg.grace, refusedBy, run.value)
      ensures refused || run.None? ==> !ok && Holders(id) == old(Holders(id))
      ensures run.Some? ==> Holders(id) - {run.value.id} == old(Holders(id)) - {run.value.id}
      ensures refused <==> run.Some? && RefusedBy(nodes.Keys, id, m.call, run.value, at)
      ensures ok <==> run.Some? && AcceptedBy(nodes.Keys, id, m.call, run.value, at)
      ensures refused ==>
        && run.value.id in nodes
        && at == Stock(nodes[run.value.id].sandboxes.Keys, nodes[run.value.id].owners[..])
      ensures ok ==> run.Some? && run.value.id !in old(Holders(id)) && run.value.id in Holders(id)
    {
      Hear(reg, m.beats);
      Meanwhile(m.others, id);
      view, refused, ok, at := View(reg.runners, m.now), false, false, Stock({}, []);
      run := reg.PickLowestUsed(refusedBy, m.now);
      hide Eligible, Better;
      if run.Some? { refused, ok, at := Ask(run.value.id, id, m.call); }
    }

    /**
     * placeSandbox. `tried` are the runners contacted, in order, with their tables then in
     * `asked`, and `views` the registry at every pick.
     */
    method Place(id: Id, reg: MemoryRegistry, env: nat -> Moment)
      returns (r: Placed, ghost tried: seq<Runner>, ghost asked: seq<Stock>, ghost views: seq<View>)
      requires reg.Valid() && Apart() && reg !in Tables()
      // The caller holds the id's lock, so nobody else creates or removes it meanwhile.
      requires forall i, o :: o in env(i).others ==> o.id != id
      modifies reg, Tables()
      ensures reg.Valid() && |asked| == |tried| <= |views| <= |tried| + 1
      // Pairwise distinct runners, at most three, each the least used one left at its turn.
      ensures |tried| <= ATTEMPTS && DistinctIds(tried) && Turns(reg.grace, views, tried)
      // A further runner is contacted only after the one before refused, with time left.
      ensures MovesOn(nodes.Keys, id, env, tried, asked, |tried| - 1)
      // At most one runner tracks the sandbox because of this call: the last one contacted.
      ensures r.NoRunners? || r.AtCapacity? ==> Holders(id) == old(Holders(id))
      ensures tried != [] ==> var last := tried[|tried| - 1].id; Holders(id) - {last} == old(Holders(id)) - {last}
      ensures r.NoRunners? ==> tried == [] && |views| == 1 && NonePickable(views[0], reg.grace, [])
      ensures r.Placed? ==>
        && tried != [] && r.run == tried[|tried| - 1]
        && r.run.id !in old(Holders(id)) && r.run.id in Holders(id)
      ensures r.AtCapacity? || r.Failed? ==> tried != []
      // The last one refused exactly when the placement gives up for capacity, and accepted
      // exactly when it succeeds.
      ensures tried != [] ==>
        var i := |tried| - 1;
        && (r.AtCapacity? <==> RefusedBy(nodes.Keys, id, env(i).call, tried[i], asked[i]))
        && (r.Placed? <==> AcceptedBy(nodes.Keys, id, env(i).call, tried[i], asked[i]))
      // It gives up for capacity only when it may not, or cannot, ask another runner.
      ensures r.AtCapacity? ==>
        || |tried| == ATTEMPTS || env(|tried| - 1).over
        || (|views| == |tried| + 1 && NonePickable(views[|tried|], reg.grace, Ids(tried)))
    {
      hide DistinctIds, Picked, Turns, NonePickable, RefusedBy, AcceptedBy, MovesOn, Holders, Ids;
      var refusedBy: seq<Name> := [];
      var attempts: nat := 0;
      tried, asked, views := [], [], [];
      Start(reg.grace);
      NoMove(nodes.Keys, id, env);
      while true
        invariant reg.Valid()
        invariant attempts == |tried| == |asked| == |views| == |refusedBy| < ATTEMPTS
        invariant refusedBy == Ids(tried) && DistinctIds(tried) && Turns(reg.grace, views, tried)
        invariant MovesOn(nodes.Keys, id, env, tried, asked, attempts)
        invariant Holders(id) == old(Holders(id))
        decreases ATTEMPTS - attempts
      {
        var m := env(attempts);
        var run, refused, ok, view, at := Attempt(id, reg, m, refusedBy);
        if run.None? {
          Looked(reg.grace, views, tried, view);
          MovedOn(nodes.Keys, id, env, tried, asked);
          views := views + [view];
          return if refusedBy != [] then AtCapacity else NoRunners, tried, asked, views;
        }
        Turn(reg.grace, views, tried, view, run.value);
        attempts := attempts + 1;
        MoveOn(nodes.Keys, id, env, tried, asked, run.value, at);
        tried, asked, views := tried + [run.value], asked + [at], views + [view];
        if !refused { return if ok then Placed(run.value) else Failed, tried, asked, views; }
        refusedBy := refusedBy + [run.value.id];
        if attempts >= ATTEMPTS || m.over { return AtCapacity, tried, asked, views; }
      }
    }
  }

  /** Each of the first k runners asked refused, its marked reply came back, and there was time for another. */
  ghost predicate MovesOn(known: set<Name>, id: Id, env: nat -> Moment, tried: seq<Runner>, asked: seq<Stock>, k: int) {
    && k <= |asked| == |tried|
    && forall i: nat :: i < k ==> !env(i).over && RefusedBy(known, id, env(i).call, tried[i], asked[i])
  }

  /** The runner can be reached, and refuses. */
  predicate RefusedBy(known: set<Name>, id: Id, call: RunnerControl.Call, run: Runner, at: Stock) {
    run.id in known && RefusesWith(id, call, at)
  }

  /** The runner can be reached, and creates the sandbox. */
  predicate AcceptedBy(known: set<Name>, id: Id, call: RunnerControl.Call, run: Runner, at: Stock) {
    run.id in known && AcceptsWith(id, call, at)
  }

  /** It does not both refuse and accept. */
  lemma RefusedOrAccepted(known: set<Name>, id: Id, call: RunnerControl.Call, run: Runner, at: Stock)
    ensures !(RefusedBy(known, id, call, run, at) && AcceptedBy(known, id, call, run, at))
  { }

  lemma NoMove(known: set<Name>, id: Id, env: nat -> Moment)
    ensures MovesOn(known, id, env, [], [], 0) && MovesOn(known, id, env, [], [], -1)
  { }

  /** One more runner asked: the earlier ones all refused, and this one too if another is to follow. */
  lemma MoveOn(known: set<Name>, id: Id, env: nat -> Moment, tried: seq<Runner>, asked: seq<Stock>,
               run: Runner, at: Stock)
    requires MovesOn(known, id, env, tried, asked, |asked|)
    ensures MovesOn(known, id, env, tried + [run], asked + [at], |asked|)
    ensures !env(|asked|).over && RefusedBy(known, id, env(|asked|).call, run, at) ==>
      MovesOn(known, id, env, tried + [run], asked + [at], |asked| + 1)
  {
    hide RefusedBy;
  }

  lemma MovedOn(known: set<Name>, id: Id, env: nat -> Moment, tried: seq<Runner>, asked: seq<Stock>)
    requires MovesOn(known, id, env, tried, asked, |asked|)
    ensures MovesOn(known, id, env, tried, asked, |asked| - 1)
    ensures asked != [] ==>
      && var i := |asked| - 1;
      && RefusedBy(known, id, env(i).call, tried[i], asked[i])
      && !AcceptedBy(known, id, env(i).call, tried[i], asked[i])
  {
    hide RefusedBy, AcceptedBy;
    if asked != [] {
      var i := |asked| - 1;
      RefusedOrAccepted(known, id, env(i).call, tried[i], asked[i]);
    }
  }

  ghost function Ids(runs: seq<Runner>): (ids: seq<Name>)
    ensures |ids| == |runs| && forall i :: 0 <= i < |runs| ==> ids[i] == runs[i].id
  {
    seq(|runs|, i requires 0 <= i < |runs| => runs[i].id)
  }

  /** Each runner was the least used eligible one of its view, those tried before it left out. */
  ghost predicate Turns(grace: int, views: seq<View>, tried: seq<Runner>) {
    |tried| <= |views| && forall i :: 0 <= i < |tried| ==> Picked(views[i], grace, Ids(tried[..i]), tried[i])
  }

  lemma Start(grace: int)
    ensures Turns(grace, [], []) && DistinctIds([])
  { }

  /** A pick that finds nobody changes no turn. */
  lemma Looked(grace: int, views: seq<View>, tried: seq<Runner>, view: View)
    requires Turns(grace, views, tried)
    ensures Turns(grace, views + [view], tried)
  { }

  /** One more turn: a runner picked with the others left out is none of them. */
  lemma Turn(grace: int, views: seq<View>, tried: seq<Runner>, view: View, run: Runner)
    requires DistinctIds(tried) && Turns(grace, views, tried) && |views| == |tried|
    requires Picked(view, grace, Ids(tried), run)
    ensures DistinctIds(tried + [run]) && Turns(grace, views + [view], tried + [run])
    ensures Ids(tried + [run]) == Ids(tried) + [run.id]
  {
    var more, all := tried + [run], views + [view];
    forall i | 0 <= i < |tried| ensures more[i].id != run.id {
      assert Ids(tried)[i] == tried[i].id;
    }
    forall i | 0 <= i < |more| ensures Picked(all[i], grace, Ids(more[..i]), more[i]) {
      assert more[..i] == tried[..i];
      assert tried[..|tried|] == tried;
    }
  }
}
