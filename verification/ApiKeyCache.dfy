/**
 apiKeyCache: a TTL cache of key lookups in front of the store, fenced by a generation
 that every invalidation changes.  `Cache` is the object; the machine interleaves
 lookups, the shared singleflight loads, invalidations and changes to the store.
 */
module ApiKeyCache {

  datatype Option<+T> = None | Some(value: T)

  type Key = string
  type Tenant = string

  /** `tenant` is "" for a key that does not exist. `readGen` and `readAt` record the
      generation and the time at which the store read behind the entry began. */
  datatype Entry = Entry(tenant: Tenant, expires: int, readGen: nat, readAt: int)

  const MAX_ENTRIES := 10_000

  // ---- the object -------------------------------------------------------------

  function Unexpired(m: map<Key, Entry>, now: int): map<Key, Entry> {
    map k | k in m && now < m[k].expires :: m[k]
  }

  /** makeRoom: drops what expired, or everything when that frees less than a quarter. */
  function Roomier(m: map<Key, Entry>, now: int): (r: map<Key, Entry>)
    ensures |r| <= MAX_ENTRIES * 3 / 4
    ensures forall k :: k in r ==> k in m && r[k] == m[k] && now < r[k].expires
  {
    var kept := Unexpired(m, now);
    if |kept| > MAX_ENTRIES * 3 / 4 then map[] else kept
  }

  predicate Scans(m: map<Key, Entry>, k: Key) {
    k !in m && |m| >= MAX_ENTRIES
  }

  /** The cache after a load's answer is remembered. */
  function Remember(m: map<Key, Entry>, k: Key, e: Entry, now: int): map<Key, Entry> {
    (if Scans(m, k) then Roomier(m, now) else m)[k := e]
  }

  function WithoutTenant(m: map<Key, Entry>, t: Tenant): map<Key, Entry> {
    map k | k in m && m[k].tenant != t :: m[k]
  }

  class Cache {
    var byKeyHash: map<Key, Entry>
    var gen: nat
    const ttl: int

    constructor (ttl: int)
      requires ttl > 0
      ensures byKeyHash == map[] && this.ttl == ttl
    {
      byKeyHash, gen, this.ttl := map[], 0, ttl;
    }

    method MakeRoom(now: int)
      modifies `byKeyHash
      ensures byKeyHash == Roomier(old(byKeyHash), now)
    {
      var todo := byKeyHash.Keys;
      while todo != {}
        invariant todo <= byKeyHash.Keys <= old(byKeyHash).Keys
        invariant forall k :: k in byKeyHash ==> byKeyHash[k] == old(byKeyHash)[k]
        invariant forall k :: k in old(byKeyHash) && k !in todo ==>
          (k in byKeyHash <==> now < old(byKeyHash)[k].expires)
        decreases |todo|
      {
        var k :| k in todo;
        todo := todo - {k};
        if now >= byKeyHash[k].expires { byKeyHash := byKeyHash - {k}; }
      }
      assert byKeyHash == Unexpired(old(byKeyHash), now);
      if |byKeyHash| > MAX_ENTRIES * 3 / 4 { byKeyHash := map[]; }
    }

    /** The section of a load that remembers its answer. */
    method Store(loadGen: nat, k: Key, e: Entry, now: int)
      modifies `byKeyHash
      ensures byKeyHash == if gen == loadGen then Remember(old(byKeyHash), k, e, now) else old(byKeyHash)
    {
      if gen == loadGen {
        if k !in byKeyHash && |byKeyHash| >= MAX_ENTRIES { MakeRoom(now); }
        byKeyHash := byKeyHash[k := e];
      }
    }

    method Invalidate(k: Key)
      modifies this
      ensures gen == old(gen) + 1 && byKeyHash == old(byKeyHash) - {k}
    {
      gen := gen + 1;
      byKeyHash := byKeyHash - {k};
    }

    method InvalidateTenant(t: Tenant)
      modifies this
      ensures gen == old(gen) + 1 && byKeyHash == WithoutTenant(old(byKeyHash), t)
    {
      gen := gen + 1;
      var todo := byKeyHash.Keys;
      while todo != {}
        invariant gen == old(gen) + 1
        invariant todo <= byKeyHash.Keys <= old(byKeyHash).Keys
        invariant forall k :: k in byKeyHash ==> byKeyHash[k] == old(byKeyHash)[k]
        invariant forall k :: k in old(byKeyHash) && k !in todo ==> (k in byKeyHash <==> old(byKeyHash)[k].tenant != t)
        decreases |todo|
      {
        var k :| k in todo;
        todo := todo - {k};
        if byKeyHash[k].tenant == t { byKeyHash := byKeyHash - {k}; }
      }
      assert byKeyHash == WithoutTenant(old(byKeyHash), t);
    }
  }

  // ---- the machine ----------------------------------------------------------------

  /** A load shared by the lookups that asked under one (gen, key): created, its expiry
      clock read, its store read begun, its answer read, finished. */
  datatype Stage = Created | Clocked | Loading | Read(tenant: Tenant) | Loaded(tenant: Tenant) | Failed

  datatype FlightKey = FlightKey(gen: nat, key: Key)

  datatype Flight = Flight(gen: nat, key: Key, stage: Stage, started: int, readGen: nat, readAt: int)

  /** A lookup: it looked under the lock (`entry`, `gen`), and is answered by that entry
      or by a flight. `keyFence` and `tenantFence` are the generations of the last
      invalidations at that moment. */
  datatype Phase = Looked | Waiting(flight: nat) | Hit(at: int) | Answered(flight: nat)

  datatype Lookup = Lookup(
    key: Key, entry: Option<Entry>, gen: nat, keyFence: nat, tenantFence: map<Tenant, nat>, revoked: bool,
    phase: Phase)

  datatype State = State(
    cache: map<Key, Entry>, gen: nat, ttl: int, clock: int,
    flights: seq<Flight>, current: map<FlightKey, nat>, lookups: seq<Lookup>,
    keyFence: map<Key, nat>, tenantFence: map<Tenant, nat>,
    store: map<Key, Tenant>, revoked: set<Key>, fenced: map<Key, nat>, sinceScan: nat)

  datatype Step =
    | Tick(to: int)
    | Issue(k: Key, t: Tenant)
    | Revoke(k: Key)
    | Invalidate(k: Key)
    | InvalidateTenant(t: Tenant)
    | Look(k: Key)
    | Decide(l: nat)
    | Clock(f: nat)
    | Begin(f: nat)
    | ReadStore(f: nat)
    | Finish(f: nat)
    | Fail(f: nat)
    | Drop(f: nat)
    | Return(l: nat)

  function At<K>(m: map<K, nat>, k: K): nat {
    if k in m then m[k] else 0
  }

  predicate Possible(s: State, step: Step) {
    match step
    case Tick(to) => to >= s.clock
    case Issue(k, t) => k !in s.store && k !in s.revoked && t != ""
    case Revoke(k) => true
    case Invalidate(_) => true
    case InvalidateTenant(t) => t != ""
    case Look(_) => true
    case Decide(l) => l < |s.lookups| && s.lookups[l].phase.Looked?
    case Clock(f) => f < |s.flights| && s.flights[f].stage.Created?
    case Begin(f) => f < |s.flights| && s.flights[f].stage.Clocked?
    case ReadStore(f) => f < |s.flights| && s.flights[f].stage.Loading?
    case Finish(f) => f < |s.flights| && s.flights[f].stage.Read?
    case Fail(f) => f < |s.flights| && (s.flights[f].stage.Loading? || s.flights[f].stage.Read?)
    case Drop(f) => f < |s.flights| && (s.flights[f].stage.Loaded? || s.flights[f].stage.Failed?)
    case Return(l) =>
      l < |s.lookups| && s.lookups[l].phase.Waiting? && s.lookups[l].phase.flight < |s.flights| &&
      s.flights[s.lookups[l].phase.flight].stage.Loaded?
  }

  function PutFlight(s: State, f: nat, x: Flight): State
    requires f < |s.flights|
  {
    s.(flights := s.flights[f := x])
  }

  function PutLookup(s: State, l: nat, x: Lookup): State
    requires l < |s.lookups|
  {
    s.(lookups := s.lookups[l := x])
  }

  /** group.Do: join the flight of this (gen, key), finished or not, or start one. */
  function Join(s: State, l: nat): State
    requires l < |s.lookups|
  {
    var x := s.lookups[l];
    var p := FlightKey(x.gen, x.key);
    if p in s.current then PutLookup(s, l, x.(phase := Waiting(s.current[p])))
    else
      s.(lookups := s.lookups[l := x.(phase := Waiting(|s.flights|))],
         flights := s.flights + [NewFlight(p)], current := s.current[p := |s.flights|])
  }

  function NewFlight(p: FlightKey): Flight {
    Flight(p.gen, p.key, Created, 0, 0, 0)
  }

  /** A flight's next stage. */
  function Moved(s: State, x: Flight, step: Step): Flight {
    match step
    case Clock(_) => x.(stage := Clocked, started := s.clock)
    case Begin(_) => x.(stage := Loading, readGen := s.gen, readAt := s.clock)
    case ReadStore(_) => x.(stage := Read(if x.key in s.store then s.store[x.key] else ""))
    case Finish(_) => if x.stage.Read? then x.(stage := Loaded(x.stage.tenant)) else x
    case _ => x.(stage := Failed)
  }

  function EntryOf(s: State, x: Flight): Entry
    requires x.stage.Read?
  {
    Entry(x.stage.tenant, x.started + s.ttl, x.readGen, x.readAt)
  }

  function Apply(s: State, step: Step): State
    requires Possible(s, step)
  {
    match step
    case Tick(to) => s.(clock := to)
    case Issue(k, t) => s.(store := s.store[k := t])
    case Revoke(k) => s.(store := s.store - {k}, revoked := s.revoked + {k})
    case Invalidate(k) =>
      s.(cache := s.cache - {k}, gen := s.gen + 1, keyFence := s.keyFence[k := s.gen + 1],
         fenced := if k in s.revoked && k !in s.fenced then s.fenced[k := s.gen + 1] else s.fenced)
    case InvalidateTenant(t) =>
      s.(cache := WithoutTenant(s.cache, t), gen := s.gen + 1, tenantFence := s.tenantFence[t := s.gen + 1])
    case Look(k) =>
      s.(lookups := s.lookups + [Lookup(k, if k in s.cache then Some(s.cache[k]) else None, s.gen,
                                        At(s.keyFence, k), s.tenantFence, k in s.fenced, Looked)])
    case Decide(l) =>
      var x := s.lookups[l];
      if x.entry.Some? && s.clock < x.entry.value.expires then PutLookup(s, l, x.(phase := Hit(s.clock)))
      else Join(s, l)
    case Clock(f) => PutFlight(s, f, Moved(s, s.flights[f], step))
    case Begin(f) => PutFlight(s, f, Moved(s, s.flights[f], step))
    case ReadStore(f) => PutFlight(s, f, Moved(s, s.flights[f], step))
    case Finish(f) =>
      var x := s.flights[f];
      var keep := s.gen == x.gen;
      s.(flights := s.flights[f := Moved(s, x, step)],
         cache := if keep then Remember(s.cache, x.key, EntryOf(s, x), s.clock) else s.cache,
         sinceScan := if !keep || x.key in s.cache then s.sinceScan
                      else if Scans(s.cache, x.key) then 1 else s.sinceScan + 1)
    case Fail(f) => PutFlight(s, f, Moved(s, s.flights[f], step))
    case Drop(f) =>
      // the group forgets a flight only after it is done, and only if it is still the one
      var p := FlightKey(s.flights[f].gen, s.flights[f].key);
      if p in s.current && s.current[p] == f then s.(current := s.current - {p}) else s
    case Return(l) => PutLookup(s, l, s.lookups[l].(phase := Answered(s.lookups[l].phase.flight)))
  }

  predicate Init(s: State) {
    && s.cache == map[] && s.gen == 0 && s.ttl > 0 && s.flights == [] && s.current == map[] && s.lookups == []
    && s.keyFence == map[] && s.tenantFence == map[] && s.revoked == {} && s.fenced == map[] && s.sinceScan == 0
  }

  predicate Run(states: seq<State>, steps: seq<Step>) {
    && |states| == |steps| + 1 && Init(states[0])
    && forall k :: 0 <= k < |steps| ==> Possible(states[k], steps[k]) && states[k + 1] == Apply(states[k], steps[k])
  }

  // ---- the invariant ----------------------------------------------------------------

  /** The last invalidations of key k and of tenant t came before generation g. */
  predicate Fresher(s: State, k: Key, t: Tenant, g: nat) {
    At(s.keyFence, k) <= g && At(s.tenantFence, t) <= g
  }

  predicate EntryInv(s: State, k: Key, e: Entry) {
    && Fresher(s, k, e.tenant, e.readGen) && e.readGen <= s.gen
    && e.expires - s.ttl <= e.readAt <= s.clock
    && (k in s.fenced ==> e.tenant == "")
  }

  predicate FlightInv(s: State, x: Flight) {
    && x.gen <= s.gen
    && (!x.stage.Created? ==> x.started <= s.clock)
    && (x.stage.Loading? || x.stage.Read? || x.stage.Loaded? ==>
          x.gen <= x.readGen <= s.gen && x.started <= x.readAt <= s.clock)
    && ((x.stage.Read? || x.stage.Loaded?) && x.stage.tenant != "" && x.key in s.fenced ==> x.gen < s.fenced[x.key])
  }

  predicate LookupInv(s: State, x: Lookup) {
    && x.gen <= s.gen && x.keyFence <= x.gen && (forall t :: t in x.tenantFence ==> x.tenantFence[t] <= x.gen)
    && (x.revoked ==> x.key in s.fenced && s.fenced[x.key] <= x.gen)
    && (x.entry.Some? ==>
          && x.keyFence <= x.entry.value.readGen && At(x.tenantFence, x.entry.value.tenant) <= x.entry.value.readGen
          && x.entry.value.expires - s.ttl <= x.entry.value.readAt
          && (x.revoked ==> x.entry.value.tenant == ""))
    && (x.phase.Hit? ==> x.entry.Some? && x.phase.at < x.entry.value.expires)
    && (x.phase.Waiting? || x.phase.Answered? ==>
          && x.phase.flight < |s.flights|
          && s.flights[x.phase.flight].key == x.key && s.flights[x.phase.flight].gen == x.gen)
    && (x.phase.Answered? ==> s.flights[x.phase.flight].stage.Loaded?)
  }

  predicate FencesInv(s: State) {
    && (forall k :: k in s.keyFence ==> s.keyFence[k] <= s.gen)
    && (forall t :: t in s.tenantFence ==> s.tenantFence[t] <= s.gen)
    && (forall k :: k in s.fenced ==> k in s.revoked && s.fenced[k] <= s.gen)
    && (forall k :: k in s.revoked ==> k !in s.store)
  }

  /** The group's map leads to the flight of that generation and key. */
  predicate CurrentInv(current: map<FlightKey, nat>, flights: seq<Flight>) {
    forall p :: p in current ==>
      current[p] < |flights| && flights[current[p]].gen == p.gen && flights[current[p]].key == p.key
  }

  predicate Inv(s: State) {
    && FencesInv(s) && CurrentInv(s.current, s.flights)
    && (forall k :: k in s.cache ==> EntryInv(s, k, s.cache[k]))
    && (forall f :: 0 <= f < |s.flights| ==> FlightInv(s, s.flights[f]))
    && (forall l :: 0 <= l < |s.lookups| ==> LookupInv(s, s.lookups[l]))
    && |s.cache| <= MAX_ENTRIES && |s.cache| <= MAX_ENTRIES * 3 / 4 + s.sinceScan
    && s.ttl > 0
  }

  // ---- preservation -------------------------------------------------------------------

  /** What every step keeps: time and generations move on, fences and flights stay. */
  predicate Later(s: State, s': State) {
    && s'.ttl == s.ttl && s'.gen >= s.gen && s'.clock >= s.clock
    && (forall k :: k in s.fenced ==> k in s'.fenced && s'.fenced[k] == s.fenced[k])
    && (forall k :: k in s'.fenced && k !in s.fenced ==> s'.fenced[k] > s.gen)
    && Grown(s.flights, s'.flights)
  }

  predicate Grown(a: seq<Flight>, b: seq<Flight>) {
    && |b| >= |a|
    && forall f :: 0 <= f < |a| ==>
         b[f].key == a[f].key && b[f].gen == a[f].gen && (a[f].stage.Loaded? ==> b[f].stage.Loaded?)
  }

  lemma GrownBy(a: seq<Flight>, x: Flight)
    ensures Grown(a, a) && Grown(a, a + [x])
  {
  }

  lemma GrownAt(a: seq<Flight>, f: nat, x: Flight)
    requires f < |a| && x.key == a[f].key && x.gen == a[f].gen && !a[f].stage.Loaded?
    ensures Grown(a, a[f := x])
  {
  }

  lemma LookupFrame(s: State, s': State, x: Lookup)
    requires LookupInv(s, x) && Later(s, s')
    ensures LookupInv(s', x)
  {
  }

  lemma FlightFrame(s: State, s': State, x: Flight)
    requires FlightInv(s, x) && Later(s, s')
    ensures FlightInv(s', x)
  {
  }

  lemma EntryFrame(s: State, s': State, k: Key, e: Entry)
    requires EntryInv(s, k, e) && Later(s, s') && Fresher(s', k, e.tenant, e.readGen)
    requires k in s'.fenced ==> k in s.fenced
    ensures EntryInv(s', k, e)
  {
  }

  /** The cached entries, where no fence moved. */
  lemma EntriesFrame(s: State, s': State)
    requires Inv(s) && Later(s, s') && s'.cache == s.cache
    requires s'.keyFence == s.keyFence && s'.tenantFence == s.tenantFence && s'.fenced == s.fenced
    ensures forall k :: k in s'.cache ==> EntryInv(s', k, s'.cache[k])
  {
    hide FlightInv, LookupInv, FencesInv;
    forall k | k in s'.cache ensures EntryInv(s', k, s'.cache[k]) { EntryFrame(s, s', k, s.cache[k]); }
  }

  lemma FlightsFrame(s: State, s': State)
    requires Inv(s) && Later(s, s')
    ensures forall f :: 0 <= f < |s.flights| ==> FlightInv(s', s.flights[f])
  {
    hide EntryInv, LookupInv, FencesInv;
    forall f | 0 <= f < |s.flights| ensures FlightInv(s', s.flights[f]) { FlightFrame(s, s', s.flights[f]); }
  }

  lemma LookupsFrame(s: State, s': State)
    requires Inv(s) && Later(s, s')
    ensures forall l :: 0 <= l < |s.lookups| ==> LookupInv(s', s.lookups[l])
  {
    hide EntryInv, FlightInv, FencesInv;
    forall l | 0 <= l < |s.lookups| ensures LookupInv(s', s.lookups[l]) { LookupFrame(s, s', s.lookups[l]); }
  }

  lemma FlightLater(s: State, step: Step)
    requires Possible(s, step) && (step.Clock? || step.Begin? || step.ReadStore? || step.Finish? || step.Fail?)
    ensures Later(s, Apply(s, step))
  {
    hide Remember, Grown, At, Join;
    GrownAt(s.flights, step.f, Moved(s, s.flights[step.f], step));
  }

  lemma DecideLater(s: State, l: nat)
    requires Possible(s, Decide(l))
    ensures Later(s, Apply(s, Decide(l)))
  {
    hide Grown, At;
    GrownBy(s.flights, NewFlight(FlightKey(s.lookups[l].gen, s.lookups[l].key)));
  }

  lemma StepLater(s: State, step: Step)
    requires Possible(s, step)
    ensures Later(s, Apply(s, step))
  {
    if step.Clock? || step.Begin? || step.ReadStore? || step.Finish? || step.Fail? {
      FlightLater(s, step);
    } else if step.Decide? {
      DecideLater(s, step.l);
    } else {
      hide Grown, At, Join, Remember, Moved;
      GrownBy(s.flights, NewFlight(FlightKey(0, "")));
    }
  }

  lemma FencesFrame(s: State, s': State)
    requires FencesInv(s) && s'.gen == s.gen && s'.keyFence == s.keyFence && s'.tenantFence == s.tenantFence
    requires s'.fenced == s.fenced && s'.revoked == s.revoked && s'.store == s.store
    ensures FencesInv(s')
  {
  }

  lemma DecideFences(s: State, l: nat)
    requires Possible(s, Decide(l)) && FencesInv(s)
    ensures FencesInv(Apply(s, Decide(l)))
  {
    hide Join, FencesInv, At;
    JoinShape(s, l);
    FencesFrame(s, Apply(s, Decide(l)));
  }

  lemma StoreFences(s: State, step: Step)
    requires Possible(s, step) && FencesInv(s) && (step.Issue? || step.Revoke?)
    ensures FencesInv(Apply(s, step))
  {
  }

  lemma InvalidateFences(s: State, step: Step)
    requires Possible(s, step) && FencesInv(s) && (step.Invalidate? || step.InvalidateTenant?)
    ensures FencesInv(Apply(s, step))
  {
    hide WithoutTenant;
  }

  lemma StepFences(s: State, step: Step)
    requires Possible(s, step) && FencesInv(s)
    ensures FencesInv(Apply(s, step))
  {
    hide Apply, FencesInv;
    if step.Decide? { DecideFences(s, step.l); }
    else if step.Issue? || step.Revoke? { StoreFences(s, step); }
    else if step.Invalidate? || step.InvalidateTenant? { InvalidateFences(s, step); }
    else { QuietFences(s, step); }
  }

  lemma QuietFences(s: State, step: Step)
    requires Possible(s, step) && FencesInv(s)
    requires !step.Decide? && !step.Invalidate? && !step.InvalidateTenant? && !step.Issue? && !step.Revoke?
    ensures FencesInv(Apply(s, step))
  {
    hide Remember, Moved, At;
  }

  lemma JoinShape(s: State, l: nat)
    requires l < |s.lookups|
    ensures var s' := Join(s, l);
      && s'.gen == s.gen && s'.keyFence == s.keyFence && s'.tenantFence == s.tenantFence
      && s'.fenced == s.fenced && s'.revoked == s.revoked && s'.store == s.store
      && s'.cache == s.cache && s'.sinceScan == s.sinceScan && s'.ttl == s.ttl
    ensures |Join(s, l).lookups| == |s.lookups|
    ensures forall m :: 0 <= m < |s.lookups| && m != l ==> Join(s, l).lookups[m] == s.lookups[m]
    ensures
      || Join(s, l).flights == s.flights
      || Join(s, l).flights == s.flights + [NewFlight(FlightKey(s.lookups[l].gen, s.lookups[l].key))]
  {
  }

  lemma JoinCurrent(current: map<FlightKey, nat>, flights: seq<Flight>, p: FlightKey)
    requires CurrentInv(current, flights)
    ensures CurrentInv(current[p := |flights|], flights + [NewFlight(p)])
  {
  }

  lemma MoveCurrent(current: map<FlightKey, nat>, flights: seq<Flight>, f: nat, x: Flight)
    requires CurrentInv(current, flights) && f < |flights| && x.gen == flights[f].gen && x.key == flights[f].key
    ensures CurrentInv(current, flights[f := x])
  {
  }

  lemma DropCurrent(current: map<FlightKey, nat>, flights: seq<Flight>, p: FlightKey)
    requires CurrentInv(current, flights)
    ensures CurrentInv(current - {p}, flights)
  {
  }

  lemma StepCurrent(s: State, step: Step)
    requires Possible(s, step) && CurrentInv(s.current, s.flights)
    ensures CurrentInv(Apply(s, step).current, Apply(s, step).flights)
  {
    hide CurrentInv, Remember;
    match step {
      case Decide(l) => JoinCurrent(s.current, s.flights, FlightKey(s.lookups[l].gen, s.lookups[l].key));
      case Clock(f) => StepFlight(s, step);
      case Begin(f) => StepFlight(s, step);
      case ReadStore(f) => StepFlight(s, step);
      case Finish(f) => StepFlight(s, step);
      case Fail(f) => StepFlight(s, step);
      case Drop(f) => DropCurrent(s.current, s.flights, FlightKey(s.flights[f].gen, s.flights[f].key));
      case _ =>
    }
  }

  lemma StepFlight(s: State, step: Step)
    requires Possible(s, step) && CurrentInv(s.current, s.flights)
    requires step.Clock? || step.Begin? || step.ReadStore? || step.Finish? || step.Fail?
    ensures CurrentInv(Apply(s, step).current, Apply(s, step).flights)
  {
    hide CurrentInv, Remember;
    var x := s.flights[step.f];
    MoveCurrent(s.current, s.flights, step.f, Moved(s, x, step));
  }

  lemma EnvKeeps(s: State, step: Step)
    requires Inv(s) && Possible(s, step) && (step.Tick? || step.Issue? || step.Revoke?)
    ensures Inv(Apply(s, step))
  {
    var s' := Apply(s, step);
    StepLater(s, step);
    StepFences(s, step);
    StepCurrent(s, step);
    hide Later, FencesInv, CurrentInv, EntryInv, FlightInv, LookupInv;
    EntriesFrame(s, s');
    FlightsFrame(s, s');
    LookupsFrame(s, s');
  }

  lemma DropShape(s: State, f: nat)
    requires Possible(s, Drop(f))
    ensures Apply(s, Drop(f)) == s.(current := Apply(s, Drop(f)).current)
  { }

  lemma DropKeeps(s: State, f: nat)
    requires Inv(s) && Possible(s, Drop(f))
    ensures Inv(Apply(s, Drop(f)))
  {
    hide Apply, Possible, Later, FencesInv, CurrentInv, EntryInv, FlightInv, LookupInv;
    var s' := Apply(s, Drop(f));
    DropShape(s, f);
    StepLater(s, Drop(f));
    StepFences(s, Drop(f));
    StepCurrent(s, Drop(f));
    EntriesFrame(s, s');
    FlightsFrame(s, s');
    LookupsFrame(s, s');
  }

  lemma InvalidatedEntries(s: State, step: Step)
    requires Inv(s) && Possible(s, step) && (step.Invalidate? || step.InvalidateTenant?)
    ensures var s' := Apply(s, step); forall k :: k in s'.cache ==> EntryInv(s', k, s'.cache[k])
  {
    var s' := Apply(s, step);
    StepLater(s, step);
    hide Later, FencesInv, CurrentInv, FlightInv, LookupInv;
    forall k | k in s'.cache ensures EntryInv(s', k, s'.cache[k]) {
      assert EntryInv(s, k, s.cache[k]);
      EntryFrame(s, s', k, s.cache[k]);
    }
  }

  lemma InvalidateKeeps(s: State, step: Step)
    requires Inv(s) && Possible(s, step) && (step.Invalidate? || step.InvalidateTenant?)
    ensures Inv(Apply(s, step))
  {
    var s' := Apply(s, step);
    StepLater(s, step);
    StepFences(s, step);
    StepCurrent(s, step);
    hide Later, FencesInv, CurrentInv, EntryInv, FlightInv, LookupInv;
    InvalidatedEntries(s, step);
    FlightsFrame(s, s');
    LookupsFrame(s, s');
    SubmapSize(s'.cache, s.cache);
  }

  lemma SubmapSize(a: map<Key, Entry>, b: map<Key, Entry>)
    requires a.Keys <= b.Keys
    ensures |a| <= |b|
  {
    SubsetSize(a.Keys, b.Keys);
  }

  lemma {:induction false} SubsetSize(a: set<Key>, b: set<Key>)
    requires a <= b
    ensures |a| <= |b|
  {
    if a != {} {
      var x :| x in a;
      SubsetSize(a - {x}, b - {x});
    }
  }

  lemma LookedUp(s: State, key: Key)
    requires Inv(s)
    ensures var s' := Apply(s, Look(key)); LookupInv(s', s'.lookups[|s.lookups|])
  {
    if key in s.cache { assert EntryInv(s, key, s.cache[key]); }
    hide FlightInv;
  }

  lemma LookKeeps(s: State, key: Key)
    requires Inv(s)
    ensures Inv(Apply(s, Look(key)))
  {
    var s' := Apply(s, Look(key));
    StepLater(s, Look(key));
    StepFences(s, Look(key));
    StepCurrent(s, Look(key));
    hide Later, FencesInv, CurrentInv, EntryInv, FlightInv, LookupInv;
    EntriesFrame(s, s');
    FlightsFrame(s, s');
    LookupsFrame(s, s');
    LookedUp(s, key);
  }

  lemma HitInv(s: State, x: Lookup, at: int)
    requires LookupInv(s, x) && x.phase.Looked? && x.entry.Some? && at < x.entry.value.expires
    ensures LookupInv(s, x.(phase := Hit(at)))
  {
  }

  lemma WaitInv(s: State, x: Lookup, f: nat)
    requires LookupInv(s, x) && x.phase.Looked?
    requires f < |s.flights| && s.flights[f].key == x.key && s.flights[f].gen == x.gen
    ensures LookupInv(s, x.(phase := Waiting(f)))
  {
  }

  lemma Decided(s: State, l0: nat)
    requires CurrentInv(s.current, s.flights) && Possible(s, Decide(l0)) && LookupInv(s, s.lookups[l0])
    ensures var s' := Apply(s, Decide(l0));
      LookupInv(s', s'.lookups[l0]) && (|s'.flights| > |s.flights| ==> FlightInv(s', s'.flights[|s.flights|]))
  {
    var s', x := Apply(s, Decide(l0)), s.lookups[l0];
    assert x.gen <= s.gen;
    StepLater(s, Decide(l0));
    hide Later, LookupInv;
    LookupFrame(s, s', x);
    if x.entry.Some? && s.clock < x.entry.value.expires { HitInv(s', x, s.clock); }
    else if FlightKey(x.gen, x.key) in s.current { WaitInv(s', x, s.current[FlightKey(x.gen, x.key)]); }
    else { WaitInv(s', x, |s.flights|); }
  }

  lemma DecideShape(s: State, l0: nat)
    requires Possible(s, Decide(l0))
    ensures var s' := Apply(s, Decide(l0));
      && |s.flights| <= |s'.flights| <= |s.flights| + 1
      && (forall f :: 0 <= f < |s.flights| ==> s'.flights[f] == s.flights[f])
      && |s'.lookups| == |s.lookups| && (forall l :: 0 <= l < |s.lookups| && l != l0 ==> s'.lookups[l] == s.lookups[l])
      && s'.cache == s.cache && s'.sinceScan == s.sinceScan && s'.ttl == s.ttl
      && s'.keyFence == s.keyFence && s'.tenantFence == s.tenantFence && s'.fenced == s.fenced
  {
    hide Join;
    JoinShape(s, l0);
  }

  lemma DecideFlights(s: State, l0: nat)
    requires Inv(s) && Possible(s, Decide(l0))
    ensures var s' := Apply(s, Decide(l0)); forall f :: 0 <= f < |s'.flights| ==> FlightInv(s', s'.flights[f])
  {
    assert l0 < |s.lookups|;
    hide Possible, Later, FencesInv, CurrentInv, EntryInv, FlightInv, LookupInv, Apply;
    StepLater(s, Decide(l0));
    DecideShape(s, l0);
    FlightsFrame(s, Apply(s, Decide(l0)));
    Decided(s, l0);
  }

  lemma DecideLookups(s: State, l0: nat)
    requires Inv(s) && Possible(s, Decide(l0))
    ensures var s' := Apply(s, Decide(l0)); forall l :: 0 <= l < |s'.lookups| ==> LookupInv(s', s'.lookups[l])
  {
    assert l0 < |s.lookups|;
    hide Possible, Later, FencesInv, CurrentInv, EntryInv, FlightInv, LookupInv, Apply;
    StepLater(s, Decide(l0));
    DecideShape(s, l0);
    LookupsFrame(s, Apply(s, Decide(l0)));
    Decided(s, l0);
  }

  lemma DecideKeeps(s: State, l0: nat)
    requires Inv(s) && Possible(s, Decide(l0))
    ensures Inv(Apply(s, Decide(l0)))
  {
    assert l0 < |s.lookups|;
    hide Possible, Later, FencesInv, CurrentInv, EntryInv, FlightInv, LookupInv, Apply;
    var s' := Apply(s, Decide(l0));
    StepLater(s, Decide(l0));
    StepFences(s, Decide(l0));
    StepCurrent(s, Decide(l0));
    DecideShape(s, l0);
    EntriesFrame(s, s');
    DecideFlights(s, l0);
    DecideLookups(s, l0);
  }

  lemma ReturnKeeps(s: State, l0: nat)
    requires Inv(s) && Possible(s, Return(l0))
    ensures Inv(Apply(s, Return(l0)))
  {
    var s' := Apply(s, Return(l0));
    assert LookupInv(s, s.lookups[l0]);
    assert LookupInv(s', s'.lookups[l0]);
    StepLater(s, Return(l0));
    StepFences(s, Return(l0));
    StepCurrent(s, Return(l0));
    hide Later, FencesInv, CurrentInv, EntryInv, FlightInv, LookupInv;
    EntriesFrame(s, s');
    FlightsFrame(s, s');
    LookupsFrame(s, s');
  }

  lemma MovedInv(s: State, x: Flight, step: Step)
    requires FencesInv(s) && FlightInv(s, x)
    requires match step
             case Clock(_) => x.stage.Created?
             case Begin(_) => x.stage.Clocked?
             case ReadStore(_) => x.stage.Loading?
             case Finish(_) => x.stage.Read?
             case Fail(_) => x.stage.Loading? || x.stage.Read?
             case _ => false
    ensures FlightInv(s, Moved(s, x, step))
  {
  }

  lemma FlightMoved(s: State, step: Step)
    requires Inv(s) && Possible(s, step)
    requires step.Clock? || step.Begin? || step.ReadStore? || step.Fail? || step.Finish?
    ensures FlightInv(Apply(s, step), Apply(s, step).flights[step.f])
  {
    var x := s.flights[step.f];
    assert FlightInv(s, x);
    MovedInv(s, x, step);
    StepLater(s, step);
    hide Later, FlightInv, FencesInv, CurrentInv, LookupInv, EntryInv, Remember, Moved;
    FlightFrame(s, Apply(s, step), Moved(s, x, step));
  }

  lemma FlightKeeps(s: State, step: Step)
    requires Inv(s) && Possible(s, step) && (step.Clock? || step.Begin? || step.ReadStore? || step.Fail?)
    ensures Inv(Apply(s, step))
  {
    var s' := Apply(s, step);
    StepLater(s, step);
    StepFences(s, step);
    StepCurrent(s, step);
    hide Later, FencesInv, CurrentInv, EntryInv, FlightInv, LookupInv;
    EntriesFrame(s, s');
    FlightsFrame(s, s');
    LookupsFrame(s, s');
    FlightMoved(s, step);
  }

  /** An answer is only remembered if nothing was invalidated since its load was keyed. */
  lemma RememberKeeps(s: State, x: Flight)
    requires Inv(s) && FlightInv(s, x) && x.stage.Read? && x.gen == s.gen
    ensures EntryInv(s, x.key, EntryOf(s, x))
    ensures forall k :: k in Remember(s.cache, x.key, EntryOf(s, x), s.clock) ==>
      EntryInv(s, k, Remember(s.cache, x.key, EntryOf(s, x), s.clock)[k])
  {
  }

  lemma RememberSize(m: map<Key, Entry>, k: Key, e: Entry, now: int)
    requires |m| <= MAX_ENTRIES
    ensures |Remember(m, k, e, now)| <= MAX_ENTRIES
    ensures Scans(m, k) ==> |Remember(m, k, e, now)| <= MAX_ENTRIES * 3 / 4 + 1
    ensures k in m ==> |Remember(m, k, e, now)| == |m|
    ensures k !in m && !Scans(m, k) ==> |Remember(m, k, e, now)| == |m| + 1
  {
    var base := if Scans(m, k) then Roomier(m, now) else m;
    assert base[k := e].Keys == base.Keys + {k};
  }

  lemma FinishedEntries(s: State, f0: nat)
    requires Inv(s) && Possible(s, Finish(f0))
    ensures var s' := Apply(s, Finish(f0));
      && (forall k :: k in s'.cache ==> EntryInv(s', k, s'.cache[k]))
      && |s'.cache| <= MAX_ENTRIES && |s'.cache| <= MAX_ENTRIES * 3 / 4 + s'.sinceScan
  {
    var s' := Apply(s, Finish(f0));
    var x := s.flights[f0];
    assert FlightInv(s, x);
    StepLater(s, Finish(f0));
    hide Later, FencesInv, CurrentInv, FlightInv, LookupInv, Remember, Roomier;
    if s.gen == x.gen {
      RememberKeeps(s, x);
      RememberSize(s.cache, x.key, EntryOf(s, x), s.clock);
    }
    forall k | k in s'.cache ensures EntryInv(s', k, s'.cache[k]) {
      assert EntryInv(s, k, s'.cache[k]);
      EntryFrame(s, s', k, s'.cache[k]);
    }
  }

  lemma FinishKeeps(s: State, f0: nat)
    requires Inv(s) && Possible(s, Finish(f0))
    ensures Inv(Apply(s, Finish(f0)))
  {
    var s' := Apply(s, Finish(f0));
    StepLater(s, Finish(f0));
    StepFences(s, Finish(f0));
    StepCurrent(s, Finish(f0));
    hide Later, FencesInv, CurrentInv, EntryInv, FlightInv, LookupInv, Remember;
    FlightsFrame(s, s');
    LookupsFrame(s, s');
    FinishedEntries(s, f0);
    FlightMoved(s, Finish(f0));
  }

  lemma {:induction false} RunInv(states: seq<State>, steps: seq<Step>, k: nat)
    requires Run(states, steps) && k < |states|
    ensures Inv(states[k])
  {
    if k > 0 {
      RunInv(states, steps, k - 1);
      var s, step := states[k - 1], steps[k - 1];
      assert Possible(s, step) && states[k] == Apply(s, step);
      hide Inv, Apply, Run;
      match step {
        case Look(key) => LookKeeps(s, key);
        case Decide(l) => DecideKeeps(s, l);
        case Return(l) => ReturnKeeps(s, l);
        case Finish(f) => FinishKeeps(s, f);
        case Invalidate(_) => InvalidateKeeps(s, step);
        case InvalidateTenant(_) => InvalidateKeeps(s, step);
        case Clock(_) => FlightKeeps(s, step);
        case Begin(_) => FlightKeeps(s, step);
        case ReadStore(_) => FlightKeeps(s, step);
        case Fail(_) => FlightKeeps(s, step);
        case Drop(f) => DropKeeps(s, f);
        case _ => EnvKeeps(s, step);
      }
    }
  }

  // ---- what a lookup is answered with ---------------------------------------------------

  /** The answer of a lookup that is over, and the generation its store read began in. */
  predicate Over(s: State, l: nat) {
    && l < |s.lookups|
    && ((s.lookups[l].phase.Hit? && s.lookups[l].entry.Some?) ||
        (s.lookups[l].phase.Answered? && s.lookups[l].phase.flight < |s.flights| &&
         s.flights[s.lookups[l].phase.flight].stage.Loaded?))
  }

  function Answer(s: State, l: nat): Tenant
    requires Over(s, l)
  {
    var x := s.lookups[l];
    if x.phase.Hit? then x.entry.value.tenant else s.flights[x.phase.flight].stage.tenant
  }

  function ReadGen(s: State, l: nat): nat
    requires Over(s, l)
  {
    var x := s.lookups[l];
    if x.phase.Hit? then x.entry.value.readGen else s.flights[x.phase.flight].readGen
  }

  /** A lookup is answered from a store read of a generation no earlier than the fences it
      found of its key, and of the tenant it answers with. */
  lemma ReadBehindFences(states: seq<State>, steps: seq<Step>, k: nat, l: nat)
    requires Run(states, steps) && k < |states| && Over(states[k], l)
    ensures var x := states[k].lookups[l];
      && x.keyFence <= ReadGen(states[k], l)
      && At(x.tenantFence, Answer(states[k], l)) <= ReadGen(states[k], l)
  {
    RunInv(states, steps, k);
    hide Run;
    var s, x := states[k], states[k].lookups[l];
    assert LookupInv(s, x);
    if x.phase.Answered? { assert FlightInv(s, s.flights[x.phase.flight]); }
  }

  lemma RunStep(states: seq<State>, steps: seq<Step>, k: nat)
    requires Run(states, steps) && 0 < k < |states|
    ensures k <= |steps| && Possible(states[k - 1], steps[k - 1]) && states[k] == Apply(states[k - 1], steps[k - 1])
  {
    hide Possible, Apply;
  }

  lemma RevokedStep(s: State, step: Step)
    requires Possible(s, step)
    ensures s.revoked <= Apply(s, step).revoked
    ensures step.Revoke? ==> step.k in Apply(s, step).revoked
  {
    hide Remember, Moved, At, Join, WithoutTenant;
    if step.Decide? { JoinShape(s, step.l); }
  }

  lemma {:induction false} StaysRevoked(states: seq<State>, steps: seq<Step>, i: nat, k: nat, key: Key)
    requires Run(states, steps) && i < k < |states| && steps[i] == Revoke(key)
    ensures key in states[k].revoked
    decreases k
  {
    hide Run, Apply, Possible;
    RunStep(states, steps, k);
    RevokedStep(states[k - 1], steps[k - 1]);
    if i < k - 1 { StaysRevoked(states, steps, i, k - 1, key); }
  }

  /** The key is fenced, and lookups of it from the n-th on began behind the fence. */
  predicate Refusing(s: State, key: Key, n: nat) {
    key in s.fenced && BehindFence(s.lookups, key, n)
  }

  predicate BehindFence(lookups: seq<Lookup>, key: Key, n: nat) {
    forall l :: n <= l < |lookups| && lookups[l].key == key ==> lookups[l].revoked
  }

  lemma PhaseBehind(lookups: seq<Lookup>, key: Key, n: nat, l: nat, phase: Phase)
    requires BehindFence(lookups, key, n) && l < |lookups|
    ensures BehindFence(lookups[l := lookups[l].(phase := phase)], key, n)
  { }

  lemma JoinRefuses(s: State, l: nat, key: Key, n: nat)
    requires Refusing(s, key, n) && l < |s.lookups|
    ensures Refusing(Join(s, l), key, n)
  {
    hide BehindFence;
    var p := FlightKey(s.lookups[l].gen, s.lookups[l].key);
    PhaseBehind(s.lookups, key, n, l, Waiting(if p in s.current then s.current[p] else |s.flights|));
  }

  lemma StillRefusing(s: State, step: Step, key: Key, n: nat)
    requires Refusing(s, key, n) && Possible(s, step)
    ensures Refusing(Apply(s, step), key, n)
  {
    hide Remember, Moved, At, Join, WithoutTenant;
    match step {
      case Decide(l) =>
        hide BehindFence;
        JoinRefuses(s, l, key, n);
        PhaseBehind(s.lookups, key, n, l, Hit(s.clock));
      case Return(l) =>
        hide BehindFence;
        PhaseBehind(s.lookups, key, n, l, Answered(s.lookups[l].phase.flight));
      case Look(_) =>
      case _ => hide BehindFence;
    }
  }

  /** The invalidation of a revoked key puts up the fence. */
  lemma StartsRefusing(s: State, key: Key)
    requires key in s.revoked
    ensures Refusing(Apply(s, Invalidate(key)), key, |s.lookups|)
  { }

  lemma {:induction false} RefusingRun(states: seq<State>, steps: seq<Step>, i: nat, j: nat, k: nat, key: Key)
    requires Run(states, steps) && i < j < k < |states| && steps[i] == Revoke(key) && steps[j] == Invalidate(key)
    ensures Refusing(states[k], key, |states[j].lookups|)
    decreases k
  {
    hide Run, Apply, Possible, Refusing;
    RunStep(states, steps, k);
    if k == j + 1 {
      StaysRevoked(states, steps, i, j, key);
      StartsRefusing(states[j], key);
    } else {
      RefusingRun(states, steps, i, j, k - 1, key);
      StillRefusing(states[k - 1], steps[k - 1], key, |states[j].lookups|);
    }
  }

  /** A key that was revoked in the store and then invalidated is refused by every lookup
      that begins afterwards. */
  lemma RevokedStaysRevoked(states: seq<State>, steps: seq<Step>, i: nat, j: nat, k: nat, l: nat, key: Key)
    requires Run(states, steps) && i < j < k < |states| && steps[i] == Revoke(key) && steps[j] == Invalidate(key)
    requires l >= |states[j].lookups| && Over(states[k], l) && states[k].lookups[l].key == key
    ensures Answer(states[k], l) == ""
  {
    RefusingRun(states, steps, i, j, k, key);
    RunInv(states, steps, k);
    hide Run;
    var s, x := states[k], states[k].lookups[l];
    assert LookupInv(s, x);
    if x.phase.Answered? { assert FlightInv(s, s.flights[x.phase.flight]); }
  }

  /** A hit carries a value whose store read began less than the TTL before it. */
  lemma HitWithinTtl(states: seq<State>, steps: seq<Step>, k: nat, l: nat)
    requires Run(states, steps) && k < |states| && l < |states[k].lookups| && states[k].lookups[l].phase.Hit?
    ensures states[k].lookups[l].entry.Some?
    ensures states[k].lookups[l].phase.at - states[k].ttl < states[k].lookups[l].entry.value.readAt
  {
    RunInv(states, steps, k);
    hide Run;
    assert LookupInv(states[k], states[k].lookups[l]);
  }

  /** The cache is bounded, and between two scans of it more than a quarter of its bound is
      inserted under new keys. */
  lemma BoundedAndAmortised(states: seq<State>, steps: seq<Step>, k: nat)
    requires Run(states, steps) && k < |states|
    ensures |states[k].cache| <= MAX_ENTRIES
    ensures k < |steps| && steps[k].Finish? && Scans(states[k].cache, states[k].flights[steps[k].f].key) ==>
      states[k].sinceScan >= MAX_ENTRIES / 4
  {
    RunInv(states, steps, k);
    assert k < |steps| ==> Possible(states[k], steps[k]);
    hide Run;
  }

  // ---- a deleted tenant -----------------------------------------------------------------

  /** The load has not read tenant t. */
  predicate Free(x: Flight, t: Tenant) {
    x.stage.Read? || x.stage.Loaded? ==> x.stage.tenant != t
  }

  predicate FlightsFree(flights: seq<Flight>, t: Tenant, g: nat) {
    forall f :: 0 <= f < |flights| && flights[f].gen >= g ==> Free(flights[f], t)
  }

  predicate CacheFree(m: map<Key, Entry>, t: Tenant) {
    forall k :: k in m ==> m[k].tenant != t
  }

  predicate LookupsFree(lookups: seq<Lookup>, t: Tenant, g: nat, n: nat) {
    forall l :: n <= l < |lookups| ==>
      lookups[l].gen >= g && (lookups[l].entry.Some? ==> lookups[l].entry.value.tenant != t)
  }

  /** Nothing that a lookup of generation g or later can be answered from names tenant t:
      not the store, not the cache, no such load, none of the lookups from the n-th on. */
  predicate Forgotten(s: State, t: Tenant, g: nat, n: nat) {
    && s.gen >= g && (forall k :: k in s.store ==> s.store[k] != t)
    && CacheFree(s.cache, t) && FlightsFree(s.flights, t, g) && LookupsFree(s.lookups, t, g, n)
  }

  /** The invalidation of a tenant without keys in the store leaves no trace of it. */
  lemma ForgottenStarts(s: State, t: Tenant)
    requires Inv(s) && t != "" && forall k :: k in s.store ==> s.store[k] != t
    ensures Forgotten(Apply(s, InvalidateTenant(t)), t, s.gen + 1, |s.lookups|)
  {
    forall f | 0 <= f < |s.flights| ensures s.flights[f].gen <= s.gen {
      assert FlightInv(s, s.flights[f]);
    }
    hide Inv, At;
  }

  lemma FreeAt(flights: seq<Flight>, t: Tenant, g: nat, f: nat, x: Flight)
    requires FlightsFree(flights, t, g) && f < |flights| && (x.gen >= g ==> Free(x, t))
    ensures FlightsFree(flights[f := x], t, g)
  {
  }

  lemma RememberFree(m: map<Key, Entry>, k: Key, e: Entry, now: int, t: Tenant)
    requires CacheFree(m, t) && e.tenant != t
    ensures CacheFree(Remember(m, k, e, now), t)
  {
  }

  lemma ForgottenFlight(s: State, step: Step, t: Tenant, g: nat, n: nat)
    requires Forgotten(s, t, g, n) && t != "" && Possible(s, step)
    requires step.Clock? || step.Begin? || step.ReadStore? || step.Finish? || step.Fail?
    ensures Forgotten(Apply(s, step), t, g, n)
  {
    var x := s.flights[step.f];
    assert x.gen >= g ==> Free(x, t) && Free(Moved(s, x, step), t);
    FreeAt(s.flights, t, g, step.f, Moved(s, x, step));
    if step.Finish? && x.gen == s.gen { RememberFree(s.cache, x.key, EntryOf(s, x), s.clock, t); }
    hide FlightsFree, CacheFree, LookupsFree, Remember, Moved, At;
  }

  lemma WaitFree(lookups: seq<Lookup>, t: Tenant, g: nat, n: nat, l: nat, phase: Phase)
    requires LookupsFree(lookups, t, g, n) && l < |lookups|
    ensures LookupsFree(lookups[l := lookups[l].(phase := phase)], t, g, n)
  {
  }

  lemma JoinFree(flights: seq<Flight>, t: Tenant, g: nat, p: FlightKey)
    requires FlightsFree(flights, t, g)
    ensures FlightsFree(flights + [NewFlight(p)], t, g)
  {
  }

  lemma ForgottenJoin(s: State, l: nat, t: Tenant, g: nat, n: nat)
    requires Forgotten(s, t, g, n) && l < |s.lookups|
    ensures Forgotten(Join(s, l), t, g, n)
  {
    var p := FlightKey(s.lookups[l].gen, s.lookups[l].key);
    hide FlightsFree, CacheFree, LookupsFree;
    WaitFree(s.lookups, t, g, n, l, Waiting(if p in s.current then s.current[p] else |s.flights|));
    JoinFree(s.flights, t, g, p);
  }

  lemma ForgottenDecide(s: State, l: nat, t: Tenant, g: nat, n: nat)
    requires Forgotten(s, t, g, n) && Possible(s, Decide(l))
    ensures Forgotten(Apply(s, Decide(l)), t, g, n)
  {
    hide FlightsFree, CacheFree, LookupsFree, Join;
    ForgottenJoin(s, l, t, g, n);
    WaitFree(s.lookups, t, g, n, l, Hit(s.clock));
  }

  lemma ForgottenStays(s: State, step: Step, t: Tenant, g: nat, n: nat)
    requires Forgotten(s, t, g, n) && t != "" && Possible(s, step)
    requires step.Issue? ==> step.t != t
    ensures Forgotten(Apply(s, step), t, g, n)
  {
    match step {
      case Decide(l) => ForgottenDecide(s, l, t, g, n);
      case Finish(_) => ForgottenFlight(s, step, t, g, n);
      case Clock(_) => ForgottenFlight(s, step, t, g, n);
      case Begin(_) => ForgottenFlight(s, step, t, g, n);
      case ReadStore(_) => ForgottenFlight(s, step, t, g, n);
      case Fail(_) => ForgottenFlight(s, step, t, g, n);
      case _ =>
    }
  }

  lemma {:induction false} ForgottenRun(states: seq<State>, steps: seq<Step>, j: nat, k: nat, t: Tenant)
    requires Run(states, steps) && j < k < |states| && steps[j] == InvalidateTenant(t)
    requires forall key :: key in states[j].store ==> states[j].store[key] != t
    requires forall i :: j < i < k && steps[i].Issue? ==> steps[i].t != t
    ensures t != "" && Forgotten(states[k], t, states[j].gen + 1, |states[j].lookups|)
    decreases k
  {
    hide Forgotten, Inv;
    assert Possible(states[k - 1], steps[k - 1]) && states[k] == Apply(states[k - 1], steps[k - 1]);
    if k == j + 1 {
      RunInv(states, steps, j);
      ForgottenStarts(states[j], t);
    } else {
      ForgottenRun(states, steps, j, k - 1, t);
      ForgottenStays(states[k - 1], steps[k - 1], t, states[j].gen + 1, |states[j].lookups|);
    }
  }

  /** A tenant whose keys are gone from the store, and that is then invalidated, is the
      answer of no lookup that begins afterwards, unless it is given a key again. */
  lemma DeletedTenantStaysDeleted(states: seq<State>, steps: seq<Step>, j: nat, k: nat, l: nat, t: Tenant)
    requires Run(states, steps) && j < k < |states| && steps[j] == InvalidateTenant(t)
    requires forall key :: key in states[j].store ==> states[j].store[key] != t
    requires forall i :: j < i < k && steps[i].Issue? ==> steps[i].t != t
    requires l >= |states[j].lookups| && Over(states[k], l)
    ensures Answer(states[k], l) != t
  {
    ForgottenRun(states, steps, j, k, t);
    RunInv(states, steps, k);
    hide Run;
    var s, x := states[k], states[k].lookups[l];
    assert LookupInv(s, x);
    if x.phase.Answered? { assert Free(s.flights[x.phase.flight], t); }
  }
}
