/**
 Where the answers of the API key cache come from, in terms of the steps of a run.  Every
 lookup that is over, hit or not, was answered with what the store held for its key when
 some load of that key read it; that load began after every invalidation that came before
 the lookup.  Loads of one generation and key are shared, and what they loaded is cached.
 */
module ApiKeyAnswers {
  import opened ApiKeyCache

  // ---- one step ----------------------------------------------------------------------

  function Held(s: State, key: Key): Tenant {
    if key in s.store then s.store[key] else ""
  }

  predicate OfFlight(step: Step, f: nat) {
    && (step.Clock? || step.Begin? || step.ReadStore? || step.Finish? || step.Fail?)
    && step.f == f
  }

  lemma FlightStep(s: State, step: Step, f: nat)
    requires Possible(s, step) && f < |Apply(s, step).flights|
    ensures f < |s.flights| && OfFlight(step, f) ==> Apply(s, step).flights[f] == Moved(s, s.flights[f], step)
    ensures f < |s.flights| && !OfFlight(step, f) ==> Apply(s, step).flights[f] == s.flights[f]
    ensures f >= |s.flights| ==> Apply(s, step).flights[f].stage.Created?
  {
    hide Remember, Moved, At, WithoutTenant, Join;
    if step.Decide? { JoinShape(s, step.l); }
  }

  predicate Reading(x: Flight) {
    x.stage.Loading? || x.stage.Read? || x.stage.Loaded?
  }

  predicate HasRead(x: Flight) {
    x.stage.Read? || x.stage.Loaded?
  }

  lemma ReadingStep(s: State, step: Step, f: nat)
    requires Possible(s, step) && f < |Apply(s, step).flights| && Reading(Apply(s, step).flights[f])
    ensures f < |s.flights| && s.flights[f].key == Apply(s, step).flights[f].key
    ensures var x, x' := s.flights[f], Apply(s, step).flights[f];
      if step == Begin(f) then !HasRead(x') && x'.readGen == s.gen && x'.readAt == s.clock
      else
        && Reading(x) && x'.readGen == x.readGen && x'.readAt == x.readAt
        && (HasRead(x') ==>
              if step == ReadStore(f) then x'.stage.tenant == Held(s, x.key)
              else HasRead(x) && x'.stage.tenant == x.stage.tenant)
  {
    FlightStep(s, step, f);
    hide Apply;
  }

  lemma CacheStep(s: State, step: Step, key: Key)
    requires Possible(s, step) && key in Apply(s, step).cache
    ensures
      || (key in s.cache && Apply(s, step).cache[key] == s.cache[key])
      || (step.Finish? && step.f < |s.flights| && s.flights[step.f].key == key && s.flights[step.f].stage.Read?
          && Apply(s, step).cache[key] == EntryOf(s, s.flights[step.f]))
  {
    hide Moved, At;
    if step.Decide? { JoinShape(s, step.l); hide Join; }
  }

  lemma JoinLookups(s: State, l: nat)
    requires l < |s.lookups|
    ensures var j := Join(s, l).lookups;
      |j| == |s.lookups| && j[l].phase.Waiting? && j == s.lookups[l := s.lookups[l].(phase := j[l].phase)]
  { }

  lemma LookupStep(s: State, step: Step, l: nat)
    requires Possible(s, step) && l < |Apply(s, step).lookups|
    ensures l < |s.lookups| ==> Apply(s, step).lookups[l].(phase := Looked) == s.lookups[l].(phase := Looked)
    ensures l >= |s.lookups| ==> l == |s.lookups| && step == Look(Apply(s, step).lookups[l].key)
  {
    hide Remember, Moved, At, WithoutTenant, Join;
    if step.Decide? { JoinLookups(s, step.l); }
  }

  // ---- where a load's answer comes from --------------------------------------------------

  /** Step b begins a store read of the key, in generation gen at time at, and step r of the
      same load finds the tenant there. */
  predicate ReadBy(states: seq<State>, steps: seq<Step>, b: nat, r: nat, key: Key, gen: nat, at: int, tenant: Tenant)
    requires |states| == |steps| + 1
  {
    && b < r < |steps| && steps[b].Begin? && steps[r] == ReadStore(steps[b].f)
    && steps[b].f < |states[b].flights| && states[b].flights[steps[b].f].key == key
    && states[b].gen == gen && states[b].clock == at
    && tenant == Held(states[r], key)
  }

  lemma {:induction false} FlightBegan(states: seq<State>, steps: seq<Step>, k: nat, f: nat) returns (b: nat)
    requires Run(states, steps) && k < |states| && f < |states[k].flights|
    requires Reading(states[k].flights[f])
    ensures b < k && steps[b] == Begin(f) && f < |states[b].flights|
    ensures var x := states[k].flights[f];
      states[b].flights[f].key == x.key && states[b].gen == x.readGen && states[b].clock == x.readAt
  {
    hide Run, Apply, Possible;
    if k == 0 {
      AtFirst(states, steps);
      assert false;
    } else {
      RunStep(states, steps, k);
      hide Reading, HasRead;
      ReadingStep(states[k - 1], steps[k - 1], f);
      if steps[k - 1] == Begin(f) { b := k - 1; } else { b := FlightBegan(states, steps, k - 1, f); }
    }
  }

  lemma AtFirst(states: seq<State>, steps: seq<Step>)
    requires Run(states, steps)
    ensures states[0].flights == [] && states[0].cache == map[] && states[0].lookups == []
  { }

  lemma {:induction false} FlightRead(states: seq<State>, steps: seq<Step>, k: nat, f: nat) returns (b: nat, r: nat)
    requires Run(states, steps) && k < |states| && f < |states[k].flights|
    requires HasRead(states[k].flights[f])
    ensures |states| == |steps| + 1 && r < k
    ensures var x := states[k].flights[f]; ReadBy(states, steps, b, r, x.key, x.readGen, x.readAt, x.stage.tenant)
  {
    hide Run, Apply, Possible, Held;
    RunShape(states, steps);
    if k == 0 {
      AtFirst(states, steps);
      assert false;
    } else {
      RunStep(states, steps, k);
      ReadingStep(states[k - 1], steps[k - 1], f);
      if steps[k - 1] == ReadStore(f) {
        b := FlightBegan(states, steps, k - 1, f);
        r := k - 1;
      } else {
        b, r := FlightRead(states, steps, k - 1, f);
      }
    }
  }

  lemma RunShape(states: seq<State>, steps: seq<Step>)
    requires Run(states, steps)
    ensures |states| == |steps| + 1
  { }

  lemma {:induction false} EntryRead(states: seq<State>, steps: seq<Step>, k: nat, key: Key) returns (b: nat, r: nat)
    requires Run(states, steps) && k < |states| && key in states[k].cache
    ensures |states| == |steps| + 1 && r < k
    ensures var e := states[k].cache[key]; ReadBy(states, steps, b, r, key, e.readGen, e.readAt, e.tenant)
  {
    hide Run, Apply, Possible, ReadBy;
    RunShape(states, steps);
    if k == 0 {
      AtFirst(states, steps);
      assert false;
    } else {
      RunStep(states, steps, k);
      CacheStep(states[k - 1], steps[k - 1], key);
      if key in states[k - 1].cache && states[k].cache[key] == states[k - 1].cache[key] {
        b, r := EntryRead(states, steps, k - 1, key);
      } else {
        b, r := FlightRead(states, steps, k - 1, steps[k - 1].f);
      }
    }
  }

  /** The step that began lookup l, and what it found. */
  predicate Began(s: State, step: Step, l: nat, x: Lookup) {
    && step == Look(x.key) && |s.lookups| == l
    && x.entry == (if x.key in s.cache then Some(s.cache[x.key]) else None)
    && x.gen == s.gen && x.keyFence == At(s.keyFence, x.key) && x.tenantFence == s.tenantFence
  }

  lemma {:induction false} LookupBegan(states: seq<State>, steps: seq<Step>, k: nat, l: nat) returns (p: nat)
    requires Run(states, steps) && k < |states| && l < |states[k].lookups|
    ensures |states| == |steps| + 1 && p < k && Began(states[p], steps[p], l, states[k].lookups[l])
  {
    hide Run, Apply, Possible, At;
    RunShape(states, steps);
    if k == 0 {
      AtFirst(states, steps);
      assert false;
    } else {
      RunStep(states, steps, k);
      LookupStep(states[k - 1], steps[k - 1], l);
      if l < |states[k - 1].lookups| {
        p := LookupBegan(states, steps, k - 1, l);
      } else {
        p := k - 1;
        NewLookup(states[p], states[k].lookups[l].key);
      }
    }
  }

  lemma NewLookup(s: State, key: Key)
    ensures var s' := Apply(s, Look(key));
      |s'.lookups| == |s.lookups| + 1 && Began(s, Look(key), |s.lookups|, s'.lookups[|s.lookups|])
  { }

  // ---- before which invalidations --------------------------------------------------------

  lemma GenStep(s: State, step: Step)
    requires Possible(s, step)
    ensures s.gen <= Apply(s, step).gen
  {
    StepLater(s, step);
    hide Apply;
  }

  lemma {:induction false} GenGrows(states: seq<State>, steps: seq<Step>, j: nat, k: nat)
    requires Run(states, steps) && j <= k < |states|
    ensures states[j].gen <= states[k].gen
  {
    hide Run, Apply, Possible;
    if j < k {
      GenGrows(states, steps, j, k - 1);
      RunStep(states, steps, k);
      GenStep(states[k - 1], steps[k - 1]);
    }
  }

  predicate Invalidates(step: Step, key: Key, tenant: Tenant) {
    step == Invalidate(key) || step == InvalidateTenant(tenant)
  }

  lemma FenceStep(s: State, step: Step, key: Key, tenant: Tenant)
    requires Possible(s, step) && FencesInv(s)
    ensures var s' := Apply(s, step);
      && At(s.keyFence, key) <= At(s'.keyFence, key) && At(s.tenantFence, tenant) <= At(s'.tenantFence, tenant)
      && (step == Invalidate(key) ==> At(s'.keyFence, key) > s.gen)
      && (step == InvalidateTenant(tenant) ==> At(s'.tenantFence, tenant) > s.gen)
  {
    hide Remember, Moved, WithoutTenant;
    if step.Decide? { JoinShape(s, step.l); hide Join; }
  }

  lemma {:induction false} FenceUp(states: seq<State>, steps: seq<Step>, i: nat, k: nat, key: Key, tenant: Tenant)
    requires Run(states, steps) && i < k < |states| && |states| == |steps| + 1 && Invalidates(steps[i], key, tenant)
    ensures steps[i] == Invalidate(key) ==> At(states[k].keyFence, key) > states[i].gen
    ensures steps[i] == InvalidateTenant(tenant) ==> At(states[k].tenantFence, tenant) > states[i].gen
    decreases k
  {
    hide Run, Apply, Possible, At, FencesInv;
    RunStep(states, steps, k);
    RunInv(states, steps, k - 1);
    FenceStep(states[k - 1], steps[k - 1], key, tenant);
    if i < k - 1 { FenceUp(states, steps, i, k - 1, key, tenant); }
  }

  /** Every lookup that is over, hit or not, is answered with what the store held for its
      key when a load of that key read it, and the load began that read after every
      invalidation, of the key or of the tenant it answers with, that came before the
      lookup. */
  lemma AnsweredAfterInvalidation(states: seq<State>, steps: seq<Step>, k: nat, l: nat)
    returns (p: nat, b: nat, r: nat)
    requires Run(states, steps) && k < |states| && Over(states[k], l)
    ensures |states| == |steps| + 1 && p < k && steps[p] == Look(states[k].lookups[l].key) && |states[p].lookups| == l
    ensures r < k && Answer(states[k], l) == Held(states[r], states[k].lookups[l].key)
    ensures b < r && steps[b].Begin? && steps[r] == ReadStore(steps[b].f)
    ensures states[b].gen == ReadGen(states[k], l)
    ensures forall i :: 0 <= i < p && Invalidates(steps[i], states[k].lookups[l].key, Answer(states[k], l)) ==> i < b
    ensures states[k].lookups[l].phase.Hit? ==> states[k].lookups[l].phase.at - states[k].ttl < states[b].clock
  {
    assert l < |states[k].lookups|;
    hide Run, Inv, Over, Held;
    RunShape(states, steps);
    p := LookupBegan(states, steps, k, l);
    var key, tenant := states[k].lookups[l].key, Answer(states[k], l);
    b, r := AnswerRead(states, steps, k, l, p);
    ReadBehindFences(states, steps, k, l);
    forall i | 0 <= i < p && Invalidates(steps[i], key, tenant) ensures i < b {
      FenceUp(states, steps, i, p, key, tenant);
      if b <= i { GenGrows(states, steps, b, i); }
    }
    if states[k].lookups[l].phase.Hit? { HitWithinTtl(states, steps, k, l); }
  }

  lemma AnswerRead(states: seq<State>, steps: seq<Step>, k: nat, l: nat, p: nat) returns (b: nat, r: nat)
    requires Run(states, steps) && k < |states| && Over(states[k], l)
    requires |states| == |steps| + 1 && p < k && Began(states[p], steps[p], l, states[k].lookups[l])
    ensures r < k && b < r && steps[b].Begin? && steps[r] == ReadStore(steps[b].f)
    ensures Answer(states[k], l) == Held(states[r], states[k].lookups[l].key)
    ensures states[b].gen == ReadGen(states[k], l)
    ensures states[k].lookups[l].phase.Hit? ==>
      states[k].lookups[l].entry.Some? && states[b].clock == states[k].lookups[l].entry.value.readAt
  {
    var x := states[k].lookups[l];
    if x.phase.Hit? {
      b, r := EntryRead(states, steps, p, x.key);
    } else {
      b, r := FlightRead(states, steps, k, x.phase.flight);
      RunInv(states, steps, k);
      assert LookupInv(states[k], x);
    }
    hide Run, Inv;
  }

  /** A key whose record in the store has not changed since it was last invalidated, or ever
      if it never was, is answered with that record by every later lookup. */
  lemma SteadyKey(states: seq<State>, steps: seq<Step>, m: nat, k: nat, l: nat, v: Tenant)
    requires Run(states, steps) && |states| == |steps| + 1 && m <= k < |states| && Over(states[k], l)
    requires m > 0 ==> steps[m - 1] == Invalidate(states[k].lookups[l].key) && |states[m].lookups| <= l
    requires forall i :: m <= i < k ==> Held(states[i], states[k].lookups[l].key) == v
    ensures Answer(states[k], l) == v
  {
    hide Run, Over, Held;
    var p, b, r := AnsweredAfterInvalidation(states, steps, k, l);
    if m > 0 && p < m - 1 { LookupsGrow(states, steps, p + 1, m); NewOne(states, steps, p); }
    assert m > 0 && p >= m - 1 ==> p != m - 1;
  }

  lemma {:induction false} LookupsGrow(states: seq<State>, steps: seq<Step>, j: nat, k: nat)
    requires Run(states, steps) && j <= k < |states|
    ensures |states[j].lookups| <= |states[k].lookups|
  {
    if j < k {
      LookupsGrow(states, steps, j, k - 1);
      RunStep(states, steps, k);
      hide Run;
      LookupsStep(states[k - 1], steps[k - 1]);
    }
  }

  lemma LookupsStep(s: State, step: Step)
    requires Possible(s, step)
    ensures |s.lookups| <= |Apply(s, step).lookups|
  {
    hide Remember, Moved, At, WithoutTenant, Join;
    if step.Decide? { JoinLookups(s, step.l); }
  }

  lemma NewOne(states: seq<State>, steps: seq<Step>, p: nat)
    requires Run(states, steps) && p < |steps| && steps[p].Look?
    ensures p + 1 < |states| && |states[p + 1].lookups| == |states[p].lookups| + 1
  {
    RunStep(states, steps, p + 1);
    hide Run;
  }

  // ---- sharing ----------------------------------------------------------------------------

  predicate Unfinished(x: Flight) {
    !x.stage.Loaded? && !x.stage.Failed?
  }

  /** The group knows every load that is not finished. */
  predicate Known(s: State, f: nat) {
    f < |s.flights| && Unfinished(s.flights[f]) ==>
      FlightKey(s.flights[f].gen, s.flights[f].key) in s.current
      && s.current[FlightKey(s.flights[f].gen, s.flights[f].key)] == f
  }

  lemma JoinKnown(s: State, l: nat, f: nat)
    requires l < |s.lookups| && Known(s, f)
    ensures Known(Join(s, l), f)
  { }

  lemma MovedUnfinished(s: State, step: Step, f: nat)
    requires Possible(s, step) && f < |s.flights| && OfFlight(step, f)
    ensures var x, x' := s.flights[f], Moved(s, s.flights[f], step);
      x'.gen == x.gen && x'.key == x.key && (Unfinished(x') ==> Unfinished(x))
  { }

  lemma QuietCurrent(s: State, step: Step)
    requires Possible(s, step) && !step.Decide? && !step.Drop?
    ensures Apply(s, step).current == s.current && |Apply(s, step).flights| == |s.flights|
  {
    hide Remember, Moved, At, WithoutTenant;
  }

  lemma KnownStep(s: State, step: Step, f: nat)
    requires Possible(s, step) && Known(s, f)
    ensures Known(Apply(s, step), f)
  {
    hide Remember, At, WithoutTenant;
    if step.Decide? {
      JoinKnown(s, step.l, f);
      hide Join;
    } else if step.Drop? {
      hide Moved;
    } else {
      QuietCurrent(s, step);
      if f < |s.flights| {
        FlightStep(s, step, f);
        if OfFlight(step, f) { MovedUnfinished(s, step, f); }
      }
      hide Apply, Moved, OfFlight, Unfinished;
    }
  }

  lemma {:induction false} AlwaysKnown(states: seq<State>, steps: seq<Step>, k: nat, f: nat)
    requires Run(states, steps) && k < |states|
    ensures Known(states[k], f)
  {
    if k == 0 {
      AtFirst(states, steps);
    } else {
      hide Run, Apply, Possible, Known;
      AlwaysKnown(states, steps, k - 1, f);
      RunStep(states, steps, k);
      KnownStep(states[k - 1], steps[k - 1], f);
    }
  }

  /** At most one load of a key is under way in each generation. */
  lemma OneLoad(states: seq<State>, steps: seq<Step>, k: nat, f: nat, g: nat)
    requires Run(states, steps) && k < |states| && f < |states[k].flights| && g < |states[k].flights|
    requires Unfinished(states[k].flights[f]) && Unfinished(states[k].flights[g])
    requires states[k].flights[f].gen == states[k].flights[g].gen
    requires states[k].flights[f].key == states[k].flights[g].key
    ensures f == g
  {
    AlwaysKnown(states, steps, k, f);
    AlwaysKnown(states, steps, k, g);
    hide Run;
  }

  /** The step may take the cached entry of the key away or replace it. */
  predicate Disturbs(s: State, step: Step, key: Key, tenant: Tenant) {
    || Invalidates(step, key, tenant)
    || (step.Finish? && step.f < |s.flights| && s.flights[step.f].gen == s.gen
        && (s.flights[step.f].key == key || Scans(s.cache, s.flights[step.f].key)))
  }

  lemma StaysCached(s: State, step: Step, key: Key, e: Entry)
    requires Possible(s, step) && Caches(s, key, e) && !Disturbs(s, step, key, e.tenant)
    ensures Caches(Apply(s, step), key, e)
  {
    hide Moved, At, Roomier;
    if step.Decide? { JoinShape(s, step.l); hide Join; }
  }

  predicate Undisturbed(states: seq<State>, steps: seq<Step>, m: nat, k: nat, key: Key, t: Tenant)
    requires |states| == |steps| + 1 && k < |states|
  {
    forall i :: m <= i < k ==> !Disturbs(states[i], steps[i], key, t)
  }

  predicate Caches(s: State, key: Key, e: Entry) {
    key in s.cache && s.cache[key] == e
  }

  lemma {:induction false} CachedSince(states: seq<State>, steps: seq<Step>, m: nat, k: nat, key: Key, e: Entry)
    requires Run(states, steps) && |states| == |steps| + 1 && m <= k < |states|
    requires Caches(states[m], key, e) && Undisturbed(states, steps, m, k, key, e.tenant)
    ensures Caches(states[k], key, e)
    decreases k
  {
    hide Run, Caches;
    if m < k {
      assert !Disturbs(states[k - 1], steps[k - 1], key, e.tenant);
      assert Undisturbed(states, steps, m, k - 1, key, e.tenant);
      hide Apply, Possible, Disturbs, Undisturbed;
      CachedSince(states, steps, m, k - 1, key, e);
      RunStep(states, steps, k);
      StaysCached(states[k - 1], steps[k - 1], key, e);
    }
  }

  lemma OneBeginning(states: seq<State>, steps: seq<Step>, p: nat, q: nat)
    requires Run(states, steps) && p < |steps| && q < |steps| && steps[p].Look? && steps[q].Look?
    requires |states| == |steps| + 1 && |states[p].lookups| == |states[q].lookups|
    ensures p == q
  {
    hide Run;
    NewOne(states, steps, p);
    NewOne(states, steps, q);
    if q < p { LookupsGrow(states, steps, q + 1, p); } else if p < q { LookupsGrow(states, steps, p + 1, q); }
  }

  lemma Serves(s: State, l: nat)
    requires Possible(s, Decide(l)) && s.lookups[l].entry.Some? && s.clock < s.lookups[l].entry.value.expires
    ensures var s' := Apply(s, Decide(l));
      && Over(s', l) && s'.lookups[l].phase.Hit? && s'.flights == s.flights
      && Answer(s', l) == s.lookups[l].entry.value.tenant
  { }

  /** What a load finished with in its own generation serves the later lookups of the key
      until the TTL, counted from the clock the load read first, is over: while nothing
      disturbs the entry, a lookup decided in time is a hit with the load's answer, and
      asks for no load. */
  lemma LoadedServes(states: seq<State>, steps: seq<Step>, m: nat, p: nat, d: nat)
    requires Run(states, steps) && |states| == |steps| + 1 && m < p < d < |steps|
    requires steps[m].Finish? && steps[m].f < |states[m].flights| && states[m].flights[steps[m].f].stage.Read?
    requires states[m].flights[steps[m].f].gen == states[m].gen
    requires steps[p] == Look(states[m].flights[steps[m].f].key) && steps[d] == Decide(|states[p].lookups|)
    requires var x := states[m].flights[steps[m].f];
      && Undisturbed(states, steps, m + 1, p, x.key, x.stage.tenant)
      && states[d].clock < x.started + states[m].ttl
    ensures Over(states[d + 1], |states[p].lookups|)
    ensures states[d + 1].lookups[|states[p].lookups|].phase.Hit? && states[d + 1].flights == states[d].flights
    ensures Answer(states[d + 1], |states[p].lookups|) == states[m].flights[steps[m].f].stage.tenant
  {
    var x, l := states[m].flights[steps[m].f], |states[p].lookups|;
    hide Run, Undisturbed;
    RunStep(states, steps, m + 1);
    Finished(states[m], steps[m].f);
    CachedSince(states, steps, m + 1, p, x.key, EntryOf(states[m], x));
    RunStep(states, steps, d + 1);
    NewOne(states, steps, p);
    LookupsGrow(states, steps, p + 1, d);
    var q := LookupBegan(states, steps, d, l);
    OneBeginning(states, steps, p, q);
    Serves(states[d], l);
  }

  lemma Finished(s: State, f: nat)
    requires Possible(s, Finish(f)) && s.flights[f].gen == s.gen
    ensures Caches(Apply(s, Finish(f)), s.flights[f].key, EntryOf(s, s.flights[f]))
  {
    hide Roomier;
  }
}
