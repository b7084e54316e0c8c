/**
 tenantQuota: the sandbox quota check with the store read in the middle of it, outside
 the lock.  `Quota` is the object with one method per critical section; the machine
 interleaves creates, their saves and releases, and row deletes with those sections.
 */
module TenantQuota {

  datatype Option<+T> = None | Some(value: T)

  type Tenant = string

  datatype Entry = Entry(inProgress: int, saved: int, reading: int)

  const FRESH := Entry(0, 0, 0)

  const MAX_READS := 3

  // ---- the object -------------------------------------------------------------

  predicate Idle(e: Entry) {
    e.inProgress == 0 && e.reading == 0
  }

  datatype Decision = Admit | Refuse | Again

  /** What reserve decides once it has the lock back with a count. */
  function Decide(e: Entry, savedBefore: int, n: int, limit: int, read: nat): Decision {
    var savedDuring := e.saved - savedBefore;
    if n + e.inProgress + savedDuring < limit then Admit
    else if savedDuring == 0 || read >= MAX_READS then Refuse
    else Again
  }

  class Creates {
    var inProgress: int
    var saved: int
    var reading: int

    constructor ()
      ensures View() == FRESH
    {
      inProgress, saved, reading := 0, 0, 0;
    }

    function View(): Entry
      reads this
    {
      Entry(inProgress, saved, reading)
    }
  }

  class Quota {
    var tenants: map<Tenant, Creates>

    method ForgetIfIdle(id: Tenant, e: Creates)
      modifies this
      ensures tenants == if Idle(e.View()) then old(tenants) - {id} else old(tenants)
    {
      if e.inProgress == 0 && e.reading == 0 { tenants := tenants - {id}; }
    }

    /** reserve up to the point where countUnlocked lets the lock go. */
    method BeginReserve(id: Tenant) returns (e: Creates, savedBefore: int)
      modifies this, if id in tenants then {tenants[id]} else {}
      ensures id in old(tenants) ==> e == old(tenants[id]) && tenants == old(tenants)
      ensures id !in old(tenants) ==> fresh(e) && tenants == old(tenants)[id := e]
      ensures var e0 := if id in old(tenants) then old(tenants[id].View()) else FRESH;
        e.View() == e0.(reading := e0.reading + 1) && savedBefore == e0.saved
    {
      if id in tenants { e := tenants[id]; } else {
        e := new Creates();
        tenants := tenants[id := e];
      }
      e.reading := e.reading + 1;
      savedBefore := e.saved;
    }

    /** reserve from the point where it has the lock back with the count n. */
    method FinishRead(id: Tenant, e: Creates, savedBefore: int, n: int, limit: int, read: nat) returns (d: Decision)
      modifies this, e
      ensures d == Decide(old(e.View()), savedBefore, n, limit, read)
      ensures d.Admit? <==> n + old(e.inProgress) + (old(e.saved) - savedBefore) < limit
      ensures d.Again? <==> !d.Admit? && old(e.saved) != savedBefore && read < MAX_READS
      ensures var v := old(e.View());
        e.View() == match d
                    case Admit => v.(inProgress := v.inProgress + 1, reading := v.reading - 1)
                    case Refuse => v.(reading := v.reading - 1)
                    case Again => v
      ensures tenants == if !d.Again? && Idle(e.View()) then old(tenants) - {id} else old(tenants)
    {
      var savedDuring := e.saved - savedBefore;
      if n + e.inProgress + savedDuring < limit {
        d := Admit;
        e.inProgress := e.inProgress + 1;
      } else if savedDuring == 0 || read >= MAX_READS {
        d := Refuse;
      } else {
        return Again;
      }
      e.reading := e.reading - 1;
      ForgetIfIdle(id, e);
    }

    /** The first call of the release closure. */
    method Release(id: Tenant, e: Creates, saved: bool)
      modifies this, e
      ensures var v := old(e.View());
        e.View() == v.(inProgress := v.inProgress - 1, saved := if saved then v.saved + 1 else v.saved)
      ensures tenants == if Idle(e.View()) then old(tenants) - {id} else old(tenants)
    {
      e.inProgress := e.inProgress - 1;
      if saved { e.saved := e.saved + 1; }
      ForgetIfIdle(id, e);
    }
  }

  // ---- the machine ------------------------------------------------------------

  /** Reading: in reserve, without the lock. Admitted: past the check, not saved. Held:
      the save was tried and may have made a row, the slot is not released yet. */
  datatype Phase = Begin | Reading | Admitted | Held(saved: bool) | Done

  datatype Create = Create(id: Tenant, phase: Phase, entry: nat, savedBefore: int, count: Option<nat>, read: nat)

  datatype State = State(
    tenants: map<Tenant, nat>, heap: seq<Entry>, rows: map<Tenant, nat>, creates: seq<Create>)

  datatype Step =
    | Spawn(id: Tenant)
    | Enter(c: nat)
    | Count(c: nat)
    | CountFails(c: nat)
    | Check(c: nat)
    | Save(c: nat, row: bool, saved: bool)
    | GiveUp(c: nat)
    | Release(c: nat)
    | DeleteRow(id: Tenant)

  function Rows(s: State, id: Tenant): nat {
    if id in s.rows then s.rows[id] else 0
  }

  function Put(s: State, c: nat, x: Create): State
    requires c < |s.creates|
  {
    s.(creates := s.creates[c := x])
  }

  /** The entry after a section that ends with forgetIfIdle. */
  function Update(s: State, id: Tenant, k: nat, e: Entry): State
    requires k < |s.heap|
  {
    s.(heap := s.heap[k := e], tenants := if Idle(e) then s.tenants - {id} else s.tenants)
  }

  /** A save that made a row is released as saved; so is one that only may have, and never
      the other way round. The store's own check may refuse a save as well; no step relies
      on it. */
  predicate Possible(s: State, step: Step) {
    match step
    case Spawn(_) => true
    case Enter(c) =>
      && c < |s.creates| && s.creates[c].phase.Begin?
      && (s.creates[c].id in s.tenants ==> s.tenants[s.creates[c].id] < |s.heap|)
    case Count(c) => c < |s.creates| && s.creates[c].phase.Reading? && s.creates[c].count.None?
    case CountFails(c) => c < |s.creates| && s.creates[c].phase.Reading? && s.creates[c].entry < |s.heap|
    case Check(c) =>
      c < |s.creates| && s.creates[c].phase.Reading? && s.creates[c].count.Some? && s.creates[c].entry < |s.heap|
    case Save(c, row, saved) => c < |s.creates| && s.creates[c].phase.Admitted? && (row ==> saved)
    case GiveUp(c) => c < |s.creates| && s.creates[c].phase.Admitted?
    case Release(c) => c < |s.creates| && s.creates[c].phase.Held? && s.creates[c].entry < |s.heap|
    case DeleteRow(id) => Rows(s, id) > 0
  }

  function Apply(s: State, step: Step, limit: Tenant -> int): State
    requires Possible(s, step)
  {
    match step
    case Spawn(id) => s.(creates := s.creates + [Create(id, Begin, 0, 0, None, 0)])
    case Enter(c) =>
      var x := s.creates[c];
      var k := if x.id in s.tenants then s.tenants[x.id] else |s.heap|;
      var s1 := if x.id in s.tenants then s else s.(heap := s.heap + [FRESH], tenants := s.tenants[x.id := k]);
      var e := s1.heap[k];
      Put(s1, c, x.(phase := Reading, entry := k, savedBefore := e.saved, count := None, read := 1))
        .(heap := s1.heap[k := e.(reading := e.reading + 1)])
    case Count(c) => Put(s, c, s.creates[c].(count := Some(Rows(s, s.creates[c].id))))
    case CountFails(c) =>
      var x := s.creates[c];
      var e := s.heap[x.entry];
      Update(Put(s, c, x.(phase := Done)), x.id, x.entry, e.(reading := e.reading - 1))
    case Check(c) =>
      var x := s.creates[c];
      var e := s.heap[x.entry];
      (match Decide(e, x.savedBefore, x.count.value, limit(x.id), x.read)
       case Admit =>
         Update(Put(s, c, x.(phase := Admitted)), x.id, x.entry,
                e.(inProgress := e.inProgress + 1, reading := e.reading - 1))
       case Refuse => Update(Put(s, c, x.(phase := Done)), x.id, x.entry, e.(reading := e.reading - 1))
       case Again => Put(s, c, x.(savedBefore := e.saved, count := None, read := x.read + 1)))
    case Save(c, row, saved) =>
      var x := s.creates[c];
      Put(s, c, x.(phase := Held(saved)))
        .(rows := if row then s.rows[x.id := Rows(s, x.id) + 1] else s.rows)
    case GiveUp(c) => Put(s, c, s.creates[c].(phase := Held(false)))
    case Release(c) =>
      var x := s.creates[c];
      var e := s.heap[x.entry];
      Update(Put(s, c, x.(phase := Done)), x.id, x.entry,
             e.(inProgress := e.inProgress - 1, saved := if x.phase.saved then e.saved + 1 else e.saved))
    case DeleteRow(id) => s.(rows := s.rows[id := Rows(s, id) - 1])
  }

  /** Any rows may be there already, more than a limit lowered since allows included. */
  predicate Init(s: State) {
    s.tenants == map[] && s.heap == [] && s.creates == []
  }

  predicate Run(states: seq<State>, steps: seq<Step>, limit: Tenant -> int) {
    && |states| == |steps| + 1 && Init(states[0])
    && (forall k :: 0 <= k < |steps| ==>
          Possible(states[k], steps[k]) && states[k + 1] == Apply(states[k], steps[k], limit))
    // a tenant without a limit passes reserve without touching any of this
    && forall k :: 0 <= k < |steps| && steps[k].Spawn? ==> limit(steps[k].id) > 0
  }

  // ---- counting creates ---------------------------------------------------------

  datatype Class = IsReading | IsAdmitted | IsHeldSaved | IsHeldUnsaved

  function ClassOf(p: Phase): Option<Class> {
    match p
    case Reading => Some(IsReading)
    case Admitted => Some(IsAdmitted)
    case Held(saved) => Some(if saved then IsHeldSaved else IsHeldUnsaved)
    case _ => None
  }

  function Is(x: Create, id: Tenant, k: Class): int {
    if x.id == id && ClassOf(x.phase) == Some(k) then 1 else 0
  }

  function Number(xs: seq<Create>, id: Tenant, k: Class): (n: nat) {
    if xs == [] then 0 else Number(xs[..|xs| - 1], id, k) + Is(xs[|xs| - 1], id, k)
  }

  lemma {:induction false} NumberPut(xs: seq<Create>, c: nat, x: Create, id: Tenant, k: Class)
    requires c < |xs|
    ensures Number(xs[c := x], id, k) == Number(xs, id, k) - Is(xs[c], id, k) + Is(x, id, k)
  {
    var last := |xs| - 1;
    if c == last {
      assert xs[c := x][..last] == xs[..last];
    } else {
      NumberPut(xs[..last], c, x, id, k);
      assert xs[c := x][..last] == xs[..last][c := x];
    }
  }

  lemma {:induction false} NumberPositive(xs: seq<Create>, c: nat, id: Tenant, k: Class)
    requires c < |xs| && Is(xs[c], id, k) == 1
    ensures Number(xs, id, k) > 0
  {
    if c < |xs| - 1 { NumberPositive(xs[..|xs| - 1], c, id, k); }
  }

  // ---- the invariant --------------------------------------------------------------

  /** A tenant's saved rows and its admitted creates that are not saved yet. */
  function Total(s: State, id: Tenant): int {
    Rows(s, id) + Number(s.creates, id, IsAdmitted)
  }

  function Max(a: int, b: int): int {
    if a < b then b else a
  }

  /** What a tenant with a limit may reach from a state on: the limit, or what it has there. */
  function Cap(start: State, limit: Tenant -> int): Tenant -> int {
    id => if limit(id) > 0 then Max(limit(id), Total(start, id)) else limit(id)
  }

  ghost predicate Above(cap: Tenant -> int, limit: Tenant -> int) {
    forall id :: if limit(id) > 0 then limit(id) <= cap(id) else cap(id) == limit(id)
  }

  predicate TenantInv(s: State, id: Tenant, cap: int) {
    && (id in s.tenants ==>
          && s.tenants[id] < |s.heap|
          && s.heap[s.tenants[id]].reading == Number(s.creates, id, IsReading)
          && s.heap[s.tenants[id]].inProgress ==
             Number(s.creates, id, IsAdmitted) + Number(s.creates, id, IsHeldSaved) +
             Number(s.creates, id, IsHeldUnsaved))
    && (id !in s.tenants ==>
          Number(s.creates, id, IsReading) == Number(s.creates, id, IsAdmitted)
          == Number(s.creates, id, IsHeldSaved) == Number(s.creates, id, IsHeldUnsaved) == 0)
    && (cap > 0 ==> Total(s, id) <= cap)
  }

  /** A create that reads or holds a slot works on the tenant's live entry, and rows saved
      since its count are either in the entry's `saved` or not released yet. */
  predicate CreateInv(s: State, x: Create) {
    && (ClassOf(x.phase).Some? ==> x.id in s.tenants && s.tenants[x.id] == x.entry && x.entry < |s.heap|)
    && (x.phase.Reading? ==> x.savedBefore <= s.heap[x.entry].saved)
    && (x.phase.Reading? && x.count.Some? ==>
          Rows(s, x.id) <=
            x.count.value + (s.heap[x.entry].saved - x.savedBefore) + Number(s.creates, x.id, IsHeldSaved))
  }

  ghost predicate Inv(s: State, cap: Tenant -> int) {
    && (forall id :: TenantInv(s, id, cap(id)))
    && (forall c :: 0 <= c < |s.creates| ==> CreateInv(s, s.creates[c]))
    && (forall a, b :: a in s.tenants && b in s.tenants && a != b ==> s.tenants[a] != s.tenants[b])
  }

  // ---- preservation ----------------------------------------------------------------

  lemma NumbersPut(xs: seq<Create>, c: nat, x: Create, id: Tenant)
    requires c < |xs|
    ensures forall k :: Number(xs[c := x], id, k) == Number(xs, id, k) - Is(xs[c], id, k) + Is(x, id, k)
  {
    forall k ensures Number(xs[c := x], id, k) == Number(xs, id, k) - Is(xs[c], id, k) + Is(x, id, k) {
      NumberPut(xs, c, x, id, k);
    }
  }

  lemma NumbersSnoc(xs: seq<Create>, x: Create, id: Tenant)
    ensures forall k :: Number(xs + [x], id, k) == Number(xs, id, k) + Is(x, id, k)
  {
    assert (xs + [x])[..|xs|] == xs;
  }

  lemma SpawnKeeps(s: State, id0: Tenant, limit: Tenant -> int, cap: Tenant -> int)
    requires Inv(s, cap)
    ensures Inv(Apply(s, Spawn(id0), limit), cap)
  {
    var s' := Apply(s, Spawn(id0), limit);
    var x := Create(id0, Begin, 0, 0, None, 0);
    forall id ensures TenantInv(s', id, cap(id)) {
      NumbersSnoc(s.creates, x, id);
      assert TenantInv(s, id, cap(id));
      hide Number;
    }
    forall c | 0 <= c < |s'.creates| ensures CreateInv(s', s'.creates[c]) {
      if c < |s.creates| {
        assert CreateInv(s, s.creates[c]);
        NumbersSnoc(s.creates, x, s.creates[c].id);
      }
      hide Number;
    }
  }

  /** A step of create c that changes at most its own tenant's entry, map slot and rows. */
  ghost predicate Own(s: State, s': State, c: nat)
    requires c < |s.creates|
  {
    var id := s.creates[c].id;
    && |s'.creates| == |s.creates| && s'.creates == s.creates[c := s'.creates[c]] && s'.creates[c].id == id
    && |s'.heap| >= |s.heap|
    && (forall a :: a != id ==>
          (a in s'.tenants <==> a in s.tenants) && (a in s.tenants ==> s'.tenants[a] == s.tenants[a]))
    && (forall k :: 0 <= k < |s.heap| && !(id in s.tenants && k == s.tenants[id]) ==> s'.heap[k] == s.heap[k])
    && (forall a :: a != id ==> Rows(s', a) == Rows(s, a))
    && (id in s'.tenants ==>
          if id in s.tenants then s'.tenants[id] == s.tenants[id] else s'.tenants[id] == |s.heap| < |s'.heap|)
  }

  /** If create c's tenant and all its creates are fine afterwards, everything is. */
  lemma OwnKeeps(s: State, s': State, c: nat, cap: Tenant -> int)
    requires Inv(s, cap) && c < |s.creates| && Own(s, s', c)
    requires TenantInv(s', s.creates[c].id, cap(s.creates[c].id))
    requires forall d :: 0 <= d < |s'.creates| && s'.creates[d].id == s.creates[c].id ==> CreateInv(s', s'.creates[d])
    ensures Inv(s', cap)
  {
    var x := s.creates[c];
    forall id ensures TenantInv(s', id, cap(id)) {
      if id != x.id {
        NumbersPut(s.creates, c, s'.creates[c], id);
        assert TenantInv(s, id, cap(id)) && TenantInv(s, x.id, cap(x.id));
        hide Number;
      }
    }
    forall d | 0 <= d < |s'.creates| ensures CreateInv(s', s'.creates[d]) {
      if s'.creates[d].id != x.id {
        NumbersPut(s.creates, c, s'.creates[c], s.creates[d].id);
        assert CreateInv(s, s.creates[d]) && TenantInv(s, x.id, cap(x.id));
        hide Number;
      }
    }
    forall a, b | a in s'.tenants && b in s'.tenants && a != b ensures s'.tenants[a] != s'.tenants[b] {
      assert TenantInv(s, a, cap(a)) && TenantInv(s, b, cap(b));
    }
  }

  lemma EnterKeeps(s: State, c: nat, limit: Tenant -> int, cap: Tenant -> int)
    requires Inv(s, cap) && Possible(s, Enter(c))
    ensures Inv(Apply(s, Enter(c), limit), cap)
  {
    var s' := Apply(s, Enter(c), limit);
    var x := s.creates[c];
    NumbersPut(s.creates, c, s'.creates[c], x.id);
    assert TenantInv(s, x.id, cap(x.id));
    hide Number;
    forall d | 0 <= d < |s'.creates| && s'.creates[d].id == x.id ensures CreateInv(s', s'.creates[d]) {
      assert CreateInv(s, s.creates[d]);
    }
    OwnKeeps(s, s', c, cap);
  }

  lemma CountKeeps(s: State, c: nat, limit: Tenant -> int, cap: Tenant -> int)
    requires Inv(s, cap) && Possible(s, Count(c))
    ensures Inv(Apply(s, Count(c), limit), cap)
  {
    var s' := Apply(s, Count(c), limit);
    var x := s.creates[c];
    NumbersPut(s.creates, c, s'.creates[c], x.id);
    assert TenantInv(s, x.id, cap(x.id)) && CreateInv(s, x);
    hide Number;
    forall d | 0 <= d < |s'.creates| && s'.creates[d].id == x.id ensures CreateInv(s', s'.creates[d]) {
      assert CreateInv(s, s.creates[d]);
    }
    OwnKeeps(s, s', c, cap);
  }

  lemma CountFailsKeeps(s: State, c: nat, limit: Tenant -> int, cap: Tenant -> int)
    requires Inv(s, cap) && Possible(s, CountFails(c))
    ensures Inv(Apply(s, CountFails(c), limit), cap)
  {
    var s' := Apply(s, CountFails(c), limit);
    LeaveKeeps(s, s', c, cap);
  }

  /** Leaving reserve without a slot: the entry goes exactly when nothing is left. */
  lemma LeaveKeeps(s: State, s': State, c: nat, cap: Tenant -> int)
    requires Inv(s, cap) && c < |s.creates| && s.creates[c].entry < |s.heap| && s.creates[c].phase.Reading?
    requires var x := s.creates[c]; var e := s.heap[x.entry];
      s' == Update(Put(s, c, x.(phase := Done)), x.id, x.entry, e.(reading := e.reading - 1))
    ensures Inv(s', cap)
  {
    var x := s.creates[c];
    NumbersPut(s.creates, c, s'.creates[c], x.id);
    assert TenantInv(s, x.id, cap(x.id)) && CreateInv(s, x);
    forall d | 0 <= d < |s'.creates| && s'.creates[d].id == x.id ensures CreateInv(s', s'.creates[d]) {
      assert CreateInv(s, s.creates[d]);
      if ClassOf(s'.creates[d].phase).Some? {
        NumberPositive(s'.creates, d, x.id, ClassOf(s'.creates[d].phase).value);
      }
      hide Number;
    }
    hide Number;
    OwnKeeps(s, s', c, cap);
  }

  /** Releasing a slot, likewise. */
  lemma ReleaseKeeps(s: State, c: nat, limit: Tenant -> int, cap: Tenant -> int)
    requires Inv(s, cap) && Possible(s, Release(c))
    ensures Inv(Apply(s, Release(c), limit), cap)
  {
    var s' := Apply(s, Release(c), limit);
    var x := s.creates[c];
    NumbersPut(s.creates, c, s'.creates[c], x.id);
    assert TenantInv(s, x.id, cap(x.id)) && CreateInv(s, x);
    forall d | 0 <= d < |s'.creates| && s'.creates[d].id == x.id ensures CreateInv(s', s'.creates[d]) {
      assert CreateInv(s, s.creates[d]);
      if ClassOf(s'.creates[d].phase).Some? {
        NumberPositive(s'.creates, d, x.id, ClassOf(s'.creates[d].phase).value);
      }
      hide Number;
    }
    hide Number;
    OwnKeeps(s, s', c, cap);
  }

  /** The check: an admission leaves rows and unsaved creates within the limit, although
      the count is older than the check. */
  lemma AdmitKeeps(s: State, c: nat, limit: Tenant -> int, cap: Tenant -> int)
    requires Above(cap, limit) && Inv(s, cap) && Possible(s, Check(c))
    requires Decide(s.heap[s.creates[c].entry], s.creates[c].savedBefore, s.creates[c].count.value,
                    limit(s.creates[c].id), s.creates[c].read).Admit?
    ensures Inv(Apply(s, Check(c), limit), cap)
  {
    var s' := Apply(s, Check(c), limit);
    var x := s.creates[c];
    NumbersPut(s.creates, c, s'.creates[c], x.id);
    assert TenantInv(s, x.id, cap(x.id)) && CreateInv(s, x);
    hide Number;
    forall d | 0 <= d < |s'.creates| && s'.creates[d].id == x.id ensures CreateInv(s', s'.creates[d]) {
      assert CreateInv(s, s.creates[d]);
    }
    OwnKeeps(s, s', c, cap);
  }

  lemma CheckKeeps(s: State, c: nat, limit: Tenant -> int, cap: Tenant -> int)
    requires Above(cap, limit) && Inv(s, cap) && Possible(s, Check(c))
    ensures Inv(Apply(s, Check(c), limit), cap)
  {
    var s' := Apply(s, Check(c), limit);
    var x := s.creates[c];
    match Decide(s.heap[x.entry], x.savedBefore, x.count.value, limit(x.id), x.read) {
      case Admit => AdmitKeeps(s, c, limit, cap);
      case Refuse => LeaveKeeps(s, s', c, cap);
      case Again => 
        NumbersPut(s.creates, c, s'.creates[c], x.id);
        assert TenantInv(s, x.id, cap(x.id)) && CreateInv(s, x);
        hide Number;
        forall d | 0 <= d < |s'.creates| && s'.creates[d].id == x.id ensures CreateInv(s', s'.creates[d]) {
          assert CreateInv(s, s.creates[d]);
        }
        OwnKeeps(s, s', c, cap);
    }
  }

  /** A save, or a create that fails before it. */
  lemma SettleKeeps(s: State, c: nat, row: bool, saved: bool, limit: Tenant -> int, cap: Tenant -> int)
    requires Inv(s, cap) && Possible(s, Save(c, row, saved))
    ensures Inv(Apply(s, Save(c, row, saved), limit), cap)
  {
    var s' := Apply(s, Save(c, row, saved), limit);
    var x := s.creates[c];
    NumbersPut(s.creates, c, s'.creates[c], x.id);
    assert TenantInv(s, x.id, cap(x.id)) && CreateInv(s, x);
    hide Number;
    forall d | 0 <= d < |s'.creates| && s'.creates[d].id == x.id ensures CreateInv(s', s'.creates[d]) {
      assert CreateInv(s, s.creates[d]);
    }
    OwnKeeps(s, s', c, cap);
  }

  lemma DeleteKeeps(s: State, id0: Tenant, limit: Tenant -> int, cap: Tenant -> int)
    requires Inv(s, cap) && Possible(s, DeleteRow(id0))
    ensures Inv(Apply(s, DeleteRow(id0), limit), cap)
  {
    hide Number;
    var s' := Apply(s, DeleteRow(id0), limit);
    forall id ensures TenantInv(s', id, cap(id)) { assert TenantInv(s, id, cap(id)); }
    forall c | 0 <= c < |s'.creates| ensures CreateInv(s', s'.creates[c]) { assert CreateInv(s, s.creates[c]); }
  }

  lemma StepKeeps(s: State, step: Step, limit: Tenant -> int, cap: Tenant -> int)
    requires Above(cap, limit) && Inv(s, cap) && Possible(s, step)
    ensures Inv(Apply(s, step, limit), cap)
  {
    hide Inv;
    match step {
      case Spawn(id) => SpawnKeeps(s, id, limit, cap);
      case Enter(c) => EnterKeeps(s, c, limit, cap);
      case Count(c) => CountKeeps(s, c, limit, cap);
      case CountFails(c) => CountFailsKeeps(s, c, limit, cap);
      case Check(c) => CheckKeeps(s, c, limit, cap);
      case Save(c, row, saved) => SettleKeeps(s, c, row, saved, limit, cap);
      case GiveUp(c) =>
        SettleKeeps(s, c, false, false, limit, cap);
      case Release(c) => ReleaseKeeps(s, c, limit, cap);
      case DeleteRow(id) => DeleteKeeps(s, id, limit, cap);
    }
  }

  lemma Recap(s: State, cap: Tenant -> int, limit: Tenant -> int)
    requires Inv(s, cap)
    ensures Inv(s, Cap(s, limit))
  {
    forall id ensures TenantInv(s, id, Cap(s, limit)(id)) {
      assert TenantInv(s, id, cap(id));
      hide Number;
    }
  }

  lemma RunStep(states: seq<State>, steps: seq<Step>, limit: Tenant -> int, k: nat)
    requires Run(states, steps, limit) && k + 1 < |states|
    ensures k < |steps| && Possible(states[k], steps[k]) && states[k + 1] == Apply(states[k], steps[k], limit)
  {
    hide Possible, Apply;
  }

  lemma CapIsAbove(start: State, limit: Tenant -> int)
    ensures Above(Cap(start, limit), limit)
  { }

  lemma StartsWell(states: seq<State>, steps: seq<Step>, limit: Tenant -> int)
    requires Run(states, steps, limit)
    ensures Inv(states[0], Cap(states[0], limit))
  { }

  lemma {:induction false} StretchInv(states: seq<State>, steps: seq<Step>, limit: Tenant -> int, j: nat, k: nat)
    requires Run(states, steps, limit) && j <= k < |states|
    ensures Inv(states[k], Cap(states[j], limit))
    decreases k, j
  {
    hide Inv, Apply, Possible, Run, Init, Cap;
    if j < k {
      StretchInv(states, steps, limit, j, k - 1);
      RunStep(states, steps, limit, k - 1);
      CapIsAbove(states[j], limit);
      StepKeeps(states[k - 1], steps[k - 1], limit, Cap(states[j], limit));
    } else if j > 0 {
      StretchInv(states, steps, limit, 0, j);
      Recap(states[j], Cap(states[0], limit), limit);
    } else {
      StartsWell(states, steps, limit);
    }
  }

  lemma RunInv(states: seq<State>, steps: seq<Step>, limit: Tenant -> int, k: nat)
    requires Run(states, steps, limit) && k < |states|
    ensures Inv(states[k], Cap(states[0], limit))
  {
    hide Inv;
    StretchInv(states, steps, limit, 0, k);
  }

  // ---- what the quota guarantees ------------------------------------------------------

  /** With one pod and a fixed limit, a tenant's saved rows and its admitted creates that are
      not saved yet never exceed the limit together; a tenant that has more than the limit at
      some time never exceeds what it has then. */
  lemma NeverOverLimit(states: seq<State>, steps: seq<Step>, limit: Tenant -> int, j: nat, k: nat, id: Tenant)
    requires Run(states, steps, limit) && j <= k < |states| && limit(id) > 0
    ensures Total(states[k], id) <= Max(limit(id), Total(states[j], id))
    ensures Rows(states[0], id) <= limit(id) ==> Total(states[k], id) <= limit(id)
  {
    StretchInv(states, steps, limit, j, k);
    StretchInv(states, steps, limit, 0, k);
    assert TenantInv(states[k], id, Cap(states[j], limit)(id));
    assert TenantInv(states[k], id, Cap(states[0], limit)(id));
  }

  /** An entry somebody reads under or holds a slot in is never forgotten, and two creates
      of one tenant that do so share it. */
  lemma EntryStaysLive(states: seq<State>, steps: seq<Step>, limit: Tenant -> int, k: nat, c: nat, d: nat)
    requires Run(states, steps, limit) && k < |states| && c < |states[k].creates| && d < |states[k].creates|
    requires var x := states[k].creates[c]; var y := states[k].creates[d];
      x.id == y.id && ClassOf(x.phase).Some? && ClassOf(y.phase).Some?
    ensures var x := states[k].creates[c]; var y := states[k].creates[d];
      x.id in states[k].tenants && states[k].tenants[x.id] == x.entry == y.entry
  {
    RunInv(states, steps, limit, k);
    hide Run;
    assert CreateInv(states[k], states[k].creates[c]) && CreateInv(states[k], states[k].creates[d]);
  }

  /** And an entry with neither is forgotten: the map only holds tenants with creates under way. */
  lemma OnlyBusyTenants(states: seq<State>, steps: seq<Step>, limit: Tenant -> int, k: nat, id: Tenant)
    requires Run(states, steps, limit) && k < |states| && id in states[k].tenants
    ensures exists c ::
      0 <= c < |states[k].creates| && states[k].creates[c].id == id && ClassOf(states[k].creates[c].phase).Some?
  {
    RunBusy(states, steps, limit, k);
    RunInv(states, steps, limit, k);
    hide Run;
    var s := states[k];
    assert TenantInv(s, id, Cap(states[0], limit)(id)) && !Idle(s.heap[s.tenants[id]]);
    var kind :| Number(s.creates, id, kind) > 0;
    NumberWitness(s.creates, id, kind);
  }

  predicate Busy(s: State) {
    forall id :: id in s.tenants && s.tenants[id] < |s.heap| ==> !Idle(s.heap[s.tenants[id]])
  }

  lemma {:induction false} NumberWitness(xs: seq<Create>, id: Tenant, k: Class)
    requires Number(xs, id, k) > 0
    ensures exists c :: 0 <= c < |xs| && xs[c].id == id && ClassOf(xs[c].phase).Some?
  {
    var last := |xs| - 1;
    if Is(xs[last], id, k) == 0 {
      NumberWitness(xs[..last], id, k);
      var c :| 0 <= c < last && xs[..last][c].id == id && ClassOf(xs[..last][c].phase).Some?;
      assert xs[c].id == id;
    }
  }

  lemma BusyKeeps(s: State, step: Step, limit: Tenant -> int, cap: Tenant -> int)
    requires Inv(s, cap) && Busy(s) && Possible(s, step)
    ensures Busy(Apply(s, step, limit))
  {
    var s' := Apply(s, step, limit);
    if step.Enter? || step.Check? || step.CountFails? || step.Release? {
      var x := s.creates[step.c];
      assert CreateInv(s, x);
      forall id | id in s'.tenants && s'.tenants[id] < |s'.heap| ensures !Idle(s'.heap[s'.tenants[id]]) {
        assert TenantInv(s, id, cap(id)) && TenantInv(s, x.id, cap(x.id));
      }
    }
  }

  lemma NothingBusy(s: State)
    requires Init(s)
    ensures Busy(s)
  {
  }

  lemma {:induction false} RunBusy(states: seq<State>, steps: seq<Step>, limit: Tenant -> int, k: nat)
    requires Run(states, steps, limit) && k < |states|
    ensures Busy(states[k])
  {
    hide Inv, Apply, Busy, Possible, Init;
    if k == 0 {
      NothingBusy(states[0]);
    } else {
      RunBusy(states, steps, limit, k - 1);
      RunInv(states, steps, limit, k - 1);
      assert Possible(states[k - 1], steps[k - 1]) && states[k] == Apply(states[k - 1], steps[k - 1], limit);
      BusyKeeps(states[k - 1], steps[k - 1], limit, Cap(states[0], limit));
    }
  }
}
