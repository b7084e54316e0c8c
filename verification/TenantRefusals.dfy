/**
 What exactly the quota check decides, in terms of the steps of a run: the rows its last
 read counted, the creates past the check when it is made, and the creates released as
 saved during that read.  The check is no stricter than that, and no more lenient.
 */
module TenantRefusals {
  import opened TenantQuota

  // ---- what the entry counts ---------------------------------------------------------

  /** A tenant's creates past the check and not released. */
  function InProgress(s: State, id: Tenant): nat {
    Number(s.creates, id, IsAdmitted) + Number(s.creates, id, IsHeldSaved) + Number(s.creates, id, IsHeldUnsaved)
  }

  /** The step releases a create of the tenant as saved. */
  predicate ReleasesSaved(s: State, step: Step, id: Tenant) {
    && step.Release? && step.c < |s.creates| && s.creates[step.c].id == id
    && s.creates[step.c].phase.Held? && s.creates[step.c].phase.saved
  }

  /** How many creates of the tenant were released as saved from step i up to step k. */
  function Saves(states: seq<State>, steps: seq<Step>, i: nat, k: nat, id: Tenant): nat
    requires |states| == |steps| + 1 && k <= |steps|
    decreases k
  {
    if i >= k then 0
    else Saves(states, steps, i, k - 1, id) + if ReleasesSaved(states[k - 1], steps[k - 1], id) then 1 else 0
  }

  /** The reads of create c so far: where each began; all but the last saw a save, and the
      last has counted the rows at step m, if it has counted at all. */
  predicate Reads(states: seq<State>, steps: seq<Step>, k: nat, c: nat, starts: seq<nat>, m: nat)
    requires |states| == |steps| + 1 && k < |states| && c < |states[k].creates|
  {
    var x := states[k].creates[c];
    && 1 <= |starts| == x.read <= MAX_READS
    && (forall i :: 0 <= i < |starts| ==> starts[i] < k && steps[starts[i]] == if i == 0 then Enter(c) else Check(c))
    && (forall i :: 0 < i < |starts| ==>
          starts[i - 1] < starts[i] && Saves(states, steps, starts[i - 1] + 1, starts[i], x.id) > 0)
    && x.entry < |states[k].heap|
    && states[k].heap[x.entry].saved - x.savedBefore == Saves(states, steps, starts[|starts| - 1] + 1, k, x.id)
    && (x.count.Some? ==>
          starts[|starts| - 1] < m < k && steps[m] == Count(c) && x.count.value == Rows(states[m], x.id))
  }

  // ---- one step --------------------------------------------------------------------------

  predicate Steps(step: Step, c: nat) {
    match step
    case Spawn(_) => false
    case DeleteRow(_) => false
    case _ => step.c == c
  }

  /** While create c reads, the step of anybody else moves its entry's `saved` exactly when
      it releases a create of its tenant as saved. */
  lemma OthersStep(s: State, step: Step, limit: Tenant -> int, cap: Tenant -> int, c: nat)
    requires Inv(s, cap) && Possible(s, step) && c < |s.creates| && s.creates[c].phase.Reading? && !Steps(step, c)
    ensures var s' := Apply(s, step, limit);
      && c < |s'.creates| && s'.creates[c] == s.creates[c]
      && s.creates[c].entry < |s.heap| <= |s'.heap|
      && s'.heap[s.creates[c].entry].saved ==
         s.heap[s.creates[c].entry].saved + if ReleasesSaved(s, step, s.creates[c].id) then 1 else 0
  {
    assert CreateInv(s, s.creates[c]);
    if step.Release? || step.Check? || step.CountFails? { assert CreateInv(s, s.creates[step.c]); }
    hide Number;
  }

  lemma OwnCheck(s: State, limit: Tenant -> int, c: nat)
    requires Possible(s, Check(c)) && Apply(s, Check(c), limit).creates[c].phase.Reading?
    ensures var s', x := Apply(s, Check(c), limit), s.creates[c];
      && x.read < MAX_READS && s.heap[x.entry].saved != x.savedBefore
      && s'.creates[c] == x.(savedBefore := s.heap[x.entry].saved, count := None, read := x.read + 1)
      && s'.heap == s.heap
  { }

  lemma OwnEnter(s: State, limit: Tenant -> int, c: nat)
    requires Possible(s, Enter(c))
    ensures var s' := Apply(s, Enter(c), limit); var x := s'.creates[c];
      && x.id == s.creates[c].id && x.read == 1 && x.count.None? && x.entry < |s'.heap|
      && x.savedBefore == s'.heap[x.entry].saved
  { }

  lemma OwnCount(s: State, limit: Tenant -> int, c: nat)
    requires Possible(s, Count(c))
    ensures Apply(s, Count(c), limit).creates[c] == s.creates[c].(count := Some(Rows(s, s.creates[c].id)))
    ensures Apply(s, Count(c), limit).heap == s.heap
  { }

  lemma OtherPhases(s: State, step: Step, limit: Tenant -> int, c: nat)
    requires Possible(s, step) && c < |Apply(s, step, limit).creates| && Apply(s, step, limit).creates[c].phase.Reading?
    ensures c < |s.creates|
    ensures
      || step == Enter(c)
      || (s.creates[c].phase.Reading? && (Steps(step, c) ==> step == Count(c) || step == Check(c)))
  { }

  // ---- over runs ------------------------------------------------------------------------------

  lemma RunShape(states: seq<State>, steps: seq<Step>, limit: Tenant -> int)
    requires Run(states, steps, limit)
    ensures |states| == |steps| + 1 && states[0].creates == []
  { }

  lemma {:induction false} ReadHistory(states: seq<State>, steps: seq<Step>, limit: Tenant -> int, k: nat, c: nat)
    returns (starts: seq<nat>, m: nat)
    requires Run(states, steps, limit) && k < |states| && c < |states[k].creates| && states[k].creates[c].phase.Reading?
    ensures |states| == |steps| + 1 && Reads(states, steps, k, c, starts, m)
  {
    hide Run, Inv, Apply, Possible, Reads;
    RunShape(states, steps, limit);
    if k == 0 {
      assert false;
    } else {
      var s, step := states[k - 1], steps[k - 1];
      RunStep(states, steps, limit, k - 1);
      RunInv(states, steps, limit, k - 1);
      OtherPhases(s, step, limit, c);
      if step == Enter(c) {
        starts, m := [k - 1], 0;
        EnterReads(states, steps, limit, k, c, m);
      } else {
        starts, m := ReadHistory(states, steps, limit, k - 1, c);
        if step == Check(c) {
          CheckReads(states, steps, limit, k, c, starts, m);
          starts := starts + [k - 1];
        } else if step == Count(c) {
          CountReads(states, steps, limit, k, c, starts, m);
          m := k - 1;
        } else {
          OthersStep(s, step, limit, Cap(states[0], limit), c);
          OthersReads(states, steps, k, c, starts, m);
        }
      }
    }
  }

  lemma EnterReads(states: seq<State>, steps: seq<Step>, limit: Tenant -> int, k: nat, c: nat, m: nat)
    requires |states| == |steps| + 1 && 0 < k < |states| && steps[k - 1] == Enter(c)
    requires Possible(states[k - 1], steps[k - 1]) && states[k] == Apply(states[k - 1], steps[k - 1], limit)
    ensures c < |states[k].creates| && Reads(states, steps, k, c, [k - 1], m)
  {
    OwnEnter(states[k - 1], limit, c);
    assert c < |states[k].creates|;
    hide Apply;
  }

  lemma CheckReads(states: seq<State>, steps: seq<Step>, limit: Tenant -> int, k: nat, c: nat, starts: seq<nat>, m: nat)
    requires |states| == |steps| + 1 && 0 < k < |states| && steps[k - 1] == Check(c)
    requires Possible(states[k - 1], steps[k - 1]) && states[k] == Apply(states[k - 1], steps[k - 1], limit)
    requires c < |states[k].creates| && states[k].creates[c].phase.Reading?
    requires c < |states[k - 1].creates| && Reads(states, steps, k - 1, c, starts, m)
    ensures Reads(states, steps, k, c, starts + [k - 1], m)
  {
    OwnCheck(states[k - 1], limit, c);
    hide Apply, Possible;
  }

  lemma CountReads(states: seq<State>, steps: seq<Step>, limit: Tenant -> int, k: nat, c: nat, starts: seq<nat>, m: nat)
    requires |states| == |steps| + 1 && 0 < k < |states| && steps[k - 1] == Count(c)
    requires Possible(states[k - 1], steps[k - 1]) && states[k] == Apply(states[k - 1], steps[k - 1], limit)
    requires c < |states[k].creates|
    requires c < |states[k - 1].creates| && Reads(states, steps, k - 1, c, starts, m)
    ensures Reads(states, steps, k, c, starts, k - 1)
  {
    OwnCount(states[k - 1], limit, c);
    hide Apply, Possible;
  }

  lemma OthersReads(states: seq<State>, steps: seq<Step>, k: nat, c: nat, starts: seq<nat>, m: nat)
    requires |states| == |steps| + 1 && 0 < k < |states|
    requires c < |states[k].creates| && c < |states[k - 1].creates| && states[k].creates[c] == states[k - 1].creates[c]
    requires var x := states[k].creates[c];
      && x.entry < |states[k - 1].heap| && x.entry < |states[k].heap|
      && states[k].heap[x.entry].saved ==
         states[k - 1].heap[x.entry].saved + if ReleasesSaved(states[k - 1], steps[k - 1], x.id) then 1 else 0
    requires Reads(states, steps, k - 1, c, starts, m)
    ensures Reads(states, steps, k, c, starts, m)
  {
    hide ReleasesSaved, Rows;
  }

  /** What a check goes by. */
  function Demand(states: seq<State>, steps: seq<Step>, k: nat, id: Tenant, start: nat, m: nat): nat
    requires |states| == |steps| + 1 && k <= |steps| && m <= k
  {
    Rows(states[m], id) + InProgress(states[k], id) + Saves(states, steps, start + 1, k, id)
  }

  /** A check admits exactly when the rows its read counted, the tenant's creates past the
      check and not released now, and those released as saved since the read began are below
      the limit together.  It refuses exactly when they are not, and either nothing was
      released as saved during the read or this is the last of MAX_READS reads, each earlier
      one of which saw such a release; else it reads again. */
  lemma Verdict(states: seq<State>, steps: seq<Step>, limit: Tenant -> int, k: nat, c: nat)
    returns (starts: seq<nat>, m: nat)
    requires Run(states, steps, limit) && k < |steps| && steps[k] == Check(c)
    ensures |states| == |steps| + 1 && c < |states[k].creates| && Reads(states, steps, k, c, starts, m)
    ensures starts[|starts| - 1] < m < k && steps[m] == Count(c) && c < |states[k + 1].creates|
    ensures var id, start := states[k].creates[c].id, starts[|starts| - 1];
      && (states[k + 1].creates[c].phase.Admitted? <==> Demand(states, steps, k, id, start, m) < limit(id))
      && (states[k + 1].creates[c].phase.Done? <==>
            && Demand(states, steps, k, id, start, m) >= limit(id)
            && (Saves(states, steps, start + 1, k, id) == 0 || |starts| == MAX_READS))
      && (states[k + 1].creates[c].phase.Reading? <==>
            && Demand(states, steps, k, id, start, m) >= limit(id)
            && Saves(states, steps, start + 1, k, id) > 0 && |starts| < MAX_READS)
  {
    RunShape(states, steps, limit);
    RunStep(states, steps, limit, k);
    RunInv(states, steps, limit, k);
    hide Run;
    starts, m := ReadHistory(states, steps, limit, k, c);
    var s := states[k];
    assert CreateInv(s, s.creates[c]) && TenantInv(s, s.creates[c].id, Cap(states[0], limit)(s.creates[c].id));
    hide Inv, Saves, Number, Cap;
  }

  // ---- what follows -----------------------------------------------------------------------------

  predicate OfTenant(s: State, step: Step, id: Tenant) {
    match step
    case Spawn(_) => false
    case DeleteRow(t) => t == id
    case _ => step.c < |s.creates| && s.creates[step.c].id == id
  }

  /** The step can change what a check of the tenant goes by: it admits or may admit a
      create, saves or gives one up, releases one, or deletes a row. */
  predicate Disturbs(s: State, step: Step, id: Tenant) {
    OfTenant(s, step, id) && (step.Check? || step.Save? || step.GiveUp? || step.Release? || step.DeleteRow?)
  }

  lemma QuietStep(s: State, step: Step, limit: Tenant -> int, id: Tenant)
    requires Possible(s, step) && !Disturbs(s, step, id)
    ensures var s' := Apply(s, step, limit);
      Rows(s', id) == Rows(s, id) && InProgress(s', id) == InProgress(s, id) && !ReleasesSaved(s, step, id)
  {
    var s' := Apply(s, step, limit);
    if step.Spawn? {
      NumbersSnoc(s.creates, Create(step.id, Begin, 0, 0, None, 0), id);
    } else if !step.DeleteRow? {
      assert s'.creates == s.creates[step.c := s'.creates[step.c]];
      NumbersPut(s.creates, step.c, s'.creates[step.c], id);
    }
    hide Number;
  }

  lemma {:induction false} QuietStretch(states: seq<State>, steps: seq<Step>, limit: Tenant -> int,
                                        i: nat, k: nat, id: Tenant)
    requires Run(states, steps, limit) && |states| == |steps| + 1 && i <= k < |states|
    requires forall j :: i <= j < k ==> !Disturbs(states[j], steps[j], id)
    ensures Rows(states[k], id) == Rows(states[i], id) && InProgress(states[k], id) == InProgress(states[i], id)
    ensures Saves(states, steps, i, k, id) == 0
    decreases k
  {
    hide Run, Apply, Possible, Disturbs, ReleasesSaved, InProgress, Rows;
    if i < k {
      QuietStretch(states, steps, limit, i, k - 1, id);
      RunStep(states, steps, limit, k - 1);
      QuietStep(states[k - 1], steps[k - 1], limit, id);
    }
  }

  lemma OnwardStep(s: State, step: Step, limit: Tenant -> int, c: nat)
    requires Possible(s, step) && c < |s.creates| && (step == Enter(c) || !s.creates[c].phase.Begin?)
    ensures c < |Apply(s, step, limit).creates| && !Apply(s, step, limit).creates[c].phase.Begin?
  { }

  lemma {:induction false} EntersOnce(states: seq<State>, steps: seq<Step>, limit: Tenant -> int,
                                      i: nat, k: nat, c: nat)
    requires Run(states, steps, limit) && i < k < |states| && |states| == |steps| + 1 && steps[i] == Enter(c)
    ensures c < |states[k].creates| && !states[k].creates[c].phase.Begin?
    decreases k
  {
    hide Run, Apply;
    RunStep(states, steps, limit, k - 1);
    if i < k - 1 {
      hide Possible;
      EntersOnce(states, steps, limit, i, k - 1, c);
      OnwardStep(states[k - 1], steps[k - 1], limit, c);
    } else {
      OnwardStep(states[k - 1], steps[k - 1], limit, c);
    }
  }

  lemma OneEntry(states: seq<State>, steps: seq<Step>, limit: Tenant -> int, i: nat, j: nat, c: nat)
    requires Run(states, steps, limit) && i < |steps| && j < |steps| && |states| == |steps| + 1
    requires steps[i] == Enter(c) && steps[j] == Enter(c)
    ensures i == j
  {
    RunStep(states, steps, limit, i);
    RunStep(states, steps, limit, j);
    hide Run, Apply;
    if i < j { EntersOnce(states, steps, limit, i, j, c); }
    else if j < i { EntersOnce(states, steps, limit, j, i, c); }
  }

  /** With nothing of the tenant that counts happening between its entry and its check, a
      create is admitted exactly when the tenant's rows and creates in progress are below the
      limit, and refused at once otherwise; with no other create in progress, exactly when its
      rows are. */
  lemma AdmittedAlone(states: seq<State>, steps: seq<Step>, limit: Tenant -> int, i: nat, k: nat, c: nat)
    requires Run(states, steps, limit) && i < k < |steps| && |states| == |steps| + 1
    requires steps[i] == Enter(c) && steps[k] == Check(c) && c < |states[k].creates|
    requires forall j :: i < j < k ==> !Disturbs(states[j], steps[j], states[k].creates[c].id)
    ensures c < |states[k + 1].creates|
    ensures var id := states[k].creates[c].id;
      && (states[k + 1].creates[c].phase.Admitted? <==> Rows(states[k], id) + InProgress(states[k], id) < limit(id))
      && (states[k + 1].creates[c].phase.Done? <==> Rows(states[k], id) + InProgress(states[k], id) >= limit(id))
      && (InProgress(states[k], id) == 0 ==>
            (states[k + 1].creates[c].phase.Admitted? <==> Rows(states[k], id) < limit(id)))
  {
    hide Run, InProgress, Rows, Disturbs, Saves;
    var id := states[k].creates[c].id;
    var starts, m := Verdict(states, steps, limit, k, c);
    OneEntry(states, steps, limit, starts[0], i, c);
    if |starts| > 1 {
      OwnCheckDisturbs(states, steps, limit, k, c, starts[1]);
      assert false;
    }
    QuietStretch(states, steps, limit, i + 1, k, id);
    QuietStretch(states, steps, limit, m, k, id);
  }

  lemma OwnCheckDisturbs(states: seq<State>, steps: seq<Step>, limit: Tenant -> int, k: nat, c: nat, j: nat)
    requires Run(states, steps, limit) && j < k < |states| && |states| == |steps| + 1 && steps[j] == Check(c)
    requires c < |states[k].creates|
    ensures Disturbs(states[j], steps[j], states[k].creates[c].id)
  {
    RunStep(states, steps, limit, j);
    SameTenant(states, steps, limit, j, k, c);
  }

  lemma TenantStep(s: State, step: Step, limit: Tenant -> int, c: nat)
    requires Possible(s, step) && c < |s.creates|
    ensures c < |Apply(s, step, limit).creates| && Apply(s, step, limit).creates[c].id == s.creates[c].id
  { }

  lemma {:induction false} SameTenant(states: seq<State>, steps: seq<Step>, limit: Tenant -> int,
                                      j: nat, k: nat, c: nat)
    requires Run(states, steps, limit) && j <= k < |states| && c < |states[j].creates|
    ensures c < |states[k].creates| && states[k].creates[c].id == states[j].creates[c].id
  {
    hide Run, Apply, Possible;
    if j < k {
      SameTenant(states, steps, limit, j, k - 1, c);
      RunStep(states, steps, limit, k - 1);
      TenantStep(states[k - 1], steps[k - 1], limit, c);
    }
  }

  lemma RowsStep(s: State, step: Step, limit: Tenant -> int, id: Tenant)
    requires Possible(s, step) && step != DeleteRow(id)
    ensures Rows(Apply(s, step, limit), id) >= Rows(s, id)
  { }

  lemma {:induction false} RowsGrow(states: seq<State>, steps: seq<Step>, limit: Tenant -> int,
                                    m: nat, k: nat, id: Tenant)
    requires Run(states, steps, limit) && |states| == |steps| + 1 && m <= k < |states|
    requires forall j :: m <= j < k ==> steps[j] != DeleteRow(id)
    ensures Rows(states[m], id) <= Rows(states[k], id)
    decreases k
  {
    hide Run, Apply, Possible, Rows;
    if m < k {
      RowsGrow(states, steps, limit, m, k - 1, id);
      RunStep(states, steps, limit, k - 1);
      RowsStep(states[k - 1], steps[k - 1], limit, id);
    }
  }

  /** A create refused although no row was deleted since it counted found the tenant full
      there and then, its creates in progress counted, unless creates were released as saved
      during every one of its MAX_READS reads. */
  lemma RefusedIsFull(states: seq<State>, steps: seq<Step>, limit: Tenant -> int, k: nat, c: nat)
    returns (starts: seq<nat>, m: nat)
    requires Run(states, steps, limit) && k < |steps| && steps[k] == Check(c)
    requires c < |states[k + 1].creates| && states[k + 1].creates[c].phase.Done?
    ensures |states| == |steps| + 1 && c < |states[k].creates| && m < k && steps[m] == Count(c)
    ensures var id := states[k].creates[c].id;
      || Rows(states[k], id) + InProgress(states[k], id) >= limit(id)
      || (exists j :: m <= j < k && steps[j] == DeleteRow(id))
      || (|starts| == MAX_READS && starts[0] < starts[1] < starts[2] < k
          && Saves(states, steps, starts[0] + 1, starts[1], id) > 0
          && Saves(states, steps, starts[1] + 1, starts[2], id) > 0
          && Saves(states, steps, starts[2] + 1, k, id) > 0)
  {
    hide Run, InProgress, Rows;
    starts, m := Verdict(states, steps, limit, k, c);
    var id := states[k].creates[c].id;
    if forall j :: m <= j < k ==> steps[j] != DeleteRow(id) { RowsGrow(states, steps, limit, m, k, id); }
  }

  lemma NumberShort(xs: seq<Create>, id: Tenant, k: Class)
    requires |xs| <= 2
    ensures Number(xs, id, k) ==
      (if |xs| > 0 then Is(xs[0], id, k) else 0) + (if |xs| > 1 then Is(xs[1], id, k) else 0)
  { }

  /** A create is saved and not yet released when the next one of the tenant is checked. */
  function BelowSteps(id: Tenant): (steps: seq<Step>)
    ensures |steps| == 9
  {
    [Spawn(id), Enter(0), Count(0), Check(0), Save(0, true, true), Spawn(id), Enter(1), Count(1), Check(1)]
  }

  function BelowState(id: Tenant, k: nat): State {
    var begin := Create(id, Begin, 0, 0, None, 0);
    var read := Create(id, Reading, 0, 0, None, 1);
    var zero := read.(count := Some(0));
    var held := zero.(phase := Held(true));
    match k
    case 0 => State(map[], [], map[], [])
    case 1 => State(map[], [], map[], [begin])
    case 2 => State(map[id := 0], [Entry(0, 0, 1)], map[], [read])
    case 3 => State(map[id := 0], [Entry(0, 0, 1)], map[], [zero])
    case 4 => State(map[id := 0], [Entry(1, 0, 0)], map[], [zero.(phase := Admitted)])
    case 5 => State(map[id := 0], [Entry(1, 0, 0)], map[id := 1], [held])
    case 6 => State(map[id := 0], [Entry(1, 0, 0)], map[id := 1], [held, begin])
    case 7 => State(map[id := 0], [Entry(1, 0, 1)], map[id := 1], [held, read])
    case 8 => State(map[id := 0], [Entry(1, 0, 1)], map[id := 1], [held, read.(count := Some(1))])
    case _ => State(map[id := 0], [Entry(1, 0, 0)], map[id := 1], [held, read.(count := Some(1), phase := Done)])
  }

  predicate BelowGoes(id: Tenant, k: nat)
    requires k < 9
  {
    && Possible(BelowState(id, k), BelowSteps(id)[k])
    && Apply(BelowState(id, k), BelowSteps(id)[k], _ => 2) == BelowState(id, k + 1)
  }

  lemma BelowFirst(id: Tenant)
    ensures BelowGoes(id, 0) && BelowGoes(id, 1) && BelowGoes(id, 2)
  { }

  lemma BelowAdmitted(id: Tenant)
    ensures BelowGoes(id, 3) && BelowGoes(id, 4) && BelowGoes(id, 5)
  { }

  lemma BelowRefused(id: Tenant)
    ensures BelowGoes(id, 6) && BelowGoes(id, 7) && BelowGoes(id, 8)
  { }

  lemma BelowTotal(id: Tenant, k: nat)
    ensures Total(BelowState(id, k), id) <= 1
  {
    NumberShort(BelowState(id, k).creates, id, IsAdmitted);
    hide Number;
  }

  /** The creates in progress do count: a tenant below its limit in every state can have a
      create refused, because one that is saved and not yet released is counted twice. */
  lemma RefusedBelow(id: Tenant) returns (states: seq<State>, steps: seq<Step>)
    ensures Run(states, steps, _ => 2) && |steps| == 9 && steps[8] == Check(1)
    ensures |states[9].creates| == 2 && states[9].creates[1].id == id && states[9].creates[1].phase.Done?
    ensures forall k :: 0 <= k < |states| ==> Total(states[k], id) <= 1
  {
    steps := BelowSteps(id);
    states := seq(10, k requires 0 <= k < 10 => BelowState(id, k));
    BelowFirst(id);
    BelowAdmitted(id);
    BelowRefused(id);
    forall k | 0 <= k < |states| ensures Total(states[k], id) <= 1 { BelowTotal(id, k); }
    assert Init(states[0]);
    assert |states[9].creates| == 2 && states[9].creates[1].id == id && states[9].creates[1].phase.Done?;
    hide BelowState, Apply, Possible, Total;
    assert forall k :: 0 <= k < 9 ==> BelowGoes(id, k);
  }
}
