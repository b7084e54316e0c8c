/**
 The Runtime object itself: the slot array and the sandbox table behind `r.mu`, and
 one method per critical section.  Each is proved against the section functions of
 FirecrackerModel, which are the ones the state machine's steps apply.
 */
module FirecrackerRuntime {
  import opened FirecrackerModel

  class SandboxState {
    const id: Id
    const blockEgress: bool
    var slot: int
    var process: Option<nat>
    var proxy: bool
    var running: bool
    var stopped: bool
    var transition: Transition
    var generation: nat
    var mustColdBoot: bool

    constructor (id: Id, blockEgress: bool, slot: int)
      ensures View() == Fresh(id, blockEgress, slot)
      ensures this.id == id && this.blockEgress == blockEgress && this.slot == slot
    {
      this.id, this.blockEgress, this.slot := id, blockEgress, slot;
      process, proxy, running, stopped := None, false, false, false;
      transition, generation, mustColdBoot := Creating, 0, false;
    }

    function View(): Rec
      reads this
    {
      Rec(id, blockEgress, slot, process, proxy, running, stopped, transition, generation, mustColdBoot)
    }
  }

  datatype Claim = NotFound | Busy | Claimed(state: SandboxState)
  datatype Reserved = Exists | DiskError | Full | Created(state: SandboxState)

  /** How many slots are occupied. */
  function Occupied(owners: seq<Id>): (n: nat)
    ensures n <= |owners|
    ensures n == |owners| <==> forall i :: 0 <= i < |owners| ==> owners[i] != FREE
  {
    if owners == [] then 0
    else
      var last := |owners| - 1;
      var n := Occupied(owners[..last]);
      assert owners == owners[..last] + [owners[last]];
      if owners[last] != FREE then n + 1 else n
  }

  function OwnerSet(owners: seq<Id>): set<Id> {
    set id | id in owners && id != FREE
  }

  /** Where no two slots have the same owner, the occupied slots are as many as their
      owners. */
  lemma {:induction false} OccupiedCountsOwners(owners: seq<Id>)
    requires forall i, j :: 0 <= i < j < |owners| && owners[i] != FREE ==> owners[i] != owners[j]
    ensures Occupied(owners) == |OwnerSet(owners)|
  {
    if owners == [] {
      assert OwnerSet(owners) == {};
    } else {
      var last := |owners| - 1;
      var front := owners[..last];
      OccupiedCountsOwners(front);
      assert owners == front + [owners[last]];
      if owners[last] == FREE {
        assert OwnerSet(owners) == OwnerSet(front);
      } else {
        assert OwnerSet(owners) == OwnerSet(front) + {owners[last]};
      }
    }
  }

  class Runtime {
    const owners: array<Id>
    var sandboxes: map<Id, SandboxState>

    constructor (capacity: int)
      ensures owners.Length == if capacity < 0 then 0 else capacity
      ensures sandboxes == map[] && forall i :: 0 <= i < owners.Length ==> owners[i] == FREE
      ensures fresh(owners)
    {
      owners := new Id[if capacity < 0 then 0 else capacity](_ => FREE);
      sandboxes := map[];
    }

    predicate Tracks(state: SandboxState)
      reads this
    {
      state.id in sandboxes && sandboxes[state.id] == state
    }

    method ReserveSlotLocked(id: Id) returns (slot: int)
      requires id != FREE
      modifies owners
      ensures slot == FirstFree(old(owners[..]), 0)
      ensures owners[..] == if slot < 0 then old(owners[..]) else old(owners[..])[slot := id]
    {
      for i := 0 to owners.Length
        invariant owners[..] == old(owners[..])
        invariant FirstFree(owners[..], i) == FirstFree(owners[..], 0)
      {
        if owners[i] == FREE {
          owners[i] := id;
          return i;
        }
      }
      return -1;
    }

    method OccupiedSlotsLocked() returns (used: nat)
      ensures used == Occupied(owners[..])
    {
      used := 0;
      for i := 0 to owners.Length
        invariant used == Occupied(owners[..i])
      {
        assert owners[..i + 1][..i] == owners[..i];
        if owners[i] != FREE { used := used + 1; }
      }
      assert owners[..owners.Length] == owners[..];
    }

    /** releaseSlotLocked behind slotOwnedByLocked; both panic on an index that is not
        a slot, which is what the precondition rules out. */
    method ReleaseIfOwned(slot: int, id: Id)
      requires slot < owners.Length
      modifies owners
      ensures owners[..] == ReleaseOwned(old(owners[..]), slot, id)
    {
      if slot >= 0 && owners[slot] == id { owners[slot] := FREE; }
    }

    /** The locked part of reserveSandbox. */
    method ReserveSandbox(id: Id, blockEgress: bool, diskError: bool) returns (r: Reserved)
      requires |id| >= 12
      modifies this`sandboxes, owners
      ensures r.Exists? <==> id in old(sandboxes)
      ensures r.Full? <==> id !in old(sandboxes) && FirstFree(old(owners[..]), 0) < 0
      ensures r.DiskError? ==> diskError
      ensures r.Created? ==>
        && var k := FirstFree(old(owners[..]), 0);
        && k >= 0 && !diskError && fresh(r.state) && r.state.View() == Fresh(id, blockEgress, k)
        && r.state.id == id && r.state.blockEgress == blockEgress && r.state.slot == k
        && !r.state.running && !r.state.stopped && r.state.transition == Creating && !r.state.mustColdBoot
        && sandboxes == old(sandboxes)[id := r.state] && owners[..] == old(owners[..])[k := id]
      ensures !r.Created? ==> sandboxes == old(sandboxes) && owners[..] == old(owners[..])
    {
      if id in sandboxes { return Exists; }
      var used := OccupiedSlotsLocked();
      if diskError && used < owners.Length { return DiskError; }
      var slot := ReserveSlotLocked(id);
      if slot < 0 { return Full; }
      var state := new SandboxState(id, blockEgress, slot);
      sandboxes := sandboxes[id := state];
      return Created(state);
    }

    /** One round of beginTransition. */
    method TryClaim(id: Id, want: Transition) returns (c: Claim)
      requires want != Unclaimed
      modifies if id in sandboxes then {sandboxes[id]} else {}
      ensures c.NotFound? <==> id !in sandboxes || old(sandboxes[id].transition) == Deleting
      ensures c.Claimed? <==> id in sandboxes && old(sandboxes[id].transition) == Unclaimed
      ensures c.Claimed? ==>
        c.state == sandboxes[id] && c.state.View() == old(sandboxes[id].View()).(transition := want)
      ensures !c.Claimed? && id in sandboxes ==> sandboxes[id].View() == old(sandboxes[id].View())
    {
      if id !in sandboxes || sandboxes[id].transition == Deleting { return NotFound; }
      if sandboxes[id].transition == Unclaimed {
        sandboxes[id].transition := want;
        return Claimed(sandboxes[id]);
      }
      return Busy;
    }

    /** reserveWakeSlot. */
    method ReserveWakeSlot(state: SandboxState) returns (ok: bool)
      requires state.id != FREE
      modifies state`slot, owners
      ensures var k := FirstFree(old(owners[..]), 0);
        && ok == (k >= 0)
        && state.View() == (if ok then old(state.View()).(slot := k) else old(state.View()))
        && owners[..] == if ok then old(owners[..])[k := state.id] else old(owners[..])
    {
      var k := ReserveSlotLocked(state.id);
      ok := k >= 0;
      if ok { state.slot := k; }
    }

    /** startGuest's section. */
    method DecideBoot(state: SandboxState) returns (coldBoot: bool)
      modifies state`mustColdBoot
      ensures coldBoot == old(state.mustColdBoot)
      ensures state.View() == PinColdBoot(old(state.View()))
    {
      coldBoot := state.mustColdBoot;
      state.mustColdBoot := true;
    }

    /** The first section of teardownRunningVM. */
    method BeginTeardown(state: SandboxState) returns (process: Option<nat>, proxy: bool, slot: int)
      modifies state
      ensures state.View() == TakeHandles(old(state.View()))
      ensures process == old(state.process) && proxy == old(state.proxy) && slot == old(state.slot)
    {
      state.generation := state.generation + 1;
      process, proxy := state.process, state.proxy;
      state.process, state.proxy := None, false;
      slot := state.slot;
    }

    /** The section that ends a stop, a failed resume and a failed wake. */
    method FinishStopped(state: SandboxState)
      requires state.slot < owners.Length
      modifies state, owners
      ensures state.View() == MarkStopped(old(state.View()))
      ensures owners[..] == ReleaseOwned(old(owners[..]), old(state.slot), state.id)
    {
      state.running := false;
      state.stopped := true;
      ReleaseIfOwned(state.slot, state.id);
      state.slot := -1;
      state.process := None;
      state.proxy := false;
    }

    /** handleGuestDeath's last section, which leaves the handles the teardown took. */
    method FinishCrashed(state: SandboxState)
      requires state.slot < owners.Length
      modifies state, owners
      ensures old(state.process) == None && !old(state.proxy) ==> state.View() == MarkStopped(old(state.View()))
      ensures owners[..] == ReleaseOwned(old(owners[..]), old(state.slot), state.id)
    {
      state.running := false;
      state.stopped := true;
      ReleaseIfOwned(state.slot, state.id);
      state.slot := -1;
    }

    /** deleteSandbox's first section. */
    method BeginDelete(state: SandboxState) returns (slot: int)
      modifies state
      ensures state.View() == if Tracks(state) then MarkDeleting(old(state.View())) else old(state.View())
      ensures slot == old(state.slot)
    {
      if Tracks(state) {
        state.running := false;
        state.transition := Deleting;
      }
      slot := state.slot;
    }

    /** untrackSandbox. */
    method UntrackSandbox(state: SandboxState)
      requires state.slot < owners.Length
      modifies this`sandboxes, owners
      ensures sandboxes == if old(Tracks(state)) then old(sandboxes) - {state.id} else old(sandboxes)
      ensures owners[..] ==
        if old(Tracks(state)) then ReleaseOwned(old(owners[..]), state.slot, state.id) else old(owners[..])
    {
      if !Tracks(state) { return; }
      sandboxes := sandboxes - {state.id};
      ReleaseIfOwned(state.slot, state.id);
    }

    /** clearSlotNetwork's ownership check. */
    method MayClear(slot: int, state: SandboxState) returns (clear: bool)
      requires 0 <= slot < owners.Length
      ensures clear <==>
        owners[slot] == FREE || (owners[slot] == state.id && (state.id !in sandboxes || sandboxes[state.id] == state))
    {
      var free := owners[slot] == FREE;
      var ours := false;
      if owners[slot] == state.id {
        ours := state.id !in sandboxes || sandboxes[state.id] == state;
      }
      clear := free || ours;
    }

    /** Capacity's two counts. */
    method Capacity() returns (used: nat, stopped: nat)
      ensures used == Occupied(owners[..]) && used <= owners.Length
      ensures stopped == |set id | id in sandboxes && sandboxes[id].transition != Deleting && sandboxes[id].stopped|
    {
      used := OccupiedSlotsLocked();
      stopped := 0;
      ghost var counted: set<Id> := {};
      var rest := sandboxes.Keys;
      while rest != {}
        invariant rest <= sandboxes.Keys
        invariant counted ==
          set id | id in sandboxes.Keys - rest && sandboxes[id].transition != Deleting && sandboxes[id].stopped
        invariant stopped == |counted|
        decreases |rest|
      {
        var id :| id in rest;
        if sandboxes[id].transition != Deleting && sandboxes[id].stopped {
          stopped := stopped + 1;
          counted := counted + {id};
        }
        rest := rest - {id};
      }
      assert counted == set id | id in sandboxes && sandboxes[id].transition != Deleting && sandboxes[id].stopped;
    }

    /**
     * handleGuestDeath once it holds a claim on the id. Another state, or a later microVM of
     * the same one, is let go as it was; the one that died ends up stopped, without a slot.
     */
    method SettleDeath(claimed: SandboxState, died: SandboxState, generation: nat) returns (torn: bool)
      requires claimed.slot < owners.Length
      modifies claimed, owners
      ensures torn <==> claimed == died && old(died.generation) == generation
      ensures !torn ==> claimed.View() == old(claimed.View()).(transition := Unclaimed)
      ensures torn ==> claimed.View() == MarkStopped(TakeHandles(old(claimed.View()))).(transition := Unclaimed)
      ensures owners[..] ==
        if torn then ReleaseOwned(old(owners[..]), old(claimed.slot), claimed.id) else old(owners[..])
    {
      torn := claimed == died && claimed.generation == generation;
      if torn {
        var _, _, _ := BeginTeardown(claimed);
        FinishCrashed(claimed);
      }
      claimed.transition := Unclaimed;
    }
  }
}
