/**
 The runner-side data of the Firecracker runtime and the pure meaning of its
 critical sections.  `Rec` holds the fields of one sandboxState, `Host` and `Files`
 what is true on the host but written nowhere: the microVMs that were started, who
 holds the claim, and the versions of the rootfs and of the snapshot.
 */
module FirecrackerModel {

  datatype Option<+T> = None | Some(value: T)

  type Id = string

  datatype Transition = Unclaimed | Creating | Stopping | Waking | Deleting

  /** A file on the data volume. `At(v)` is a whole file describing rootfs version v. */
  datatype File = Missing | Garbled | At(version: nat)

  /** Loaded: the Firecracker process is up and no guest code has run in it yet. */
  datatype Status = Loaded | Executing | Paused | Dead

  /** One started microVM. `torn` records that a teardown of it has begun,
      `reported` that its exit callback has been started. */
  datatype Guest = Guest(gen: nat, status: Status, torn: bool, reported: bool)

  /** What a sandbox has of its slot's namespace: nothing; set up with its own
      policy; or possibly touched by it and not yet cleared. */
  datatype NetUse = NoNet | NetReady | NetLeaving

  datatype Rec = Rec(
    id: Id, blockEgress: bool, slot: int,
    process: Option<nat>, proxy: bool,
    running: bool, stopped: bool, transition: Transition,
    generation: nat, mustColdBoot: bool)

  /** What the host keeps under a sandbox's id: its data directory and its jail, which
      every incarnation of the id shares.  `writes` counts the rootfs writes since the
      snapshot last described the rootfs.  Three things that happened are remembered:
      `stray`, a kill that failed and left a guest of the id executing with no handle to
      it; `late`, a create that untracked its state while another operation held the
      claim on it; and `lost`, an operation on a state no longer tracked that has taken
      a file or the jail away since the jail was last mounted. */
  datatype Files = Files(disk: File, snap: File, writes: nat, jail: bool, stray: bool, late: bool, lost: bool)

  const NO_FILES := Files(Missing, Missing, 0, false, false, false, false)

  /** Something that was there in f is gone in f'. */
  predicate Less(f: Files, f': Files) {
    (f.jail && !f'.jail) || (!f.disk.Missing? && f'.disk.Missing?) || (!f.snap.Missing? && f'.snap.Missing?)
  }

  /** What a teardown does to the files, recorded where its state is not the tracked one. */
  function Take(f: Files, f': Files, tracked: bool): Files {
    f'.(lost := f.lost || (!tracked && Less(f, f')))
  }

  datatype Host = Host(holder: Option<nat>, guests: seq<Guest>, net: NetUse)

  /** One incarnation of a sandbox. */
  datatype Entry = Entry(r: Rec, h: Host)

  /** An incarnation and the files of its id. */
  datatype Sandbox = Sandbox(r: Rec, h: Host, f: Files)

  /** A slot's namespace. `serial` distinguishes two builds of it. */
  datatype Namespace = Unknown | Built(serial: nat, drop: bool)

  datatype Slot = Slot(owner: Id, wired: bool, lock: Option<nat>, ns: Namespace)

  const FREE: Id := ""

  // ---- slot table -------------------------------------------------------

  /** The lowest free slot at or above `from`, or -1. */
  function FirstFree(owners: seq<Id>, from: nat): (k: int)
    requires from <= |owners|
    ensures k == -1 || from <= k < |owners|
    ensures k == -1 <==> forall i :: from <= i < |owners| ==> owners[i] != FREE
    ensures k >= 0 ==> owners[k] == FREE && forall i :: from <= i < k ==> owners[i] != FREE
    decreases |owners| - from
  {
    if from == |owners| then -1
    else if owners[from] == FREE then from
    else FirstFree(owners, from + 1)
  }

  function Owners(slots: seq<Slot>): (o: seq<Id>)
    ensures |o| == |slots| && forall i :: 0 <= i < |o| ==> o[i] == slots[i].owner
  {
    seq(|slots|, i requires 0 <= i < |slots| => slots[i].owner)
  }

  /** releaseSlotLocked guarded by slotOwnedByLocked. */
  function ReleaseOwned(owners: seq<Id>, slot: int, id: Id): (o: seq<Id>)
    requires slot < |owners|
    ensures |o| == |owners|
    ensures forall i :: 0 <= i < |o| ==> o[i] == if i == slot && owners[i] == id then FREE else owners[i]
  {
    if slot >= 0 && owners[slot] == id then owners[slot := FREE] else owners
  }

  // ---- critical sections on one record -----------------------------------

  /** reserveSandbox's new record. */
  function Fresh(id: Id, blockEgress: bool, slot: int): Rec {
    Rec(id, blockEgress, slot, None, false, false, false, Creating, 0, false)
  }

  /** The first section of teardownRunningVM. */
  function TakeHandles(x: Rec): Rec {
    x.(generation := x.generation + 1, process := None, proxy := false)
  }

  /** The section that ends a stop, a failed resume, a failed wake and a crash. */
  function MarkStopped(x: Rec): Rec {
    x.(running := false, stopped := true, slot := -1, process := None, proxy := false)
  }

  /** startGuest's section: the sandbox is pinned before anything is issued. */
  function PinColdBoot(x: Rec): Rec {
    x.(mustColdBoot := true)
  }

  /** deleteSandbox's first section, on a record that is still the tracked one. */
  function MarkDeleting(x: Rec): Rec {
    x.(running := false, transition := Deleting)
  }
}
