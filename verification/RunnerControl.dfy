/**
 * A runner's answer to a create: what the runtime returns, the gRPC status it becomes,
 * and the marker by which the API tells a refusal from every other failure.
 */
module RunnerControl {
  import opened FirecrackerModel
  import FirecrackerRuntime

  // ---------------------------------------------------------------------------
  // Errors and statuses.

  datatype Sentinel = Canceled | DeadlineExceeded | CapacityExhausted

  /** A Go error: one of the sentinels, some other error, or one that wraps another. */
  datatype GoError = Known(sentinel: Sentinel) | Other | Wraps(inner: GoError)

  /** errors.Is. */
  predicate Is(err: GoError, what: Sentinel) {
    match err
    case Known(sentinel) => sentinel == what
    case Other => false
    case Wraps(inner) => Is(inner, what)
  }

  /** What clones, host commands and deadlines fail with: only the reservation names capacity. */
  type HostError = e: GoError | !Is(e, CapacityExhausted) witness Other

  datatype Code =
    CodeCanceled | CodeDeadlineExceeded | CodeResourceExhausted | CodeInternal
    | CodeUnavailable | CodeUnauthenticated | CodeInvalidArgument

  datatype Detail = ErrorInfo(domain: string, reason: string) | OtherDetail

  datatype Status = Status(code: Code, details: seq<Detail>)

  const REFUSAL_DOMAIN := "sandbox-runner"
  const REFUSAL_REASON := "CAPACITY_EXHAUSTED"

  /** `attached` is false when the marker could not be added to the status. */
  function CapacityRefusal(attached: bool): (st: Status) {
    Status(CodeResourceExhausted, if attached then [ErrorInfo(REFUSAL_DOMAIN, REFUSAL_REASON)] else [])
  }

  function ToGrpcError(err: GoError, attached: bool): (st: Status) {
    if Is(err, Canceled) then Status(CodeCanceled, [])
    else if Is(err, DeadlineExceeded) then Status(CodeDeadlineExceeded, [])
    else if Is(err, CapacityExhausted) then CapacityRefusal(attached)
    else Status(CodeInternal, [])
  }

  predicate Marks(d: Detail) {
    d.ErrorInfo? && d.domain == REFUSAL_DOMAIN && d.reason == REFUSAL_REASON
  }

  /** The loop over the details of a status. */
  method IsCapacityRefusal(st: Status) returns (refusal: bool)
    ensures refusal <==> Refusal(st)
  {
    if st.code != CodeResourceExhausted { return false; }
    for i := 0 to |st.details|
      invariant forall j :: 0 <= j < i ==> !Marks(st.details[j])
    {
      var d := st.details[i];
      if d.ErrorInfo? && d.domain == REFUSAL_DOMAIN && d.reason == REFUSAL_REASON { return true; }
    }
    return false;
  }

  predicate Refusal(st: Status) {
    st.code == CodeResourceExhausted && exists i :: 0 <= i < |st.details| && Marks(st.details[i])
  }

  /** An error has one sentinel at its end, so the order of the tests does not matter. */
  lemma {:induction false} OneSentinel(err: GoError, a: Sentinel, b: Sentinel)
    requires Is(err, a) && Is(err, b)
    ensures a == b
  {
    match err
    case Wraps(inner) => OneSentinel(inner, a, b);
    case _ =>
  }

  /**
   * A status is taken for a refusal exactly when the error behind it wraps the capacity
   * sentinel and the marker was attached: not for an unmarked one of the same code.
   */
  lemma RefusalIsCapacity(err: GoError, attached: bool)
    ensures Refusal(ToGrpcError(err, attached)) <==> attached && Is(err, CapacityExhausted)
  {
    if Is(err, CapacityExhausted) {
      if Is(err, Canceled) { OneSentinel(err, Canceled, CapacityExhausted); }
      if Is(err, DeadlineExceeded) { OneSentinel(err, DeadlineExceeded, CapacityExhausted); }
      assert Marks(CapacityRefusal(true).details[0]);
    }
  }

  // ---------------------------------------------------------------------------
  // One create on one runner.

  /** The data volume when the create looks: room, too little of it, or not readable. */
  datatype Disk = Enough | BelowFloor | Unreadable(err: HostError)

  /** Everything outside the runtime's tables that decides one call. */
  datatype Call = Call(
    keyOk: bool,                       // the API key is right
    cordoned: bool,                    // an operator took the runner out of service
    ready: bool,                       // admission has passed
    optionsOk: bool,                   // the create options parse
    blockEgress: bool,
    assets: Option<HostError>,         // reading boot parameters or the kernel fails
    disk: Disk,
    activation: Option<HostError>,     // cloning or starting the microVM fails
    attached: bool,                    // the marker can be added to a refusal
    transport: Option<Code>)           // the reply is lost: what gRPC reports instead, without details

  datatype Reply = Created | Failed(status: Status)

  /** The reply is a refusal the API may act on. */
  predicate Refused(reply: Reply) {
    reply.Failed? && Refusal(reply.status)
  }

  predicate IsUuid(id: Id) {
    && |id| == 36
    && forall i :: 0 <= i < 36 ==>
         if i == 8 || i == 13 || i == 18 || i == 23 then id[i] == '-'
         else '0' <= id[i] <= '9' || 'a' <= id[i] <= 'f'
  }

  /** checkCreateDiskSpace. */
  function DiskError(disk: Disk): (err: Option<GoError>) {
    match disk
    case Enough => None
    case BelowFloor => Some(Wraps(Known(CapacityExhausted)))
    case Unreadable(err) => Some(err)
  }

  /** What reserveSandbox returns for a reservation that was not made. */
  function ReserveError(r: FirecrackerRuntime.Reserved, disk: Disk): (err: GoError)
    requires r.DiskError? ==> !disk.Enough?
  {
    match r
    case Full => Wraps(Known(CapacityExhausted))
    case DiskError => DiskError(disk).value
    case _ => Other
  }

  /** The reservation refuses for capacity: a new id, and no slot or too little room for it. */
  predicate NoRoom(id: Id, call: Call, tracked: set<Id>, owners: seq<Id>) {
    call.assets.None? && id !in tracked && (FirstFree(owners, 0) < 0 || call.disk.BelowFloor?)
  }

  /** The create goes through: a new id, a slot and room for it, and nothing on the host fails. */
  predicate HasRoom(id: Id, call: Call, tracked: set<Id>, owners: seq<Id>) {
    && call.assets.None? && id !in tracked && FirstFree(owners, 0) >= 0 && call.disk.Enough?
    && call.activation.None?
  }

  /** The handler creates the sandbox. */
  predicate Accepts(id: Id, call: Call, tracked: set<Id>, owners: seq<Id>) {
    call.keyOk && !call.cordoned && call.ready && IsUuid(id) && call.optionsOk && HasRoom(id, call, tracked, owners)
  }

  /** The handler refuses: the runner is cordoned, or it has no room. */
  predicate Refuses(id: Id, call: Call, tracked: set<Id>, owners: seq<Id>) {
    && call.keyOk
    && (call.cordoned || (call.ready && IsUuid(id) && call.optionsOk && NoRoom(id, call, tracked, owners)))
  }

  /**
   * The runtime's create. It names capacity exactly where the reservation refused, before
   * anything was tracked; a failure after that takes the reservation back.
   */
  method CreateSandbox(rt: FirecrackerRuntime.Runtime, id: Id, call: Call) returns (err: Option<GoError>)
    requires |id| >= 12
    modifies rt`sandboxes, rt.owners
    ensures err.None? <==> HasRoom(id, call, old(rt.sandboxes).Keys, old(rt.owners[..]))
    ensures err.None? ==> id !in old(rt.sandboxes) && rt.sandboxes.Keys == old(rt.sandboxes).Keys + {id}
    ensures err.None? ==>
      && var state := rt.sandboxes[id];
      && state.id == id && state.blockEgress == call.blockEgress && state.running && state.transition == Unclaimed
      && 0 <= state.slot < rt.owners.Length && old(rt.owners[..])[state.slot] == FREE
      && rt.owners[..] == old(rt.owners[..])[state.slot := id]
    ensures err.Some? ==> rt.sandboxes == old(rt.sandboxes) && rt.owners[..] == old(rt.owners[..])
    ensures forall other :: other in old(rt.sandboxes) ==>
      other in rt.sandboxes && rt.sandboxes[other] == old(rt.sandboxes)[other]
    ensures err.Some? && Is(err.value, CapacityExhausted) <==>
      NoRoom(id, call, old(rt.sandboxes).Keys, old(rt.owners[..]))
  {
    if call.assets.Some? { return Some(call.assets.value); }
    var r := rt.ReserveSandbox(id, call.blockEgress, !call.disk.Enough?);
    if !r.Created? { return Some(ReserveError(r, call.disk)); }
    if call.activation.Some? {
      rt.UntrackSandbox(r.state);
      assert rt.sandboxes == old(rt.sandboxes);
      assert rt.owners[..] == old(rt.owners[..]);
      return Some(call.activation.value);
    }
    r.state.running, r.state.transition := true, Unclaimed;
    return None;
  }

  /** What a call may do to a runner's tables: nothing, or track the one new sandbox. */
  twostate predicate Adds(rt: FirecrackerRuntime.Runtime, id: Id)
    reads rt
  {
    && (rt.sandboxes.Keys == old(rt.sandboxes).Keys || rt.sandboxes.Keys == old(rt.sandboxes).Keys + {id})
    && forall other :: other in old(rt.sandboxes) ==>
         other in rt.sandboxes && rt.sandboxes[other] == old(rt.sandboxes)[other]
  }

  method Handle(rt: FirecrackerRuntime.Runtime, id: Id, call: Call) returns (reply: Reply)
    modifies rt`sandboxes, rt.owners
    ensures Adds(rt, id)
    ensures reply.Created? <==> Accepts(id, call, old(rt.sandboxes).Keys, old(rt.owners[..]))
    ensures reply.Created? ==> id in rt.sandboxes && rt.sandboxes[id].blockEgress == call.blockEgress
    ensures Refused(reply) <==> call.attached && Refuses(id, call, old(rt.sandboxes).Keys, old(rt.owners[..]))
    ensures Refused(reply) ==> rt.sandboxes == old(rt.sandboxes) && rt.owners[..] == old(rt.owners[..])
  {
    if !call.keyOk { return Failed(Status(CodeUnauthenticated, [])); }
    if call.cordoned {
      RefusalIsCapacity(Known(CapacityExhausted), call.attached);
      return Failed(CapacityRefusal(call.attached));
    }
    if !call.ready { return Failed(Status(CodeUnavailable, [])); }
    if !IsUuid(id) { return Failed(Status(CodeInvalidArgument, [])); }
    if !call.optionsOk { return Failed(Status(CodeInvalidArgument, [])); }
    var err := CreateSandbox(rt, id, call);
    if err.Some? {
      RefusalIsCapacity(err.value, call.attached);
      return Failed(ToGrpcError(err.value, call.attached));
    }
    return Created;
  }

  /**
   * The reply as the API receives it. It is a refusal exactly when the runner refused and
   * the marked reply got through, and then the runner tracks what it tracked before.
   */
  method Serve(rt: FirecrackerRuntime.Runtime, id: Id, call: Call) returns (reply: Reply)
    modifies rt`sandboxes, rt.owners
    ensures Adds(rt, id)
    ensures reply.Created? <==>
      call.transport.None? && Accepts(id, call, old(rt.sandboxes).Keys, old(rt.owners[..]))
    ensures reply.Created? ==> id in rt.sandboxes && rt.sandboxes[id].blockEgress == call.blockEgress
    ensures Refused(reply) <==>
      call.attached && call.transport.None? && Refuses(id, call, old(rt.sandboxes).Keys, old(rt.owners[..]))
    ensures Refused(reply) ==> rt.sandboxes == old(rt.sandboxes) && rt.owners[..] == old(rt.owners[..])
  {
    reply := Handle(rt, id, call);
    if call.transport.Some? { reply := Failed(Status(call.transport.value, [])); }
  }
}
