/** What each call of the embedder does to a conversation, as functions of the
    state: the checks, the guest calls, and the changes around them. */
module Scope {
  import opened Prelude
  import opened Contexts
  import opened States
  import opened GuestCode
  import Callouts
  import Grants

  datatype CalloutProblem =
    | NotOpen
    | NotMadeBy(context: ContextId)
    | WrongKind(kind: Callouts.Kind)
    | NoResponseHeader

  datatype GuestError =
    | Poisoned
    | CallFailed
    | ValueTooLarge(size: nat)
    | ContextError(id: ContextId, problem: Problem)
    | CalloutError(callout: Callouts.CalloutId, reason: CalloutProblem)
    | GuestRejected(rejection: Rejection, root: ContextId)
    | NotRegisteredBy(queue: Grants.QueueId, root: ContextId)
    | UnexpectedReturn(callback: Callback, value: int)
    | ContextIdsExhausted

  /** What a call of the embedder answers. `Unwound` is a panic that passed it. */
  datatype Answer =
    | Answered
    | Flag(accepted: bool)
    | NewContext(id: ContextId)
    | Action(value: int)
    | EndedCallouts(ended: seq<Callouts.CalloutId>)
    | TakenChanges(changes: Grants.Changes)
    | Failed(error: GuestError)
    | Unwound
  {
    /** The answer of a call whose guest trapped or panicked. */
    predicate OutOfService() {
      Unwound? || this == Failed(CallFailed)
    }
  }

  function Report(ret: Ret): Answer {
    match ret
    case Returned(_) => Answered
    case Refused => Failed(Poisoned)
    case Trapped => Failed(CallFailed)
    case Panicked => Unwound
  }

  // ---- The checks ----

  function First(a: Option<GuestError>, b: Option<GuestError>): Option<GuestError> {
    if a.Some? then a else b
  }

  /** A callback that is still current never came back, which poisons the guest. */
  function RequireLive(s: State): State {
    if s.current.Some? then s.(poisoned := true) else s
  }

  function Dead(s: State): Option<GuestError> {
    if s.poisoned then Some(Poisoned) else None
  }

  function Require(t: Table, id: ContextId): Option<GuestError> {
    if id in t.entries then None else Some(ContextError(id, Unknown))
  }

  function RequireRoot(t: Table, id: ContextId): Option<GuestError> {
    match t.TypeOf(id)
    case None => Some(ContextError(id, Unknown))
    case Some(Root) => None
    case Some(Stream) => Some(ContextError(id, NotRoot))
  }

  function RequireStream(t: Table, id: ContextId): Option<GuestError> {
    match t.TypeOf(id)
    case None => Some(ContextError(id, Unknown))
    case Some(Root) => Some(ContextError(id, NotStream))
    case Some(Stream) => None
  }

  function RequireDone(t: Table, id: ContextId): Option<GuestError> {
    match t.PhaseOf(id)
    case None => Some(ContextError(id, Unknown))
    case Some(Done) => None
    case Some(_) => Some(ContextError(id, NotDone))
  }

  function RequireDeletable(t: Table, id: ContextId): Option<GuestError> {
    First(RequireDone(t, id), if t.HasChildren(id) then Some(ContextError(id, HasChildren)) else None)
  }

  function RequireKind(t: Table, id: ContextId, kind: StreamKind): Option<GuestError> {
    var recorded := t.KindOf(id);
    if recorded.Some? && recorded.value != kind
    then Some(ContextError(id, WrongStreamKind(recorded.value, kind)))
    else None
  }

  function Accepted(t: Table, id: ContextId): Option<GuestError> {
    match t.RejectionOf(id)
    case None => None
    case Some(ByVmStart) => Some(GuestRejected(ByVmStart, t.vmRejected.GetOr(id)))
    case Some(ByConfigure) => Some(GuestRejected(ByConfigure, t.RootOf(id).GetOr(id)))
  }

  function VmAccepted(t: Table): Option<GuestError> {
    if t.vmRejected.Some? then Some(GuestRejected(ByVmStart, t.vmRejected.value)) else None
  }

  /** A count or a length that the ABI cannot carry as a signed 32-bit value. */
  function WireSize(size: nat): Option<GuestError> {
    if size > I32_MAX then Some(ValueTooLarge(size)) else None
  }

  /** The one stream a scope serves, which its first stream callback decides. */
  function OtherThanServed(s: State, id: ContextId): Option<GuestError> {
    if s.served.Some? && s.served.value != id then Some(ContextError(id, OtherStream(s.served.value))) else None
  }

  /** The rule of the one stream, which a root passes. */
  function ServedStream(s: State, id: ContextId): (State, Option<GuestError>) {
    if s.contexts.TypeOf(id) != Some(Stream) then (s, None)
    else
      var problem := OtherThanServed(s, id);
      (if problem.None? then s.(served := Some(id)) else s, problem)
  }

  function Boolean(callback: Callback, value: int): Result<bool, GuestError> {
    if value == 0 then Ok(false)
    else if value == 1 then Ok(true)
    else Err(UnexpectedReturn(callback, value))
  }

  /** The end of a callback that answers a boolean, with the state of each answer. */
  function Judge(after: State, ret: Ret, callback: Callback, yes: State, no: State): (State, Answer) {
    if !ret.Returned? then (after, Report(ret))
    else match Boolean(callback, ret.value)
      case Err(error) => (after, Failed(error))
      case Ok(accepted) => (if accepted then yes else no, Flag(accepted))
  }

  // ---- Scopes and the calls on the guest itself ----

  function Enter(s: State): State {
    s.(served := None, scope := s.scope + 1)
  }

  function DropScope(s: State): State {
    RequireLive(s).(current := None)
  }

  /** The scope is used up, so its end runs what a drop of it runs. */
  function Finish(s: State): State {
    DropScope(RequireLive(s))
  }

  function ReplaceStore(s: State, store: Grants.StoreId): State {
    s.(grants := s.grants.Replace(store))
  }

  function TakeChanges(s: State): (State, Answer) {
    var (grants, changes) := s.grants.Take();
    (s.(grants := grants), TakenChanges(changes))
  }

  function ExpectKind(s0: State, id: ContextId, kind: StreamKind): (State, Answer) {
    var s := RequireLive(s0);
    match First(Dead(s), First(RequireStream(s.contexts, id), RequireKind(s.contexts, id, kind)))
    case Some(error) => (s, Failed(error))
    case None => (s.(contexts := s.contexts.SetKind(id, kind)), Answered)
  }

  // ---- Start of a context, of the instance, and of a plugin ----

  function OnContextCreate(s0: State, parent: Option<ContextId>): (State, Answer) {
    var s := RequireLive(s0);
    var refusal := match parent
      case Some(root) => First(RequireRoot(s.contexts, root), Accepted(s.contexts, root))
      case None => VmAccepted(s.contexts);
    match First(Dead(s), refusal)
    case Some(error) => (s, Failed(error))
    case None =>
      match s.contexts.Create(parent)
      case (_, Err(BadParent(id, problem))) => (s, Failed(ContextError(id, problem)))
      case (_, Err(IdsExhausted)) => (s, Failed(ContextIdsExhausted))
      case (contexts, Ok(id)) =>
        var created := s.(contexts := contexts).Note(Created(id, parent.GetOr(id)));
        var (after, ret) := Run(created, id, ContextCreate, 0);
        (after, if ret.Returned? then NewContext(id) else Report(ret))
  }

  function OnVmStart(s0: State, root: ContextId, size: nat): (State, Answer) {
    var s := RequireLive(s0);
    match First(Dead(s), First(RequireRoot(s.contexts, root), First(Accepted(s.contexts, root), WireSize(size))))
    case Some(error) => (s, Failed(error))
    case None =>
      var (after, ret) := Run(s, root, VmStart, 1);
      Judge(after, ret, VmStart, after, after.(contexts := after.contexts.RejectVm(root)).Note(RefusedVm))
  }

  function OnConfigure(s0: State, root: ContextId, size: nat): (State, Answer) {
    var s := RequireLive(s0);
    match First(Dead(s), First(RequireRoot(s.contexts, root), First(Accepted(s.contexts, root), WireSize(size))))
    case Some(error) => (s, Failed(error))
    case None =>
      var (after, ret) := Run(s, root, Configure, 1);
      Judge(after, ret, Configure, after, after.(contexts := after.contexts.Reject(root)).Note(RefusedRoot(root)))
  }

  // ---- The callbacks of a stream ----

  /** The record of the family and of the one stream comes after every check. */
  function StreamPrologue(s: State, id: ContextId, kind: StreamKind): Option<GuestError> {
    First(Dead(s), First(RequireStream(s.contexts, id), First(Accepted(s.contexts, id),
      First(RequireKind(s.contexts, id, kind), OtherThanServed(s, id)))))
  }

  function Recorded(s: State, id: ContextId, kind: StreamKind): State {
    s.(served := Some(id), contexts := s.contexts.SetKind(id, kind))
  }

  /** After the guest returned or failed, nothing is announced. */
  function Acted(after: State, ret: Ret, callback: Callback): (State, Answer) {
    if ret.Panicked? then (after, Unwound)
    else
      var cleared := after.(announced := None);
      if !ret.Returned? then (cleared, Report(ret))
      else if ret.value == 0 || ret.value == 1 then (cleared, Action(ret.value))
      else (cleared, Failed(UnexpectedReturn(callback, ret.value)))
  }

  /** A stream callback that answers an action. `size` is the count or the
      length it passes; a new connection passes none. */
  function StreamAction(s0: State, id: ContextId, callback: Callback, size: nat): (State, Answer)
    requires callback.Family().Some?
  {
    var kind := callback.Family().value;
    var tooLarge := if callback.NewConnection? then None else WireSize(size);
    if tooLarge.Some? then (s0, Failed(tooLarge.value))
    else
      var s := RequireLive(s0);
      match StreamPrologue(s, id, kind)
      case Some(error) => (s, Failed(error))
      case None =>
        var (after, ret) := Run(Recorded(s, id, kind).(announced := callback.Announces()), id, callback, 0);
        Acted(after, ret, callback)
  }

  /** A stream callback that answers nothing, which closes a connection. */
  function StreamEvent(s0: State, id: ContextId, callback: Callback): (State, Answer)
    requires callback.Family() == Some(Tcp)
  {
    var s := RequireLive(s0);
    match StreamPrologue(s, id, Tcp)
    case Some(error) => (s, Failed(error))
    case None =>
      var (after, ret) := Run(Recorded(s, id, Tcp), id, callback, 0);
      (after, Report(ret))
  }

  // ---- Deliveries ----

  /** Whether the delivery takes an entry out of the table. */
  predicate Takes(s: State, callout: Option<Callouts.CalloutId>, ends: bool) {
    ends && callout.Some? && callout.value in s.callouts.open
  }

  /** Before the guest runs: the value is lent, and a callout that ends here has
      left the table. */
  function Lend(s: State, callout: Option<Callouts.CalloutId>, ends: bool): State {
    var lent := s.(delivery := Some(Delivery(callout)));
    if Takes(s, callout, ends)
    then lent.(callouts := s.callouts.Remove(callout.value)).Note(Ended(callout.value, Delivered))
    else lent
  }

  /** After the guest returned or failed: the value is cleared, and an entry that
      was taken comes back to a guest that the call poisoned. */
  function GiveBack(s: State, callout: Option<Callouts.CalloutId>, ends: bool, after: State): State {
    var cleared := after.(delivery := None);
    if Takes(s, callout, ends) && after.poisoned
    then cleared.(callouts := after.callouts.Enter(callout.value, s.callouts.open[callout.value]))
                .Note(Restored(callout.value))
    else cleared
  }

  /** One delivery to the guest. A panic passes it. */
  function Deliver(s: State, context: ContextId, callout: Option<Callouts.CalloutId>, callback: Callback,
                   ends: bool): (State, Ret)
  {
    var (after, ret) := Run(Lend(s, callout, ends), context, callback, 0);
    if ret.Panicked? then (after, ret) else (GiveBack(s, callout, ends, after), ret)
  }

  /** The callout of a delivery is open and of the given context, it is of a kind that
      takes the delivery, and so does its root. */
  function CalloutRefusal(s: State, context: ContextId, callout: Callouts.CalloutId, kinds: set<Callouts.Kind>,
                          headerless: bool): Option<GuestError>
  {
    if callout !in s.callouts.open then Some(CalloutError(callout, NotOpen))
    else
      var entry := s.callouts.open[callout];
      if entry.caller != context then Some(CalloutError(callout, NotMadeBy(context)))
      else if entry.kind !in kinds then Some(CalloutError(callout, WrongKind(entry.kind)))
      else if headerless then Some(CalloutError(callout, NoResponseHeader))
      else First(RequireRoot(s.contexts, entry.root), Accepted(s.contexts, entry.root))
  }

  datatype Response = FailedCall | Received(headers: nat, body: nat, trailers: nat)

  function ResponseSize(response: Response): Option<GuestError> {
    match response
    case FailedCall => None
    case Received(headers, body, trailers) => First(WireSize(headers), First(WireSize(body), WireSize(trailers)))
  }

  function OnHttpCallResponse(s0: State, context: ContextId, callout: Callouts.CalloutId,
                              response: Response): (State, Answer)
  {
    var s := RequireLive(s0);
    var headerless := response.Received? && response.headers == 0;
    match First(Dead(s), First(CalloutRefusal(s, context, callout, {Callouts.HttpCall}, headerless),
                               ResponseSize(response)))
    case Some(error) => (s, Failed(error))
    case None =>
      var (after, ret) := Deliver(s, s.callouts.open[callout].root, Some(callout), HttpCallResponse, true);
      (after, Report(ret))
  }

  const BOTH_GRPC: set<Callouts.Kind> := {Callouts.GrpcCall, Callouts.GrpcStream}

  /** A close ends the callout, a message ends a call, and metadata ends nothing. */
  predicate GrpcEnds(callback: Callback, kind: Callouts.Kind) {
    callback.GrpcClose? || (callback.GrpcReceive? && kind.GrpcCall?)
  }

  /** One of the four gRPC deliveries. */
  function OnGrpc(s0: State, context: ContextId, callout: Callouts.CalloutId, callback: Callback,
                  size: nat): (State, Answer)
  {
    var s := RequireLive(s0);
    match First(Dead(s), First(CalloutRefusal(s, context, callout, BOTH_GRPC, false), WireSize(size)))
    case Some(error) => (s, Failed(error))
    case None =>
      var entry := s.callouts.open[callout];
      var (after, ret) := Deliver(s, entry.root, Some(callout), callback, GrpcEnds(callback, entry.kind));
      (after, Report(ret))
  }

  function OnForeignFunction(s0: State, context: ContextId, size: nat): (State, Answer) {
    var s := RequireLive(s0);
    match First(Dead(s), First(Require(s.contexts, context), First(Accepted(s.contexts, context), WireSize(size))))
    case Some(error) => (s, Failed(error))
    case None =>
      var (after, ret) := Deliver(s, context, None, ForeignFunction, false);
      (after, Report(ret))
  }

  function OnTick(s0: State, root: ContextId): (State, Answer) {
    var s := RequireLive(s0);
    match First(Dead(s), First(RequireRoot(s.contexts, root), Accepted(s.contexts, root)))
    case Some(error) => (s, Failed(error))
    case None =>
      var (after, ret) := Run(s, root, Tick, 0);
      (after, Report(ret))
  }

  function OnQueueReady(s0: State, root: ContextId, queue: Grants.QueueId): (State, Answer) {
    var s := RequireLive(s0);
    var stranger := if root in s.grants.Registrants(queue) then None else Some(NotRegisteredBy(queue, root));
    match First(Dead(s), First(RequireRoot(s.contexts, root), First(Accepted(s.contexts, root), stranger)))
    case Some(error) => (s, Failed(error))
    case None =>
      var (after, ret) := Run(s, root, QueueReady, 0);
      (after, Report(ret))
  }

  // ---- The end of a context ----

  function Finalized(s: State, id: ContextId, phase: Phase): State {
    s.(contexts := s.contexts.SetPhase(id, phase))
  }

  function OnDone(s0: State, id: ContextId): (State, Answer) {
    var live := RequireLive(s0);
    if live.poisoned then (live, Failed(Poisoned))
    else
      var (s, other) := ServedStream(live, id);
      match First(other, Require(s.contexts, id))
      case Some(error) => (s, Failed(error))
      case None =>
        var (after, ret) := Run(s, id, ContextDone, 1);
        Judge(after, ret, ContextDone, Finalized(after, id, Done), Finalized(after, id, Pending))
  }

  function OnLog(s0: State, id: ContextId): (State, Answer) {
    var live := RequireLive(s0);
    if live.poisoned then (live, Failed(Poisoned))
    else
      var (s, other) := ServedStream(live, id);
      match First(other, RequireDone(s.contexts, id))
      case Some(error) => (s, Failed(error))
      case None =>
        var (after, ret) := Run(s, id, ContextLog, 0);
        (after, Report(ret))
  }

  /** How a sweep over the callouts of a deleted context came back. */
  datatype Sweep = Swept(ended: seq<Callouts.CalloutId>) | Broken(ret: Ret)

  function FailureCallback(kind: Callouts.Kind): Callback {
    if kind.HttpCall? then HttpCallResponse else GrpcClose
  }

  /** Delivers a failure for each of `made` that is still open. */
  function FailEach(s: State, root: ContextId, made: seq<Callouts.Made>,
                    ended: seq<Callouts.CalloutId>): (State, Sweep)
    decreases |made|
  {
    if made == [] then (s, Swept(ended))
    else if made[0].id !in s.callouts.open then FailEach(s, root, made[1..], ended)
    else
      var (after, ret) := Deliver(s, root, Some(made[0].id), FailureCallback(made[0].kind), true);
      if !ret.Returned? then (after, Broken(ret))
      else FailEach(after, root, made[1..], ended + [made[0].id])
  }

  /** Removes every callout of `context` with no guest call. */
  function DropOpen(s: State, context: ContextId): (State, seq<Callouts.CalloutId>) {
    var made := s.callouts.MadeBy(context);
    (s.(callouts := s.callouts.Drop(made), log := s.log + Drops(made)), Callouts.Ids(made))
  }

  function FailOpen(s: State, context: ContextId, root: ContextId): (State, Sweep)
  {
    if s.contexts.RejectionOf(root).Some? then
      var (after, ended) := DropOpen(s, context);
      (after, Swept(ended))
    else FailEach(s, root, s.callouts.MadeBy(context), [])
  }

  /** Forgets the context, and the queues of one that has no root above it. */
  function Forgotten(s: State, id: ContextId, root: Option<ContextId>): State {
    s.(contexts := s.contexts.Remove(id),
       grants := if root.None? then s.grants.Forget(id) else s.grants).Note(Deleted(id))
  }

  /** After the removal: a stream gets its failures, and whatever is left goes. */
  function Conclude(gone: State, id: ContextId, root: Option<ContextId>,
                    ended: seq<Callouts.CalloutId>): (State, Answer)
  {
    var (swept, sweep) := if root.Some? then FailOpen(gone, id, root.value) else (gone, Swept([]));
    if sweep.Broken? then (swept, Report(sweep.ret))
    else
      var (dropped, rest) := DropOpen(swept, id);
      (dropped, EndedCallouts(ended + sweep.ended + rest))
  }

  /** A root gets its failures before the delete callback and a stream after it. */
  function Delete(s: State, id: ContextId): (State, Answer) {
    var root := s.contexts.Parent(id);
    var (failed, first) := if root.None? then FailOpen(s, id, id) else (s, Swept([]));
    if first.Broken? then (failed, Report(first.ret))
    else
      var (deleted, ret) := Run(failed, id, ContextDelete, 0);
      if !ret.Returned? then (deleted, Report(ret))
      else Conclude(Forgotten(deleted, id, root), id, root, first.ended)
  }

  function OnDelete(s0: State, id: ContextId): (State, Answer) {
    var live := RequireLive(s0);
    if live.poisoned then (live, Failed(Poisoned))
    else
      var (s, other) := ServedStream(live, id);
      match First(other, RequireDeletable(s.contexts, id))
      case Some(error) => (s, Failed(error))
      case None =>
        var (after, answer) := Delete(s.(deleting := Some(id)), id);
        (if answer.Unwound? then after else after.(deleting := None), answer)
  }

  // ---- Any call ----

  datatype Op =
    | EnterScope
    | FinishScope
    | LoseScope
    | InstallStore(store: Grants.StoreId)
    | ReadChanges
    | DeclareKind(context: ContextId, kind: StreamKind)
    | Create(parent: Option<ContextId>)
    | StartVm(context: ContextId, size: nat)
    | ConfigureRoot(context: ContextId, size: nat)
    | CallStream(context: ContextId, callback: Callback, size: nat)
    | TellStream(context: ContextId, callback: Callback)
    | AnswerHttp(context: ContextId, callout: Callouts.CalloutId, response: Response)
    | AnswerGrpc(context: ContextId, callout: Callouts.CalloutId, callback: Callback, size: nat)
    | CallForeign(context: ContextId, size: nat)
    | TickRoot(context: ContextId)
    | QueueIsReady(context: ContextId, queue: Grants.QueueId)
    | EndContext(context: ContextId)
    | LogContext(context: ContextId)
    | DeleteContext(context: ContextId)
  {
    /** The callback of the call is one its method takes. */
    predicate Typed() {
      match this
      case CallStream(_, callback, _) =>
        && callback.Family().Some?
        && !callback.DownstreamConnectionClose? && !callback.UpstreamConnectionClose?
      case TellStream(_, callback) => callback.DownstreamConnectionClose? || callback.UpstreamConnectionClose?
      case AnswerGrpc(_, _, callback, _) =>
        || callback.GrpcReceiveInitialMetadata? || callback.GrpcReceive?
        || callback.GrpcReceiveTrailingMetadata? || callback.GrpcClose?
      case _ => true
    }
  }

  /** One call of the embedder. */
  function Step(s: State, op: Op): (State, Answer)
    requires op.Typed()
  {
    match op
    case EnterScope => (Enter(s), Answered)
    case FinishScope => (Finish(s), Answered)
    case LoseScope => (DropScope(s), Answered)
    case InstallStore(store) => (ReplaceStore(s, store), Answered)
    case ReadChanges => TakeChanges(s)
    case DeclareKind(id, kind) => ExpectKind(s, id, kind)
    case Create(parent) => OnContextCreate(s, parent)
    case StartVm(root, size) => OnVmStart(s, root, size)
    case ConfigureRoot(root, size) => OnConfigure(s, root, size)
    case CallStream(id, callback, size) => StreamAction(s, id, callback, size)
    case TellStream(id, callback) => StreamEvent(s, id, callback)
    case AnswerHttp(id, callout, response) => OnHttpCallResponse(s, id, callout, response)
    case AnswerGrpc(id, callout, callback, size) => OnGrpc(s, id, callout, callback, size)
    case CallForeign(id, size) => OnForeignFunction(s, id, size)
    case TickRoot(root) => OnTick(s, root)
    case QueueIsReady(root, queue) => OnQueueReady(s, root, queue)
    case EndContext(id) => OnDone(s, id)
    case LogContext(id) => OnLog(s, id)
    case DeleteContext(id) => OnDelete(s, id)
  }

  predicate AllTyped(ops: seq<Op>) {
    forall op :: op in ops ==> op.Typed()
  }

  /** A run: the calls of the embedder, one after another. */
  function Steps(s: State, ops: seq<Op>): State
    requires AllTyped(ops)
    decreases |ops|
  {
    if ops == [] then s
    else
      assert ops[0] in ops;
      Steps(Step(s, ops[0]).0, ops[1..])
  }
}
