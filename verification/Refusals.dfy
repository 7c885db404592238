/** Which error each refused call answers, in the order of its checks, what a refused
    call leaves, and what the calls do that reach no guest. */
module Refusals {
  import opened Prelude
  import opened Contexts
  import opened States
  import opened GuestCode
  import opened Scope
  import opened Invariants
  import opened History
  import opened Runs
  import opened Theorems
  import opened HostFunctions
  import Callouts
  import Grants

  // ---- What is wrong with a call ----

  /** The first of two, in the order of the checks. */
  function Or(a: Option<GuestError>, b: Option<GuestError>): Option<GuestError> {
    match a case Some(_) => a case None => b
  }

  /** The context is not there, or it is not of the type that the call is about. */
  function NotA(t: Table, id: ContextId, contextType: ContextType): Option<GuestError> {
    if id !in t.entries then Some(ContextError(id, Unknown))
    else if t.entries[id].contextType == contextType then None
    else if contextType.Root? then Some(ContextError(id, NotRoot))
    else Some(ContextError(id, NotStream))
  }

  function Missing(t: Table, id: ContextId): Option<GuestError> {
    if id in t.entries then None else Some(ContextError(id, Unknown))
  }

  function Unfinished(t: Table, id: ContextId): Option<GuestError> {
    if id !in t.entries then Some(ContextError(id, Unknown))
    else if t.entries[id].phase.Done? then None
    else Some(ContextError(id, NotDone))
  }

  /** The refusal of the instance comes before the one of the root. */
  function RefusedAt(t: Table, id: ContextId): Option<GuestError> {
    if t.vmRejected.Some? then Some(GuestRejected(ByVmStart, t.vmRejected.value))
    else if id in t.entries && Above(t, id) in t.entries && t.entries[Above(t, id)].rejected
    then Some(GuestRejected(ByConfigure, Above(t, id)))
    else None
  }

  function TooBig(size: nat): Option<GuestError> {
    if size > 0x7FFF_FFFF then Some(ValueTooLarge(size)) else None
  }

  function OtherFamily(t: Table, id: ContextId, kind: StreamKind): Option<GuestError> {
    if id in t.entries && t.entries[id].streamKind.Some? && t.entries[id].streamKind.value != kind
    then Some(ContextError(id, WrongStreamKind(t.entries[id].streamKind.value, kind)))
    else None
  }

  function Another(s: State, id: ContextId): Option<GuestError> {
    if s.served.Some? && s.served.value != id then Some(ContextError(id, OtherStream(s.served.value))) else None
  }

  /** The rule of the one stream for an ending call, which concerns streams alone. */
  function AnotherStream(s: State, id: ContextId): Option<GuestError> {
    if id in s.contexts.entries && s.contexts.entries[id].contextType.Stream? then Another(s, id) else None
  }

  ghost predicate IsParent(t: Table, id: ContextId) {
    exists child :: child in t.entries && t.entries[child].parent == Some(id)
  }

  function FamilyOf(callback: Callback): StreamKind {
    if callback.NewConnection? || callback.DownstreamData? || callback.UpstreamData?
       || callback.DownstreamConnectionClose? || callback.UpstreamConnectionClose?
    then Tcp
    else Http
  }

  function StreamProblem(s: State, id: ContextId, callback: Callback): Option<GuestError> {
    Or(NotA(s.contexts, id, Stream), Or(RefusedAt(s.contexts, id),
      Or(OtherFamily(s.contexts, id, FamilyOf(callback)), Another(s, id))))
  }

  /** What is wrong with a delivery, before its sizes. */
  function DeliveryProblem(s: State, context: ContextId, callout: Callouts.CalloutId,
                           kinds: set<Callouts.Kind>, headerless: bool): Option<GuestError>
  {
    if callout !in s.callouts.open then Some(CalloutError(callout, NotOpen))
    else
      var entry := s.callouts.open[callout];
      if entry.caller != context then Some(CalloutError(callout, NotMadeBy(context)))
      else if entry.kind !in kinds then Some(CalloutError(callout, WrongKind(entry.kind)))
      else if headerless then Some(CalloutError(callout, NoResponseHeader))
      else RefusedAt(s.contexts, context)
  }

  /** The error of each call, or nothing when it passes its checks. */
  ghost function Problem(s: State, op: Op): Option<GuestError> {
    var t := s.contexts;
    match op
    case Create(parent) =>
      Or(if parent.None? then
           if t.vmRejected.Some? then Some(GuestRejected(ByVmStart, t.vmRejected.value)) else None
         else Or(NotA(t, parent.value, Root), RefusedAt(t, parent.value)),
         if t.next == 0xFFFF_FFFF then Some(ContextIdsExhausted) else None)
    case StartVm(root, size) => Or(NotA(t, root, Root), Or(RefusedAt(t, root), TooBig(size)))
    case ConfigureRoot(root, size) => Or(NotA(t, root, Root), Or(RefusedAt(t, root), TooBig(size)))
    case CallStream(id, callback, size) =>
      Or(if callback.NewConnection? then None else TooBig(size), StreamProblem(s, id, callback))
    case TellStream(id, callback) => StreamProblem(s, id, callback)
    case DeclareKind(id, kind) => Or(NotA(t, id, Stream), OtherFamily(t, id, kind))
    case AnswerHttp(context, callout, response) =>
      Or(DeliveryProblem(s, context, callout, {Callouts.HttpCall}, response.Received? && response.headers == 0),
         if response.FailedCall? then None
         else Or(TooBig(response.headers), Or(TooBig(response.body), TooBig(response.trailers))))
    case AnswerGrpc(context, callout, _, size) =>
      Or(DeliveryProblem(s, context, callout, {Callouts.GrpcCall, Callouts.GrpcStream}, false), TooBig(size))
    case CallForeign(id, size) => Or(Missing(t, id), Or(RefusedAt(t, id), TooBig(size)))
    case TickRoot(root) => Or(NotA(t, root, Root), RefusedAt(t, root))
    case QueueIsReady(root, queue) =>
      Or(NotA(t, root, Root), Or(RefusedAt(t, root),
        if root in RootsNow(s.grants, queue) then None else Some(NotRegisteredBy(queue, root))))
    case EndContext(id) => Or(AnotherStream(s, id), Missing(t, id))
    case LogContext(id) => Or(AnotherStream(s, id), Unfinished(t, id))
    case DeleteContext(id) =>
      Or(AnotherStream(s, id), Or(Unfinished(t, id),
        if t.TypeOf(id) == Some(Root) && IsParent(t, id) then Some(ContextError(id, HasChildren)) else None))
    case _ => None
  }

  /** The record of the one stream after an ending call looked at it. */
  function AfterLook(s: State, op: Op): State {
    if (op.EndContext? || op.LogContext? || op.DeleteContext?)
       && s.contexts.TypeOf(op.context) == Some(Stream) && s.served.None?
    then s.(served := Some(op.context))
    else s
  }

  // ---- The checks of the source say the same ----

  lemma ContextChecks(t: Table, id: ContextId, kind: StreamKind)
    requires t.Forest()
    ensures RequireRoot(t, id) == NotA(t, id, Root) && RequireStream(t, id) == NotA(t, id, Stream)
    ensures Require(t, id) == Missing(t, id) && RequireDone(t, id) == Unfinished(t, id)
    ensures RequireKind(t, id, kind) == OtherFamily(t, id, kind)
    ensures Accepted(t, id) == RefusedAt(t, id)
  {
  }

  lemma DeliveryChecks(s: State, context: ContextId, callout: Callouts.CalloutId, kinds: set<Callouts.Kind>,
                       headerless: bool)
    requires Inv(s) && s.AtRest()
    ensures CalloutRefusal(s, context, callout, kinds, headerless)
         == DeliveryProblem(s, context, callout, kinds, headerless)
  {
    hide Ledger, Chronicle;
    if callout in s.callouts.open {
      var entry := s.callouts.open[callout];
      CallersRootIsTheirs(s, callout);
      ContextChecks(s.contexts, entry.root, Tcp);
      assert s.contexts.RootOf(entry.caller) == Some(entry.root);
    }
  }

  // ---- Each call ----

  /** A call with something wrong answers that and leaves the state, but for the record
      of the one stream. Any other call passes its checks. */
  ghost predicate Told(s: State, op: Op)
    requires op.Typed()
  {
    match Problem(s, op)
    case Some(error) => Step(s, op) == (AfterLook(s, op), Failed(error)) && Checked(Failed(error))
    case None => !Checked(Step(s, op).1)
  }

  lemma StartTold(s: State, op: Op)
    requires Inv(s) && s.AtRest() && (op.StartVm? || op.ConfigureRoot?)
    ensures Told(s, op)
  {
    hide Run, Ledger, Chronicle, PeriodsKnown;
    ContextChecks(s.contexts, op.context, Tcp);
    RunGoesOn(s, op.context, VmStart, 1);
    RunGoesOn(s, op.context, Configure, 1);
  }

  lemma CreateTold(s: State, op: Op)
    requires Inv(s) && s.AtRest() && op.Create?
    ensures Told(s, op)
  {
    hide Run, Ledger, Chronicle, PeriodsKnown;
    if op.parent.Some? {
      ContextChecks(s.contexts, op.parent.value, Tcp);
    }
    var (t, made) := s.contexts.Create(op.parent);
    if made.Ok? {
      RunGoesOn(s.(contexts := t).Note(Created(made.value, op.parent.GetOr(made.value))), made.value, ContextCreate, 0);
    }
  }

  lemma StreamActionTold(s: State, op: Op)
    requires Inv(s) && s.AtRest() && op.Typed() && op.CallStream?
    ensures Told(s, op)
  {
    hide Run, Ledger, Chronicle, PeriodsKnown;
    ContextChecks(s.contexts, op.context, FamilyOf(op.callback));
    var recorded := Scope.Recorded(s, op.context, FamilyOf(op.callback)).(announced := op.callback.Announces());
    RunGoesOn(recorded, op.context, op.callback, 0);
  }

  lemma StreamEventTold(s: State, op: Op)
    requires Inv(s) && s.AtRest() && op.Typed() && op.TellStream?
    ensures Told(s, op)
  {
    hide Run, Ledger, Chronicle, PeriodsKnown;
    ContextChecks(s.contexts, op.context, FamilyOf(op.callback));
    RunGoesOn(Scope.Recorded(s, op.context, FamilyOf(op.callback)), op.context, op.callback, 0);
  }

  lemma ResponseTold(s: State, op: Op)
    requires Inv(s) && s.AtRest() && op.AnswerHttp?
    ensures Told(s, op)
  {
    hide Deliver, Inv, CalloutRefusal;
    DeliveryChecks(s, op.context, op.callout, {Callouts.HttpCall}, op.response.Received? && op.response.headers == 0);
    if op.callout in s.callouts.open {
      DeliverGoesOn(s, s.callouts.open[op.callout].root, Some(op.callout), HttpCallResponse, true);
    }
  }

  lemma GrpcTold(s: State, op: Op)
    requires Inv(s) && s.AtRest() && op.Typed() && op.AnswerGrpc?
    ensures Told(s, op)
  {
    hide Deliver, Inv, CalloutRefusal;
    DeliveryChecks(s, op.context, op.callout, BOTH_GRPC, false);
    if op.callout in s.callouts.open {
      var entry := s.callouts.open[op.callout];
      DeliverGoesOn(s, entry.root, Some(op.callout), op.callback, GrpcEnds(op.callback, entry.kind));
    }
  }

  lemma ForeignTold(s: State, op: Op)
    requires Inv(s) && s.AtRest() && op.CallForeign?
    ensures Told(s, op)
  {
    hide Deliver, Ledger, Chronicle, PeriodsKnown;
    ContextChecks(s.contexts, op.context, Tcp);
    DeliverGoesOn(s, op.context, None, ForeignFunction, false);
  }

  lemma TickTold(s: State, op: Op)
    requires Inv(s) && s.AtRest() && op.TickRoot?
    ensures Told(s, op)
  {
    hide Run, Ledger, Chronicle, PeriodsKnown;
    ContextChecks(s.contexts, op.context, Tcp);
    RunGoesOn(s, op.context, Tick, 0);
  }

  lemma QueueTold(s: State, op: Op)
    requires Inv(s) && s.AtRest() && op.QueueIsReady?
    ensures Told(s, op)
  {
    hide Run, Ledger, Chronicle, PeriodsKnown;
    ContextChecks(s.contexts, op.context, Tcp);
    RunGoesOn(s, op.context, QueueReady, 0);
  }

  lemma DoneTold(s: State, op: Op)
    requires Inv(s) && s.AtRest() && op.EndContext?
    ensures Told(s, op)
  {
    hide Run, Ledger, Chronicle, PeriodsKnown;
    ContextChecks(s.contexts, op.context, Tcp);
    RunGoesOn(ServedStream(s, op.context).0, op.context, ContextDone, 1);
  }

  lemma LogTold(s: State, op: Op)
    requires Inv(s) && s.AtRest() && op.LogContext?
    ensures Told(s, op)
  {
    hide Run, Ledger, Chronicle, PeriodsKnown;
    ContextChecks(s.contexts, op.context, Tcp);
    RunGoesOn(ServedStream(s, op.context).0, op.context, ContextLog, 0);
  }

  lemma DeleteTold(s: State, op: Op)
    requires Inv(s) && s.AtRest() && op.DeleteContext?
    ensures Told(s, op)
  {
    hide Delete, Ledger, Chronicle, PeriodsKnown;
    ContextChecks(s.contexts, op.context, Tcp);
    ServedKeepsSound(s, op.context);
    var (served, other) := ServedStream(s, op.context);
    if other.None? && RequireDeletable(served.contexts, op.context).None? {
      RanDelete(served, op.context);
    }
  }

  lemma KindTold(s: State, op: Op)
    requires Inv(s) && s.AtRest() && op.DeclareKind?
    ensures Told(s, op)
  {
    ContextChecks(s.contexts, op.context, op.kind);
  }

  /** For every call on a guest at rest: the error is the first thing that is wrong, in
      the order above, and a call with nothing wrong passes its checks. */
  lemma EveryRefusalIsTold(s: State, op: Op)
    requires Inv(s) && s.AtRest() && op.Typed()
    ensures Told(s, op)
  {
    hide Told, Inv;
    match op {
      case Create(_) => CreateTold(s, op);
      case StartVm(_, _) => StartTold(s, op);
      case ConfigureRoot(_, _) => StartTold(s, op);
      case CallStream(_, _, _) => StreamActionTold(s, op);
      case TellStream(_, _) => StreamEventTold(s, op);
      case DeclareKind(_, _) => KindTold(s, op);
      case AnswerHttp(_, _, _) => ResponseTold(s, op);
      case AnswerGrpc(_, _, _, _) => GrpcTold(s, op);
      case CallForeign(_, _) => ForeignTold(s, op);
      case TickRoot(_) => TickTold(s, op);
      case QueueIsReady(_, _) => QueueTold(s, op);
      case EndContext(_) => DoneTold(s, op);
      case LogContext(_) => LogTold(s, op);
      case DeleteContext(_) => DeleteTold(s, op);
      case _ => ScopeCallTold(s, op);
    }
  }

  lemma ScopeCallTold(s: State, op: Op)
    requires op.EnterScope? || op.FinishScope? || op.LoseScope? || op.InstallStore? || op.ReadChanges?
    ensures Told(s, op)
  {
  }

  // ---- A guest out of service ----

  /** A call about a context finds a guest out of service: it answers that the guest is
      poisoned, but for a size that no guest gets, and the guest is poisoned from then
      on. */
  lemma DeadGuestIsTold(s: State, op: Op)
    requires !s.AtRest() && op.Typed()
    requires !op.EnterScope? && !op.FinishScope? && !op.LoseScope? && !op.InstallStore? && !op.ReadChanges?
    ensures Step(s, op) ==
      if op.CallStream? && !op.callback.NewConnection? && op.size > 0x7FFF_FFFF then (s, Failed(ValueTooLarge(op.size)))
      else (s.(poisoned := true), Failed(Poisoned))
  {
  }

  // ---- The calls that reach no guest ----

  /** The calls of the scope on the guest itself, on any guest. A reading answers the
      periods, and the registrations when the grants are current, and empties both. */
  lemma ScopeCallsDo(s: State, op: Op)
    requires op.EnterScope? || op.FinishScope? || op.LoseScope? || op.InstallStore? || op.ReadChanges?
    ensures var (u, answer) := Step(s, op);
      match op
      case EnterScope => u == s.(served := None, scope := s.scope + 1) && answer == Answered
      case InstallStore(store) =>
        && u == s.(grants := u.grants) && answer == Answered && u.grants.store == store
        && u.grants == s.grants.(store := store, installed := u.grants.installed)
      case ReadChanges =>
        && u == s.(grants := u.grants)
        && answer == TakenChanges(Grants.Changes(s.grants.changes.tickPeriods, WaitingNow(s.grants)))
        && u.grants.changes == Grants.Changes(map[], {}) && u.grants.queues == s.grants.queues
        && u.grants.registrants == s.grants.registrants && u.grants.store == s.grants.store
        && u.grants.grantedAgainst == s.grants.grantedAgainst
      case _ => u == s.(poisoned := s.poisoned || s.current.Some?, current := None) && answer == Answered
  {
  }

  /** A declared family is recorded, and nothing else changes. */
  lemma DeclareKindDoes(s: State, id: ContextId, kind: StreamKind)
    requires Inv(s) && s.AtRest() && Problem(s, DeclareKind(id, kind)).None?
    ensures id in s.contexts.entries
    ensures Step(s, DeclareKind(id, kind)) ==
      (s.(contexts := s.contexts.(entries :=
            s.contexts.entries[id := s.contexts.entries[id].(streamKind := Some(kind))])), Answered)
  {
    ContextChecks(s.contexts, id, kind);
  }
}
