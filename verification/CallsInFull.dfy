/** Every call of the embedder that reaches the guest, from its first change to its
    answer: in which state the script of the guest starts, and what is made of the
    state in which it ended. */
module CallsInFull {
  import opened Prelude
  import opened Contexts
  import opened States
  import opened GuestCode
  import opened Scope
  import opened History
  import opened Invariants
  import opened Runs
  import opened Theorems
  import opened HostFunctions
  import opened Refusals
  import Calls
  import Callouts
  import Grants
  import Rely

  // ---- Which callback, and on which context ----

  /** The callback of a call. A deletion has several, and a call of the scope none. */
  function CallbackOf(op: Op): Option<Callback> {
    match op
    case Create(_) => Some(ContextCreate)
    case StartVm(_, _) => Some(VmStart)
    case ConfigureRoot(_, _) => Some(Configure)
    case CallStream(_, callback, _) => Some(callback)
    case TellStream(_, callback) => Some(callback)
    case AnswerHttp(_, _, _) => Some(HttpCallResponse)
    case AnswerGrpc(_, _, callback, _) => Some(callback)
    case CallForeign(_, _) => Some(ForeignFunction)
    case TickRoot(_) => Some(Tick)
    case QueueIsReady(_, _) => Some(QueueReady)
    case EndContext(_) => Some(ContextDone)
    case LogContext(_) => Some(ContextLog)
    case _ => None
  }

  /** A new context gets the next identifier, a delivery goes to the root that its
      callout recorded, and any other callback to the context it is about. */
  function RunsOn(s: State, op: Op): ContextId
    requires CallbackOf(op).Some?
    requires op.AnswerHttp? || op.AnswerGrpc? ==> op.callout in s.callouts.open
  {
    if op.Create? then s.contexts.next
    else if op.AnswerHttp? || op.AnswerGrpc? then s.callouts.open[op.callout].root
    else op.context
  }

  /** The callout that is over with the delivery. */
  function EndsCallout(s: State, op: Op): Option<Callouts.CalloutId>
    requires op.AnswerHttp? || op.AnswerGrpc? ==> op.callout in s.callouts.open
  {
    if op.AnswerHttp? then Some(op.callout)
    else if op.AnswerGrpc? && (op.callback.GrpcClose?
                               || (op.callback.GrpcReceive? && s.callouts.open[op.callout].kind.GrpcCall?))
    then Some(op.callout)
    else None
  }

  function IsStreamCall(op: Op): bool {
    op.CallStream? || op.TellStream?
  }

  /** The buffer that a data callback lets the guest read. */
  function BufferOf(callback: Callback): Option<BufferType> {
    if callback.DownstreamData? then Some(DownstreamBuffer)
    else if callback.UpstreamData? then Some(UpstreamBuffer)
    else if callback.RequestBody? then Some(RequestBodyBuffer)
    else if callback.ResponseBody? then Some(ResponseBodyBuffer)
    else None
  }

  predicate Exported(s: State) {
    s.future != [] && s.future[0].Play?
  }

  // ---- The start ----

  /** The table in which the callback runs: with the new context, or with the family of
      the stream, and with the context of the callback effective. */
  ghost predicate StartsWithContexts(s: State, op: Op, on: ContextId, t: Table) {
    && t.effective == Some(on) && t.vmRejected == s.contexts.vmRejected
    && t.next == (if op.Create? then s.contexts.next + 1 else s.contexts.next)
    && (op.Create? || on in s.contexts.entries)
    && t.entries ==
         if op.Create? then
           var contextType := if op.parent.Some? then Stream else Root;
           s.contexts.entries[on := Entry(contextType, None, op.parent, Active, false, None)]
         else if IsStreamCall(op) then
           s.contexts.entries[on := s.contexts.entries[on].(streamKind := Some(FamilyOf(op.callback)))]
         else s.contexts.entries
  }

  /** What the history tells before the guest runs: the new context, the callout that
      is over, and the guest that was reached. */
  function Before(s: State, op: Op): seq<Event>
    requires op.AnswerHttp? || op.AnswerGrpc? ==> op.callout in s.callouts.open
  {
    if op.Create? then [Created(s.contexts.next, if op.parent.Some? then op.parent.value else s.contexts.next)]
    else if EndsCallout(s, op).Some? then [Ended(EndsCallout(s, op).value, Delivered)]
    else []
  }

  ghost predicate TellsOfEntry(e: Event, callback: Callback, on: ContextId, t: Table, scope: nat) {
    && on in t.entries && Above(t, on) in t.entries
    && e == Entered(callback, on, Some(Above(t, on)), Some(t.entries[on]),
                    t.vmRejected.Some? || t.entries[Above(t, on)].rejected, scope)
  }

  /** The state in which the script of the guest starts. */
  ghost predicate Begins(s: State, op: Op, g: State)
    requires CallbackOf(op).Some?
    requires op.AnswerHttp? || op.AnswerGrpc? ==> op.callout in s.callouts.open
  {
    var on := RunsOn(s, op);
    && StartsWithContexts(s, op, on, g.contexts)
    && g.callouts == (if EndsCallout(s, op).Some?
                      then s.callouts.(open := s.callouts.open - {EndsCallout(s, op).value}) else s.callouts)
    && g.current == CallbackOf(op)
    && g.announced == (if op.CallStream? then BufferOf(op.callback) else s.announced)
    && g.delivery == (if op.AnswerHttp? || op.AnswerGrpc? then Some(Delivery(Some(op.callout)))
                      else if op.CallForeign? then Some(Delivery(None)) else s.delivery)
    && g.served == (if IsStreamCall(op) || ((op.EndContext? || op.LogContext?)
                       && on in s.contexts.entries && s.contexts.entries[on].contextType.Stream?)
                    then Some(on) else s.served)
    && g.future == (if s.future == [] then [] else s.future[1..])
    && !g.poisoned && g.grants == s.grants && g.deleting == s.deleting && g.scope == s.scope && g.maximum == s.maximum
    && if Exported(s)
       then exists e :: g.log == s.log + Before(s, op) + [e]
                        && TellsOfEntry(e, CallbackOf(op).value, on, g.contexts, s.scope)
       else g.log == s.log + Before(s, op)
  }

  // ---- The end ----

  /** How the guest comes back: as its script says, or with the default of a callback
      that it does not export. */
  function OutcomeOf(s: State, op: Op): Outcome {
    if Exported(s) then s.future[0].outcome
    else Return(if op.StartVm? || op.ConfigureRoot? || op.EndContext? then 1 else 0)
  }

  /** After the guest came back or failed, nothing is current, announced or lent. */
  function CameBack(op: Op, p: State): State {
    p.(current := None,
       announced := if op.CallStream? then None else p.announced,
       delivery := if op.AnswerHttp? || op.AnswerGrpc? || op.CallForeign? then None else p.delivery)
  }

  /** What a call makes of the value that the guest returned. */
  ghost predicate Concludes(s: State, op: Op, p: State, value: int, u: State, answer: Answer) {
    var back := CameBack(op, p);
    if op.StartVm? || op.ConfigureRoot? || op.EndContext? then
      if value == 0 then answer == Flag(false) && SaidNo(op, back, u)
      else if value == 1 then answer == Flag(true) && SaidYes(op, back, u)
      else answer == Failed(UnexpectedReturn(CallbackOf(op).value, value)) && u == back
    else if op.CallStream? then
      && u == back
      && answer == if value == 0 then Action(0) else if value == 1 then Action(1)
                   else Failed(UnexpectedReturn(op.callback, value))
    else
      u == back && answer == if op.Create? then NewContext(s.contexts.next) else Answered
  }

  /** The refusal of the instance, the refusal of a root, and the wait of a context. */
  ghost predicate SaidNo(op: Op, back: State, u: State)
    requires op.StartVm? || op.ConfigureRoot? || op.EndContext?
  {
    var id, t := op.context, back.contexts;
    && id in t.entries
    && match op
       case StartVm(_, _) => u == back.(contexts := t.(vmRejected := Some(id)), log := back.log + [RefusedVm])
       case ConfigureRoot(_, _) =>
         u == back.(contexts := t.(entries := t.entries[id := t.entries[id].(rejected := true)]),
                    log := back.log + [RefusedRoot(id)])
       case EndContext(_) =>
         u == back.(contexts := t.(entries := t.entries[id := t.entries[id].(phase := Pending)]))
  }

  ghost predicate SaidYes(op: Op, back: State, u: State)
    requires op.StartVm? || op.ConfigureRoot? || op.EndContext?
  {
    var id, t := op.context, back.contexts;
    && id in t.entries
    && u == if op.EndContext?
            then back.(contexts := t.(entries := t.entries[id := t.entries[id].(phase := Done)]))
            else back
  }

  /** What is made of the state in which the script ended. */
  ghost predicate Ends(s: State, op: Op, p: State, outcome: Outcome, u: State, answer: Answer)
    requires op.AnswerHttp? || op.AnswerGrpc? ==> op.callout in s.callouts.open
  {
    match outcome
    case Return(value) => Concludes(s, op, p, value, u, answer)
    case Panic => u == p && answer == Unwound
    case Trap =>
      && answer == Failed(CallFailed)
      && var failed := CameBack(op, p).(poisoned := true);
      u == match EndsCallout(s, op)
        case None => failed
        case Some(id) =>
          failed.(callouts := p.callouts.(open := p.callouts.open[id := s.callouts.open[id]]),
                  log := p.log + [Restored(id)])
  }

  /** The call passed its checks with a state `g` in which the script starts and a state
      `p` in which it ends. */
  ghost predicate InFull(s: State, op: Op, g: State, p: State)
    requires op.Typed() && CallbackOf(op).Some?
    requires op.AnswerHttp? || op.AnswerGrpc? ==> op.callout in s.callouts.open
  {
    && Begins(s, op, g)
    && p == (if Exported(s) then Perform(g, s.future[0].acts) else g)
    && Ends(s, op, p, OutcomeOf(s, op), Step(s, op).0, Step(s, op).1)
  }

  // ---- One run ----

  /** The state in which the guest is called on `context` from `r`. */
  function Start(r: State, context: ContextId, callback: Callback): State {
    var p := Calls.Prepared(r, context, callback);
    if Exported(r) then Calls.Reached(p, context, callback)
    else p.(future := if r.future == [] then [] else r.future[1..])
  }

  function Played(r: State, context: ContextId, callback: Callback): State {
    if Exported(r) then Perform(Start(r, context, callback), r.future[0].acts) else Start(r, context, callback)
  }

  lemma RunInFull(r: State, context: ContextId, callback: Callback, default: int)
    requires !r.poisoned
    ensures var p := Played(r, context, callback);
      Run(r, context, callback, default) ==
        match if Exported(r) then r.future[0].outcome else Return(default)
        case Return(value) => (p.(current := None), Returned(value))
        case Trap => (p.(current := None, poisoned := true), Trapped)
        case Panic => (p, Panicked)
  {
    hide Perform;
    if Exported(r) {
      Calls.RunOfPlay(r, context, callback, default);
    }
  }

  /** The fields of the state in which the guest is called. */
  lemma StartInFull(r: State, context: ContextId, callback: Callback)
    requires !r.poisoned && r.contexts.Forest() && context in r.contexts.entries
    ensures var g := Start(r, context, callback);
      && g == r.(contexts := r.contexts.(effective := Some(context)), current := Some(callback),
                 future := if r.future == [] then [] else r.future[1..], log := g.log)
      && if Exported(r)
         then var e := Snapshot(Calls.Prepared(r, context, callback), context, callback);
              g.log == r.log + [e] && TellsOfEntry(e, callback, context, g.contexts, r.scope)
         else g.log == r.log
  {
    assert r.contexts.SoundEntry(r.contexts.entries[context]);
    if r.contexts.entries[context].parent.Some? {
      assert r.contexts.SoundEntry(r.contexts.entries[r.contexts.entries[context].parent.value]);
    }
  }

  // ---- The start of each call ----

  /** What a call changes before it calls the guest. */
  ghost predicate Prepares(s: State, op: Op, r: State)
    requires CallbackOf(op).Some?
    requires op.AnswerHttp? || op.AnswerGrpc? ==> op.callout in s.callouts.open
  {
    var on := RunsOn(s, op);
    && !r.poisoned && on in r.contexts.entries && r.contexts.Forest()
    && StartsWithContexts(s, op, on, r.contexts.(effective := Some(on)))
    && r == s.(contexts := r.contexts, callouts := r.callouts, announced := r.announced, delivery := r.delivery,
               served := r.served, log := s.log + Before(s, op))
    && r.callouts == (if EndsCallout(s, op).Some?
                      then s.callouts.(open := s.callouts.open - {EndsCallout(s, op).value}) else s.callouts)
    && r.announced == (if op.CallStream? then BufferOf(op.callback) else s.announced)
    && r.delivery == (if op.AnswerHttp? || op.AnswerGrpc? then Some(Delivery(Some(op.callout)))
                      else if op.CallForeign? then Some(Delivery(None)) else s.delivery)
    && r.served == (if IsStreamCall(op) || ((op.EndContext? || op.LogContext?)
                       && on in s.contexts.entries && s.contexts.entries[on].contextType.Stream?)
                    then Some(on) else s.served)
  }

  lemma BeginsWhenPrepared(s: State, op: Op, r: State)
    requires CallbackOf(op).Some? && s.AtRest()
    requires op.AnswerHttp? || op.AnswerGrpc? ==> op.callout in s.callouts.open
    requires Prepares(s, op, r)
    ensures var g := Start(r, RunsOn(s, op), CallbackOf(op).value);
      Begins(s, op, g) && g.contexts.Forest()
  {
    hide Start, Before, StartsWithContexts, TellsOfEntry, CallbackOf;
    StartInFull(r, RunsOn(s, op), CallbackOf(op).value);
    var u := r.contexts.(effective := Some(RunsOn(s, op)));
    assert forall id :: id in u.entries ==>
      u.SoundEntry(u.entries[id]) == r.contexts.SoundEntry(r.contexts.entries[id]);
  }

  /** The pre-state of the guest call, by the call. */
  function PreparedFor(s: State, op: Op): State
    requires CallbackOf(op).Some? && op.Typed()
  {
    match op
    case Create(parent) =>
      s.(contexts := s.contexts.Create(parent).0).Note(Created(s.contexts.next, parent.GetOr(s.contexts.next)))
    case CallStream(id, callback, _) =>
      Scope.Recorded(s, id, callback.Family().value).(announced := callback.Announces())
    case TellStream(id, callback) => Scope.Recorded(s, id, Tcp)
    case AnswerHttp(_, callout, _) => Lend(s, Some(callout), true)
    case AnswerGrpc(_, callout, callback, _) =>
      Lend(s, Some(callout), callout in s.callouts.open && GrpcEnds(callback, s.callouts.open[callout].kind))
    case CallForeign(_, _) => Lend(s, None, false)
    case EndContext(id) => ServedStream(s, id).0
    case LogContext(id) => ServedStream(s, id).0
    case _ => s
  }

  lemma CreatePrepares(s: State, op: Op)
    requires Inv(s) && s.AtRest() && op.Create? && Reachable(s, op)
    ensures Prepares(s, op, PreparedFor(s, op))
  {
    hide Ledger, Chronicle, PeriodsKnown;
    CreateKeepsForest(s.contexts, op.parent);
  }

  lemma StreamCallPrepares(s: State, op: Op)
    requires Inv(s) && s.AtRest() && op.Typed() && IsStreamCall(op) && Reachable(s, op)
    ensures Prepares(s, op, PreparedFor(s, op))
  {
    hide Ledger, Chronicle, PeriodsKnown;
    KindKeepsForest(s.contexts, op.context, op.callback.Family().value);
  }

  lemma DeliveryPrepares(s: State, op: Op)
    requires Inv(s) && s.AtRest() && op.Typed() && (op.AnswerHttp? || op.AnswerGrpc?) && Reachable(s, op)
    ensures op.callout in s.callouts.open && Prepares(s, op, PreparedFor(s, op))
  {
    hide Ledger, Chronicle, PeriodsKnown;
    CallersRootIsTheirs(s, op.callout);
  }

  lemma PlainCallPrepares(s: State, op: Op)
    requires Inv(s) && s.AtRest() && CallbackOf(op).Some? && Reachable(s, op)
    requires !op.Create? && !IsStreamCall(op) && !op.AnswerHttp? && !op.AnswerGrpc?
    ensures Prepares(s, op, PreparedFor(s, op))
  {
    hide Ledger, Chronicle, PeriodsKnown;
  }

  lemma CallPrepares(s: State, op: Op)
    requires Inv(s) && s.AtRest() && op.Typed() && CallbackOf(op).Some? && Reachable(s, op)
    ensures op.AnswerHttp? || op.AnswerGrpc? ==> op.callout in s.callouts.open
    ensures Prepares(s, op, PreparedFor(s, op))
  {
    hide Inv, Prepares, PreparedFor, Reachable;
    if op.Create? {
      CreatePrepares(s, op);
    } else if IsStreamCall(op) {
      StreamCallPrepares(s, op);
    } else if op.AnswerHttp? || op.AnswerGrpc? {
      DeliveryPrepares(s, op);
    } else {
      PlainCallPrepares(s, op);
    }
  }

  lemma KindKeepsForest(t: Table, id: ContextId, kind: StreamKind)
    requires t.Forest() && t.TypeOf(id) == Some(Stream)
    ensures t.SetKind(id, kind).Forest()
  {
    var u := t.SetKind(id, kind);
    forall other | other in u.entries
      ensures u.SoundEntry(u.entries[other])
    {
      assert t.SoundEntry(t.entries[other]);
    }
  }

  // ---- The end of each call ----

  /** The state in which the script of a call ends. */
  function ScriptEnds(s: State, op: Op): State
    requires CallbackOf(op).Some? && op.Typed()
    requires op.AnswerHttp? || op.AnswerGrpc? ==> op.callout in s.callouts.open
  {
    Played(PreparedFor(s, op), RunsOn(s, op), CallbackOf(op).value)
  }

  /** A script takes no context away and poisons no guest. */
  lemma PlayedKeepsContext(r: State, context: ContextId, callback: Callback)
    requires Sound(r) && context in r.contexts.entries
    ensures context in Played(r, context, callback).contexts.entries
    ensures Played(r, context, callback).poisoned == r.poisoned
  {
    if Exported(r) {
      Rely.PerformMoves(Start(r, context, callback), r.future[0].acts);
    }
  }

  lemma CreateEnds(s: State, op: Op)
    requires Inv(s) && s.AtRest() && op.Create? && Reachable(s, op)
    ensures Ends(s, op, ScriptEnds(s, op), OutcomeOf(s, op), Step(s, op).0, Step(s, op).1)
  {
    hide Run, Played, Inv;
    RunInFull(PreparedFor(s, op), s.contexts.next, ContextCreate, 0);
  }

  lemma StartEnds(s: State, op: Op)
    requires Inv(s) && s.AtRest() && !Oversize(op) && (op.StartVm? || op.ConfigureRoot?) && Reachable(s, op)
    ensures Ends(s, op, ScriptEnds(s, op), OutcomeOf(s, op), Step(s, op).0, Step(s, op).1)
  {
    hide Run, Played, Ledger, Chronicle, PeriodsKnown;
    PlayedKeepsContext(s, op.context, CallbackOf(op).value);
    RunInFull(s, op.context, CallbackOf(op).value, 1);
  }

  lemma StreamCallEnds(s: State, op: Op)
    requires s.AtRest() && op.Typed() && !Oversize(op) && IsStreamCall(op) && Reachable(s, op)
    ensures Ends(s, op, ScriptEnds(s, op), OutcomeOf(s, op), Step(s, op).0, Step(s, op).1)
  {
    hide Run, Played;
    RunInFull(PreparedFor(s, op), op.context, op.callback, 0);
  }

  lemma DeliveryEnds(s: State, op: Op)
    requires Inv(s) && s.AtRest() && op.Typed() && !Oversize(op) && (op.AnswerHttp? || op.AnswerGrpc?)
    requires Reachable(s, op)
    ensures Ends(s, op, ScriptEnds(s, op), OutcomeOf(s, op), Step(s, op).0, Step(s, op).1)
  {
    hide Run, Played, Ledger, Chronicle, PeriodsKnown;
    CallersRootIsTheirs(s, op.callout);
    Calls.LendKeepsSound(s, Some(op.callout), EndsCallout(s, op).Some?);
    PlayedKeepsContext(PreparedFor(s, op), RunsOn(s, op), CallbackOf(op).value);
    RunInFull(PreparedFor(s, op), RunsOn(s, op), CallbackOf(op).value, 0);
  }

  lemma ForeignEnds(s: State, op: Op)
    requires s.AtRest() && !Oversize(op) && op.CallForeign? && Reachable(s, op)
    ensures Ends(s, op, ScriptEnds(s, op), OutcomeOf(s, op), Step(s, op).0, Step(s, op).1)
  {
    hide Run, Played;
    RunInFull(PreparedFor(s, op), op.context, ForeignFunction, 0);
  }

  lemma TickEnds(s: State, op: Op)
    requires s.AtRest() && op.TickRoot? && Reachable(s, op)
    ensures Ends(s, op, ScriptEnds(s, op), OutcomeOf(s, op), Step(s, op).0, Step(s, op).1)
  {
    hide Run, Played;
    RunInFull(s, op.context, Tick, 0);
  }

  lemma QueueEnds(s: State, op: Op)
    requires s.AtRest() && op.QueueIsReady? && Reachable(s, op)
    ensures Ends(s, op, ScriptEnds(s, op), OutcomeOf(s, op), Step(s, op).0, Step(s, op).1)
  {
    hide Run, Played, OnQueueReady, Reachable;
    QueueRuns(s, op.context, op.queue);
    RunInFull(s, op.context, QueueReady, 0);
  }

  lemma QueueRuns(s: State, root: ContextId, queue: Grants.QueueId)
    requires s.AtRest() && Reachable(s, QueueIsReady(root, queue))
    ensures var (after, ret) := Run(s, root, QueueReady, 0);
      OnQueueReady(s, root, queue) == (after, Report(ret))
  {
    hide Run;
  }

  lemma LogEnds(s: State, op: Op)
    requires s.AtRest() && op.LogContext? && Reachable(s, op)
    ensures Ends(s, op, ScriptEnds(s, op), OutcomeOf(s, op), Step(s, op).0, Step(s, op).1)
  {
    hide Run, Played;
    RunInFull(PreparedFor(s, op), op.context, ContextLog, 0);
  }

  lemma DoneEnds(s: State, op: Op)
    requires Inv(s) && s.AtRest() && op.EndContext? && Reachable(s, op)
    ensures Ends(s, op, ScriptEnds(s, op), OutcomeOf(s, op), Step(s, op).0, Step(s, op).1)
  {
    hide Run, Played, Ledger, Chronicle, PeriodsKnown;
    ServedKeepsSound(s, op.context);
    PlayedKeepsContext(PreparedFor(s, op), op.context, ContextDone);
    RunInFull(PreparedFor(s, op), op.context, ContextDone, 1);
  }

  /** Every call that passes its checks and reaches a guest: the guest starts on the
      callback and the context of that call with what it lends, and what the script
      left becomes the new state and the answer as its outcome tells. */
  lemma EveryCallInFull(s: State, op: Op) returns (g: State, p: State)
    requires Inv(s) && s.AtRest() && op.Typed() && CallbackOf(op).Some? && !Checked(Step(s, op).1)
    ensures op.AnswerHttp? || op.AnswerGrpc? ==> op.callout in s.callouts.open
    ensures InFull(s, op, g, p) && g.contexts.Forest()
  {
    hide Begins, Ends, Prepares, Run, Start, Reachable, Step, PreparedFor, Inv;
    if Oversize(op) {
      OversizeChangesNothing(s, op);
    }
    ChecksAreExact(s, op);
    CallPrepares(s, op);
    BeginsWhenPrepared(s, op, PreparedFor(s, op));
    g := Start(PreparedFor(s, op), RunsOn(s, op), CallbackOf(op).value);
    p := ScriptEnds(s, op);
    CallEnds(s, op);
    FutureIsKept(s, op);
  }

  lemma FutureIsKept(s: State, op: Op)
    requires CallbackOf(op).Some? && op.Typed()
    ensures PreparedFor(s, op).future == s.future
  {
  }

  lemma CallEnds(s: State, op: Op)
    requires Inv(s) && s.AtRest() && op.Typed() && !Oversize(op) && CallbackOf(op).Some? && Reachable(s, op)
    ensures op.AnswerHttp? || op.AnswerGrpc? ==> op.callout in s.callouts.open
    ensures Ends(s, op, ScriptEnds(s, op), OutcomeOf(s, op), Step(s, op).0, Step(s, op).1)
  {
    hide Inv, Ends, ScriptEnds, Step;
    match op {
      case Create(_) => CreateEnds(s, op);
      case StartVm(_, _) => StartEnds(s, op);
      case ConfigureRoot(_, _) => StartEnds(s, op);
      case CallStream(_, _, _) => StreamCallEnds(s, op);
      case TellStream(_, _) => StreamCallEnds(s, op);
      case AnswerHttp(_, _, _) => DeliveryEnds(s, op);
      case AnswerGrpc(_, _, _, _) => DeliveryEnds(s, op);
      case EndContext(_) => DoneEnds(s, op);
      case CallForeign(_, _) => ForeignEnds(s, op);
      case TickRoot(_) => TickEnds(s, op);
      case QueueIsReady(_, _) => QueueEnds(s, op);
      case LogContext(_) => LogEnds(s, op);
      case _ =>
    }
  }

  // ---- The answers ----

  /** The guest returns `value` when it is reached next. */
  predicate Returns(s: State, value: int) {
    Exported(s) && s.future[0].outcome == Return(value)
  }

  /** How a call fails whose guest did not return: a trap is a failed call, and a panic
      passes. */
  ghost predicate FailsAsTheGuestDid(s: State, answer: Answer) {
    && (answer == Failed(CallFailed) <==> Exported(s) && s.future[0].outcome.Trap?)
    && (answer == Unwound <==> Exported(s) && s.future[0].outcome.Panic?)
  }

  /** The action of a stream callback is the one the guest returned: zero or an absent
      callback continues, one pauses, and any other value is an error that names the
      callback and the value. */
  lemma ActionsAreExact(s: State, op: Op, value: int)
    requires Inv(s) && s.AtRest() && op.Typed() && op.CallStream? && !Checked(Step(s, op).1)
    ensures var answer := Step(s, op).1;
      && (answer == Action(0) <==> !Exported(s) || Returns(s, 0))
      && (answer == Action(1) <==> Returns(s, 1))
      && (answer == Failed(UnexpectedReturn(op.callback, value)) <==> Returns(s, value) && value != 0 && value != 1)
      && FailsAsTheGuestDid(s, answer)
  {
    hide Begins, Step, Inv;
    var g, p := EveryCallInFull(s, op);
  }

  /** So is the answer of the three callbacks that answer yes or no, where an absent one
      says yes. */
  lemma FlagsAreExact(s: State, op: Op, value: int)
    requires Inv(s) && s.AtRest() && (op.StartVm? || op.ConfigureRoot? || op.EndContext?) && !Checked(Step(s, op).1)
    ensures var answer := Step(s, op).1;
      && (answer == Flag(true) <==> !Exported(s) || Returns(s, 1))
      && (answer == Flag(false) <==> Returns(s, 0))
      && (answer == Failed(UnexpectedReturn(if op.StartVm? then VmStart else if op.ConfigureRoot? then Configure
                                            else ContextDone, value))
          <==> Returns(s, value) && value != 0 && value != 1)
      && FailsAsTheGuestDid(s, answer)
  {
    hide Begins, Step, Inv, SaidNo, SaidYes;
    var g, p := EveryCallInFull(s, op);
  }

  /** A call that makes a context answers the identifier that the new context has. */
  lemma NewContextIsNamed(s: State, parent: Option<ContextId>)
    requires Inv(s) && s.AtRest() && OnContextCreate(s, parent).1.NewContext?
    ensures var (u, answer) := OnContextCreate(s, parent);
      && answer.id !in s.contexts.entries && answer.id in u.contexts.entries
      && u.contexts.entries.Keys == s.contexts.entries.Keys + {answer.id}
      && u.contexts.Parent(answer.id) == parent
      && u.contexts.TypeOf(answer.id) == Some(if parent.Some? then Stream else Root)
      && Created(answer.id, if parent.Some? then parent.value else answer.id) in u.log
  {
    hide Inv, Perform, OnContextCreate, Begins;
    var g, p := EveryCallInFull(s, Create(parent));
    CreatedStays(s, parent, g, p);
  }

  lemma CreatedStays(s: State, parent: Option<ContextId>, g: State, p: State)
    requires Inv(s) && Begins(s, Create(parent), g) && g.contexts.Forest()
    requires p == if Exported(s) then Perform(g, s.future[0].acts) else g
    ensures var id := s.contexts.next;
      && id !in s.contexts.entries && p.contexts.entries.Keys == s.contexts.entries.Keys + {id}
      && p.contexts.entries[id].parent == parent
      && p.contexts.entries[id].contextType == (if parent.Some? then Stream else Root)
      && Created(id, if parent.Some? then parent.value else id) in p.log
  {
    hide Perform, Chronicle;
    var id := s.contexts.next;
    assert g.log[|s.log|] == Created(id, if parent.Some? then parent.value else id);
    if Exported(s) {
      Rely.PerformMoves(g, s.future[0].acts);
      assert Rely.EntryMoves(g.contexts.entries[id], p.contexts.entries[id]);
      assert p.log[|s.log|] == g.log[|s.log|];
    }
  }
}
