/** Two facts about a context that no call takes back, on a live guest or a dead one:
    that it is on its end, but for a second `on_done`, and that it is gone with all
    of its callouts. */
module Lasting {
  import opened Prelude
  import opened Contexts
  import opened States
  import opened GuestCode
  import opened Scope
  import opened Deletion
  import opened Invariants
  import opened Runs
  import opened Theorems
  import Calls
  import Callouts
  import Grants

  /** The identifier was given out, and its context is done while it lives. */
  ghost predicate Settled(t: Table, id: ContextId) {
    id < t.next && (id in t.entries ==> t.entries[id].phase.Done?)
  }

  /** The context is not there, nothing acts for it, and no callout is of it. */
  ghost predicate Gone(s: State, c: ContextId) {
    && c < s.contexts.next && c !in s.contexts.entries && s.contexts.effective != Some(c)
    && NoneOf(s.callouts.open, c)
  }

  ghost predicate Keeps(s: State, u: State, id: ContextId) {
    (Settled(s.contexts, id) ==> Settled(u.contexts, id)) && (Gone(s, id) ==> Gone(u, id))
  }

  // ---- Guest code ----

  lemma DoKeeps(s: State, act: Act, id: ContextId)
    ensures Keeps(s, Do(s, act), id)
  {
    DoSettles(s, act, id);
    DoKeepsGone(s, act, id);
  }

  lemma DoSettles(s: State, act: Act, id: ContextId)
    ensures Settled(s.contexts, id) ==> Settled(Do(s, act).contexts, id)
  {
  }

  lemma DoKeepsGone(s: State, act: Act, c: ContextId)
    ensures Gone(s, c) ==> Gone(Do(s, act), c)
  {
    assert s.contexts.Caller().Some? ==> s.contexts.Caller() == s.contexts.effective;
  }

  lemma {:induction false} PerformKeeps(s: State, acts: seq<Act>, id: ContextId)
    ensures Keeps(s, Perform(s, acts), id)
    decreases |acts|
  {
    if acts != [] {
      DoKeeps(s, acts[0], id);
      PerformKeeps(Do(s, acts[0]), acts[1..], id);
    }
  }

  lemma RunKeeps(s: State, context: ContextId, callback: Callback, default: int, id: ContextId)
    ensures Keeps(s, Run(s, context, callback, default).0, id)
  {
    var p := Calls.Prepared(s, context, callback);
    assert Keeps(s, p, id);
    if !s.poisoned && s.future != [] && s.future[0].Play? {
      var reached := Calls.Reached(p, context, callback);
      assert Keeps(p, reached, id);
      PerformKeeps(reached, s.future[0].acts, id);
      Calls.RunOfPlay(s, context, callback, default);
    }
  }

  lemma DeliverKeeps(s: State, context: ContextId, callout: Option<Callouts.CalloutId>, callback: Callback, ends: bool,
                     id: ContextId)
    ensures Keeps(s, Deliver(s, context, callout, callback, ends).0, id)
  {
    hide Run;
    var lent := Lend(s, callout, ends);
    assert Keeps(s, lent, id);
    RunKeeps(lent, context, callback, 0, id);
    var (after, ret) := Run(lent, context, callback, 0);
    GiveBackKeeps(s, callout, ends, after, id);
  }

  lemma GiveBackKeeps(s: State, callout: Option<Callouts.CalloutId>, ends: bool, after: State, id: ContextId)
    requires Keeps(s, after, id)
    ensures Keeps(s, GiveBack(s, callout, ends, after), id)
  {
  }

  // ---- A deletion ----

  lemma {:induction false} FailEachKeeps(s: State, root: ContextId, made: seq<Callouts.Made>,
                                         ended: seq<Callouts.CalloutId>, id: ContextId)
    ensures Keeps(s, FailEach(s, root, made, ended).0, id)
    decreases |made|
  {
    hide Deliver;
    if made != [] {
      if made[0].id !in s.callouts.open {
        FailEachKeeps(s, root, made[1..], ended, id);
      } else {
        var callback := FailureCallback(made[0].kind);
        DeliverKeeps(s, root, Some(made[0].id), callback, true, id);
        var after := Deliver(s, root, Some(made[0].id), callback, true).0;
        FailEachKeeps(after, root, made[1..], ended + [made[0].id], id);
      }
    }
  }

  lemma DropOpenKeeps(s: State, context: ContextId, id: ContextId)
    ensures Keeps(s, DropOpen(s, context).0, id)
  {
    DropLeaves(s.callouts, context);
  }

  lemma FailOpenKeeps(s: State, context: ContextId, root: ContextId, id: ContextId)
    ensures Keeps(s, FailOpen(s, context, root).0, id)
  {
    DropOpenKeeps(s, context, id);
    FailEachKeeps(s, root, s.callouts.MadeBy(context), [], id);
  }

  lemma ConcludeKeeps(gone: State, c: ContextId, root: Option<ContextId>, ended: seq<Callouts.CalloutId>, id: ContextId)
    ensures Keeps(gone, Conclude(gone, c, root, ended).0, id)
  {
    hide FailOpen, DropOpen;
    if root.Some? {
      FailOpenKeeps(gone, c, root.value, id);
      DropOpenKeeps(FailOpen(gone, c, root.value).0, c, id);
    } else {
      DropOpenKeeps(gone, c, id);
    }
  }

  lemma DeleteKeeps(s: State, c: ContextId, id: ContextId)
    ensures Keeps(s, Delete(s, c).0, id)
  {
    hide FailOpen, Run, Conclude;
    var root := s.contexts.Parent(c);
    FailOpenKeeps(s, c, c, id);
    var (failed, first) := if root.None? then FailOpen(s, c, c) else (s, Swept([]));
    if first.Swept? {
      RunKeeps(failed, c, ContextDelete, 0, id);
      var deleted := Run(failed, c, ContextDelete, 0).0;
      var gone := Forgotten(deleted, c, root);
      assert Keeps(deleted, gone, id);
      ConcludeKeeps(gone, c, root, first.ended, id);
    }
  }

  // ---- The calls ----

  lemma DeletingKeeps(s: State, c: ContextId, id: ContextId)
    ensures Keeps(s, OnDelete(s, c).0, id)
  {
    hide Delete;
    var marked := ServedStream(RequireLive(s), c).0.(deleting := Some(c));
    assert Keeps(s, marked, id);
    DeleteKeeps(marked, c, id);
  }

  lemma CreatingKeeps(s: State, parent: Option<ContextId>, id: ContextId)
    ensures Keeps(s, OnContextCreate(s, parent).0, id)
  {
    hide Run;
    var live := RequireLive(s);
    var (t, made) := live.contexts.Create(parent);
    if made.Ok? {
      var created := live.(contexts := t).Note(Created(made.value, parent.GetOr(made.value)));
      assert Keeps(s, created, id);
      RunKeeps(created, made.value, ContextCreate, 0, id);
    }
  }

  lemma StartingKeeps(s: State, root: ContextId, size: nat, id: ContextId)
    ensures Keeps(s, OnVmStart(s, root, size).0, id) && Keeps(s, OnConfigure(s, root, size).0, id)
  {
    hide Run;
    RunKeeps(RequireLive(s), root, VmStart, 1, id);
    RunKeeps(RequireLive(s), root, Configure, 1, id);
  }

  lemma RecordedKeeps(s: State, context: ContextId, kind: StreamKind, announced: Option<BufferType>, id: ContextId)
    ensures Keeps(s, Scope.Recorded(RequireLive(s), context, kind), id)
    ensures Keeps(s, Scope.Recorded(RequireLive(s), context, kind).(announced := announced), id)
  {
  }

  lemma ActedKeeps(s: State, after: State, ret: Ret, callback: Callback, id: ContextId)
    requires Keeps(s, after, id)
    ensures Keeps(s, Acted(after, ret, callback).0, id)
  {
  }

  lemma ActingKeeps(s: State, context: ContextId, callback: Callback, size: nat, id: ContextId)
    requires callback.Family().Some?
    ensures Keeps(s, StreamAction(s, context, callback, size).0, id)
  {
    hide Run, Acted;
    var kind := callback.Family().value;
    RecordedKeeps(s, context, kind, callback.Announces(), id);
    var recorded := Scope.Recorded(RequireLive(s), context, kind).(announced := callback.Announces());
    RunKeeps(recorded, context, callback, 0, id);
    var (after, ret) := Run(recorded, context, callback, 0);
    ActedKeeps(s, after, ret, callback, id);
  }

  lemma TellingKeeps(s: State, context: ContextId, callback: Callback, id: ContextId)
    requires callback.Family() == Some(Tcp)
    ensures Keeps(s, StreamEvent(s, context, callback).0, id)
  {
    hide Run;
    RecordedKeeps(s, context, Tcp, None, id);
    RunKeeps(Scope.Recorded(RequireLive(s), context, Tcp), context, callback, 0, id);
  }

  lemma AnsweringKeeps(s: State, context: ContextId, callout: Callouts.CalloutId, response: Response,
                       callback: Callback, size: nat, id: ContextId)
    ensures Keeps(s, OnHttpCallResponse(s, context, callout, response).0, id)
    ensures Keeps(s, OnGrpc(s, context, callout, callback, size).0, id)
  {
    hide Deliver;
    var live := RequireLive(s);
    if callout in live.callouts.open {
      var entry := live.callouts.open[callout];
      DeliverKeeps(live, entry.root, Some(callout), HttpCallResponse, true, id);
      DeliverKeeps(live, entry.root, Some(callout), callback, GrpcEnds(callback, entry.kind), id);
    }
  }

  lemma EventsKeep(s: State, context: ContextId, size: nat, queue: Grants.QueueId, id: ContextId)
    ensures Keeps(s, OnForeignFunction(s, context, size).0, id)
    ensures Keeps(s, OnTick(s, context).0, id) && Keeps(s, OnQueueReady(s, context, queue).0, id)
  {
    hide Run, Deliver;
    DeliverKeeps(RequireLive(s), context, None, ForeignFunction, false, id);
    RunKeeps(RequireLive(s), context, Tick, 0, id);
    RunKeeps(RequireLive(s), context, QueueReady, 0, id);
  }

  lemma LoggingKeeps(s: State, context: ContextId, id: ContextId)
    ensures Keeps(s, OnLog(s, context).0, id)
  {
    hide Run;
    RunKeeps(ServedStream(RequireLive(s), context).0, context, ContextLog, 0, id);
  }

  /** A second `on_done` is what can take the first fact back, by its answer. */
  lemma EndingKeeps(s: State, context: ContextId, id: ContextId)
    ensures Gone(s, id) ==> Gone(OnDone(s, context).0, id)
    ensures context != id || OnDone(s, context).1 != Flag(false) ==>
      Settled(s.contexts, id) ==> Settled(OnDone(s, context).0.contexts, id)
  {
    hide Run;
    RunKeeps(ServedStream(RequireLive(s), context).0, context, ContextDone, 1, id);
  }

  lemma StepKeeps(s: State, op: Op, id: ContextId)
    requires op.Typed()
    ensures Gone(s, id) ==> Gone(Step(s, op).0, id)
    ensures op != EndContext(id) || Step(s, op).1 != Flag(false) ==>
      Settled(s.contexts, id) ==> Settled(Step(s, op).0.contexts, id)
  {
    match op {
      case Create(parent) => CreatingKeeps(s, parent, id);
      case StartVm(root, size) => StartingKeeps(s, root, size, id);
      case ConfigureRoot(root, size) => StartingKeeps(s, root, size, id);
      case CallStream(context, callback, size) => ActingKeeps(s, context, callback, size, id);
      case TellStream(context, callback) => TellingKeeps(s, context, callback, id);
      case AnswerHttp(context, callout, response) =>
        AnsweringKeeps(s, context, callout, response, GrpcClose, 0, id);
      case AnswerGrpc(context, callout, callback, size) =>
        AnsweringKeeps(s, context, callout, FailedCall, callback, size, id);
      case CallForeign(context, size) => EventsKeep(s, context, size, 0, id);
      case TickRoot(root) => EventsKeep(s, root, 0, 0, id);
      case QueueIsReady(root, queue) => EventsKeep(s, root, 0, queue, id);
      case EndContext(context) => EndingKeeps(s, context, id);
      case LogContext(context) => LoggingKeeps(s, context, id);
      case DeleteContext(context) => DeletingKeeps(s, context, id);
      case _ =>
    }
  }

  // ---- The way to the end ----

  /** What the guest answers when it is reached next. */
  predicate NextReturns(s: State, value: int) {
    s.future != [] && s.future[0].Play? && s.future[0].outcome == Return(value)
  }

  /** `on_done` answers false exactly when it reaches a guest that returns zero. */
  lemma DoneAnswersFalse(s: State, id: ContextId)
    requires s.AtRest()
    ensures OnDone(s, id).1 == Flag(false) <==> id in s.contexts.entries && MayServe(s, id) && NextReturns(s, 0)
  {
    var served := ServedStream(s, id).0;
    if s.future != [] && s.future[0].Play? {
      Calls.RunOfPlay(served, id, ContextDone, 1);
    }
  }

  /** A done context becomes pending in exactly one way: by a call of `on_done` on it
      that passes the rule of the one stream and whose guest returns zero. No other
      call, and nothing else a guest does, moves it back. */
  lemma DoneBecomesPendingExactlyWhen(s: State, op: Op, id: ContextId)
    requires Inv(s) && s.AtRest() && op.Typed() && s.contexts.PhaseOf(id) == Some(Done)
    ensures Step(s, op).0.contexts.PhaseOf(id) == Some(Pending) <==>
      op == EndContext(id) && MayServe(s, id) && NextReturns(s, 0)
  {
    StepKeeps(s, op, id);
    if op == EndContext(id) {
      DoneAnswersFalse(s, id);
      OnDoneDecides(s, id);
    }
  }

  // ---- Gone for good ----

  lemma {:induction false} StepsKeepGone(s: State, ops: seq<Op>, c: ContextId)
    requires AllTyped(ops) && Gone(s, c)
    ensures Gone(Steps(s, ops), c)
    decreases |ops|
  {
    if ops != [] {
      assert ops[0] in ops;
      StepKeeps(s, ops[0], c);
      StepsKeepGone(Step(s, ops[0]).0, ops[1..], c);
    }
  }

  lemma DeletionLeavesNothing(s: State, c: ContextId)
    requires Inv(s)
    ensures var (u, answer) := OnDelete(s, c);
      answer.EndedCallouts? ==> Gone(u, c)
  {
    OnDeleteDeletes(s, c);
  }

  /** After a deletion that succeeded, and whatever follows on a live guest or a dead
      one: no callback reaches the guest for the context, no context takes its
      identifier, and no callout of it is open. */
  lemma DeletedContextIsGone(s: State, c: ContextId, ops: seq<Op>)
    requires Inv(s) && AllTyped(ops)
    ensures var u := OnDelete(s, c).0;
      var v := Steps(u, ops);
      OnDelete(s, c).1.EndedCallouts? ==>
        && u.log <= v.log
        && c !in v.contexts.entries
        && (forall id :: id in v.callouts.open ==> v.callouts.open[id].caller != c)
        && forall i :: |u.log| <= i < |v.log| && (v.log[i].Entered? || v.log[i].Created?) ==> v.log[i].context != c
  {
    var u := OnDelete(s, c).0;
    OnDeleteGoesOn(s, c);
    OnDeleteDeletes(s, c);
    if OnDelete(s, c).1.EndedCallouts? {
      DeletionLeavesNothing(s, c);
      StepsKeepGone(u, ops, c);
      LaterEvents(u, ops, Deleted(c));
    }
  }
}
