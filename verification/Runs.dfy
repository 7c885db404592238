/** Whole runs: what every call keeps, and that nothing before it is undone. */
module Runs {
  import opened Prelude
  import opened Contexts
  import opened States
  import opened GuestCode
  import opened Rely
  import opened History
  import opened Scope
  import opened Invariants
  import opened Deletion
  import Callouts
  import Grants

  // ---- The invariant ----

  lemma StepKeepsInv(s: State, op: Op)
    requires Inv(s) && op.Typed()
    ensures Inv(Step(s, op).0)
  {
    hide Inv;
    match op {
      case EnterScope => ScopeCallsKeepInv(s, 0);
      case FinishScope => ScopeCallsKeepInv(s, 0);
      case LoseScope => ScopeCallsKeepInv(s, 0);
      case InstallStore(store) => ScopeCallsKeepInv(s, store);
      case ReadChanges => ScopeCallsKeepInv(s, 0);
      case DeclareKind(id, kind) => ExpectKindKeepsInv(s, id, kind);
      case Create(parent) => OnContextCreateKeepsInv(s, parent);
      case StartVm(root, size) => StartCallsKeepInv(s, root, size);
      case ConfigureRoot(root, size) => StartCallsKeepInv(s, root, size);
      case CallStream(id, callback, size) => StreamActionKeepsInv(s, id, callback, size);
      case TellStream(id, callback) => StreamEventKeepsInv(s, id, callback);
      case AnswerHttp(id, callout, response) => HttpResponseKeepsInv(s, id, callout, response);
      case AnswerGrpc(id, callout, callback, size) => GrpcKeepsInv(s, id, callout, callback, size);
      case CallForeign(id, size) => ForeignKeepsInv(s, id, size);
      case TickRoot(root) => RootEventsKeepInv(s, root, 0);
      case QueueIsReady(root, queue) => RootEventsKeepInv(s, root, queue);
      case EndContext(id) => EndCallsKeepInv(s, id);
      case LogContext(id) => EndCallsKeepInv(s, id);
      case DeleteContext(id) => OnDeleteDeletes(s, id);
    }
  }

  lemma {:induction false} StepsKeepInv(s: State, ops: seq<Op>)
    requires Inv(s) && AllTyped(ops)
    ensures Inv(Steps(s, ops))
    decreases |ops|
  {
    if ops != [] {
      assert ops[0] in ops;
      StepKeepsInv(s, ops[0]);
      StepsKeepInv(Step(s, ops[0]).0, ops[1..]);
    }
  }

  /** A whole conversation with a new guest. */
  function Conversation(store: Grants.StoreId, maximum: Maximum, future: seq<Play>, ops: seq<Op>): State
    requires AllTyped(ops)
  {
    Steps(NewState(store, maximum, future), ops)
  }

  lemma ConversationKeepsInv(store: Grants.StoreId, maximum: Maximum, future: seq<Play>, ops: seq<Op>)
    requires AllTyped(ops)
    ensures Inv(Conversation(store, maximum, future, ops))
  {
    NewStateIsSound(store, maximum, future);
    StepsKeepInv(NewState(store, maximum, future), ops);
  }

  // ---- What no step takes back ----

  /** Reports are kept until the grants are cleared, and grants of the installed
      store are kept until another one is installed. */
  ghost predicate GrantsGoOn(g: Grants.Grants, h: Grants.Grants) {
    && g.clears <= h.clears && g.installed <= h.installed
    && (g.clears == h.clears ==> g.reported <= h.reported)
    && (g.installed == h.installed ==> h.store == g.store)
    && (g.installed == h.installed && g.Current() ==> h.Current() && h.clears == g.clears)
  }

  /** The history only grows, and so does what was reported until the grants are
      cleared. No context comes back, and none loses its family, its refusal, or
      its way to its end. The maximum is one for the whole conversation. */
  ghost predicate GoesOn(s: State, u: State) {
    && s.log <= u.log && u.maximum == s.maximum
    && Forward(s.contexts, u.contexts)
    && GrantsGoOn(s.grants, u.grants)
  }

  /** The same, where no reading of the changes missed a registration or told a period. */
  ghost predicate Onward(s: State, u: State) {
    GoesOn(s, u) && u.grants.missed <= s.grants.missed && u.grants.told == s.grants.told
  }

  lemma OnwardStays(s: State)
    ensures Onward(s, s)
  {
  }

  lemma GoesOnComposes(s: State, u: State, v: State)
    requires GoesOn(s, u) && GoesOn(u, v)
    ensures GoesOn(s, v)
  {
    forall id: ContextId | id < s.contexts.next && id in v.contexts.entries
      ensures id in s.contexts.entries && EntryForward(s.contexts.entries[id], v.contexts.entries[id])
    {
      assert EntryForward(u.contexts.entries[id], v.contexts.entries[id]);
      assert EntryForward(s.contexts.entries[id], u.contexts.entries[id]);
    }
  }

  lemma OnwardComposes(s: State, u: State, v: State)
    requires Onward(s, u) && Onward(u, v)
    ensures Onward(s, v)
  {
    GoesOnComposes(s, u, v);
  }

  lemma DoForward(t: Table, act: Act, s: State)
    requires t == s.contexts
    ensures Forward(t, Do(s, act).contexts)
  {
  }

  lemma DoGoesOn(s: State, act: Act)
    ensures Onward(s, Do(s, act)) && OutOfReach(s, Do(s, act))
  {
    DoForward(s.contexts, act, s);
    if OnCallouts(act) {
      hide Do;
      CalloutActsSpare(s, act);
    }
  }

  lemma {:induction false} PerformGoesOn(s: State, acts: seq<Act>)
    ensures Onward(s, Perform(s, acts)) && OutOfReach(s, Perform(s, acts))
    decreases |acts|
  {
    if acts != [] {
      DoGoesOn(s, acts[0]);
      PerformGoesOn(Do(s, acts[0]), acts[1..]);
      OnwardComposes(s, Do(s, acts[0]), Perform(s, acts));
    }
  }

  lemma ReachedGoesOn(s: State, context: ContextId, callback: Callback)
    requires s.future != []
    ensures Onward(s, Calls.Reached(Calls.Prepared(s, context, callback), context, callback))
  {
  }

  lemma PlayedGoesOn(s: State, context: ContextId, callback: Callback)
    requires s.future != [] && s.future[0].Play?
    ensures var played := Calls.Played(s, context, callback);
      Onward(s, played) && played.poisoned == s.poisoned && played.current == Some(callback)
  {
    var reached := Calls.Reached(Calls.Prepared(s, context, callback), context, callback);
    ReachedGoesOn(s, context, callback);
    PerformGoesOn(reached, s.future[0].acts);
    OnwardComposes(s, reached, Calls.Played(s, context, callback));
  }

  lemma RunGoesOn(s: State, context: ContextId, callback: Callback, default: int)
    ensures var (u, ret) := Run(s, context, callback, default);
      Onward(s, u) && (!s.poisoned ==> Left(u, ret))
  {
    if !s.poisoned && s.future != [] && s.future[0].Play? {
      PlayedGoesOn(s, context, callback);
      Calls.RunOfPlay(s, context, callback, default);
    }
  }

  lemma DeliverGoesOn(s: State, context: ContextId, callout: Option<Callouts.CalloutId>, callback: Callback, ends: bool)
    ensures var (u, ret) := Deliver(s, context, callout, callback, ends);
      Onward(s, u) && (!s.poisoned ==> Left(u, ret))
  {
    var lent := Lend(s, callout, ends);
    assert Onward(s, lent);
    RunGoesOn(lent, context, callback, 0);
    OnwardComposes(s, lent, Run(lent, context, callback, 0).0);
  }

  lemma {:induction false} FailEachGoesOn(s: State, root: ContextId, made: seq<Callouts.Made>, ended: Ids)
    ensures Onward(s, FailEach(s, root, made, ended).0)
    decreases |made|
  {
    if made != [] {
      if made[0].id !in s.callouts.open {
        FailEachGoesOn(s, root, made[1..], ended);
      } else {
        DeliverGoesOn(s, root, Some(made[0].id), FailureCallback(made[0].kind), true);
        var after := Deliver(s, root, Some(made[0].id), FailureCallback(made[0].kind), true).0;
        FailEachGoesOn(after, root, made[1..], ended + [made[0].id]);
        OnwardComposes(s, after, FailEach(after, root, made[1..], ended + [made[0].id]).0);
      }
    }
  }

  lemma DropOpenGoesOn(s: State, context: ContextId)
    ensures Onward(s, DropOpen(s, context).0)
  {
  }

  lemma FailOpenGoesOn(s: State, context: ContextId, root: ContextId)
    ensures Onward(s, FailOpen(s, context, root).0)
  {
    DropOpenGoesOn(s, context);
    FailEachGoesOn(s, root, s.callouts.MadeBy(context), []);
  }

  lemma ConcludeGoesOn(gone: State, id: ContextId, root: Option<ContextId>, ended: seq<Callouts.CalloutId>)
    ensures Onward(gone, Conclude(gone, id, root, ended).0)
  {
    if root.Some? {
      FailOpenGoesOn(gone, id, root.value);
      var swept := FailOpen(gone, id, root.value).0;
      DropOpenGoesOn(swept, id);
      OnwardComposes(gone, swept, DropOpen(swept, id).0);
    } else {
      DropOpenGoesOn(gone, id);
    }
  }

  lemma ForgottenGoesOn(s: State, id: ContextId, root: Option<ContextId>)
    ensures Onward(s, Forgotten(s, id, root)) && Deleted(id) in Forgotten(s, id, root).log
  {
    assert Forgotten(s, id, root).log[|s.log|] == Deleted(id);
  }

  lemma StaysInTheLog(s: State, u: State, e: Event)
    requires Onward(s, u) && e in s.log
    ensures e in u.log
  {
    var i :| 0 <= i < |s.log| && s.log[i] == e;
    assert u.log[i] == e;
  }

  lemma EndsOfDelete(s: State, failed: State, id: ContextId, root: Option<ContextId>, ended: seq<Callouts.CalloutId>)
    requires Onward(s, failed)
    ensures var (deleted, ret) := Run(failed, id, ContextDelete, 0);
      && Onward(s, deleted)
      && var u := Conclude(Forgotten(deleted, id, root), id, root, ended).0;
      Onward(s, u) && Deleted(id) in u.log
  {
    RunGoesOn(failed, id, ContextDelete, 0);
    var deleted := Run(failed, id, ContextDelete, 0).0;
    OnwardComposes(s, failed, deleted);
    var gone := Forgotten(deleted, id, root);
    ForgottenGoesOn(deleted, id, root);
    OnwardComposes(s, deleted, gone);
    ConcludeGoesOn(gone, id, root, ended);
    var u := Conclude(gone, id, root, ended).0;
    OnwardComposes(s, gone, u);
    StaysInTheLog(gone, u, Deleted(id));
  }

  lemma DeleteGoesOn(s: State, id: ContextId)
    ensures var (u, answer) := Delete(s, id);
      Onward(s, u) && (answer.EndedCallouts? ==> Deleted(id) in u.log)
  {
    hide FailOpen, Conclude, Run, GoesOn;
    OnwardStays(s);
    var root := s.contexts.Parent(id);
    FailOpenGoesOn(s, id, id);
    var (failed, first) := if root.None? then FailOpen(s, id, id) else (s, Swept([]));
    if first.Swept? {
      EndsOfDelete(s, failed, id, root, first.ended);
    }
  }

  /** What a call answers is in the history it leaves. */
  ghost predicate Recorded(op: Op, answer: Answer, log: seq<Event>) {
    && (op.DeleteContext? && answer.EndedCallouts? ==> Deleted(op.context) in log)
    && (op.StartVm? && answer == Flag(false) ==> RefusedVm in log)
    && (op.ConfigureRoot? && answer == Flag(false) ==> RefusedRoot(op.context) in log)
    && (op.Create? && answer.NewContext? ==> Created(answer.id, op.parent.GetOr(answer.id)) in log)
  }

  /** The call goes on, and a guest it found at rest is at rest after it unless
      the answer tells otherwise. */
  ghost predicate Tells(s: State, u: State, answer: Answer) {
    Onward(s, u) && TellsRest(s, u, answer)
  }

  ghost predicate TellsRest(s: State, u: State, answer: Answer) {
    s.AtRest() ==> (u.AtRest() <==> !answer.OutOfService())
  }

  lemma CreateGoesOn(s: State, parent: Option<ContextId>)
    ensures var (u, answer) := OnContextCreate(s, parent);
      Tells(s, u, answer) && Recorded(Create(parent), answer, u.log)
  {
    var live := RequireLive(s);
    var (t, made) := live.contexts.Create(parent);
    if made.Ok? {
      var e := Created(made.value, parent.GetOr(made.value));
      var created := live.(contexts := t).Note(e);
      assert created.log[|live.log|] == e;
      RunGoesOn(created, made.value, ContextCreate, 0);
      OnwardComposes(live, created, Run(created, made.value, ContextCreate, 0).0);
      StaysInTheLog(created, Run(created, made.value, ContextCreate, 0).0, e);
    }
  }

  lemma VmStartGoesOn(s: State, root: ContextId, size: nat)
    ensures var (u, answer) := OnVmStart(s, root, size);
      Tells(s, u, answer) && Recorded(StartVm(root, size), answer, u.log)
  {
    RunGoesOn(RequireLive(s), root, VmStart, 1);
    var (after, ret) := Run(RequireLive(s), root, VmStart, 1);
    NotedGoesOn(after, after.contexts.RejectVm(root), RefusedVm);
    OnwardComposes(s, after, after.(contexts := after.contexts.RejectVm(root)).Note(RefusedVm));
  }

  lemma ConfigureGoesOn(s: State, root: ContextId, size: nat)
    ensures var (u, answer) := OnConfigure(s, root, size);
      Tells(s, u, answer) && Recorded(ConfigureRoot(root, size), answer, u.log)
  {
    RunGoesOn(RequireLive(s), root, Configure, 1);
    var (after, ret) := Run(RequireLive(s), root, Configure, 1);
    NotedGoesOn(after, after.contexts.Reject(root), RefusedRoot(root));
    OnwardComposes(s, after, after.(contexts := after.contexts.Reject(root)).Note(RefusedRoot(root)));
  }

  lemma NotedGoesOn(s: State, t: Table, e: Event)
    requires Forward(s.contexts, t)
    ensures var u := s.(contexts := t).Note(e);
      Onward(s, u) && e in u.log && (u.AtRest() <==> s.AtRest())
  {
    assert s.(contexts := t).Note(e).log[|s.log|] == e;
  }

  lemma ActedGoesOn(after: State, ret: Ret, callback: Callback)
    ensures var (u, answer) := Acted(after, ret, callback);
      Onward(after, u) && (Left(after, ret) ==> (u.AtRest() <==> !answer.OutOfService()))
  {
  }

  /** The family that the checks before it allow. */
  lemma RecordedGoesOn(s: State, id: ContextId, kind: StreamKind, announced: Option<BufferType>)
    requires StreamPrologue(s, id, kind).None?
    ensures Onward(s, Scope.Recorded(s, id, kind).(announced := announced))
  {
  }

  lemma StreamActionGoesOn(s: State, id: ContextId, callback: Callback, size: nat)
    requires callback.Family().Some?
    ensures Tells(s, StreamAction(s, id, callback, size).0, StreamAction(s, id, callback, size).1)
  {
    hide Run;
    var live := RequireLive(s);
    var kind := callback.Family().value;
    if StreamPrologue(live, id, kind).None? {
      RecordedGoesOn(live, id, kind, callback.Announces());
      var recorded := Scope.Recorded(live, id, kind).(announced := callback.Announces());
      RunGoesOn(recorded, id, callback, 0);
      var (after, ret) := Run(recorded, id, callback, 0);
      ActedGoesOn(after, ret, callback);
      OnwardComposes(live, recorded, after);
      OnwardComposes(live, after, Acted(after, ret, callback).0);
    }
  }

  lemma StreamEventGoesOn(s: State, id: ContextId, callback: Callback)
    requires callback.Family() == Some(Tcp)
    ensures Tells(s, StreamEvent(s, id, callback).0, StreamEvent(s, id, callback).1)
  {
    var live := RequireLive(s);
    if StreamPrologue(live, id, Tcp).None? {
      RecordedGoesOn(live, id, Tcp, live.announced);
      var recorded := Scope.Recorded(live, id, Tcp);
      RunGoesOn(recorded, id, callback, 0);
      OnwardComposes(live, recorded, Run(recorded, id, callback, 0).0);
    }
  }

  lemma HttpGoesOn(s: State, context: ContextId, callout: Callouts.CalloutId, response: Response)
    ensures var (u, answer) := OnHttpCallResponse(s, context, callout, response); Tells(s, u, answer)
  {
    var live := RequireLive(s);
    if callout in live.callouts.open {
      DeliverGoesOn(live, live.callouts.open[callout].root, Some(callout), HttpCallResponse, true);
    }
  }

  lemma GrpcGoesOn(s: State, context: ContextId, callout: Callouts.CalloutId, callback: Callback, size: nat)
    ensures var (u, answer) := OnGrpc(s, context, callout, callback, size); Tells(s, u, answer)
  {
    var live := RequireLive(s);
    if callout in live.callouts.open {
      var entry := live.callouts.open[callout];
      DeliverGoesOn(live, entry.root, Some(callout), callback, GrpcEnds(callback, entry.kind));
    }
  }

  lemma ForeignGoesOn(s: State, id: ContextId, size: nat)
    ensures Tells(s, OnForeignFunction(s, id, size).0, OnForeignFunction(s, id, size).1)
  {
    DeliverGoesOn(RequireLive(s), id, None, ForeignFunction, false);
  }

  lemma TickGoesOn(s: State, id: ContextId)
    ensures Tells(s, OnTick(s, id).0, OnTick(s, id).1)
  {
    RunGoesOn(RequireLive(s), id, Tick, 0);
  }

  lemma QueueGoesOn(s: State, id: ContextId, queue: Grants.QueueId)
    ensures Tells(s, OnQueueReady(s, id, queue).0, OnQueueReady(s, id, queue).1)
  {
    RunGoesOn(RequireLive(s), id, QueueReady, 0);
  }

  lemma FinalizedGoesOn(s: State, id: ContextId, phase: Phase)
    requires !phase.Active?
    ensures Onward(s, Finalized(s, id, phase)) && (Finalized(s, id, phase).AtRest() <==> s.AtRest())
  {
  }

  lemma DoneGoesOn(s: State, id: ContextId)
    ensures Tells(s, OnDone(s, id).0, OnDone(s, id).1)
  {
    hide Run;
    var live := RequireLive(s);
    var served := ServedStream(live, id).0;
    RunGoesOn(served, id, ContextDone, 1);
    var after := Run(served, id, ContextDone, 1).0;
    assert Onward(live, after);
    FinalizedGoesOn(after, id, Done);
    FinalizedGoesOn(after, id, Pending);
    OnwardComposes(live, after, Finalized(after, id, Done));
    OnwardComposes(live, after, Finalized(after, id, Pending));
  }

  lemma LogGoesOn(s: State, id: ContextId)
    ensures Tells(s, OnLog(s, id).0, OnLog(s, id).1)
  {
    hide Run;
    var live := RequireLive(s);
    var served := ServedStream(live, id).0;
    RunGoesOn(served, id, ContextLog, 0);
    assert Onward(live, Run(served, id, ContextLog, 0).0);
  }

  lemma OnDeleteGoesOn(s: State, id: ContextId)
    ensures var (u, answer) := OnDelete(s, id);
      Onward(s, u) && Recorded(DeleteContext(id), answer, u.log)
  {
    var live := RequireLive(s);
    var marked := ServedStream(live, id).0.(deleting := Some(id));
    assert Onward(s, marked);
    DeleteGoesOn(marked, id);
  }

  /** A call of a scope on the guest itself. */
  predicate IsOwn(op: Op) {
    op.EnterScope? || op.FinishScope? || op.LoseScope? || op.InstallStore? || op.ReadChanges? || op.DeclareKind?
  }

  lemma OwnCallsGoOn(s: State, op: Op)
    requires op.Typed() && IsOwn(op)
    ensures var (u, answer) := Step(s, op);
      GoesOn(s, u) && Recorded(op, answer, u.log) && TellsRest(s, u, answer) && (!op.ReadChanges? ==> Onward(s, u))
  {
  }

  lemma StepGoesOn(s: State, op: Op)
    requires op.Typed()
    ensures var (u, answer) := Step(s, op);
      && GoesOn(s, u) && Recorded(op, answer, u.log)
      && (!op.ReadChanges? ==> Onward(s, u))
      && (!op.DeleteContext? ==> TellsRest(s, u, answer))
  {
    hide GoesOn, Steps;
    match op {
      case StartVm(root, size) => VmStartGoesOn(s, root, size);
      case ConfigureRoot(root, size) => ConfigureGoesOn(s, root, size);
      case Create(parent) => CreateGoesOn(s, parent);
      case CallStream(id, callback, size) => StreamActionGoesOn(s, id, callback, size);
      case TellStream(id, callback) => StreamEventGoesOn(s, id, callback);
      case AnswerHttp(id, callout, response) => HttpGoesOn(s, id, callout, response);
      case AnswerGrpc(id, callout, callback, size) => GrpcGoesOn(s, id, callout, callback, size);
      case CallForeign(id, size) => ForeignGoesOn(s, id, size);
      case TickRoot(root) => TickGoesOn(s, root);
      case QueueIsReady(root, queue) => QueueGoesOn(s, root, queue);
      case EndContext(id) => DoneGoesOn(s, id);
      case LogContext(id) => LogGoesOn(s, id);
      case DeleteContext(id) => OnDeleteGoesOn(s, id);
      case _ => OwnCallsGoOn(s, op);
    }
  }

  lemma {:induction false} StepsGoOn(s: State, ops: seq<Op>)
    requires AllTyped(ops)
    ensures GoesOn(s, Steps(s, ops))
    decreases |ops|
  {
    if ops != [] {
      assert ops[0] in ops;
      StepGoesOn(s, ops[0]);
      StepsGoOn(Step(s, ops[0]).0, ops[1..]);
      GoesOnComposes(s, Step(s, ops[0]).0, Steps(s, ops));
    }
  }

  // ---- A guest out of service ----

  /** A call takes a guest out of service exactly when it says so: its guest
      trapped, or a panic passed it. */
  lemma AnswerTellsRest(s: State, op: Op)
    requires Inv(s) && s.AtRest() && op.Typed()
    ensures var (u, answer) := Step(s, op);
      u.AtRest() <==> !answer.OutOfService()
  {
    if op.DeleteContext? {
      OnDeleteDeletes(s, op.context);
    } else {
      StepGoesOn(s, op);
    }
  }

  /** What a dead guest keeps whatever the embedder calls. */
  ghost predicate Frozen(s: State, u: State) {
    && !s.AtRest() && !u.AtRest()
    && u.contexts == s.contexts && u.callouts == s.callouts && u.log == s.log && u.future == s.future
  }

  lemma DeadStepIsFrozen(s: State, op: Op)
    requires !s.AtRest() && op.Typed()
    ensures Frozen(s, Step(s, op).0)
  {
  }

  /** Once a callback trapped or panicked, no call reaches the guest again and
      none changes a context or a callout. */
  lemma {:induction false} DeadStaysDead(s: State, ops: seq<Op>)
    requires !s.AtRest() && AllTyped(ops)
    ensures Frozen(s, Steps(s, ops))
    decreases |ops|
  {
    if ops != [] {
      assert ops[0] in ops;
      DeadStepIsFrozen(s, ops[0]);
      DeadStaysDead(Step(s, ops[0]).0, ops[1..]);
    }
  }

  /** A call whose guest trapped or panicked is the last that reaches the guest,
      whatever calls follow. */
  lemma TrapOrPanicIsTheLastCall(s: State, op: Op, ops: seq<Op>)
    requires Inv(s) && s.AtRest() && op.Typed() && AllTyped(ops)
    ensures Step(s, op).1.OutOfService() ==> Frozen(Step(s, op).0, Steps(Step(s, op).0, ops))
  {
    AnswerTellsRest(s, op);
    if Step(s, op).1.OutOfService() {
      DeadStaysDead(Step(s, op).0, ops);
    }
  }
}
