/** What holds between any two calls of the embedder, whatever the guest did. */
module Invariants {
  import opened Prelude
  import opened Contexts
  import opened States
  import opened GuestCode
  import opened Rely
  import opened History
  import opened Calls
  import opened Scope
  import Callouts
  import Grants

  /** Every open callout belongs to a live context, and its root is the live root
      of that context. */
  ghost predicate CallersLive(t: Table, open: Open) {
    forall id :: id in open ==> Openable(t, None, open[id])
  }

  /** Nothing is lent, announced, or marked as being deleted. */
  ghost predicate Quiet(s: State) {
    s.delivery.None? && s.announced.None? && s.deleting.None?
  }

  ghost predicate Inv(s: State) {
    Sound(s) && (s.AtRest() ==> Quiet(s) && CallersLive(s.contexts, s.callouts.open))
  }

  lemma CallersStay(s: State, t: Table, u: State)
    requires CallersLive(s.contexts, s.callouts.open) && CalloutsMove(s, u)
    requires s.contexts.Forest() && t.entries == s.contexts.entries && ContextsMove(t, u.contexts) && t.Forest()
    ensures CallersLive(u.contexts, u.callouts.open)
  {
    ContextsMoveKeeps(t, u.contexts);
    forall id | id in u.callouts.open
      ensures Openable(u.contexts, None, u.callouts.open[id])
    {
      var callout := u.callouts.open[id];
      assert Openable(s.contexts, None, callout);
      assert t.RootOf(callout.caller) == s.contexts.RootOf(callout.caller);
    }
  }

  /** Rest, or the point of a callback after the guest came back, with what was
      announced still there. */
  ghost predicate Rested(s: State) {
    Sound(s) && CallersLive(s.contexts, s.callouts.open) && s.delivery.None? && s.deleting.None?
  }

  lemma RunKeepsRest(s: State, context: ContextId, callback: Callback, default: int)
    requires Rested(s) && MayRun(s, context, callback)
    ensures var (u, ret) := Run(s, context, callback, default);
      && Rested(u)
      && u.contexts.entries.Keys == s.contexts.entries.Keys
      && (u.AtRest() <==> ret.Returned?)
      && (s.announced.None? ==> u.announced.None?)
  {
    RunKeepsSound(s, context, callback, default);
    var (u, ret) := Run(s, context, callback, default);
    CallersStay(s, s.contexts.SetEffective(context), u);
  }

  lemma RestIsInv(s: State)
    requires Rested(s) && s.announced.None?
    ensures Inv(s)
  {
  }

  lemma LiveIsAtRest(s0: State)
    requires Inv(s0)
    ensures var s := RequireLive(s0);
      && Inv(s)
      && (!s.poisoned ==> s == s0 && s.AtRest())
  {
    PoisonKeepsSound(s0);
  }

  // ---- The scope and the calls on the guest itself ----

  lemma ScopeCallsKeepInv(s: State, store: Grants.StoreId)
    requires Inv(s)
    ensures Inv(Enter(s)) && Inv(Finish(s)) && Inv(DropScope(s)) && Inv(ReplaceStore(s, store))
    ensures Inv(TakeChanges(s).0)
  {
    ScopesKeepInv(s);
    GrantCallsKeepInv(s, store);
  }

  lemma ScopesKeepInv(s: State)
    requires Inv(s)
    ensures Inv(Enter(s)) && Inv(Finish(s)) && Inv(DropScope(s))
  {
    hide Ledger, PeriodsKnown;
    PoisonKeepsSound(s);
  }

  lemma GrantCallsKeepInv(s: State, store: Grants.StoreId)
    requires Inv(s)
    ensures Inv(ReplaceStore(s, store)) && Inv(TakeChanges(s).0)
  {
    hide Ledger, Chronicle;
    GrantsSeeRegistrations(s.grants, s.grants.Replace(store), s.contexts);
    Grants.TakeReportsOnce(s.grants, s.contexts);
  }

  /** Recording a family that does not contradict the record. */
  lemma KindKeepsSound(s: State, id: ContextId, kind: StreamKind)
    requires Sound(s) && s.contexts.TypeOf(id) == Some(Stream) && RequireKind(s.contexts, id, kind).None?
    ensures Sound(s.(contexts := s.contexts.SetKind(id, kind)))
    ensures SameRoster(s.contexts, s.contexts.SetKind(id, kind))
  {
    var t := s.contexts.SetKind(id, kind);
    assert forall other: ContextId :: other in t.entries ==>
      s.contexts.SoundEntry(s.contexts.entries[other]) && t.SoundEntry(t.entries[other]);
    GrantsSeeTheRoster(s.grants, s.contexts, t);
    ChronicleKept(s.log, s.log, s.contexts, t, s.scope, s.served);
  }

  lemma KindKeepsCallers(t: Table, id: ContextId, kind: StreamKind, open: Open)
    requires CallersLive(t, open)
    ensures CallersLive(t.SetKind(id, kind), open)
  {
    forall callout | callout in open
      ensures Openable(t.SetKind(id, kind), None, open[callout])
    {
      assert Openable(t, None, open[callout]);
      assert t.SetKind(id, kind).RootOf(open[callout].caller) == t.RootOf(open[callout].caller);
    }
  }

  lemma ExpectKindKeepsInv(s0: State, id: ContextId, kind: StreamKind)
    requires Inv(s0)
    ensures Inv(ExpectKind(s0, id, kind).0)
  {
    LiveIsAtRest(s0);
    var s := RequireLive(s0);
    if ExpectKind(s0, id, kind).1.Answered? {
      KindKeepsSound(s, id, kind);
      KindKeepsCallers(s.contexts, id, kind, s.callouts.open);
    }
  }

  // ---- Start ----

  /** The state with the new context in the table. */
  function WithNew(s: State, parent: Option<ContextId>): State
    requires s.contexts.Create(parent).1.Ok?
  {
    var (contexts, made) := s.contexts.Create(parent);
    s.(contexts := contexts).Note(Created(made.value, parent.GetOr(made.value)))
  }

  lemma CreatedKeepsChronicle(s: State, parent: Option<ContextId>)
    requires Sound(s) && s.contexts.Create(parent).1.Ok?
    requires match parent
      case None => s.contexts.vmRejected.None?
      case Some(root) => s.contexts.TypeOf(root) == Some(Root) && s.contexts.RejectionOf(root).None?
    ensures var u := WithNew(s, parent);
      Chronicle(u.log, u.contexts, u.scope, u.served)
  {
    var (t, made) := s.contexts.Create(parent);
    CreateKeepsForest(s.contexts, parent);
    ChronicleKept(s.log, s.log, s.contexts, t, s.scope, s.served);
    var e := Created(made.value, parent.GetOr(made.value));
    forall f | f in s.log
      ensures Order(f, e)
    {
      assert Marked(f, s.contexts);
    }
    ChronicleGrows(s.log, e, t, s.scope, s.served);
  }

  lemma CreatedIsSound(s: State, parent: Option<ContextId>)
    requires Sound(s) && s.contexts.Create(parent).1.Ok?
    requires match parent
      case None => s.contexts.vmRejected.None?
      case Some(root) => s.contexts.TypeOf(root) == Some(Root) && s.contexts.RejectionOf(root).None?
    ensures Sound(WithNew(s, parent))
  {
    var (t, made) := s.contexts.Create(parent);
    CreateKeepsForest(s.contexts, parent);
    CreatedKeepsChronicle(s, parent);
    LedgerIgnores(s.callouts, s.log, Created(made.value, parent.GetOr(made.value)), s.poisoned, s.maximum);
    Grants.NewContextKeepsSound(s.grants, s.contexts, parent);
  }

  lemma CreatedKeepsCallers(t: Table, parent: Option<ContextId>, open: Open)
    requires t.Forest() && CallersLive(t, open) && t.Create(parent).1.Ok?
    ensures CallersLive(t.Create(parent).0, open)
  {
    var u := t.Create(parent).0;
    forall id | id in open
      ensures Openable(u, None, open[id])
    {
      assert Openable(t, None, open[id]);
      assert u.RootOf(open[id].caller) == t.RootOf(open[id].caller);
    }
  }

  lemma OnContextCreateKeepsInv(s0: State, parent: Option<ContextId>)
    requires Inv(s0)
    ensures Inv(OnContextCreate(s0, parent).0)
  {
    hide Run, Ledger, Chronicle;
    LiveIsAtRest(s0);
    var s := RequireLive(s0);
    var (t, made) := s.contexts.Create(parent);
    if !s.poisoned && made.Ok? && OnContextCreate(s0, parent).0 != s {
      CreateKeepsForest(s.contexts, parent);
      CreatedIsSound(s, parent);
      CreatedKeepsCallers(s.contexts, parent, s.callouts.open);
      var created := WithNew(s, parent);
      assert t.RejectionOf(made.value).None?;
      RunKeepsRest(created, made.value, ContextCreate, 0);
      RestIsInv(Run(created, made.value, ContextCreate, 0).0);
    }
  }

  /** A change that keeps the shape of the table and takes no mark back. */
  ghost predicate Marks(t: Table, u: Table) {
    && u.Forest() && SameRoster(t, u) && SamePeriods(t, u) && Forward(t, u)
    && forall id: ContextId :: u.RootOf(id) == t.RootOf(id)
  }

  lemma RejectMarks(t: Table, id: ContextId)
    requires t.Forest()
    ensures Marks(t, t.Reject(id)) && Marks(t, t.RejectVm(id))
  {
    EntryMarks(t, t.Reject(id), id);
  }

  lemma PhaseMarks(t: Table, id: ContextId, phase: Phase)
    requires t.Forest() && !phase.Active?
    ensures Marks(t, t.SetPhase(id, phase))
  {
    EntryMarks(t, t.SetPhase(id, phase), id);
  }

  /** One entry with the same place in the forest. */
  lemma EntryMarks(t: Table, u: Table, id: ContextId)
    requires t.Forest()
    requires id !in t.entries ==> u == t
    requires id in t.entries ==>
      && id in u.entries && u == t.(entries := t.entries[id := u.entries[id]])
      && EntryForward(t.entries[id], u.entries[id])
      && u.entries[id].contextType == t.entries[id].contextType && u.entries[id].parent == t.entries[id].parent
      && u.entries[id].streamKind == t.entries[id].streamKind && u.entries[id].tickPeriod == t.entries[id].tickPeriod
    ensures Marks(t, u)
  {
    if id in t.entries {
      forall other | other in u.entries
        ensures u.SoundEntry(u.entries[other])
      {
        assert t.SoundEntry(t.entries[other]);
      }
    }
  }

  lemma MarkKeepsRest(s: State, t: Table)
    requires Rested(s)
    requires Marks(s.contexts, t)
    ensures Rested(s.(contexts := t))
  {
    hide PeriodsKnown, Ledger;
    PeriodsSeeTheTable(s.grants, s.contexts, t);
    GrantsSeeTheRoster(s.grants, s.contexts, t);
    ChronicleKept(s.log, s.log, s.contexts, t, s.scope, s.served);
    forall id | id in s.callouts.open
      ensures Openable(t, None, s.callouts.open[id])
    {
      assert Openable(s.contexts, None, s.callouts.open[id]);
    }
  }

  /** The record of a refusal, once the table has it. */
  lemma RefusalIsNoted(s: State, e: Event)
    requires Rested(s) && (e.RefusedVm? || e.RefusedRoot?) && Marked(e, s.contexts)
    ensures Rested(s.Note(e))
  {
    ChronicleGrows(s.log, e, s.contexts, s.scope, s.served);
    LedgerIgnores(s.callouts, s.log, e, s.poisoned, s.maximum);
  }

  lemma JudgeKeepsInv(after: State, ret: Ret, callback: Callback, yes: State, no: State)
    requires Inv(after) && Inv(yes) && Inv(no)
    ensures Inv(Judge(after, ret, callback, yes, no).0)
  {
  }

  lemma MarkedRefusals(s: State, root: ContextId)
    requires Rested(s) && s.announced.None? && root in s.contexts.entries
    ensures Inv(s.(contexts := s.contexts.RejectVm(root)).Note(RefusedVm))
    ensures Inv(s.(contexts := s.contexts.Reject(root)).Note(RefusedRoot(root)))
  {
    RejectMarks(s.contexts, root);
    MarkKeepsRest(s, s.contexts.RejectVm(root));
    MarkKeepsRest(s, s.contexts.Reject(root));
    RefusalIsNoted(s.(contexts := s.contexts.RejectVm(root)), RefusedVm);
    RefusalIsNoted(s.(contexts := s.contexts.Reject(root)), RefusedRoot(root));
    RestIsInv(s.(contexts := s.contexts.RejectVm(root)).Note(RefusedVm));
    RestIsInv(s.(contexts := s.contexts.Reject(root)).Note(RefusedRoot(root)));
  }

  /** A root answered one of its two start callbacks. */
  lemma RefusalKeepsInv(s: State, root: ContextId, callback: Callback)
    requires Rested(s) && s.announced.None? && MayRun(s, root, callback)
    ensures var (after, ret) := Run(s, root, callback, 1);
      && Inv(Judge(after, ret, callback, after, after.(contexts := after.contexts.RejectVm(root)).Note(RefusedVm)).0)
      && Inv(Judge(after, ret, callback, after,
                   after.(contexts := after.contexts.Reject(root)).Note(RefusedRoot(root))).0)
  {
    RunKeepsRest(s, root, callback, 1);
    var (after, ret) := Run(s, root, callback, 1);
    MarkedRefusals(after, root);
    RestIsInv(after);
    JudgeKeepsInv(after, ret, callback, after, after.(contexts := after.contexts.RejectVm(root)).Note(RefusedVm));
    JudgeKeepsInv(after, ret, callback, after,
                  after.(contexts := after.contexts.Reject(root)).Note(RefusedRoot(root)));
  }

  lemma StartCallsKeepInv(s0: State, root: ContextId, size: nat)
    requires Inv(s0)
    ensures Inv(OnVmStart(s0, root, size).0) && Inv(OnConfigure(s0, root, size).0)
  {
    hide Run, Ledger, Chronicle;
    LiveIsAtRest(s0);
    var s := RequireLive(s0);
    if !s.poisoned && RequireRoot(s.contexts, root).None? && Accepted(s.contexts, root).None? {
      RefusalKeepsInv(s, root, VmStart);
      RefusalKeepsInv(s, root, Configure);
    }
  }

  // ---- Stream callbacks ----

  lemma ServingKeepsSound(s: State, id: ContextId)
    requires Sound(s) && OtherThanServed(s, id).None?
    ensures Sound(s.(served := Some(id)))
  {
  }

  lemma RecordedMayRun(s: State, id: ContextId, kind: StreamKind, callback: Callback)
    requires Sound(s) && StreamPrologue(s, id, kind).None? && callback.Family() == Some(kind)
    ensures var r := Recorded(s, id, kind);
      && Sound(r) && MayRun(r, id, callback) && SameRoster(s.contexts, r.contexts)
  {
    KindKeepsSound(s, id, kind);
    var kinded := s.(contexts := s.contexts.SetKind(id, kind));
    ServingKeepsSound(kinded, id);
    assert Recorded(s, id, kind) == kinded.(served := Some(id));
    assert kinded.contexts.RootOf(id) == s.contexts.RootOf(id);
    assert kinded.contexts.RejectionOf(id) == s.contexts.RejectionOf(id);
  }

  lemma RecordedIsRested(s: State, id: ContextId, kind: StreamKind, callback: Callback)
    requires Inv(s) && s.AtRest() && StreamPrologue(s, id, kind).None? && callback.Family() == Some(kind)
    ensures var r := Recorded(s, id, kind);
      Rested(r) && MayRun(r, id, callback) && r.announced.None?
    ensures var r := Recorded(s, id, kind).(announced := callback.Announces());
      Rested(r) && MayRun(r, id, callback)
  {
    RecordedMayRun(s, id, kind, callback);
    KindKeepsCallers(s.contexts, id, kind, s.callouts.open);
  }

  lemma ActedKeepsInv(after: State, ret: Ret, callback: Callback)
    requires Rested(after) && (after.AtRest() <==> ret.Returned?)
    ensures Inv(Acted(after, ret, callback).0)
  {
  }

  lemma StreamActionKeepsInv(s0: State, id: ContextId, callback: Callback, size: nat)
    requires Inv(s0) && callback.Family().Some?
    ensures Inv(StreamAction(s0, id, callback, size).0)
  {
    hide Run, Sound, CallersLive, MayRun;
    LiveIsAtRest(s0);
    var s := RequireLive(s0);
    var kind := callback.Family().value;
    if StreamPrologue(s, id, kind).None? {
      RecordedIsRested(s, id, kind, callback);
      var announcing := Recorded(s, id, kind).(announced := callback.Announces());
      RunKeepsRest(announcing, id, callback, 0);
      var (after, ret) := Run(announcing, id, callback, 0);
      ActedKeepsInv(after, ret, callback);
    }
  }

  lemma StreamEventKeepsInv(s0: State, id: ContextId, callback: Callback)
    requires Inv(s0) && callback.Family() == Some(Tcp)
    ensures Inv(StreamEvent(s0, id, callback).0)
  {
    LiveIsAtRest(s0);
    var s := RequireLive(s0);
    if StreamPrologue(s, id, Tcp).None? {
      RecordedIsRested(s, id, Tcp, callback);
      RunKeepsRest(Recorded(s, id, Tcp), id, callback, 0);
      RestIsInv(Run(Recorded(s, id, Tcp), id, callback, 0).0);
    }
  }

  // ---- Deliveries ----

  lemma DeliverKeepsInv(s: State, context: ContextId, callout: Option<Callouts.CalloutId>, callback: Callback,
                        ends: bool)
    requires Inv(s) && s.AtRest() && MayRun(s, context, callback)
    ensures Inv(Deliver(s, context, callout, callback, ends).0)
  {
    hide Ledger, Chronicle;
    DeliverKeepsSound(s, context, callout, callback, ends);
    var (u, ret) := Deliver(s, context, callout, callback, ends);
    if ret.Returned? {
      var lent := Lend(s, callout, ends);
      assert CallersLive(lent.contexts, lent.callouts.open);
      CallersStay(lent, lent.contexts.SetEffective(context), u.(delivery := lent.delivery));
    }
  }

  lemma AcceptedMayRun(s: State, context: ContextId, callback: Callback)
    requires !s.poisoned && Require(s.contexts, context).None? && Accepted(s.contexts, context).None?
    requires callback.Family().None? && !callback.Ending()
    ensures MayRun(s, context, callback)
  {
  }

  lemma HttpResponseKeepsInv(s0: State, context: ContextId, callout: Callouts.CalloutId, response: Response)
    requires Inv(s0)
    ensures Inv(OnHttpCallResponse(s0, context, callout, response).0)
  {
    hide Deliver, Ledger, Chronicle;
    LiveIsAtRest(s0);
    var s := RequireLive(s0);
    if !s.poisoned && CalloutRefusal(s, context, callout, {Callouts.HttpCall}, false).None? {
      var root := s.callouts.open[callout].root;
      AcceptedMayRun(s, root, HttpCallResponse);
      DeliverKeepsInv(s, root, Some(callout), HttpCallResponse, true);
    }
  }

  lemma GrpcKeepsInv(s0: State, context: ContextId, callout: Callouts.CalloutId, callback: Callback, size: nat)
    requires Inv(s0) && callback.Family().None? && !callback.Ending()
    ensures Inv(OnGrpc(s0, context, callout, callback, size).0)
  {
    hide Deliver, Ledger, Chronicle;
    LiveIsAtRest(s0);
    var s := RequireLive(s0);
    if !s.poisoned && CalloutRefusal(s, context, callout, BOTH_GRPC, false).None? {
      var root := s.callouts.open[callout].root;
      AcceptedMayRun(s, root, callback);
      DeliverKeepsInv(s, root, Some(callout), callback, GrpcEnds(callback, s.callouts.open[callout].kind));
    }
  }

  lemma ForeignKeepsInv(s0: State, context: ContextId, size: nat)
    requires Inv(s0)
    ensures Inv(OnForeignFunction(s0, context, size).0)
  {
    LiveIsAtRest(s0);
    var s := RequireLive(s0);
    if !s.poisoned && Require(s.contexts, context).None? && Accepted(s.contexts, context).None? {
      AcceptedMayRun(s, context, ForeignFunction);
      DeliverKeepsInv(s, context, None, ForeignFunction, false);
    }
  }

  lemma RootEventsKeepInv(s0: State, root: ContextId, queue: Grants.QueueId)
    requires Inv(s0)
    ensures Inv(OnTick(s0, root).0) && Inv(OnQueueReady(s0, root, queue).0)
  {
    hide Run, Ledger, Chronicle;
    LiveIsAtRest(s0);
    var s := RequireLive(s0);
    if !s.poisoned && RequireRoot(s.contexts, root).None? && Accepted(s.contexts, root).None? {
      AcceptedMayRun(s, root, Tick);
      AcceptedMayRun(s, root, QueueReady);
      RunKeepsRest(s, root, Tick, 0);
      RunKeepsRest(s, root, QueueReady, 0);
      RestIsInv(Run(s, root, Tick, 0).0);
      RestIsInv(Run(s, root, QueueReady, 0).0);
    }
  }

  // ---- Done and log ----

  lemma ServedKeepsSound(s: State, id: ContextId)
    requires Sound(s)
    ensures var (u, other) := ServedStream(s, id);
      && Sound(u) && u == s.(served := u.served)
      && (other.None? && s.contexts.TypeOf(id) == Some(Stream) ==> u.served == Some(id))
  {
    if s.contexts.TypeOf(id) == Some(Stream) && OtherThanServed(s, id).None? {
      ServingKeepsSound(s, id);
    }
  }

  lemma DoneCallKeepsInv(s: State, id: ContextId)
    requires Rested(s) && s.announced.None? && MayRun(s, id, ContextDone)
    ensures var (after, ret) := Run(s, id, ContextDone, 1);
      Inv(Judge(after, ret, ContextDone, Finalized(after, id, Done), Finalized(after, id, Pending)).0)
  {
    RunKeepsRest(s, id, ContextDone, 1);
    var (after, ret) := Run(s, id, ContextDone, 1);
    PhaseMarks(after.contexts, id, Done);
    PhaseMarks(after.contexts, id, Pending);
    MarkKeepsRest(after, after.contexts.SetPhase(id, Done));
    MarkKeepsRest(after, after.contexts.SetPhase(id, Pending));
    RestIsInv(after);
    RestIsInv(Finalized(after, id, Done));
    RestIsInv(Finalized(after, id, Pending));
    JudgeKeepsInv(after, ret, ContextDone, Finalized(after, id, Done), Finalized(after, id, Pending));
  }

  lemma EndCallsKeepInv(s0: State, id: ContextId)
    requires Inv(s0)
    ensures Inv(OnDone(s0, id).0) && Inv(OnLog(s0, id).0)
  {
    hide Run, Ledger, Chronicle;
    LiveIsAtRest(s0);
    var live := RequireLive(s0);
    if !live.poisoned {
      ServedKeepsSound(live, id);
      var (s, other) := ServedStream(live, id);
      if other.None? && id in s.contexts.entries {
        DoneCallKeepsInv(s, id);
        if RequireDone(s.contexts, id).None? {
          RunKeepsRest(s, id, ContextLog, 0);
          RestIsInv(Run(s, id, ContextLog, 0).0);
        }
      }
    }
  }
}
