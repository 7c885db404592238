/** What a conversation promises, whatever the embedder calls and whatever the
    guest does. `Inv` holds of every state a conversation reaches. */
module Theorems {
  import opened Prelude
  import opened Contexts
  import opened States
  import opened GuestCode
  import opened Rely
  import opened History
  import opened Scope
  import opened Invariants
  import opened Deletion
  import opened Runs
  import Ascending
  import Calls
  import Callouts
  import Grants

  // ---- At rest ----

  /** Between two calls on a live guest, nothing is lent, announced or being
      deleted, every open callout belongs to a live context, and its recorded
      root is the live root of that context. */
  lemma NoCalloutOutlivesItsContext(store: Grants.StoreId, maximum: Maximum, future: seq<Play>, ops: seq<Op>)
    requires AllTyped(ops) && Conversation(store, maximum, future, ops).AtRest()
    ensures var s := Conversation(store, maximum, future, ops);
      && s.delivery.None? && s.announced.None? && s.deleting.None?
      && forall id :: id in s.callouts.open ==>
           var callout := s.callouts.open[id];
           && callout.caller in s.contexts.entries
           && s.contexts.RootOf(callout.caller) == Some(callout.root)
           && s.contexts.TypeOf(callout.root) == Some(Root)
  {
    ConversationKeepsInv(store, maximum, future, ops);
    var s := Conversation(store, maximum, future, ops);
    forall id | id in s.callouts.open
      ensures Openable(s.contexts, None, s.callouts.open[id])
      ensures s.contexts.TypeOf(s.callouts.open[id].root) == Some(Root)
    {
      assert Openable(s.contexts, None, s.callouts.open[id]);
      assert s.contexts.SoundEntry(s.contexts.entries[s.callouts.open[id].caller]);
    }
  }

  /** A stream hangs under a live root, a root under nothing, the effective
      context is live, and every identifier ever given out is below the counter. */
  lemma ContextsStayAForest(store: Grants.StoreId, maximum: Maximum, future: seq<Play>, ops: seq<Op>)
    requires AllTyped(ops)
    ensures var s := Conversation(store, maximum, future, ops);
      && s.contexts.Forest()
      && forall e :: e in s.log && e.Created? ==> e.context < s.contexts.next
  {
    ConversationKeepsInv(store, maximum, future, ops);
    var s := Conversation(store, maximum, future, ops);
    forall e | e in s.log && e.Created?
      ensures e.context < s.contexts.next
    {
      assert Marked(e, s.contexts);
    }
  }

  // ---- The callouts ----

  /** Until the counter wraps, no callout opens twice and none ends twice. What
      was opened is what is open and what ended; the two overlap in at most one,
      which a failed delivery put back, on a guest that is poisoned since. */
  lemma CalloutsBalance(store: Grants.StoreId, maximum: Maximum, future: seq<Play>, ops: seq<Op>)
    requires AllTyped(ops) && Conversation(store, maximum, future, ops).callouts.reserved <= U32_MAX
    ensures var s := Conversation(store, maximum, future, ops);
      && (forall i, j :: 0 <= i < j < |s.log| && s.log[i].Opened? && s.log[j].Opened? ==>
            s.log[i].callout != s.log[j].callout)
      && (forall i, j :: 0 <= i < j < |s.log| && s.log[i].Ended? && s.log[j].Ended? ==>
            s.log[i].callout != s.log[j].callout)
      && (forall id: Callouts.CalloutId :: Opened(id) in s.log <==> id in s.callouts.open || EndedIn(s.log, id))
      && (forall id: Callouts.CalloutId :: Restored(id) in s.log <==> id in s.callouts.open && EndedIn(s.log, id))
      && (forall a: Callouts.CalloutId, b: Callouts.CalloutId ::
            Restored(a) in s.log && Restored(b) in s.log ==> a == b)
      && (!s.poisoned ==> forall id: Callouts.CalloutId :: !(id in s.callouts.open && EndedIn(s.log, id)))
  {
    ConversationKeepsInv(store, maximum, future, ops);
    var s := Conversation(store, maximum, future, ops);
    assert NoRepeats(s.log) && Balanced(s.callouts.open.Keys, s.log) && OneBack(s.log);
  }

  /** No more callouts are open than the embedder allows, but for the one that a
      failed delivery put back, on a guest that is poisoned since. */
  lemma OpenCalloutsAreBounded(store: Grants.StoreId, maximum: Maximum, future: seq<Play>, ops: seq<Op>)
    requires AllTyped(ops)
    ensures var s := Conversation(store, maximum, future, ops);
      && |s.callouts.open.Keys| <= maximum + 1
      && (!s.poisoned ==> |s.callouts.open.Keys| <= maximum)
      && (|s.callouts.open.Keys| > maximum ==>
            exists id :: id in s.callouts.open && Restored(id) in s.log)
  {
    ConversationKeepsInv(store, maximum, future, ops);
    StepsGoOn(NewState(store, maximum, future), ops);
    var s := Conversation(store, maximum, future, ops);
    var open := s.callouts.open.Keys;
    assert Within(open, s.log, maximum);
    if |open| > maximum {
      var id: Callouts.CalloutId :| Restored(id) in s.log && id in open && |open - {id}| <= maximum;
      assert open == open - {id} + {id};
    }
  }

  /** What the guest does when it is reached next. */
  predicate NextTraps(s: State) {
    s.future != [] && s.future[0].Play? && s.future[0].outcome.Trap?
  }

  /** After a delivery that ends its callout, the callout is open exactly when the
      guest was going to trap in it. A panic passes it with the entry gone. */
  lemma OnlyATrapPutsItBack(s: State, context: ContextId, callout: Callouts.CalloutId, callback: Callback)
    requires Sound(s) && Calls.MayRun(s, context, callback) && callout in s.callouts.open
    requires Deliver(s, context, Some(callout), callback, true).0.callouts.reserved <= U32_MAX
    ensures var (u, ret) := Deliver(s, context, Some(callout), callback, true);
      && (callout in u.callouts.open <==> NextTraps(s))
      && (NextTraps(s) <==> ret.Trapped?)
  {
    hide Chronicle, PeriodsKnown, ContextsMove, Calls.CallbackLog;
    Calls.DeliverKeepsSound(s, context, Some(callout), callback, true);
    var (u, ret) := Deliver(s, context, Some(callout), callback, true);
    var lent := Lend(s, Some(callout), true);
    DeliverGoesOn(s, context, Some(callout), callback, true);
    if !ret.Trapped? {
      assert callout <= s.callouts.reserved;
      assert callout in u.callouts.open ==> Kept(lent.callouts.open, u.callouts.open, callout);
    }
  }

  /** The answer of a check, before the guest was called. */
  predicate Checked(answer: Answer) {
    && answer.Failed?
    && !answer.error.UnexpectedReturn? && !answer.error.CallFailed?
  }

  /** A delivery of a response or a message reached the guest: the callout was open,
      the given context made it, and it takes that delivery. */
  ghost predicate Answerable(s: State, context: ContextId, callout: Callouts.CalloutId, kinds: set<Callouts.Kind>) {
    && callout in s.callouts.open
    && s.callouts.open[callout].caller == context && s.callouts.open[callout].kind in kinds
    && s.contexts.RejectionOf(context).None?
  }

  lemma CallersRootIsTheirs(s: State, callout: Callouts.CalloutId)
    requires Inv(s) && s.AtRest() && callout in s.callouts.open
    ensures var entry := s.callouts.open[callout];
      && s.contexts.RejectionOf(entry.root) == s.contexts.RejectionOf(entry.caller)
      && s.contexts.TypeOf(entry.root) == Some(Root)
  {
    var entry := s.callouts.open[callout];
    assert Openable(s.contexts, None, entry);
    assert s.contexts.SoundEntry(s.contexts.entries[entry.caller]);
  }

  predicate Sendable(response: Response) {
    (response.Received? ==> response.headers != 0) && ResponseSize(response).None?
  }

  /** A response reaches the guest exactly when its callout can take it: a refused one
      changes nothing, and an answered one leaves no entry. */
  lemma ResponseEndsItsCallout(s: State, context: ContextId, callout: Callouts.CalloutId, response: Response)
    requires Inv(s) && s.AtRest()
    ensures var (u, answer) := OnHttpCallResponse(s, context, callout, response);
      && (Checked(answer) ==> u == s)
      && (!Checked(answer) <==> Answerable(s, context, callout, {Callouts.HttpCall}) && Sendable(response))
      && (answer.Answered? && u.callouts.reserved <= U32_MAX ==> callout !in u.callouts.open)
  {
    hide OnHttpCallResponse, Deliver, Inv;
    ResponsePassesItsChecks(s, context, callout, response);
    if !Checked(OnHttpCallResponse(s, context, callout, response).1) {
      var root := s.callouts.open[callout].root;
      AcceptedMayRun(s, root, HttpCallResponse);
      EndsOrStays(s, root, callout, HttpCallResponse, true);
    }
  }

  lemma ResponsePassesItsChecks(s: State, context: ContextId, callout: Callouts.CalloutId, response: Response)
    requires Inv(s) && s.AtRest()
    ensures var (u, answer) := OnHttpCallResponse(s, context, callout, response);
      && (Checked(answer) ==> u == s)
      && (!Checked(answer) <==> Answerable(s, context, callout, {Callouts.HttpCall}) && Sendable(response))
      && (!Checked(answer) ==>
            && var entry := s.callouts.open[callout];
            && Require(s.contexts, entry.root).None? && Accepted(s.contexts, entry.root).None?
            && var (after, ret) := Deliver(s, entry.root, Some(callout), HttpCallResponse, true);
            u == after && answer == Report(ret))
  {
    hide Deliver;
    if callout in s.callouts.open {
      CallersRootIsTheirs(s, callout);
      DeliverGoesOn(s, s.callouts.open[callout].root, Some(callout), HttpCallResponse, true);
    }
  }

  /** A close ends a callout and a message ends a call. Metadata, and a message on a
      stream, leave the entry in the table, and the guest alone can end it. */
  lemma GrpcDeliveryEndsWhatItShould(s: State, context: ContextId, callout: Callouts.CalloutId, callback: Callback,
                                     size: nat)
    requires Inv(s) && s.AtRest() && AnswerGrpc(context, callout, callback, size).Typed()
    ensures var (u, answer) := OnGrpc(s, context, callout, callback, size);
      && (Checked(answer) ==> u == s)
      && (!Checked(answer) <==> Answerable(s, context, callout, BOTH_GRPC) && size <= I32_MAX)
      && (answer.Answered? && u.callouts.reserved <= U32_MAX ==>
            var ends := callback.GrpcClose? || (callback.GrpcReceive? && s.callouts.open[callout].kind.GrpcCall?);
            if ends then callout !in u.callouts.open
            else callout in u.callouts.open || Ended(callout, ByGuest) in u.log)
  {
    hide OnGrpc, Deliver, Inv;
    GrpcPassesItsChecks(s, context, callout, callback, size);
    if !Checked(OnGrpc(s, context, callout, callback, size).1) {
      var entry := s.callouts.open[callout];
      AcceptedMayRun(s, entry.root, callback);
      EndsOrStays(s, entry.root, callout, callback, GrpcEnds(callback, entry.kind));
    }
  }

  lemma GrpcPassesItsChecks(s: State, context: ContextId, callout: Callouts.CalloutId, callback: Callback, size: nat)
    requires Inv(s) && s.AtRest()
    ensures var (u, answer) := OnGrpc(s, context, callout, callback, size);
      && (Checked(answer) ==> u == s)
      && (!Checked(answer) <==> Answerable(s, context, callout, BOTH_GRPC) && size <= I32_MAX)
      && (!Checked(answer) ==>
            && var entry := s.callouts.open[callout];
            && Require(s.contexts, entry.root).None? && Accepted(s.contexts, entry.root).None?
            && var (after, ret) := Deliver(s, entry.root, Some(callout), callback, GrpcEnds(callback, entry.kind));
            u == after && answer == Report(ret))
  {
    hide Deliver;
    if callout in s.callouts.open {
      var entry := s.callouts.open[callout];
      CallersRootIsTheirs(s, callout);
      DeliverGoesOn(s, entry.root, Some(callout), callback, GrpcEnds(callback, entry.kind));
    }
  }

  lemma EndsOrStays(s: State, root: ContextId, callout: Callouts.CalloutId, callback: Callback, ends: bool)
    requires Inv(s) && Calls.MayRun(s, root, callback) && callout in s.callouts.open
    ensures var (u, ret) := Deliver(s, root, Some(callout), callback, ends);
      ret.Returned? && u.callouts.reserved <= U32_MAX ==>
        if ends then callout !in u.callouts.open
        else callout in u.callouts.open || Ended(callout, ByGuest) in u.log
  {
    hide Deliver;
    var (u, ret) := Deliver(s, root, Some(callout), callback, ends);
    if ret.Returned? && u.callouts.reserved <= U32_MAX {
      if ends {
        OnlyATrapPutsItBack(s, root, callout, callback);
      } else {
        Calls.DeliverKeepsSound(s, root, Some(callout), callback, ends);
        var lent := Lend(s, Some(callout), ends);
        assert Kept(lent.callouts.open, u.callouts.open, callout) || Ended(callout, ByGuest) in u.log;
      }
    }
  }

  // ---- The deletion ----

  /** What a deletion answers: in ascending order, the callouts its context had
      open at the start without those the guest ended during the callbacks. None
      of the context is left, and the callouts of others change by the guest. */
  lemma DeletionAnswersWhatItEnded(s: State, c: ContextId)
    requires Inv(s)
    ensures var (u, answer) := OnDelete(s, c);
      answer.EndedCallouts? && u.callouts.reserved <= U32_MAX ==>
        && Ascending.Strictly(answer.ended)
        && (forall id: Callouts.CalloutId :: id in answer.ended <==>
              id in s.callouts.open && s.callouts.open[id].caller == c && Ended(id, ByGuest) !in u.log)
        && u.contexts.entries.Keys == s.contexts.entries.Keys - {c}
        && (forall id :: id in u.callouts.open ==> u.callouts.open[id].caller != c)
        && OthersMoveByTheGuest(s, u, c)
  {
    OnDeleteDeletes(s, c);
    var (u, answer) := OnDelete(s, c);
    if answer.EndedCallouts? && u.callouts.reserved <= U32_MAX {
      var refused := s.contexts.RejectionOf(c).Some?;
      var cause := if refused then Dropped else Delivered;
      assert TellsOf(s.log, u.log, cause, answer.ended);
      forall id: Callouts.CalloutId
        ensures id in answer.ended <==>
                  id in s.callouts.open && s.callouts.open[id].caller == c && Ended(id, ByGuest) !in u.log
      {
        if id in answer.ended {
          OneEndAlone(u.log, id, cause);
        }
      }
      forall id | id in s.callouts.open && s.callouts.open[id].caller != c
        ensures Kept(s.callouts.open, u.callouts.open, id) || Ended(id, ByGuest) in u.log
      {
        assert id !in answer.ended;
      }
    }
  }

  /** A callout of another context is there as it was or the guest ended it, and
      one that was given out before is the one it was. */
  ghost predicate OthersMoveByTheGuest(s: State, u: State, c: ContextId) {
    && (forall id :: id in s.callouts.open && s.callouts.open[id].caller != c ==>
          Kept(s.callouts.open, u.callouts.open, id) || Ended(id, ByGuest) in u.log)
    && (forall id :: id in u.callouts.open && id <= s.callouts.reserved ==> Kept(s.callouts.open, u.callouts.open, id))
  }

  /** A callout that ended for one cause ended for no other. */
  lemma OneEndAlone(log: seq<Event>, id: Callouts.CalloutId, cause: Cause)
    requires NoRepeats(log) && Ended(id, cause) in log && !cause.ByGuest?
    ensures Ended(id, ByGuest) !in log
  {
    var i :| 0 <= i < |log| && log[i] == Ended(id, cause);
    forall j | 0 <= j < |log|
      ensures log[j] != Ended(id, ByGuest)
    {
      assert j < i && log[j].Ended? ==> log[j].callout != log[i].callout;
      assert i < j && log[j].Ended? ==> log[i].callout != log[j].callout;
    }
  }

  /** Every event of a later run follows what is in the history. */
  lemma LaterEvents(u: State, ops: seq<Op>, f: Event)
    requires Inv(u) && AllTyped(ops) && f in u.log
    ensures var v := Steps(u, ops);
      && u.log <= v.log
      && Marked(f, v.contexts)
      && forall i :: |u.log| <= i < |v.log| ==> Order(f, v.log[i]) && Allowed(v.log[i])
  {
    StepsGoOn(u, ops);
    StepsKeepInv(u, ops);
    var v := Steps(u, ops);
    var k :| 0 <= k < |u.log| && u.log[k] == f;
    assert v.log[k] == f;
    forall i | |u.log| <= i < |v.log|
      ensures Order(f, v.log[i]) && Allowed(v.log[i])
    {
      assert Order(v.log[k], v.log[i]);
      assert v.log[i] in v.log;
    }
  }

  // ---- The refusals ----

  /** After a false from `on_configure`, the guest sees the root and its streams
      in the three ending callbacks alone, and no stream is made under it. */
  lemma RefusedRootOnlyEnds(s: State, root: ContextId, size: nat, ops: seq<Op>)
    requires Inv(s) && AllTyped(ops) && OnConfigure(s, root, size).1 == Flag(false)
    ensures var u := OnConfigure(s, root, size).0;
      var v := Steps(u, ops);
      && u.log <= v.log
      && forall i :: |u.log| <= i < |v.log| ==>
           && (v.log[i].Entered? && v.log[i].root == Some(root) ==> v.log[i].callback.Ending())
           && (v.log[i].Created? ==> v.log[i].under != root)
  {
    ConfigureGoesOn(s, root, size);
    StepKeepsInv(s, ConfigureRoot(root, size));
    LaterEvents(OnConfigure(s, root, size).0, ops, RefusedRoot(root));
  }

  /** After a false from `on_vm_start`, the guest sees the three ending callbacks
      alone, and no context is made. */
  lemma RefusedVmOnlyEnds(s: State, root: ContextId, size: nat, ops: seq<Op>)
    requires Inv(s) && AllTyped(ops) && OnVmStart(s, root, size).1 == Flag(false)
    ensures var u := OnVmStart(s, root, size).0;
      var v := Steps(u, ops);
      && u.log <= v.log
      && forall i :: |u.log| <= i < |v.log| ==>
           && !v.log[i].Created?
           && (v.log[i].Entered? ==> v.log[i].callback.Ending())
  {
    VmStartGoesOn(s, root, size);
    StepKeepsInv(s, StartVm(root, size));
    LaterEvents(OnVmStart(s, root, size).0, ops, RefusedVm);
  }

  // ---- The life of a context ----

  /** Log and delete reach the guest on a done context alone. Once a callback saw
      its context on the way to its end, no later one sees it active. */
  lemma ContextsEndInOrder(store: Grants.StoreId, maximum: Maximum, future: seq<Play>, ops: seq<Op>, i: nat, j: nat)
    requires AllTyped(ops)
    requires var log := Conversation(store, maximum, future, ops).log;
      i < j < |log| && log[i].Entered? && log[j].Entered?
    ensures var log := Conversation(store, maximum, future, ops).log;
      && log[i].entry.Some? && log[j].entry.Some?
      && (log[j].callback.ContextLog? || log[j].callback.ContextDelete? ==> log[j].entry.value.phase.Done?)
      && (log[i].context == log[j].context && !log[i].entry.value.phase.Active? ==>
            !log[j].entry.value.phase.Active?)
  {
    ConversationKeepsInv(store, maximum, future, ops);
    var log := Conversation(store, maximum, future, ops).log;
    assert log[i] in log && log[j] in log;
    assert Allowed(log[i]) && Allowed(log[j]) && Order(log[i], log[j]);
  }

  /** No call makes a context active again, changes a family, or takes a refusal
      back, and an identifier that was given out names no new context. */
  lemma ContextsOnlyGoForward(s: State, ops: seq<Op>, id: ContextId)
    requires AllTyped(ops)
    requires id < s.contexts.next && id in Steps(s, ops).contexts.entries
    ensures id in s.contexts.entries
    ensures var (e, f) := (s.contexts.entries[id], Steps(s, ops).contexts.entries[id]);
      && (!e.phase.Active? ==> !f.phase.Active?)
      && (e.streamKind.Some? ==> f.streamKind == e.streamKind)
      && (e.rejected ==> f.rejected)
  {
    StepsGoOn(s, ops);
    assert EntryForward(s.contexts.entries[id], Steps(s, ops).contexts.entries[id]);
  }

  /** The answer of `on_done` decides how far its context is, whatever the guest did
      during the callback, and another context moves by the guest alone. */
  lemma OnDoneDecides(s: State, id: ContextId)
    requires Inv(s) && s.AtRest()
    ensures var (u, answer) := OnDone(s, id);
      answer.Flag? ==>
        && u.contexts.PhaseOf(id) == Some(if answer.accepted then Done else Pending)
        && u.contexts.entries.Keys == s.contexts.entries.Keys
        && forall other :: other in s.contexts.entries && other != id ==>
             EntryMoves(s.contexts.entries[other], u.contexts.entries[other])
  {
    hide Run, Ledger, Chronicle, PeriodsKnown, CalloutsMove;
    var (u, answer) := OnDone(s, id);
    if answer.Flag? {
      ServedKeepsSound(s, id);
      var served := ServedStream(s, id).0;
      Calls.RunKeepsSound(served, id, ContextDone, 1);
    }
  }

  /** Every stream callback that reaches the guest for one context is of one
      family, and in one scope the stream callbacks and the ending callbacks of
      streams concern one context. */
  lemma StreamsStayApart(store: Grants.StoreId, maximum: Maximum, future: seq<Play>, ops: seq<Op>, i: nat, j: nat)
    requires AllTyped(ops)
    requires var log := Conversation(store, maximum, future, ops).log;
      i < j < |log| && log[i].Entered? && log[j].Entered?
    ensures var log := Conversation(store, maximum, future, ops).log;
      && (log[i].context == log[j].context && log[i].callback.Family().Some? && log[j].callback.Family().Some? ==>
            log[i].callback.Family() == log[j].callback.Family())
      && (Lent(log[i]) && Lent(log[j]) && log[i].scope == log[j].scope ==> log[i].context == log[j].context)
  {
    ConversationKeepsInv(store, maximum, future, ops);
    var log := Conversation(store, maximum, future, ops).log;
    assert log[i] in log && log[j] in log;
    assert Allowed(log[i]) && Allowed(log[j]) && Order(log[i], log[j]);
  }

  /** A stream callback that a check refused changes nothing. */
  lemma RefusedStreamCallRecordsNothing(s: State, op: Op)
    requires s.AtRest() && op.Typed() && (op.CallStream? || op.TellStream?)
    requires Checked(Step(s, op).1)
    ensures Step(s, op).0 == s
  {
    match op {
      case CallStream(id, callback, _) =>
        RunGoesOn(Scope.Recorded(s, id, callback.Family().value).(announced := callback.Announces()), id, callback, 0);
      case TellStream(id, callback) => RunGoesOn(Scope.Recorded(s, id, Tcp), id, callback, 0);
    }
  }

  /** Nothing changed but the record of the one stream, and that exactly when the
      call was the first of its scope on a stream. */
  ghost predicate OnlyServes(s: State, u: State, id: ContextId) {
    && u == s.(served := u.served)
    && (u.served != s.served <==> s.contexts.TypeOf(id) == Some(Stream) && s.served.None?)
  }

  lemma ServedStreamOnlyServes(s: State, id: ContextId)
    ensures OnlyServes(s, ServedStream(s, id).0, id)
  {
  }

  lemma RefusedDone(s: State, id: ContextId)
    requires s.AtRest() && Checked(OnDone(s, id).1)
    ensures OnlyServes(s, OnDone(s, id).0, id)
  {
    ServedStreamOnlyServes(s, id);
    RunGoesOn(ServedStream(s, id).0, id, ContextDone, 1);
  }

  lemma RefusedLog(s: State, id: ContextId)
    requires s.AtRest() && Checked(OnLog(s, id).1)
    ensures OnlyServes(s, OnLog(s, id).0, id)
  {
    ServedStreamOnlyServes(s, id);
    RunGoesOn(ServedStream(s, id).0, id, ContextLog, 0);
  }

  lemma RefusedDelete(s: State, id: ContextId)
    requires Inv(s) && s.AtRest() && Checked(OnDelete(s, id).1)
    ensures OnlyServes(s, OnDelete(s, id).0, id)
  {
    ServedStreamOnlyServes(s, id);
    ServedKeepsSound(s, id);
    var (served, other) := ServedStream(s, id);
    if other.None? && RequireDeletable(served.contexts, id).None? {
      RanDelete(served, id);
    }
  }

  /** A deletion that passed its checks is refused by none. */
  lemma RanDelete(s: State, id: ContextId)
    requires Inv(s) && s.AtRest() && RequireDeletable(s.contexts, id).None?
    requires s.contexts.TypeOf(id) == Some(Stream) ==> s.served == Some(id)
    ensures !Checked(Delete(s.(deleting := Some(id)), id).1)
  {
    MarkedIsDeleting(s, id);
    MarkedDeletes(s.(deleting := Some(id)), id);
  }

  /** The ending calls record the stream before they look at its state, so one
      that a check refused may change the record. */
  lemma RefusedEndingCallRecordsTheStream(s: State, op: Op)
    requires Inv(s) && s.AtRest() && (op.EndContext? || op.LogContext? || op.DeleteContext?)
    requires Checked(Step(s, op).1)
    ensures OnlyServes(s, Step(s, op).0, op.context)
  {
    match op {
      case EndContext(id) => RefusedDone(s, id);
      case LogContext(id) => RefusedLog(s, id);
      case DeleteContext(id) => RefusedDelete(s, id);
    }
  }

  // ---- The edges of a call ----

  /** A count or a length of the call is more than the ABI can carry. */
  predicate Oversize(op: Op) {
    match op
    case StartVm(_, size) => size > I32_MAX
    case ConfigureRoot(_, size) => size > I32_MAX
    case CallStream(_, callback, size) => !callback.NewConnection? && size > I32_MAX
    case AnswerHttp(_, _, Received(headers, body, trailers)) =>
      headers > I32_MAX || body > I32_MAX || trailers > I32_MAX
    case AnswerGrpc(_, _, _, size) => size > I32_MAX
    case CallForeign(_, size) => size > I32_MAX
    case _ => false
  }

  /** A value that the ABI cannot carry reaches no guest and ends no callout. */
  lemma OversizeChangesNothing(s: State, op: Op)
    requires s.AtRest() && op.Typed() && Oversize(op)
    ensures Step(s, op).0 == s && Checked(Step(s, op).1)
  {
  }

  /** The context on which a call reached the guest, past every check. */
  ghost predicate Reachable(s: State, op: Op) {
    match op
    case Create(parent) =>
      && s.contexts.vmRejected.None? && s.contexts.next < U32_MAX
      && (parent.Some? ==> IsAcceptedRoot(s.contexts, parent.value))
    case StartVm(root, _) => IsAcceptedRoot(s.contexts, root)
    case ConfigureRoot(root, _) => IsAcceptedRoot(s.contexts, root)
    case TickRoot(root) => IsAcceptedRoot(s.contexts, root)
    case QueueIsReady(root, queue) => IsAcceptedRoot(s.contexts, root) && root in s.grants.Registrants(queue)
    case CallForeign(id, _) => id in s.contexts.entries && s.contexts.RejectionOf(id).None?
    case AnswerHttp(context, callout, response) =>
      Answerable(s, context, callout, {Callouts.HttpCall}) && Sendable(response)
    case AnswerGrpc(context, callout, _, _) => Answerable(s, context, callout, BOTH_GRPC)
    case DeclareKind(id, kind) =>
      && s.contexts.TypeOf(id) == Some(Stream)
      && (s.contexts.KindOf(id).Some? ==> s.contexts.KindOf(id) == Some(kind))
    case CallStream(id, callback, _) => IsServedStream(s, id, callback)
    case TellStream(id, callback) => IsServedStream(s, id, callback)
    case EndContext(id) => id in s.contexts.entries && MayServe(s, id)
    case LogContext(id) => s.contexts.PhaseOf(id) == Some(Done) && MayServe(s, id)
    case DeleteContext(id) => s.contexts.PhaseOf(id) == Some(Done) && !s.contexts.HasChildren(id) && MayServe(s, id)
    case _ => true
  }

  ghost predicate IsAcceptedRoot(t: Table, root: ContextId) {
    t.TypeOf(root) == Some(Root) && t.RejectionOf(root).None?
  }

  ghost predicate MayServe(s: State, id: ContextId) {
    s.contexts.TypeOf(id) == Some(Stream) && s.served.Some? ==> s.served == Some(id)
  }

  ghost predicate IsServedStream(s: State, id: ContextId, callback: Callback) {
    && s.contexts.TypeOf(id) == Some(Stream) && s.contexts.RejectionOf(id).None? && MayServe(s, id)
    && (s.contexts.KindOf(id).Some? ==> s.contexts.KindOf(id) == callback.Family())
  }

  /** A call that passes its checks is one that its context may get, and every
      context that may get it passes them. */
  lemma ChecksAreExact(s: State, op: Op)
    requires Inv(s) && s.AtRest() && op.Typed() && !Oversize(op)
    ensures Checked(Step(s, op).1) <==> !Reachable(s, op)
  {
    hide Inv;
    match op {
      case StartVm(root, size) => StartChecksAreExact(s, root, size);
      case ConfigureRoot(root, size) => StartChecksAreExact(s, root, size);
      case Create(parent) => CreateChecksAreExact(s, parent);
      case CallStream(id, callback, size) => StreamChecksAreExact(s, id, callback, size);
      case TellStream(id, callback) => StreamEventChecksAreExact(s, id, callback);
      case AnswerHttp(context, callout, response) => ResponseEndsItsCallout(s, context, callout, response);
      case AnswerGrpc(context, callout, callback, size) =>
        GrpcDeliveryEndsWhatItShould(s, context, callout, callback, size);
      case CallForeign(id, size) => ForeignChecksAreExact(s, id, size);
      case TickRoot(root) => RootEventChecksAreExact(s, root, 0);
      case QueueIsReady(root, queue) => RootEventChecksAreExact(s, root, queue);
      case EndContext(id) => EndChecksAreExact(s, id);
      case LogContext(id) => EndChecksAreExact(s, id);
      case DeleteContext(id) => DeleteChecksAreExact(s, id);
      case _ =>
    }
  }

  lemma StartChecksAreExact(s: State, root: ContextId, size: nat)
    requires s.AtRest() && size <= I32_MAX
    ensures Checked(OnVmStart(s, root, size).1) <==> !IsAcceptedRoot(s.contexts, root)
    ensures Checked(OnConfigure(s, root, size).1) <==> !IsAcceptedRoot(s.contexts, root)
  {
    hide Run;
    RunGoesOn(s, root, VmStart, 1);
    RunGoesOn(s, root, Configure, 1);
  }

  lemma StreamEventChecksAreExact(s: State, id: ContextId, callback: Callback)
    requires s.AtRest() && callback.Family() == Some(Tcp)
    ensures Checked(StreamEvent(s, id, callback).1) <==> !IsServedStream(s, id, callback)
  {
    hide Run;
    RunGoesOn(Scope.Recorded(s, id, Tcp), id, callback, 0);
  }

  lemma ForeignChecksAreExact(s: State, id: ContextId, size: nat)
    requires s.AtRest() && size <= I32_MAX
    ensures Checked(OnForeignFunction(s, id, size).1) <==>
      id !in s.contexts.entries || s.contexts.RejectionOf(id).Some?
  {
    hide Deliver;
    DeliverGoesOn(s, id, None, ForeignFunction, false);
  }

  lemma RootEventChecksAreExact(s: State, root: ContextId, queue: Grants.QueueId)
    requires s.AtRest()
    ensures Checked(OnTick(s, root).1) <==> !IsAcceptedRoot(s.contexts, root)
    ensures Checked(OnQueueReady(s, root, queue).1) <==>
      !(IsAcceptedRoot(s.contexts, root) && root in s.grants.Registrants(queue))
  {
    hide Run;
    RunGoesOn(s, root, Tick, 0);
    RunGoesOn(s, root, QueueReady, 0);
  }

  lemma EndChecksAreExact(s: State, id: ContextId)
    requires s.AtRest()
    ensures Checked(OnDone(s, id).1) <==> !(id in s.contexts.entries && MayServe(s, id))
    ensures Checked(OnLog(s, id).1) <==> !(s.contexts.PhaseOf(id) == Some(Done) && MayServe(s, id))
  {
    hide Run;
    RunGoesOn(ServedStream(s, id).0, id, ContextDone, 1);
    RunGoesOn(ServedStream(s, id).0, id, ContextLog, 0);
  }

  lemma CreateChecksAreExact(s: State, parent: Option<ContextId>)
    requires Inv(s) && s.AtRest()
    ensures Checked(OnContextCreate(s, parent).1) <==> !Reachable(s, Create(parent))
  {
    hide Run;
    var (t, made) := s.contexts.Create(parent);
    if made.Ok? {
      RunGoesOn(s.(contexts := t).Note(Created(made.value, parent.GetOr(made.value))), made.value, ContextCreate, 0);
    }
  }

  lemma StreamChecksAreExact(s: State, id: ContextId, callback: Callback, size: nat)
    requires Inv(s) && s.AtRest() && callback.Family().Some?
    requires callback.NewConnection? || size <= I32_MAX
    ensures Checked(StreamAction(s, id, callback, size).1) <==> !IsServedStream(s, id, callback)
  {
    hide Run, Inv;
    var recorded := Scope.Recorded(s, id, callback.Family().value).(announced := callback.Announces());
    RunGoesOn(recorded, id, callback, 0);
  }

  lemma DeleteChecksAreExact(s: State, id: ContextId)
    requires Inv(s) && s.AtRest()
    ensures Checked(OnDelete(s, id).1) <==> !Reachable(s, DeleteContext(id))
  {
    hide Delete;
    ServedKeepsSound(s, id);
    var (served, other) := ServedStream(s, id);
    if other.None? && RequireDeletable(served.contexts, id).None? {
      RanDelete(served, id);
    }
  }

  /** A guest that does not export a callback is taken to accept and to be done. */
  lemma AbsentCallbackTakesTheDefault(s: State, id: ContextId, callback: Callback, size: nat)
    requires s.AtRest() && (s.future == [] || s.future[0].Absent?)
    ensures OnVmStart(s, id, size).1 == Flag(true) || Checked(OnVmStart(s, id, size).1)
    ensures OnConfigure(s, id, size).1 == Flag(true) || Checked(OnConfigure(s, id, size).1)
    ensures OnDone(s, id).1 == Flag(true) || Checked(OnDone(s, id).1)
    ensures callback.Family().Some? ==>
      var answer := StreamAction(s, id, callback, size).1; answer == Action(0) || Checked(answer)
  {
    hide OnVmStart, OnConfigure, OnDone, StreamAction;
    AbsentStartAccepts(s, id, size);
    AbsentDoneIsDone(s, id);
    if callback.Family().Some? {
      AbsentActionContinues(s, id, callback, size);
    }
  }

  lemma AbsentStartAccepts(s: State, id: ContextId, size: nat)
    requires s.AtRest() && (s.future == [] || s.future[0].Absent?)
    ensures OnVmStart(s, id, size).1 == Flag(true) || Checked(OnVmStart(s, id, size).1)
    ensures OnConfigure(s, id, size).1 == Flag(true) || Checked(OnConfigure(s, id, size).1)
  {
    hide Run;
    AbsentReturns(s, id, VmStart, 1);
    AbsentReturns(s, id, Configure, 1);
  }

  lemma AbsentDoneIsDone(s: State, id: ContextId)
    requires s.AtRest() && (s.future == [] || s.future[0].Absent?)
    ensures OnDone(s, id).1 == Flag(true) || Checked(OnDone(s, id).1)
  {
    hide Run;
    AbsentReturns(ServedStream(s, id).0, id, ContextDone, 1);
  }

  lemma AbsentActionContinues(s: State, id: ContextId, callback: Callback, size: nat)
    requires s.AtRest() && (s.future == [] || s.future[0].Absent?) && callback.Family().Some?
    ensures var answer := StreamAction(s, id, callback, size).1; answer == Action(0) || Checked(answer)
  {
    hide Run;
    var recorded := Scope.Recorded(s, id, callback.Family().value).(announced := callback.Announces());
    AbsentReturns(recorded, id, callback, 0);
  }

  lemma AbsentReturns(s: State, context: ContextId, callback: Callback, default: int)
    requires s.future == [] || s.future[0].Absent?
    ensures Run(s, context, callback, default).1 == Returned(default)
  {
  }

  // ---- The shared services ----

  /** The embedder sees a live root that registered the queue with the store that
      is installed, and nothing else. */
  lemma RegistrantsAreLive(store: Grants.StoreId, maximum: Maximum, future: seq<Play>, ops: seq<Op>,
                           queue: Grants.QueueId, root: ContextId)
    requires AllTyped(ops)
    requires root in Conversation(store, maximum, future, ops).grants.Registrants(queue)
    ensures var s := Conversation(store, maximum, future, ops);
      && s.contexts.TypeOf(root) == Some(Root)
      && (queue, root, s.grants.store) in s.grants.everMade
  {
    ConversationKeepsInv(store, maximum, future, ops);
    var s := Conversation(store, maximum, future, ops);
    Grants.RegistrantsAreCurrent(s.grants, s.contexts, queue, root);
  }

  /** Two readings of the changes with no clear of the grants between them report no
      registration twice, whatever stores were installed meanwhile. */
  lemma ChangesAreReadOnce(s: State, ops: seq<Op>, r: Grants.Registration, again: Grants.Registration)
    requires Inv(s) && AllTyped(ops)
    requires var read := TakeChanges(s);
      var later := Steps(read.0, ops);
      && later.grants.clears == s.grants.clears
      && r in read.1.changes.queues && again in TakeChanges(later).1.changes.queues
    ensures r.queue != again.queue || r.root != again.root
  {
    var (u, first) := TakeChanges(s);
    var v := Steps(u, ops);
    Grants.TakeReportsOnce(s.grants, s.contexts);
    StepKeepsInv(s, ReadChanges);
    StepsKeepInv(u, ops);
    StepsGoOn(u, ops);
    Grants.TakeReportsOnce(v.grants, v.contexts);
    assert (r.queue, r.root) in v.grants.reported;
  }
}
