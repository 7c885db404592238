/** Which callback tells the guest of each callout that a deletion ends, and that the
    deletion itself is told once: the whole of what the guest sees of a deletion. */
module Failures {
  import opened Prelude
  import opened Contexts
  import opened States
  import opened GuestCode
  import opened Rely
  import opened History
  import opened Scope
  import opened Invariants
  import opened Deletion
  import opened DeletionOrder
  import opened Runs
  import Calls
  import CallsInFull
  import Callouts

  // ---- The future of the guest ----

  /** What the guest still does after `n` callbacks. */
  function Skip(future: seq<Play>, n: nat): seq<Play> {
    if n >= |future| then [] else future[n..]
  }

  /** The guest exports its `k`-th callback from here. */
  predicate Plays(future: seq<Play>, k: nat) {
    k < |future| && future[k].Play?
  }

  lemma SkipAdds(future: seq<Play>, n: nat, m: nat)
    ensures Skip(Skip(future, n), m) == Skip(future, n + m)
    ensures Plays(Skip(future, n), m) == Plays(future, n + m)
  {
  }

  // ---- What the guest sees of a part of a deletion ----

  /** The guest was reached by the failure of a callout of that kind, on `root`: an HTTP
      call fails by its response, and a gRPC call or stream by its close. */
  predicate IsFailure(e: Event, kind: Callouts.Kind, root: ContextId) {
    && e.Entered? && e.context == root
    && (kind == Callouts.HttpCall ==> e.callback == HttpCallResponse)
    && (kind == Callouts.GrpcCall || kind == Callouts.GrpcStream ==> e.callback == GrpcClose)
  }

  /** The delivery at `i` ends a callout that was open, and the guest that exports the
      callback is reached by its failure right after. */
  ghost predicate TellsNext(log: seq<Event>, i: nat, open: Open, root: ContextId, plays: bool)
    requires i < |log| && IsDelivery(log[i])
  {
    && log[i].callout in open
    && if plays then i + 1 < |log| && IsFailure(log[i + 1], open[log[i].callout].kind, root)
       else i + 1 == |log| || !log[i + 1].Entered?
  }

  /** In this part of a history every delivery is told by the kind of its callout, the
      `k`-th one by the `k`-th play, and the guest is reached in no other way. */
  ghost predicate TellsFailures(before: seq<Event>, after: seq<Event>, open: Open, root: ContextId,
                                future: seq<Play>)
  {
    && before <= after
    && (forall i :: |before| <= i < |after| && IsDelivery(after[i]) ==>
          TellsNext(after, i, open, root, Plays(future, |Deliveries(after[|before|..i])|)))
    && (forall i :: |before| <= i < |after| && after[i].Entered? ==> |before| < i && IsDelivery(after[i - 1]))
  }

  lemma TellsJoin(a: seq<Event>, b: seq<Event>, c: seq<Event>, open: Open, root: ContextId, future: seq<Play>)
    requires TellsFailures(a, b, open, root, future) && b <= c
    requires TellsFailures(b, c, open, root, Skip(future, |Deliveries(b[|a|..])|))
    ensures TellsFailures(a, c, open, root, future)
  {
    forall i | |a| <= i < |c| && IsDelivery(c[i])
      ensures TellsNext(c, i, open, root, Plays(future, |Deliveries(c[|a|..i])|))
    {
      if i < |b| {
        assert c[|a|..i] == b[|a|..i];
        assert TellsNext(b, i, open, root, Plays(future, |Deliveries(b[|a|..i])|));
      } else {
        assert c[|a|..i] == b[|a|..] + c[|b|..i];
        DeliveriesJoin(b[|a|..], c[|b|..i]);
        SkipAdds(future, |Deliveries(b[|a|..])|, |Deliveries(c[|b|..i])|);
        assert TellsNext(c, i, open, root, Plays(Skip(future, |Deliveries(b[|a|..])|), |Deliveries(c[|b|..i])|));
      }
    }
    forall i | |a| <= i < |c| && c[i].Entered?
      ensures |a| < i && IsDelivery(c[i - 1])
    {
      assert i < |b| ==> b[i].Entered?;
    }
  }

  // ---- One callback ----

  ghost predicate GuestAlone(log: seq<Event>, from: nat) {
    forall i :: from <= i < |log| ==> GuestEvent(log[i])
  }

  /** A callback that returns reached the guest once, first of all, or not at all. */
  ghost predicate RanOnce(before: seq<Event>, after: seq<Event>, callback: Callback, context: ContextId, plays: bool) {
    && before <= after
    && if plays
       then && |before| < |after| && after[|before|].Entered? && after[|before|].callback == callback
            && after[|before|].context == context && GuestAlone(after, |before| + 1)
       else after == before
  }

  lemma RunTells(r: State, context: ContextId, callback: Callback)
    requires Sound(r) && !r.poisoned && context in r.contexts.entries
    ensures var (u, ret) := Run(r, context, callback, 0);
      ret.Returned? ==>
        u.future == Skip(r.future, 1) && RanOnce(r.log, u.log, callback, context, Plays(r.future, 0))
  {
    hide Perform, Run, Ledger, Chronicle, Snapshot, PeriodsKnown, CalloutsMove, ContextsMove;
    CallsInFull.RunInFull(r, context, callback, 0);
    CallsInFull.StartInFull(r, context, callback);
    if Plays(r.future, 0) {
      var g := CallsInFull.Start(r, context, callback);
      StartKeepsForest(r, context, callback);
      PerformMoves(g, r.future[0].acts);
    }
  }

  lemma StartKeepsForest(r: State, context: ContextId, callback: Callback)
    requires Sound(r) && !r.poisoned && context in r.contexts.entries
    ensures var g := CallsInFull.Start(r, context, callback);
      g.contexts.Forest() && g.callouts.Counting()
  {
    hide Snapshot;
    var u := CallsInFull.Start(r, context, callback).contexts;
    assert forall id :: id in u.entries ==>
      u.SoundEntry(u.entries[id]) == r.contexts.SoundEntry(r.contexts.entries[id]);
  }

  /** One failure: the end of the callout, and then its callback. */
  lemma FailureTells(log: seq<Event>, id: Callouts.CalloutId, after: seq<Event>, callback: Callback, open: Open,
                     root: ContextId, future: seq<Play>)
    requires id in open && RanOnce(log + [Ended(id, Delivered)], after, callback, root, Plays(future, 0))
    requires callback == if open[id].kind == Callouts.HttpCall then HttpCallResponse else GrpcClose
    ensures TellsFailures(log, after, open, root, future)
  {
    assert after[|log|] == Ended(id, Delivered);
    assert after[|log|..|log|] == [];
    forall i | |log| < i < |after|
      ensures !IsDelivery(after[i]) && (after[i].Entered? ==> i == |log| + 1)
    {
    }
  }

  lemma DeliverTells(s: State, c: ContextId, root: ContextId, id: Callouts.CalloutId, callback: Callback, open: Open)
    requires Deleting(s, c) && Calls.MayRun(s, root, callback) && id in s.callouts.open && id in open
    requires callback == if open[id].kind == Callouts.HttpCall then HttpCallResponse else GrpcClose
    ensures var (u, ret) := Deliver(s, root, Some(id), callback, true);
      ret.Returned? ==>
        && u.future == Skip(s.future, 1) && TellsFailures(s.log, u.log, open, root, s.future)
        && Deliveries(u.log[|s.log|..]) == [id]
  {
    hide Run, Chronicle, Ledger, CalloutsMove, ContextsMove, TellsFailures, RanOnce;
    var lent := Lend(s, Some(id), true);
    Calls.LendKeepsSound(s, Some(id), true);
    RunTells(lent, root, callback);
    Calls.DeliverKeepsSound(s, root, Some(id), callback, true);
    DeliverSweeps(s, root, id, callback);
    var (after, ret) := Run(lent, root, callback, 0);
    if ret.Returned? {
      Calls.RunKeepsSound(lent, root, callback, 0);
      FailureTells(s.log, id, after.log, callback, open, root, s.future);
    }
  }

  // ---- The sweep ----

  /** The listing says of each callout the kind that it has in `open`. */
  ghost predicate OfKinds(made: seq<Callouts.Made>, open: Open) {
    forall m :: m in made ==> m.id in open && open[m.id].kind == m.kind
  }

  lemma NothingTold(log: seq<Event>, open: Open, root: ContextId, future: seq<Play>)
    ensures TellsFailures(log, log, open, root, future)
  {
  }

  /** A sweep tells each callout that it ends by its kind, and uses up one play for each. */
  lemma {:induction false} SweepTells(s: State, c: ContextId, root: ContextId, made: seq<Callouts.Made>, ended: Ids,
                                      open: Open)
    requires Deleting(s, c) && root in s.contexts.entries && s.contexts.RejectionOf(root).None? && OfKinds(made, open)
    ensures var (u, sweep) := FailEach(s, root, made, ended);
      sweep.Swept? ==>
        && |ended| <= |sweep.ended| && u.future == Skip(s.future, |sweep.ended| - |ended|)
        && TellsFailures(s.log, u.log, open, root, s.future)
    decreases |made|
  {
    hide Deliver, Deleting, TellsFailures, Skip, Progress, Sound;
    if made == [] {
      NothingTold(s.log, open, root, s.future);
      SkipNone(s.future);
    } else if made[0].id !in s.callouts.open {
      SweepTells(s, c, root, made[1..], ended, open);
    } else {
      var id, callback := made[0].id, FailureCallback(made[0].kind);
      DeletingMayFail(s, c, root, callback);
      DeliverTells(s, c, root, id, callback, open);
      DeliverInDeletion(s, root, id, callback, c);
      var (v, ret) := Deliver(s, root, Some(id), callback, true);
      if ret.Returned? {
        RosterMovesKeeps(s.contexts, v.contexts, root);
        SweepTells(v, c, root, made[1..], ended + [id], open);
        var (u, sweep) := FailEach(s, root, made, ended);
        if sweep.Swept? {
          SkipAdds(s.future, 1, |sweep.ended| - |ended| - 1);
          TellsGrow(v.log, u.log, open, root, v.future);
          TellsJoin(s.log, v.log, u.log, open, root, s.future);
        }
      }
    }
  }

  lemma SkipNone(future: seq<Play>)
    ensures Skip(future, 0) == future
  {
  }

  lemma TellsGrow(before: seq<Event>, after: seq<Event>, open: Open, root: ContextId, future: seq<Play>)
    requires TellsFailures(before, after, open, root, future)
    ensures before <= after
  {
  }

  lemma DeletingMayFail(s: State, c: ContextId, root: ContextId, callback: Callback)
    requires Deleting(s, c) && root in s.contexts.entries && s.contexts.RejectionOf(root).None?
    requires callback == HttpCallResponse || callback == GrpcClose
    ensures Calls.MayRun(s, root, callback)
  {
    AcceptedMayRun(s, root, callback);
  }

  lemma DropsTellNothing(made: seq<Callouts.Made>)
    ensures forall i :: 0 <= i < |made| ==> !Drops(made)[i].Entered? && !IsDelivery(Drops(made)[i])
  {
  }

  lemma FailuresTell(s: State, c: ContextId, root: ContextId, open: Open)
    requires Deleting(s, c) && root in s.contexts.entries && OfKinds(s.callouts.MadeBy(c), open)
    ensures var (u, sweep) := FailOpen(s, c, root);
      sweep.Swept? ==>
        && u.future == Skip(s.future, |Told(s, root, sweep.ended)|)
        && TellsFailures(s.log, u.log, open, root, s.future)
  {
    hide FailEach, Deleting;
    if s.contexts.RejectionOf(root).Some? {
      DropsTellNothing(s.callouts.MadeBy(c));
      SkipNone(s.future);
    } else {
      SweepTells(s, c, root, s.callouts.MadeBy(c), [], open);
    }
  }

  // ---- The deletion itself ----

  /** The part of a history in which the guest is told of the deletion, when it exports
      that callback, and then the context is forgotten. */
  ghost predicate TellsDeletion(before: seq<Event>, after: seq<Event>, c: ContextId, plays: bool) {
    && before <= after && |before| < |after| && after[|after| - 1] == Deleted(c)
    && RanOnce(before, after[..|after| - 1], ContextDelete, c, plays)
  }

  lemma DeletionTold(r: State, c: ContextId, root: Option<ContextId>)
    requires Sound(r) && !r.poisoned && c in r.contexts.entries
    ensures var (u, ret) := Run(r, c, ContextDelete, 0);
      ret.Returned? ==>
        && Forgotten(u, c, root).future == Skip(r.future, 1)
        && TellsDeletion(r.log, Forgotten(u, c, root).log, c, Plays(r.future, 0))
  {
    hide Run, RanOnce;
    RunTells(r, c, ContextDelete);
    var u := Run(r, c, ContextDelete, 0).0;
    assert (u.log + [Deleted(c)])[..|u.log|] == u.log;
    RanOnceGrows(r.log, u.log, c, Plays(r.future, 0));
  }

  lemma RanOnceGrows(before: seq<Event>, after: seq<Event>, c: ContextId, plays: bool)
    ensures RanOnce(before, after, ContextDelete, c, plays) ==> before <= after
  {
  }

  /** Which callouts a deletion tells the guest of, and by which callbacks. */
  ghost predicate ToldByKind(s: State, u: State, c: ContextId, told: Ids, cut: nat)
    requires c in s.contexts.entries
  {
    && |s.log| <= cut <= |u.log|
    && match s.contexts.entries[c].parent
       case None =>
         && TellsFailures(s.log, u.log[..cut], s.callouts.open, c, s.future)
         && Deliveries(u.log[|s.log|..cut]) == told
         && TellsDeletion(u.log[..cut], u.log, c, Plays(s.future, |told|))
       case Some(root) =>
         && TellsDeletion(s.log, u.log[..cut], c, Plays(s.future, 0))
         && TellsFailures(u.log[..cut], u.log, s.callouts.open, root, Skip(s.future, 1))
         && Deliveries(u.log[cut..]) == told
  }

  lemma RootIsToldByKind(s: State, c: ContextId) returns (cut: nat)
    requires Deleting(s, c) && s.contexts.PhaseOf(c) == Some(Done) && !s.contexts.HasChildren(c)
    requires s.contexts.Parent(c).None?
    ensures var (u, answer) := Delete(s, c);
      answer.EndedCallouts? ==> ToldByKind(s, u, c, Told(s, c, answer.ended), cut)
  {
    hide FailOpen, Run, Conclude, Progress, TellsFailures, TellsDeletion, Ledger, Chronicle, Deliveries;
    var (failed, first) := FailOpen(s, c, c);
    cut := |failed.log|;
    RootRan(s, c);
    RootAnswers(s, c);
    FailOpenInOrder(s, c, c);
    if Delete(s, c).1.EndedCallouts? {
      FailOpenFails(s, c, c);
      FailuresTell(s, c, c, s.callouts.open);
      DeletionTold(failed, c, None);
      var gone := Forgotten(Run(failed, c, ContextDelete, 0).0, c, None);
      DeletionGrows(failed.log, gone.log, c, Plays(failed.future, 0));
      SkipAdds(s.future, |Told(s, c, first.ended)|, 0);
      assert gone.log[..cut] == failed.log;
    }
  }

  lemma DeletionGrows(before: seq<Event>, after: seq<Event>, c: ContextId, plays: bool)
    requires TellsDeletion(before, after, c, plays)
    ensures before < after
  {
  }

  /** The callouts that a stream still has after its callback are of the kinds that they
      had before it. */
  lemma KindsAreKept(s: State, gone: State, c: ContextId)
    requires Progress(s, gone, c, [], [])
    ensures OfKinds(gone.callouts.MadeBy(c), s.callouts.open)
  {
    MadeByLists(gone.callouts, c);
    forall m | m in gone.callouts.MadeBy(c)
      ensures m.id in s.callouts.open && s.callouts.open[m.id].kind == m.kind
    {
      assert m.id in Callouts.Ids(gone.callouts.MadeBy(c));
    }
  }

  lemma StreamIsToldByKind(s: State, c: ContextId) returns (cut: nat)
    requires Deleting(s, c) && s.contexts.PhaseOf(c) == Some(Done) && !s.contexts.HasChildren(c)
    requires s.contexts.Parent(c).Some? && s.served == Some(c)
    ensures var (u, answer) := Delete(s, c);
      answer.EndedCallouts? ==> ToldByKind(s, u, c, Told(s, c, answer.ended), cut)
  {
    hide FailOpen, Run, Progress, TellsFailures, TellsDeletion, Ledger, Chronicle, Delete, Deliveries;
    var root := s.contexts.Parent(c).value;
    var gone := Forgotten(Run(s, c, ContextDelete, 0).0, c, Some(root));
    cut := |gone.log|;
    if Delete(s, c).1.EndedCallouts? {
      StreamAnswers(s, c);
      RunsAndForgets(s, c);
      DeletionTold(s, c, Some(root));
      DeletionGrows(s.log, gone.log, c, Plays(s.future, 0));
      KindsAreKept(s, gone, c);
      RootOfTheGone(s, Run(s, c, ContextDelete, 0).0, c);
      FailuresTell(gone, c, root, s.callouts.open);
      FailOpenInOrder(gone, c, root);
      var u := FailOpen(gone, c, root).0;
      TellsGrow(gone.log, u.log, s.callouts.open, root, gone.future);
      assert u.log[..cut] == gone.log;
    }
  }

  /** What the guest sees of a deletion that succeeds. For a root: one failure for each
      callout of the answer, in its order and by the kind that the callout had at the
      start, and then the deletion. For a stream: the deletion, and then the failures
      on its root. The plays of the guest are used up one for each, and the guest is
      reached in no other way. Under a refused root the deletion alone is told. */
  lemma DeletionTellsByKind(s: State, c: ContextId) returns (cut: nat)
    requires Inv(s) && Step(s, DeleteContext(c)).1.EndedCallouts?
    ensures c in s.contexts.entries
    ensures var (u, answer) := Step(s, DeleteContext(c));
      ToldByKind(s, u, c, Told(s, c, answer.ended), cut)
  {
    hide Delete, TellsFailures, TellsDeletion, Deliveries;
    var marked := MarkOf(s, c);
    if s.contexts.Parent(c).None? {
      cut := RootIsToldByKind(marked, c);
    } else {
      cut := StreamIsToldByKind(marked, c);
    }
  }

  // ---- The mark ----

  lemma RunKeepsMark(s: State, context: ContextId, callback: Callback)
    ensures Run(s, context, callback, 0).0.deleting == s.deleting
  {
    if !s.poisoned && s.future != [] && s.future[0].Play? {
      PerformGoesOn(Calls.Reached(Calls.Prepared(s, context, callback), context, callback), s.future[0].acts);
      Calls.RunOfPlay(s, context, callback, 0);
    }
  }

  lemma {:induction false} FailEachKeepsMark(s: State, root: ContextId, made: seq<Callouts.Made>, ended: Ids)
    ensures FailEach(s, root, made, ended).0.deleting == s.deleting
    decreases |made|
  {
    hide Run;
    if made != [] {
      if made[0].id !in s.callouts.open {
        FailEachKeepsMark(s, root, made[1..], ended);
      } else {
        RunKeepsMark(Lend(s, Some(made[0].id), true), root, FailureCallback(made[0].kind));
        var after := Deliver(s, root, Some(made[0].id), FailureCallback(made[0].kind), true).0;
        FailEachKeepsMark(after, root, made[1..], ended + [made[0].id]);
      }
    }
  }

  lemma FailOpenKeepsMark(s: State, c: ContextId, root: ContextId)
    ensures FailOpen(s, c, root).0.deleting == s.deleting
  {
    hide FailEach;
    FailEachKeepsMark(s, root, s.callouts.MadeBy(c), []);
  }

  lemma ConcludeKeepsMark(gone: State, c: ContextId, root: Option<ContextId>, ended: Ids)
    ensures Conclude(gone, c, root, ended).0.deleting == gone.deleting
  {
    hide FailOpen;
    if root.Some? {
      FailOpenKeepsMark(gone, c, root.value);
    }
  }

  /** A deletion on a guest at rest marks its context while it runs. A panic alone leaves
      the mark, and any other end clears it. */
  lemma DeletionMarksItsContext(s: State, c: ContextId)
    requires Inv(s) && s.AtRest()
    ensures var (u, answer) := Step(s, DeleteContext(c));
      u.deleting == if answer.Unwound? then Some(c) else None
  {
    hide Inv, FailOpen, Run, Conclude;
    LiveIsQuiet(s);
    var marked := ServedStream(s, c).0.(deleting := Some(c));
    var root := s.contexts.Parent(c);
    FailOpenKeepsMark(marked, c, c);
    var (failed, first) := if root.None? then FailOpen(marked, c, c) else (marked, Swept([]));
    RunKeepsMark(failed, c, ContextDelete);
    var deleted := Run(failed, c, ContextDelete, 0).0;
    if first.Swept? {
      ConcludeKeepsMark(Forgotten(deleted, c, root), c, root, first.ended);
    }
  }

  lemma LiveIsQuiet(s: State)
    requires Inv(s) && s.AtRest()
    ensures s.deleting.None?
  {
  }
}
