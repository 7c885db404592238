/** The order of a deletion, as its history tells it: the failures come one by one in
    the order of the answer, before everything that ends a root and after everything
    that ends a stream. */
module DeletionOrder {
  import opened Prelude
  import opened Contexts
  import opened States
  import opened GuestCode
  import opened Scope
  import opened Deletion
  import opened Invariants
  import Ascending
  import Calls
  import Callouts

  predicate IsDelivery(e: Event) {
    e.Ended? && e.cause.Delivered?
  }

  /** The deletion of a context itself: the guest is told, or the table forgets. */
  predicate IsEnd(e: Event) {
    e.Deleted? || (e.Entered? && e.callback.ContextDelete?)
  }

  /** The callouts that ended by a delivery, one after another. */
  function Deliveries(events: seq<Event>): Ids {
    if events == [] then []
    else
      var last := events[|events| - 1];
      Deliveries(events[..|events| - 1]) + if IsDelivery(last) then [last.callout] else []
  }

  lemma {:induction false} DeliveriesJoin(a: seq<Event>, b: seq<Event>)
    ensures Deliveries(a + b) == Deliveries(a) + Deliveries(b)
    decreases |b|
  {
    if b == [] {
      assert a + b == a;
    } else {
      DeliveriesJoin(a, b[..|b| - 1]);
      assert (a + b)[..|a + b| - 1] == a + b[..|b| - 1];
    }
  }

  /** A part of a history in which `ids` got their delivery, in that order. */
  ghost predicate Delivers(before: seq<Event>, after: seq<Event>, ids: Ids) {
    before <= after && Deliveries(after[|before|..]) == ids
  }

  /** A part of a history in which no deletion happens. */
  ghost predicate EndsNothing(before: seq<Event>, after: seq<Event>) {
    forall i :: |before| <= i < |after| ==> !IsEnd(after[i])
  }

  ghost predicate Sweeps(before: seq<Event>, after: seq<Event>, ids: Ids) {
    Delivers(before, after, ids) && EndsNothing(before, after)
  }

  lemma DeliversJoin(a: seq<Event>, b: seq<Event>, c: seq<Event>, first: Ids, second: Ids)
    requires Delivers(a, b, first) && Delivers(b, c, second)
    ensures Delivers(a, c, first + second)
    ensures EndsNothing(a, b) && EndsNothing(b, c) ==> EndsNothing(a, c)
  {
    assert c[|a|..] == b[|a|..] + c[|b|..];
    DeliveriesJoin(b[|a|..], c[|b|..]);
  }

  lemma NothingIsAdded(log: seq<Event>)
    ensures Sweeps(log, log, [])
  {
  }

  lemma OneIsAdded(log: seq<Event>, e: Event)
    ensures Delivers(log, log + [e], if IsDelivery(e) then [e.callout] else [])
    ensures !IsEnd(e) ==> EndsNothing(log, log + [e])
  {
    assert (log + [e])[|log|..] == [e] && [e][..0] == [];
  }

  // ---- Guest code tells neither ----

  lemma DoAdds(s: State, act: Act)
    ensures Do(s, act).log == s.log
      || (|Do(s, act).log| == |s.log| + 1 && Do(s, act).log[..|s.log|] == s.log
          && !IsEnd(Do(s, act).log[|s.log|]) && !IsDelivery(Do(s, act).log[|s.log|]))
  {
  }

  lemma DoSweeps(s: State, act: Act)
    ensures Sweeps(s.log, Do(s, act).log, [])
  {
    DoAdds(s, act);
    NothingIsAdded(s.log);
    if Do(s, act).log != s.log {
      var e := Do(s, act).log[|s.log|];
      OneIsAdded(s.log, e);
      assert Do(s, act).log == s.log + [e];
    }
  }

  lemma {:induction false} PerformSweeps(s: State, acts: seq<Act>)
    ensures Sweeps(s.log, Perform(s, acts).log, [])
    decreases |acts|
  {
    hide Do;
    if acts == [] {
      NothingIsAdded(s.log);
    } else {
      DoSweeps(s, acts[0]);
      PerformSweeps(Do(s, acts[0]), acts[1..]);
      DeliversJoin(s.log, Do(s, acts[0]).log, Perform(s, acts).log, [], []);
    }
  }

  lemma PlayedSweeps(s: State, context: ContextId, callback: Callback)
    requires s.future != [] && s.future[0].Play?
    ensures var played := Calls.Played(s, context, callback);
      Delivers(s.log, played.log, []) && (!callback.ContextDelete? ==> EndsNothing(s.log, played.log))
  {
    hide Perform;
    var p := Calls.Prepared(s, context, callback);
    var reached := Calls.Reached(p, context, callback);
    OneIsAdded(s.log, Snapshot(p, context, callback));
    PerformSweeps(reached, s.future[0].acts);
    DeliversJoin(s.log, reached.log, Calls.Played(s, context, callback).log, [], []);
  }

  /** A callback delivers nothing, and is no deletion unless it is that callback. */
  lemma RunSweeps(s: State, context: ContextId, callback: Callback, default: int)
    ensures var u := Run(s, context, callback, default).0;
      Delivers(s.log, u.log, []) && (!callback.ContextDelete? ==> EndsNothing(s.log, u.log))
  {
    NothingIsAdded(s.log);
    if !s.poisoned && s.future != [] && s.future[0].Play? {
      PlayedSweeps(s, context, callback);
      Calls.RunOfPlay(s, context, callback, default);
    }
  }

  lemma DeliverSweeps(s: State, context: ContextId, id: Callouts.CalloutId, callback: Callback)
    requires id in s.callouts.open && !callback.ContextDelete?
    ensures Sweeps(s.log, Deliver(s, context, Some(id), callback, true).0.log, [id])
  {
    hide Run;
    var lent := Lend(s, Some(id), true);
    OneIsAdded(s.log, Ended(id, Delivered));
    RunSweeps(lent, context, callback, 0);
    var (after, ret) := Run(lent, context, callback, 0);
    DeliversJoin(s.log, lent.log, after.log, [id], []);
    OneIsAdded(after.log, Restored(id));
    DeliversJoin(s.log, after.log, after.log + [Restored(id)], [id], []);
    assert [id] + [] == [id];
  }

  // ---- The failures ----

  /** The sweep delivers what it adds to its answer, in that order. */
  lemma {:induction false} FailEachInOrder(s: State, root: ContextId, made: seq<Callouts.Made>, ended: Ids)
    ensures var (u, sweep) := FailEach(s, root, made, ended);
      sweep.Swept? ==> ended <= sweep.ended && Sweeps(s.log, u.log, sweep.ended[|ended|..])
    decreases |made|
  {
    hide Deliver, Sweeps;
    var (u, sweep) := FailEach(s, root, made, ended);
    if made == [] {
      NothingIsAdded(s.log);
      assert ended[|ended|..] == [];
    } else if made[0].id !in s.callouts.open {
      FailEachInOrder(s, root, made[1..], ended);
    } else {
      var id, callback := made[0].id, FailureCallback(made[0].kind);
      DeliverSweeps(s, root, id, callback);
      var (after, ret) := Deliver(s, root, Some(id), callback, true);
      if ret.Returned? {
        FailEachInOrder(after, root, made[1..], ended + [id]);
        if sweep.Swept? {
          SweepsJoin(s.log, after.log, u.log, [id], sweep.ended[|ended| + 1..]);
          assert sweep.ended[|ended|..] == [id] + sweep.ended[|ended| + 1..];
        }
      }
    }
  }

  lemma SweepsJoin(a: seq<Event>, b: seq<Event>, c: seq<Event>, first: Ids, second: Ids)
    requires Sweeps(a, b, first) && Sweeps(b, c, second)
    ensures Sweeps(a, c, first + second)
  {
    DeliversJoin(a, b, c, first, second);
  }

  lemma {:induction false} DropsDeliverNothing(made: seq<Callouts.Made>)
    ensures Deliveries(Drops(made)) == []
    decreases |made|
  {
    if made != [] {
      DropsDeliverNothing(made[..|made| - 1]);
      assert Drops(made)[..|made| - 1] == Drops(made[..|made| - 1]);
    }
  }

  lemma DropSweeps(s: State, c: ContextId)
    ensures Sweeps(s.log, DropOpen(s, c).0.log, [])
  {
    var made := s.callouts.MadeBy(c);
    DropsDeliverNothing(made);
    assert (s.log + Drops(made))[|s.log|..] == Drops(made);
  }

  /** The callouts that a deletion tells the guest of: all it ends, or none under a
      refused root. */
  function Told(s: State, root: ContextId, ended: Ids): Ids {
    if s.contexts.RejectionOf(root).Some? then [] else ended
  }

  lemma FailOpenInOrder(s: State, c: ContextId, root: ContextId)
    ensures var (u, sweep) := FailOpen(s, c, root);
      sweep.Swept? ==> Sweeps(s.log, u.log, Told(s, root, sweep.ended))
  {
    hide FailEach, DropOpen, Sweeps;
    DropSweeps(s, c);
    FailEachInOrder(s, root, s.callouts.MadeBy(c), []);
    var (u, sweep) := FailOpen(s, c, root);
    if sweep.Swept? {
      assert sweep.ended[0..] == sweep.ended;
    }
  }

  // ---- The two orders ----

  /** Every failure comes before the guest is told of the deletion and before the
      context is forgotten. */
  ghost predicate FailuresFirst(before: seq<Event>, after: seq<Event>, c: ContextId, told: Ids, cut: nat) {
    && before <= after && |before| <= cut < |after|
    && Sweeps(before, after[..cut], told)
    && Delivers(after[..cut], after, []) && Deleted(c) in after[cut..]
  }

  /** Every failure comes after the guest was told of the deletion and after the
      context was forgotten. */
  ghost predicate FailuresLast(before: seq<Event>, after: seq<Event>, c: ContextId, told: Ids, cut: nat) {
    && before <= after && |before| < cut <= |after|
    && Delivers(before, after[..cut], []) && after[cut - 1] == Deleted(c)
    && Sweeps(after[..cut], after, told)
  }

  lemma RootInOrder(s: State, c: ContextId) returns (cut: nat)
    requires Deleting(s, c) && s.contexts.PhaseOf(c) == Some(Done) && !s.contexts.HasChildren(c)
    requires s.contexts.Parent(c).None?
    ensures var (u, answer) := Delete(s, c);
      answer.EndedCallouts? ==> FailuresFirst(s.log, u.log, c, Told(s, c, answer.ended), cut)
  {
    var (failed, first) := FailOpen(s, c, c);
    cut := |failed.log|;
    RootRan(s, c);
    RootAnswers(s, c);
    FailOpenInOrder(s, c, c);
    if Delete(s, c).1.EndedCallouts? {
      RootTail(s.log, failed, c, Told(s, c, first.ended));
    }
  }

  lemma RootRan(s: State, c: ContextId)
    requires s.contexts.Parent(c).None?
    ensures Delete(s, c).1.EndedCallouts? ==>
      FailOpen(s, c, c).1.Swept? && Run(FailOpen(s, c, c).0, c, ContextDelete, 0).1.Returned?
  {
    hide FailOpen, Run, Conclude;
  }

  /** After the failures of a root: the callback and the removal. */
  lemma RootTail(before: seq<Event>, failed: State, c: ContextId, told: Ids)
    requires Sweeps(before, failed.log, told)
    ensures var deleted := Run(failed, c, ContextDelete, 0).0;
      FailuresFirst(before, Forgotten(deleted, c, None).log, c, told, |failed.log|)
  {
    hide Run;
    var deleted := Run(failed, c, ContextDelete, 0).0;
    var after := deleted.log + [Deleted(c)];
    var cut := |failed.log|;
    RunSweeps(failed, c, ContextDelete, 0);
    OneIsAdded(deleted.log, Deleted(c));
    DeliversJoin(failed.log, deleted.log, after, [], []);
    assert after[..cut] == failed.log;
    assert after[cut..][|after| - 1 - cut] == Deleted(c);
  }

  /** Before the failures of a stream: the callback and the removal. */
  lemma StreamHead(s: State, c: ContextId, root: ContextId)
    ensures var deleted := Run(s, c, ContextDelete, 0).0;
      var gone := Forgotten(deleted, c, Some(root));
      && Delivers(s.log, gone.log, [])
      && |s.log| < |gone.log| && gone.log[|gone.log| - 1] == Deleted(c)
  {
    hide Run;
    var deleted := Run(s, c, ContextDelete, 0).0;
    RunSweeps(s, c, ContextDelete, 0);
    OneIsAdded(deleted.log, Deleted(c));
    DeliversJoin(s.log, deleted.log, deleted.log + [Deleted(c)], [], []);
  }

  lemma StreamTail(before: seq<Event>, gone: seq<Event>, after: seq<Event>, c: ContextId, told: Ids)
    requires Delivers(before, gone, []) && |before| < |gone| && gone[|gone| - 1] == Deleted(c)
    requires Sweeps(gone, after, told)
    ensures FailuresLast(before, after, c, told, |gone|)
  {
    assert after[..|gone|] == gone;
  }

  lemma StreamInOrder(s: State, c: ContextId) returns (cut: nat)
    requires Deleting(s, c) && s.contexts.PhaseOf(c) == Some(Done) && !s.contexts.HasChildren(c)
    requires s.contexts.Parent(c).Some? && s.served == Some(c)
    ensures var (u, answer) := Delete(s, c);
      answer.EndedCallouts? ==> FailuresLast(s.log, u.log, c, Told(s, c, answer.ended), cut)
  {
    hide FailOpen, Run, Sweeps, DropOpen, Delete, FailuresLast, Delivers;
    var root := s.contexts.Parent(c).value;
    var gone := Forgotten(Run(s, c, ContextDelete, 0).0, c, Some(root));
    cut := |gone.log|;
    if Delete(s, c).1.EndedCallouts? {
      StreamAnswers(s, c);
      StreamHead(s, c, root);
      FailOpenInOrder(gone, c, root);
      StreamTail(s.log, gone.log, Delete(s, c).0.log, c, Told(s, c, Delete(s, c).1.ended));
    }
  }

  /** A deletion that succeeds delivers exactly the callouts of its answer, in the
      ascending order of the answer, each once, and under a refused root none. For a
      root all of that comes before `proxy_on_delete` and the removal, and for a
      stream after both. */
  lemma DeletionKeepsItsOrder(s: State, c: ContextId) returns (cut: nat)
    requires Inv(s)
    ensures var (u, answer) := OnDelete(s, c);
      answer.EndedCallouts? ==>
        && Ascending.Strictly(answer.ended)
        && var told := Told(s, c, answer.ended);
        if s.contexts.Parent(c).None? then FailuresFirst(s.log, u.log, c, told, cut)
        else FailuresLast(s.log, u.log, c, told, cut)
  {
    hide Delete, FailuresFirst, FailuresLast;
    cut := 0;
    OnDeleteDeletes(s, c);
    if OnDelete(s, c).1.EndedCallouts? {
      var marked := MarkOf(s, c);
      if s.contexts.Parent(c).None? {
        cut := RootInOrder(marked, c);
      } else {
        cut := StreamInOrder(marked, c);
      }
    }
  }

  /** The state in which a deletion that passed its checks starts. */
  lemma MarkOf(s: State, c: ContextId) returns (marked: State)
    requires Inv(s) && OnDelete(s, c).1.EndedCallouts?
    ensures marked == s.(served := marked.served, deleting := Some(c)) && Deleting(marked, c)
    ensures marked.contexts.PhaseOf(c) == Some(Done) && !marked.contexts.HasChildren(c)
    ensures marked.contexts.Parent(c).Some? ==> marked.served == Some(c)
    ensures OnDelete(s, c) == (Delete(marked, c).0.(deleting := None), Delete(marked, c).1)
  {
    hide Delete;
    LiveIsAtRest(s);
    ServedKeepsSound(s, c);
    var served := ServedStream(s, c).0;
    MarkedIsDeleting(served, c);
    marked := served.(deleting := Some(c));
    assert marked.contexts.SoundEntry(marked.contexts.entries[c]);
  }
}
