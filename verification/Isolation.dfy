/** One instance can serve many roots. A callback reaches the tables of the root it
    is served under, and no script of the guest changes what another root has. */
module Isolation {
  import opened Prelude
  import opened Contexts
  import opened States
  import opened GuestCode
  import opened Scope
  import opened Invariants
  import Calls
  import Callouts
  import Grants
  import Rely

  /** The recorded root of a callout is the root of its caller, while that lives. */
  ghost predicate RootsRecorded(t: Table, open: Rely.Open) {
    forall id :: id in open && open[id].caller in t.entries ==> t.RootOf(open[id].caller) == Some(open[id].root)
  }

  /** The guest acts inside `root`. */
  ghost predicate Serves(s: State, root: ContextId) {
    && s.contexts.Forest() && RootsRecorded(s.contexts, s.callouts.open)
    && s.contexts.effective.Some? && s.contexts.RootOf(s.contexts.effective.value) == Some(root)
  }

  /** No context under another root changed. */
  ghost predicate ContextsWithin(t: Table, u: Table, root: ContextId) {
    && u.entries.Keys == t.entries.Keys && u.next == t.next && u.vmRejected == t.vmRejected
    && forall id :: id in t.entries && t.RootOf(id) != Some(root) ==> u.entries[id] == t.entries[id]
  }

  /** No callout of another root was opened, ended or changed. */
  ghost predicate CalloutsWithin(before: Rely.Open, after: Rely.Open, root: ContextId) {
    && (forall id :: id in before && before[id].root != root ==> id in after && after[id] == before[id])
    && (forall id :: id in after && after[id].root != root ==> id in before && after[id] == before[id])
  }

  /** No other root became a registrant or is reported, and no period of another root
      changed. Grants of the installed store keep the registrants and the reports of
      every other root; grants of a store that was replaced may be cleared, which
      takes them from every root. */
  ghost predicate GrantsWithin(g: Grants.Grants, h: Grants.Grants, root: ContextId) {
    && (forall queue: Grants.QueueId, other: ContextId :: other != root && other in h.Roots(queue) ==>
          other in g.Roots(queue))
    && (forall r :: r in h.changes.queues && r.root != root ==> r in g.changes.queues)
    && (g.Current() ==> h.Current() && GrantsKept(g, h, root))
    && (forall other: ContextId :: other != root ==>
          && (other in h.changes.tickPeriods <==> other in g.changes.tickPeriods)
          && (other in h.changes.tickPeriods ==> h.changes.tickPeriods[other] == g.changes.tickPeriods[other]))
  }

  ghost predicate GrantsKept(g: Grants.Grants, h: Grants.Grants, root: ContextId) {
    && (forall queue: Grants.QueueId, other: ContextId :: other != root && other in g.Roots(queue) ==>
          other in h.Roots(queue))
    && (forall r :: r in g.changes.queues && r.root != root ==> r in h.changes.queues)
  }

  ghost predicate Within(s: State, u: State, root: ContextId) {
    && ContextsWithin(s.contexts, u.contexts, root)
    && CalloutsWithin(s.callouts.open, u.callouts.open, root)
    && GrantsWithin(s.grants, u.grants, root)
  }

  lemma WithinComposes(s: State, u: State, v: State, root: ContextId)
    requires s.contexts.Forest() && u.contexts.Forest()
    requires forall id: ContextId :: u.contexts.RootOf(id) == s.contexts.RootOf(id)
    requires Within(s, u, root) && Within(u, v, root)
    ensures Within(s, v, root)
  {
  }

  lemma ContextsStayWithin(s: State, act: Act, root: ContextId)
    requires Serves(s, root)
    ensures ContextsWithin(s.contexts, Do(s, act).contexts, root)
    ensures Do(s, act).contexts.effective.Some?
    ensures Do(s, act).contexts.RootOf(Do(s, act).contexts.effective.value) == Some(root)
  {
    var e := s.contexts.effective.value;
    assert s.contexts.SoundEntry(s.contexts.entries[e]);
    assert s.contexts.entries[e].contextType.Root? ==> root == e;
    assert root in s.contexts.entries && s.contexts.SoundEntry(s.contexts.entries[root]);
  }

  lemma CalloutsStayWithin(s: State, act: Act, root: ContextId)
    requires Serves(s, root)
    ensures CalloutsWithin(s.callouts.open, Do(s, act).callouts.open, root)
  {
  }

  lemma SettleStaysWithin(g: Grants.Grants, root: ContextId)
    ensures GrantsWithin(g, g.Settle(), root)
  {
  }

  lemma RegisterStaysWithin(g: Grants.Grants, queue: Grants.QueueId, root: ContextId, name: seq<byte>)
    ensures GrantsWithin(g, g.GrantQueue(queue), root)
    ensures GrantsWithin(g, g.GrantQueue(queue).Register(queue, root, name), root)
  {
    var h := g.GrantQueue(queue).Register(queue, root, name);
    forall other: Grants.QueueId
      ensures h.Roots(other) == g.Roots(other) + if other == queue then {root} else {}
    {
    }
  }

  lemma GrantsCompose(g: Grants.Grants, h: Grants.Grants, k: Grants.Grants, root: ContextId)
    requires GrantsWithin(g, h, root) && GrantsWithin(h, k, root)
    ensures GrantsWithin(g, k, root)
  {
  }

  lemma PeriodStaysWithin(g: Grants.Grants, root: ContextId, period: Option<nat>)
    ensures GrantsWithin(g, g, root) && GrantsWithin(g, g.NoteTickPeriod(root, period), root)
  {
    var h := g.NoteTickPeriod(root, period);
    assert forall queue: Grants.QueueId :: h.Roots(queue) == g.Roots(queue);
  }

  lemma GrantsStayWithin(s: State, act: Act, root: ContextId)
    requires Serves(s, root)
    ensures GrantsWithin(s.grants, Do(s, act).grants, root)
  {
    hide GrantsWithin;
    var settled := s.grants.Settle();
    SettleStaysWithin(s.grants, root);
    PeriodStaysWithin(s.grants, root, None);
    assert s.contexts.Caller().Some? ==> s.contexts.Caller() == s.contexts.effective;
    match act {
      case RegisterQueue(Some(queue), name) =>
        RegisterStaysWithin(settled, queue, root, name);
        if s.contexts.Caller().Some? {
          GrantsCompose(s.grants, settled, Do(s, act).grants, root);
        }
      case ResolveQueue(Some(queue)) =>
        RegisterStaysWithin(settled, queue, root, []);
        if s.contexts.Caller().Some? {
          GrantsCompose(s.grants, settled, Do(s, act).grants, root);
        }
      case SetTickPeriod(period) => PeriodStaysWithin(s.grants, root, period);
      case _ =>
    }
  }

  lemma RootsStayRecorded(s: State, act: Act, root: ContextId)
    requires Serves(s, root)
    ensures RootsRecorded(Do(s, act).contexts, Do(s, act).callouts.open)
    ensures Do(s, act).contexts.Forest()
    ensures forall id: ContextId :: Do(s, act).contexts.RootOf(id) == s.contexts.RootOf(id)
  {
    Rely.ContextActsMove(s, act);
    Rely.ContextsMoveKeeps(s.contexts, Do(s, act).contexts);
    assert s.contexts.Caller().Some? ==> s.contexts.Caller() == s.contexts.effective;
  }

  lemma {:induction false} PerformStaysWithin(s: State, acts: seq<Act>, root: ContextId)
    requires Serves(s, root)
    ensures Within(s, Perform(s, acts), root) && Serves(Perform(s, acts), root)
    ensures forall id: ContextId :: Perform(s, acts).contexts.RootOf(id) == s.contexts.RootOf(id)
    decreases |acts|
  {
    if acts != [] {
      var next := Do(s, acts[0]);
      ContextsStayWithin(s, acts[0], root);
      CalloutsStayWithin(s, acts[0], root);
      GrantsStayWithin(s, acts[0], root);
      RootsStayRecorded(s, acts[0], root);
      PerformStaysWithin(next, acts[1..], root);
      WithinComposes(s, next, Perform(s, acts), root);
    }
  }

  lemma PreparedServes(s: State, context: ContextId, callback: Callback)
    requires s.contexts.Forest() && RootsRecorded(s.contexts, s.callouts.open) && context in s.contexts.entries
    ensures Serves(Calls.Prepared(s, context, callback), s.contexts.RootOf(context).value)
    ensures forall id: ContextId :: Calls.Prepared(s, context, callback).contexts.RootOf(id) == s.contexts.RootOf(id)
  {
    var p := Calls.Prepared(s, context, callback);
    forall id: ContextId
      ensures p.contexts.RootOf(id) == s.contexts.RootOf(id)
    {
    }
    forall id | id in p.contexts.entries
      ensures p.contexts.SoundEntry(p.contexts.entries[id])
    {
      assert s.contexts.SoundEntry(s.contexts.entries[id]);
    }
  }

  /** The same tables, up to the effective context. */
  lemma WithinFrom(s: State, r: State, u: State, root: ContextId)
    requires r.contexts == s.contexts.(effective := r.contexts.effective)
    requires r.callouts == s.callouts && r.grants == s.grants
    requires forall id: ContextId :: r.contexts.RootOf(id) == s.contexts.RootOf(id)
    requires Within(r, u, root)
    ensures Within(s, u, root)
  {
  }

  lemma WithinItself(s: State, root: ContextId)
    ensures Within(s, s, root)
  {
  }

  /** The forest, and the roots of the callouts. */
  ghost predicate Tracked(s: State) {
    s.contexts.Forest() && RootsRecorded(s.contexts, s.callouts.open)
  }

  ghost predicate SameRoots(t: Table, u: Table) {
    u.entries.Keys == t.entries.Keys && forall id: ContextId :: u.RootOf(id) == t.RootOf(id)
  }

  lemma PlayStaysWithin(s: State, context: ContextId, callback: Callback, root: ContextId)
    requires Tracked(s)
    requires s.contexts.RootOf(context) == Some(root) && s.future != [] && s.future[0].Play?
    ensures var played := Calls.Played(s, context, callback);
      Within(s, played, root) && Tracked(played) && SameRoots(s.contexts, played.contexts)
  {
    hide GrantsWithin, CalloutsWithin;
    PreparedServes(s, context, callback);
    var p := Calls.Prepared(s, context, callback);
    var reached := Calls.Reached(p, context, callback);
    ServesTheSame(p, reached, root);
    PerformStaysWithin(reached, s.future[0].acts, root);
    WithinFrom(s, reached, Calls.Played(s, context, callback), root);
  }

  lemma ServesTheSame(s: State, u: State, root: ContextId)
    requires Serves(s, root) && u.contexts == s.contexts && u.callouts == s.callouts
    ensures Serves(u, root)
  {
  }

  lemma SameTables(s: State, u: State, v: State, root: ContextId)
    requires Within(s, u, root) && Tracked(u) && SameRoots(s.contexts, u.contexts)
    requires v.contexts == u.contexts && v.callouts == u.callouts && v.grants == u.grants
    ensures Within(s, v, root) && Tracked(v) && SameRoots(s.contexts, v.contexts)
  {
  }

  /** Whatever the guest does in a callback on `context`, and however it ends, no
      context, callout, registration, report or period of another root changes, but
      for the grants of a replaced store, which a settle clears for every root. */
  lemma CallbackStaysWithinItsRoot(s: State, context: ContextId, callback: Callback, default: int)
    requires Tracked(s) && context in s.contexts.entries
    ensures var u := Run(s, context, callback, default).0;
      && Within(s, u, s.contexts.RootOf(context).value)
      && Tracked(u) && SameRoots(s.contexts, u.contexts)
  {
    hide Within, Tracked, SameRoots;
    var root := s.contexts.RootOf(context).value;
    var u := Run(s, context, callback, default).0;
    if !s.poisoned && s.future != [] && s.future[0].Play? {
      PlayStaysWithin(s, context, callback, root);
      Calls.RunOfPlay(s, context, callback, default);
      SameTables(s, Calls.Played(s, context, callback), u, root);
    } else {
      var p := Calls.Prepared(s, context, callback);
      AbsentStaysWithin(s, context, callback, root);
      SameTables(s, p, u, root);
    }
  }

  lemma AbsentStaysWithin(s: State, context: ContextId, callback: Callback, root: ContextId)
    requires Tracked(s) && s.contexts.RootOf(context) == Some(root)
    ensures var p := Calls.Prepared(s, context, callback);
      Within(s, p, root) && Tracked(p) && SameRoots(s.contexts, p.contexts)
  {
    hide GrantsWithin, CalloutsWithin;
    var p := Calls.Prepared(s, context, callback);
    PreparedServes(s, context, callback);
    WithinItself(p, root);
    WithinFrom(s, p, p, root);
  }

  /** A delivery on a root touches that root alone, besides the entry it ends. */
  lemma DeliveryStaysWithinItsRoot(s: State, context: ContextId, callout: Option<Callouts.CalloutId>,
                                   callback: Callback, ends: bool)
    requires Tracked(s) && context in s.contexts.entries
    requires callout.Some? && callout.value in s.callouts.open ==>
      s.contexts.RootOf(context) == Some(s.callouts.open[callout.value].root)
    ensures var u := Deliver(s, context, callout, callback, ends).0;
      && Within(s, u, s.contexts.RootOf(context).value)
      && Tracked(u) && SameRoots(s.contexts, u.contexts)
  {
    hide Run, Within, Tracked, SameRoots, Lend, GiveBack;
    var lent := Lend(s, callout, ends);
    var root := s.contexts.RootOf(context).value;
    LendStaysWithin(s, callout, ends, root);
    CallbackStaysWithinItsRoot(lent, context, callback, 0);
    var (after, ret) := Run(lent, context, callback, 0);
    LentComposes(s, lent, after, root);
    GiveBackStaysWithin(s, callout, ends, after, root);
  }

  lemma LendStaysWithin(s: State, callout: Option<Callouts.CalloutId>, ends: bool, root: ContextId)
    requires Tracked(s)
    requires callout.Some? && callout.value in s.callouts.open ==> s.callouts.open[callout.value].root == root
    ensures var lent := Lend(s, callout, ends);
      && Within(s, lent, root) && Tracked(lent)
      && lent.contexts == s.contexts && lent.grants == s.grants
  {
    WithinItself(s, root);
  }

  lemma LentComposes(s: State, lent: State, after: State, root: ContextId)
    requires Within(s, lent, root) && Within(lent, after, root)
    requires lent.contexts == s.contexts && lent.grants == s.grants
    ensures Within(s, after, root)
  {
  }

  lemma GiveBackStaysWithin(s: State, callout: Option<Callouts.CalloutId>, ends: bool, after: State, root: ContextId)
    requires Tracked(s) && Within(s, after, root) && Tracked(after) && SameRoots(s.contexts, after.contexts)
    requires callout.Some? && callout.value in s.callouts.open ==> s.callouts.open[callout.value].root == root
    ensures var u := GiveBack(s, callout, ends, after);
      Within(s, u, root) && Tracked(u) && SameRoots(s.contexts, u.contexts)
  {
  }

  /** That holds of every callback between two calls on a live guest. */
  lemma AtRestIsTracked(s: State)
    requires Inv(s) && s.AtRest()
    ensures Tracked(s)
  {
    forall id | id in s.callouts.open
      ensures s.contexts.RootOf(s.callouts.open[id].caller) == Some(s.callouts.open[id].root)
    {
      assert Rely.Openable(s.contexts, None, s.callouts.open[id]);
    }
  }
}
