/** What untrusted guest code can change while one callback runs, whatever its
    script: a relation that holds of every step and composes. */
module Rely {
  import opened Prelude
  import opened Contexts
  import opened States
  import opened GuestCode
  import Callouts

  // ---- Contexts ----

  /** A guest ends what it left pending and sets a period, and nothing else. */
  ghost predicate EntryMoves(e: Entry, f: Entry) {
    && f == e.(phase := f.phase, tickPeriod := f.tickPeriod)
    && (f.phase == e.phase || (e.phase.Pending? && f.phase.Done?))
  }

  ghost predicate ContextsMove(t: Table, u: Table) {
    && u.entries.Keys == t.entries.Keys && u.next == t.next && u.vmRejected == t.vmRejected
    && (forall id :: id in t.entries ==> EntryMoves(t.entries[id], u.entries[id]))
    && u.effective.Some? == t.effective.Some?
    && (t.effective.Some? ==> t.RootOf(u.effective.value) == t.RootOf(t.effective.value))
  }

  lemma ContextsMoveKeeps(t: Table, u: Table)
    requires ContextsMove(t, u) && t.Forest()
    ensures u.Forest()
    ensures forall id: ContextId ::
      u.RootOf(id) == t.RootOf(id) && u.TypeOf(id) == t.TypeOf(id) && u.KindOf(id) == t.KindOf(id)
    ensures forall id: ContextId :: u.RejectionOf(id) == t.RejectionOf(id)
    ensures forall id: ContextId :: u.HasChildren(id) == t.HasChildren(id)
  {
    forall id: ContextId
      ensures u.RootOf(id) == t.RootOf(id) && u.TypeOf(id) == t.TypeOf(id) && u.KindOf(id) == t.KindOf(id)
    {
      if id in t.entries {
        assert EntryMoves(t.entries[id], u.entries[id]);
      }
    }
    forall id: ContextId
      ensures u.RejectionOf(id) == t.RejectionOf(id)
    {
      var root := t.RootOf(id);
      if root.Some? && root.value in t.entries {
        assert EntryMoves(t.entries[root.value], u.entries[root.value]);
      }
    }
    forall id | id in u.entries
      ensures u.SoundEntry(u.entries[id])
    {
      assert EntryMoves(t.entries[id], u.entries[id]) && t.SoundEntry(t.entries[id]);
      if u.entries[id].parent.Some? {
        var parent := u.entries[id].parent.value;
        assert EntryMoves(t.entries[parent], u.entries[parent]);
      }
    }
    forall id: ContextId
      ensures u.HasChildren(id) == t.HasChildren(id)
    {
      if child :| child in t.entries && t.entries[child].parent == Some(id) {
        assert EntryMoves(t.entries[child], u.entries[child]);
        assert u.entries[child].parent == Some(id);
      }
      if child :| child in u.entries && u.entries[child].parent == Some(id) {
        assert EntryMoves(t.entries[child], u.entries[child]);
        assert t.entries[child].parent == Some(id);
      }
    }
  }

  lemma ContextsMoveCompose(t: Table, u: Table, v: Table)
    requires t.Forest() && ContextsMove(t, u) && ContextsMove(u, v)
    ensures ContextsMove(t, v)
  {
    ContextsMoveKeeps(t, u);
    forall id | id in t.entries
      ensures EntryMoves(t.entries[id], v.entries[id])
    {
      assert EntryMoves(t.entries[id], u.entries[id]) && EntryMoves(u.entries[id], v.entries[id]);
    }
  }

  lemma ContextActsMove(s: State, act: Act)
    requires s.contexts.Forest()
    ensures ContextsMove(s.contexts, Do(s, act).contexts)
  {
  }

  // ---- Callouts ----

  type Open = map<Callouts.CalloutId, Callouts.Callout>

  /** The callout is open on both sides and is the same one. */
  ghost predicate Kept(before: Open, after: Open, id: Callouts.CalloutId) {
    && id in before && id in after
    && after[id] == before[id].(closedByGuest := after[id].closedByGuest)
  }

  /** A callout that a guest may open: its caller is live and is not the context
      whose deletion runs, and its root is the root of the caller. */
  ghost predicate Openable(t: Table, deleting: Option<ContextId>, callout: Callouts.Callout) {
    && callout.caller in t.entries && t.RootOf(callout.caller) == Some(callout.root)
    && deleting != Some(callout.caller)
  }

  ghost predicate CalloutsMove(s: State, u: State) {
    && (forall id :: id in u.callouts.open ==>
          Kept(s.callouts.open, u.callouts.open, id) || Openable(s.contexts, s.deleting, u.callouts.open[id]))
    && (forall id :: id in s.callouts.open ==>
          Kept(s.callouts.open, u.callouts.open, id) || Ended(id, ByGuest) in u.log)
    && s.callouts.reserved <= u.callouts.reserved
    && (u.callouts.reserved <= U32_MAX ==> forall id :: id in u.callouts.open && id <= s.callouts.reserved ==>
          Kept(s.callouts.open, u.callouts.open, id))
  }

  // ---- The whole state ----

  /** A step of guest code leaves no mark in the history but the callouts it
      opened and ended. */
  ghost predicate GuestEvent(event: Event) {
    event.Opened? || (event.Ended? && event.cause.ByGuest?)
  }

  ghost predicate LogGrows(before: seq<Event>, after: seq<Event>) {
    && before <= after
    && forall i :: |before| <= i < |after| ==> GuestEvent(after[i])
  }

  /** What guest code cannot touch. */
  ghost predicate OutOfReach(s: State, u: State) {
    && u.current == s.current && u.deleting == s.deleting && u.delivery == s.delivery
    && u.poisoned == s.poisoned && u.served == s.served && u.scope == s.scope
    && u.maximum == s.maximum && u.future == s.future && u.grants.store == s.grants.store
    && (u.announced == s.announced || u.announced.None?)
  }

  ghost predicate GuestMoves(s: State, u: State) {
    && ContextsMove(s.contexts, u.contexts)
    && CalloutsMove(s, u)
    && LogGrows(s.log, u.log)
    && OutOfReach(s, u)
  }

  lemma GuestMovesCompose(s: State, u: State, v: State)
    requires s.contexts.Forest() && GuestMoves(s, u) && GuestMoves(u, v)
    ensures GuestMoves(s, v)
  {
    ContextsMoveKeeps(s.contexts, u.contexts);
    ContextsMoveCompose(s.contexts, u.contexts, v.contexts);
    forall id | id in v.callouts.open
      ensures Kept(s.callouts.open, v.callouts.open, id) || Openable(s.contexts, s.deleting, v.callouts.open[id])
    {
      if Kept(u.callouts.open, v.callouts.open, id) {
        assert Kept(s.callouts.open, u.callouts.open, id) || Openable(s.contexts, s.deleting, u.callouts.open[id]);
      }
    }
    forall id | id in s.callouts.open
      ensures Kept(s.callouts.open, v.callouts.open, id) || Ended(id, ByGuest) in v.log
    {
      if Kept(s.callouts.open, u.callouts.open, id) {
        assert Kept(u.callouts.open, v.callouts.open, id) || Ended(id, ByGuest) in v.log;
      }
    }
  }

  /** The part of a step that concerns the callouts and the history. */
  ghost predicate TablesMove(s: State, u: State) {
    CalloutsMove(s, u) && LogGrows(s.log, u.log) && OutOfReach(s, u) && u.callouts.Counting()
  }

  lemma OpenMoves(s: State, kind: Callouts.Kind, accepted: bool)
    requires s.contexts.Forest() && s.callouts.Counting()
    ensures TablesMove(s, OpenOne(s, kind, accepted))
  {
    var u := OpenOne(s, kind, accepted);
    if u != s {
      Callouts.ReserveCounts(s.callouts);
      var (reserved, id) := s.callouts.Reserve();
      var caller := s.contexts.Caller().value;
      if accepted {
        assert u.callouts.open == s.callouts.open[id := u.callouts.open[id]];
        assert Openable(s.contexts, s.deleting, u.callouts.open[id]);
        assert forall other :: other in s.callouts.open ==> Kept(s.callouts.open, u.callouts.open, other);
      } else {
        assert u.callouts.open == s.callouts.open;
      }
    }
  }

  lemma EndMoves(s: State, id: Callouts.CalloutId)
    requires s.callouts.Counting() && id in s.callouts.open
    ensures TablesMove(s, EndByGuest(s, id))
  {
    assert Ended(id, ByGuest) in EndByGuest(s, id).log;
  }

  lemma CloseMoves(s: State, id: Callouts.CalloutId)
    requires s.callouts.Counting() && id in s.callouts.open
    ensures TablesMove(s, s.(callouts := s.callouts.CloseByGuest(id)))
  {
  }

  lemma StayMoves(s: State, u: State)
    requires s.callouts.Counting() && u.callouts == s.callouts && u.log == s.log && OutOfReach(s, u)
    ensures TablesMove(s, u)
  {
  }

  lemma ActMovesTables(s: State, act: Act)
    requires s.contexts.Forest() && s.callouts.Counting()
    ensures TablesMove(s, Do(s, act))
  {
    match act {
      case OpenCallout(kind, accepted) => OpenMoves(s, kind, accepted);
      case Cancel(id) => if id in s.callouts.open { EndMoves(s, id); } StayMoves(s, s);
      case Close(id) => if id in s.callouts.open { EndMoves(s, id); CloseMoves(s, id); } StayMoves(s, s);
      case Send(id, _, _) => if id in s.callouts.open { CloseMoves(s, id); } StayMoves(s, s);
      case SetEffective(_) => StayMoves(s, Do(s, act));
      case ProxyDone => StayMoves(s, Do(s, act));
      case SetTickPeriod(_) => StayMoves(s, Do(s, act));
      case RegisterQueue(_, _) => StayMoves(s, Do(s, act));
      case ResolveQueue(_) => StayMoves(s, Do(s, act));
      case UseQueue => StayMoves(s, Do(s, act));
      case ReadBuffer(_) => StayMoves(s, Do(s, act));
    }
  }

  lemma {:induction false} PerformMoves(s: State, acts: seq<Act>)
    requires s.contexts.Forest() && s.callouts.Counting()
    ensures GuestMoves(s, Perform(s, acts))
    ensures Perform(s, acts).callouts.Counting()
    decreases |acts|
  {
    if acts != [] {
      ContextActsMove(s, acts[0]);
      ActMovesTables(s, acts[0]);
      ContextsMoveKeeps(s.contexts, Do(s, acts[0]).contexts);
      PerformMoves(Do(s, acts[0]), acts[1..]);
      GuestMovesCompose(s, Do(s, acts[0]), Perform(s, acts));
    }
  }
}
