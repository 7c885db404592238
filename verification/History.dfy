/** What every history says of the callouts and of the callbacks, and that guest
    code keeps it. */
module History {
  import opened Prelude
  import opened Contexts
  import opened States
  import opened GuestCode
  import opened Rely
  import Callouts
  import Grants

  // ---- The ledger of the callouts ----

  ghost predicate EndedIn(log: seq<Event>, id: Callouts.CalloutId) {
    Ended(id, Delivered) in log || Ended(id, ByGuest) in log || Ended(id, Dropped) in log
  }

  /** No callout opens twice and none leaves the table twice. */
  ghost predicate NoRepeats(log: seq<Event>) {
    forall i, j :: 0 <= i < j < |log| ==>
      && (log[i].Opened? && log[j].Opened? ==> log[i].callout != log[j].callout)
      && (log[i].Ended? && log[j].Ended? ==> log[i].callout != log[j].callout)
  }

  /** Each callout that was opened is open or ended and not both, except for one
      that a failed delivery put back. */
  ghost predicate Balanced(open: set<Callouts.CalloutId>, log: seq<Event>) {
    && (forall id: Callouts.CalloutId :: id in open || EndedIn(log, id) <==> Opened(id) in log)
    && (forall id: Callouts.CalloutId :: id in open && EndedIn(log, id) <==> Restored(id) in log)
  }

  ghost predicate NotAbove(log: seq<Event>, reserved: nat) {
    forall id: Callouts.CalloutId :: Opened(id) in log ==> id <= reserved
  }

  /** The balance holds until every identifier was given out once. A callout is
      put back on a poisoned guest alone, and then one above the maximum may be open. */
  ghost predicate Ledger(callouts: Callouts.Table, log: seq<Event>, poisoned: bool, maximum: nat) {
    && callouts.Counting()
    && (callouts.reserved <= U32_MAX ==>
          NoRepeats(log) && Balanced(callouts.open.Keys, log) && NotAbove(log, callouts.reserved))
    && (forall id: Callouts.CalloutId :: Restored(id) in log ==> poisoned)
    && OneBack(log)
    && Within(callouts.open.Keys, log, maximum)
  }

  /** No more callouts are open than the embedder allows, besides the one that was
      put back. */
  ghost predicate Within(open: set<Callouts.CalloutId>, log: seq<Event>, maximum: nat) {
    |open| <= maximum
    || exists id: Callouts.CalloutId :: Restored(id) in log && id in open && |open - {id}| <= maximum
  }

  /** At most one callout was ever put back. */
  ghost predicate OneBack(log: seq<Event>) {
    forall a: Callouts.CalloutId, b: Callouts.CalloutId :: Restored(a) in log && Restored(b) in log ==> a == b
  }

  /** Appending one event adds that event and no other. */
  lemma Appended(log: seq<Event>, e: Event)
    ensures forall f: Event :: f in log + [e] <==> f in log || f == e
    ensures forall id: Callouts.CalloutId :: EndedIn(log + [e], id) <==>
              EndedIn(log, id) || (e.Ended? && e.callout == id)
  {
    forall id: Callouts.CalloutId
      ensures EndedIn(log + [e], id) <==> EndedIn(log, id) || (e.Ended? && e.callout == id)
    {
      if e.Ended? && e.callout == id {
        match e.cause {
          case Delivered => assert e == Ended(id, Delivered);
          case ByGuest => assert e == Ended(id, ByGuest);
          case Dropped => assert e == Ended(id, Dropped);
        }
      }
    }
  }

  lemma NoRepeatsOpens(log: seq<Event>, id: Callouts.CalloutId)
    requires NoRepeats(log) && Opened(id) !in log
    ensures NoRepeats(log + [Opened(id)])
  {
    assert forall i :: 0 <= i < |log| && log[i].Opened? ==> log[i] == Opened(log[i].callout) && log[i] in log;
  }

  lemma NoRepeatsEnds(log: seq<Event>, id: Callouts.CalloutId, cause: Cause)
    requires NoRepeats(log) && !EndedIn(log, id)
    ensures NoRepeats(log + [Ended(id, cause)])
  {
    forall i | 0 <= i < |log| && log[i].Ended?
      ensures log[i].callout != id
    {
      var e := log[i];
      assert e in log && e == Ended(e.callout, e.cause);
      assert e.cause == Delivered || e.cause == ByGuest || e.cause == Dropped;
    }
  }

  lemma BalancedOpens(open: set<Callouts.CalloutId>, log: seq<Event>, id: Callouts.CalloutId)
    requires Balanced(open, log) && Opened(id) !in log
    ensures Balanced(open + {id}, log + [Opened(id)])
  {
    Appended(log, Opened(id));
    assert id !in open && !EndedIn(log, id);
  }

  lemma BalancedEnds(open: set<Callouts.CalloutId>, log: seq<Event>, id: Callouts.CalloutId, cause: Cause)
    requires Balanced(open, log) && id in open && Restored(id) !in log
    ensures Balanced(open - {id}, log + [Ended(id, cause)])
  {
    Appended(log, Ended(id, cause));
    assert !EndedIn(log, id);
  }

  lemma BalancedRestores(open: set<Callouts.CalloutId>, log: seq<Event>, id: Callouts.CalloutId)
    requires Balanced(open, log) && id !in open && Ended(id, Delivered) in log
    ensures Balanced(open + {id}, log + [Restored(id)])
  {
    Appended(log, Restored(id));
  }

  /** An event that opens nothing and puts nothing back. */
  lemma NotAboveGrows(log: seq<Event>, e: Event, reserved: nat)
    requires NotAbove(log, reserved) && !e.Opened?
    ensures NotAbove(log + [e], reserved)
  {
    Appended(log, e);
  }

  lemma NotAboveOpens(log: seq<Event>, id: Callouts.CalloutId, reserved: nat)
    requires NotAbove(log, reserved) && id <= reserved
    ensures NotAbove(log + [Opened(id)], reserved)
  {
    Appended(log, Opened(id));
  }

  lemma RestoredGrows(log: seq<Event>, e: Event, id: Callouts.CalloutId)
    requires Restored(id) in log + [e]
    ensures Restored(id) in log || e == Restored(id)
  {
    Appended(log, e);
  }

  lemma NoRepeatsGrows(log: seq<Event>, e: Event)
    requires NoRepeats(log) && !e.Opened? && !e.Ended?
    ensures NoRepeats(log + [e])
  {
  }

  lemma LedgerOf(callouts: Callouts.Table, log: seq<Event>, poisoned: bool, open: set<Callouts.CalloutId>,
                 maximum: nat)
    requires callouts.Counting() && callouts.open.Keys == open
    requires callouts.reserved <= U32_MAX ==> NoRepeats(log) && Balanced(open, log) && NotAbove(log, callouts.reserved)
    requires forall id: Callouts.CalloutId :: Restored(id) in log ==> poisoned
    requires OneBack(log) && Within(open, log, maximum)
    ensures Ledger(callouts, log, poisoned, maximum)
  {
  }

  /** `u` is the table after a reservation of `id`, which no callout had. */
  ghost predicate Reserves(t: Callouts.Table, u: Callouts.Table, id: Callouts.CalloutId) {
    && u.Counting() && u.open == t.open && u.reserved == t.reserved + 1 && id !in t.open
    && (u.reserved <= U32_MAX ==> id == u.reserved)
  }

  lemma LedgerReserves(t: Callouts.Table, u: Callouts.Table, id: Callouts.CalloutId, log: seq<Event>, maximum: nat)
    requires Ledger(t, log, false, maximum) && Reserves(t, u, id)
    ensures Ledger(u, log, false, maximum)
    ensures u.reserved <= U32_MAX ==> Opened(id) !in log
  {
    hide NoRepeats, Balanced, Within, OneBack;
    LedgerOf(u, log, false, t.open.Keys, maximum);
  }

  lemma LedgerOpens(t: Callouts.Table, id: Callouts.CalloutId, log: seq<Event>, callout: Callouts.Callout,
                    maximum: nat)
    requires Ledger(t, log, false, maximum) && id !in t.open && |t.open.Keys| < maximum
    requires t.reserved <= U32_MAX ==> id == t.reserved && Opened(id) !in log
    ensures Ledger(t.Enter(id, callout), log + [Opened(id)], false, maximum)
  {
    hide NoRepeats, Balanced;
    var open := t.open.Keys;
    forall other: Callouts.CalloutId | Restored(other) in log + [Opened(id)]
      ensures false
    {
      RestoredGrows(log, Opened(id), other);
    }
    if t.reserved <= U32_MAX {
      NoRepeatsOpens(log, id);
      BalancedOpens(open, log, id);
      NotAboveOpens(log, id, t.reserved);
    }
    LedgerOf(t.Enter(id, callout), log + [Opened(id)], false, open + {id}, maximum);
  }

  lemma LedgerEnds(callouts: Callouts.Table, log: seq<Event>, id: Callouts.CalloutId, cause: Cause, maximum: nat)
    requires Ledger(callouts, log, false, maximum) && id in callouts.open
    ensures Ledger(callouts.Remove(id), log + [Ended(id, cause)], false, maximum)
  {
    var open := callouts.open.Keys;
    forall other: Callouts.CalloutId | Restored(other) in log + [Ended(id, cause)]
      ensures false
    {
      RestoredGrows(log, Ended(id, cause), other);
    }
    if callouts.reserved <= U32_MAX {
      BalancedEnds(open, log, id, cause);
      assert !EndedIn(log, id);
      NoRepeatsEnds(log, id, cause);
      NotAboveGrows(log, Ended(id, cause), callouts.reserved);
    }
    assert |open - {id}| == |open| - 1;
    LedgerOf(callouts.Remove(id), log + [Ended(id, cause)], false, open - {id}, maximum);
  }

  lemma BackIsWithin(open: set<Callouts.CalloutId>, log: seq<Event>, id: Callouts.CalloutId, maximum: nat)
    requires |open| <= maximum
    ensures Within(open + {id}, log + [Restored(id)], maximum)
  {
    var after := log + [Restored(id)];
    assert after[|log|] == Restored(id);
    assert open + {id} - {id} == open - {id};
    assert |open - {id}| <= |open| by {
      assert open == (open - {id}) + (open * {id});
    }
    assert Restored(id) in after && id in open + {id};
  }

  /** A delivery that ended `id` and poisoned the guest puts it back. */
  lemma LedgerRestores(callouts: Callouts.Table, log: seq<Event>, id: Callouts.CalloutId, callout: Callouts.Callout,
                       maximum: nat)
    requires Ledger(callouts, log, false, maximum) && Ended(id, Delivered) in log
    requires callouts.reserved <= U32_MAX ==> id !in callouts.open && id <= callouts.reserved
    ensures Ledger(callouts.Enter(id, callout), log + [Restored(id)], true, maximum)
  {
    hide NoRepeats, Balanced, NotAbove;
    var open := callouts.open.Keys;
    if callouts.reserved <= U32_MAX {
      BalancedRestores(open, log, id);
      NoRepeatsGrows(log, Restored(id));
      NotAboveGrows(log, Restored(id), callouts.reserved);
    }
    forall other: Callouts.CalloutId | Restored(other) in log + [Restored(id)]
      ensures other == id
    {
      RestoredGrows(log, Restored(id), other);
    }
    BackIsWithin(open, log, id, maximum);
    LedgerOf(callouts.Enter(id, callout), log + [Restored(id)], true, open + {id}, maximum);
  }

  lemma {:induction false} LedgerDrops(callouts: Callouts.Table, log: seq<Event>, made: seq<Callouts.Made>,
                                       maximum: nat)
    requires Ledger(callouts, log, false, maximum)
    requires forall m :: m in made ==> m.id in callouts.open
    requires forall i, j :: 0 <= i < j < |made| ==> made[i].id != made[j].id
    ensures Ledger(callouts.Drop(made), log + Drops(made), false, maximum)
    decreases |made|
  {
    hide NoRepeats, Balanced, NotAbove, Within, OneBack;
    if made == [] {
      assert log + Drops(made) == log;
    } else {
      LedgerEnds(callouts, log, made[0].id, Dropped, maximum);
      forall m | m in made[1..]
        ensures m.id in callouts.Remove(made[0].id).open
      {
        var i :| 0 <= i < |made[1..]| && made[1..][i] == m;
        assert made[i + 1] == m;
      }
      LedgerDrops(callouts.Remove(made[0].id), log + [Ended(made[0].id, Dropped)], made[1..], maximum);
      assert log + [Ended(made[0].id, Dropped)] + Drops(made[1..]) == log + Drops(made);
    }
  }

  // ---- The callbacks that reached the guest ----

  /** The callback that reached the guest was one its context may get. */
  ghost predicate Allowed(e: Event) {
    e.Entered? ==>
      && e.entry.Some?
      && (e.callback.ContextLog? || e.callback.ContextDelete? ==> e.entry.value.phase.Done?)
      && (e.refused ==> e.callback.Ending())
      && (e.callback.Family().Some? ==>
            e.entry.value.contextType.Stream? && e.entry.value.streamKind == e.callback.Family())
  }

  /** A callback that the one stream of a scope must share. */
  ghost predicate Lent(e: Event) {
    && e.Entered? && e.entry.Some? && e.entry.value.contextType.Stream?
    && (e.callback.Family().Some? || e.callback.Ending())
  }

  ghost predicate HasKind(e: Event) {
    e.Entered? && e.entry.Some? && e.entry.value.streamKind.Some?
  }

  ghost predicate Closing(e: Event) {
    e.Entered? && e.entry.Some? && !e.entry.value.phase.Active?
  }

  /** What an event says of every later one. A deleted context gets no callback
      and its identifier no new context, a refused one gets the three ending
      callbacks alone, a context stays in its family and never becomes active
      again, and the streams of one scope are one. */
  ghost predicate Order(f: Event, e: Event) {
    && (f.Deleted? && e.Entered? ==> e.context != f.context)
    && ((f.Deleted? || f.Created?) && e.Created? ==> e.context != f.context)
    && (f.RefusedVm? ==> !e.Created? && (e.Entered? ==> e.callback.Ending()))
    && (f.RefusedRoot? && e.Created? ==> e.under != f.context)
    && (f.RefusedRoot? && e.Entered? && e.root == Some(f.context) ==> e.callback.Ending())
    && (HasKind(f) && HasKind(e) && e.context == f.context ==> e.entry.value.streamKind == f.entry.value.streamKind)
    && (Closing(f) && e.Entered? && e.context == f.context ==> Closing(e))
    && (Lent(f) && Lent(e) && e.scope == f.scope ==> e.context == f.context)
  }

  /** What an event says of the table of contexts from then on. */
  ghost predicate Marked(e: Event, t: Table) {
    && (e.Deleted? ==> e.context < t.next && e.context !in t.entries)
    && (e.Created? ==> e.context < t.next)
    && (e.RefusedVm? ==> t.vmRejected.Some?)
    && (e.RefusedRoot? ==> e.context < t.next && (e.context in t.entries ==> t.entries[e.context].rejected))
    && (e.Entered? ==> e.context < t.next)
    && (HasKind(e) && e.context in t.entries ==> t.KindOf(e.context) == e.entry.value.streamKind)
    && (Closing(e) && e.context in t.entries ==> !t.entries[e.context].phase.Active?)
  }

  /** What an event says of the scope that is open. */
  ghost predicate Scoped(e: Event, scope: nat, served: Option<ContextId>) {
    && (e.Entered? ==> e.scope <= scope)
    && (Lent(e) && e.scope == scope ==> served == Some(e.context))
  }

  ghost predicate Ordered(log: seq<Event>) {
    forall i, j :: 0 <= i < j < |log| ==> Order(log[i], log[j])
  }

  ghost predicate Chronicle(log: seq<Event>, t: Table, scope: nat, served: Option<ContextId>) {
    && (forall e :: e in log ==> Allowed(e) && Marked(e, t) && Scoped(e, scope, served))
    && Ordered(log)
  }

  /** What was told and what waits is the period of every root. */
  ghost predicate PeriodsKnown(t: Table, g: Grants.Grants) {
    && (forall id :: id in g.told || id in g.changes.tickPeriods ==> id < t.next)
    && forall id :: id in t.entries && t.entries[id].contextType.Root? ==> t.entries[id].tickPeriod == g.Known(id)
  }

  /** What holds at every point of a conversation, inside a callback or not. */
  ghost predicate Sound(s: State) {
    && s.contexts.Forest() && PeriodsKnown(s.contexts, s.grants)
    && Ledger(s.callouts, s.log, s.poisoned, s.maximum)
    && Chronicle(s.log, s.contexts, s.scope, s.served)
    && s.grants.Sound(s.contexts)
  }

  lemma NewStateIsSound(store: Grants.StoreId, maximum: Maximum, future: seq<Play>)
    ensures Sound(NewState(store, maximum, future))
  {
    var s := NewState(store, maximum, future);
    assert s.grants.RegistrantsSound(s.contexts) by {
      assert forall queue: Grants.QueueId :: s.grants.Roots(queue) == {};
    }
    LedgerOf(s.callouts, s.log, false, {}, maximum);
  }

  /** An event of the callouts, which says nothing of the contexts. */
  ghost predicate Silent(e: Event) {
    e.Opened? || e.Ended? || e.Restored?
  }

  ghost predicate SilentGrowth(before: seq<Event>, after: seq<Event>) {
    && before <= after
    && forall i :: |before| <= i < |after| ==> Silent(after[i])
  }

  /** A change of the table that no event contradicts: no context comes back, no
      family changes, none becomes active again, and no refusal is taken back. */
  ghost predicate Forward(t: Table, u: Table) {
    && t.next <= u.next
    && (t.vmRejected.Some? ==> u.vmRejected.Some?)
    && (forall id: ContextId :: id < t.next && id in u.entries ==>
          id in t.entries && EntryForward(t.entries[id], u.entries[id]))
  }

  ghost predicate EntryForward(e: Entry, f: Entry) {
    && (e.streamKind.Some? ==> f.streamKind == e.streamKind)
    && (e.rejected ==> f.rejected)
    && (!e.phase.Active? ==> !f.phase.Active?)
  }

  lemma ChronicleKept(log: seq<Event>, after: seq<Event>, t: Table, u: Table, scope: nat, served: Option<ContextId>)
    requires Chronicle(log, t, scope, served) && SilentGrowth(log, after) && Forward(t, u)
    ensures Chronicle(after, u, scope, served)
  {
    forall e | e in after
      ensures Allowed(e) && Marked(e, u) && Scoped(e, scope, served)
    {
      var i :| 0 <= i < |after| && after[i] == e;
      if i < |log| {
        assert log[i] == e && e in log;
      }
    }
    forall i, j | 0 <= i < j < |after|
      ensures Order(after[i], after[j])
    {
      if j < |log| {
        assert after[i] == log[i] && after[j] == log[j];
      }
    }
  }

  /** Appending one event that everything before it allows. */
  lemma ChronicleGrows(log: seq<Event>, e: Event, t: Table, scope: nat, served: Option<ContextId>)
    requires Chronicle(log, t, scope, served)
    requires Allowed(e) && Marked(e, t) && Scoped(e, scope, served)
    requires forall f :: f in log ==> Order(f, e)
    ensures Chronicle(log + [e], t, scope, served)
  {
    forall i, j | 0 <= i < j < |log + [e]|
      ensures Order((log + [e])[i], (log + [e])[j])
    {
      if j == |log| {
        assert log[i] in log;
      }
    }
  }

  // ---- Guest code keeps all of it ----

  lemma LedgerKept(s: State, act: Act)
    requires Sound(s) && !s.poisoned
    ensures Ledger(Do(s, act).callouts, Do(s, act).log, false, s.maximum)
  {
    hide Ledger;
    match act {
      case OpenCallout(kind, accepted) => OneOpened(s, kind, accepted);
      case Cancel(id) => OneEnded(s, id);
      case Close(id) => OneEnded(s, id); LedgerClosed(s, id);
      case Send(id, _, _) => LedgerClosed(s, id);
      case _ =>
    }
  }

  lemma OneOpened(s: State, kind: Callouts.Kind, accepted: bool)
    requires Ledger(s.callouts, s.log, false, s.maximum)
    ensures var u := OpenOne(s, kind, accepted);
      Ledger(u.callouts, u.log, false, s.maximum)
  {
    if OpenOne(s, kind, accepted) != s {
      Callouts.ReserveCounts(s.callouts);
      var (reserved, id) := s.callouts.Reserve();
      LedgerReserves(s.callouts, reserved, id, s.log, s.maximum);
      if accepted {
        LedgerOpens(reserved, id, s.log, OpenOne(s, kind, accepted).callouts.open[id], s.maximum);
      }
    }
  }

  lemma OneEnded(s: State, id: Callouts.CalloutId)
    requires Ledger(s.callouts, s.log, false, s.maximum)
    ensures id in s.callouts.open ==>
      Ledger(EndByGuest(s, id).callouts, EndByGuest(s, id).log, false, s.maximum)
  {
    if id in s.callouts.open {
      LedgerEnds(s.callouts, s.log, id, ByGuest, s.maximum);
    }
  }

  lemma LedgerClosed(s: State, id: Callouts.CalloutId)
    requires Ledger(s.callouts, s.log, s.poisoned, s.maximum)
    ensures Ledger(s.callouts.CloseByGuest(id), s.log, s.poisoned, s.maximum)
  {
    assert s.callouts.CloseByGuest(id).open.Keys == s.callouts.open.Keys;
  }

  /** The queues a guest holds and the periods it set are no registrations. */
  lemma GrantsSeeRegistrations(g: Grants.Grants, h: Grants.Grants, t: Table)
    requires g.Sound(t)
    requires h.grantedAgainst == g.grantedAgainst && h.registrants == g.registrants
    requires h.changes.queues == g.changes.queues && h.everMade == g.everMade && h.reported == g.reported
    requires h.missed == g.missed
    ensures h.Sound(t)
  {
    forall queue: Grants.QueueId, root: ContextId
      ensures h.Roots(queue) == g.Roots(queue)
      ensures h.Held(t, queue, root) == g.Held(t, queue, root)
      ensures h.Registered(t, queue, root) == g.Registered(t, queue, root)
    {
    }
  }

  lemma GrantsKept(s: State, act: Act)
    requires s.contexts.Forest() && s.grants.Sound(s.contexts)
    ensures Do(s, act).grants.Sound(s.contexts)
  {
    var settled := s.grants.Settle();
    Grants.SettleKeepsSound(s.grants, s.contexts);
    var caller := s.contexts.Caller();
    match act {
      case RegisterQueue(Some(queue), name) =>
        if caller.Some? {
          var granted := settled.GrantQueue(queue);
          GrantsSeeRegistrations(settled, granted, s.contexts);
          assert s.contexts.SoundEntry(s.contexts.entries[caller.value]);
          Grants.RegisterKeepsSound(granted, s.contexts, queue, s.contexts.RootOf(caller.value).value, name);
        }
      case ResolveQueue(Some(queue)) => GrantsSeeRegistrations(settled, settled.GrantQueue(queue), s.contexts);
      case SetTickPeriod(_) => GrantsSeeRegistrations(s.grants, Do(s, act).grants, s.contexts);
      case _ =>
    }
  }

  /** The same contexts are there, with the same types and the same counter. */
  ghost predicate SameRoster(t: Table, u: Table) {
    && u.next == t.next && u.entries.Keys == t.entries.Keys
    && forall id: ContextId :: u.TypeOf(id) == t.TypeOf(id)
  }

  /** The periods of the table are the same. */
  ghost predicate SamePeriods(t: Table, u: Table) {
    && u.next == t.next && u.entries.Keys == t.entries.Keys
    && forall id :: id in t.entries ==>
         u.entries[id].tickPeriod == t.entries[id].tickPeriod && u.entries[id].contextType == t.entries[id].contextType
  }

  lemma PeriodsSeeTheTable(g: Grants.Grants, t: Table, u: Table)
    requires PeriodsKnown(t, g) && SamePeriods(t, u)
    ensures PeriodsKnown(u, g)
  {
  }

  lemma GrantsSeeTheRoster(g: Grants.Grants, t: Table, u: Table)
    requires g.Sound(t) && SameRoster(t, u)
    ensures g.Sound(u)
  {
    forall queue: Grants.QueueId, root: ContextId | root in g.Roots(queue)
      ensures g.Registered(u, queue, root)
    {
      assert g.Registered(t, queue, root);
    }
    forall queue: Grants.QueueId, root: ContextId | g.Held(t, queue, root)
      ensures g.Held(u, queue, root)
    {
    }
  }

  lemma ContextsMoveForward(t: Table, u: Table)
    requires ContextsMove(t, u)
    ensures Forward(t, u)
  {
    forall id: ContextId | id in u.entries
      ensures EntryForward(t.entries[id], u.entries[id])
    {
      assert EntryMoves(t.entries[id], u.entries[id]);
    }
  }

  /** A period that a guest sets goes to the table and to what waits. */
  lemma PeriodIsKnown(s: State, period: Option<nat>)
    requires s.contexts.Forest() && PeriodsKnown(s.contexts, s.grants)
    ensures PeriodsKnown(SetPeriod(s, period).contexts, SetPeriod(s, period).grants)
  {
  }

  predicate OnCallouts(act: Act) {
    act.OpenCallout? || act.Send? || act.Cancel? || act.Close?
  }

  lemma CalloutActsSpare(s: State, act: Act)
    requires OnCallouts(act)
    ensures Do(s, act) == s.(callouts := Do(s, act).callouts, log := Do(s, act).log) && s.log <= Do(s, act).log
  {
  }

  lemma OtherActsKeepPeriods(s: State, act: Act)
    requires !act.SetTickPeriod?
    ensures var u := Do(s, act);
      && SamePeriods(s.contexts, u.contexts) && u.grants.told == s.grants.told
      && u.grants.changes.tickPeriods == s.grants.changes.tickPeriods
  {
    if OnCallouts(act) {
      hide Do;
      CalloutActsSpare(s, act);
    }
  }

  lemma PeriodsKept(s: State, act: Act)
    requires s.contexts.Forest() && PeriodsKnown(s.contexts, s.grants)
    ensures PeriodsKnown(Do(s, act).contexts, Do(s, act).grants)
  {
    if act.SetTickPeriod? {
      PeriodIsKnown(s, act.period);
    } else {
      hide Do;
      OtherActsKeepPeriods(s, act);
    }
  }

  lemma DoKeepsSound(s: State, act: Act)
    requires Sound(s) && !s.poisoned
    ensures Sound(Do(s, act)) && GuestMoves(s, Do(s, act))
  {
    hide PeriodsKnown, Chronicle;
    var u := Do(s, act);
    ContextActsMove(s, act);
    ActMovesTables(s, act);
    ContextsMoveKeeps(s.contexts, u.contexts);
    PeriodsKept(s, act);
    LedgerKept(s, act);
    GrantsKept(s, act);
    GrantsSeeTheRoster(u.grants, s.contexts, u.contexts);
    ContextsMoveForward(s.contexts, u.contexts);
    ChronicleKept(s.log, u.log, s.contexts, u.contexts, s.scope, s.served);
  }

  lemma {:induction false} PerformKeepsSound(s: State, acts: seq<Act>)
    requires Sound(s) && !s.poisoned
    ensures Sound(Perform(s, acts)) && GuestMoves(s, Perform(s, acts))
    decreases |acts|
  {
    if acts == [] {
      PerformMoves(s, acts);
    } else {
      DoKeepsSound(s, acts[0]);
      PerformKeepsSound(Do(s, acts[0]), acts[1..]);
      GuestMovesCompose(s, Do(s, acts[0]), Perform(s, acts));
    }
  }
}
