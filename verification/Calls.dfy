/** One callback: what a guest call keeps, and how far it can move the state. */
module Calls {
  import opened Prelude
  import opened Contexts
  import opened States
  import opened GuestCode
  import opened Rely
  import opened History
  import opened Scope
  import Callouts

  /** The callback may reach the guest on `context`, and the one stream of the
      scope allows it. */
  ghost predicate MayRun(s: State, context: ContextId, callback: Callback) {
    && !s.poisoned
    && context in s.contexts.entries
    && Allowed(Snapshot(s, context, callback))
    && (Lent(Snapshot(s, context, callback)) ==> s.served == Some(context))
  }

  /** The history after a callback: the guest reached at most once, with the
      snapshot of the start, and then what guest code does. */
  ghost predicate CallbackLog(s: State, context: ContextId, callback: Callback, log: seq<Event>) {
    LogGrows(s.log, log) || LogGrows(s.log + [Snapshot(s, context, callback)], log)
  }

  /** How far a callback on `context` moves the state. */
  ghost predicate RunMoves(s: State, context: ContextId, callback: Callback, u: State, ret: Ret) {
    && ContextsMove(s.contexts.SetEffective(context), u.contexts)
    && CalloutsMove(s, u)
    && CallbackLog(s, context, callback, u.log)
    && u.deleting == s.deleting && u.delivery == s.delivery && u.served == s.served && u.scope == s.scope
    && u.maximum == s.maximum && u.grants.store == s.grants.store
    && (u.announced == s.announced || u.announced.None?)
    && u.poisoned == ret.Trapped?
    && u.current.Some? == ret.Panicked?
    && !ret.Refused?
  }

  lemma EnteredKeepsChronicle(s: State, context: ContextId, callback: Callback)
    requires Sound(s) && MayRun(s, context, callback)
    ensures Chronicle(s.log + [Snapshot(s, context, callback)], s.contexts, s.scope, s.served)
  {
    var e := Snapshot(s, context, callback);
    forall f | f in s.log
      ensures Order(f, e)
    {
      assert Marked(f, s.contexts) && Scoped(f, s.scope, s.served);
    }
    ChronicleGrows(s.log, e, s.contexts, s.scope, s.served);
  }

  /** An event that is no event of a callout. */
  lemma LedgerIgnores(callouts: Callouts.Table, log: seq<Event>, e: Event, poisoned: bool, maximum: nat)
    requires Ledger(callouts, log, poisoned, maximum) && !Silent(e)
    ensures Ledger(callouts, log + [e], poisoned, maximum)
  {
    Appended(log, e);
  }

  /** The state in which the guest is called: the context is effective and the
      callback is current. */
  function Prepared(s: State, context: ContextId, callback: Callback): State {
    s.(contexts := s.contexts.SetEffective(context), current := Some(callback))
  }

  lemma PreparedIsSound(s: State, context: ContextId, callback: Callback)
    requires Sound(s) && MayRun(s, context, callback)
    ensures Sound(Prepared(s, context, callback))
    ensures Snapshot(Prepared(s, context, callback), context, callback) == Snapshot(s, context, callback)
    ensures MayRun(Prepared(s, context, callback), context, callback)
  {
    var p := Prepared(s, context, callback);
    assert p.contexts.RootOf(context) == s.contexts.RootOf(context);
    assert p.contexts.RejectionOf(context) == s.contexts.RejectionOf(context);
    assert SameRoster(s.contexts, p.contexts);
    GrantsSeeTheRoster(s.grants, s.contexts, p.contexts);
    ChronicleKept(s.log, s.log, s.contexts, p.contexts, s.scope, s.served);
    assert forall id: ContextId :: id in p.contexts.entries ==>
      p.contexts.SoundEntry(p.contexts.entries[id]) == s.contexts.SoundEntry(s.contexts.entries[id]);
  }

  /** The state right after the guest was reached. */
  function Reached(p: State, context: ContextId, callback: Callback): State
    requires p.future != []
  {
    p.(future := p.future[1..]).Note(Snapshot(p, context, callback))
  }

  lemma ReachedIsSound(p: State, context: ContextId, callback: Callback)
    requires Sound(p) && MayRun(p, context, callback) && p.future != []
    ensures Sound(Reached(p, context, callback))
  {
    EnteredKeepsChronicle(p, context, callback);
    LedgerIgnores(p.callouts, p.log, Snapshot(p, context, callback), p.poisoned, p.maximum);
  }

  lemma PoisonKeepsSound(s: State)
    requires Sound(s)
    ensures Sound(s.(poisoned := true))
  {
  }

  /** The state in which the guest has run its script and not come back yet. */
  function Played(s: State, context: ContextId, callback: Callback): State
    requires s.future != [] && s.future[0].Play?
  {
    Perform(Reached(Prepared(s, context, callback), context, callback), s.future[0].acts)
  }

  lemma PlayedIsSound(s: State, context: ContextId, callback: Callback)
    requires Sound(s) && MayRun(s, context, callback)
    requires s.future != [] && s.future[0].Play?
    ensures var played := Played(s, context, callback);
      && Sound(played)
      && ContextsMove(s.contexts.SetEffective(context), played.contexts)
      && CalloutsMove(s, played)
      && LogGrows(s.log + [Snapshot(s, context, callback)], played.log)
      && OutOfReach(Reached(Prepared(s, context, callback), context, callback), played)
  {
    PreparedIsSound(s, context, callback);
    var p := Prepared(s, context, callback);
    var reached := Reached(p, context, callback);
    ReachedIsSound(p, context, callback);
    PerformKeepsSound(reached, s.future[0].acts);
    CalloutsMoveFrom(s, reached, Played(s, context, callback));
  }

  lemma AbsentRun(s: State, context: ContextId, callback: Callback, default: int)
    requires Sound(s) && MayRun(s, context, callback)
    requires s.future == [] || s.future[0].Absent?
    ensures var (u, ret) := Run(s, context, callback, default);
      Sound(u) && RunMoves(s, context, callback, u, ret)
  {
    var p := Prepared(s, context, callback);
    PreparedIsSound(s, context, callback);
    PerformMoves(p, []);
    CalloutsMoveFrom(s, p, p);
  }

  lemma RunOfPlay(s: State, context: ContextId, callback: Callback, default: int)
    requires !s.poisoned && s.future != [] && s.future[0].Play?
    ensures var (u, ret) := Run(s, context, callback, default);
      match s.future[0].outcome
      case Return(value) => u == Played(s, context, callback).(current := None) && ret == Returned(value)
      case Trap => u == Played(s, context, callback).(current := None, poisoned := true) && ret == Trapped
      case Panic => u == Played(s, context, callback) && ret == Panicked
  {
  }

  lemma PlayedRunMoves(s: State, context: ContextId, callback: Callback, default: int)
    requires Sound(s) && MayRun(s, context, callback) && s.future != [] && s.future[0].Play?
    ensures var (u, ret) := Run(s, context, callback, default);
      RunMoves(s, context, callback, u, ret)
  {
    hide Ledger, Chronicle, PeriodsKnown, ContextsMove, LogGrows;
    PlayedIsSound(s, context, callback);
    RunOfPlay(s, context, callback, default);
  }

  lemma PlayedRunIsSound(s: State, context: ContextId, callback: Callback, default: int)
    requires Sound(s) && MayRun(s, context, callback) && s.future != [] && s.future[0].Play?
    ensures var (u, ret) := Run(s, context, callback, default);
      Sound(u) && Sound(u.(poisoned := false))
  {
    hide Chronicle, PeriodsKnown, ContextsMove, LogGrows, CalloutsMove;
    PlayedIsSound(s, context, callback);
    RunOfPlay(s, context, callback, default);
    PoisonKeepsSound(Played(s, context, callback));
  }

  lemma RunKeepsSound(s: State, context: ContextId, callback: Callback, default: int)
    requires Sound(s) && MayRun(s, context, callback)
    ensures var (u, ret) := Run(s, context, callback, default);
      Sound(u) && RunMoves(s, context, callback, u, ret) && Sound(u.(poisoned := false))
  {
    hide Chronicle, PeriodsKnown;
    if s.future == [] || s.future[0].Absent? {
      AbsentRun(s, context, callback, default);
    } else {
      hide Run, RunMoves, Sound;
      PlayedRunMoves(s, context, callback, default);
      PlayedRunIsSound(s, context, callback, default);
    }
  }

  /** Setting the effective context and noting the entry do not change what the
      callouts may become. */
  lemma CalloutsMoveFrom(s: State, entered: State, u: State)
    requires CalloutsMove(entered, u)
    requires entered.callouts == s.callouts && entered.deleting == s.deleting
    requires entered.contexts.entries == s.contexts.entries
    ensures CalloutsMove(s, u)
  {
    forall id | id in u.callouts.open
      ensures Kept(s.callouts.open, u.callouts.open, id) || Openable(s.contexts, s.deleting, u.callouts.open[id])
    {
      assert entered.contexts.RootOf(u.callouts.open[id].caller) == s.contexts.RootOf(u.callouts.open[id].caller);
    }
  }

  // ---- A delivery ----

  /** How far a delivery on `context` moves the state. Only a failed call puts
      the callout back. */
  ghost predicate DeliveryMoves(s: State, context: ContextId, callout: Option<Callouts.CalloutId>,
                                callback: Callback, ends: bool, u: State, ret: Ret)
  {
    var lent := Lend(s, callout, ends);
    && (ret.Returned? ==> RunMoves(lent, context, callback, u.(delivery := lent.delivery), ret))
    && u.poisoned == ret.Trapped?
    && u.current.Some? == ret.Panicked?
    && !ret.Refused?
    && (ret.Panicked? ==> RunMoves(lent, context, callback, u, ret))
    && (!ret.Panicked? ==> u.delivery.None?)
    && (ret.Trapped? && Takes(s, callout, ends) ==>
          && callout.value in u.callouts.open
          && u.callouts.open[callout.value] == s.callouts.open[callout.value])
  }

  lemma LendKeepsSound(s: State, callout: Option<Callouts.CalloutId>, ends: bool)
    requires Sound(s) && !s.poisoned
    ensures Sound(Lend(s, callout, ends))
  {
    if Takes(s, callout, ends) {
      LedgerEnds(s.callouts, s.log, callout.value, Delivered, s.maximum);
      ChronicleKept(s.log, Lend(s, callout, ends).log, s.contexts, s.contexts, s.scope, s.served);
    }
  }

  lemma GiveBackKeepsSound(s: State, callout: Callouts.CalloutId, context: ContextId, callback: Callback, after: State,
                           ret: Ret)
    requires Sound(s) && callout in s.callouts.open
    requires Sound(after) && after.poisoned
    requires RunMoves(Lend(s, Some(callout), true), context, callback, after, ret)
    requires Sound(after.(poisoned := false))
    ensures Sound(GiveBack(s, Some(callout), true, after))
  {
    var lent := Lend(s, Some(callout), true);
    var entry := s.callouts.open[callout];
    assert Ended(callout, Delivered) in lent.log;
    assert lent.log <= after.log;
    if after.callouts.reserved <= U32_MAX {
      assert callout <= s.callouts.reserved;
      assert callout !in lent.callouts.open;
      assert callout in after.callouts.open ==> Kept(lent.callouts.open, after.callouts.open, callout);
    }
    LedgerRestores(after.callouts, after.log, callout, entry, after.maximum);
    ChronicleKept(after.log, after.log + [Restored(callout)], after.contexts, after.contexts, after.scope,
                  after.served);
  }

  lemma DeliverKeepsSound(s: State, context: ContextId, callout: Option<Callouts.CalloutId>, callback: Callback,
                          ends: bool)
    requires Sound(s) && MayRun(s, context, callback)
    ensures var (u, ret) := Deliver(s, context, callout, callback, ends);
      Sound(u) && DeliveryMoves(s, context, callout, callback, ends, u, ret)
  {
    hide Ledger, Chronicle, CalloutsMove, CallbackLog;
    var lent := Lend(s, callout, ends);
    LendKeepsSound(s, callout, ends);
    assert MayRun(lent, context, callback);
    RunKeepsSound(lent, context, callback, 0);
    var (after, ret) := Run(lent, context, callback, 0);
    if Takes(s, callout, ends) && ret.Trapped? {
      GiveBackKeepsSound(s, callout.value, context, callback, after, ret);
    }
  }
}
