/** The deletion of a context, which runs guest code several times between its
    checks and its end: what it ends, what it leaves, and what it answers. */
module Deletion {
  import opened Prelude
  import opened Contexts
  import opened States
  import opened GuestCode
  import opened Rely
  import opened History
  import opened Calls
  import opened Scope
  import opened Invariants
  import Ascending
  import Callouts
  import Grants

  type Ids = seq<Callouts.CalloutId>

  /** Every callout that is not the one of the deleted context is of a live one. */
  ghost predicate OthersLive(t: Table, open: Open, c: ContextId) {
    forall id :: id in open ==> open[id].caller == c || Openable(t, None, open[id])
  }

  /** A point of a deletion at which the guest is not running. */
  ghost predicate Deleting(s: State, c: ContextId) {
    && Sound(s) && s.AtRest()
    && s.deleting == Some(c) && s.announced.None? && s.delivery.None?
    && OthersLive(s.contexts, s.callouts.open, c)
  }

  /** The table of contexts, up to the effective context and what a guest does to
      an entry. */
  ghost predicate RosterMoves(t: Table, u: Table) {
    && u.entries.Keys == t.entries.Keys && u.next == t.next && u.vmRejected == t.vmRejected
    && forall id :: id in t.entries ==> EntryMoves(t.entries[id], u.entries[id])
  }

  lemma RosterMovesKeeps(t: Table, u: Table, id: ContextId)
    requires RosterMoves(t, u)
    ensures u.RootOf(id) == t.RootOf(id) && u.TypeOf(id) == t.TypeOf(id) && u.RejectionOf(id) == t.RejectionOf(id)
    ensures u.Parent(id) == t.Parent(id)
    ensures t.PhaseOf(id) == Some(Done) ==> u.PhaseOf(id) == Some(Done)
    ensures u.HasChildren(id) == t.HasChildren(id)
  {
    if id in t.entries {
      assert EntryMoves(t.entries[id], u.entries[id]);
      var root := t.RootOf(id).value;
      if root in t.entries {
        assert EntryMoves(t.entries[root], u.entries[root]);
      }
    }
    if child :| child in t.entries && t.entries[child].parent == Some(id) {
      assert EntryMoves(t.entries[child], u.entries[child]);
      assert u.entries[child].parent == Some(id);
    }
    if child :| child in u.entries && u.entries[child].parent == Some(id) {
      assert EntryMoves(t.entries[child], u.entries[child]);
      assert t.entries[child].parent == Some(id);
    }
  }

  lemma RosterMovesCompose(t: Table, u: Table, v: Table)
    requires RosterMoves(t, u) && RosterMoves(u, v)
    ensures RosterMoves(t, v)
  {
    forall id | id in t.entries
      ensures EntryMoves(t.entries[id], v.entries[id])
    {
      assert EntryMoves(t.entries[id], u.entries[id]) && EntryMoves(u.entries[id], v.entries[id]);
    }
  }

  /** What a part of a deletion did to the callouts: `delivered` got a failure,
      `dropped` got none, the guest ended others, and no callout of `c` is new. */
  ghost predicate Progress(s: State, u: State, c: ContextId, delivered: Ids, dropped: Ids) {
    && (forall id :: id in u.callouts.open ==>
          Kept(s.callouts.open, u.callouts.open, id) || u.callouts.open[id].caller != c)
    && (forall id :: id in s.callouts.open ==>
          || Kept(s.callouts.open, u.callouts.open, id)
          || Ended(id, ByGuest) in u.log || id in delivered || id in dropped)
    && (u.callouts.reserved <= U32_MAX ==> forall id :: id in u.callouts.open && id <= s.callouts.reserved ==>
          Kept(s.callouts.open, u.callouts.open, id))
    && s.callouts.reserved <= u.callouts.reserved
    && s.log <= u.log
    && TellsOf(s.log, u.log, Delivered, delivered)
    && TellsOf(s.log, u.log, Dropped, dropped)
  }

  /** The callouts whose end for `cause` is new in the history are `ids`. */
  ghost predicate TellsOf(before: seq<Event>, after: seq<Event>, cause: Cause, ids: Ids) {
    forall id: Callouts.CalloutId :: Ended(id, cause) in after <==> Ended(id, cause) in before || id in ids
  }

  lemma ProgressStays(s: State, c: ContextId)
    ensures Progress(s, s, c, [], []) && RosterMoves(s.contexts, s.contexts)
  {
  }

  lemma ProgressComposes(s: State, u: State, v: State, c: ContextId, first: Ids, second: Ids, dropped: Ids, more: Ids)
    requires Progress(s, u, c, first, dropped) && Progress(u, v, c, second, more)
    ensures Progress(s, v, c, first + second, dropped + more)
  {
    forall id | id in v.callouts.open
      ensures Kept(s.callouts.open, v.callouts.open, id) || v.callouts.open[id].caller != c
    {
      if Kept(u.callouts.open, v.callouts.open, id) {
        assert Kept(s.callouts.open, u.callouts.open, id) || u.callouts.open[id].caller != c;
      }
    }
    forall id | id in s.callouts.open
      ensures || Kept(s.callouts.open, v.callouts.open, id)
              || Ended(id, ByGuest) in v.log || id in first + second || id in dropped + more
    {
      if Kept(s.callouts.open, u.callouts.open, id) {
        assert Kept(u.callouts.open, v.callouts.open, id) || Ended(id, ByGuest) in v.log || id in second || id in more;
      }
    }
  }

  // ---- One callback of a deletion ----

  lemma OthersStay(s: State, u: State, t: Table, c: ContextId)
    requires OthersLive(s.contexts, s.callouts.open, c) && CalloutsMove(s, u)
    requires s.contexts.Forest() && t.Forest() && t.entries == s.contexts.entries && ContextsMove(t, u.contexts)
    ensures OthersLive(u.contexts, u.callouts.open, c)
  {
    ContextsMoveKeeps(t, u.contexts);
    forall id | id in u.callouts.open
      ensures u.callouts.open[id].caller == c || Openable(u.contexts, None, u.callouts.open[id])
    {
      var callout := u.callouts.open[id];
      assert t.RootOf(callout.caller) == s.contexts.RootOf(callout.caller);
    }
  }

  /** The history of a callback tells no delivery and no drop. */
  lemma CallbackEndsByGuest(s: State, context: ContextId, callback: Callback, log: seq<Event>, id: Callouts.CalloutId)
    requires CallbackLog(s, context, callback, log)
    ensures s.log <= log
    ensures Ended(id, Delivered) in log <==> Ended(id, Delivered) in s.log
    ensures Ended(id, Dropped) in log <==> Ended(id, Dropped) in s.log
    ensures Restored(id) in log <==> Restored(id) in s.log
  {
  }

  lemma RunProgress(s: State, context: ContextId, callback: Callback, u: State, ret: Ret, c: ContextId)
    requires RunMoves(s, context, callback, u, ret) && s.deleting == Some(c)
    ensures Progress(s, u, c, [], [])
  {
    forall id: Callouts.CalloutId
      ensures Ended(id, Delivered) in u.log <==> Ended(id, Delivered) in s.log
      ensures Ended(id, Dropped) in u.log <==> Ended(id, Dropped) in s.log
    {
      CallbackEndsByGuest(s, context, callback, u.log, id);
    }
    CallbackEndsByGuest(s, context, callback, u.log, 1);
  }

  /** How a guest call leaves the guest: a trap poisons it, and a panic leaves the
      callback current. */
  ghost predicate Left(u: State, ret: Ret) {
    u.poisoned == ret.Trapped? && u.current.Some? == ret.Panicked? && !ret.Refused?
  }

  lemma RunInDeletion(s: State, context: ContextId, callback: Callback, c: ContextId)
    requires Deleting(s, c) && MayRun(s, context, callback)
    ensures var (u, ret) := Run(s, context, callback, 0);
      && Sound(u)
      && Left(u, ret)
      && (ret.Returned? ==>
            Deleting(u, c) && RosterMoves(s.contexts, u.contexts) && Progress(s, u, c, [], []) && u.served == s.served)
  {
    RunKeepsSound(s, context, callback, 0);
    var (u, ret) := Run(s, context, callback, 0);
    RunProgress(s, context, callback, u, ret, c);
    OthersStay(s, u, s.contexts.SetEffective(context), c);
  }

  lemma LendProgress(s: State, id: Callouts.CalloutId, c: ContextId)
    requires id in s.callouts.open
    ensures Progress(s, Lend(s, Some(id), true), c, [id], [])
  {
    Appended(s.log, Ended(id, Delivered));
  }

  lemma DeliverInDeletion(s: State, root: ContextId, id: Callouts.CalloutId, callback: Callback, c: ContextId)
    requires Deleting(s, c) && MayRun(s, root, callback) && id in s.callouts.open
    ensures var (u, ret) := Deliver(s, root, Some(id), callback, true);
      && Sound(u)
      && Left(u, ret)
      && (ret.Returned? ==>
            && Deleting(u, c) && RosterMoves(s.contexts, u.contexts)
            && Progress(s, u, c, [id], []) && u.served == s.served
            && (id in u.callouts.open ==> u.callouts.open[id].caller != c))
  {
    hide Chronicle, Ledger, PeriodsKnown;
    DeliverKeepsSound(s, root, Some(id), callback, true);
    var (u, ret) := Deliver(s, root, Some(id), callback, true);
    if ret.Returned? {
      var lent := Lend(s, Some(id), true);
      var after := u.(delivery := lent.delivery);
      LendProgress(s, id, c);
      RunProgress(lent, root, callback, after, ret, c);
      ProgressComposes(s, lent, after, c, [id], [], [], []);
      assert [id] + [] == [id];
      OthersStay(lent, after, lent.contexts.SetEffective(root), c);
    }
  }

  // ---- The sweep ----

  ghost predicate IsSwept(before: State, after: State, c: ContextId, made: seq<Callouts.Made>, rest: Ids) {
    && Deleting(after, c)
    && RosterMoves(before.contexts, after.contexts)
    && Progress(before, after, c, rest, [])
    && after.served == before.served
    && Ascending.Strictly(rest)
    && (forall id :: id in rest ==> id in Callouts.Ids(made))
    && (forall m :: m in made && m.id in after.callouts.open ==> after.callouts.open[m.id].caller != c)
  }

  /** How a sweep ends: it passed all of `made`, or the guest is out of service. */
  ghost predicate SweepEnds(s: State, u: State, sweep: Sweep, c: ContextId, made: seq<Callouts.Made>, ended: Ids) {
    && Sound(u)
    && (sweep.Broken? ==> !sweep.ret.Returned? && Left(u, sweep.ret))
    && (sweep.Swept? ==> ended <= sweep.ended && IsSwept(s, u, c, made, sweep.ended[|ended|..]))
  }

  lemma SweepSkips(s: State, u: State, sweep: Sweep, c: ContextId, made: seq<Callouts.Made>, ended: Ids)
    requires Deleting(s, c) && made != [] && made[0].id !in s.callouts.open
    requires Ascending.Strictly(Callouts.Ids(made))
    requires SweepEnds(s, u, sweep, c, made[1..], ended)
    ensures SweepEnds(s, u, sweep, c, made, ended)
  {
    if sweep.Swept? {
      ProgressStays(s, c);
      SweptMore(s, s, u, c, made, [], sweep.ended[|ended|..]);
      assert [] + sweep.ended[|ended|..] == sweep.ended[|ended|..];
    }
  }

  lemma SweepDelivers(s: State, v: State, u: State, sweep: Sweep, c: ContextId, made: seq<Callouts.Made>, ended: Ids)
    requires made != [] && Ascending.Strictly(Callouts.Ids(made))
    requires RosterMoves(s.contexts, v.contexts) && Progress(s, v, c, [made[0].id], []) && v.served == s.served
    requires made[0].id in v.callouts.open ==> v.callouts.open[made[0].id].caller != c
    requires SweepEnds(v, u, sweep, c, made[1..], ended + [made[0].id])
    ensures SweepEnds(s, u, sweep, c, made, ended)
  {
    if sweep.Swept? {
      var rest := sweep.ended[|ended| + 1..];
      assert sweep.ended[|ended|..] == [made[0].id] + rest;
      SweptMore(s, v, u, c, made, [made[0].id], rest);
    }
  }

  /** After the callouts of `c` that were listed, none of them is open: each got
      one failure, or the guest ended it first. */
  lemma {:induction false} FailEachSweeps(s: State, c: ContextId, root: ContextId, made: seq<Callouts.Made>, ended: Ids)
    requires Deleting(s, c) && root in s.contexts.entries && s.contexts.RejectionOf(root).None?
    requires Ascending.Strictly(Callouts.Ids(made))
    ensures var (u, sweep) := FailEach(s, root, made, ended);
      SweepEnds(s, u, sweep, c, made, ended)
    decreases |made|
  {
    var (u, sweep) := FailEach(s, root, made, ended);
    if made == [] {
      assert sweep.ended[|ended|..] == [];
    } else {
      TailAscends(made);
      var id := made[0].id;
      if id !in s.callouts.open {
        FailEachSweeps(s, c, root, made[1..], ended);
        SweepSkips(s, u, sweep, c, made, ended);
      } else {
        AcceptedMayRun(s, root, FailureCallback(made[0].kind));
        DeliverInDeletion(s, root, id, FailureCallback(made[0].kind), c);
        var (v, ret) := Deliver(s, root, Some(id), FailureCallback(made[0].kind), true);
        if ret.Returned? {
          RosterMovesKeeps(s.contexts, v.contexts, root);
          FailEachSweeps(v, c, root, made[1..], ended + [id]);
          SweepDelivers(s, v, u, sweep, c, made, ended);
        }
      }
    }
  }

  lemma TailAscends(made: seq<Callouts.Made>)
    requires made != [] && Ascending.Strictly(Callouts.Ids(made))
    ensures Ascending.Strictly(Callouts.Ids(made[1..]))
    ensures forall id :: id in Callouts.Ids(made) <==> id == made[0].id || id in Callouts.Ids(made[1..])
    ensures forall id :: id in Callouts.Ids(made[1..]) ==> made[0].id < id
  {
    assert Callouts.Ids(made) == [made[0].id] + Callouts.Ids(made[1..]);
    var ids := Callouts.Ids(made);
    forall i, j | 0 <= i < j < |made[1..]|
      ensures Callouts.Ids(made[1..])[i] < Callouts.Ids(made[1..])[j]
    {
      assert ids[i + 1] < ids[j + 1];
    }
    forall id | id in Callouts.Ids(made[1..])
      ensures made[0].id < id
    {
      var i :| 0 <= i < |made[1..]| && Callouts.Ids(made[1..])[i] == id;
      assert ids[0] < ids[i + 1];
    }
  }

  /** One step on the first of `made`, then the sweep of the others. */
  lemma SweptMore(s: State, v: State, u: State, c: ContextId, made: seq<Callouts.Made>, first: Ids, rest: Ids)
    requires made != [] && Ascending.Strictly(Callouts.Ids(made))
    requires first == [] || first == [made[0].id]
    requires RosterMoves(s.contexts, v.contexts) && Progress(s, v, c, first, []) && v.served == s.served
    requires made[0].id in v.callouts.open ==> v.callouts.open[made[0].id].caller != c
    requires IsSwept(v, u, c, made[1..], rest)
    ensures IsSwept(s, u, c, made, first + rest)
  {
    RosterMovesCompose(s.contexts, v.contexts, u.contexts);
    ProgressComposes(s, v, u, c, first, rest, [], []);
    TailAscends(made);
    forall m | m in made && m.id in u.callouts.open
      ensures u.callouts.open[m.id].caller != c
    {
      if m == made[0] {
        assert Kept(v.callouts.open, u.callouts.open, m.id) || u.callouts.open[m.id].caller != c;
      } else {
        assert m in made[1..];
      }
    }
    assert Ascending.Strictly(first + rest) by {
      forall i | 0 <= i < |rest|
        ensures first != [] ==> first[0] < rest[i]
      {
        assert rest[i] in rest && rest[i] in Callouts.Ids(made[1..]);
      }
    }
  }

  // ---- A drop ----

  /** Whether `c` has no open callout. */
  ghost predicate NoneOf(open: Open, c: ContextId) {
    forall id :: id in open ==> open[id].caller != c
  }

  lemma DropsTell(log: seq<Event>, made: seq<Callouts.Made>)
    ensures log <= log + Drops(made)
    ensures TellsOf(log, log + Drops(made), Dropped, Callouts.Ids(made))
    ensures TellsOf(log, log + Drops(made), Delivered, [])
  {
    forall id: Callouts.CalloutId
      ensures Ended(id, Dropped) in Drops(made) <==> id in Callouts.Ids(made)
    {
      if id in Callouts.Ids(made) {
        var i :| 0 <= i < |made| && Callouts.Ids(made)[i] == id;
        assert Drops(made)[i] == Ended(id, Dropped);
      }
      if Ended(id, Dropped) in Drops(made) {
        var i :| 0 <= i < |made| && Drops(made)[i] == Ended(id, Dropped);
        assert Callouts.Ids(made)[i] == id;
      }
    }
  }

  lemma MadeByLists(t: Callouts.Table, c: ContextId)
    ensures var made := t.MadeBy(c);
      && (forall m :: m in made ==> m.id in t.open && m.id in Callouts.Ids(made))
      && (forall i, j :: 0 <= i < j < |made| ==> made[i].id != made[j].id)
      && (forall id :: id in Callouts.Ids(made) ==> exists m :: m in made && m.id == id)
  {
    var made := t.MadeBy(c);
    forall m | m in made
      ensures m.id in Callouts.Ids(made)
    {
      var i :| 0 <= i < |made| && made[i] == m;
      assert Callouts.Ids(made)[i] == m.id;
    }
    forall i, j | 0 <= i < j < |made|
      ensures made[i].id != made[j].id
    {
      assert Callouts.Ids(made)[i] < Callouts.Ids(made)[j];
    }
    forall id | id in Callouts.Ids(made)
      ensures exists m :: m in made && m.id == id
    {
      var i :| 0 <= i < |made| && Callouts.Ids(made)[i] == id;
      assert made[i] in made && made[i].id == id;
    }
  }

  lemma DropKeepsSound(s: State, c: ContextId)
    requires Sound(s) && s.AtRest()
    ensures Sound(DropOpen(s, c).0)
  {
    var made := s.callouts.MadeBy(c);
    MadeByLists(s.callouts, c);
    LedgerDrops(s.callouts, s.log, made, s.maximum);
    DropsTell(s.log, made);
    ChronicleKept(s.log, s.log + Drops(made), s.contexts, s.contexts, s.scope, s.served);
  }

  lemma DropLeaves(t: Callouts.Table, c: ContextId)
    ensures var u := t.Drop(t.MadeBy(c));
      && u.reserved == t.reserved
      && (forall id :: id in u.open <==> id in t.open && t.open[id].caller != c)
      && (forall id :: id in u.open ==> u.open[id] == t.open[id])
  {
    var made := t.MadeBy(c);
    MadeByLists(t, c);
    Callouts.DropRemovesExactly(t, made);
  }

  lemma SomeId(ids: Ids)
    ensures ids != [] ==> exists id :: id in ids
  {
    if ids != [] {
      assert ids[0] in ids;
    }
  }

  lemma DropOpenDrops(s: State, c: ContextId)
    requires Sound(s) && s.AtRest()
    ensures var (u, ended) := DropOpen(s, c);
      && Sound(u) && u == s.(callouts := u.callouts, log := u.log)
      && NoneOf(u.callouts.open, c)
      && Progress(s, u, c, [], ended)
      && Ascending.Strictly(ended)
      && (forall id :: id in ended <==> id in s.callouts.open && s.callouts.open[id].caller == c)
      && (forall id :: id in u.callouts.open ==> id in s.callouts.open && u.callouts.open[id] == s.callouts.open[id])
      && (NoneOf(s.callouts.open, c) ==> ended == [])
  {
    hide Ledger, Chronicle;
    var ended := DropOpen(s, c).1;
    DropKeepsSound(s, c);
    DropLeaves(s.callouts, c);
    DropsTell(s.log, s.callouts.MadeBy(c));
    SomeId(ended);
  }

  lemma DropKeepsDeleting(s: State, c: ContextId)
    requires Deleting(s, c)
    ensures Deleting(DropOpen(s, c).0, c)
  {
    DropOpenDrops(s, c);
    var u := DropOpen(s, c).0;
    forall id | id in u.callouts.open
      ensures Openable(u.contexts, None, u.callouts.open[id])
    {
      assert s.callouts.open[id].caller == c || Openable(s.contexts, None, s.callouts.open[id]);
    }
  }

  // ---- The failures of a context ----

  /** What the failures of `c` did: none of its callouts is open, each was
      delivered, or dropped under a refused root, or ended by the guest. */
  ghost predicate AllFailed(s: State, u: State, c: ContextId, root: ContextId, ended: Ids) {
    && Deleting(u, c) && RosterMoves(s.contexts, u.contexts) && u.served == s.served
    && NoneOf(u.callouts.open, c)
    && Ascending.Strictly(ended)
    && (forall id :: id in ended ==> id in s.callouts.open && s.callouts.open[id].caller == c)
    && if s.contexts.RejectionOf(root).Some? then Progress(s, u, c, [], ended) else Progress(s, u, c, ended, [])
  }

  lemma FailOpenFails(s: State, c: ContextId, root: ContextId)
    requires Deleting(s, c) && root in s.contexts.entries
    ensures var (u, sweep) := FailOpen(s, c, root);
      && Sound(u)
      && (sweep.Broken? ==> !sweep.ret.Returned? && Left(u, sweep.ret))
      && (sweep.Swept? ==> AllFailed(s, u, c, root, sweep.ended))
  {
    var (u, sweep) := FailOpen(s, c, root);
    if s.contexts.RejectionOf(root).Some? {
      DropOpenDrops(s, c);
      DropKeepsDeleting(s, c);
    } else {
      var made := s.callouts.MadeBy(c);
      FailEachSweeps(s, c, root, made, []);
      if sweep.Swept? {
        assert sweep.ended[0..] == sweep.ended;
        SweptNone(s, u, c, made, sweep.ended);
      }
    }
  }

  lemma SweptNone(s: State, u: State, c: ContextId, made: seq<Callouts.Made>, ended: Ids)
    requires IsSwept(s, u, c, made, ended) && made == s.callouts.MadeBy(c)
    ensures NoneOf(u.callouts.open, c)
  {
    forall id | id in Callouts.Ids(made)
      ensures id in u.callouts.open ==> u.callouts.open[id].caller != c
    {
      var i :| 0 <= i < |made| && Callouts.Ids(made)[i] == id;
      assert made[i] in made;
    }
  }

  // ---- The deletion ----

  lemma ForgottenKeepsChronicle(s: State, c: ContextId)
    requires Sound(s) && c in s.contexts.entries
    ensures Chronicle(s.log + [Deleted(c)], s.contexts.Remove(c), s.scope, s.served)
  {
    var t := s.contexts.Remove(c);
    ChronicleKept(s.log, s.log, s.contexts, t, s.scope, s.served);
    ChronicleGrows(s.log, Deleted(c), t, s.scope, s.served);
  }

  lemma ForgottenKeepsPeriods(s: State, c: ContextId)
    requires PeriodsKnown(s.contexts, s.grants)
    ensures PeriodsKnown(s.contexts.Remove(c), s.grants) && PeriodsKnown(s.contexts.Remove(c), s.grants.Forget(c))
  {
  }

  lemma ForgottenKeepsSound(s: State, c: ContextId)
    requires Sound(s) && c in s.contexts.entries && !s.contexts.HasChildren(c)
    ensures Sound(Forgotten(s, c, s.contexts.Parent(c)))
  {
    hide Ledger, Chronicle, PeriodsKnown;
    RemoveKeepsForest(s.contexts, c);
    ForgottenKeepsChronicle(s, c);
    ForgottenKeepsPeriods(s, c);
    LedgerIgnores(s.callouts, s.log, Deleted(c), s.poisoned, s.maximum);
    assert s.contexts.SoundEntry(s.contexts.entries[c]);
    if s.contexts.Parent(c).None? {
      Grants.ForgetKeepsSound(s.grants, s.contexts, c);
    } else {
      Grants.StreamRemovalKeepsSound(s.grants, s.contexts, c);
    }
  }

  lemma ForgottenKeepsDeleting(s: State, c: ContextId)
    requires Deleting(s, c) && c in s.contexts.entries && !s.contexts.HasChildren(c)
    ensures Deleting(Forgotten(s, c, s.contexts.Parent(c)), c)
    ensures Progress(s, Forgotten(s, c, s.contexts.Parent(c)), c, [], [])
  {
    ForgottenKeepsSound(s, c);
    Appended(s.log, Deleted(c));
    var t := s.contexts.Remove(c);
    forall id | id in s.callouts.open
      ensures s.callouts.open[id].caller == c || Openable(t, None, s.callouts.open[id])
    {
      var callout := s.callouts.open[id];
      if callout.caller != c {
        assert t.RootOf(callout.caller) == s.contexts.RootOf(callout.caller);
      }
    }
  }

  /** The end of a deletion: the table lost the context and every callout of it,
      and `ended` names the callouts the deletion ended itself. */
  ghost predicate Deletes(s: State, u: State, c: ContextId, ended: Ids) {
    && Deleting(u, c)
    && u.contexts.entries.Keys == s.contexts.entries.Keys - {c}
    && u.contexts.next == s.contexts.next && u.contexts.vmRejected == s.contexts.vmRejected
    && (forall id :: id in u.contexts.entries ==> EntryMoves(s.contexts.entries[id], u.contexts.entries[id]))
    && NoneOf(u.callouts.open, c)
    && Ascending.Strictly(ended)
    && (forall id :: id in ended ==> id in s.callouts.open && s.callouts.open[id].caller == c)
    && if s.contexts.RejectionOf(c).Some? then Progress(s, u, c, [], ended) else Progress(s, u, c, ended, [])
  }

  lemma ProgressOfNone(s: State, u: State, c: ContextId, delivered: Ids, dropped: Ids)
    requires Progress(s, u, c, delivered, dropped) && NoneOf(s.callouts.open, c)
    ensures NoneOf(u.callouts.open, c)
  {
  }

  /** The last drop of a deletion finds nothing. */
  lemma LastDropFindsNothing(s: State, c: ContextId)
    requires Sound(s) && s.AtRest() && NoneOf(s.callouts.open, c)
    ensures DropOpen(s, c) == (s, [])
  {
    DropOpenDrops(s, c);
    var made := s.callouts.MadeBy(c);
    assert |made| == |Callouts.Ids(made)| == 0;
    assert s.log + Drops(made) == s.log;
  }

  /** The callback of the delete itself. */
  lemma RunsDelete(s: State, c: ContextId)
    requires Deleting(s, c) && s.contexts.PhaseOf(c) == Some(Done)
    requires s.contexts.TypeOf(c) == Some(Stream) ==> s.served == Some(c)
    ensures var (u, ret) := Run(s, c, ContextDelete, 0);
      && Sound(u)
      && Left(u, ret)
      && (ret.Returned? ==>
            Deleting(u, c) && RosterMoves(s.contexts, u.contexts) && Progress(s, u, c, [], []) && u.served == s.served)
  {
    RunInDeletion(s, c, ContextDelete, c);
  }

  /** The callback ran, and the context is gone. */
  lemma RunsAndForgets(s: State, c: ContextId)
    requires Deleting(s, c) && s.contexts.PhaseOf(c) == Some(Done) && !s.contexts.HasChildren(c)
    requires s.contexts.TypeOf(c) == Some(Stream) ==> s.served == Some(c)
    ensures var (u, ret) := Run(s, c, ContextDelete, 0);
      && Sound(u)
      && Left(u, ret)
      && (ret.Returned? ==>
            && RosterMoves(s.contexts, u.contexts) && u.served == s.served
            && Deleting(Forgotten(u, c, s.contexts.Parent(c)), c)
            && Progress(s, Forgotten(u, c, s.contexts.Parent(c)), c, [], []))
  {
    RunsDelete(s, c);
    var (u, ret) := Run(s, c, ContextDelete, 0);
    if ret.Returned? {
      RosterMovesKeeps(s.contexts, u.contexts, c);
      ForgottenKeepsDeleting(u, c);
      ProgressComposes(s, u, Forgotten(u, c, s.contexts.Parent(c)), c, [], [], [], []);
    }
  }

  /** How a deletion comes back. */
  ghost predicate DeleteEnds(s: State, u: State, answer: Answer, c: ContextId) {
    && Sound(u)
    && (answer.EndedCallouts? ==> Deletes(s, u, c, answer.ended))
    && (!answer.EndedCallouts? ==>
          !u.AtRest() && u.current.Some? == answer.Unwound? && answer.OutOfService())
  }

  lemma RootEnds(s: State, failed: State, deleted: State, c: ContextId, ended: Ids)
    requires AllFailed(s, failed, c, c, ended) && RosterMoves(failed.contexts, deleted.contexts)
    requires Deleting(Forgotten(deleted, c, None), c) && Progress(failed, Forgotten(deleted, c, None), c, [], [])
    requires c in s.contexts.entries
    ensures Deletes(s, Forgotten(deleted, c, None), c, ended)
  {
    var gone := Forgotten(deleted, c, None);
    RosterMovesCompose(s.contexts, failed.contexts, deleted.contexts);
    ProgressOfNone(failed, gone, c, [], []);
    if s.contexts.RejectionOf(c).Some? {
      ProgressComposes(s, failed, gone, c, [], [], ended, []);
    } else {
      ProgressComposes(s, failed, gone, c, ended, [], [], []);
    }
    assert ended + [] == ended;
  }

  /** The answer of the deletion of a root is what its sweep ended, because the last
      drop finds nothing. */
  lemma RootAnswers(s: State, c: ContextId)
    requires Deleting(s, c) && s.contexts.PhaseOf(c) == Some(Done) && !s.contexts.HasChildren(c)
    requires s.contexts.Parent(c).None?
    ensures var (failed, first) := FailOpen(s, c, c);
      var (deleted, ret) := Run(failed, c, ContextDelete, 0);
      first.Swept? && ret.Returned? ==>
        && Deletes(s, Forgotten(deleted, c, None), c, first.ended)
        && Delete(s, c) == (Forgotten(deleted, c, None), EndedCallouts(first.ended))
  {
    hide FailOpen, Run, Progress, Kept, Ledger, Chronicle;
    assert s.contexts.SoundEntry(s.contexts.entries[c]);
    FailOpenFails(s, c, c);
    var (failed, first) := FailOpen(s, c, c);
    if first.Swept? {
      RosterMovesKeeps(s.contexts, failed.contexts, c);
      RunsAndForgets(failed, c);
      var (deleted, ret) := Run(failed, c, ContextDelete, 0);
      if ret.Returned? {
        RootEnds(s, failed, deleted, c, first.ended);
        LastDropFindsNothing(Forgotten(deleted, c, None), c);
        assert Delete(s, c) == (Forgotten(deleted, c, None), EndedCallouts(first.ended + [] + []));
        assert first.ended + [] + [] == first.ended;
      }
    }
  }

  /** A root: the failures, the callback, the removal, and nothing left to drop. */
  lemma RootDeletes(s: State, c: ContextId)
    requires Deleting(s, c) && s.contexts.PhaseOf(c) == Some(Done) && !s.contexts.HasChildren(c)
    requires s.contexts.Parent(c).None?
    ensures var (u, answer) := Delete(s, c);
      DeleteEnds(s, u, answer, c)
  {
    assert s.contexts.SoundEntry(s.contexts.entries[c]);
    FailOpenFails(s, c, c);
    RootAnswers(s, c);
    var (failed, first) := FailOpen(s, c, c);
    if first.Swept? {
      RosterMovesKeeps(s.contexts, failed.contexts, c);
      RunsAndForgets(failed, c);
    }
  }

  /** A sweep after which nothing is left to drop. */
  lemma ConcludesWithTheSweep(gone: State, c: ContextId, root: ContextId)
    ensures var (swept, sweep) := FailOpen(gone, c, root);
      var (u, answer) := Conclude(gone, c, Some(root), []);
      && (sweep.Broken? ==> u == swept && answer == Report(sweep.ret))
      && (sweep.Swept? && DropOpen(swept, c) == (swept, []) ==> u == swept && answer == EndedCallouts(sweep.ended))
  {
    var (swept, sweep) := FailOpen(gone, c, root);
    if sweep.Swept? {
      assert [] + sweep.ended + [] == sweep.ended;
    }
  }

  /** The failures of a stream, which come after its removal. */
  lemma StreamFails(s: State, deleted: State, c: ContextId, root: ContextId)
    requires s.contexts.Forest() && s.contexts.Parent(c) == Some(root)
    requires RosterMoves(s.contexts, deleted.contexts)
    requires Deleting(Forgotten(deleted, c, Some(root)), c) && Progress(s, Forgotten(deleted, c, Some(root)), c, [], [])
    ensures var (swept, second) := FailOpen(Forgotten(deleted, c, Some(root)), c, root);
      && Sound(swept)
      && (second.Broken? ==> !second.ret.Returned? && Left(swept, second.ret))
      && (second.Swept? ==> Deletes(s, swept, c, second.ended) && DropOpen(swept, c) == (swept, []))
  {
    var gone := Forgotten(deleted, c, Some(root));
    RootOfTheGone(s, deleted, c);
    FailOpenFails(gone, c, root);
    var (swept, second) := FailOpen(gone, c, root);
    if second.Swept? {
      LastDropFindsNothing(swept, c);
      StreamEnds(s, deleted, gone, swept, c, root, second.ended);
    }
  }

  lemma EndsWithTheSweep(s: State, swept: State, second: Sweep, u: State, answer: Answer, c: ContextId)
    requires Sound(swept)
    requires match second
      case Broken(ret) =>
        && !ret.Returned? && Left(swept, ret)
        && u == swept && answer == Report(ret)
      case Swept(ended) => Deletes(s, swept, c, ended) && u == swept && answer == EndedCallouts(ended)
    ensures DeleteEnds(s, u, answer, c)
  {
  }

  lemma StreamConcludes(s: State, deleted: State, c: ContextId, root: ContextId)
    requires s.contexts.Forest() && s.contexts.Parent(c) == Some(root)
    requires RosterMoves(s.contexts, deleted.contexts)
    requires Deleting(Forgotten(deleted, c, Some(root)), c) && Progress(s, Forgotten(deleted, c, Some(root)), c, [], [])
    ensures var (u, answer) := Conclude(Forgotten(deleted, c, Some(root)), c, Some(root), []);
      DeleteEnds(s, u, answer, c)
  {
    var gone := Forgotten(deleted, c, Some(root));
    StreamFails(s, deleted, c, root);
    ConcludesWithTheSweep(gone, c, root);
    var (swept, second) := FailOpen(gone, c, root);
    var (u, answer) := Conclude(gone, c, Some(root), []);
    EndsWithTheSweep(s, swept, second, u, answer, c);
  }

  /** The answer of the deletion of a stream is what its sweep ended. */
  lemma StreamAnswers(s: State, c: ContextId)
    requires Deleting(s, c) && s.contexts.PhaseOf(c) == Some(Done) && !s.contexts.HasChildren(c)
    requires s.contexts.Parent(c).Some? && s.served == Some(c)
    requires Delete(s, c).1.EndedCallouts?
    ensures var root := s.contexts.Parent(c);
      var (deleted, ret) := Run(s, c, ContextDelete, 0);
      var gone := Forgotten(deleted, c, root);
      var (swept, sweep) := FailOpen(gone, c, root.value);
      && ret.Returned? && sweep.Swept?
      && Delete(s, c) == (swept, EndedCallouts(sweep.ended))
      && gone.contexts.RejectionOf(root.value) == s.contexts.RejectionOf(c)
  {
    hide FailOpen, DropOpen, Run;
    RunsAndForgets(s, c);
    var root := s.contexts.Parent(c).value;
    var (deleted, ret) := Run(s, c, ContextDelete, 0);
    if ret.Returned? {
      var gone := Forgotten(deleted, c, Some(root));
      StreamFails(s, deleted, c, root);
      RootOfTheGone(s, deleted, c);
      ConcludesWithTheSweep(gone, c, root);
      assert Delete(s, c) == Conclude(gone, c, Some(root), []);
      assert FailOpen(gone, c, root).1.Swept?;
    }
  }

  /** A stream: the callback, the removal, the failures on its root, and nothing
      left to drop. */
  lemma StreamDeletes(s: State, c: ContextId)
    requires Deleting(s, c) && s.contexts.PhaseOf(c) == Some(Done) && !s.contexts.HasChildren(c)
    requires s.contexts.Parent(c).Some? && s.served == Some(c)
    ensures var (u, answer) := Delete(s, c);
      DeleteEnds(s, u, answer, c)
  {
    RunsAndForgets(s, c);
    var (deleted, ret) := Run(s, c, ContextDelete, 0);
    if ret.Returned? {
      StreamConcludes(s, deleted, c, s.contexts.Parent(c).value);
    }
  }

  /** The root of a removed stream is there, and refused exactly when the stream
      was. */
  lemma RootOfTheGone(s: State, deleted: State, c: ContextId)
    requires s.contexts.Forest() && RosterMoves(s.contexts, deleted.contexts)
    requires s.contexts.Parent(c).Some?
    ensures var root := s.contexts.Parent(c).value;
      && root in Forgotten(deleted, c, Some(root)).contexts.entries
      && deleted.contexts.Parent(c) == Some(root)
      && Forgotten(deleted, c, Some(root)).contexts.RejectionOf(root) == s.contexts.RejectionOf(c)
  {
    var root := s.contexts.Parent(c).value;
    RosterMovesKeeps(s.contexts, deleted.contexts, c);
    RosterMovesKeeps(s.contexts, deleted.contexts, root);
    assert s.contexts.SoundEntry(s.contexts.entries[c]);
    assert s.contexts.SoundEntry(s.contexts.entries[root]);
  }

  lemma StreamEnds(s: State, deleted: State, gone: State, swept: State, c: ContextId, root: ContextId, ended: Ids)
    requires Progress(s, gone, c, [], []) && RosterMoves(s.contexts, deleted.contexts)
    requires gone == Forgotten(deleted, c, Some(root)) && c in s.contexts.entries
    requires gone.contexts.RejectionOf(root) == s.contexts.RejectionOf(c)
    requires AllFailed(gone, swept, c, root, ended)
    ensures Deletes(s, swept, c, ended)
  {
    if s.contexts.RejectionOf(c).Some? {
      ProgressComposes(s, gone, swept, c, [], [], [], ended);
    } else {
      ProgressComposes(s, gone, swept, c, [], ended, [], []);
    }
    assert [] + ended == ended;
    forall id | id in swept.contexts.entries
      ensures EntryMoves(s.contexts.entries[id], swept.contexts.entries[id])
    {
      assert EntryMoves(s.contexts.entries[id], deleted.contexts.entries[id]);
      assert EntryMoves(gone.contexts.entries[id], swept.contexts.entries[id]);
    }
  }

  /** The mark of the deletion, which `on_delete` sets after its checks. */
  lemma MarkedIsDeleting(s: State, c: ContextId)
    requires Inv(s) && s.AtRest()
    ensures Deleting(s.(deleting := Some(c)), c)
  {
  }

  lemma DeletesKeepsInv(s: State, u: State, c: ContextId, ended: Ids)
    requires Deletes(s, u, c, ended)
    ensures Inv(u.(deleting := None))
  {
    forall id | id in u.callouts.open
      ensures Openable(u.contexts, None, u.callouts.open[id])
    {
      assert u.callouts.open[id].caller != c;
    }
  }

  /** Both orders of a deletion end it the same way. */
  lemma MarkedDeletes(s: State, c: ContextId)
    requires Deleting(s, c) && s.contexts.PhaseOf(c) == Some(Done) && !s.contexts.HasChildren(c)
    requires s.contexts.TypeOf(c) == Some(Stream) ==> s.served == Some(c)
    ensures var (u, answer) := Delete(s, c);
      DeleteEnds(s, u, answer, c)
  {
    assert s.contexts.SoundEntry(s.contexts.entries[c]);
    if s.contexts.Parent(c).None? {
      RootDeletes(s, c);
    } else {
      StreamDeletes(s, c);
    }
  }

  /** The end of the mark, which a panic alone leaves. */
  lemma MarkEnds(s: State, after: State, answer: Answer, c: ContextId)
    requires DeleteEnds(s, after, answer, c)
    ensures Inv(if answer.Unwound? then after else after.(deleting := None))
  {
    if answer.EndedCallouts? {
      DeletesKeepsInv(s, after, c, answer.ended);
    }
  }

  lemma DeletesFromTheMark(s0: State, marked: State, u: State, c: ContextId, ended: Ids)
    requires marked == s0.(served := marked.served, deleting := Some(c))
    requires Deletes(marked, u, c, ended)
    ensures Deletes(s0, u, c, ended)
  {
  }

  lemma OnDeleteDeletes(s0: State, c: ContextId)
    requires Inv(s0)
    ensures var (u, answer) := OnDelete(s0, c);
      && Inv(u)
      && (answer.EndedCallouts? ==>
            && s0.AtRest() && s0.contexts.PhaseOf(c) == Some(Done) && !s0.contexts.HasChildren(c)
            && Deletes(s0, u.(deleting := Some(c)), c, answer.ended))
      && (s0.AtRest() ==> (u.AtRest() <==> !answer.OutOfService()))
  {
    LiveIsAtRest(s0);
    var live := RequireLive(s0);
    if !live.poisoned {
      ServedKeepsSound(live, c);
      var (s, other) := ServedStream(live, c);
      if other.None? && RequireDeletable(s.contexts, c).None? {
        MarkedIsDeleting(s, c);
        var marked := s.(deleting := Some(c));
        MarkedDeletes(marked, c);
        var (after, answer) := Delete(marked, c);
        MarkEnds(marked, after, answer, c);
        if answer.EndedCallouts? {
          DeletesFromTheMark(s0, marked, after, c, answer.ended);
        }
      }
    }
  }
}
