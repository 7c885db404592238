/** Isolation of roots over whole calls and runs, deletions included: a call concerns
    one root, and every other root keeps what it has. */
module RootIsolation {
  import opened Prelude
  import opened Contexts
  import opened States
  import opened GuestCode
  import opened Scope
  import opened Deletion
  import opened Invariants
  import opened Isolation
  import opened Runs
  import Callouts
  import Grants
  import Rely

  /** Every entry under another root is on both sides, and the same. */
  ghost predicate EntriesElsewhere(t: Table, u: Table, root: ContextId) {
    && (forall id :: id in t.entries && t.RootOf(id) != Some(root) ==>
          id in u.entries && u.entries[id] == t.entries[id])
    && (forall id :: id in u.entries && u.RootOf(id) != Some(root) ==>
          id in t.entries && u.entries[id] == t.entries[id])
  }

  /** Nothing that another root has changed, but for the clear of a replaced store. */
  ghost predicate Elsewhere(s: State, u: State, root: ContextId) {
    && EntriesElsewhere(s.contexts, u.contexts, root)
    && CalloutsWithin(s.callouts.open, u.callouts.open, root)
    && GrantsWithin(s.grants, u.grants, root)
  }

  lemma ElsewhereComposes(s: State, u: State, v: State, root: ContextId)
    requires Elsewhere(s, u, root) && Elsewhere(u, v, root)
    ensures Elsewhere(s, v, root)
  {
    hide GrantsWithin;
    GrantsCompose(s.grants, u.grants, v.grants, root);
    forall id | id in s.contexts.entries && s.contexts.RootOf(id) != Some(root)
      ensures id in v.contexts.entries && v.contexts.entries[id] == s.contexts.entries[id]
    {
      assert u.contexts.RootOf(id) == s.contexts.RootOf(id);
    }
    forall id | id in v.contexts.entries && v.contexts.RootOf(id) != Some(root)
      ensures id in s.contexts.entries && v.contexts.entries[id] == s.contexts.entries[id]
    {
      assert u.contexts.RootOf(id) == v.contexts.RootOf(id);
    }
  }

  lemma WithinIsElsewhere(s: State, u: State, root: ContextId)
    requires Within(s, u, root) && SameRoots(s.contexts, u.contexts)
    ensures Elsewhere(s, u, root)
  {
  }

  /** The same tables. */
  lemma SameIsElsewhere(s: State, u: State, root: ContextId)
    requires u.contexts.entries == s.contexts.entries && u.callouts == s.callouts && u.grants == s.grants
    ensures Elsewhere(s, u, root)
  {
    WithinItself(s, root);
  }

  lemma RunElsewhere(s: State, context: ContextId, callback: Callback, default: int, root: ContextId)
    requires Tracked(s) && s.contexts.RootOf(context) == Some(root)
    ensures var u := Run(s, context, callback, default).0;
      Elsewhere(s, u, root) && Tracked(u) && SameRoots(s.contexts, u.contexts)
  {
    hide Run, Within, Elsewhere;
    CallbackStaysWithinItsRoot(s, context, callback, default);
    WithinIsElsewhere(s, Run(s, context, callback, default).0, root);
  }

  lemma DeliverElsewhere(s: State, context: ContextId, callout: Option<Callouts.CalloutId>, callback: Callback,
                         ends: bool, root: ContextId)
    requires Tracked(s) && s.contexts.RootOf(context) == Some(root)
    requires callout.Some? && callout.value in s.callouts.open ==> s.callouts.open[callout.value].root == root
    ensures var u := Deliver(s, context, callout, callback, ends).0;
      Elsewhere(s, u, root) && Tracked(u) && SameRoots(s.contexts, u.contexts)
  {
    hide Deliver, Within, Elsewhere;
    DeliveryStaysWithinItsRoot(s, context, callout, callback, ends);
    WithinIsElsewhere(s, Deliver(s, context, callout, callback, ends).0, root);
  }

  // ---- A deletion ----

  /** The listed callouts that are open are of `root`. */
  ghost predicate Listed(open: Rely.Open, made: seq<Callouts.Made>, root: ContextId) {
    forall m :: m in made && m.id in open ==> open[m.id].root == root
  }

  /** The callouts of `c` are of `root`. */
  ghost predicate CallerUnder(open: Rely.Open, c: ContextId, root: ContextId) {
    forall id :: id in open && open[id].caller == c ==> open[id].root == root
  }

  lemma StaysUnder(s: State, u: State, c: ContextId, root: ContextId)
    requires CallerUnder(s.callouts.open, c, root) && Elsewhere(s, u, root)
    ensures CallerUnder(u.callouts.open, c, root)
  {
  }

  lemma StaysListed(s: State, u: State, made: seq<Callouts.Made>, root: ContextId)
    requires made != [] && Listed(s.callouts.open, made, root) && Elsewhere(s, u, root)
    ensures Listed(u.callouts.open, made[1..], root)
  {
  }

  lemma {:induction false} FailEachElsewhere(s: State, root: ContextId, made: seq<Callouts.Made>,
                                             ended: seq<Callouts.CalloutId>)
    requires Tracked(s) && s.contexts.RootOf(root) == Some(root) && Listed(s.callouts.open, made, root)
    ensures var u := FailEach(s, root, made, ended).0;
      Elsewhere(s, u, root) && Tracked(u) && SameRoots(s.contexts, u.contexts)
    decreases |made|
  {
    hide Deliver, Elsewhere, Tracked;
    SameIsElsewhere(s, s, root);
    if made != [] {
      StaysListed(s, s, made, root);
      if made[0].id !in s.callouts.open {
        FailEachElsewhere(s, root, made[1..], ended);
      } else {
        var callback := FailureCallback(made[0].kind);
        assert made[0] in made;
        DeliverElsewhere(s, root, Some(made[0].id), callback, true, root);
        var (after, ret) := Deliver(s, root, Some(made[0].id), callback, true);
        if ret.Returned? {
          StaysListed(s, after, made, root);
          FailEachElsewhere(after, root, made[1..], ended + [made[0].id]);
          ElsewhereComposes(s, after, FailEach(after, root, made[1..], ended + [made[0].id]).0, root);
        }
      }
    }
  }

  lemma DropElsewhere(s: State, c: ContextId, root: ContextId)
    requires Tracked(s) && CallerUnder(s.callouts.open, c, root)
    ensures var u := DropOpen(s, c).0;
      Elsewhere(s, u, root) && Tracked(u) && SameRoots(s.contexts, u.contexts)
  {
    hide GrantsWithin;
    DropLeaves(s.callouts, c);
    SameIsElsewhere(s, s, root);
  }

  lemma FailOpenElsewhere(s: State, c: ContextId, root: ContextId)
    requires Tracked(s) && s.contexts.RootOf(root) == Some(root) && CallerUnder(s.callouts.open, c, root)
    ensures var u := FailOpen(s, c, root).0;
      Elsewhere(s, u, root) && Tracked(u) && SameRoots(s.contexts, u.contexts)
  {
    hide Elsewhere, Tracked, FailEach, DropOpen, SameRoots;
    var made := s.callouts.MadeBy(c);
    DropElsewhere(s, c, root);
    MadeByUnder(s.callouts, c, root);
    FailEachElsewhere(s, root, made, []);
  }

  lemma MadeByUnder(t: Callouts.Table, c: ContextId, root: ContextId)
    requires CallerUnder(t.open, c, root)
    ensures Listed(t.open, t.MadeBy(c), root)
  {
    MadeByLists(t, c);
  }

  lemma ForgetElsewhere(g: Grants.Grants, root: ContextId)
    ensures GrantsWithin(g, g.Forget(root), root)
  {
    forall queue: Grants.QueueId
      ensures g.Forget(root).Roots(queue) == g.Roots(queue) - {root}
    {
    }
  }

  /** The removal of `c`, which is a root or a stream of one. */
  lemma ForgottenElsewhere(s: State, c: ContextId, root: ContextId)
    requires Tracked(s) && s.contexts.RootOf(c) == Some(root) && !s.contexts.HasChildren(c)
    ensures var u := Forgotten(s, c, s.contexts.Parent(c));
      Elsewhere(s, u, root) && Tracked(u) && (c != root ==> u.contexts.RootOf(root) == s.contexts.RootOf(root))
  {
    hide GrantsWithin;
    RemoveKeepsForest(s.contexts, c);
    ForgetElsewhere(s.grants, root);
    PeriodStaysWithin(s.grants, root, None);
    assert s.contexts.SoundEntry(s.contexts.entries[c]);
    var u := Forgotten(s, c, s.contexts.Parent(c));
    forall id: ContextId | id != c
      ensures u.contexts.RootOf(id) == s.contexts.RootOf(id)
    {
    }
  }

  lemma ConcludeElsewhere(gone: State, c: ContextId, root: ContextId, above: Option<ContextId>,
                          ended: seq<Callouts.CalloutId>)
    requires Tracked(gone) && CallerUnder(gone.callouts.open, c, root)
    requires above.Some? ==> above.value == root && gone.contexts.RootOf(root) == Some(root)
    ensures Elsewhere(gone, Conclude(gone, c, above, ended).0, root)
  {
    hide Elsewhere, Tracked, FailOpen, DropOpen, SameRoots;
    if above.Some? {
      FailOpenElsewhere(gone, c, root);
      var swept := FailOpen(gone, c, root).0;
      StaysUnder(gone, swept, c, root);
      DropElsewhere(swept, c, root);
      ElsewhereComposes(gone, swept, DropOpen(swept, c).0, root);
    } else {
      DropElsewhere(gone, c, root);
    }
  }

  lemma SameRootsSameShape(t: Table, u: Table, c: ContextId)
    requires SameRoots(t, u) && t.Forest() && u.Forest()
    ensures u.Parent(c) == t.Parent(c) && u.HasChildren(c) == t.HasChildren(c)
  {
    forall id | id in t.entries
      ensures u.entries[id].parent == t.entries[id].parent && u.TypeOf(id) == t.TypeOf(id)
    {
      assert u.RootOf(id) == t.RootOf(id);
      assert t.SoundEntry(t.entries[id]) && u.SoundEntry(u.entries[id]);
    }
    if child :| child in t.entries && t.entries[child].parent == Some(c) {
      assert u.entries[child].parent == Some(c);
    }
    if child :| child in u.entries && u.entries[child].parent == Some(c) {
      assert t.entries[child].parent == Some(c);
    }
  }

  /** The root of a context is a root. */
  lemma RootOfRoot(t: Table, c: ContextId)
    requires t.Forest() && c in t.entries
    ensures t.RootOf(c).Some? && t.RootOf(t.RootOf(c).value) == t.RootOf(c)
    ensures t.TypeOf(t.RootOf(c).value) == Some(Root)
    ensures if t.Parent(c).None? then t.RootOf(c) == Some(c) else t.RootOf(c) == t.Parent(c) && t.RootOf(c) != Some(c)
  {
    assert t.SoundEntry(t.entries[c]);
    var root := t.RootOf(c).value;
    assert t.SoundEntry(t.entries[root]);
  }

  /** The callback of a deletion, the removal, and what follows it. */
  lemma EndElsewhere(s: State, c: ContextId, root: ContextId, ended: seq<Callouts.CalloutId>)
    requires Tracked(s) && s.contexts.RootOf(c) == Some(root) && !s.contexts.HasChildren(c)
    requires CallerUnder(s.callouts.open, c, root)
    ensures var (deleted, ret) := Run(s, c, ContextDelete, 0);
      var above := s.contexts.Parent(c);
      && Elsewhere(s, deleted, root)
      && Elsewhere(s, Conclude(Forgotten(deleted, c, above), c, above, ended).0, root)
  {
    hide Elsewhere, Conclude, Run;
    var above := s.contexts.Parent(c);
    RootOfRoot(s.contexts, c);
    RunElsewhere(s, c, ContextDelete, 0, root);
    var deleted := Run(s, c, ContextDelete, 0).0;
    SameRootsSameShape(s.contexts, deleted.contexts, c);
    var gone := Forgotten(deleted, c, above);
    ForgottenElsewhere(deleted, c, root);
    ElsewhereComposes(s, deleted, gone, root);
    StaysUnder(s, gone, c, root);
    ConcludeElsewhere(gone, c, root, above, ended);
    ElsewhereComposes(s, gone, Conclude(gone, c, above, ended).0, root);
  }

  lemma DeleteElsewhere(s: State, c: ContextId, root: ContextId)
    requires Tracked(s) && s.contexts.RootOf(c) == Some(root) && !s.contexts.HasChildren(c)
    requires CallerUnder(s.callouts.open, c, root)
    ensures Elsewhere(s, Delete(s, c).0, root)
  {
    hide Elsewhere, Conclude, Run, FailOpen, SameRoots, CallerUnder;
    var above := s.contexts.Parent(c);
    RootOfRoot(s.contexts, c);
    if above.None? {
      FailOpenElsewhere(s, c, c);
      var (failed, first) := FailOpen(s, c, c);
      if first.Swept? {
        SameRootsSameShape(s.contexts, failed.contexts, c);
        StaysUnder(s, failed, c, root);
        SameRootOf(s.contexts, failed.contexts, c);
        EndElsewhere(failed, c, root, first.ended);
        var deleted := Run(failed, c, ContextDelete, 0).0;
        ElsewhereComposes(s, failed, deleted, root);
        ElsewhereComposes(s, failed, Conclude(Forgotten(deleted, c, above), c, above, first.ended).0, root);
      }
    } else {
      EndElsewhere(s, c, root, []);
    }
  }

  lemma SameRootOf(t: Table, u: Table, c: ContextId)
    requires SameRoots(t, u)
    ensures u.RootOf(c) == t.RootOf(c)
  {
  }

  // ---- The calls ----

  /** The call concerns a context, and not the scope, the store or the changes. */
  predicate OnContext(op: Op) {
    !op.EnterScope? && !op.FinishScope? && !op.LoseScope? && !op.InstallStore? && !op.ReadChanges?
  }

  /** The context that a call is about: a new root is about the identifier it gets. */
  function Subject(s: State, op: Op): ContextId
    requires OnContext(op)
  {
    match op
    case Create(None) => s.contexts.next
    case Create(Some(root)) => root
    case DeclareKind(id, _) => id
    case StartVm(root, _) => root
    case ConfigureRoot(root, _) => root
    case CallStream(id, _, _) => id
    case TellStream(id, _) => id
    case AnswerHttp(id, _, _) => id
    case AnswerGrpc(id, _, _, _) => id
    case CallForeign(id, _) => id
    case TickRoot(root) => root
    case QueueIsReady(root, _) => root
    case EndContext(id) => id
    case LogContext(id) => id
    case DeleteContext(id) => id
  }

  /** The root that a call is about. */
  function Concerned(s: State, op: Op): ContextId
    requires OnContext(op)
  {
    s.contexts.RootOf(Subject(s, op)).GetOr(Subject(s, op))
  }

  lemma EntryElsewhere(s: State, u: State, id: ContextId, root: ContextId)
    requires s.contexts.RootOf(id) == Some(root) && id in u.contexts.entries
    requires u.contexts.entries == s.contexts.entries[id := u.contexts.entries[id]]
    requires u.contexts.entries[id].parent == s.contexts.entries[id].parent
    requires u.callouts == s.callouts && u.grants == s.grants
    ensures Elsewhere(s, u, root)
  {
    WithinItself(s, root);
  }

  lemma CreateElsewhere(s: State, parent: Option<ContextId>)
    requires Inv(s) && s.AtRest()
    ensures Elsewhere(s, OnContextCreate(s, parent).0, Concerned(s, Create(parent)))
  {
    hide Run;
    AtRestIsTracked(s);
    var root := Concerned(s, Create(parent));
    SameIsElsewhere(s, s, root);
    var (t, made) := s.contexts.Create(parent);
    if made.Ok? {
      CreateKeepsForest(s.contexts, parent);
      if parent.Some? {
        RootOfRoot(s.contexts, parent.value);
      }
      var created := s.(contexts := t).Note(Created(made.value, parent.GetOr(made.value)));
      NewIsElsewhere(s, created, made.value, root);
      RunElsewhere(created, made.value, ContextCreate, 0, root);
      ElsewhereComposes(s, created, Run(created, made.value, ContextCreate, 0).0, root);
    }
  }

  lemma NewIsElsewhere(s: State, u: State, id: ContextId, root: ContextId)
    requires Tracked(s) && u.contexts.Forest() && id !in s.contexts.entries
    requires forall c :: c in s.callouts.open ==> s.callouts.open[c].caller in s.contexts.entries
    requires id in u.contexts.entries && u.contexts.entries == s.contexts.entries[id := u.contexts.entries[id]]
    requires u.contexts.RootOf(id) == Some(root) && u.callouts == s.callouts && u.grants == s.grants
    ensures Elsewhere(s, u, root) && Tracked(u)
  {
    WithinItself(s, root);
  }

  lemma KindElsewhere(s: State, id: ContextId, kind: StreamKind, root: ContextId)
    requires Tracked(s) && s.contexts.RootOf(id) == Some(root) && s.contexts.TypeOf(id) == Some(Stream)
    ensures var u := s.(contexts := s.contexts.SetKind(id, kind));
      Elsewhere(s, u, root) && Tracked(u) && u.contexts.RootOf(id) == Some(root)
  {
    var u := s.(contexts := s.contexts.SetKind(id, kind));
    EntryElsewhere(s, u, id, root);
    assert forall other: ContextId :: u.contexts.RootOf(other) == s.contexts.RootOf(other);
    forall other | other in u.contexts.entries
      ensures u.contexts.SoundEntry(u.contexts.entries[other])
    {
      assert s.contexts.SoundEntry(s.contexts.entries[other]);
    }
  }

  lemma StartElsewhere(s: State, root: ContextId, size: nat)
    requires Tracked(s) && s.AtRest()
    ensures Elsewhere(s, OnVmStart(s, root, size).0, s.contexts.RootOf(root).GetOr(root))
    ensures Elsewhere(s, OnConfigure(s, root, size).0, s.contexts.RootOf(root).GetOr(root))
  {
    hide Run, Elsewhere;
    var r := s.contexts.RootOf(root).GetOr(root);
    SameIsElsewhere(s, s, r);
    if root in s.contexts.entries {
      RunElsewhere(s, root, VmStart, 1, r);
      RunElsewhere(s, root, Configure, 1, r);
      var started := Run(s, root, VmStart, 1).0;
      var configured := Run(s, root, Configure, 1).0;
      var unstarted := started.(contexts := started.contexts.RejectVm(root)).Note(RefusedVm);
      var refused := configured.(contexts := configured.contexts.Reject(root)).Note(RefusedRoot(root));
      SameIsElsewhere(started, unstarted, r);
      EntryElsewhere(configured, refused, root, r);
      ElsewhereComposes(s, started, unstarted, r);
      ElsewhereComposes(s, configured, refused, r);
    }
  }

  lemma StreamElsewhere(s: State, id: ContextId, callback: Callback, size: nat)
    requires Tracked(s) && s.AtRest() && callback.Family().Some?
    ensures Elsewhere(s, StreamAction(s, id, callback, size).0, s.contexts.RootOf(id).GetOr(id))
    ensures callback.Family() == Some(Tcp) ==>
      Elsewhere(s, StreamEvent(s, id, callback).0, s.contexts.RootOf(id).GetOr(id))
  {
    hide Run, Elsewhere, Tracked;
    var r := s.contexts.RootOf(id).GetOr(id);
    var kind := callback.Family().value;
    SameIsElsewhere(s, s, r);
    if s.contexts.TypeOf(id) == Some(Stream) {
      KindElsewhere(s, id, kind, r);
      StreamRunElsewhere(s, id, kind, callback, None, r);
      StreamRunElsewhere(s, id, kind, callback, callback.Announces(), r);
    }
  }

  lemma StreamRunElsewhere(s: State, id: ContextId, kind: StreamKind, callback: Callback,
                           announced: Option<BufferType>, r: ContextId)
    requires Tracked(s) && s.AtRest() && s.contexts.RootOf(id) == Some(r) && s.contexts.TypeOf(id) == Some(Stream)
    ensures var u := Run(Scope.Recorded(s, id, kind).(announced := announced), id, callback, 0).0;
      Elsewhere(s, u, r) && Elsewhere(s, u.(announced := None), r)
    ensures Elsewhere(s, Run(Scope.Recorded(s, id, kind), id, callback, 0).0, r)
  {
    hide Run, Elsewhere, Tracked;
    KindElsewhere(s, id, kind, r);
    var kinded := s.(contexts := s.contexts.SetKind(id, kind));
    OneStreamRun(s, kinded, Scope.Recorded(s, id, kind).(announced := announced), id, callback, r);
    OneStreamRun(s, kinded, Scope.Recorded(s, id, kind), id, callback, r);
  }

  lemma OneStreamRun(s: State, kinded: State, recorded: State, id: ContextId, callback: Callback, r: ContextId)
    requires Elsewhere(s, kinded, r) && Tracked(kinded) && kinded.contexts.RootOf(id) == Some(r)
    requires recorded.contexts == kinded.contexts && recorded.callouts == kinded.callouts
    requires recorded.grants == kinded.grants
    ensures var u := Run(recorded, id, callback, 0).0;
      Elsewhere(s, u, r) && Elsewhere(s, u.(announced := None), r)
  {
    hide Run, Elsewhere;
    SameIsElsewhere(kinded, recorded, r);
    ElsewhereComposes(s, kinded, recorded, r);
    RunElsewhere(recorded, id, callback, 0, r);
    var u := Run(recorded, id, callback, 0).0;
    ElsewhereComposes(s, recorded, u, r);
    SameIsElsewhere(u, u.(announced := None), r);
    ElsewhereComposes(s, u, u.(announced := None), r);
  }

  lemma AnswerElsewhere(s: State, context: ContextId, callout: Callouts.CalloutId, response: Response,
                        callback: Callback, size: nat)
    requires Inv(s) && s.AtRest()
    ensures Elsewhere(s, OnHttpCallResponse(s, context, callout, response).0,
                      s.contexts.RootOf(context).GetOr(context))
    ensures Elsewhere(s, OnGrpc(s, context, callout, callback, size).0, s.contexts.RootOf(context).GetOr(context))
  {
    hide Deliver, Elsewhere, Inv;
    AtRestIsTracked(s);
    var r := s.contexts.RootOf(context).GetOr(context);
    SameIsElsewhere(s, s, r);
    if callout in s.callouts.open && s.callouts.open[callout].caller == context {
      CalloutIsOfItsCaller(s, callout);
      var entry := s.callouts.open[callout];
      DeliverElsewhere(s, entry.root, Some(callout), HttpCallResponse, true, r);
      DeliverElsewhere(s, entry.root, Some(callout), callback, GrpcEnds(callback, entry.kind), r);
    }
  }

  lemma CalloutIsOfItsCaller(s: State, callout: Callouts.CalloutId)
    requires Inv(s) && s.AtRest() && callout in s.callouts.open
    ensures var entry := s.callouts.open[callout];
      s.contexts.RootOf(entry.caller) == Some(entry.root) && s.contexts.RootOf(entry.root) == Some(entry.root)
  {
    var entry := s.callouts.open[callout];
    assert Rely.Openable(s.contexts, None, entry);
    RootOfRoot(s.contexts, entry.caller);
  }

  lemma EventsElsewhere(s: State, id: ContextId, size: nat, queue: Grants.QueueId)
    requires Tracked(s) && s.AtRest()
    ensures var r := s.contexts.RootOf(id).GetOr(id);
      && Elsewhere(s, OnForeignFunction(s, id, size).0, r)
      && Elsewhere(s, OnTick(s, id).0, r) && Elsewhere(s, OnQueueReady(s, id, queue).0, r)
  {
    hide Run, Deliver, Elsewhere, Tracked;
    var r := s.contexts.RootOf(id).GetOr(id);
    SameIsElsewhere(s, s, r);
    if id in s.contexts.entries {
      DeliverElsewhere(s, id, None, ForeignFunction, false, r);
      RunElsewhere(s, id, Tick, 0, r);
      RunElsewhere(s, id, QueueReady, 0, r);
    }
  }

  lemma EndCallsElsewhere(s: State, id: ContextId)
    requires Tracked(s) && s.AtRest()
    ensures Elsewhere(s, OnDone(s, id).0, s.contexts.RootOf(id).GetOr(id))
    ensures Elsewhere(s, OnLog(s, id).0, s.contexts.RootOf(id).GetOr(id))
  {
    hide Run, Elsewhere;
    var r := s.contexts.RootOf(id).GetOr(id);
    var served := ServedStream(s, id).0;
    SameIsElsewhere(s, served, r);
    if id in s.contexts.entries {
      RunElsewhere(served, id, ContextDone, 1, r);
      RunElsewhere(served, id, ContextLog, 0, r);
      var done := Run(served, id, ContextDone, 1).0;
      ElsewhereComposes(s, served, done, r);
      ElsewhereComposes(s, served, Run(served, id, ContextLog, 0).0, r);
      EntryElsewhere(done, Finalized(done, id, Done), id, r);
      EntryElsewhere(done, Finalized(done, id, Pending), id, r);
      ElsewhereComposes(s, done, Finalized(done, id, Done), r);
      ElsewhereComposes(s, done, Finalized(done, id, Pending), r);
    }
  }

  lemma OnDeleteElsewhere(s: State, c: ContextId)
    requires Inv(s) && s.AtRest()
    ensures Elsewhere(s, OnDelete(s, c).0, s.contexts.RootOf(c).GetOr(c))
  {
    hide Delete, Elsewhere;
    AtRestIsTracked(s);
    var r := s.contexts.RootOf(c).GetOr(c);
    var served := ServedStream(s, c).0;
    SameIsElsewhere(s, served, r);
    if c in s.contexts.entries && !s.contexts.HasChildren(c) {
      var marked := served.(deleting := Some(c));
      SameIsElsewhere(s, marked, r);
      forall id | id in s.callouts.open && s.callouts.open[id].caller == c
        ensures s.callouts.open[id].root == r
      {
        CalloutIsOfItsCaller(s, id);
      }
      DeleteElsewhere(marked, c, r);
      var after := Delete(marked, c).0;
      ElsewhereComposes(s, marked, after, r);
      SameIsElsewhere(after, after.(deleting := None), r);
      ElsewhereComposes(s, after, after.(deleting := None), r);
    }
  }

  lemma DeclareElsewhere(s: State, id: ContextId, kind: StreamKind)
    requires Tracked(s) && s.AtRest()
    ensures Elsewhere(s, ExpectKind(s, id, kind).0, Concerned(s, DeclareKind(id, kind)))
  {
    hide Elsewhere, Tracked;
    SameIsElsewhere(s, s, Concerned(s, DeclareKind(id, kind)));
    if s.contexts.TypeOf(id) == Some(Stream) {
      KindElsewhere(s, id, kind, Concerned(s, DeclareKind(id, kind)));
    }
  }

  /** A call concerns one root. Whatever the guest does in it, and however it ends,
      every other root keeps its contexts, callouts and periods, gains no
      registration and no report, and loses none but with the grants of a replaced
      store. */
  lemma CallTouchesOneRoot(s: State, op: Op)
    requires Inv(s) && s.AtRest() && op.Typed() && OnContext(op)
    ensures Elsewhere(s, Step(s, op).0, Concerned(s, op))
  {
    hide Elsewhere, Inv, Tracked;
    AtRestIsTracked(s);
    match op {
      case Create(parent) => CreateElsewhere(s, parent);
      case DeclareKind(id, kind) => DeclareElsewhere(s, id, kind);
      case StartVm(root, size) => StartElsewhere(s, root, size);
      case ConfigureRoot(root, size) => StartElsewhere(s, root, size);
      case CallStream(id, callback, size) => StreamElsewhere(s, id, callback, size);
      case TellStream(id, callback) => StreamElsewhere(s, id, callback, 0);
      case AnswerHttp(id, callout, response) => AnswerElsewhere(s, id, callout, response, GrpcClose, 0);
      case AnswerGrpc(id, callout, callback, size) => AnswerElsewhere(s, id, callout, FailedCall, callback, size);
      case CallForeign(id, size) => EventsElsewhere(s, id, size, 0);
      case TickRoot(root) => EventsElsewhere(s, root, 0, 0);
      case QueueIsReady(root, queue) => EventsElsewhere(s, root, 0, queue);
      case EndContext(id) => EndCallsElsewhere(s, id);
      case LogContext(id) => EndCallsElsewhere(s, id);
      case DeleteContext(id) => OnDeleteElsewhere(s, id);
    }
  }

  // ---- Runs ----

  /** No call of the run is about `root`. */
  ghost predicate Spares(s: State, ops: seq<Op>, root: ContextId)
    requires AllTyped(ops)
    decreases |ops|
  {
    ops == [] ||
    (assert ops[0] in ops;
     && (OnContext(ops[0]) ==> Concerned(s, ops[0]) != root)
     && Spares(Step(s, ops[0]).0, ops[1..], root))
  }

  /** The contexts and the callouts of `root` are the same on both sides. */
  ghost predicate Same(s: State, u: State, root: ContextId) {
    && (forall id :: id in s.contexts.entries && s.contexts.RootOf(id) == Some(root) ==>
          id in u.contexts.entries && u.contexts.entries[id] == s.contexts.entries[id])
    && (forall id :: id in u.contexts.entries && u.contexts.RootOf(id) == Some(root) ==>
          id in s.contexts.entries && u.contexts.entries[id] == s.contexts.entries[id])
    && (forall id :: id in s.callouts.open && s.callouts.open[id].root == root ==>
          id in u.callouts.open && u.callouts.open[id] == s.callouts.open[id])
    && (forall id :: id in u.callouts.open && u.callouts.open[id].root == root ==>
          id in s.callouts.open && u.callouts.open[id] == s.callouts.open[id])
  }

  lemma SameComposes(s: State, u: State, v: State, root: ContextId)
    requires Same(s, u, root) && Same(u, v, root)
    ensures Same(s, v, root)
  {
    forall id | id in s.contexts.entries && s.contexts.RootOf(id) == Some(root)
      ensures id in v.contexts.entries && v.contexts.entries[id] == s.contexts.entries[id]
    {
      assert u.contexts.RootOf(id) == s.contexts.RootOf(id);
    }
    forall id | id in v.contexts.entries && v.contexts.RootOf(id) == Some(root)
      ensures id in s.contexts.entries && v.contexts.entries[id] == s.contexts.entries[id]
    {
      assert u.contexts.RootOf(id) == v.contexts.RootOf(id);
    }
  }

  lemma StepKeepsOthers(s: State, op: Op, root: ContextId)
    requires Inv(s) && op.Typed() && (OnContext(op) ==> Concerned(s, op) != root)
    ensures Same(s, Step(s, op).0, root)
  {
    if !s.AtRest() {
      DeadStepIsFrozen(s, op);
    } else if OnContext(op) {
      CallTouchesOneRoot(s, op);
    }
  }

  /** Over any run in which no call is about a root, that root keeps its contexts and
      its callouts, whatever guest code runs for the others. */
  lemma {:induction false} SparedRootIsUntouched(s: State, ops: seq<Op>, root: ContextId)
    requires Inv(s) && AllTyped(ops) && Spares(s, ops, root)
    ensures Same(s, Steps(s, ops), root)
    decreases |ops|
  {
    hide Same;
    if ops == [] {
      SameItself(s, root);
    } else {
      assert ops[0] in ops;
      var next := Step(s, ops[0]).0;
      StepKeepsOthers(s, ops[0], root);
      StepKeepsInv(s, ops[0]);
      SparedRootIsUntouched(next, ops[1..], root);
      SameComposes(s, next, Steps(next, ops[1..]), root);
    }
  }

  lemma SameItself(s: State, root: ContextId)
    ensures Same(s, s, root)
  {
  }
}
