/** What each host function does to a conversation, field by field: which context may
    call it, what it changes then, and that it changes nothing else. */
module HostFunctions {
  import opened Prelude
  import opened Contexts
  import opened States
  import opened GuestCode
  import Callouts
  import Grants

  /** The root that a context hangs under, or the context itself. */
  function Above(t: Table, c: ContextId): ContextId
    requires c in t.entries
  {
    if t.entries[c].parent.Some? then t.entries[c].parent.value else c
  }

  /** The guest acts for `c`: it is effective, it is there, and neither the instance nor
      its root is refused. */
  predicate Acting(s: State, c: ContextId) {
    && s.contexts.effective == Some(c) && c in s.contexts.entries && s.contexts.vmRejected.None?
    && Above(s.contexts, c) in s.contexts.entries && !s.contexts.entries[Above(s.contexts, c)].rejected
  }

  predicate SomeActing(s: State) {
    s.contexts.effective.Some? && Acting(s, s.contexts.effective.value)
  }

  lemma CallerActs(s: State)
    requires s.contexts.Forest()
    ensures s.contexts.Caller() == if SomeActing(s) then s.contexts.effective else None
    ensures SomeActing(s) ==>
      var c := s.contexts.effective.value; s.contexts.RootOf(c) == Some(Above(s.contexts, c))
  {
    if s.contexts.effective.Some? {
      assert s.contexts.SoundEntry(s.contexts.entries[s.contexts.effective.value]);
    }
  }

  // ---- Callouts ----

  /** The callout is open and the guest acts for the context that made it. */
  predicate Mine(s: State, id: Callouts.CalloutId) {
    id in s.callouts.open && Acting(s, s.callouts.open[id].caller)
  }

  /** The state in which the guest ended the callout. */
  function EndedByGuest(s: State, id: Callouts.CalloutId): State {
    s.(callouts := s.callouts.(open := s.callouts.open - {id}), log := s.log + [Ended(id, ByGuest)])
  }

  /** The state in which the guest closed its side of the callout, and nothing else of
      the callout changed. */
  function HalfClosed(s: State, id: Callouts.CalloutId): State
    requires id in s.callouts.open
  {
    var was := s.callouts.open[id];
    s.(callouts := s.callouts.(open :=
         s.callouts.open[id := Callouts.Callout(was.kind, was.caller, was.root, true)]))
  }

  /** A cancel ends a gRPC call and a gRPC stream of the context, and no HTTP call. */
  lemma CancelDoes(s: State, id: Callouts.CalloutId)
    requires s.contexts.Forest()
    ensures Do(s, Cancel(id)) ==
      if Mine(s, id)
         && (s.callouts.open[id].kind == Callouts.GrpcCall || s.callouts.open[id].kind == Callouts.GrpcStream)
      then EndedByGuest(s, id)
      else s
  {
    CallerActs(s);
  }

  /** A close ends a gRPC call, closes the guest's side of a gRPC stream that stays
      open, and leaves an HTTP call alone. */
  lemma CloseDoes(s: State, id: Callouts.CalloutId)
    requires s.contexts.Forest()
    ensures Do(s, Close(id)) ==
      if Mine(s, id) && s.callouts.open[id].kind == Callouts.GrpcCall then EndedByGuest(s, id)
      else if Mine(s, id) && s.callouts.open[id].kind == Callouts.GrpcStream then HalfClosed(s, id)
      else s
  {
    CallerActs(s);
  }

  /** A message closes the guest's side of a gRPC stream when it is the last, the
      service took it, and that side was open. It changes nothing otherwise. */
  lemma SendDoes(s: State, id: Callouts.CalloutId, endOfStream: bool, accepted: bool)
    requires s.contexts.Forest()
    ensures Do(s, Send(id, endOfStream, accepted)) ==
      if Mine(s, id) && s.callouts.open[id] == Callouts.Callout(
           Callouts.GrpcStream, s.contexts.effective.value, s.callouts.open[id].root, false)
         && endOfStream && accepted
      then HalfClosed(s, id)
      else s
  {
    CallerActs(s);
  }

  /** The guest may open a callout. */
  predicate MayOpen(s: State) {
    SomeActing(s) && s.deleting != s.contexts.effective && |s.callouts.open| < s.maximum
  }

  /** A new callout is the only change: its identifier was not open, it is of the kind
      that was asked for, of the context that acts and of its root, and open on both
      sides. An attempt that the service refuses uses up an identifier and no more,
      and one that is not allowed changes nothing. */
  lemma OpenDoes(s: State, kind: Callouts.Kind, accepted: bool)
    requires s.contexts.Forest()
    ensures var u := Do(s, OpenCallout(kind, accepted));
      && (!MayOpen(s) ==> u == s)
      && (MayOpen(s) ==>
            && u == s.(callouts := u.callouts, log := u.log) && u.callouts.reserved == s.callouts.reserved + 1
            && (!accepted ==> u.callouts.open == s.callouts.open && u.log == s.log)
            && (accepted ==> Opens(s, u, kind)))
  {
    CallerActs(s);
    assert |s.callouts.open| == |s.callouts.open.Keys|;
    if MayOpen(s) && accepted {
      var (reserved, id) := s.callouts.Reserve();
      var u := Do(s, OpenCallout(kind, accepted));
      assert u.log == s.log + [Opened(id)];
      Callouts.NthStep(id, 0);
    }
  }

  ghost predicate Opens(s: State, u: State, kind: Callouts.Kind)
    requires SomeActing(s)
  {
    var c := s.contexts.effective.value;
    exists id: Callouts.CalloutId :: u.log == s.log + [Opened(id)] && id !in s.callouts.open
      && u.callouts.open == s.callouts.open[id := Callouts.Callout(kind, c, Above(s.contexts, c), false)]
      && u.callouts.next == if id == U32_MAX then 1 else id + 1
  }

  // ---- Contexts ----

  /** The guest may make another context of the same root effective, as long as that
      root is not refused. */
  lemma SetEffectiveDoes(s: State, id: ContextId)
    requires s.contexts.Forest()
    ensures Do(s, SetEffective(id)) ==
      if s.contexts.effective.Some? && id in s.contexts.entries
         && Above(s.contexts, id) == Above(s.contexts, s.contexts.effective.value)
         && !s.contexts.entries[Above(s.contexts, id)].rejected
      then s.(contexts := s.contexts.(effective := Some(id)))
      else s
  {
    if id in s.contexts.entries {
      assert s.contexts.SoundEntry(s.contexts.entries[id]);
    }
  }

  /** `proxy_done` finishes an effective context that is pending. */
  lemma ProxyDoneDoes(s: State)
    requires s.contexts.Forest()
    ensures var t := s.contexts;
      Do(s, ProxyDone) ==
        if t.effective.Some? && t.entries[t.effective.value].phase == Pending
        then s.(contexts := t.(entries :=
                  t.entries[t.effective.value := t.entries[t.effective.value].(phase := Done)]))
        else s
  {
  }

  /** A period goes to the root of the context that acts, and into the changes. */
  lemma SetTickPeriodDoes(s: State, period: Option<nat>)
    requires s.contexts.Forest()
    ensures var u := Do(s, SetTickPeriod(period));
      if SomeActing(s) then
        var root := Above(s.contexts, s.contexts.effective.value);
        && u == s.(contexts := u.contexts, grants := u.grants)
        && u.contexts == s.contexts.(entries :=
             s.contexts.entries[root := s.contexts.entries[root].(tickPeriod := period)])
        && u.grants == s.grants.(changes := Grants.Changes(
             s.grants.changes.tickPeriods[root := period], s.grants.changes.queues))
      else u == s
  {
    CallerActs(s);
  }

  /** A buffer that is read is announced no longer. */
  lemma ReadBufferDoes(s: State, buffer: BufferType)
    ensures Do(s, ReadBuffer(buffer)) == if s.announced == Some(buffer) then s.(announced := None) else s
  {
  }

  // ---- Queues ----

  /** What the guest has of the store that is installed. */
  predicate IsCurrent(g: Grants.Grants) {
    g.grantedAgainst == Some(g.store)
  }

  function QueuesNow(g: Grants.Grants): set<Grants.QueueId> {
    if IsCurrent(g) then g.queues else {}
  }

  function RootsNow(g: Grants.Grants, queue: Grants.QueueId): set<ContextId> {
    if IsCurrent(g) && queue in g.registrants then g.registrants[queue] else {}
  }

  function WaitingNow(g: Grants.Grants): set<Grants.Registration> {
    if IsCurrent(g) then g.changes.queues else {}
  }

  /** The queue functions, with or without a queue, drop what is of another store. A
      guest that acts gets the queue it asked for, and a registration adds the root
      it acts for to that queue alone and waits to be told when the root is new. */
  lemma QueueCallsDo(s: State, act: Act)
    requires s.contexts.Forest() && (act.RegisterQueue? || act.ResolveQueue? || act.UseQueue?)
    ensures var u := Do(s, act);
      var got := if SomeActing(s) && !act.UseQueue? then act.queue else None;
      && u == s.(grants := u.grants)
      && u.grants.store == s.grants.store && IsCurrent(u.grants)
      && u.grants.changes.tickPeriods == s.grants.changes.tickPeriods
      && QueuesNow(u.grants) == QueuesNow(s.grants) + (if got.Some? then {got.value} else {})
      && if got.Some? && act.RegisterQueue?
         then Registers(s.grants, u.grants, got.value, Above(s.contexts, s.contexts.effective.value), act.name)
         else WaitingNow(u.grants) == WaitingNow(s.grants)
              && forall queue: Grants.QueueId :: RootsNow(u.grants, queue) == RootsNow(s.grants, queue)
  {
    CallerActs(s);
  }

  ghost predicate Registers(g: Grants.Grants, h: Grants.Grants, queue: Grants.QueueId, root: ContextId,
                            name: seq<byte>)
  {
    && RootsNow(h, queue) == RootsNow(g, queue) + {root}
    && (forall other: Grants.QueueId :: other != queue ==> RootsNow(h, other) == RootsNow(g, other))
    && WaitingNow(h) == WaitingNow(g) +
         (if root in RootsNow(g, queue) then {} else {Grants.Registration(queue, root, name)})
  }

  // ---- A script ----

  /** A script runs from its first call to its last. */
  lemma {:induction false} ScriptsRunInOrder(s: State, acts: seq<Act>, last: Act)
    ensures Perform(s, []) == s
    ensures Perform(s, acts + [last]) == Do(Perform(s, acts), last)
    decreases |acts|
  {
    hide Do;
    if acts == [] {
      assert (acts + [last])[1..] == [];
    } else {
      ScriptsRunInOrder(Do(s, acts[0]), acts[1..], last);
      assert (acts + [last])[1..] == acts[1..] + [last];
    }
  }
}
