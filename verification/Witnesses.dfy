/** Conversations that show where a promise ends: concrete guests and calls, from a
    new state. */
module Witnesses {
  import opened Prelude
  import opened Contexts
  import opened States
  import opened GuestCode
  import opened Scope
  import opened Runs
  import opened Theorems
  import Calls
  import Callouts
  import Grants

  lemma PerformNothing(s: State)
    ensures Perform(s, []) == s
  {
  }

  lemma PerformOne(s: State, act: Act)
    ensures Perform(s, [act]) == Do(s, act)
  {
    assert [act][1..] == [];
    PerformNothing(Do(s, act));
  }

  /** Two calls, one after the other. */
  lemma StepsOfTwo(s: State, first: Op, second: Op)
    requires first.Typed() && second.Typed()
    ensures AllTyped([first, second])
    ensures Steps(s, [first, second]) == Step(Step(s, first).0, second).0
  {
    var ops := [first, second];
    var next := Step(s, first).0;
    assert ops[1..] == [second] && [second][1..] == [];
    assert Steps(next, [second]) == Steps(Step(next, second).0, []);
  }

  const FRESH_ROOT: Entry := Entry(Root, None, None, Active, false, None)

  /** The state after a root was made for a guest with no callback for it. */
  lemma RootIsMade(maximum: Maximum, future: seq<Play>)
    requires future == [] || future[0].Absent?
    ensures var s := Step(NewState(0, maximum, future), Create(None)).0;
      && s.AtRest() && s.contexts == Table(map[1 := FRESH_ROOT], 2, Some(1), None)
      && s.callouts == Callouts.NewTable() && s.grants == Grants.NewGrants(0)
      && s.served.None? && s.deleting.None? && s.maximum == maximum
      && s.future == if future == [] then [] else future[1..]
  {
    var n := NewState(0, maximum, future);
    var created := n.contexts.Create(None).0;
    assert created.entries == map[1 := FRESH_ROOT];
  }

  // ---- A panic loses the entry ----

  const PANICS: seq<Play> :=
    [Absent, Play([OPEN_ONE], Return(0)), Play([], Panic)]

  const OPEN_ONE: Act := OpenCallout(Callouts.HttpCall, true)

  /** A callback in which the guest of one root opens an HTTP call, its only one. */
  lemma OpensOne(s: State, callback: Callback)
    requires s.contexts == Table(map[1 := FRESH_ROOT], 2, Some(1), None) && s.deleting.None?
    requires s.callouts.open == map[] && s.callouts.Counting() && s.callouts.reserved < U32_MAX && s.maximum == 1
    requires s.future != [] && s.future[0].Play? && s.future[0].acts == [OPEN_ONE]
    ensures var u := Calls.Played(s, 1, callback);
      && u.contexts == s.contexts && u.future == s.future[1..] && u.deleting.None? && u.poisoned == s.poisoned
      && u.maximum == 1 && u.callouts.Counting() && u.callouts.reserved == s.callouts.reserved + 1
      && u.callouts.open == map[u.callouts.reserved := Callouts.Callout(Callouts.HttpCall, 1, 1, false)]
  {
    var reached := Calls.Reached(Calls.Prepared(s, 1, callback), 1, callback);
    PerformOne(reached, OPEN_ONE);
    Callouts.ReserveCounts(s.callouts);
    assert reached.contexts.Caller() == Some(1) && reached.contexts.RootOf(1) == Some(1);
    assert Calls.Played(s, 1, callback) == OpenOne(reached, Callouts.HttpCall, true);
  }

  /** The same in a tick that returns. */
  lemma TickOpensOne(s: State)
    requires s.AtRest() && s.contexts == Table(map[1 := FRESH_ROOT], 2, Some(1), None)
    requires s.callouts == Callouts.NewTable() && s.deleting.None? && s.maximum == 1
    requires s.future != [] && s.future[0] == Play([OPEN_ONE], Return(0))
    ensures var u := Step(s, TickRoot(1)).0;
      && u.AtRest() && u.contexts == s.contexts && u.future == s.future[1..] && u.deleting.None? && u.maximum == 1
      && u.callouts.Counting() && u.callouts.reserved == 1
      && u.callouts.open == map[1 := Callouts.Callout(Callouts.HttpCall, 1, 1, false)]
  {
    OpensOne(s, Tick);
    Calls.RunOfPlay(s, 1, Tick, 0);
  }

  /** The panic that passes a response leaves a guest that the next call poisons,
      and no entry for the embedder to find. */
  lemma PanicLosesTheEntry()
    ensures AllTyped([Create(None), TickRoot(1)])
    ensures var s := Conversation(0, 1, PANICS, [Create(None), TickRoot(1)]);
      && s.AtRest() && 1 in s.callouts.open
      && var (u, answer) := OnHttpCallResponse(s, 1, 1, FailedCall);
      answer.Unwound? && 1 !in u.callouts.open && RequireLive(u).poisoned
  {
    StepsOfTwo(NewState(0, 1, PANICS), Create(None), TickRoot(1));
    RootIsMade(1, PANICS);
    var created := Step(NewState(0, 1, PANICS), Create(None)).0;
    TickOpensOne(created);
    var s := Step(created, TickRoot(1)).0;
    var lent := Lend(s, Some(1), true);
    PerformNothing(Calls.Reached(Calls.Prepared(lent, 1, HttpCallResponse), 1, HttpCallResponse));
    Calls.RunOfPlay(lent, 1, HttpCallResponse, 0);
  }

  // ---- A done context becomes pending ----

  const CHANGES_ITS_MIND: seq<Play> := [Absent, Absent, Play([], Return(0))]

  /** A guest that answers no to a second `on_done` makes its done context pending. */
  lemma DoneMayBecomePending()
    ensures AllTyped([Create(None), EndContext(1)])
    ensures var s := Conversation(0, 0, CHANGES_ITS_MIND, [Create(None), EndContext(1)]);
      && s.AtRest() && s.contexts.PhaseOf(1) == Some(Done)
      && Step(s, EndContext(1)).0.contexts.PhaseOf(1) == Some(Pending)
  {
    var n := NewState(0, 0, CHANGES_ITS_MIND);
    StepsOfTwo(n, Create(None), EndContext(1));
    RootIsMade(0, CHANGES_ITS_MIND);
    var s := Step(Step(n, Create(None)).0, EndContext(1)).0;
    assert s.future == [Play([], Return(0))];
    PerformNothing(Calls.Reached(Calls.Prepared(s, 1, ContextDone), 1, ContextDone));
    Calls.RunOfPlay(s, 1, ContextDone, 1);
  }

  // ---- A refused call records its stream ----

  /** A log of a stream that is not done is refused, and the scope serves that
      stream from then on. */
  lemma RefusedLogRecordsItsStream()
    ensures AllTyped([Create(None), Create(Some(1))])
    ensures var s := Conversation(0, 0, [], [Create(None), Create(Some(1))]);
      && s.AtRest() && s.served.None?
      && Checked(OnLog(s, 2).1) && OnLog(s, 2).0.served == Some(2)
  {
    var n := NewState(0, 0, []);
    StepsOfTwo(n, Create(None), Create(Some(1)));
    RootIsMade(0, []);
    var s := Step(Step(n, Create(None)).0, Create(Some(1))).0;
    assert s.contexts.PhaseOf(2) == Some(Active) && s.contexts.TypeOf(2) == Some(Stream);
  }

  // ---- One callout above the maximum ----

  const OPENS_AND_TRAPS: seq<Play> :=
    [Absent, Play([OPEN_ONE], Return(0)), Play([OPEN_ONE], Trap)]

  /** A guest that may have one callout open makes another while the response to the
      first is delivered, and traps: the first comes back, and both are open. */
  lemma OneAboveTheMaximum()
    ensures AllTyped([Create(None), TickRoot(1)])
    ensures var s := Conversation(0, 1, OPENS_AND_TRAPS, [Create(None), TickRoot(1)]);
      && s.AtRest()
      && var u := OnHttpCallResponse(s, 1, 1, FailedCall).0;
      u.poisoned && u.callouts.open.Keys == {1, 2}
  {
    StepsOfTwo(NewState(0, 1, OPENS_AND_TRAPS), Create(None), TickRoot(1));
    RootIsMade(1, OPENS_AND_TRAPS);
    var created := Step(NewState(0, 1, OPENS_AND_TRAPS), Create(None)).0;
    TickOpensOne(created);
    var s := Step(created, TickRoot(1)).0;
    var lent := Lend(s, Some(1), true);
    assert lent.callouts.open == map[];
    OpensOne(lent, HttpCallResponse);
    Calls.RunOfPlay(lent, 1, HttpCallResponse, 0);
  }

  // ---- A late reading misses a registrant ----

  const REGISTER: Act := RegisterQueue(Some(5), [])
  const REGISTERS_TWICE: seq<Play> := [Absent, Play([REGISTER], Return(0)), Play([REGISTER], Return(0))]
  const READS_LATE: seq<Op> := [Create(None), TickRoot(1), InstallStore(1), ReadChanges, InstallStore(0)]

  /** A tick in which the guest of one root registers a queue. */
  lemma TickRegisters(s: State)
    requires s.AtRest() && s.contexts == Table(map[1 := FRESH_ROOT], 2, Some(1), None)
    requires s.future != [] && s.future[0] == Play([REGISTER], Return(0))
    ensures var u := Step(s, TickRoot(1)).0;
      && u.AtRest() && u.contexts == s.contexts && u.future == s.future[1..]
      && u.grants == s.grants.Settle().GrantQueue(5).Register(5, 1, [])
  {
    var reached := Calls.Reached(Calls.Prepared(s, 1, Tick), 1, Tick);
    PerformOne(reached, REGISTER);
    assert reached.contexts.Caller() == Some(1) && reached.contexts.RootOf(1) == Some(1);
    assert Calls.Played(s, 1, Tick) == RegisterOne(reached, Some(5), []);
    Calls.RunOfPlay(s, 1, Tick, 0);
  }

  /** The grants after those calls. */
  function Late(): (g: Grants.Grants)
    ensures 1 in g.Registrants(5) && g.reported == {} && !g.Waits(5, 1)
    ensures g.Settle().GrantQueue(5).Register(5, 1, []) == g.GrantQueue(5)
  {
    var registered := Grants.NewGrants(0).Settle().GrantQueue(5).Register(5, 1, []);
    assert registered.Roots(5) == {1};
    var g := registered.Replace(1).Take().0.Replace(0);
    assert Grants.Pairs({}) == {} && g.Roots(5) == {1};
    assert 1 in g.Registrants(5);
    g
  }

  lemma StepsOne(s: State, op: Op, ops: seq<Op>)
    requires op.Typed() && AllTyped(ops)
    ensures AllTyped([op] + ops) && Steps(s, [op] + ops) == Steps(Step(s, op).0, ops)
  {
    assert ([op] + ops)[1..] == ops;
  }

  /** The three calls of the embedder change the grants alone. */
  lemma LateCalls(s: State)
    requires s.AtRest()
    ensures var ops := [InstallStore(1), ReadChanges, InstallStore(0)];
      AllTyped(ops) && Steps(s, ops) == s.(grants := s.grants.Replace(1).Take().0.Replace(0))
  {
    var elsewhere := Step(s, InstallStore(1)).0;
    var missed := Step(elsewhere, ReadChanges).0;
    assert [InstallStore(0)] == [InstallStore(0)] + [];
    assert [ReadChanges, InstallStore(0)] == [ReadChanges] + [InstallStore(0)];
    assert [InstallStore(1), ReadChanges, InstallStore(0)] == [InstallStore(1)] + [ReadChanges, InstallStore(0)];
    StepsOne(missed, InstallStore(0), []);
    StepsOne(elsewhere, ReadChanges, [InstallStore(0)]);
    StepsOne(s, InstallStore(1), [ReadChanges, InstallStore(0)]);
  }

  /** The embedder installs another store, reads, and installs the first one again. It
      is shown a root that registered the queue, and never told of it: the root is
      not reported, does not wait, and does not wait after it registers again. */
  lemma LateReadingMissesARegistrant()
    ensures AllTyped(READS_LATE)
    ensures var s := Conversation(0, 0, REGISTERS_TWICE, READS_LATE);
      && s.AtRest() && 1 in s.grants.Registrants(5) && s.grants.reported == {} && !s.grants.Waits(5, 1)
      && Step(s, TickRoot(1)).0.grants == s.grants.GrantQueue(5)
  {
    hide Step;
    var n := NewState(0, 0, REGISTERS_TWICE);
    var late := [InstallStore(1), ReadChanges, InstallStore(0)];
    RootIsMade(0, REGISTERS_TWICE);
    var made := Step(n, Create(None)).0;
    TickRegisters(made);
    var ticked := Step(made, TickRoot(1)).0;
    LateCalls(ticked);
    StepsOne(made, TickRoot(1), late);
    StepsOne(n, Create(None), [TickRoot(1)] + late);
    assert READS_LATE == [Create(None)] + ([TickRoot(1)] + late);
    var back := Steps(ticked, late);
    assert back.grants == Late();
    TickRegisters(back);
  }
}
