/** What the readings of the changes tell the embedder: every registrant of a queue at
    least once, as long as each reading comes in time, and every tick period. */
module Reports {
  import opened Prelude
  import opened Contexts
  import opened States
  import opened Scope
  import opened History
  import opened Invariants
  import opened Runs
  import Grants

  /** Each reading of a run comes before the store it is about was replaced, or finds
      no registration of a root that is still there. */
  ghost predicate ReadsInTime(s: State, ops: seq<Op>)
    requires AllTyped(ops)
    decreases |ops|
  {
    if ops == [] then true
    else
      assert ops[0] in ops;
      (ops[0].ReadChanges? ==> s.grants.InTime()) && ReadsInTime(Step(s, ops[0]).0, ops[1..])
  }

  /** After a call that is no reading, a registrant that was missed was one before, so
      it was told then and can not have been missed. */
  lemma OnwardTellsAll(s: State, u: State)
    requires Sound(s) && Sound(u) && Onward(s, u) && s.grants.AllTold()
    ensures u.grants.AllTold()
  {
    forall queue: Grants.QueueId, root: ContextId | root in u.grants.Roots(queue)
      ensures u.grants.Waits(queue, root) || (queue, root) in u.grants.reported
    {
      assert u.grants.Registered(u.contexts, queue, root);
      if (queue, root) in u.grants.missed {
        assert s.grants.Held(s.contexts, queue, root);
        assert root in s.grants.Roots(queue);
        Grants.EachIsOneOfThree(s.grants, s.contexts, queue, root);
      }
    }
  }

  /** One call keeps the law that each registrant was reported or waits, exactly when
      it is no reading that comes late. */
  lemma StepTellsAllExactlyWhen(s: State, op: Op)
    requires Inv(s) && op.Typed() && s.grants.AllTold()
    ensures Step(s, op).0.grants.AllTold() <==> (op.ReadChanges? ==> s.grants.InTime())
  {
    if op.ReadChanges? {
      Grants.TakeTellsAllExactlyWhen(s.grants, s.contexts);
    } else {
      StepKeepsInv(s, op);
      StepGoesOn(s, op);
      OnwardTellsAll(s, Step(s, op).0);
    }
  }

  /** The states of a run all keep that law exactly when every reading is in time. */
  lemma {:induction false} RunTellsAllExactlyWhen(s: State, ops: seq<Op>)
    requires Inv(s) && AllTyped(ops) && s.grants.AllTold()
    ensures ToldThroughout(s, ops) <==> ReadsInTime(s, ops)
    decreases |ops|
  {
    if ops != [] {
      assert ops[0] in ops;
      var next := Step(s, ops[0]).0;
      StepTellsAllExactlyWhen(s, ops[0]);
      StepKeepsInv(s, ops[0]);
      if next.grants.AllTold() {
        RunTellsAllExactlyWhen(next, ops[1..]);
      }
    }
  }

  ghost predicate ToldThroughout(s: State, ops: seq<Op>)
    requires AllTyped(ops)
    decreases |ops|
  {
    && s.grants.AllTold()
    && (ops != [] ==> assert ops[0] in ops; ToldThroughout(Step(s, ops[0]).0, ops[1..]))
  }

  lemma {:induction false} ToldAtTheEnd(s: State, ops: seq<Op>)
    requires AllTyped(ops) && ToldThroughout(s, ops)
    ensures Steps(s, ops).grants.AllTold()
    decreases |ops|
  {
    if ops != [] {
      assert ops[0] in ops;
      ToldAtTheEnd(Step(s, ops[0]).0, ops[1..]);
    }
  }

  /** In every state a run reaches, a registrant that the embedder is shown waits for
      the next reading, was reported, or was missed by a late one, and one of the
      three. When every reading of the run was in time, none was missed. */
  lemma EveryRegistrantIsTold(store: Grants.StoreId, maximum: Maximum, future: seq<Play>, ops: seq<Op>,
                              queue: Grants.QueueId, root: ContextId)
    requires AllTyped(ops)
    requires root in Conversation(store, maximum, future, ops).grants.Registrants(queue)
    ensures var g := Conversation(store, maximum, future, ops).grants;
      var waits, reported, missed := g.Waits(queue, root), (queue, root) in g.reported, (queue, root) in g.missed;
      && (waits || reported || missed)
      && !(waits && reported) && !(waits && missed) && !(reported && missed)
      && (ReadsInTime(NewState(store, maximum, future), ops) ==> !missed)
  {
    var s := NewState(store, maximum, future);
    ConversationKeepsInv(store, maximum, future, ops);
    var u := Conversation(store, maximum, future, ops);
    Grants.EachIsOneOfThree(u.grants, u.contexts, queue, root);
    NewStateIsSound(store, maximum, future);
    if ReadsInTime(s, ops) {
      assert forall q: Grants.QueueId :: s.grants.Roots(q) == {};
      RunTellsAllExactlyWhen(s, ops);
      ToldAtTheEnd(s, ops);
    }
  }

  // ---- The periods ----

  /** What an embedder learns of the periods in a run, from the answers of its readings,
      where a later one replaces an earlier one. */
  function Learned(s: State, ops: seq<Op>): map<ContextId, Option<nat>>
    requires AllTyped(ops)
    decreases |ops|
  {
    if ops == [] then map[]
    else
      assert ops[0] in ops;
      var (u, answer) := Step(s, ops[0]);
      (if ops[0].ReadChanges? then answer.changes.tickPeriods else map[]) + Learned(u, ops[1..])
  }

  lemma ReadingIsTold(s: State, op: Op)
    requires op.Typed()
    ensures op.ReadChanges? ==> Step(s, op).1.TakenChanges?
    ensures Step(s, op).0.grants.told ==
      s.grants.told + if op.ReadChanges? then Step(s, op).1.changes.tickPeriods else map[]
  {
    if !op.ReadChanges? {
      hide Step;
      StepGoesOn(s, op);
    }
  }

  lemma {:induction false} LearnedIsTold(s: State, ops: seq<Op>)
    requires AllTyped(ops)
    ensures Steps(s, ops).grants.told == s.grants.told + Learned(s, ops)
    decreases |ops|
  {
    if ops != [] {
      assert ops[0] in ops;
      hide Step;
      ReadingIsTold(s, ops[0]);
      LearnedIsTold(Step(s, ops[0]).0, ops[1..]);
    }
  }

  /** Nothing that a guest sets is lost: in every state a run reaches, what the readings
      told of a live root, with what waits for the next reading, is its period. */
  lemma PeriodsAreTold(store: Grants.StoreId, maximum: Maximum, future: seq<Play>, ops: seq<Op>, root: ContextId)
    requires AllTyped(ops) && Conversation(store, maximum, future, ops).contexts.TypeOf(root) == Some(Root)
    ensures var s := Conversation(store, maximum, future, ops);
      var known := Learned(NewState(store, maximum, future), ops) + s.grants.changes.tickPeriods;
      s.contexts.entries[root].tickPeriod == if root in known then known[root] else None
  {
    ConversationKeepsInv(store, maximum, future, ops);
    LearnedIsTold(NewState(store, maximum, future), ops);
  }
}
