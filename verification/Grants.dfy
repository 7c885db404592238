/** What a guest obtained from the shared services: the queues it holds, the
    roots that registered each one, and the changes the embedder has not read. */
module Grants {
  import opened Prelude
  import opened Contexts
  import Ascending

  type StoreId = nat
  type QueueId = nat

  datatype Registration = Registration(queue: QueueId, root: ContextId, name: seq<byte>)

  datatype Changes = Changes(tickPeriods: map<ContextId, Option<nat>>, queues: set<Registration>)

  /** `store` is the identity of the shared services the guest has now.
      The last six are history: every registration with the store it was made
      against, what was reported since the grants were cleared, what a reading
      dropped since then without a report, the last period of each root that a
      reading told, how often the grants were cleared, and how often a store was
      installed. */
  datatype Grants = Grants(
    store: StoreId,
    grantedAgainst: Option<StoreId>,
    queues: set<QueueId>,
    registrants: map<QueueId, set<ContextId>>,
    changes: Changes,
    everMade: set<(QueueId, ContextId, StoreId)>,
    reported: set<(QueueId, ContextId)>,
    missed: set<(QueueId, ContextId)>,
    told: map<ContextId, Option<nat>>,
    clears: nat,
    installed: nat)
  {
    predicate Current() {
      grantedAgainst == Some(store)
    }

    /** Drops every grant of a store that is not the one the guest has. */
    function Settle(): Grants {
      if Current() then this
      else
        this.(grantedAgainst := Some(store), queues := {}, registrants := map[],
              changes := changes.(queues := {}), reported := {}, missed := {},
              clears := clears + 1)
    }

    function GrantQueue(queue: QueueId): Grants {
      this.(queues := queues + {queue})
    }

    function Roots(queue: QueueId): set<ContextId> {
      if queue in registrants then registrants[queue] else {}
    }

    /** A registration, which waits to be reported when it is the first of that root. */
    function Register(queue: QueueId, root: ContextId, name: seq<byte>): Grants {
      var made := if grantedAgainst.Some? then everMade + {(queue, root, grantedAgainst.value)} else everMade;
      this.(registrants := registrants[queue := Roots(queue) + {root}],
            changes := if root in Roots(queue) then changes
                       else changes.(queues := changes.queues + {Registration(queue, root, name)}),
            everMade := made)
    }

    /** The roots that registered `queue` with the store the guest has. */
    function Registrants(queue: QueueId): (roots: seq<ContextId>)
      ensures Ascending.Strictly(roots)
      ensures forall root :: root in roots <==> Current() && root in Roots(queue)
    {
      if Current() then Ascending.Sorted(Roots(queue)) else []
    }

    /** Takes a root out of the registrants. A queue that loses its last one goes too. */
    function Forget(root: ContextId): Grants {
      this.(registrants := map queue | queue in registrants && registrants[queue] - {root} != {}
                             :: registrants[queue] - {root})
    }

    function NoteTickPeriod(root: ContextId, period: Option<nat>): Grants {
      this.(changes := changes.(tickPeriods := changes.tickPeriods[root := period]))
    }

    /** What the embedder reads, which empties the record. */
    function Take(): (Grants, Changes) {
      var answer := if Current() then changes else changes.(queues := {});
      var dropped := Pairs(changes.queues - answer.queues);
      (this.(changes := Changes(map[], {}), reported := reported + Pairs(answer.queues), missed := missed + dropped,
             told := told + answer.tickPeriods),
       answer)
    }

    /** The period of a root as an embedder knows it once it reads what waits. */
    function Known(root: ContextId): Option<nat> {
      if root in changes.tickPeriods then changes.tickPeriods[root]
      else if root in told then told[root]
      else None
    }

    function Replace(store: StoreId): Grants {
      this.(store := store, installed := installed + 1)
    }

    /** Every registrant is a live root that registered against the store the
        grants belong to. */
    ghost predicate RegistrantsSound(contexts: Table) {
      forall queue: QueueId, root: ContextId :: root in Roots(queue) ==> Registered(contexts, queue, root)
    }

    ghost predicate Registered(contexts: Table, queue: QueueId, root: ContextId) {
      && contexts.TypeOf(root) == Some(Root)
      && grantedAgainst.Some? && (queue, root, grantedAgainst.value) in everMade
    }

    /** A registration that waits to be read was neither reported nor missed since
        the last clear, none was both, and it waits under one name. */
    ghost predicate ReportsSound() {
      && (forall r :: r in changes.queues ==> (r.queue, r.root) !in reported + missed)
      && reported !! missed
      && OneNameEach(changes.queues)
    }

    /** A root that waits, was reported or was missed is still a registrant, or
        deleted. */
    ghost predicate ReportsHeld(contexts: Table) {
      && (forall r :: r in changes.queues ==> Held(contexts, r.queue, r.root))
      && (forall queue: QueueId, root: ContextId :: (queue, root) in reported + missed ==> Held(contexts, queue, root))
    }

    /** The root waits for the next reading as a registrant of the queue. */
    predicate Waits(queue: QueueId, root: ContextId) {
      (queue, root) in Pairs(changes.queues)
    }

    /** No registrant is forgotten by the reports. */
    ghost predicate ReportsWhole() {
      forall queue: QueueId, root: ContextId :: root in Roots(queue) ==>
        Waits(queue, root) || (queue, root) in reported + missed
    }

    /** What a reading owes the embedder: each registrant was reported or waits. */
    ghost predicate AllTold() {
      forall queue: QueueId, root: ContextId :: root in Roots(queue) ==>
        Waits(queue, root) || (queue, root) in reported
    }

    /** A reading now drops no registration of a root that is still there. */
    ghost predicate InTime() {
      Current() || forall r :: r in changes.queues ==> r.root !in Roots(r.queue)
    }

    ghost predicate Held(contexts: Table, queue: QueueId, root: ContextId) {
      root < contexts.next && (root in Roots(queue) || root !in contexts.entries)
    }

    ghost predicate Sound(contexts: Table) {
      RegistrantsSound(contexts) && ReportsSound() && ReportsHeld(contexts) && ReportsWhole()
    }
  }

  ghost predicate OneNameEach(queues: set<Registration>) {
    forall r, r' :: r in queues && r' in queues && r.queue == r'.queue && r.root == r'.root ==> r == r'
  }

  function Pairs(queues: set<Registration>): set<(QueueId, ContextId)> {
    set r | r in queues :: (r.queue, r.root)
  }

  function NewGrants(store: StoreId): Grants {
    Grants(store, None, {}, map[], Changes(map[], {}), {}, {}, {}, map[], 0, 0)
  }

  lemma SettleKeepsSound(g: Grants, contexts: Table)
    requires g.Sound(contexts)
    ensures g.Settle().Sound(contexts) && g.Settle().Current()
  {
    var h := g.Settle();
    if !g.Current() {
      assert forall queue: QueueId :: h.Roots(queue) == {};
    }
  }

  lemma WaitsStill(g: Grants, h: Grants, queue: QueueId, root: ContextId)
    requires g.changes.queues <= h.changes.queues
    ensures g.Waits(queue, root) ==> h.Waits(queue, root)
  {
  }

  /** A registration of a live root, made right after the grants were settled. */
  lemma RegisterKeepsSound(g: Grants, contexts: Table, queue: QueueId, root: ContextId, name: seq<byte>)
    requires g.Sound(contexts) && contexts.Forest() && g.Current() && contexts.TypeOf(root) == Some(Root)
    ensures g.Register(queue, root, name).Sound(contexts)
    ensures root in g.Register(queue, root, name).Roots(queue)
  {
    var h := g.Register(queue, root, name);
    forall q: QueueId
      ensures h.Roots(q) == g.Roots(q) + if q == queue then {root} else {}
    {
    }
    forall q: QueueId, other: ContextId | other in h.Roots(q)
      ensures h.Registered(contexts, q, other)
    {
      assert other in g.Roots(q) ==> g.Registered(contexts, q, other);
    }
    forall r | r in h.changes.queues
      ensures h.Held(contexts, r.queue, r.root)
    {
      if r in g.changes.queues {
        assert g.Held(contexts, r.queue, r.root);
      }
    }
    forall q: QueueId, other: ContextId | (q, other) in h.reported + h.missed
      ensures h.Held(contexts, q, other)
    {
      assert g.Held(contexts, q, other);
    }
    if root !in g.Roots(queue) {
      assert !g.Held(contexts, queue, root);
      assert h.ReportsSound();
      assert Registration(queue, root, name) in h.changes.queues;
    }
    forall q: QueueId, other: ContextId | other in h.Roots(q)
      ensures h.Waits(q, other) || (q, other) in h.reported + h.missed
    {
      WaitsStill(g, h, q, other);
    }
  }

  /** A new context is no registrant yet, and its identifier never was one. */
  lemma NewContextKeepsSound(g: Grants, t: Table, parent: Option<ContextId>)
    requires g.Sound(t) && t.Forest()
    ensures g.Sound(t.Create(parent).0)
  {
    var u := t.Create(parent).0;
    CreateKeepsForest(t, parent);
    forall queue: QueueId, root: ContextId | g.Held(t, queue, root)
      ensures g.Held(u, queue, root)
    {
    }
    forall queue: QueueId, root: ContextId | root in g.Roots(queue)
      ensures g.Registered(u, queue, root)
    {
      assert g.Registered(t, queue, root);
    }
  }

  /** Removing a root from the table and from every queue it registered. */
  lemma ForgetKeepsSound(g: Grants, contexts: Table, root: ContextId)
    requires g.Sound(contexts) && contexts.Forest()
    ensures g.Forget(root).Sound(contexts.Remove(root))
    ensures forall queue: QueueId :: g.Forget(root).Roots(queue) == g.Roots(queue) - {root}
    ensures forall queue :: queue in g.Forget(root).registrants <==> g.Roots(queue) - {root} != {}
  {
    forall queue: QueueId
      ensures g.Forget(root).Roots(queue) == g.Roots(queue) - {root}
    {
    }
    var h := g.Forget(root);
    var t := contexts.Remove(root);
    forall queue: QueueId, other: ContextId | other in h.Roots(queue)
      ensures h.Registered(t, queue, other)
    {
      assert other in g.Roots(queue) && g.Registered(contexts, queue, other);
    }
    forall queue: QueueId, other: ContextId | g.Held(contexts, queue, other)
      ensures h.Held(t, queue, other)
    {
      assert h.Roots(queue) == g.Roots(queue) - {root};
    }
  }

  /** A stream registers for its root, so its removal leaves the queues alone. */
  lemma StreamRemovalKeepsSound(g: Grants, contexts: Table, stream: ContextId)
    requires g.Sound(contexts) && contexts.TypeOf(stream) == Some(Stream)
    ensures g.Sound(contexts.Remove(stream))
  {
    var t := contexts.Remove(stream);
    forall queue: QueueId, root: ContextId | root in g.Roots(queue)
      ensures g.Registered(t, queue, root)
    {
      assert g.Registered(contexts, queue, root) && root != stream;
    }
    forall queue: QueueId, root: ContextId | g.Held(contexts, queue, root)
      ensures g.Held(t, queue, root)
    {
    }
  }

  /** What is taken was never reported since the grants were cleared, and holds
      at most one registration of each queue and root. */
  lemma TakeReportsOnce(g: Grants, contexts: Table)
    requires g.Sound(contexts)
    ensures var (h, answer) := g.Take();
      && h.Sound(contexts)
      && (forall r :: r in answer.queues ==> (r.queue, r.root) !in g.reported && (r.queue, r.root) in h.reported)
      && h.reported == g.reported + Pairs(answer.queues)
      && OneNameEach(answer.queues)
      && (!g.Current() ==> answer.queues == {})
  {
    var (h, answer) := g.Take();
    TakeMoves(g);
    forall queue: QueueId, root: ContextId | root in h.Roots(queue)
      ensures h.Registered(contexts, queue, root)
    {
      assert root in g.Roots(queue) && g.Registered(contexts, queue, root);
    }
    forall queue: QueueId, root: ContextId | (queue, root) in h.reported + h.missed
      ensures h.Held(contexts, queue, root)
    {
      assert g.Held(contexts, queue, root) && h.Roots(queue) == g.Roots(queue);
    }
  }

  /** All that waits is reported on current grants, and missed on others. */
  lemma TakeMoves(g: Grants)
    ensures var h := g.Take().0;
      if g.Current() then h.reported == g.reported + Pairs(g.changes.queues) && h.missed == g.missed
      else h.reported == g.reported && h.missed == g.missed + Pairs(g.changes.queues)
  {
    assert g.changes.queues - g.changes.queues == {} && g.changes.queues - {} == g.changes.queues;
    assert Pairs({}) == {};
  }

  /** Each registrant waits, was reported or was missed, and only one of the three. */
  lemma EachIsOneOfThree(g: Grants, contexts: Table, queue: QueueId, root: ContextId)
    requires g.Sound(contexts) && root in g.Roots(queue)
    ensures g.Waits(queue, root) || (queue, root) in g.reported || (queue, root) in g.missed
    ensures !(g.Waits(queue, root) && (queue, root) in g.reported)
    ensures !(g.Waits(queue, root) && (queue, root) in g.missed)
    ensures !((queue, root) in g.reported && (queue, root) in g.missed)
  {
  }

  /** A reading keeps the law that each registrant was reported or waits exactly when
      it comes in time. One that comes late hides a registrant for good, because
      the next registration of the same root is not the first. */
  lemma TakeTellsAllExactlyWhen(g: Grants, contexts: Table)
    requires g.Sound(contexts) && g.AllTold()
    ensures g.Take().0.AllTold() <==> g.InTime()
  {
    var h := g.Take().0;
    TakeMoves(g);
    forall queue: QueueId, root: ContextId
      ensures h.Roots(queue) == g.Roots(queue) && !h.Waits(queue, root)
    {
    }
    if !g.InTime() {
      var r :| r in g.changes.queues && r.root in g.Roots(r.queue);
      assert !h.Waits(r.queue, r.root) && (r.queue, r.root) !in h.reported;
    }
  }

  /** The embedder sees only roots that are live and that registered against
      the store it installed. */
  lemma RegistrantsAreCurrent(g: Grants, contexts: Table, queue: QueueId, root: ContextId)
    requires g.Sound(contexts) && root in g.Registrants(queue)
    ensures contexts.TypeOf(root) == Some(Root) && (queue, root, g.store) in g.everMade
  {
    assert root in g.Roots(queue) && g.Registered(contexts, queue, root);
  }
}
