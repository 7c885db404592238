/** The table of open callouts, and the counter that names them. */
module Callouts {
  import opened Prelude
  import Ascending
  import Contexts

  type CalloutId = Id

  datatype Kind = HttpCall | GrpcCall | GrpcStream

  datatype Callout = Callout(
    kind: Kind,
    caller: Contexts.ContextId,
    root: Contexts.ContextId,
    closedByGuest: bool)

  /** One callout in a listing, with the kind it had then. */
  datatype Made = Made(id: CalloutId, kind: Kind)

  /** The identifier that follows `id`, which skips zero at the wrap. */
  function Successor(id: CalloutId): CalloutId {
    if id == U32_MAX then 1 else id + 1
  }

  /** The candidate `k` places after `start`. */
  function Nth(start: CalloutId, k: nat): CalloutId {
    (start - 1 + k) % U32_MAX + 1
  }

  lemma NthStep(start: CalloutId, k: nat)
    ensures Nth(start, 0) == start
    ensures Nth(start, k + 1) == Successor(Nth(start, k))
  {
  }

  lemma NthDistinct(start: CalloutId, j: nat, k: nat)
    requires j < k < U32_MAX
    ensures Nth(start, j) != Nth(start, k)
  {
  }

  /** The first `k` candidates are `k` identifiers, so a table that holds all of
      them holds at least `k`. */
  lemma {:induction false} OpenCandidates(open: set<CalloutId>, start: CalloutId, k: nat)
    requires k <= U32_MAX
    requires forall j: nat :: j < k ==> Nth(start, j) in open
    ensures k <= |open|
  {
    if k > 0 {
      var last := Nth(start, k - 1);
      forall j: nat | j < k - 1
        ensures Nth(start, j) in open - {last}
      {
        NthDistinct(start, j, k - 1);
      }
      OpenCandidates(open - {last}, start, k - 1);
    }
  }

  /** How many candidates are open before the first one that is not. */
  function Skipped(open: set<CalloutId>, start: CalloutId, k: nat := 0): (r: nat)
    requires |open| < U32_MAX
    requires k <= |open| && forall j: nat :: j < k ==> Nth(start, j) in open
    ensures r <= |open| && Nth(start, r) !in open
    ensures forall j: nat :: j < r ==> Nth(start, j) in open
    decreases |open| - k
  {
    if Nth(start, k) !in open then k
    else
      OpenCandidates(open, start, k + 1);
      Skipped(open, start, k + 1)
  }

  lemma SkippedIsUnique(open: set<CalloutId>, start: CalloutId, r: nat)
    requires |open| < U32_MAX
    requires Nth(start, r) !in open && forall j: nat :: j < r ==> Nth(start, j) in open
    ensures r == Skipped(open, start)
  {
  }

  /** `reserved` is history: how many identifiers the counter gave out. */
  datatype Table = Table(open: map<CalloutId, Callout>, next: CalloutId, reserved: nat) {

    /** Gives out the first candidate that names no open callout. */
    function Reserve(): (Table, CalloutId)
      requires |open.Keys| < U32_MAX
    {
      var id := Nth(next, Skipped(open.Keys, next));
      (this.(next := Successor(id), reserved := reserved + 1), id)
    }

    function Enter(id: CalloutId, callout: Callout): Table {
      this.(open := open[id := callout])
    }

    function Remove(id: CalloutId): Table {
      this.(open := open - {id})
    }

    function CloseByGuest(id: CalloutId): Table {
      if id in open then this.(open := open[id := open[id].(closedByGuest := true)]) else this
    }

    predicate Issued(id: CalloutId) {
      id < next
    }

    /** A listing of what `caller` has open, ascending. */
    function MadeBy(caller: Contexts.ContextId): (made: seq<Made>)
      ensures Ascending.Strictly(Ids(made))
      ensures forall id :: id in Ids(made) <==> id in open && open[id].caller == caller
      ensures forall m :: m in made ==> m.id in open && open[m.id].kind == m.kind
    {
      var ids := Ascending.Sorted(set id | id in open && open[id].caller == caller);
      var made := seq(|ids|, i requires 0 <= i < |ids| => assert ids[i] in ids; Made(ids[i], open[ids[i]].kind));
      assert Ids(made) == ids;
      made
    }

    /** The table with none of `made` in it. */
    function Drop(made: seq<Made>): Table
      decreases |made|
    {
      if made == [] then this else Remove(made[0].id).Drop(made[1..])
    }

    /** Until every identifier was given out once, the counter is one above the
        number given out, and what is open was given out. */
    ghost predicate Counting() {
      && (reserved < U32_MAX ==> next == reserved + 1)
      && (reserved <= U32_MAX ==> forall id :: id in open ==> id <= reserved)
    }
  }

  function Ids(made: seq<Made>): seq<CalloutId> {
    seq(|made|, i requires 0 <= i < |made| => made[i].id)
  }

  function NewTable(): Table {
    Table(map[], 1, 0)
  }

  /** Before the counter wraps, reservation `n` is identifier `n`, so no two
      reservations share an identifier. */
  lemma ReserveCounts(t: Table)
    requires t.Counting() && |t.open.Keys| < U32_MAX
    ensures var (u, id) := t.Reserve();
      && id !in t.open && u.open == t.open && u.reserved == t.reserved + 1
      && u.Counting()
      && (u.reserved <= U32_MAX ==> id == u.reserved)
  {
    var (u, id) := t.Reserve();
    if t.reserved < U32_MAX {
      assert Nth(t.next, 0) == t.next;
      SkippedIsUnique(t.open.Keys, t.next, 0);
    }
  }

  /** One use of the table: a reservation, or a change of what is open. */
  datatype Use =
    | Reserving
    | Entering(id: CalloutId, callout: Callout)
    | Removing(id: CalloutId)
    | Closing(id: CalloutId)

  /** The table after `uses`, with the identifiers that reservations gave out. An
      identifier is entered after it was given out, and a reservation needs one
      that is not open. */
  function After(uses: seq<Use>): Option<(Table, seq<CalloutId>)> {
    if uses == [] then Some((NewTable(), []))
    else
      match After(uses[..|uses| - 1])
      case None => None
      case Some((t, given)) =>
        match uses[|uses| - 1]
        case Reserving =>
          if |t.open.Keys| >= U32_MAX then None
          else
            var (u, id) := t.Reserve();
            Some((u, given + [id]))
        case Entering(id, callout) => if id in given then Some((t.Enter(id, callout), given)) else None
        case Removing(id) => Some((t.Remove(id), given))
        case Closing(id) => Some((t.CloseByGuest(id), given))
  }

  /** Until the counter wraps, reservations give out one identifier after the
      other, and `issued` answers for exactly those. */
  lemma {:induction false} IssuedIsGivenOut(uses: seq<Use>)
    requires After(uses).Some? && After(uses).value.0.reserved <= U32_MAX
    ensures var (t, given) := After(uses).value;
      && t.Counting() && |given| == t.reserved
      && (forall i :: 0 <= i < |given| ==> given[i] == i + 1)
      && (t.reserved < U32_MAX ==> forall id: CalloutId :: t.Issued(id) <==> id in given)
    decreases |uses|
  {
    if uses != [] {
      var before := uses[..|uses| - 1];
      IssuedIsGivenOut(before);
      var (s, had) := After(before).value;
      var (t, given) := After(uses).value;
      if uses[|uses| - 1].Reserving? {
        ReserveCounts(s);
      }
      forall id: CalloutId | id <= t.reserved
        ensures id in given
      {
        assert given[id - 1] == id;
      }
    }
  }

  /** The reservation that reaches the last identifier gives out that one, and what
      was given out stays in the list. */
  lemma {:induction false} LastIsGivenOut(uses: seq<Use>)
    requires After(uses).Some? && After(uses).value.0.reserved >= U32_MAX
    ensures U32_MAX in After(uses).value.1
    decreases |uses|
  {
    var before := uses[..|uses| - 1];
    if After(before).value.0.reserved >= U32_MAX {
      LastIsGivenOut(before);
    } else {
      IssuedIsGivenOut(before);
      ReserveCounts(After(before).value.0);
    }
  }

  /** `issued` answers for exactly the identifiers that were given out as long as the
      last one was not among them, and never again after it. */
  lemma IssuedExactlyBeforeTheWrap(uses: seq<Use>)
    requires After(uses).Some?
    ensures var (t, given) := After(uses).value;
      (forall id: CalloutId :: t.Issued(id) <==> id in given) <==> t.reserved < U32_MAX
  {
    var (t, given) := After(uses).value;
    if t.reserved < U32_MAX {
      IssuedIsGivenOut(uses);
    } else {
      LastIsGivenOut(uses);
      assert !t.Issued(U32_MAX);
    }
  }

  function Reservations(n: nat): (uses: seq<Use>)
    ensures |uses| == n
  {
    seq(n, i => Reserving)
  }

  /** Reservations alone open nothing, and they go through up to the wrap. */
  lemma {:induction false} ReservesOn(uses: seq<Use>, n: nat)
    requires After(uses).Some? && After(uses).value.0.reserved + n <= U32_MAX
    requires |After(uses).value.0.open.Keys| < U32_MAX
    ensures var all := After(uses + Reservations(n));
      all.Some? && all.value.0.open == After(uses).value.0.open
      && all.value.0.reserved == After(uses).value.0.reserved + n
    decreases n
  {
    if n == 0 {
      assert uses + Reservations(0) == uses;
    } else {
      ReservesOn(uses, n - 1);
      var all := uses + Reservations(n);
      assert all[..|all| - 1] == uses + Reservations(n - 1);
      IssuedIsGivenOut(all[..|all| - 1]);
      ReserveCounts(After(all[..|all| - 1]).value.0);
    }
  }

  const FIFTH: Callout := Callout(HttpCall, 1, 1, false)

  /** The fifth identifier is entered, and all the others are given out after it. */
  const ALL_GIVEN_OUT: seq<Use> := Reservations(5) + [Entering(5, FIFTH)] + Reservations(U32_MAX - 5)

  /** After the last identifier the counter starts again at one, and `issued`
      denies a callout that is open. One reservation later it answers for one. */
  lemma IssuedAfterTheWrap()
    ensures After(ALL_GIVEN_OUT).Some?
    ensures var (t, given) := After(ALL_GIVEN_OUT).value;
      && t.reserved == U32_MAX && 5 in given && 5 in t.open && !t.Issued(5)
      && |t.open.Keys| < U32_MAX && t.Reserve().0.Issued(1) && !t.Reserve().0.Issued(5)
  {
    assert [] + Reservations(5) == Reservations(5);
    ReservesOn([], 5);
    IssuedIsGivenOut(Reservations(5));
    var given := After(Reservations(5)).value.1;
    assert given[4] == 5;
    var entered := Reservations(5) + [Entering(5, FIFTH)];
    assert entered[..|entered| - 1] == Reservations(5);
    assert After(entered).value.0.open.Keys == {5};
    ReservesOn(entered, U32_MAX - 5);
    IssuedIsGivenOut(ALL_GIVEN_OUT);
    assert After(ALL_GIVEN_OUT).value.1[4] == 5;
    AtTheWrap(ALL_GIVEN_OUT);
    assert Nth(1, 0) == 1;
    SkippedIsUnique({5}, 1, 0);
  }

  /** Right after the last identifier was given out, the counter is at one. */
  lemma {:induction false} AtTheWrap(uses: seq<Use>)
    requires After(uses).Some? && After(uses).value.0.reserved == U32_MAX
    ensures After(uses).value.0.next == 1
    decreases |uses|
  {
    var before := uses[..|uses| - 1];
    var t := After(before).value.0;
    if t.reserved == U32_MAX {
      AtTheWrap(before);
    } else {
      IssuedIsGivenOut(before);
      ReserveCounts(t);
    }
  }

  lemma {:induction false} DropRemovesExactly(t: Table, made: seq<Made>)
    ensures t.Drop(made).open.Keys == t.open.Keys - (set m | m in made :: m.id)
    ensures forall id :: id in t.Drop(made).open ==> t.Drop(made).open[id] == t.open[id]
    ensures t.Drop(made).next == t.next && t.Drop(made).reserved == t.reserved
    decreases |made|
  {
    if made != [] {
      DropRemovesExactly(t.Remove(made[0].id), made[1..]);
      assert made == [made[0]] + made[1..];
    }
  }
}
