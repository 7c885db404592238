/** The two tables as the objects that change in place, each method proved
    against the table value it stands for. */
module Tables {
  import opened Prelude
  import opened Contexts
  import Ascending
  import Callouts

  lemma TailHolds(q: seq<Id>, x: Id)
    requires Ascending.Strictly(q) && q != []
    ensures x in q[1..] <==> x in q && x != q[0]
  {
    assert q == [q[0]] + q[1..];
    assert forall i :: 0 <= i < |q[1..]| ==> q[1..][i] == q[i + 1] && q[0] < q[i + 1];
  }

  /** Two listings of one set in ascending order are one listing. */
  lemma {:induction false} AscendingIsUnique(a: seq<Id>, b: seq<Id>)
    requires Ascending.Strictly(a) && Ascending.Strictly(b)
    requires forall x: Id :: x in a <==> x in b
    ensures a == b
  {
    if a == [] {
      assert forall i :: 0 <= i < |b| ==> b[i] in b;
    } else {
      assert a[0] in a && b != [];
      assert b[0] in b;
      assert a[0] == b[0];
      forall x: Id
        ensures x in a[1..] <==> x in b[1..]
      {
        TailHolds(a, x);
        TailHolds(b, x);
      }
      AscendingIsUnique(a[1..], b[1..]);
    }
  }

  /** The callouts of `caller` among those in `seen`, as a listing. */
  ghost predicate Lists(open: map<Callouts.CalloutId, Callouts.Callout>, seen: seq<Id>, caller: ContextId,
                        made: seq<Callouts.Made>)
  {
    && Ascending.Strictly(Callouts.Ids(made))
    && (forall x: Id :: x in Callouts.Ids(made) <==> x in seen && x in open && open[x].caller == caller)
    && (forall m :: m in made ==> m.id in open && m.kind == open[m.id].kind)
  }

  lemma ListsOneMore(open: map<Callouts.CalloutId, Callouts.Callout>, seen: seq<Id>, id: Id, caller: ContextId,
                     made: seq<Callouts.Made>)
    requires Lists(open, seen, caller, made) && id in open && forall x :: x in seen ==> x < id
    ensures Lists(open, seen + [id], caller,
                  if open[id].caller == caller then made + [Callouts.Made(id, open[id].kind)] else made)
  {
    var more := made + [Callouts.Made(id, open[id].kind)];
    var ids := Callouts.Ids(made);
    assert Callouts.Ids(more) == ids + [id];
    forall i | 0 <= i < |ids|
      ensures ids[i] < id
    {
      assert ids[i] in ids;
    }
  }

  lemma ListingIsMadeBy(t: Callouts.Table, seen: seq<Id>, caller: ContextId, made: seq<Callouts.Made>)
    requires Lists(t.open, seen, caller, made) && forall x: Id :: x in t.open ==> x in seen
    ensures made == t.MadeBy(caller)
  {
    var spec := t.MadeBy(caller);
    AscendingIsUnique(Callouts.Ids(made), Callouts.Ids(spec));
    assert |made| == |Callouts.Ids(made)| == |spec|;
    forall k | 0 <= k < |made|
      ensures made[k] == spec[k]
    {
      assert Callouts.Ids(made)[k] == Callouts.Ids(spec)[k];
      assert made[k] in made && spec[k] in spec;
    }
  }

  class ContextTable {
    var entries: map<ContextId, Entry>
    var next: ContextId
    var effective: Option<ContextId>
    var vmRejected: Option<ContextId>

    function Model(): Table
      reads this
    {
      Table(entries, next, effective, vmRejected)
    }

    constructor ()
      ensures Model() == NewTable()
    {
      entries, next, effective, vmRejected := map[], 1, None, None;
    }

    method Create(parent: Option<ContextId>) returns (made: Result<ContextId, CreateError>)
      modifies this
      ensures (Model(), made) == old(Model()).Create(parent)
    {
      var contextType := Root;
      if parent.Some? {
        match Model().TypeOf(parent.value) {
          case Some(Root) => contextType := Stream;
          case Some(Stream) => return Err(BadParent(parent.value, NotRoot));
          case None => return Err(BadParent(parent.value, Unknown));
        }
      }
      if next == U32_MAX {
        return Err(IdsExhausted);
      }
      var id := next;
      next := next + 1;
      entries := entries[id := Entry(contextType, None, parent, Active, false, None)];
      return Ok(id);
    }

    method SetStreamKind(id: ContextId, kind: StreamKind) returns (had: Option<StreamKind>)
      modifies this
      ensures Model() == old(Model()).SetKind(id, kind) && had == old(Model()).KindOf(id)
    {
      if id !in entries {
        return None;
      }
      had := entries[id].streamKind;
      entries := entries[id := entries[id].(streamKind := Some(kind))];
    }

    method SetState(id: ContextId, phase: Phase) returns (found: bool)
      modifies this
      ensures Model() == old(Model()).SetPhase(id, phase) && found == (id in old(entries))
    {
      found := id in entries;
      if found {
        entries := entries[id := entries[id].(phase := phase)];
      }
    }

    method Reject(root: ContextId) returns (found: bool)
      modifies this
      ensures Model() == old(Model()).Reject(root) && found == (root in old(entries))
    {
      found := root in entries;
      if found {
        entries := entries[root := entries[root].(rejected := true)];
      }
    }

    method RejectVm(root: ContextId)
      modifies this
      ensures Model() == old(Model()).RejectVm(root)
    {
      vmRejected := Some(root);
    }

    method Remove(id: ContextId) returns (removed: Option<ContextType>)
      modifies this
      ensures Model() == old(Model()).Remove(id) && removed == old(Model()).TypeOf(id)
    {
      if id !in entries {
        return None;
      }
      removed := Some(entries[id].contextType);
      entries := entries - {id};
      if effective == Some(id) {
        effective := None;
      }
    }

    method SetEffective(id: ContextId) returns (found: bool)
      modifies this
      ensures Model() == old(Model()).SetEffective(id) && found == (id in old(entries))
    {
      found := id in entries;
      if found {
        effective := Some(id);
      }
    }

    method Done() returns (marked: bool)
      modifies this
      ensures Model() == old(Model()).MarkDone()
      ensures marked == (old(effective).Some? && old(Model()).PhaseOf(old(effective).value) == Some(Pending))
    {
      if effective.None? {
        return false;
      }
      var id := effective.value;
      if id in entries && entries[id].phase.Pending? {
        entries := entries[id := entries[id].(phase := Phase.Done)];
        return true;
      }
      return false;
    }

    method SetTickPeriod(id: ContextId, period: Option<nat>) returns (found: bool)
      modifies this
      ensures Model() == old(Model()).SetTickPeriod(id, period)
      ensures found == (old(Model()).RootOf(id).Some? && old(Model()).RootOf(id).value in old(entries))
    {
      var root := Model().RootOf(id);
      if root.None? || root.value !in entries {
        return false;
      }
      entries := entries[root.value := entries[root.value].(tickPeriod := period)];
      return true;
    }

    /** The host function that moves the effective context. */
    method MoveEffective(id: ContextId)
      modifies this
      ensures Model() == old(Model()).MoveEffective(id)
    {
      if effective.None? {
        return;
      }
      if Model().RootOf(id) != Model().RootOf(effective.value) {
        return;
      }
      if Model().IsRejected(id) {
        return;
      }
      var found := SetEffective(id);
    }
  }

  class CalloutTable {
    var open: map<Callouts.CalloutId, Callouts.Callout>
    var next: Callouts.CalloutId
    ghost var reserved: nat

    ghost function Model(): Callouts.Table
      reads this
    {
      Callouts.Table(open, next, reserved)
    }

    constructor ()
      ensures Model() == Callouts.NewTable()
    {
      open, next, reserved := map[], 1, 0;
    }

    /** Looks at one candidate after another, at most one more than the table
        holds, and takes the first that is not open. */
    method Reserve() returns (id: Callouts.CalloutId, ghost examined: nat)
      requires |open.Keys| < U32_MAX
      modifies this
      ensures (Model(), id) == old(Model()).Reserve()
      ensures open == old(open) && id !in open
      ensures 1 <= examined <= |open.Keys| + 1
      ensures id == Callouts.Nth(old(next), examined - 1)
      ensures forall k: nat :: k < examined - 1 ==> Callouts.Nth(old(next), k) in open
    {
      ghost var start := next;
      ghost var skipped := Callouts.Skipped(open.Keys, start);
      examined := 0;
      Callouts.NthStep(start, 0);
      while true
        invariant open == old(open) && reserved == old(reserved)
        invariant examined <= skipped && next == Callouts.Nth(start, examined)
        invariant forall k: nat :: k < examined ==> Callouts.Nth(start, k) in open
        decreases skipped - examined
      {
        var candidate := next;
        next := if next == U32_MAX then 1 else next + 1;
        examined := examined + 1;
        Callouts.NthStep(start, examined - 1);
        if candidate !in open {
          Callouts.SkippedIsUnique(open.Keys, start, examined - 1);
          reserved := reserved + 1;
          return candidate, examined;
        }
      }
    }

    method Enter(id: Callouts.CalloutId, callout: Callouts.Callout)
      modifies this
      ensures Model() == old(Model()).Enter(id, callout)
    {
      open := open[id := callout];
    }

    method Remove(id: Callouts.CalloutId) returns (removed: Option<Callouts.Callout>)
      modifies this
      ensures Model() == old(Model()).Remove(id)
      ensures removed == if id in old(open) then Some(old(open)[id]) else None
    {
      removed := if id in open then Some(open[id]) else None;
      open := open - {id};
    }

    method CloseByGuest(id: Callouts.CalloutId)
      modifies this
      ensures Model() == old(Model()).CloseByGuest(id)
    {
      if id in open {
        open := open[id := open[id].(closedByGuest := true)];
      }
    }

    /** Filters the open callouts in identifier order. */
    method MadeBy(caller: ContextId) returns (made: seq<Callouts.Made>)
      ensures made == Model().MadeBy(caller)
    {
      var ids := Ascending.Sorted(open.Keys);
      made := [];
      var i := 0;
      while i < |ids|
        invariant i <= |ids|
        invariant Lists(open, ids[..i], caller, made)
      {
        var id := ids[i];
        assert forall x :: x in ids[..i] ==> x < id;
        assert ids[..i + 1] == ids[..i] + [id] && id in ids;
        ListsOneMore(open, ids[..i], id, caller, made);
        if open[id].caller == caller {
          made := made + [Callouts.Made(id, open[id].kind)];
        }
        i := i + 1;
      }
      assert ids[..i] == ids;
      ListingIsMadeBy(Model(), ids, caller, made);
    }
  }
}
