/** The table of live contexts: roots, the streams under them, and how far each
    one is through its finalization. */
module Contexts {
  import opened Prelude

  type ContextId = Id

  datatype ContextType = Root | Stream

  datatype StreamKind = Tcp | Http

  /** How far a context is through done, log, delete. */
  datatype Phase = Active | Pending | Done

  datatype Entry = Entry(
    contextType: ContextType,
    streamKind: Option<StreamKind>,
    parent: Option<ContextId>,
    phase: Phase,
    rejected: bool,
    tickPeriod: Option<nat>)

  datatype Problem =
    | Unknown
    | NotRoot
    | NotStream
    | NotDone
    | HasChildren
    | OtherStream(lent: ContextId)
    | WrongStreamKind(recorded: StreamKind, attempted: StreamKind)

  /** Which refusal outlives its callback: the one of the whole instance, or
      the one of a root. */
  datatype Rejection = ByVmStart | ByConfigure

  datatype CreateError = BadParent(parent: ContextId, problem: Problem) | IdsExhausted

  datatype Table = Table(
    entries: map<ContextId, Entry>,
    next: ContextId,
    effective: Option<ContextId>,
    vmRejected: Option<ContextId>)
  {
    function Find(id: ContextId): Option<Entry> {
      if id in entries then Some(entries[id]) else None
    }

    function TypeOf(id: ContextId): Option<ContextType> {
      if id in entries then Some(entries[id].contextType) else None
    }

    function PhaseOf(id: ContextId): Option<Phase> {
      if id in entries then Some(entries[id].phase) else None
    }

    function KindOf(id: ContextId): Option<StreamKind> {
      if id in entries then entries[id].streamKind else None
    }

    function Parent(id: ContextId): Option<ContextId> {
      if id in entries then entries[id].parent else None
    }

    function RootOf(id: ContextId): Option<ContextId> {
      if id !in entries then None
      else if entries[id].parent.Some? then entries[id].parent
      else Some(id)
    }

    predicate HasChildren(id: ContextId) {
      && TypeOf(id) == Some(Root)
      && exists child :: child in entries && entries[child].parent == Some(id)
    }

    predicate IsRejected(id: ContextId) {
      var root := RootOf(id);
      root.Some? && root.value in entries && entries[root.value].rejected
    }

    /** A refusal of the instance outranks a refusal of the root. */
    function RejectionOf(id: ContextId): Option<Rejection> {
      if vmRejected.Some? then Some(ByVmStart)
      else if IsRejected(id) then Some(ByConfigure)
      else None
    }

    function Create(parent: Option<ContextId>): (Table, Result<ContextId, CreateError>) {
      match if parent.None? then Ok(Root) else ChildType(parent.value)
      case Err(problem) => (this, Err(BadParent(parent.value, problem)))
      case Ok(contextType) =>
        if next == U32_MAX then (this, Err(IdsExhausted))
        else
          var entry := Entry(contextType, None, parent, Active, false, None);
          (this.(entries := entries[next := entry], next := next + 1), Ok(next))
    }

    function ChildType(parent: ContextId): (r: Result<ContextType, Problem>)
      ensures r.Ok? <==> TypeOf(parent) == Some(Root)
    {
      match TypeOf(parent)
      case Some(Root) => Ok(Stream)
      case Some(Stream) => Err(NotRoot)
      case None => Err(Unknown)
    }

    function SetKind(id: ContextId, kind: StreamKind): Table {
      if id in entries then this.(entries := entries[id := entries[id].(streamKind := Some(kind))]) else this
    }

    function SetPhase(id: ContextId, phase: Phase): Table {
      if id in entries then this.(entries := entries[id := entries[id].(phase := phase)]) else this
    }

    function Reject(root: ContextId): Table {
      if root in entries then this.(entries := entries[root := entries[root].(rejected := true)]) else this
    }

    function RejectVm(root: ContextId): Table {
      this.(vmRejected := Some(root))
    }

    function Remove(id: ContextId): Table {
      if id !in entries then this
      else this.(entries := entries - {id}, effective := if effective == Some(id) then None else effective)
    }

    function SetEffective(id: ContextId): Table {
      if id in entries then this.(effective := Some(id)) else this
    }

    /** `proxy_done`: a pending effective context becomes done. */
    function MarkDone(): Table {
      if effective.Some? && effective.value in entries && entries[effective.value].phase == Pending
      then SetPhase(effective.value, Done)
      else this
    }

    function SetTickPeriod(id: ContextId, period: Option<nat>): Table {
      var root := RootOf(id);
      if root.Some? && root.value in entries
      then this.(entries := entries[root.value := entries[root.value].(tickPeriod := period)])
      else this
    }

    /** The effective context, refused when its root or the instance is. */
    function Caller(): Option<ContextId> {
      if effective.Some? && RejectionOf(effective.value).None? then effective else None
    }

    /** `proxy_set_effective_context`: a move inside the root being served. */
    function MoveEffective(id: ContextId): Table {
      if effective.None? || RootOf(id) != RootOf(effective.value) || IsRejected(id) then this
      else SetEffective(id)
    }

    /** Two levels: a stream hangs under a live root and a root under nothing.
        The effective context is live, and no identifier at or above the
        counter is in use. */
    ghost predicate Forest() {
      && (forall id :: id in entries ==> id < next)
      && (forall id :: id in entries ==> SoundEntry(entries[id]))
      && (effective.Some? ==> effective.value in entries)
    }

    ghost predicate SoundEntry(entry: Entry) {
      match entry.contextType
      case Root => entry.parent.None? && entry.streamKind.None?
      case Stream =>
        && entry.parent.Some? && entry.parent.value in entries
        && entries[entry.parent.value].contextType.Root?
    }
  }

  function NewTable(): Table {
    Table(map[], 1, None, None)
  }

  /** A new context gets an identifier that no context ever had, its parent is a
      live root, and every other entry stays as it was. */
  lemma CreateKeepsForest(t: Table, parent: Option<ContextId>)
    requires t.Forest()
    ensures var (u, made) := t.Create(parent);
      && u.Forest()
      && (made.Err? ==> u == t)
      && (made.Ok? ==>
            && made.value == t.next && made.value !in t.entries && u.next == t.next + 1
            && u.entries.Keys == t.entries.Keys + {made.value}
            && u.RootOf(made.value) == Some(if parent.Some? then parent.value else made.value)
            && u.entries[made.value].phase == Active
            && u.effective == t.effective && u.vmRejected == t.vmRejected
            && forall id :: id in t.entries ==> u.entries[id] == t.entries[id])
  {
  }

  /** A context with no children leaves no dangling parent behind. */
  lemma RemoveKeepsForest(t: Table, id: ContextId)
    requires t.Forest() && id in t.entries && !t.HasChildren(id)
    ensures t.Remove(id).Forest() && id !in t.Remove(id).entries && id < t.Remove(id).next
  {
    var u := t.Remove(id);
    forall other | other in u.entries
      ensures u.SoundEntry(u.entries[other])
    {
      assert t.SoundEntry(t.entries[other]);
      if t.entries[other].parent == Some(id) {
        assert t.HasChildren(id);
      }
    }
  }
}
