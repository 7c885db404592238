/** What guest code does to the tables while a callback runs: the host functions
    that reach them, and the call that runs a script of them. */
module GuestCode {
  import opened Prelude
  import opened Contexts
  import opened States
  import Callouts
  import Grants

  function OpenOne(s: State, kind: Callouts.Kind, accepted: bool): State {
    var caller := s.contexts.Caller();
    if caller.None? || s.contexts.RootOf(caller.value).None? then s
    else if s.deleting == caller then s
    else if |s.callouts.open.Keys| >= s.maximum then s
    else
      var (reserved, id) := s.callouts.Reserve();
      if !accepted then s.(callouts := reserved)
      else
        var entry := Callouts.Callout(kind, caller.value, s.contexts.RootOf(caller.value).value, false);
        s.(callouts := reserved.Enter(id, entry)).Note(Opened(id))
  }

  /** The callout, when it is open and the effective context made it. */
  predicate Finds(s: State, id: Callouts.CalloutId) {
    id in s.callouts.open && s.contexts.Caller() == Some(s.callouts.open[id].caller)
  }

  function EndByGuest(s: State, id: Callouts.CalloutId): State {
    s.(callouts := s.callouts.Remove(id)).Note(Ended(id, ByGuest))
  }

  function CancelOne(s: State, id: Callouts.CalloutId): State {
    if Finds(s, id) && !s.callouts.open[id].kind.HttpCall? then EndByGuest(s, id) else s
  }

  /** A call ends here, and a stream closes the guest's side alone. */
  function CloseOne(s: State, id: Callouts.CalloutId): State {
    if !Finds(s, id) then s
    else match s.callouts.open[id].kind
      case HttpCall => s
      case GrpcCall => EndByGuest(s, id)
      case GrpcStream => s.(callouts := s.callouts.CloseByGuest(id))
  }

  function SendOne(s: State, id: Callouts.CalloutId, endOfStream: bool, accepted: bool): State {
    if Finds(s, id) && s.callouts.open[id].kind.GrpcStream? && !s.callouts.open[id].closedByGuest
       && accepted && endOfStream
    then s.(callouts := s.callouts.CloseByGuest(id))
    else s
  }

  function SetPeriod(s: State, period: Option<nat>): State {
    var caller := s.contexts.Caller();
    var root := if caller.Some? then s.contexts.RootOf(caller.value) else None;
    if root.None? || root.value !in s.contexts.entries then s
    else
      s.(contexts := s.contexts.SetTickPeriod(caller.value, period),
         grants := s.grants.NoteTickPeriod(root.value, period))
  }

  /** The grants are settled before the context is read, so a call that is
      refused settles them as well. */
  function RegisterOne(s: State, queue: Option<Grants.QueueId>, name: seq<byte>): State {
    var settled := s.grants.Settle();
    var caller := s.contexts.Caller();
    if caller.None? || queue.None? then s.(grants := settled)
    else
      var granted := settled.GrantQueue(queue.value);
      var root := s.contexts.RootOf(caller.value);
      s.(grants := if root.Some? then granted.Register(queue.value, root.value, name) else granted)
  }

  function ResolveOne(s: State, queue: Option<Grants.QueueId>): State {
    var settled := s.grants.Settle();
    if s.contexts.Caller().None? || queue.None? then s.(grants := settled)
    else s.(grants := settled.GrantQueue(queue.value))
  }

  function ReadOne(s: State, buffer: BufferType): State {
    if s.announced == Some(buffer) then s.(announced := None) else s
  }

  function Do(s: State, act: Act): State {
    match act
    case OpenCallout(kind, accepted) => OpenOne(s, kind, accepted)
    case Send(id, endOfStream, accepted) => SendOne(s, id, endOfStream, accepted)
    case Cancel(id) => CancelOne(s, id)
    case Close(id) => CloseOne(s, id)
    case SetEffective(id) => s.(contexts := s.contexts.MoveEffective(id))
    case ProxyDone => s.(contexts := s.contexts.MarkDone())
    case SetTickPeriod(period) => SetPeriod(s, period)
    case RegisterQueue(queue, name) => RegisterOne(s, queue, name)
    case ResolveQueue(queue) => ResolveOne(s, queue)
    case UseQueue => s.(grants := s.grants.Settle())
    case ReadBuffer(buffer) => ReadOne(s, buffer)
  }

  function Perform(s: State, acts: seq<Act>): State
    decreases |acts|
  {
    if acts == [] then s else Perform(Do(s, acts[0]), acts[1..])
  }

  /** How a guest call came back: with a value, with an error, or not at all. */
  datatype Ret = Returned(value: int) | Refused | Trapped | Panicked

  /** The call itself. An absent callback takes the default, a poisoned guest is not
      entered, and a panic leaves the callback current. */
  function Call(s: State, context: ContextId, callback: Callback, default: int): (State, Ret)
  {
    if s.future == [] || s.future[0].Absent? then
      (s.(future := if s.future == [] then [] else s.future[1..]), Returned(default))
    else if s.poisoned then (s, Refused)
    else
      var play := s.future[0];
      var entered := s.(future := s.future[1..]).Note(Snapshot(s, context, callback));
      var performed := Perform(entered, play.acts);
      match play.outcome
      case Return(value) => (performed, Returned(value))
      case Trap => (performed.(poisoned := true), Trapped)
      case Panic => (performed, Panicked)
  }

  function Snapshot(s: State, context: ContextId, callback: Callback): Event
  {
    Entered(callback, context, s.contexts.RootOf(context), s.contexts.Find(context),
            s.contexts.RejectionOf(context).Some?, s.scope)
  }

  /** Makes the context effective and the callback current, calls the guest, and
      clears the callback on return. */
  function Run(s: State, context: ContextId, callback: Callback, default: int): (State, Ret)
  {
    var before := s.(contexts := s.contexts.SetEffective(context), current := Some(callback));
    var (after, ret) := Call(before, context, callback, default);
    if ret.Panicked? then (after, ret) else (after.(current := None), ret)
  }
}
