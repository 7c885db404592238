/** The scope through which the embedder drives a guest, as the object that changes
    in place. Each method is proved against its function in `Scope`. */
module CallScopes {
  import opened Prelude
  import opened Contexts
  import opened States
  import opened GuestCode
  import opened Scope
  import opened Guests
  import Callouts
  import Grants

  /** A check that a method stops on. */
  datatype Check = Pass | Stop(error: GuestError) {
    predicate IsFailure() { Stop? }

    function PropagateFailure(): Answer
      requires Stop?
    {
      Answer.Failed(error)
    }
  }

  function Must(refusal: Option<GuestError>): Check {
    if refusal.Some? then Stop(refusal.value) else Pass
  }

  /** Poisons a guest whose last callback never returned, and refuses a poisoned
      one. */
  method RequireLiveGuest(guest: Guest) returns (check: Check)
    modifies guest.Parts()
    ensures guest.Model() == RequireLive(old(guest.Model()))
    ensures check == Must(Dead(guest.Model()))
  {
    if guest.abi.current.Some? {
      guest.poisoned := true;
    }
    return if guest.poisoned then Stop(Poisoned) else Pass;
  }

  /** One delivery to the guest. The guest does not find an entry that ends here,
      and the embedder finds it again after a failed call. */
  method DeliverTo(guest: Guest, context: ContextId, callout: Option<Callouts.CalloutId>, callback: Callback,
                   ends: bool) returns (ret: Ret)
    modifies guest.Parts()
    ensures (guest.Model(), ret) == Deliver(old(guest.Model()), context, callout, callback, ends)
    ensures guest.served == old(guest.served)
  {
    var entry: Option<Callouts.Callout> := None;
    if ends && callout.Some? {
      entry := guest.abi.callouts.Remove(callout.value);
      if entry.Some? {
        guest.log := guest.log + [Ended(callout.value, Delivered)];
      } else {
        assert guest.abi.callouts.open == old(guest.abi.callouts.open);
      }
    }
    guest.abi.delivery := Some(Delivery(callout));
    assert guest.Model() == Lend(old(guest.Model()), callout, ends);
    ret := guest.Run(context, callback, 0);
    if ret.Panicked? {
      return;
    }
    guest.abi.delivery := None;
    if entry.Some? && guest.poisoned {
      guest.abi.callouts.Enter(callout.value, entry.value);
      guest.log := guest.log + [Restored(callout.value)];
    }
  }

  /** Removes every callout of `context` with no guest call. */
  method DropOpenCallouts(guest: Guest, context: ContextId) returns (dropped: seq<Callouts.CalloutId>)
    modifies guest.Parts()
    ensures (guest.Model(), dropped) == DropOpen(old(guest.Model()), context)
    ensures guest.served == old(guest.served)
  {
    var made := guest.abi.callouts.MadeBy(context);
    var i := 0;
    while i < |made|
      invariant i <= |made|
      invariant guest.Model() == old(guest.Model()).(callouts := guest.abi.callouts.Model())
      invariant guest.abi.callouts.Model().Drop(made[i..]) == old(guest.abi.callouts.Model()).Drop(made)
    {
      assert made[i..][0] == made[i] && made[i..][1..] == made[i + 1..];
      var removed := guest.abi.callouts.Remove(made[i].id);
      i := i + 1;
    }
    guest.log := guest.log + Drops(made);
    return Callouts.Ids(made);
  }

  /** Tells the guest of `root` that what `context` has open failed, one callout after
      another. A callout that an earlier failure made the guest end is passed over. */
  method FailOpenCallouts(guest: Guest, context: ContextId, root: ContextId) returns (sweep: Sweep)
    modifies guest.Parts()
    ensures (guest.Model(), sweep) == FailOpen(old(guest.Model()), context, root)
    ensures guest.served == old(guest.served)
  {
    var open := guest.abi.callouts.MadeBy(context);
    if guest.abi.contexts.Model().RejectionOf(root).Some? {
      var dropped := DropOpenCallouts(guest, context);
      return Swept(dropped);
    }
    var ended: seq<Callouts.CalloutId> := [];
    var i := 0;
    while i < |open|
      invariant i <= |open| && guest.served == old(guest.served)
      invariant FailEach(guest.Model(), root, open[i..], ended) == FailEach(old(guest.Model()), root, open, [])
    {
      assert open[i..][0] == open[i] && open[i..][1..] == open[i + 1..];
      var made := open[i];
      i := i + 1;
      if made.id !in guest.abi.callouts.open {
        continue;
      }
      var ret := DeliverTo(guest, root, Some(made.id), FailureCallback(made.kind), true);
      if !ret.Returned? {
        return Broken(ret);
      }
      ended := ended + [made.id];
    }
    return Swept(ended);
  }

  class CallScope {
    const guest: Guest
    var served: Option<ContextId>

    ghost predicate Valid()
      reads this, guest
    {
      guest.served == served
    }

    ghost function Parts(): set<object> {
      {this} + guest.Parts()
    }

    ghost function Model(): State
      reads guest, guest.abi, guest.abi.contexts, guest.abi.callouts
    {
      guest.Model()
    }

    /** A new scope serves no stream yet. */
    constructor (guest: Guest)
      modifies guest
      ensures this.guest == guest && Valid() && Model() == Enter(old(guest.Model()))
    {
      this.guest, served := guest, None;
      new;
      guest.served, guest.scope := None, guest.scope + 1;
    }

    method Finish()
      requires Valid()
      modifies Parts()
      ensures Valid() && Model() == Scope.Finish(old(Model()))
    {
      if guest.abi.current.Some? {
        guest.poisoned := true;
      }
      Drop();
    }

    /** A scope that goes out of use with no call of `Finish`. */
    method Drop()
      requires Valid()
      modifies Parts()
      ensures Valid() && Model() == DropScope(old(Model()))
    {
      if guest.abi.current.Some? {
        guest.poisoned := true;
        guest.abi.current := None;
      }
    }

    method ReplaceShared(shared: Grants.StoreId)
      requires Valid()
      modifies Parts()
      ensures Valid() && Model() == ReplaceStore(old(Model()), shared)
    {
      guest.abi.ReplaceShared(shared);
    }

    method TakeChanges() returns (answer: Answer)
      requires Valid()
      modifies Parts()
      ensures Valid() && (Model(), answer) == Scope.TakeChanges(old(Model()))
    {
      var taken := guest.abi.TakeChanges();
      return TakenChanges(taken);
    }

    method ExpectStreamKind(id: ContextId, kind: StreamKind) returns (answer: Answer)
      requires Valid()
      modifies Parts()
      ensures Valid() && (Model(), answer) == ExpectKind(old(Model()), id, kind)
    {
      var contexts := guest.abi.contexts;
      :- RequireLiveGuest(guest);
      :- Must(RequireStream(contexts.Model(), id));
      :- Must(RequireKind(contexts.Model(), id, kind));
      var had := contexts.SetStreamKind(id, kind);
      return Answered;
    }

    // ---- Start ----

    method OnContextCreate(parent: Option<ContextId>) returns (answer: Answer)
      requires Valid()
      modifies Parts()
      ensures Valid() && (Model(), answer) == Scope.OnContextCreate(old(Model()), parent)
    {
      var contexts := guest.abi.contexts;
      :- RequireLiveGuest(guest);
      if parent.Some? {
        var root := parent.value;
        :- Must(RequireRoot(contexts.Model(), root));
        :- Must(Accepted(contexts.Model(), root));
      } else {
        var refusal := VmAccepted(contexts.Model());
        :- Must(refusal);
      }
      var made := contexts.Create(parent);
      match made {
        case Err(BadParent(id, problem)) => return Failed(ContextError(id, problem));
        case Err(IdsExhausted) => return Failed(ContextIdsExhausted);
        case Ok(id) =>
          guest.log := guest.log + [Created(id, parent.GetOr(id))];
          var ret := guest.Run(id, ContextCreate, 0);
          return if ret.Returned? then NewContext(id) else Report(ret);
      }
    }

    method OnVmStart(root: ContextId, size: nat) returns (answer: Answer)
      requires Valid()
      modifies Parts()
      ensures Valid() && (Model(), answer) == Scope.OnVmStart(old(Model()), root, size)
    {
      var contexts := guest.abi.contexts;
      :- RequireLiveGuest(guest);
      :- Must(RequireRoot(contexts.Model(), root));
      :- Must(Accepted(contexts.Model(), root));
      :- Must(WireSize(size));
      var ret := guest.Run(root, VmStart, 1);
      if !ret.Returned? {
        return Report(ret);
      }
      match Boolean(VmStart, ret.value) {
        case Err(error) => return Failed(error);
        case Ok(accepted) =>
          if !accepted {
            contexts.RejectVm(root);
            guest.log := guest.log + [RefusedVm];
          }
          return Flag(accepted);
      }
    }

    method OnConfigure(root: ContextId, size: nat) returns (answer: Answer)
      requires Valid()
      modifies Parts()
      ensures Valid() && (Model(), answer) == Scope.OnConfigure(old(Model()), root, size)
    {
      var contexts := guest.abi.contexts;
      :- RequireLiveGuest(guest);
      :- Must(RequireRoot(contexts.Model(), root));
      :- Must(Accepted(contexts.Model(), root));
      :- Must(WireSize(size));
      var ret := guest.Run(root, Configure, 1);
      if !ret.Returned? {
        return Report(ret);
      }
      match Boolean(Configure, ret.value) {
        case Err(error) => return Failed(error);
        case Ok(accepted) =>
          if !accepted {
            var found := contexts.Reject(root);
            guest.log := guest.log + [RefusedRoot(root)];
          }
          return Flag(accepted);
      }
    }

    // ---- Stream callbacks ----

    method RequireServed(id: ContextId) returns (check: Check)
      requires Valid()
      modifies this, guest
      ensures Valid() && check == Must(OtherThanServed(old(Model()), id))
      ensures Model() == if check.Stop? then old(Model()) else old(Model()).(served := Some(id))
    {
      if served.Some? && served.value != id {
        return Stop(ContextError(id, OtherStream(served.value)));
      }
      served := Some(id);
      guest.served := served;
      return Pass;
    }

    method RequireServedStream(id: ContextId) returns (check: Check)
      requires Valid()
      modifies this, guest
      ensures Valid() && Model() == ServedStream(old(Model()), id).0
      ensures check == Must(ServedStream(old(Model()), id).1)
    {
      check := Pass;
      if guest.abi.contexts.Model().TypeOf(id) == Some(Stream) {
        check := RequireServed(id);
      }
    }

    /** The checks of a stream callback, and the two records after the last. */
    method RecordStream(id: ContextId, kind: StreamKind) returns (check: Check)
      requires Valid()
      modifies Parts()
      ensures Valid()
      ensures var live := RequireLive(old(Model()));
        && check == Must(StreamPrologue(live, id, kind))
        && Model() == if check.Stop? then live else Recorded(live, id, kind)
    {
      check := RequireLiveGuest(guest);
      if check.Stop? { return; }
      check := Must(RequireStream(guest.abi.contexts.Model(), id));
      if check.Stop? { return; }
      check := Must(Accepted(guest.abi.contexts.Model(), id));
      if check.Stop? { return; }
      check := Must(RequireKind(guest.abi.contexts.Model(), id, kind));
      if check.Stop? { return; }
      check := RequireServed(id);
      if check.Stop? { return; }
      var had := guest.abi.contexts.SetStreamKind(id, kind);
    }

    method StreamAction(id: ContextId, callback: Callback, size: nat) returns (answer: Answer)
      requires Valid() && callback.Family().Some?
      modifies Parts()
      ensures Valid() && (Model(), answer) == Scope.StreamAction(old(Model()), id, callback, size)
    {
      var tooLarge := if callback.NewConnection? then None else WireSize(size);
      :- Must(tooLarge);
      :- RecordStream(id, callback.Family().value);
      answer := AnnouncedAction(id, callback);
    }

    /** The callback with the buffer it announces, which is cleared when the guest
        returned or failed. */
    method AnnouncedAction(id: ContextId, callback: Callback) returns (answer: Answer)
      requires Valid()
      modifies Parts()
      ensures Valid()
      ensures var (after, ret) := Run(old(Model()).(announced := callback.Announces()), id, callback, 0);
        (Model(), answer) == Acted(after, ret, callback)
    {
      guest.abi.announced := callback.Announces();
      ghost var before := Model();
      assert before == old(Model()).(announced := callback.Announces());
      var ret := guest.Run(id, callback, 0);
      ghost var after := Model();
      assert (after, ret) == Run(before, id, callback, 0);
      if ret.Panicked? {
        return Unwound;
      }
      guest.abi.announced := None;
      if !ret.Returned? {
        return Report(ret);
      }
      return if ret.value == 0 || ret.value == 1 then Action(ret.value)
        else Failed(UnexpectedReturn(callback, ret.value));
    }

    method StreamEvent(id: ContextId, callback: Callback) returns (answer: Answer)
      requires Valid() && callback.Family() == Some(Tcp)
      modifies Parts()
      ensures Valid() && (Model(), answer) == Scope.StreamEvent(old(Model()), id, callback)
    {
      var check := RecordStream(id, Tcp);
      :- check;
      var ret := guest.Run(id, callback, 0);
      return Report(ret);
    }

    // ---- Deliveries ----

    method OnHttpCallResponse(context: ContextId, callout: Callouts.CalloutId, response: Response)
      returns (answer: Answer)
      requires Valid()
      modifies Parts()
      ensures Valid() && (Model(), answer) == Scope.OnHttpCallResponse(old(Model()), context, callout, response)
    {
      var contexts := guest.abi.contexts;
      :- RequireLiveGuest(guest);
      if callout !in guest.abi.callouts.open {
        return Failed(CalloutError(callout, NotOpen));
      }
      var entry := guest.abi.callouts.open[callout];
      if entry.caller != context {
        return Failed(CalloutError(callout, NotMadeBy(context)));
      }
      if !entry.kind.HttpCall? {
        return Failed(CalloutError(callout, WrongKind(entry.kind)));
      }
      if response.Received? && response.headers == 0 {
        return Failed(CalloutError(callout, NoResponseHeader));
      }
      :- Must(RequireRoot(contexts.Model(), entry.root));
      :- Must(Accepted(contexts.Model(), entry.root));
      :- Must(ResponseSize(response));
      var ret := DeliverTo(guest, entry.root, Some(callout), HttpCallResponse, true);
      return Report(ret);
    }

    method OnGrpc(context: ContextId, callout: Callouts.CalloutId, callback: Callback, size: nat)
      returns (answer: Answer)
      requires Valid()
      modifies Parts()
      ensures Valid() && (Model(), answer) == Scope.OnGrpc(old(Model()), context, callout, callback, size)
    {
      var contexts := guest.abi.contexts;
      :- RequireLiveGuest(guest);
      if callout !in guest.abi.callouts.open {
        return Failed(CalloutError(callout, NotOpen));
      }
      var entry := guest.abi.callouts.open[callout];
      if entry.caller != context {
        return Failed(CalloutError(callout, NotMadeBy(context)));
      }
      if entry.kind.HttpCall? {
        return Failed(CalloutError(callout, WrongKind(entry.kind)));
      }
      :- Must(RequireRoot(contexts.Model(), entry.root));
      :- Must(Accepted(contexts.Model(), entry.root));
      :- Must(WireSize(size));
      var ret := DeliverTo(guest, entry.root, Some(callout), callback, GrpcEnds(callback, entry.kind));
      return Report(ret);
    }

    method OnForeignFunction(context: ContextId, size: nat) returns (answer: Answer)
      requires Valid()
      modifies Parts()
      ensures Valid() && (Model(), answer) == Scope.OnForeignFunction(old(Model()), context, size)
    {
      var contexts := guest.abi.contexts;
      :- RequireLiveGuest(guest);
      :- Must(Require(contexts.Model(), context));
      :- Must(Accepted(contexts.Model(), context));
      :- Must(WireSize(size));
      var ret := DeliverTo(guest, context, None, ForeignFunction, false);
      return Report(ret);
    }

    method OnTick(root: ContextId) returns (answer: Answer)
      requires Valid()
      modifies Parts()
      ensures Valid() && (Model(), answer) == Scope.OnTick(old(Model()), root)
    {
      var contexts := guest.abi.contexts;
      :- RequireLiveGuest(guest);
      :- Must(RequireRoot(contexts.Model(), root));
      :- Must(Accepted(contexts.Model(), root));
      var ret := guest.Run(root, Tick, 0);
      return Report(ret);
    }

    method OnQueueReady(root: ContextId, queue: Grants.QueueId) returns (answer: Answer)
      requires Valid()
      modifies Parts()
      ensures Valid() && (Model(), answer) == Scope.OnQueueReady(old(Model()), root, queue)
    {
      var contexts := guest.abi.contexts;
      :- RequireLiveGuest(guest);
      :- Must(RequireRoot(contexts.Model(), root));
      :- Must(Accepted(contexts.Model(), root));
      var registrants := guest.abi.Registrants(queue);
      if root !in registrants {
        return Failed(NotRegisteredBy(queue, root));
      }
      var ret := guest.Run(root, QueueReady, 0);
      return Report(ret);
    }

    // ---- The end of a context ----

    method OnDone(id: ContextId) returns (answer: Answer)
      requires Valid()
      modifies Parts()
      ensures Valid() && (Model(), answer) == Scope.OnDone(old(Model()), id)
    {
      var contexts := guest.abi.contexts;
      :- RequireLiveGuest(guest);
      :- RequireServedStream(id);
      :- Must(Require(contexts.Model(), id));
      var ret := guest.Run(id, ContextDone, 1);
      if !ret.Returned? {
        return Report(ret);
      }
      match Boolean(ContextDone, ret.value) {
        case Err(error) => return Failed(error);
        case Ok(done) =>
          var found := contexts.SetState(id, if done then Done else Pending);
          return Flag(done);
      }
    }

    method OnLog(id: ContextId) returns (answer: Answer)
      requires Valid()
      modifies Parts()
      ensures Valid() && (Model(), answer) == Scope.OnLog(old(Model()), id)
    {
      var contexts := guest.abi.contexts;
      :- RequireLiveGuest(guest);
      :- RequireServedStream(id);
      :- Must(RequireDone(contexts.Model(), id));
      var ret := guest.Run(id, ContextLog, 0);
      return Report(ret);
    }

    /** A root gets its failures before the callback, and a stream after it. */
    method Delete(id: ContextId) returns (answer: Answer)
      requires Valid()
      modifies Parts()
      ensures Valid() && (Model(), answer) == Scope.Delete(old(Model()), id)
    {
      var root := guest.abi.contexts.Model().Parent(id);
      var ended: seq<Callouts.CalloutId> := [];
      if root.None? {
        var first := FailOpenCallouts(guest, id, id);
        if first.Broken? {
          return Report(first.ret);
        }
        ended := first.ended;
      }
      var ret := guest.Run(id, ContextDelete, 0);
      if !ret.Returned? {
        return Report(ret);
      }
      answer := Forget(id, root, ended);
    }

    /** The removal, the failures of a stream, and whatever is left. */
    method Forget(id: ContextId, root: Option<ContextId>, ended: seq<Callouts.CalloutId>) returns (answer: Answer)
      requires Valid()
      modifies Parts()
      ensures Valid()
      ensures (Model(), answer) == Conclude(Forgotten(old(Model()), id, root), id, root, ended)
    {
      hide FailOpen, DropOpen;
      var removed := guest.abi.contexts.Remove(id);
      if root.None? {
        guest.abi.ForgetRegistrant(id);
      }
      guest.log := guest.log + [Deleted(id)];
      assert Model() == Forgotten(old(Model()), id, root);
      var second: Sweep := Swept([]);
      if root.Some? {
        second := FailOpenCallouts(guest, id, root.value);
        if second.Broken? {
          return Report(second.ret);
        }
      }
      var rest := DropOpenCallouts(guest, id);
      return EndedCallouts(ended + second.ended + rest);
    }

    method OnDelete(id: ContextId) returns (answer: Answer)
      requires Valid()
      modifies Parts()
      ensures Valid() && (Model(), answer) == Scope.OnDelete(old(Model()), id)
    {
      var contexts := guest.abi.contexts;
      :- RequireLiveGuest(guest);
      :- RequireServedStream(id);
      :- Must(RequireDeletable(contexts.Model(), id));
      guest.abi.deleting := Some(id);
      answer := Delete(id);
      if !answer.Unwound? {
        guest.abi.deleting := None;
      }
    }
  }
}
