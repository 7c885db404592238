/** One guest as the objects that change in place: the state the ABI keeps for it,
    what its code does to that state, and the call that runs its code. */
module Guests {
  import opened Prelude
  import opened Contexts
  import opened States
  import opened Tables
  import GuestCode
  import Callouts
  import Grants

  class AbiState {
    const contexts: ContextTable
    const callouts: CalloutTable
    var current: Option<Callback>
    var announced: Option<BufferType>
    var deleting: Option<ContextId>
    var delivery: Option<Delivery>
    var store: Grants.StoreId
    var grantedAgainst: Option<Grants.StoreId>
    var queues: set<Grants.QueueId>
    var registrants: map<Grants.QueueId, set<ContextId>>
    var changes: Grants.Changes
    ghost var everMade: set<(Grants.QueueId, ContextId, Grants.StoreId)>
    ghost var reported: set<(Grants.QueueId, ContextId)>
    ghost var missed: set<(Grants.QueueId, ContextId)>
    ghost var told: map<ContextId, Option<nat>>
    ghost var clears: nat
    ghost var installed: nat

    ghost function Granted(): Grants.Grants
      reads this
    {
      Grants.Grants(store, grantedAgainst, queues, registrants, changes, everMade, reported, missed, told,
                    clears, installed)
    }

    /** What the grants do not touch. */
    ghost function Marks(): (Option<Callback>, Option<BufferType>, Option<ContextId>, Option<Delivery>)
      reads this
    {
      (current, announced, deleting, delivery)
    }

    constructor (shared: Grants.StoreId)
      ensures fresh(contexts) && fresh(callouts)
      ensures contexts.Model() == Contexts.NewTable() && callouts.Model() == Callouts.NewTable()
      ensures Granted() == Grants.NewGrants(shared) && Marks() == (None, None, None, None)
    {
      contexts := new ContextTable();
      callouts := new CalloutTable();
      current, announced, deleting, delivery := None, None, None, None;
      store, grantedAgainst, queues, registrants := shared, None, {}, map[];
      changes := Grants.Changes(map[], {});
      everMade, reported, missed, told, clears, installed := {}, {}, {}, map[], 0, 0;
    }

    /** Drops every grant of a store that is not the installed one. */
    method Settle()
      modifies this
      ensures Granted() == old(Granted()).Settle() && Marks() == old(Marks())
    {
      if grantedAgainst == Some(store) {
        return;
      }
      queues, registrants := {}, map[];
      changes := changes.(queues := {});
      grantedAgainst := Some(store);
      reported, missed, clears := {}, {}, clears + 1;
    }

    method GrantQueue(queue: Grants.QueueId)
      modifies this
      ensures Granted() == old(Granted()).GrantQueue(queue) && Marks() == old(Marks())
    {
      queues := queues + {queue};
    }

    /** Records a registration, which waits for the next reading when it is the first. */
    method RegisterQueue(queue: Grants.QueueId, root: ContextId, name: seq<byte>)
      modifies this
      ensures Granted() == old(Granted()).Register(queue, root, name) && Marks() == old(Marks())
    {
      var roots := if queue in registrants then registrants[queue] else {};
      registrants := registrants[queue := roots + {root}];
      if root !in roots {
        changes := changes.(queues := changes.queues + {Grants.Registration(queue, root, name)});
      }
      if grantedAgainst.Some? {
        everMade := everMade + {(queue, root, grantedAgainst.value)};
      }
    }

    method Registrants(queue: Grants.QueueId) returns (roots: seq<ContextId>)
      ensures roots == Granted().Registrants(queue)
    {
      if grantedAgainst != Some(store) {
        return [];
      }
      roots := Grants.Ascending.Sorted(if queue in registrants then registrants[queue] else {});
    }

    /** Removes a root from each queue, and a queue that has no root left. */
    method ForgetRegistrant(root: ContextId)
      modifies this
      ensures Granted() == old(Granted()).Forget(root) && Marks() == old(Marks())
    {
      var pending := registrants.Keys;
      var kept: map<Grants.QueueId, set<ContextId>> := map[];
      while pending != {}
        invariant pending <= registrants.Keys && Granted() == old(Granted()) && Marks() == old(Marks())
        invariant forall queue :: queue in kept <==>
          queue in registrants && queue !in pending && registrants[queue] - {root} != {}
        invariant forall queue :: queue in kept ==> kept[queue] == registrants[queue] - {root}
        decreases |pending|
      {
        var queue :| queue in pending;
        pending := pending - {queue};
        var roots := registrants[queue] - {root};
        if roots != {} {
          kept := kept[queue := roots];
        }
      }
      assert kept == old(Granted()).Forget(root).registrants;
      registrants := kept;
    }

    method NoteTickPeriod(root: ContextId, period: Option<nat>)
      modifies this
      ensures Granted() == old(Granted()).NoteTickPeriod(root, period) && Marks() == old(Marks())
    {
      changes := changes.(tickPeriods := changes.tickPeriods[root := period]);
    }

    /** Empties the record, without the queues of a store that was replaced. */
    method TakeChanges() returns (taken: Grants.Changes)
      modifies this
      ensures (Granted(), taken) == old(Granted()).Take() && Marks() == old(Marks())
    {
      ghost var waiting := changes.queues;
      if grantedAgainst != Some(store) {
        changes := changes.(queues := {});
      }
      taken := changes;
      changes := Grants.Changes(map[], {});
      reported := reported + Grants.Pairs(taken.queues);
      missed := missed + Grants.Pairs(waiting - taken.queues);
      told := told + taken.tickPeriods;
    }

    method ReplaceShared(shared: Grants.StoreId)
      modifies this
      ensures Granted() == old(Granted()).Replace(shared) && Marks() == old(Marks())
    {
      store := shared;
      installed := installed + 1;
    }
  }

  /** `future` stands for the code of the guest: what each callback will do. The
      stream and the number of the open scope are here as history. */
  class Guest {
    const abi: AbiState
    const maximum: Maximum
    var poisoned: bool
    var future: seq<Play>
    ghost var log: seq<Event>
    ghost var served: Option<ContextId>
    ghost var scope: nat

    ghost function Parts(): set<object> {
      {this, abi, abi.contexts, abi.callouts}
    }

    ghost function Model(): State
      reads this, abi, abi.contexts, abi.callouts
    {
      State(abi.contexts.Model(), abi.callouts.Model(), abi.Granted(), abi.current, abi.announced, abi.deleting,
            abi.delivery, poisoned, served, scope, maximum, future, log)
    }

    constructor (shared: Grants.StoreId, maximum: Maximum, future: seq<Play>)
      ensures fresh(Parts()) && Model() == NewState(shared, maximum, future)
    {
      abi := new AbiState(shared);
      this.maximum, this.future, poisoned := maximum, future, false;
      log, served, scope := [], None, 0;
    }

    // ---- What guest code calls ----

    /** The record of a new callout comes after the embedder took it. */
    method OpenCallout(kind: Callouts.Kind, accepted: bool)
      modifies Parts()
      ensures Model() == GuestCode.OpenOne(old(Model()), kind, accepted)
    {
      var caller := abi.contexts.Model().Caller();
      if caller.None? {
        return;
      }
      var root := abi.contexts.Model().RootOf(caller.value);
      if root.None? || abi.deleting == caller || |abi.callouts.open.Keys| >= maximum {
        return;
      }
      var id, examined := abi.callouts.Reserve();
      if !accepted {
        return;
      }
      abi.callouts.Enter(id, Callouts.Callout(kind, caller.value, root.value, false));
      log := log + [Opened(id)];
    }

    /** The callout, when it is open and the effective context made it. */
    method Find(id: Callouts.CalloutId) returns (found: Option<Callouts.Callout>)
      ensures found == if GuestCode.Finds(Model(), id) then Some(abi.callouts.open[id]) else None
    {
      if id !in abi.callouts.open {
        return None;
      }
      var entry := abi.callouts.open[id];
      return if abi.contexts.Model().Caller() == Some(entry.caller) then Some(entry) else None;
    }

    method EndCallout(id: Callouts.CalloutId)
      modifies Parts()
      ensures Model() == GuestCode.EndByGuest(old(Model()), id)
    {
      var removed := abi.callouts.Remove(id);
      log := log + [Ended(id, ByGuest)];
    }

    method Send(id: Callouts.CalloutId, endOfStream: bool, accepted: bool)
      modifies Parts()
      ensures Model() == GuestCode.SendOne(old(Model()), id, endOfStream, accepted)
    {
      var found := Find(id);
      if found.None? || !found.value.kind.GrpcStream? || found.value.closedByGuest || !accepted {
        return;
      }
      if endOfStream {
        abi.callouts.CloseByGuest(id);
      }
    }

    method Cancel(id: Callouts.CalloutId)
      modifies Parts()
      ensures Model() == GuestCode.CancelOne(old(Model()), id)
    {
      var found := Find(id);
      if found.Some? && !found.value.kind.HttpCall? {
        EndCallout(id);
      }
    }

    method Close(id: Callouts.CalloutId)
      modifies Parts()
      ensures Model() == GuestCode.CloseOne(old(Model()), id)
    {
      var found := Find(id);
      if found.None? {
        return;
      }
      match found.value.kind {
        case HttpCall =>
        case GrpcCall => EndCallout(id);
        case GrpcStream =>
          if found.value.closedByGuest {
            assert abi.callouts.open == abi.callouts.open[id := abi.callouts.open[id].(closedByGuest := true)];
          } else {
            abi.callouts.CloseByGuest(id);
          }
      }
    }

    method SetTickPeriod(period: Option<nat>)
      modifies Parts()
      ensures Model() == GuestCode.SetPeriod(old(Model()), period)
    {
      var caller := abi.contexts.Model().Caller();
      if caller.None? {
        return;
      }
      var found := abi.contexts.SetTickPeriod(caller.value, period);
      if found {
        var root := abi.contexts.Model().RootOf(caller.value);
        if root.Some? {
          abi.NoteTickPeriod(root.value, period);
        }
      }
    }

    /** The grants are settled before the context is looked at. */
    method RegisterQueue(queue: Option<Grants.QueueId>, name: seq<byte>)
      modifies Parts()
      ensures Model() == GuestCode.RegisterOne(old(Model()), queue, name)
    {
      abi.Settle();
      var caller := abi.contexts.Model().Caller();
      if caller.None? || queue.None? {
        return;
      }
      abi.GrantQueue(queue.value);
      var root := abi.contexts.Model().RootOf(caller.value);
      if root.Some? {
        abi.RegisterQueue(queue.value, root.value, name);
      }
    }

    method ResolveQueue(queue: Option<Grants.QueueId>)
      modifies Parts()
      ensures Model() == GuestCode.ResolveOne(old(Model()), queue)
    {
      abi.Settle();
      if abi.contexts.Model().Caller().Some? && queue.Some? {
        abi.GrantQueue(queue.value);
      }
    }

    method ReadBuffer(buffer: BufferType)
      modifies Parts()
      ensures Model() == GuestCode.ReadOne(old(Model()), buffer)
    {
      if abi.announced == Some(buffer) {
        abi.announced := None;
      }
    }

    method Do(act: Act)
      modifies Parts()
      ensures Model() == GuestCode.Do(old(Model()), act)
      ensures served == old(served)
    {
      match act {
        case OpenCallout(kind, accepted) => OpenCallout(kind, accepted);
        case Send(id, endOfStream, accepted) => Send(id, endOfStream, accepted);
        case Cancel(id) => Cancel(id);
        case Close(id) => Close(id);
        case SetEffective(id) => abi.contexts.MoveEffective(id);
        case ProxyDone => var marked := abi.contexts.Done();
        case SetTickPeriod(period) => SetTickPeriod(period);
        case RegisterQueue(queue, name) => RegisterQueue(queue, name);
        case ResolveQueue(queue) => ResolveQueue(queue);
        case UseQueue => abi.Settle();
        case ReadBuffer(buffer) => ReadBuffer(buffer);
      }
    }

    /** One host function call after another, in the order of the script. */
    method PerformAll(acts: seq<Act>)
      modifies Parts()
      ensures Model() == GuestCode.Perform(old(Model()), acts)
      ensures served == old(served)
    {
      ghost var entered := Model();
      var i := 0;
      while i < |acts|
        invariant i <= |acts| && served == old(served)
        invariant GuestCode.Perform(Model(), acts[i..]) == GuestCode.Perform(entered, acts)
      {
        assert acts[i..][0] == acts[i] && acts[i..][1..] == acts[i + 1..];
        Do(acts[i]);
        i := i + 1;
      }
    }

    // ---- The call ----

    /** A callback that the guest does not export takes the default, and a poisoned
        guest is not entered. */
    method CallCallback(context: ContextId, callback: Callback, default: int) returns (ret: GuestCode.Ret)
      modifies Parts()
      ensures (Model(), ret) == GuestCode.Call(old(Model()), context, callback, default)
      ensures served == old(served)
    {
      hide GuestCode.Perform, GuestCode.Snapshot;
      if future == [] || future[0].Absent? {
        future := if future == [] then [] else future[1..];
        return GuestCode.Returned(default);
      }
      if poisoned {
        return GuestCode.Refused;
      }
      var play := future[0];
      log := log + [GuestCode.Snapshot(Model(), context, callback)];
      future := future[1..];
      ghost var entered := Model();
      PerformAll(play.acts);
      assert Model() == GuestCode.Perform(entered, play.acts);
      match play.outcome {
        case Return(value) => return GuestCode.Returned(value);
        case Trap =>
          poisoned := true;
          return GuestCode.Trapped;
        case Panic => return GuestCode.Panicked;
      }
    }

    /** A panic passes this with the callback still current. */
    method Run(context: ContextId, callback: Callback, default: int) returns (ret: GuestCode.Ret)
      modifies Parts()
      ensures (Model(), ret) == GuestCode.Run(old(Model()), context, callback, default)
      ensures served == old(served)
    {
      var found := abi.contexts.SetEffective(context);
      abi.current := Some(callback);
      ghost var before := Model();
      assert before == old(Model()).(contexts := before.contexts, current := Some(callback));
      ret := CallCallback(context, callback, default);
      ghost var after := Model();
      assert (after, ret) == GuestCode.Call(before, context, callback, default);
      if !ret.Panicked? {
        abi.current := None;
      }
    }
  }
}
