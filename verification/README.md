# Verification of the host side of Proxy-Wasm ABI v0.2.1

This project models the crate `proxy-wasm-host` in Dafny and proves what it
promises. Check it with `dafny verify dfyconfig.toml`.

It has three parts.

**The conversation with a guest.** An embedder drives a guest through a scope:
it creates contexts, starts and configures them, runs stream callbacks, ticks,
queue events and deliveries, and ends contexts with done, log and delete. While
a callback runs, the guest changes the same tables through host functions, and
then it returns, traps, or a panic of the embedder's code passes it. The guest
is a value, `future`: for each callback a script of host function calls and a
way to end. Every theorem holds for all futures and all calls of the embedder.

- `Contexts`, `Callouts`, `Grants`, `States`: the tables and the state as
  values, with a history of what happened (`log`).
- `GuestCode` and `Scope`: what each host function and each call of the embedder
  does, as functions of the state.
- `Tables`, `Guests`, `CallScopes`: the same as the objects that change in
  place, with the loops of the source. Each method is proved to have the effect
  of its function, so the theorems about the functions are about the objects.
- `Rely`, `History`, `Calls`, `Invariants`, `Deletion`, `Runs`: what guest code
  can change, what every history says, and that each call keeps it.
- `HostFunctions`, `CallsInFull`, `Refusals`: each host function and each call
  field by field, from its first check to its answer, in terms of the state alone.
- `DeletionOrder`, `Failures`, `Lasting`, `Reports`: what a deletion tells the
  guest and in which order, what no later call takes back, and what the readings
  of the changes tell.
- `Theorems`, `Isolation`, `RootIsolation`: the promises over whole runs.
- `Witnesses`: runs from a new guest that show where a promise ends.

A state is at rest when it is not poisoned and no callback is current. `Inv`
holds of every state a conversation reaches (`Runs.ConversationKeepsInv`), so a
theorem that asks for `Inv` holds at every point of every run. `Step` is one
call of the embedder and `Steps` is a run of them.

**The codecs.** `Pairs` is the wire format of a header map (the Serialization
section of the Proxy-Wasm ABI v0.2.1 document), `PairLaws` its laws,
`PairLayout` the place of each byte and the meaning of each error,
`PairEncoding` the meaning of two walks over a source that may change, and
`PairCodec` the loops. `HeaderMaps` is the stored map and `Paths` the property
path.

**Guest memory.** `Memory` is checked access, `Allocation` the return of a value
through an allocator that may overwrite or grow the memory, and `Wasi` the log
write and the environment, which `WasiLaws` states byte by byte. `HostStores` and
`WasiHosts` are the loops and the writes in place.

Where the code does less than a reader of its documentation may expect:

- A delivery that ends a callout and poisons the guest keeps the entry for the
  embedder. After a panic the guest is poisoned too, on the next call, and the
  entry is gone: `OnlyATrapPutsItBack` is the exact condition and
  `PanicLosesTheEntry` a run.
- A done, log or delete that is refused because of its context records the stream
  of the scope all the same, where a refused stream callback records nothing:
  `RefusedEndingCallRecordsTheStream` is the exact condition and
  `RefusedLogRecordsItsStream` a run.
- Finalization is not monotone: a second `on_done` can make a done context pending.
  `DoneBecomesPendingExactlyWhen` is the exact condition over every call and
  `DoneMayBecomePending` a run.
- The changes do not tell of every registrant. A reading while other services are
  installed drops the registrations that wait, and when the first ones come back
  those roots are registrants that were never reported: `StepTellsAllExactlyWhen`
  is the exact condition and `LateReadingMissesARegistrant` a run.
- The table of callouts can hold one more than the maximum, on a poisoned guest:
  `OpenCalloutsAreBounded` is the bound and `OneAboveTheMaximum` a run.
- `issued` denies identifiers that are open once the counter has wrapped:
  `IssuedExactlyBeforeTheWrap` is the exact condition and `IssuedAfterTheWrap` a
  table. The comment in the source says that it denies all of them, which holds at
  the wrap and no longer when the counter moves on.
- The encoder promises an error when its two walks differ. It compares the total
  length: `ChangedIsAnotherTotal` is the exact condition and
  `ChangeThatKeepsTheTotal` a change that it does not report.

## Model

| member | source | states |
|---|---|---|
| `Theorems.NoCalloutOutlivesItsContext` | crates/proxy-wasm-host/src/abi/v0_2_1/call_scope/finalize.rs:107-211 | After any calls, on a guest that is live: nothing is lent, announced or marked, every open callout belongs to a live context, and its recorded root is the live root of that context. |
| `Theorems.CalloutsBalance` | crates/proxy-wasm-host/src/abi/v0_2_1/callout.rs:157-241 | Over any run until the counter wraps: no callout opens twice or ends twice, the opened ones are the open ones and the ended ones, and the two overlap in at most one, which a failed delivery put back on a guest poisoned since. |
| `Theorems.OnlyATrapPutsItBack` | crates/proxy-wasm-host/src/abi/v0_2_1/call_scope/delivery.rs:283-311 | An ending delivery leaves its entry in the table exactly when the guest is going to trap in it; after a return and after a panic it is gone. |
| `Theorems.OpenCalloutsAreBounded` | crates/proxy-wasm-host/src/abi/v0_2_1/host_functions/callout.rs:90-117 | Over any run: no more callouts are open than the embedder allows, but for the one that a failed delivery put back, which needs a poisoned guest. |
| `Witnesses.OneAboveTheMaximum` | crates/proxy-wasm-host/src/abi/v0_2_1/call_scope/delivery.rs:283-311 | A run after which a guest that may have one callout open has two: it opened another during the delivery that failed. |
| `Witnesses.PanicLosesTheEntry` | crates/proxy-wasm-host/src/abi/v0_2_1/call_scope/delivery.rs:271-311 | A run in which a panic passes a response: the next call poisons the guest, and no entry is left. |
| `Theorems.ResponseEndsItsCallout` | crates/proxy-wasm-host/src/abi/v0_2_1/call_scope/delivery.rs:148-176 | A response reaches the guest exactly when its callout is an open HTTP call of the given context that is not refused and the response has a header and sizes the ABI carries; a refused one changes nothing, and an answered one leaves no entry. |
| `Theorems.GrpcDeliveryEndsWhatItShould` | crates/proxy-wasm-host/src/abi/v0_2_1/call_scope/grpc.rs:25-240 | A gRPC delivery reaches the guest exactly when its callout can take it; a close ends a callout and a message ends a call; metadata and a stream message leave the entry, which the guest alone can end. |
| `Theorems.DeletionAnswersWhatItEnded` | crates/proxy-wasm-host/src/abi/v0_2_1/call_scope/finalize.rs:73-149 | A deletion that succeeds answers, strictly ascending, exactly the callouts its context had open at the start minus those the guest ended itself; none of the context is left, and other callouts change by the guest alone. |
| `Lasting.DeletedContextIsGone` | crates/proxy-wasm-host/src/abi/v0_2_1/context/table.rs:173-179 | After a successful deletion no later call, on a live guest or a dead one, runs a callback on the context, gives its identifier out again, or leaves a callout of it open. |
| `Deletion.OnDeleteDeletes` | crates/proxy-wasm-host/src/abi/v0_2_1/call_scope/finalize.rs:107-149 | The invariant holds after every deletion, whatever the guest does between its steps; success needs a done context with no children, and a guest at rest stays at rest unless the answer tells of a trap or a panic. |
| `DeletionOrder.DeletionKeepsItsOrder` | crates/proxy-wasm-host/src/abi/v0_2_1/call_scope/finalize.rs:73-149 | A deletion that succeeds delivers exactly the callouts of its answer, one by one in ascending order, and none under a refused root; for a root all of that is before the callback of the deletion and the removal, for a stream after both. |
| `Failures.DeletionTellsByKind` | crates/proxy-wasm-host/src/abi/v0_2_1/call_scope/finalize.rs:125-197 | What the guest sees of a deletion that succeeds, event by event: right after each callout of the answer ends, an HTTP call is told by `on_http_call_response` and a gRPC call or stream by `on_grpc_close`, on the root; `on_delete` is told once, after the failures of a root and before those of a stream; each callback uses up one play, and the guest is reached in no other way. |
| `Failures.SweepTells` | crates/proxy-wasm-host/src/abi/v0_2_1/call_scope/finalize.rs:176-197 | A sweep tells each callout that it ends by the kind it had at the start, on the root, and uses up one play for each. |
| `Failures.DeletionMarksItsContext` | crates/proxy-wasm-host/src/abi/v0_2_1/call_scope/finalize.rs:107-123 | The mark of a deletion is cleared by every end but a panic, which leaves it on the context. |
| `DeletionOrder.FailEachInOrder` | crates/proxy-wasm-host/src/abi/v0_2_1/call_scope/finalize.rs:165-197 | The deliveries of a sweep are what it adds to its answer, in that order, and no deletion runs among them. |
| `DeletionOrder.RootInOrder` | crates/proxy-wasm-host/src/abi/v0_2_1/call_scope/finalize.rs:125-149 | For a root: every failure, then the callback and the removal. |
| `DeletionOrder.StreamInOrder` | crates/proxy-wasm-host/src/abi/v0_2_1/call_scope/finalize.rs:125-149 | For a stream: the callback and the removal, then every failure. |
| `Deletion.RootAnswers` | crates/proxy-wasm-host/src/abi/v0_2_1/call_scope/finalize.rs:125-149 | The answer for a root is what its sweep ended. |
| `Deletion.StreamAnswers` | crates/proxy-wasm-host/src/abi/v0_2_1/call_scope/finalize.rs:125-149 | The answer for a stream is what its sweep ended. |
| `Deletion.FailEachSweeps` | crates/proxy-wasm-host/src/abi/v0_2_1/call_scope/finalize.rs:165-197 | After the sweep none of the listed callouts of the context is open: each got a failure, or the guest ended it first, and the answer is ascending. |
| `Deletion.LastDropFindsNothing` | crates/proxy-wasm-host/src/abi/v0_2_1/call_scope/finalize.rs:147-149 | The last drop of a deletion changes nothing, because the mark kept the context from opening a callout. |
| `Deletion.RootDeletes` | crates/proxy-wasm-host/src/abi/v0_2_1/call_scope/finalize.rs:125-149 | The deletion of a root ends with the context and all of its callouts gone and the answer naming those it ended, or with a guest out of service. |
| `Deletion.StreamDeletes` | crates/proxy-wasm-host/src/abi/v0_2_1/call_scope/finalize.rs:125-149 | The same for a stream, whose failures run on its root after the removal. |
| `Theorems.RefusedRootOnlyEnds` | crates/proxy-wasm-host/src/abi/v0_2_1/call_scope/prologue.rs:103-116 | After a false from `on_configure`, whatever follows: the guest sees that root and its streams in done, log and delete alone, and no stream is made under it. |
| `Theorems.RefusedVmOnlyEnds` | crates/proxy-wasm-host/src/abi/v0_2_1/call_scope/prologue.rs:103-126 | After a false from `on_vm_start`, whatever follows: the guest sees done, log and delete alone, and no context is made. |
| `Theorems.ContextsStayAForest` | crates/proxy-wasm-host/src/abi/v0_2_1/context/table.rs:44-205 | In every state a run reaches: a stream hangs under a live root, a root under nothing, the effective context is live, and every identifier ever given out is below the counter. |
| `Theorems.ContextsEndInOrder` | crates/proxy-wasm-host/src/abi/v0_2_1/call_scope/prologue.rs:40-60 | Over any run: log and delete reach the guest on a done context alone, and a context once seen on its way to the end is never seen active. |
| `Theorems.ContextsOnlyGoForward` | crates/proxy-wasm-host/src/abi/v0_2_1/context/table.rs:44-205 | No calls make a context active again, change its family, take a refusal back, or give an identifier to a second context. |
| `Theorems.OnDoneDecides` | crates/proxy-wasm-host/src/abi/v0_2_1/call_scope/finalize.rs:24-49 | The answer of `on_done` decides between done and pending whatever the guest did meanwhile; other contexts move from pending to done by the guest alone. |
| `Lasting.DoneBecomesPendingExactlyWhen` | crates/proxy-wasm-host/src/abi/v0_2_1/call_scope/finalize.rs:24-49 | Over every call: a done context becomes pending exactly by a call of `on_done` on it that passes the rule of the one stream and whose guest returns zero. |
| `Lasting.DoneAnswersFalse` | crates/proxy-wasm-host/src/abi/v0_2_1/call_scope/finalize.rs:24-49 | `on_done` answers false exactly when it reaches a guest that returns zero. |
| `Witnesses.DoneMayBecomePending` | crates/proxy-wasm-host/src/abi/v0_2_1/call_scope/finalize.rs:36-48 | A run, from a new guest, whose next `on_done` moves a done context back to pending. |
| `Theorems.StreamsStayApart` | crates/proxy-wasm-host/src/abi/v0_2_1/call_scope/stream.rs:27-121 | Over any run: all stream callbacks of one context are of one family, and in one scope the stream callbacks and the ending callbacks of streams concern one context. |
| `Theorems.RefusedStreamCallRecordsNothing` | crates/proxy-wasm-host/src/abi/v0_2_1/call_scope/stream.rs:73-121 | A stream callback that a check refused leaves the whole state as it was. |
| `Theorems.RefusedEndingCallRecordsTheStream` | crates/proxy-wasm-host/src/abi/v0_2_1/call_scope/finalize.rs:24-115 | A done, log or delete that a check refused changes the record of the one stream exactly when it is the first call of its scope on a stream, and nothing else. |
| `Witnesses.RefusedLogRecordsItsStream` | crates/proxy-wasm-host/src/abi/v0_2_1/call_scope/finalize.rs:58-71 | A run after which a refused log of a stream leaves that stream recorded. |
| `Theorems.RegistrantsAreLive` | crates/proxy-wasm-host/src/abi/v0_2_1/state.rs:174-192 | In every state a run reaches, a registrant that is shown is a live root that registered the queue with the store that is installed. |
| `Theorems.ChangesAreReadOnce` | crates/proxy-wasm-host/src/abi/v0_2_1/state.rs:199-206 | Two readings of the changes with no clear of the grants between them report no queue and root twice, whatever runs and whatever stores are installed between. |
| `Reports.EveryRegistrantIsTold` | crates/proxy-wasm-host/src/abi/v0_2_1/state.rs:158-206 | In every state a run reaches, a registrant that is shown waits for the next reading, was reported, or was missed by a late reading, and only one of the three; when every reading of the run came in time, none was missed. |
| `Reports.StepTellsAllExactlyWhen` | crates/proxy-wasm-host/src/abi/v0_2_1/state.rs:158-206 | Over every call: the law that each registrant was reported or waits survives exactly when the call is no late reading, one on replaced services while a root that is still a registrant waits. |
| `Reports.RunTellsAllExactlyWhen` | crates/proxy-wasm-host/src/abi/v0_2_1/state.rs:158-206 | All states of a run keep that law exactly when each of its readings came in time. |
| `Reports.PeriodsAreTold` | crates/proxy-wasm-host/src/abi/v0_2_1/state.rs:194-206 | In every state a run reaches, the period of a live root is the last one that the answers of the readings told, replaced by what waits for the next reading. |
| `Reports.LearnedIsTold` | crates/proxy-wasm-host/src/abi/v0_2_1/state.rs:199-206 | What an embedder learns of the periods from the answers of a run is what the readings took out of the record. |
| `Witnesses.LateReadingMissesARegistrant` | crates/proxy-wasm-host/src/abi/v0_2_1/state.rs:158-206 | A run after which the embedder is shown a root that it is never told of: a reading dropped the registration, and a second registration of that root is not reported. |
| `Theorems.ChecksAreExact` | crates/proxy-wasm-host/src/abi/v0_2_1/call_scope/prologue.rs:20-145 | A call with sizes the ABI carries passes its checks exactly when its context may get it: an accepted root, a registrant, the one stream of the scope in its family, a done or deletable context, a callout that takes the delivery, or a family that agrees. |
| `Theorems.OversizeChangesNothing` | crates/proxy-wasm-host/src/abi/v0_2_1/call_scope/prologue.rs:128-137 | A count or a length above the signed maximum reaches no guest and changes nothing. |
| `Theorems.AbsentCallbackTakesTheDefault` | crates/proxy-wasm-host/src/abi/v0_2_1/guest.rs:229-245 | A guest that does not export a callback is taken to accept, to continue, and to be done. |
| `CallsInFull.EveryCallInFull` | crates/proxy-wasm-host/src/abi/v0_2_1/call_scope/prologue.rs:139-201 | Every call that passes its checks, field by field: the callback and the context it runs on, what is recorded, lent, announced and noted before the script starts, and what the outcome of the script makes of the state it left and of the answer. |
| `CallsInFull.ActionsAreExact` | crates/proxy-wasm-host/src/abi/v0_2_1/call_scope/stream.rs:92-110 | A stream callback answers continue exactly for an absent callback or a zero, pause exactly for a one, the callback and the value for any other return, a failed call exactly for a trap, and passes exactly a panic. |
| `CallsInFull.FlagsAreExact` | crates/proxy-wasm-host/src/abi/v0_2_1/call_scope/prologue.rs:139-145 | So do the three callbacks that answer yes or no: one or an absent callback is yes, zero is no. |
| `CallsInFull.NewContextIsNamed` | crates/proxy-wasm-host/src/abi/v0_2_1/call_scope/lifecycle.rs:24-52 | The answer of a creation is the one identifier that is new in the table, with the given parent. |
| `Refusals.EveryRefusalIsTold` | crates/proxy-wasm-host/src/abi/v0_2_1/call_scope/prologue.rs:20-137 | For every call on a guest at rest: the error with its payload is the first thing that is wrong in the order of the checks, the state stays but for the record of the one stream, and a call with nothing wrong passes. |
| `Refusals.DeadGuestIsTold` | crates/proxy-wasm-host/src/abi/v0_2_1/call_scope/prologue.rs:20-38 | A call about a context on a guest out of service answers that it is poisoned, but for a size that is refused first, and poisons it. |
| `Refusals.ScopeCallsDo` | crates/proxy-wasm-host/src/abi/v0_2_1/guest/contexts.rs:202-204 | A new scope serves no stream, an end poisons a guest whose callback is still current and clears it, and a reading answers the periods and the registrations of current grants and empties both. |
| `Refusals.DeclareKindDoes` | crates/proxy-wasm-host/src/abi/v0_2_1/call_scope/stream.rs:44-71 | A declared family is recorded on its stream and nothing else changes. |
| `Runs.StepKeepsInv` | crates/proxy-wasm-host/src/abi/v0_2_1/call_scope.rs:39-60 | Every call of the embedder keeps the invariant, whatever the guest does in it. |
| `Runs.ConversationKeepsInv` | crates/proxy-wasm-host/src/abi/v0_2_1/call_scope.rs:39-60 | The invariant holds after any calls on a new guest, for every guest behaviour. |
| `Runs.AnswerTellsRest` | crates/proxy-wasm-host/src/abi/v0_2_1/call_scope.rs:39-58 | A call takes a live guest out of service exactly when its answer is a failed guest call or a panic that passed it. |
| `Runs.DeadStaysDead` | crates/proxy-wasm-host/src/abi/v0_2_1/call_scope.rs:53-60 | Once a callback trapped or panicked, no later calls, finishes or drops reach the guest or change a context, a callout or the history. |
| `Runs.TrapOrPanicIsTheLastCall` | crates/proxy-wasm-host/src/abi/v0_2_1/call_scope.rs:53-60 | A call whose guest trapped or panicked is the last that reaches it. |
| `Runs.StepsGoOn` | crates/proxy-wasm-host/src/abi/v0_2_1/context/table.rs:94-105 | Over any run: the history only grows, grants of the installed store stay, and contexts go forward alone. |
| `Isolation.CallbackStaysWithinItsRoot` | crates/proxy-wasm-host/src/abi/v0_2_1/host_functions/context.rs:25-47 | Whatever the guest does in a callback, every other root keeps its contexts, callouts and periods, gains no registration and no report, and keeps the ones it has; a settle of a replaced store clears them for every root. |
| `Isolation.DeliveryStaysWithinItsRoot` | crates/proxy-wasm-host/src/abi/v0_2_1/host_functions/grpc.rs:149-174 | The same for a delivery, whose context is under the recorded root of its callout. |
| `RootIsolation.CallTouchesOneRoot` | crates/proxy-wasm-host/src/abi/v0_2_1/host_functions/context.rs:25-47 | The same for every call about a context, deletions and starts included: it concerns one root and leaves what every other root has. |
| `RootIsolation.SparedRootIsUntouched` | crates/proxy-wasm-host/src/abi/v0_2_1/host_functions/context.rs:25-47 | Over any run in which no call is about a root, that root keeps exactly its contexts and its callouts. |
| `Calls.RunKeepsSound` | crates/proxy-wasm-host/src/abi/v0_2_1/call_scope/prologue.rs:152-170 | One callback keeps what every history says, poisons exactly on a trap, and leaves the callback current exactly on a panic. |
| `Calls.DeliverKeepsSound` | crates/proxy-wasm-host/src/abi/v0_2_1/call_scope/delivery.rs:271-311 | A delivery keeps it too, with the entry put back on a failed call. |
| `History.DoKeepsSound` | crates/proxy-wasm-host/src/abi/v0_2_1/host_functions/callout.rs:90-117 | Each host function keeps it, inside the bounds of what guest code can reach. |
| `HostFunctions.OpenDoes` | crates/proxy-wasm-host/src/abi/v0_2_1/host_functions/callout.rs:90-117 | When a guest may open a callout and what the new entry is: its kind, the context that acts, the root of that context, open on both sides; a refused attempt uses up an identifier and no more. |
| `HostFunctions.SendDoes` | crates/proxy-wasm-host/src/abi/v0_2_1/host_functions/grpc.rs:177-211 | A message closes the guest's side exactly of its own gRPC stream, when it is the last and accepted and that side was open. |
| `HostFunctions.CancelDoes` | crates/proxy-wasm-host/src/abi/v0_2_1/host_functions/grpc.rs:213-228 | A cancel ends exactly a gRPC call or stream of the context that acts. |
| `HostFunctions.CloseDoes` | crates/proxy-wasm-host/src/abi/v0_2_1/host_functions/grpc.rs:230-257 | A close ends a gRPC call, half-closes a gRPC stream that stays open, and leaves an HTTP call and a callout of another context alone. |
| `HostFunctions.SetEffectiveDoes` | crates/proxy-wasm-host/src/abi/v0_2_1/host_functions/context.rs:25-47 | Which context a guest may make effective: one of the same root, unless that root is refused. |
| `HostFunctions.ProxyDoneDoes` | crates/proxy-wasm-host/src/abi/v0_2_1/host_functions/context.rs:11-23 | `proxy_done` finishes exactly a pending effective context. |
| `HostFunctions.SetTickPeriodDoes` | crates/proxy-wasm-host/src/abi/v0_2_1/host_functions/timer.rs:13-34 | A period is recorded on the root of the context that acts and in the changes. |
| `HostFunctions.QueueCallsDo` | crates/proxy-wasm-host/src/abi/v0_2_1/host_functions/shared_queue.rs:20-88 | The queue functions drop what is of another store; a guest that acts is granted its queue, and a registration adds its root to that queue alone and waits when the root is new. |
| `HostFunctions.ReadBufferDoes` | crates/proxy-wasm-host/src/abi/v0_2_1/host_functions/buffer.rs:120-134 | The announcement of a buffer is used up by a read of that buffer. |
| `HostFunctions.ScriptsRunInOrder` | crates/proxy-wasm-host/src/abi/v0_2_1/host_functions/call.rs:46-54 | A script runs from its first call to its last. |
| `Rely.PerformMoves` | crates/proxy-wasm-host/src/abi/v0_2_1/host_functions/call.rs:46-54 | Any script of host functions stays inside those bounds: it ends what is pending, opens callouts of live contexts that are not being deleted, and ends callouts with a mark in the history. |
| `Contexts.CreateKeepsForest` | crates/proxy-wasm-host/src/abi/v0_2_1/context/table.rs:44-82 | A new context gets an identifier no context ever had, under a live root or none, and changes no other entry. |
| `Contexts.RemoveKeepsForest` | crates/proxy-wasm-host/src/abi/v0_2_1/context/table.rs:135-138 | Removing a context with no children leaves no dangling parent. |
| `Callouts.Skipped` | crates/proxy-wasm-host/src/abi/v0_2_1/callout.rs:179-193 | The search for a free identifier ends after at most as many steps as there are open callouts, at the first candidate that is not open. |
| `Callouts.OpenCandidates` | crates/proxy-wasm-host/src/abi/v0_2_1/callout.rs:179-193 | Across the wrap that skips zero, `k` candidates that are all open are `k` entries of the table. |
| `Callouts.ReserveCounts` | crates/proxy-wasm-host/src/abi/v0_2_1/callout.rs:185-193 | Until the counter wraps, reservation `n` gives out identifier `n`, which is not open. |
| `Callouts.IssuedIsGivenOut` | crates/proxy-wasm-host/src/abi/v0_2_1/callout.rs:207-215 | After any uses of the table before the wrap, `issued` answers for exactly the identifiers that reservations gave out, and they are one to `n` in order. |
| `Callouts.IssuedExactlyBeforeTheWrap` | crates/proxy-wasm-host/src/abi/v0_2_1/callout.rs:207-215 | After any uses of the table, `issued` answers for exactly the identifiers that were given out if and only if the last one was not given out yet. |
| `Callouts.IssuedAfterTheWrap` | crates/proxy-wasm-host/src/abi/v0_2_1/callout.rs:207-215 | Uses of a new table that give out every identifier and leave one open, which `issued` then denies. |
| `Callouts.DropRemovesExactly` | crates/proxy-wasm-host/src/abi/v0_2_1/call_scope/finalize.rs:204-211 | Dropping a listing removes its identifiers and no others. |
| `Grants.RegisterKeepsSound` | crates/proxy-wasm-host/src/abi/v0_2_1/state.rs:160-167 | A registration keeps the registrants live roots of the installed store and reports each root once. |
| `Grants.ForgetKeepsSound` | crates/proxy-wasm-host/src/abi/v0_2_1/state.rs:186-192 | A deleted root is no registrant of any queue. |
| `Grants.TakeReportsOnce` | crates/proxy-wasm-host/src/abi/v0_2_1/state.rs:199-206 | What is taken was never reported since the grants were cleared, once for each queue and root, and without queues of a replaced store. |
| `Grants.EachIsOneOfThree` | crates/proxy-wasm-host/src/abi/v0_2_1/state.rs:158-206 | Each registrant waits, was reported or was missed, and no two of these. |
| `Grants.TakeTellsAllExactlyWhen` | crates/proxy-wasm-host/src/abi/v0_2_1/state.rs:199-206 | A reading keeps every registrant reported or waiting exactly when the services are the ones that gave the grants, or nothing that waits is a registrant. |
| `Tables.ContextTable.Create` | crates/proxy-wasm-host/src/abi/v0_2_1/context/table.rs:44-82 | The answer and the whole table after it: parent checks, the counter, the new entry. |
| `Tables.ContextTable.SetStreamKind` | crates/proxy-wasm-host/src/abi/v0_2_1/context/table.rs:96-105 | Records the family and answers the one it had. |
| `Tables.ContextTable.SetState` | crates/proxy-wasm-host/src/abi/v0_2_1/context/table.rs:125-133 | Sets how far a context is, when it is there. |
| `Tables.ContextTable.Reject` | crates/proxy-wasm-host/src/abi/v0_2_1/context/table.rs:140-148 | Marks a root as refused. |
| `Tables.ContextTable.RejectVm` | crates/proxy-wasm-host/src/abi/v0_2_1/context/table.rs:156-158 | Marks the instance as refused. |
| `Tables.ContextTable.Remove` | crates/proxy-wasm-host/src/abi/v0_2_1/context/table.rs:173-179 | Removes the entry and clears it as the effective context. |
| `Tables.ContextTable.SetEffective` | crates/proxy-wasm-host/src/abi/v0_2_1/context/table.rs:185-192 | Makes a live context effective. |
| `Tables.ContextTable.Done` | crates/proxy-wasm-host/src/abi/v0_2_1/context/table.rs:194-205 | Moves the effective context from pending to done alone. |
| `Tables.ContextTable.SetTickPeriod` | crates/proxy-wasm-host/src/abi/v0_2_1/context/table.rs:237-248 | Records the period on the root. |
| `Tables.ContextTable.MoveEffective` | crates/proxy-wasm-host/src/abi/v0_2_1/host_functions/context.rs:30-47 | Moves the effective context inside its root, and to no refused one. |
| `Tables.CalloutTable.Reserve` | crates/proxy-wasm-host/src/abi/v0_2_1/callout.rs:179-193 | The loop ends, looks at no more than one candidate more than the table holds, and takes the first that is not open. |
| `Tables.CalloutTable.Enter` | crates/proxy-wasm-host/src/abi/v0_2_1/callout.rs:195-197 | Enters one callout. |
| `Tables.CalloutTable.Remove` | crates/proxy-wasm-host/src/abi/v0_2_1/callout.rs:203-205 | Removes one entry and answers it. |
| `Tables.CalloutTable.CloseByGuest` | crates/proxy-wasm-host/src/abi/v0_2_1/callout.rs:217-222 | Marks the guest's side of an open stream. |
| `Tables.CalloutTable.MadeBy` | crates/proxy-wasm-host/src/abi/v0_2_1/callout.rs:224-231 | The loop over the table gives the ascending listing of the callouts of one caller, with their kinds. |
| `Guests.AbiState.Settle` | crates/proxy-wasm-host/src/abi/v0_2_1/state.rs:97-124 | Clears the grants of a store that is not installed. |
| `Guests.AbiState.GrantQueue` | crates/proxy-wasm-host/src/abi/v0_2_1/state.rs:143-145 | Adds a queue. |
| `Guests.AbiState.RegisterQueue` | crates/proxy-wasm-host/src/abi/v0_2_1/state.rs:160-167 | Adds a registrant, and a change the first time. |
| `Guests.AbiState.Registrants` | crates/proxy-wasm-host/src/abi/v0_2_1/state.rs:174-184 | The ascending roots, when the grants are current. |
| `Guests.AbiState.ForgetRegistrant` | crates/proxy-wasm-host/src/abi/v0_2_1/state.rs:186-192 | Removes a root from each queue, and empty queues. |
| `Guests.AbiState.NoteTickPeriod` | crates/proxy-wasm-host/src/abi/v0_2_1/state.rs:194-197 | Records a period as a change. |
| `Guests.AbiState.TakeChanges` | crates/proxy-wasm-host/src/abi/v0_2_1/state.rs:199-206 | Empties the record, without queues of a replaced store. |
| `Guests.AbiState.ReplaceShared` | crates/proxy-wasm-host/src/abi/v0_2_1/guest.rs:209-211 | Installs another store. |
| `Guests.Guest.OpenCallout` | crates/proxy-wasm-host/src/abi/v0_2_1/host_functions/callout.rs:90-117 | Checks, reservation, the embedder's answer, and the entry, in that order. |
| `Guests.Guest.Find` | crates/proxy-wasm-host/src/abi/v0_2_1/host_functions/grpc.rs:160-174 | Finds an open callout that the effective context made. |
| `Guests.Guest.EndCallout` | crates/proxy-wasm-host/src/abi/v0_2_1/host_functions/grpc.rs:259-267 | Removes a callout that the guest ends. |
| `Guests.Guest.Send` | crates/proxy-wasm-host/src/abi/v0_2_1/host_functions/grpc.rs:177-210 | Closes the guest's side when an accepted message ends the stream. |
| `Guests.Guest.Cancel` | crates/proxy-wasm-host/src/abi/v0_2_1/host_functions/grpc.rs:213-227 | Ends a gRPC callout. |
| `Guests.Guest.Close` | crates/proxy-wasm-host/src/abi/v0_2_1/host_functions/grpc.rs:230-255 | Ends a call, or closes the guest's side of a stream. |
| `Guests.Guest.SetTickPeriod` | crates/proxy-wasm-host/src/abi/v0_2_1/host_functions/timer.rs:13-34 | Records the period on the root of the effective context and as a change. |
| `Guests.Guest.RegisterQueue` | crates/proxy-wasm-host/src/abi/v0_2_1/host_functions/shared_queue.rs:20-50 | Settles, grants and registers for the root. |
| `Guests.Guest.ResolveQueue` | crates/proxy-wasm-host/src/abi/v0_2_1/host_functions/shared_queue.rs:52-88 | Settles and grants. |
| `Guests.Guest.ReadBuffer` | crates/proxy-wasm-host/src/abi/v0_2_1/host_functions/buffer.rs:120-134 | Takes the announced size. |
| `Guests.Guest.PerformAll` | crates/proxy-wasm-host/src/abi/v0_2_1/host_functions/call.rs:46-54 | A script of host function calls, one after another. |
| `Guests.Guest.CallCallback` | crates/proxy-wasm-host/src/abi/v0_2_1/guest.rs:235-245 | A poisoned guest is not entered, an absent callback takes the default, and a failed call poisons. |
| `Guests.Guest.Run` | crates/proxy-wasm-host/src/abi/v0_2_1/call_scope/prologue.rs:152-170 | Effective context, current callback, the call, and the callback cleared unless a panic passes. |
| `CallScopes.RequireLiveGuest` | crates/proxy-wasm-host/src/abi/v0_2_1/guest/exports.rs:48-60 | Poisons a guest whose callback never returned, and refuses a poisoned one. |
| `CallScopes.DeliverTo` | crates/proxy-wasm-host/src/abi/v0_2_1/call_scope/delivery.rs:283-311 | The entry goes before the guest runs and comes back on a poisoned guest. |
| `CallScopes.DropOpenCallouts` | crates/proxy-wasm-host/src/abi/v0_2_1/call_scope/finalize.rs:204-211 | The loop removes every callout of the context and answers their identifiers. |
| `CallScopes.FailOpenCallouts` | crates/proxy-wasm-host/src/abi/v0_2_1/call_scope/finalize.rs:165-197 | The loop reads the table again before each delivery, which is a response for an HTTP call and a close for a gRPC one; a refused root gets a drop. |
| `CallScopes.CallScope.constructor` | crates/proxy-wasm-host/src/abi/v0_2_1/call_scope.rs:80-86 | A new scope serves no stream. |
| `CallScopes.CallScope.Finish` | crates/proxy-wasm-host/src/abi/v0_2_1/call_scope.rs:144-160 | Poisons when a callback is still current, and the end of the used up scope clears it. |
| `CallScopes.CallScope.Drop` | crates/proxy-wasm-host/src/abi/v0_2_1/call_scope/finalize.rs:213-233 | Poisons and clears a callback that is still current. |
| `CallScopes.CallScope.ExpectStreamKind` | crates/proxy-wasm-host/src/abi/v0_2_1/call_scope/stream.rs:58-64 | Declares a family that does not contradict the record. |
| `CallScopes.CallScope.OnContextCreate` | crates/proxy-wasm-host/src/abi/v0_2_1/call_scope/lifecycle.rs:24-53 | Checks, the new entry, and the callback. |
| `CallScopes.CallScope.OnVmStart` | crates/proxy-wasm-host/src/abi/v0_2_1/call_scope/lifecycle.rs:71-102 | Checks, the callback, and the refusal of the instance. |
| `CallScopes.CallScope.OnConfigure` | crates/proxy-wasm-host/src/abi/v0_2_1/call_scope/lifecycle.rs:130-163 | Checks, the callback, and the refusal of the root. |
| `CallScopes.CallScope.RequireServed` | crates/proxy-wasm-host/src/abi/v0_2_1/call_scope/stream.rs:34-45 | The one stream of a scope. |
| `CallScopes.CallScope.RequireServedStream` | crates/proxy-wasm-host/src/abi/v0_2_1/call_scope/stream.rs:27-32 | The rule applied to a stream and not to a root. |
| `CallScopes.CallScope.RecordStream` | crates/proxy-wasm-host/src/abi/v0_2_1/call_scope/stream.rs:82-87 | The checks in order, with both records after the last. |
| `CallScopes.CallScope.StreamAction` | crates/proxy-wasm-host/src/abi/v0_2_1/call_scope/stream.rs:73-102 | The checks, the announced buffer around the call, and the action. |
| `CallScopes.CallScope.AnnouncedAction` | crates/proxy-wasm-host/src/abi/v0_2_1/call_scope/stream.rs:88-101 | The announcement is cleared when the guest returned or failed. |
| `CallScopes.CallScope.StreamEvent` | crates/proxy-wasm-host/src/abi/v0_2_1/call_scope/stream.rs:105-121 | The checks and a callback that answers nothing. |
| `CallScopes.CallScope.OnHttpCallResponse` | crates/proxy-wasm-host/src/abi/v0_2_1/call_scope/delivery.rs:148-176 | The checks in order, and the delivery on the recorded root. |
| `CallScopes.CallScope.OnGrpc` | crates/proxy-wasm-host/src/abi/v0_2_1/call_scope/grpc.rs:25-240 | The checks the four deliveries share, and the delivery. |
| `CallScopes.CallScope.OnForeignFunction` | crates/proxy-wasm-host/src/abi/v0_2_1/call_scope/foreign.rs:41-65 | A delivery with no callout. |
| `CallScopes.CallScope.OnTick` | crates/proxy-wasm-host/src/abi/v0_2_1/call_scope/delivery.rs:189-202 | The checks and the callback of a tick. |
| `CallScopes.CallScope.OnQueueReady` | crates/proxy-wasm-host/src/abi/v0_2_1/call_scope/delivery.rs:219-240 | The checks, with the registrants last, and the callback. |
| `CallScopes.CallScope.OnDone` | crates/proxy-wasm-host/src/abi/v0_2_1/call_scope/finalize.rs:24-49 | The rule of the one stream, the callback, and the state of its answer. |
| `CallScopes.CallScope.OnLog` | crates/proxy-wasm-host/src/abi/v0_2_1/call_scope/finalize.rs:58-71 | The same on a done context. |
| `CallScopes.CallScope.Delete` | crates/proxy-wasm-host/src/abi/v0_2_1/call_scope/finalize.rs:125-149 | The order of a root and of a stream. |
| `CallScopes.CallScope.Forget` | crates/proxy-wasm-host/src/abi/v0_2_1/call_scope/finalize.rs:139-148 | The removal, the failures of a stream, and the last drop. |
| `CallScopes.CallScope.OnDelete` | crates/proxy-wasm-host/src/abi/v0_2_1/call_scope/finalize.rs:107-115 | The checks and the mark around the deletion. |
| `CallScopes.CallScope.ReplaceShared` | crates/proxy-wasm-host/src/abi/v0_2_1/guest.rs:209-211 | Installs another store. |
| `CallScopes.CallScope.TakeChanges` | crates/proxy-wasm-host/src/abi/v0_2_1/guest/contexts.rs:202-204 | Reads the changes. |
| `PairLaws.DecodingIsCanonical` | crates/proxy-wasm-host/src/codec/pairs.rs:195-291 | With no limits, bytes decode to a list exactly when they are its encoding, or the list is empty and they are one zero byte or four. |
| `PairLaws.RoundTrip` | crates/proxy-wasm-host/src/codec/pairs.rs:122-250 | Decoding undoes encoding for every list whose count and lengths fit 32 bits. |
| `PairLaws.EncodingIsInjective` | crates/proxy-wasm-host/src/codec/pairs.rs:1-16 | Two lists with one encoding are one list. |
| `PairLaws.LimitsOnlyRefuse` | crates/proxy-wasm-host/src/codec/pairs/limits.rs:80-95 | A limit changes no answer: it refuses by the length of the input or the number of its pairs. |
| `PairLaws.PairErrorCountsWholePairs` | crates/proxy-wasm-host/src/codec/pairs/errors.rs:36-55 | The error of a pair carries the number of whole pairs before it, and no further pair is whole. |
| `PairLayout.EncodingIsLaidOut` | crates/proxy-wasm-host/src/codec/pairs.rs:122-160 | Each number and field at its place in the bytes: the count, the length of each key and value in little-endian numbers, and each key and value with its zero byte. |
| `PairLayout.ErrorsExplain` | crates/proxy-wasm-host/src/codec/pairs/errors.rs:16-70 | Each error of the decoder, with what it says of the bytes: which limit, how many bytes are missing, of which pair and field, and how many are left over. |
| `PairLaws.WholeFitsTheReserve` | crates/proxy-wasm-host/src/codec/pairs.rs:42-51 | The reserve is the largest number of pairs that is declared and whose terminators the bytes after the table can hold; the pairs decoded so far never pass it, and it is the number of pairs of an input that decodes. |
| `Pairs.NextWhole` | crates/proxy-wasm-host/src/codec/pairs.rs:259-281 | One more pair is taken exactly when the table and the data hold it next. |
| `PairCodec.DecodePairs` | crates/proxy-wasm-host/src/codec/pairs.rs:211-250 | The decoder answers what the format says, for every input and limits. |
| `PairCodec.DecodeTable` | crates/proxy-wasm-host/src/codec/pairs.rs:229-250 | The loop never holds more pairs than it reserved for; on success the reserve, the count and the pairs agree. |
| `PairCodec.Cursor.Take` | crates/proxy-wasm-host/src/codec/pairs.rs:262-281 | One field with its terminator, and the position after it. |
| `PairCodec.EncodeVisited` | crates/proxy-wasm-host/src/codec/pairs.rs:122-160 | The two loops answer what two walks mean. |
| `PairCodec.Measure` | crates/proxy-wasm-host/src/codec/pairs.rs:162-193 | The lengths of every pair, or the failure of the last pair that is too long. |
| `PairCodec.CheckedSize` | crates/proxy-wasm-host/src/codec/pairs.rs:130-135 | The exact size, or nothing above the largest size. |
| `PairEncoding.StableSourceEncodes` | crates/proxy-wasm-host/src/codec/pairs.rs:110-122 | A second walk that repeats or extends the first gives the encoding of the first. |
| `PairEncoding.EncodesTheFirstWalk` | crates/proxy-wasm-host/src/codec/pairs.rs:122-160 | The answer is the encoding of the first walk exactly when it fits and the second walk writes its bytes. |
| `PairEncoding.ChangedIsAnotherTotal` | crates/proxy-wasm-host/src/codec/pairs.rs:155-159 | A change is reported exactly when the second walk writes another total. |
| `PairEncoding.ChangeThatKeepsTheTotal` | crates/proxy-wasm-host/src/codec/pairs.rs:155-159 | A change that keeps the total is not reported, and the output does not decode. |
| `PairEncoding.EncodeFailsExactlyWhen` | crates/proxy-wasm-host/src/codec/pairs.rs:116-135 | The three failures, each exactly when its cause holds. |
| `PairEncoding.ObedientSourceReportsThePlace` | crates/proxy-wasm-host/src/codec/pairs.rs:162-193 | A source that stops when told to reports the place and the field that is too long. |
| `PairEncoding.TooLongTellsTheLast` | crates/proxy-wasm-host/src/codec/pairs.rs:162-193 | For any source: the failure is of the last pair that is too long, of its key before its value, with the number of fitting pairs before it. |
| `PairEncoding.EveryAnswerDeclaresTheFirstWalk` | crates/proxy-wasm-host/src/codec/pairs.rs:137-160 | Any answer has the count, the table and the length of the first walk. |
| `HeaderMaps.SetLeavesOne` | crates/proxy-wasm-host/src/header_map.rs:40-47 | A write leaves exactly one pair for its key, in the place of the first, and other pairs keep their order. |
| `HeaderMaps.SetIsReadBack` | crates/proxy-wasm-host/src/header_map.rs:164-196 | A write is read back and changes the answer for no other key. |
| `HeaderMaps.RemoveForgetsTheKey` | crates/proxy-wasm-host/src/header_map.rs:56-61 | A removal leaves no pair of the key and every other answer. |
| `HeaderMaps.WithoutIsPairByPair` | crates/proxy-wasm-host/src/header_map.rs:56-61 | A removal keeps each pair of another key in its place, as often as it is there. |
| `HeaderMaps.GetIsTheFirst` | crates/proxy-wasm-host/src/header_map.rs:165-170 | The value of a key is that of the first pair that has it. |
| `HeaderMaps.SizeIsExactWhenEncoded` | crates/proxy-wasm-host/src/header_map.rs:128-149 | The told size is the size of the output whenever encoding succeeds, and encoding fails exactly when the output would be larger. |
| `HeaderMaps.VecHeaderMap.Set` | crates/proxy-wasm-host/src/header_map.rs:179-196 | The one pass with its flag does that write. |
| `HeaderMaps.VecHeaderMap.Find` | crates/proxy-wasm-host/src/header_map.rs:165-170 | The first value of a key. |
| `HeaderMaps.VecHeaderMap.Add` | crates/proxy-wasm-host/src/header_map.rs:198-201 | Appends a pair. |
| `HeaderMaps.VecHeaderMap.Remove` | crates/proxy-wasm-host/src/header_map.rs:203-206 | Keeps the pairs of other keys. |
| `HeaderMaps.VecHeaderMap.ReplaceAll` | crates/proxy-wasm-host/src/header_map.rs:208-214 | Takes other pairs. |
| `HeaderMaps.VecHeaderMap.EncodedSize` | crates/proxy-wasm-host/src/header_map.rs:131-140 | The sum of the sizes, saturated. |
| `HeaderMaps.VecHeaderMap.Encode` | crates/proxy-wasm-host/src/header_map.rs:147-149 | A stored map is encoded from two equal walks. |
| `Paths.EncodeUndoesDecode` | crates/proxy-wasm-host/src/codec/path.rs:27-43 | For all bytes: the segments joined with zero bytes are the bytes without one zero byte at the end, no segment holds a zero byte, and there is one segment more than zero bytes left, or none for nothing. |
| `Paths.EncodeJoins` | crates/proxy-wasm-host/src/codec/path.rs:11-25 | The encoding is the segments with one zero byte between them. |
| `Paths.DecodesAlike` | crates/proxy-wasm-host/src/codec/path.rs:27-43 | Two paths decode alike exactly when they differ in one zero byte at the end alone. |
| `Paths.DecodeUndoesEncode` | crates/proxy-wasm-host/src/codec/path.rs:11-36 | For all segments with no zero byte inside, decoding gives them back without one empty last segment, and one empty segment alone as none. |
| `Paths.InverseExactlyWhen` | crates/proxy-wasm-host/src/codec/path.rs:34-36 | The two are inverses exactly when the last segment is not empty. |
| `Memory.PlacedIsReadBack` | crates/proxy-wasm-host/src/runtime/memory.rs:106-162 | What is written is read back, and a range apart from it reads as before. |
| `Memory.WordIsReadBack` | crates/proxy-wasm-host/src/runtime/memory.rs:164-181 | A word is readable exactly where it is writable, is read back, and changes no range apart from it. |
| `Memory.WordByByte` | crates/proxy-wasm-host/src/runtime/memory.rs:164-181 | Which bytes a word is in memory, which bytes its write leaves, and which of the two errors a bad pointer gives. |
| `Memory.AccessByByte` | crates/proxy-wasm-host/src/runtime/memory.rs:106-162 | A read and a write byte by byte, and the error of each bad range. |
| `Memory.UnsignedIsTheResidue` | crates/proxy-wasm-host/src/runtime/memory.rs:14-40 | An argument is read as its residue modulo 2^32. |
| `Memory.GuestMemory.Read` | crates/proxy-wasm-host/src/runtime/memory.rs:124-133 | The bytes of a range inside the memory, or the error with its size. |
| `Memory.GuestMemory.Write` | crates/proxy-wasm-host/src/runtime/memory.rs:146-162 | Copies in place over a range of the same length, or changes nothing. |
| `Memory.GuestMemory.ReadU32` | crates/proxy-wasm-host/src/runtime/memory.rs:164-172 | The little-endian word. |
| `Memory.GuestMemory.WriteU32` | crates/proxy-wasm-host/src/runtime/memory.rs:174-181 | Writes the little-endian word. |
| `LittleEndian.WordOfItsBytes` | crates/proxy-wasm-host/src/runtime/memory.rs:164-181 | Four bytes are the encoding of the word they decode to. |
| `LittleEndian.WordHasItsDigits` | crates/proxy-wasm-host/src/runtime/memory.rs:174-181 | Byte `k` of a word is its `k`-th digit to the base 256, the first the least. |
| `LittleEndian.WordIsTheNumber` | crates/proxy-wasm-host/src/runtime/memory.rs:164-172 | Four bytes are read as the number whose digits to the base 256 they are, the first the least. |
| `Allocation.AllocatesOnlyForGoodPointers` | crates/proxy-wasm-host/src/runtime/alloc.rs:83-133 | The allocator runs at most once, and exactly when the given pointers are good, the data is wanted and not empty, and the guest can be called; the guest is poisoned exactly when it fails. |
| `Allocation.PlacedMeansStored` | crates/proxy-wasm-host/src/runtime/alloc.rs:99-133 | With good pointers a call fails exactly when the value cannot be placed or measured, whatever the allocator did. |
| `Allocation.ReturnsTheValue` | crates/proxy-wasm-host/src/runtime/alloc.rs:61-133 | For each choice of the two pointers and every value: after a success each wanted word holds the address or the length, the block holds the bytes as far as the ranges are apart, an empty or unwanted value has address zero, and every other range is what the allocator left, or as it was when it did not run. |
| `Allocation.ReturnFailsExactlyWhen` | crates/proxy-wasm-host/src/runtime/alloc.rs:61-133 | A return answers the first fault of the pointers, the allocation, the place and the length in that order, and then leaves the memory as it was, or as the allocator left it. |
| `HostStores.HostStore.CallAllocator` | crates/proxy-wasm-host/src/runtime/alloc.rs:34-38 | Guest code that overwrites or grows the memory. |
| `HostStores.HostStore.Allocate` | crates/proxy-wasm-host/src/runtime/alloc.rs:19-39 | The checks, the call, and the poison of a failed one. |
| `HostStores.HostStore.WriteToGuest` | crates/proxy-wasm-host/src/runtime/alloc.rs:46-59 | An empty value allocates nothing; any other is placed in the range that the guest gave. |
| `HostStores.HostStore.WriteOptionalReturn` | crates/proxy-wasm-host/src/runtime/alloc.rs:99-133 | Both pointers are checked first, and the words are written after the bytes. |
| `Wasi.FdWriteLogsWhole` | crates/proxy-wasm-host/src/abi/v0_2_1/wasi.rs:111-175 | A call with any bad pointer logs and writes nothing; any other succeeds with one message, cut to the budget and without one newline, counts every byte, and changes those four bytes alone. |
| `Wasi.EnvironGetPointsToEntries` | crates/proxy-wasm-host/src/abi/v0_2_1/wasi.rs:233-256 | With the ranges apart, pointer `i` is the address at which entry `i` and its zero byte stand in memory. |
| `Wasi.EnvironGetWrites` | crates/proxy-wasm-host/src/abi/v0_2_1/wasi.rs:237-256 | A call succeeds exactly when both ranges are inside the memory, with four bytes for each variable and the told block size. |
| `Wasi.SizesAreTold` | crates/proxy-wasm-host/src/abi/v0_2_1/wasi.rs:221-231 | The two sizes, exactly when they fit and both pointers are good. |
| `WasiLaws.FdWriteInFull` | crates/proxy-wasm-host/src/abi/v0_2_1/wasi.rs:111-175 | A gather write in bytes and numbers: each error with its cause in order, the level of each descriptor, the joined bytes of the ranges that the table names address first, the cut and the newline, and the count. |
| `WasiLaws.EnvironGetInFull` | crates/proxy-wasm-host/src/abi/v0_2_1/wasi.rs:205-256 | The environment in bytes: each pointer is a number, each entry is key, equals sign, value and zero byte, no other byte changes, and the call fails exactly for a range outside. |
| `WasiLaws.EnvironGetFailsInFull` | crates/proxy-wasm-host/src/abi/v0_2_1/wasi.rs:237-256 | A call that fails has written the pointers when they have their place and every entry an address, and nothing else. |
| `WasiLaws.SizesInFull` | crates/proxy-wasm-host/src/abi/v0_2_1/wasi.rs:205-231 | The number of variables and of bytes, as numbers at the two places, and no other change. |
| `WasiLaws.SizesFailInFull` | crates/proxy-wasm-host/src/abi/v0_2_1/wasi.rs:221-231 | A call that fails has written the count when that was possible, and nothing else. |
| `WasiHosts.WasiHost.Gather` | crates/proxy-wasm-host/src/abi/v0_2_1/wasi.rs:150-162 | The loop that stops at the budget gives the whole message cut to it. |
| `WasiHosts.WasiHost.ReadRegions` | crates/proxy-wasm-host/src/abi/v0_2_1/wasi.rs:131-145 | The table as regions, or nothing when an end does not fit. |
| `WasiHosts.WasiHost.CheckRegions` | crates/proxy-wasm-host/src/abi/v0_2_1/wasi.rs:146-148 | Whether every region is inside the memory. |
| `WasiHosts.WasiHost.SumLengths` | crates/proxy-wasm-host/src/abi/v0_2_1/wasi.rs:149 | The full sum of the lengths. |
| `WasiHosts.WasiHost.Regions` | crates/proxy-wasm-host/src/abi/v0_2_1/wasi.rs:118-148 | The checks in order. |
| `WasiHosts.WasiHost.WriteLog` | crates/proxy-wasm-host/src/abi/v0_2_1/wasi.rs:111-175 | The memory, the log and the error of a call. |
| `WasiHosts.WasiHost.EnvironmentBlock` | crates/proxy-wasm-host/src/abi/v0_2_1/wasi.rs:205-215 | The loop over the variables gives the block. |
| `WasiHosts.WasiHost.PointerTable` | crates/proxy-wasm-host/src/abi/v0_2_1/wasi.rs:241-247 | The loop with a checked offset gives the table of the places, or nothing. |
| `WasiHosts.WasiHost.PutBlock` | crates/proxy-wasm-host/src/abi/v0_2_1/wasi.rs:252-256 | One block at its range. |
| `WasiHosts.WasiHost.EnvironSizes` | crates/proxy-wasm-host/src/abi/v0_2_1/wasi.rs:221-231 | The count and then the size. |
| `WasiHosts.WasiHost.Environ` | crates/proxy-wasm-host/src/abi/v0_2_1/wasi.rs:237-250 | The table and then the block. |

## Left out

- Metrics, shared data, properties, held names and their bounds: they share the grants and change no table of a conversation.
- Plugin configurations, names of callbacks, the log level and the identity of a guest: plain values that no check reads.
- The stream state of a scope, its detachment and its recovery: the embedder's value passes through and is never looked at.
- What a delivery lends, byte by byte: the slot is modelled with the callout it answers, and its maps and buffers are not.
- The status words that host functions answer to the guest, and their refusal of a bad pointer, limit or name, which is a script without that call.
- The integer arguments of host functions, such as the milliseconds of a period whose zero means none: a script has the value they stand for.
- Host functions that read or write headers, buffers and queue items: they ask the embedder and change no table, besides the announced size.
- The runtime: compilation, linking, fuel, epochs and limits. A guest call is a script and an outcome, and a failure inside an allocator ends the callback as a trap does.
- Start helpers that run several calls in one, and the drop of a whole guest.
- A number of open callouts at or above 2^32 - 1, at which a reservation does not end: the maximum of the embedder is a 32-bit number here.
- `usize` of another width than 64 bits.
- The memory handle and the allocator export that are missing: the first is not modelled, and the second is a flag.
- `read_u64`, `write_u64`, the clock, randomness, arguments and exit: a word of eight bytes and constants.
- Theorems.CalloutsBalance: holds until every 32-bit identifier was given out once, because the identifiers of callouts are reused after that.
- Theorems.DeletionAnswersWhatItEnded: holds until every 32-bit identifier was given out once, for the same reason.
- Theorems.OnlyATrapPutsItBack: holds until every 32-bit identifier was given out once, for the same reason.
- Theorems.ResponseEndsItsCallout: that no entry is left holds until every 32-bit identifier was given out once, for the same reason.
- Theorems.GrpcDeliveryEndsWhatItShould: what is left in the table is stated until every 32-bit identifier was given out once, for the same reason.
- Theorems.ChangesAreReadOnce: two readings with a clear of the grants between them may report one registration twice, because the guest registers again.
- Guests.AbiState.Settle: does not model the metrics and the held names that are cleared with the queues, because no table of a conversation depends on them.
- CallScopes.CallScope.OnConfigure: does not model the plugin that is recorded before the guest is called, because no check reads it.
- RootIsolation.SparedRootIsUntouched: speaks of contexts and callouts; registrations and reports are kept call by call, and a settle of a replaced store clears them for every root.
