/** The state of one guest conversation and its history. */
module States {
  import opened Prelude
  import opened Contexts
  import Callouts
  import Grants

  datatype Callback =
    | ContextCreate | VmStart | Configure
    | NewConnection | DownstreamData | UpstreamData | DownstreamConnectionClose | UpstreamConnectionClose
    | RequestHeaders | RequestBody | RequestTrailers | ResponseHeaders | ResponseBody | ResponseTrailers
    | HttpCallResponse | GrpcReceiveInitialMetadata | GrpcReceive | GrpcReceiveTrailingMetadata | GrpcClose
    | ContextDone | ContextLog | ContextDelete
    | Tick | QueueReady | ForeignFunction
  {
    /** The family of stream a stream callback belongs to. */
    function Family(): Option<StreamKind> {
      match this
      case NewConnection => Some(Tcp)
      case DownstreamData => Some(Tcp)
      case UpstreamData => Some(Tcp)
      case DownstreamConnectionClose => Some(Tcp)
      case UpstreamConnectionClose => Some(Tcp)
      case RequestHeaders => Some(Http)
      case RequestBody => Some(Http)
      case RequestTrailers => Some(Http)
      case ResponseHeaders => Some(Http)
      case ResponseBody => Some(Http)
      case ResponseTrailers => Some(Http)
      case _ => None
    }

    /** The three callbacks that end a context, which a refused guest still gets. */
    predicate Ending() {
      ContextDone? || ContextLog? || ContextDelete?
    }

    /** The buffer whose size a data callback announces. */
    function Announces(): Option<BufferType> {
      match this
      case DownstreamData => Some(DownstreamBuffer)
      case UpstreamData => Some(UpstreamBuffer)
      case RequestBody => Some(RequestBodyBuffer)
      case ResponseBody => Some(ResponseBodyBuffer)
      case _ => None
    }
  }

  datatype BufferType = DownstreamBuffer | UpstreamBuffer | RequestBodyBuffer | ResponseBodyBuffer

  /** The slot of a delivery, with the callout it is about. */
  datatype Delivery = Delivery(callout: Option<Callouts.CalloutId>)

  /** How a callout left the table. */
  datatype Cause = Delivered | ByGuest | Dropped

  /** The history of a conversation. `Entered` is the guest reached by a
      callback, with what the tables said of its context at that moment. */
  datatype Event =
    | Created(context: ContextId, under: ContextId)
    | RefusedVm
    | RefusedRoot(context: ContextId)
    | Deleted(context: ContextId)
    | Entered(callback: Callback, context: ContextId, root: Option<ContextId>, entry: Option<Entry>, refused: bool,
              scope: nat)
    | Opened(callout: Callouts.CalloutId)
    | Ended(callout: Callouts.CalloutId, cause: Cause)
    | Restored(callout: Callouts.CalloutId)

  /** The history of callouts that leave the table with no guest call. */
  function Drops(made: seq<Callouts.Made>): seq<Event> {
    seq(|made|, i requires 0 <= i < |made| => Ended(made[i].id, Dropped))
  }

  /** What the guest does in one callback: nothing, when it does not export it,
      or a script of host function calls and a way to end. */
  datatype Play = Absent | Play(acts: seq<Act>, outcome: Outcome)

  datatype Outcome = Return(value: int) | Trap | Panic

  /** One host function call that reaches the tables, with the answer of the
      embedder where it asks one. */
  datatype Act =
    | OpenCallout(kind: Callouts.Kind, accepted: bool)
    | Send(callout: Callouts.CalloutId, endOfStream: bool, accepted: bool)
    | Cancel(callout: Callouts.CalloutId)
    | Close(callout: Callouts.CalloutId)
    | SetEffective(context: ContextId)
    | ProxyDone
    | SetTickPeriod(period: Option<nat>)
    | RegisterQueue(queue: Option<Grants.QueueId>, name: seq<byte>)
    | ResolveQueue(queue: Option<Grants.QueueId>)
    | UseQueue
    | ReadBuffer(buffer: BufferType)

  /** The number of open callouts the embedder allows one guest. */
  type Maximum = x: nat | x <= U32_MAX

  datatype State = State(
    contexts: Table,
    callouts: Callouts.Table,
    grants: Grants.Grants,
    current: Option<Callback>,
    announced: Option<BufferType>,
    deleting: Option<ContextId>,
    delivery: Option<Delivery>,
    poisoned: bool,
    served: Option<ContextId>,
    scope: nat,
    maximum: Maximum,
    future: seq<Play>,
    log: seq<Event>)
  {
    function Note(event: Event): State {
      this.(log := log + [event])
    }

    /** No callback is running and the guest may be entered. */
    predicate AtRest() {
      !poisoned && current.None?
    }
  }

  function NewState(store: Grants.StoreId, maximum: Maximum, future: seq<Play>): State {
    State(NewTable(), Callouts.NewTable(), Grants.NewGrants(store),
          None, None, None, None, false, None, 0, maximum, future, [])
  }
}
