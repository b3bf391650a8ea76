/** The values the IOU state machine works on: its three states, the
    observers registered on it, the calls a dispatch pass makes, and the
    result of one step. Observer closures and dispatch queues are opaque:
    each is named by an identifier. */
module IOUTypes {

  /** An observer closure, named by an opaque identifier. */
  type ObserverId = nat

  /** A dispatch queue, named by an opaque identifier. */
  type QueueId = nat

  /** Swift's optional `T?`. */
  datatype Option<T> = None | Some(value: T)

  /** The outcome of a closure that may throw: its return value, or the
      error it threw. */
  datatype Result<R, E> = Success(value: R) | Failure(error: E)

  /** A settlement: the value handed to value observers, or the error handed
      to error observers. */
  datatype Outcome<T, E> = Value(value: T) | Error(error: E)

  /** The state of an IOU. A settled state carries its payload. */
  datatype State<T, E> = Pending | Resolved(value: T) | Rejected(error: E)

  /** The state a settlement leads to. */
  function StateOf<T, E>(outcome: Outcome<T, E>): State<T, E> {
    match outcome
    case Value(v) => Resolved(v)
    case Error(e) => Rejected(e)
  }

  /** A registered `(observer, queue?)` pair. */
  datatype Observer = Observer(id: ObserverId, queue: Option<QueueId>)

  /** How an observer is invoked: called in the dispatching frame, or
      handed to its queue with `dispatch_async`. */
  datatype Delivery = Inline | Posted(queue: QueueId)

  /** One invocation made by a dispatch pass. */
  datatype Call<T, E> = Call(observer: ObserverId, payload: Outcome<T, E>, delivery: Delivery)

  /** An IOU: its state and its two observer lists, in registration order. */
  datatype IOU<T, E> = IOU(state: State<T, E>, errorObservers: seq<Observer>, valueObservers: seq<Observer>)

  /** The IOU after an operation, with the invocations the operation made. */
  datatype Step<T, E> = Step(iou: IOU<T, E>, log: seq<Call<T, E>>)
}
