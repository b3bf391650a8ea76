/** The IOU state machine shared by both versions of the class: the
    one-time settlement, observer registration, and the dispatch pass that
    calls the observers matching the state and then empties both lists.
    The serial queue that guards `updateState` is modelled by making every
    operation one atomic step. */
module IOUCore {
  import opened IOUTypes

  /** The shape every operation leaves an IOU in: once settled, it holds no
      observers. */
  ghost predicate Drained<T, E>(iou: IOU<T, E>) {
    !iou.state.Pending? ==> iou.valueObservers == [] && iou.errorObservers == []
  }

  /** `log` is exactly one call per observer, in registration order, each
      with `payload`; an observer without a queue is called inline and one
      with a queue is posted to that queue. */
  ghost predicate Notifies<T, E>(log: seq<Call<T, E>>, observers: seq<Observer>, payload: Outcome<T, E>) {
    && |log| == |observers|
    && forall i :: 0 <= i < |log| ==>
         && log[i].observer == observers[i].id
         && log[i].payload == payload
         && (log[i].delivery.Inline? <==> observers[i].queue.None?)
         && (observers[i].queue.Some? ==> log[i].delivery == Posted(observers[i].queue.value))
  }

  function DeliveryFor(observer: Observer): Delivery {
    match observer.queue
    case None => Inline
    case Some(q) => Posted(q)
  }

  /** The loop of a dispatch pass over one observer list. */
  function Notify<T, E>(observers: seq<Observer>, payload: Outcome<T, E>): (log: seq<Call<T, E>>)
    ensures Notifies(log, observers, payload)
  {
    if observers == [] then []
    else [Call(observers[0].id, payload, DeliveryFor(observers[0]))] + Notify(observers[1..], payload)
  }

  /** `updateState`: a settlement takes effect only on a pending IOU. */
  function UpdateState<T, E>(state: State<T, E>, outcome: Outcome<T, E>): (r: State<T, E>)
    ensures !r.Pending?
    ensures state.Pending? && outcome.Value? ==> r == Resolved(outcome.value)
    ensures state.Pending? && outcome.Error? ==> r == Rejected(outcome.error)
    ensures !state.Pending? ==> r == state
  {
    if state.Pending? then StateOf(outcome) else state
  }

  /** `callAndRemoveObservers`: notify the list matching the state, then
      empty both lists. A pending IOU notifies nobody. */
  function CallAndRemoveObservers<T, E>(iou: IOU<T, E>): (r: Step<T, E>)
    ensures r.iou == IOU(iou.state, [], [])
    ensures iou.state.Pending? ==> r.log == []
    ensures iou.state.Resolved? ==> Notifies(r.log, iou.valueObservers, Value(iou.state.value))
    ensures iou.state.Rejected? ==> Notifies(r.log, iou.errorObservers, Error(iou.state.error))
  {
    var log := match iou.state
      case Pending => []
      case Resolved(v) => Notify(iou.valueObservers, Value(v))
      case Rejected(e) => Notify(iou.errorObservers, Error(e));
    Step(IOU(iou.state, [], []), log)
  }

  /** `resolve`: the first settlement stores the value and notifies the value
      observers; a later one changes nothing and, on a drained IOU, calls
      nobody. */
  function Resolve<T, E>(iou: IOU<T, E>, value: T): (r: Step<T, E>)
    ensures r.iou.valueObservers == [] && r.iou.errorObservers == []
    ensures iou.state.Pending? ==> r.iou.state == Resolved(value)
    ensures iou.state.Pending? ==> Notifies(r.log, iou.valueObservers, Value(value))
    ensures !iou.state.Pending? ==> r.iou.state == iou.state
    ensures !iou.state.Pending? && Drained(iou) ==> r.log == []
  {
    CallAndRemoveObservers(iou.(state := UpdateState(iou.state, Value(value))))
  }

  /** `reject`: the first settlement stores the error and notifies the error
      observers; a later one changes nothing and, on a drained IOU, calls
      nobody. */
  function Reject<T, E>(iou: IOU<T, E>, error: E): (r: Step<T, E>)
    ensures r.iou.valueObservers == [] && r.iou.errorObservers == []
    ensures iou.state.Pending? ==> r.iou.state == Rejected(error)
    ensures iou.state.Pending? ==> Notifies(r.log, iou.errorObservers, Error(error))
    ensures !iou.state.Pending? ==> r.iou.state == iou.state
    ensures !iou.state.Pending? && Drained(iou) ==> r.log == []
  {
    CallAndRemoveObservers(iou.(state := UpdateState(iou.state, Error(error))))
  }

  /** Settle through `resolve` or `reject`, whichever the outcome names. */
  function Settle<T, E>(iou: IOU<T, E>, outcome: Outcome<T, E>): (r: Step<T, E>)
    ensures Drained(r.iou)
    ensures r.iou.state == UpdateState(iou.state, outcome)
  {
    match outcome
    case Value(v) => Resolve(iou, v)
    case Error(e) => Reject(iou, e)
  }

  /** `onValue(queue, observer)`: append the observer; if the IOU is already
      settled, run a dispatch pass at once. */
  function OnValue<T, E>(iou: IOU<T, E>, observer: Observer): (r: Step<T, E>)
    ensures r.iou.state == iou.state
    ensures Drained(r.iou)
    ensures iou.state.Pending? ==> r.log == []
    ensures iou.state.Pending? ==> r.iou.valueObservers == iou.valueObservers + [observer]
    ensures iou.state.Pending? ==> r.iou.errorObservers == iou.errorObservers
    ensures iou.state.Resolved? ==> Notifies(r.log, iou.valueObservers + [observer], Value(iou.state.value))
    ensures iou.state.Rejected? ==> Notifies(r.log, iou.errorObservers, Error(iou.state.error))
  {
    var appended := iou.(valueObservers := iou.valueObservers + [observer]);
    if !iou.state.Pending? then CallAndRemoveObservers(appended) else Step(appended, [])
  }

  /** `onError(queue, observer)`: append the observer; if the IOU is already
      settled, run a dispatch pass at once. */
  function OnError<T, E>(iou: IOU<T, E>, observer: Observer): (r: Step<T, E>)
    ensures r.iou.state == iou.state
    ensures Drained(r.iou)
    ensures iou.state.Pending? ==> r.log == []
    ensures iou.state.Pending? ==> r.iou.errorObservers == iou.errorObservers + [observer]
    ensures iou.state.Pending? ==> r.iou.valueObservers == iou.valueObservers
    ensures iou.state.Rejected? ==> Notifies(r.log, iou.errorObservers + [observer], Error(iou.state.error))
    ensures iou.state.Resolved? ==> Notifies(r.log, iou.valueObservers, Value(iou.state.value))
  {
    var appended := iou.(errorObservers := iou.errorObservers + [observer]);
    if !iou.state.Pending? then CallAndRemoveObservers(appended) else Step(appended, [])
  }

  /** Whatever the first settlement was, a second `resolve` or `reject`
      leaves the IOU as it is and calls nobody. */
  lemma FirstSettlementWins<T, E>(iou: IOU<T, E>, first: Outcome<T, E>, second: Outcome<T, E>)
    ensures Settle(Settle(iou, first).iou, second).iou == Settle(iou, first).iou
    ensures Settle(Settle(iou, first).iou, second).log == []
    ensures iou.state.Pending? ==> Settle(iou, first).iou.state == StateOf(first)
  {
  }

  /** Registering on a settled, drained IOU: an observer of the matching
      kind is called exactly once, right away, with the stored payload; one
      of the other kind is dropped uncalled. The IOU is left as it was. */
  lemma LateRegistration<T, E>(iou: IOU<T, E>, observer: Observer)
    requires Drained(iou) && !iou.state.Pending?
    ensures OnValue(iou, observer).iou == iou && OnError(iou, observer).iou == iou
    ensures iou.state.Resolved? ==>
      OnValue(iou, observer).log == [Call(observer.id, Value(iou.state.value), DeliveryFor(observer))]
    ensures iou.state.Resolved? ==> OnError(iou, observer).log == []
    ensures iou.state.Rejected? ==>
      OnError(iou, observer).log == [Call(observer.id, Error(iou.state.error), DeliveryFor(observer))]
    ensures iou.state.Rejected? ==> OnValue(iou, observer).log == []
  {
  }

  /** The number of calls in `log` that go to observer `id`. */
  function CallsTo<T, E>(log: seq<Call<T, E>>, id: ObserverId): nat {
    if log == [] then 0
    else (if log[0].observer == id then 1 else 0) + CallsTo(log[1..], id)
  }

  /** The number of times `id` occurs among `observers`. */
  function Occurrences(observers: seq<Observer>, id: ObserverId): nat {
    if observers == [] then 0
    else (if observers[0].id == id then 1 else 0) + Occurrences(observers[1..], id)
  }

  /** Counting calls in a dispatch log: an observer id gets as many calls
      as it has entries in the notified list. */
  lemma {:induction false} CallsToNotified<T, E>(log: seq<Call<T, E>>, observers: seq<Observer>,
                                                 payload: Outcome<T, E>, id: ObserverId)
    requires Notifies(log, observers, payload)
    ensures CallsTo(log, id) == Occurrences(observers, id)
    decreases |log|
  {
    if log != [] {
      assert Notifies(log[1..], observers[1..], payload) by {
        forall i | 0 <= i < |log[1..]|
          ensures log[1..][i] == log[i + 1] && observers[1..][i] == observers[i + 1]
        {
        }
      }
      CallsToNotified(log[1..], observers[1..], payload, id);
    }
  }
}
