/** `transform`: derive an `IOU<U>` from an `IOU<T>`. It makes a fresh
    handler, registers an error observer and then a value observer on the
    source (both on the given queue), and returns the handler's IOU. The value
    observer settles the derived IOU with the mapped value, the error observer
    with the mapped error; a mapping that throws rejects the derived IOU with
    what it threw. Observer closures are opaque, so the two closures are named
    by identifiers the caller supplies, and their bodies are `Deliver`. */
module IOUTransform {
  import opened IOUTypes
  import IOUCore
  import IOUHandler

  /** What the transform's observers settle the derived IOU with, on
      receiving `payload`: the `do`/`catch` around each mapping. */
  function Reaction<T, U, E>(payload: Outcome<T, E>, valueTransform: T -> Result<U, E>,
                             errorTransform: E -> Result<E, E>): Outcome<U, E>
  {
    match payload
    case Value(v) =>
      (match valueTransform(v)
       case Success(u) => Value(u)
       case Failure(thrown) => Error(thrown))
    case Error(e) =>
      (match errorTransform(e)
       case Success(mapped) => Error(mapped)
       case Failure(thrown) => Error(thrown))
  }

  /** The propagation rule, stated on its own: success goes through
      `valueTransform`, failure through `errorTransform`, and an error thrown
      by either becomes the derived IOU's rejection. */
  ghost predicate Propagated<T, U, E>(derived: State<U, E>, payload: Outcome<T, E>,
                                      valueTransform: T -> Result<U, E>, errorTransform: E -> Result<E, E>)
  {
    && (payload.Value? && valueTransform(payload.value).Success? ==>
          derived == Resolved(valueTransform(payload.value).value))
    && (payload.Value? && valueTransform(payload.value).Failure? ==>
          derived == Rejected(valueTransform(payload.value).error))
    && (payload.Error? && errorTransform(payload.error).Success? ==>
          derived == Rejected(errorTransform(payload.error).value))
    && (payload.Error? && errorTransform(payload.error).Failure? ==>
          derived == Rejected(errorTransform(payload.error).error))
  }

  /** The body of the transform observer that receives `payload`, run
      against the derived IOU: settle it through the handler, without a
      queue. */
  function Deliver<T, U, E>(derived: IOU<U, E>, payload: Outcome<T, E>,
                            valueTransform: T -> Result<U, E>, errorTransform: E -> Result<E, E>): (r: Step<U, E>)
    ensures IOUCore.Drained(r.iou)
    ensures derived.state.Pending? ==> Propagated(r.iou.state, payload, valueTransform, errorTransform)
    ensures !derived.state.Pending? ==> r.iou.state == derived.state
  {
    IOUHandler.SettleOn(derived, Reaction(payload, valueTransform, errorTransform), None).step
  }

  /** Run, in order, the inline calls of `log` that go to one of the
      transform's observers `ids`. */
  function RunInline<T, U, E>(derived: IOU<U, E>, log: seq<Call<T, E>>, ids: set<ObserverId>,
                              valueTransform: T -> Result<U, E>, errorTransform: E -> Result<E, E>): (r: Step<U, E>)
    decreases |log|
  {
    if log == [] then Step(derived, [])
    else
      var first := if log[0].delivery.Inline? && log[0].observer in ids
        then Deliver(derived, log[0].payload, valueTransform, errorTransform)
        else Step(derived, []);
      var rest := RunInline(first.iou, log[1..], ids, valueTransform, errorTransform);
      Step(rest.iou, first.log + rest.log)
  }

  /** The source after the transform's two registrations, with the calls
      they made, and the derived IOU as `transform` returns it. */
  datatype Transformed<T, U, E> = Transformed(source: Step<T, E>, derived: IOU<U, E>)

  /** `transform(queue, valueTransform, errorTransform)`. */
  function Transform<T, U, E>(source: IOU<T, E>, queue: Option<QueueId>,
                              valueTransform: T -> Result<U, E>, errorTransform: E -> Result<E, E>,
                              valueObserver: ObserverId, errorObserver: ObserverId): (r: Transformed<T, U, E>)
    ensures r.source.iou.state == source.state
    ensures source.state.Pending? ==> r.source.log == [] && r.derived.state.Pending?
    ensures source.state.Pending? ==>
      r.source.iou.errorObservers == source.errorObservers + [Observer(errorObserver, queue)]
    ensures source.state.Pending? ==>
      r.source.iou.valueObservers == source.valueObservers + [Observer(valueObserver, queue)]
  {
    var registeredError := IOUCore.OnError(source, Observer(errorObserver, queue));
    var registeredValue := IOUCore.OnValue(registeredError.iou, Observer(valueObserver, queue));
    var log := registeredError.log + registeredValue.log;
    var derived := RunInline(IOUHandler.Init(), log, {valueObserver, errorObserver}, valueTransform, errorTransform);
    Transformed(Step(registeredValue.iou, log), derived.iou)
  }

  /** The error mapping of the value-only overload: pass the error through. */
  function PassError<E>(error: E): Result<E, E> {
    Success(error)
  }

  /** `transform(queue, transform)`: errors pass through unchanged. */
  function TransformValue<T, U, E>(source: IOU<T, E>, queue: Option<QueueId>, valueTransform: T -> Result<U, E>,
                                   valueObserver: ObserverId, errorObserver: ObserverId): Transformed<T, U, E>
  {
    Transform(source, queue, valueTransform, PassError, valueObserver, errorObserver)
  }

  /** Transforming an already settled (and so drained) source: exactly one
      of the two observers is called, the one matching the source's state,
      and the source is left as it was. Without a queue the derived IOU comes
      back already settled by the propagation rule; with a queue it comes back
      pending, and the posted call settles it by that rule. */
  lemma TransformSettledSource<T, U, E>(source: IOU<T, E>, queue: Option<QueueId>,
                                        valueTransform: T -> Result<U, E>, errorTransform: E -> Result<E, E>,
                                        valueObserver: ObserverId, errorObserver: ObserverId)
    requires IOUCore.Drained(source) && !source.state.Pending?
    ensures var t := Transform(source, queue, valueTransform, errorTransform, valueObserver, errorObserver);
      var payload := if source.state.Resolved? then Value(source.state.value) else Error(source.state.error);
      var id := if source.state.Resolved? then valueObserver else errorObserver;
      && t.source.iou == source
      && t.source.log == [Call(id, payload, IOUCore.DeliveryFor(Observer(id, queue)))]
      && (queue.None? ==> Propagated(t.derived.state, payload, valueTransform, errorTransform))
      && (queue.Some? ==> t.derived.state.Pending?)
      && (queue.Some? ==>
            Propagated(Deliver(t.derived, payload, valueTransform, errorTransform).iou.state,
                       payload, valueTransform, errorTransform))
  {
    var errorObs := Observer(errorObserver, queue);
    var valueObs := Observer(valueObserver, queue);
    var registeredError := IOUCore.OnError(source, errorObs);
    var registeredValue := IOUCore.OnValue(registeredError.iou, valueObs);
    assert registeredError.iou == source;
    assert source.valueObservers + [valueObs] == [valueObs];
    assert source.errorObservers + [errorObs] == [errorObs];
    var log := registeredError.log + registeredValue.log;
    var init: IOU<U, E> := IOUHandler.Init();
    var payload := if source.state.Resolved? then Value(source.state.value) else Error(source.state.error);
    var id := if source.state.Resolved? then valueObserver else errorObserver;
    assert log == [Call(id, payload, IOUCore.DeliveryFor(Observer(id, queue)))];
    var ids := {valueObserver, errorObserver};
    var first := if log[0].delivery.Inline? && log[0].observer in ids
      then Deliver(init, log[0].payload, valueTransform, errorTransform)
      else Step(init, []);
    assert log[1..] == [];
    assert RunInline(init, log, ids, valueTransform, errorTransform).iou == first.iou;
  }

  /** Transforming a pending source, registering any further observers on
      it while it stays pending (registration only appends, so the lists of
      `later` extend the ones the transform left), and then settling it. The
      dispatch calls the transform's observer of the matching kind at the
      place it was registered, right after the observers registered before
      the transform, with the settlement's payload. Each of the two transform
      ids is called as often as it occurs in the notified list, so exactly
      once when the id is fresh. That call settles the still-pending derived
      IOU by the propagation rule. */
  lemma TransformThenSettle<T, U, E>(source: IOU<T, E>, queue: Option<QueueId>,
                                     valueTransform: T -> Result<U, E>, errorTransform: E -> Result<E, E>,
                                     valueObserver: ObserverId, errorObserver: ObserverId,
                                     later: IOU<T, E>, outcome: Outcome<T, E>)
    requires source.state.Pending? && later.state.Pending?
    requires var t := Transform(source, queue, valueTransform, errorTransform, valueObserver, errorObserver);
      && t.source.iou.valueObservers <= later.valueObservers
      && t.source.iou.errorObservers <= later.errorObservers
    ensures var t := Transform(source, queue, valueTransform, errorTransform, valueObserver, errorObserver);
      var settled := IOUCore.Settle(later, outcome);
      var id := if outcome.Value? then valueObserver else errorObserver;
      var before := if outcome.Value? then source.valueObservers else source.errorObservers;
      var notified := if outcome.Value? then later.valueObservers else later.errorObservers;
      && |before| < |settled.log|
      && settled.log[|before|] == Call(id, outcome, IOUCore.DeliveryFor(Observer(id, queue)))
      && IOUCore.CallsTo(settled.log, valueObserver) == IOUCore.Occurrences(notified, valueObserver)
      && IOUCore.CallsTo(settled.log, errorObserver) == IOUCore.Occurrences(notified, errorObserver)
      && Propagated(Deliver(t.derived, outcome, valueTransform, errorTransform).iou.state,
                    outcome, valueTransform, errorTransform)
  {
    var t := Transform(source, queue, valueTransform, errorTransform, valueObserver, errorObserver);
    var settled := IOUCore.Settle(later, outcome);
    var id := if outcome.Value? then valueObserver else errorObserver;
    var registered := if outcome.Value? then t.source.iou.valueObservers else t.source.iou.errorObservers;
    var before := if outcome.Value? then source.valueObservers else source.errorObservers;
    var notified := if outcome.Value? then later.valueObservers else later.errorObservers;
    assert registered == before + [Observer(id, queue)];
    assert notified[|before|] == registered[|before|] == Observer(id, queue);
    IOUCore.CallsToNotified(settled.log, notified, outcome, valueObserver);
    IOUCore.CallsToNotified(settled.log, notified, outcome, errorObserver);
  }

  /** One more value observer registered on the source between `transform`
      and `resolve`: the transform's value observer is still called, with
      the resolved value, right after the observers registered before the
      transform, and its call settles the derived IOU by the propagation
      rule. */
  lemma TransformThenRegisterThenResolve<T, U, E>(source: IOU<T, E>, queue: Option<QueueId>,
                                                  valueTransform: T -> Result<U, E>, errorTransform: E -> Result<E, E>,
                                                  valueObserver: ObserverId, errorObserver: ObserverId,
                                                  other: Observer, value: T)
    requires source.state.Pending?
    ensures var t := Transform(source, queue, valueTransform, errorTransform, valueObserver, errorObserver);
      var resolved := IOUCore.Resolve(IOUCore.OnValue(t.source.iou, other).iou, value);
      && |source.valueObservers| + 1 < |resolved.log|
      && resolved.log[|source.valueObservers|]
         == Call(valueObserver, Value(value), IOUCore.DeliveryFor(Observer(valueObserver, queue)))
      && Propagated(Deliver(t.derived, Value(value), valueTransform, errorTransform).iou.state,
                    Value(value), valueTransform, errorTransform)
  {
    var t := Transform(source, queue, valueTransform, errorTransform, valueObserver, errorObserver);
    var later := IOUCore.OnValue(t.source.iou, other).iou;
    TransformThenSettle(source, queue, valueTransform, errorTransform, valueObserver, errorObserver,
                        later, Value(value));
    assert IOUCore.Settle(later, Value(value)) == IOUCore.Resolve(later, value);
  }

  /** The value-only overload passes a source's error to the derived IOU
      unchanged, on any queue. If the source was already rejected, the
      derived IOU comes back rejected with that error (no queue) or is
      rejected with it when the posted call runs. If the source is pending
      and is then rejected, the dispatch ends with the call to the
      transform's error observer, and that call rejects the derived IOU with
      the same error. */
  lemma ErrorsPassThrough<T, U, E>(source: IOU<T, E>, queue: Option<QueueId>, valueTransform: T -> Result<U, E>,
                                   valueObserver: ObserverId, errorObserver: ObserverId, error: E)
    ensures IOUCore.Drained(source) && source.state.Rejected? ==>
      var t := TransformValue(source, queue, valueTransform, valueObserver, errorObserver);
      && (queue.None? ==> t.derived.state == Rejected(source.state.error))
      && (queue.Some? ==> t.derived.state.Pending?)
      && (queue.Some? ==>
            Deliver(t.derived, Error(source.state.error), valueTransform, PassError).iou.state
            == Rejected(source.state.error))
    ensures source.state.Pending? ==>
      var t := TransformValue(source, queue, valueTransform, valueObserver, errorObserver);
      var rejected := IOUCore.Reject(t.source.iou, error);
      && |rejected.log| > 0
      && rejected.log[|rejected.log| - 1]
         == Call(errorObserver, Error(error), IOUCore.DeliveryFor(Observer(errorObserver, queue)))
      && Deliver(t.derived, Error(error), valueTransform, PassError).iou.state == Rejected(error)
  {
    if IOUCore.Drained(source) && source.state.Rejected? {
      TransformSettledSource(source, queue, valueTransform, PassError, valueObserver, errorObserver);
    }
    if source.state.Pending? {
      var t := TransformValue(source, queue, valueTransform, valueObserver, errorObserver);
      TransformThenSettle(source, queue, valueTransform, PassError, valueObserver, errorObserver,
                          t.source.iou, Error(error));
      assert IOUCore.Settle(t.source.iou, Error(error)) == IOUCore.Reject(t.source.iou, error);
    }
  }

  /** The doubling example: a source resolved with 5, transformed by a
      mapping that doubles, gives a derived IOU resolved with 10; a mapping
      that throws gives one rejected with what it threw. */
  lemma DoublingExample(thrown: string)
    ensures var source: IOU<int, string> := IOU(Resolved(5), [], []);
      && TransformValue(source, None, (x: int) => Success(x * 2), 0, 1).derived.state == Resolved(10)
      && TransformValue(source, None, (x: int) => Result<int, string>.Failure(thrown), 0, 1).derived.state == Rejected(thrown)
  {
    var source: IOU<int, string> := IOU(Resolved(5), [], []);
    TransformSettledSource(source, None, (x: int) => Success(x * 2), PassError, 0, 1);
    TransformSettledSource(source, None, (x: int) => Result<int, string>.Failure(thrown), PassError, 0, 1);
  }
}
