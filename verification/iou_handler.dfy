/** `IOUHandler`, the producer's handle on an IOU. The version with
    queues settles right away when no queue is given and otherwise posts the
    settlement to the queue; the other version always settles right away,
    which is the no-queue case. */
module IOUHandler {
  import opened IOUTypes
  import IOUCore

  /** The IOU a freshly constructed handler owns. */
  function Init<T, E>(): (iou: IOU<T, E>)
    ensures iou.state.Pending?
    ensures iou.valueObservers == [] && iou.errorObservers == []
  {
    IOU(Pending, [], [])
  }

  /** What a handler call does: settle now, or leave the IOU untouched and
      post the settlement to a queue, to run when that queue gets to it. */
  datatype Effect<T, E> = Immediate(step: Step<T, E>) | Deferred(queue: QueueId, outcome: Outcome<T, E>)

  /** `resolve(value, queue)` and `reject(error, queue)`. */
  function SettleOn<T, E>(iou: IOU<T, E>, outcome: Outcome<T, E>, queue: Option<QueueId>): (r: Effect<T, E>)
    ensures queue.None? <==> r.Immediate?
    ensures queue.None? ==> r.step.iou.state == IOUCore.UpdateState(iou.state, outcome)
    ensures queue.None? ==> IOUCore.Drained(r.step.iou)
    ensures queue.Some? ==> r.queue == queue.value && r.outcome == outcome
  {
    match queue
    case None => Immediate(IOUCore.Settle(iou, outcome))
    case Some(q) => Deferred(q, outcome)
  }

  /** The posted settlement, run on whatever the IOU has become by then. */
  function RunDeferred<T, E>(iou: IOU<T, E>, effect: Effect<T, E>): (r: Step<T, E>)
    requires effect.Deferred?
    ensures r.iou.state == IOUCore.UpdateState(iou.state, effect.outcome)
  {
    IOUCore.Settle(iou, effect.outcome)
  }

  /** The handler without a queue forwards to the IOU's own `resolve` and
      `reject`, which is all the synchronous-only handler does. */
  lemma SyncHandlerForwards<T, E>(iou: IOU<T, E>, value: T, error: E)
    ensures SettleOn(iou, Value(value), None) == Immediate(IOUCore.Resolve(iou, value))
    ensures SettleOn(iou, Error(error), None) == Immediate(IOUCore.Reject(iou, error))
  {
  }

  /** A posted settlement, once run, has the effect the queueless call would
      have had at that moment; if another settlement got in first, the
      posted one is ignored and calls nobody. */
  lemma DeferredSettlement<T, E>(iou: IOU<T, E>, outcome: Outcome<T, E>, q: QueueId, earlier: Outcome<T, E>)
    ensures RunDeferred(iou, SettleOn(iou, outcome, Some(q))) == SettleOn(iou, outcome, None).step
    ensures var settled := IOUCore.Settle(iou, earlier).iou;
      RunDeferred(settled, SettleOn(iou, outcome, Some(q))) == Step(settled, [])
  {
  }
}
