/** A whole life of one IOU: a sequence of settlements and registrations,
    applied one at a time to the IOU a fresh handler owns, with all the calls
    they made. The main theorem compares it with a reference description
    that does not mention the machine: the state is the first settlement, and
    the calls go to the observers registered with the matching kind, in
    registration order, whether they registered before or after the
    settlement. */
module IOULifecycle {
  import opened IOUTypes
  import IOUCore
  import IOUHandler

  /** One operation on an IOU. */
  datatype Op<T, E> =
    | ResolveOp(value: T)
    | RejectOp(error: E)
    | OnValueOp(observer: Observer)
    | OnErrorOp(observer: Observer)

  function Apply<T, E>(iou: IOU<T, E>, op: Op<T, E>): Step<T, E> {
    match op
    case ResolveOp(v) => IOUCore.Resolve(iou, v)
    case RejectOp(e) => IOUCore.Reject(iou, e)
    case OnValueOp(o) => IOUCore.OnValue(iou, o)
    case OnErrorOp(o) => IOUCore.OnError(iou, o)
  }

  /** Apply `ops` in order, collecting every call. */
  function Run<T, E>(iou: IOU<T, E>, ops: seq<Op<T, E>>): Step<T, E>
    decreases |ops|
  {
    if ops == [] then Step(iou, [])
    else
      var before := Run(iou, ops[..|ops| - 1]);
      var last := Apply(before.iou, ops[|ops| - 1]);
      Step(last.iou, before.log + last.log)
  }

  /** Reference: the state named by the first settlement in `ops`. */
  function FirstSettlement<T, E>(ops: seq<Op<T, E>>): State<T, E> {
    if ops == [] then Pending
    else
      match ops[0]
      case ResolveOp(v) => Resolved(v)
      case RejectOp(e) => Rejected(e)
      case _ => FirstSettlement(ops[1..])
  }

  /** Reference: the observers registered with `onValue` (or, when
      `forValues` is false, with `onError`), in order. */
  function Registered<T, E>(ops: seq<Op<T, E>>, forValues: bool): seq<Observer> {
    if ops == [] then []
    else
      var head := match ops[0]
        case OnValueOp(o) => if forValues then [o] else []
        case OnErrorOp(o) => if forValues then [] else [o]
        case _ => [];
      head + Registered(ops[1..], forValues)
  }

  lemma {:induction false} FirstSettlementSnoc<T, E>(ops: seq<Op<T, E>>, op: Op<T, E>)
    ensures !FirstSettlement(ops).Pending? ==> FirstSettlement(ops + [op]) == FirstSettlement(ops)
    ensures FirstSettlement(ops).Pending? && op.ResolveOp? ==> FirstSettlement(ops + [op]) == Resolved(op.value)
    ensures FirstSettlement(ops).Pending? && op.RejectOp? ==> FirstSettlement(ops + [op]) == Rejected(op.error)
    ensures FirstSettlement(ops).Pending? && (op.OnValueOp? || op.OnErrorOp?) ==>
      FirstSettlement(ops + [op]).Pending?
  {
    if ops == [] {
      assert ops + [op] == [op];
      assert [op][1..] == [];
    } else {
      assert (ops + [op])[0] == ops[0];
      assert (ops + [op])[1..] == ops[1..] + [op];
      FirstSettlementSnoc(ops[1..], op);
    }
  }

  lemma {:induction false} RegisteredSnoc<T, E>(ops: seq<Op<T, E>>, op: Op<T, E>, forValues: bool)
    ensures Registered(ops + [op], forValues) == Registered(ops, forValues) + Registered([op], forValues)
  {
    if ops == [] {
      assert ops + [op] == [op];
    } else {
      assert (ops + [op])[0] == ops[0];
      assert (ops + [op])[1..] == ops[1..] + [op];
      RegisteredSnoc(ops[1..], op, forValues);
    }
  }

  lemma NotifiesAppend<T, E>(a: seq<Call<T, E>>, observersA: seq<Observer>,
                             b: seq<Call<T, E>>, observersB: seq<Observer>, payload: Outcome<T, E>)
    requires IOUCore.Notifies(a, observersA, payload)
    requires IOUCore.Notifies(b, observersB, payload)
    ensures IOUCore.Notifies(a + b, observersA + observersB, payload)
  {
  }

  /** The dispatch log for a list of observers and a payload is determined by
      them: queues fix how each call is delivered. */
  lemma NotifiesUnique<T, E>(log1: seq<Call<T, E>>, log2: seq<Call<T, E>>, observers: seq<Observer>, payload: Outcome<T, E>)
    requires IOUCore.Notifies(log1, observers, payload) && IOUCore.Notifies(log2, observers, payload)
    ensures log1 == log2
  {
  }

  /** The run `r` agrees with the reference description of `ops`. */
  ghost predicate Describes<T, E>(r: Step<T, E>, ops: seq<Op<T, E>>) {
    var s := FirstSettlement(ops);
    && r.iou.state == s
    && IOUCore.Drained(r.iou)
    && (s.Pending? ==> r.log == [])
    && (s.Pending? ==> r.iou.valueObservers == Registered(ops, true))
    && (s.Pending? ==> r.iou.errorObservers == Registered(ops, false))
    && (s.Resolved? ==> IOUCore.Notifies(r.log, Registered(ops, true), Value(s.value)))
    && (s.Rejected? ==> IOUCore.Notifies(r.log, Registered(ops, false), Error(s.error)))
  }

  /** A settlement keeps a run in agreement with the reference. */
  lemma SettlementStep<T, E>(before: Step<T, E>, ops: seq<Op<T, E>>, op: Op<T, E>)
    requires Describes(before, ops)
    requires op.ResolveOp? || op.RejectOp?
    ensures var last := Apply(before.iou, op);
      Describes(Step(last.iou, before.log + last.log), ops + [op])
  {
    FirstSettlementSnoc(ops, op);
    RegisteredSnoc(ops, op, true);
    RegisteredSnoc(ops, op, false);
    assert Registered([op], true) == [] && Registered([op], false) == [];
    var last := Apply(before.iou, op);
    if FirstSettlement(ops).Pending? {
      assert before.log + last.log == last.log;
    } else {
      assert before.log + last.log == before.log;
    }
  }

  /** A registration keeps a run in agreement with the reference. */
  lemma RegistrationStep<T, E>(before: Step<T, E>, ops: seq<Op<T, E>>, op: Op<T, E>)
    requires Describes(before, ops)
    requires op.OnValueOp? || op.OnErrorOp?
    ensures var last := Apply(before.iou, op);
      Describes(Step(last.iou, before.log + last.log), ops + [op])
  {
    FirstSettlementSnoc(ops, op);
    RegisteredSnoc(ops, op, true);
    RegisteredSnoc(ops, op, false);
    assert [op][1..] == [];
    var last := Apply(before.iou, op);
    var s := FirstSettlement(ops);
    var o := op.observer;
    if s.Resolved? && op.OnValueOp? {
      assert Registered([op], true) == [o];
      assert before.iou.valueObservers + [o] == [o];
      NotifiesAppend(before.log, Registered(ops, true), last.log, [o], Value(s.value));
    } else if s.Rejected? && op.OnErrorOp? {
      assert Registered([op], false) == [o];
      assert before.iou.errorObservers + [o] == [o];
      NotifiesAppend(before.log, Registered(ops, false), last.log, [o], Error(s.error));
    } else {
      assert before.log + last.log == before.log;
    }
  }

  /** Main theorem. From a fresh handler's IOU, after any sequence of
      operations: the state is the first settlement; while pending, the two
      lists hold exactly the registered observers in order and nobody has
      been called; once settled, the lists are empty and the calls made are
      one per observer registered with the matching kind, in registration
      order, each with the settled payload, inline exactly when the observer
      has no queue. No observer of the other kind is ever called. */
  lemma {:induction false} Lifecycle<T, E>(ops: seq<Op<T, E>>)
    ensures var r := Run(IOUHandler.Init(), ops);
      var s := FirstSettlement(ops);
      && r.iou.state == s
      && IOUCore.Drained(r.iou)
      && (s.Pending? ==> r.log == [])
      && (s.Pending? ==> r.iou.valueObservers == Registered(ops, true))
      && (s.Pending? ==> r.iou.errorObservers == Registered(ops, false))
      && (s.Resolved? ==> IOUCore.Notifies(r.log, Registered(ops, true), Value(s.value)))
      && (s.Rejected? ==> IOUCore.Notifies(r.log, Registered(ops, false), Error(s.error)))
    decreases |ops|
  {
    var init: IOU<T, E> := IOUHandler.Init();
    if ops != [] {
      var prefix, op := ops[..|ops| - 1], ops[|ops| - 1];
      assert ops == prefix + [op];
      Lifecycle(prefix);
      var before := Run(init, prefix);
      assert Describes(before, prefix);
      if op.ResolveOp? || op.RejectOp? {
        SettlementStep(before, prefix, op);
      } else {
        RegistrationStep(before, prefix, op);
      }
      assert Describes(Run(init, ops), ops);
    } else {
      assert Describes(Run(init, ops), ops);
    }
  }

  /** Registering before or after the settlement cannot be told apart: two
      runs with the same first settlement and the same registrations of each
      kind end in the same IOU with the same calls. */
  lemma RegistrationTimingInvisible<T, E>(ops1: seq<Op<T, E>>, ops2: seq<Op<T, E>>)
    requires FirstSettlement(ops1) == FirstSettlement(ops2)
    requires Registered(ops1, true) == Registered(ops2, true)
    requires Registered(ops1, false) == Registered(ops2, false)
    ensures Run(IOUHandler.Init(), ops1) == Run(IOUHandler.Init(), ops2)
  {
    Lifecycle(ops1);
    Lifecycle(ops2);
    var init: IOU<T, E> := IOUHandler.Init();
    var r1, r2 := Run(init, ops1), Run(init, ops2);
    var s := FirstSettlement(ops1);
    if s.Resolved? {
      NotifiesUnique(r1.log, r2.log, Registered(ops1, true), Value(s.value));
    } else if s.Rejected? {
      NotifiesUnique(r1.log, r2.log, Registered(ops1, false), Error(s.error));
    }
  }

  /** Exactly-once delivery: over a whole life, an observer is called as
      many times as it was registered with the kind matching the
      settlement, so once for a single registration, never for a
      registration of the other kind, and never while the IOU is pending. */
  lemma ExactlyOnce<T, E>(ops: seq<Op<T, E>>, id: ObserverId)
    ensures var r := Run(IOUHandler.Init(), ops);
      var s := FirstSettlement(ops);
      && (s.Pending? ==> IOUCore.CallsTo(r.log, id) == 0)
      && (s.Resolved? ==> IOUCore.CallsTo(r.log, id) == IOUCore.Occurrences(Registered(ops, true), id))
      && (s.Rejected? ==> IOUCore.CallsTo(r.log, id) == IOUCore.Occurrences(Registered(ops, false), id))
  {
    Lifecycle(ops);
    var r := Run(IOUHandler.Init(), ops);
    var s := FirstSettlement(ops);
    if s.Resolved? {
      IOUCore.CallsToNotified(r.log, Registered(ops, true), Value(s.value), id);
    } else if s.Rejected? {
      IOUCore.CallsToNotified(r.log, Registered(ops, false), Error(s.error), id);
    }
  }
}
