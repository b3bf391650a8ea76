# IOU: a single-assignment deferred value, in Dafny

`IOU<T>` holds at most one outcome: a value (`resolve`) or an error
(`reject`). Its producer holds an `IOUHandler<T>`, the only handle that can
settle it. Consumers register observers with `onValue` and `onError`. An
observer is either called inline or posted to a dispatch queue, and each
registered observer hears about the settlement once. `transform` derives a
new IOU by mapping the value or the error. A mapping that throws rejects the
derived IOU.

The repository holds this component twice. `IOU/IOU.swift` is the version
whose handler can post its settlement to a queue. `IOU.swift` is the version
whose handler always settles at once and whose `value`/`error` are readable.
Otherwise the two IOU classes are line for line the same. The model defines
the shared machine once. The handler takes an optional queue, and the
synchronous handler is the no-queue case (`IOUHandler.SyncHandlerForwards`).

Modelling choices:

- Every operation is a pure function from an `IOU` value to a `Step`: the
  new IOU plus a log of the invocations it made. A log entry is
  `Call(observer, payload, Inline | Posted(queue))`. The serial queue around
  `updateState` is modelled by treating each operation as one atomic step.
- Observer closures and dispatch queues are opaque identifiers. A registered
  `(observer, queue?)` pair is an `Observer(id, queue)`.
- A throwing closure returns a `Result`: `Success(x)` or `Failure(thrown)`.
  Errors are an opaque type parameter `E`.
- `transform`'s two observer closures are named by identifiers that the
  caller supplies. Their body is `IOUTransform.Deliver`. A call made inline
  while `transform` registers them runs before `transform` returns
  (`IOUTransform.RunInline`). A posted call runs later, and so does a call
  made when the source settles. Either way the caller applies `Deliver` to
  the derived IOU.
- The class stores a status flag plus optional `value` and `error` fields.
  The main model uses one tagged state instead: `Pending`,
  `Resolved(value)` or `Rejected(error)`. `IOUFields` models the stored
  fields and `updateState` exactly as written. It proves that the fields
  always represent the tagged state.

Calling `callAndRemoveObservers` on a pending IOU empties both lists
without calling anyone. That is modelled as written, although no public
operation reaches it.

Modules: `IOUTypes` (data), `IOUCore` (settlement, registration, dispatch),
`IOUHandler`, `IOUTransform`, `IOULifecycle` (whole runs against a
reference description), `IOUFields` (the stored fields).

## Model

| member | source | states |
|---|---|---|
| `IOUCore.UpdateState` | IOU/IOU.swift:111-123 | the state changes only from Pending, to the settlement given; a settled state is kept as it is |
| `IOUCore.Notify` | IOU/IOU.swift:127-138 | the dispatch loop makes one call per observer in registration order, all with the same payload; an observer without a queue is called inline, one with a queue is posted to that queue |
| `IOUCore.CallAndRemoveObservers` | IOU/IOU.swift:125-157 | a resolved IOU notifies exactly its value observers with the stored value, a rejected one exactly its error observers with the stored error, a pending one nobody; afterwards both lists are empty and the state is unchanged |
| `IOUCore.Resolve` | IOU/IOU.swift:70-73 | on a pending IOU the state becomes Resolved(v) and every value observer is notified in order with v; on a settled IOU the state is unchanged and, once drained, nobody is called; both lists end empty |
| `IOUCore.Reject` | IOU/IOU.swift:48-51 | on a pending IOU the state becomes Rejected(e) and every error observer is notified in order with e; on a settled IOU the state is unchanged and, once drained, nobody is called; both lists end empty |
| `IOUCore.OnValue` | IOU/IOU.swift:59-68 | while pending, the observer is appended at the end of the value list and nothing is called; once settled, a dispatch pass runs at once over the list matching the state, and the lists end empty; the state never changes |
| `IOUCore.OnError` | IOU/IOU.swift:37-46 | while pending, the observer is appended at the end of the error list and nothing is called; once settled, a dispatch pass runs at once over the list matching the state, and the lists end empty; the state never changes |
| `IOUCore.FirstSettlementWins` | IOU/IOU.swift:111-123 | after any settlement, a second resolve or reject leaves the IOU unchanged and calls nobody; from Pending the first settlement decides the state |
| `IOUCore.LateRegistration` | IOU/IOU.swift:59-68 | on a settled IOU, onValue calls its observer exactly once, at once, with the stored value when resolved and drops it when rejected; onError is the mirror image; the IOU is unchanged |
| `IOUHandler.Init` | IOU.swift:163-168 | a freshly constructed handler's IOU is Pending with no observers |
| `IOUHandler.SettleOn` | IOU/IOU.swift:173-201 | without a queue the handler settles at once, as updateState would, and leaves the IOU drained; with a queue it posts that settlement to the queue and changes nothing yet |
| `IOUHandler.RunDeferred` | IOU/IOU.swift:192-194 | a posted settlement, when it runs, settles the IOU as it then is, as updateState would |
| `IOUHandler.SyncHandlerForwards` | IOU.swift:170-176 | the synchronous handler's resolve and reject are the IOU's own resolve and reject, which is the queueless case of the queue-taking handler |
| `IOUHandler.DeferredSettlement` | IOU/IOU.swift:190-201 | a posted settlement run later has the effect of the immediate one; if another settlement got in first, the posted one changes nothing and calls nobody |
| `IOUTransform.Deliver` | IOU/IOU.swift:88-104 | the transform's observer settles a pending derived IOU by the propagation rule: Resolved(valueTransform(v)) or rejected with what it threw; for an error, rejected with errorTransform(e) or with what it threw; a settled derived IOU is not changed |
| `IOUTransform.Transform` | IOU/IOU.swift:85-107 | on a pending source, transform appends one error observer and one value observer on the given queue, calls nothing, and returns a pending derived IOU; the source's state is never changed |
| `IOUTransform.TransformSettledSource` | IOU/IOU.swift:85-107 | on a settled source exactly one transform observer is called, the one matching the state, and the source is left unchanged; without a queue the returned derived IOU is already settled by the propagation rule; with a queue it is returned pending and settled by that rule when the posted call runs |
| `IOUTransform.TransformThenSettle` | IOU/IOU.swift:85-107 | when a pending source gets further registrations after the transform and is then settled, the dispatch calls the transform's observer of the matching kind at the place it was registered, right after the observers registered before the transform, with the settlement's payload; each transform id is called as often as it occurs in the notified list, so once when fresh; that call settles the derived IOU by the propagation rule |
| `IOUTransform.TransformThenRegisterThenResolve` | IOU/IOU.swift:97-104 | with another value observer registered on the source between transform and resolve, the transform's value observer is still called with the resolved value right after the observers registered before the transform, and its call settles the derived IOU by the propagation rule |
| `IOUTransform.ErrorsPassThrough` | IOU/IOU.swift:81-83 | on any queue, the value-only overload passes the source's error to the derived IOU unchanged: an already rejected source gives a derived IOU rejected with that error, at once without a queue or when the posted call runs; a pending source that is then rejected ends its dispatch with the transform's error observer, whose call rejects the derived IOU with the same error |
| `IOUTransform.DoublingExample` | IOU/IOU.swift:77-83 | through the value-only overload without a queue, a source resolved with 5 and a doubling mapping gives a derived IOU resolved with 10, and a mapping that throws gives one rejected with the thrown error |
| `IOULifecycle.Lifecycle` | IOU.swift:38-158 | from a fresh IOU, after any sequence of settlements and registrations, the state is the first settlement. While pending, the lists hold every registration in order and nobody has been called. Once settled, the lists are empty, and each observer registered with the matching kind has been called once, in registration order, with the settled payload |
| `IOULifecycle.RegistrationTimingInvisible` | IOU.swift:38-69 | two runs with the same first settlement and the same registrations of each kind, in whatever order relative to the settlement, end with the same IOU and the same calls |
| `IOULifecycle.ExactlyOnce` | IOU.swift:126-158 | over a whole run, an observer is called as often as it was registered with the kind matching the settlement: once for one registration, never for the other kind, never while pending |
| `IOUFields.UpdateFields` | IOU.swift:112-124 | only a pending IOU's fields change; they take the new status and store the value if one is given, otherwise the error if one is given, leaving the other field as it was |
| `IOUFields.FieldsRepresentState` | IOU.swift:21-24 | the stored fields start out representing Pending, and resolve/reject on them represent the tagged settlement. After the first resolve(v) the readable value is v and error is empty; after the first reject(e) the readable error is e and value is empty; a settled IOU's fields hold exactly its payload |

## Left out

- The serial queue (`dispatch_sync`) and `dispatch_async` are not modelled as execution. Every operation is one atomic step. A posted observer call is a log entry, and a posted handler settlement is an `IOUHandler.Effect`.
- Races are not modelled. The dispatch pass runs outside the lock, and registration never takes it, so a registration racing a settlement is a concurrency question. The model's steps are sequential.
- Observer and transform closure bodies are opaque apart from the transform's own two closures. Re-entrancy, where an observer calls back into the IOU being dispatched, is not modelled.
- The fluent `return self` of `onValue`/`onError` is left out. The overloads without a queue argument are the `None` queue case and have no separate members.
- IOUTransform.Transform: the contract names the derived IOU's state but not the calls its own observers receive. A freshly made derived IOU has no observers when `transform` returns it.
- Reference identity, ARC lifetime and `Foundation` error types are left out. Errors are an opaque type parameter.
