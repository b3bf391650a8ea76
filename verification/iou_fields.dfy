/** The IOU's stored fields as the class declares them: a separate status
    flag, an optional value and an optional error, all written by
    `updateState`. In the later version `value` and `error` are readable from
    outside. This module shows that the fields always represent the tagged
    state the rest of the model uses, so a reader of `value`/`error` sees
    exactly the settled payload, and the dispatch pass's `value!`/`error!`
    never finds the field empty. */
module IOUFields {
  import opened IOUTypes
  import IOUCore

  /** `IOUState`. */
  datatype Status = PendingStatus | RejectedStatus | ResolvedStatus

  datatype Fields<T, E> = Fields(status: Status, value: Option<T>, error: Option<E>)

  /** The fields of a newly created IOU. */
  function InitialFields<T, E>(): Fields<T, E> {
    Fields(PendingStatus, None, None)
  }

  /** `updateState(state, value, error)`: only a pending IOU changes; it
      takes the new status and stores the value if one is given, otherwise
      the error if one is given. */
  function UpdateFields<T, E>(f: Fields<T, E>, status: Status, value: Option<T>, error: Option<E>): (r: Fields<T, E>)
    ensures f.status != PendingStatus ==> r == f
    ensures f.status == PendingStatus ==> r.status == status
    ensures f.status == PendingStatus && value.Some? ==> r.value == value && r.error == f.error
    ensures f.status == PendingStatus && value.None? && error.Some? ==> r.error == error && r.value == f.value
  {
    if f.status == PendingStatus then
      if value.Some? then Fields(status, value, f.error)
      else if error.Some? then Fields(status, f.value, error)
      else Fields(status, f.value, f.error)
    else f
  }

  /** `resolve` calls `updateState(.Resolved, value, nil)`. */
  function ResolveFields<T, E>(f: Fields<T, E>, value: T): Fields<T, E> {
    UpdateFields(f, ResolvedStatus, Some(value), None)
  }

  /** `reject` calls `updateState(.Rejected, nil, error)`. */
  function RejectFields<T, E>(f: Fields<T, E>, error: E): Fields<T, E> {
    UpdateFields(f, RejectedStatus, None, Some(error))
  }

  /** The fields `f` hold the tagged state `s`: pending with neither payload,
      resolved with only the value, or rejected with only the error. */
  ghost predicate Represents<T, E>(f: Fields<T, E>, s: State<T, E>) {
    match s
    case Pending => f == Fields(PendingStatus, None, None)
    case Resolved(v) => f == Fields(ResolvedStatus, Some(v), None)
    case Rejected(e) => f == Fields(RejectedStatus, None, Some(e))
  }

  /** The readable `value` of the later version. */
  function ReadValue<T, E>(f: Fields<T, E>): Option<T> {
    f.value
  }

  /** The readable `error` of the later version. */
  function ReadError<T, E>(f: Fields<T, E>): Option<E> {
    f.error
  }

  /** Settling through the fields and settling the tagged state agree, from
      any represented state and in any order: the fields start out
      representing `Pending`, and `resolve`/`reject` on the fields represent
      the tagged `UpdateState`. Hence after the first `resolve(v)` the
      readable `value` is `v` and `error` stays empty, after the first
      `reject(e)` the readable `error` is `e` and `value` stays empty, and
      later settlements change neither. */
  lemma FieldsRepresentState<T, E>(f: Fields<T, E>, s: State<T, E>, value: T, error: E)
    requires Represents(f, s)
    ensures Represents(InitialFields<T, E>(), Pending)
    ensures Represents(ResolveFields(f, value), IOUCore.UpdateState(s, Value(value)))
    ensures Represents(RejectFields(f, error), IOUCore.UpdateState(s, Error(error)))
    ensures s.Pending? ==> ReadValue(ResolveFields(f, value)) == Some(value) && ReadError(ResolveFields(f, value)) == None
    ensures s.Pending? ==> ReadError(RejectFields(f, error)) == Some(error) && ReadValue(RejectFields(f, error)) == None
    ensures s.Resolved? ==> ReadValue(f) == Some(s.value) && ReadError(f) == None
    ensures s.Rejected? ==> ReadError(f) == Some(s.error) && ReadValue(f) == None
  {
  }
}
