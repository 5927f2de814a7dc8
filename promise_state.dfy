/** An immutable snapshot of the settlement state of a promise: pending,
    resolved with a value, or rejected with an error, together with the
    operations that observe, compare, transform and combine snapshots. */
module PromiseState {
  import opened Wrappers

  /** The three statuses a snapshot can report. */
  datatype Status = StatusResolved | StatusRejected | StatusPending

  /** Message of the failure raised by `Get` on a pending snapshot. */
  const NotCompletedMessage: string := "Progress not completed"

  /** What `Get` raises: the carried error of a rejected snapshot, or the
      "not completed" failure of a pending one. */
  datatype GetFailure<E> = Thrown(error: E) | NotCompleted(message: string)

  /** A snapshot. `R` is the payload type of a resolved snapshot, `E` the
      type of the error of a rejected one (any value). */
  datatype State<R, E> = Pending | Resolved(value: R) | Rejected(error: E)
  {
    function CurrentStatus(): (st: Status)
      ensures st == StatusPending <==> Pending?
      ensures st == StatusResolved <==> Resolved?
      ensures st == StatusRejected <==> Rejected?
    {
      match this
      case Pending => StatusPending
      case Resolved(_) => StatusResolved
      case Rejected(_) => StatusRejected
    }

    predicate IsPending()
      ensures IsPending() <==> Pending?
    {
      CurrentStatus() == StatusPending
    }

    predicate IsResolved()
      ensures IsResolved() <==> Resolved?
    {
      CurrentStatus() == StatusResolved
    }

    predicate IsRejected()
      ensures IsRejected() <==> Rejected?
    {
      CurrentStatus() == StatusRejected
    }

    predicate IsFulfilled()
      ensures IsFulfilled() <==> !Pending?
    {
      IsRejected() || IsResolved()
    }

    /** The `value` field: present only on a resolved snapshot. */
    function Value(): (v: Option<R>)
      ensures v.Some? <==> Resolved?
      ensures v.Some? ==> this == Resolved(v.value)
    {
      if Resolved? then Some(value) else None
    }

    /** The `error` field: present only on a rejected snapshot. */
    function Error(): (e: Option<E>)
      ensures e.Some? <==> Rejected?
      ensures e.Some? ==> this == Rejected(e.value)
    {
      if Rejected? then Some(error) else None
    }

    /** Synchronous unwrap: the value, or the carried error raised, or the
        "not completed" failure while pending. */
    function Get(): (r: Result<R, GetFailure<E>>)
      ensures r.Success? <==> IsResolved()
      ensures r.Success? ==> Value() == Some(r.value)
      ensures IsRejected() ==> r == Failure(Thrown(error))
      ensures IsPending() ==> r == Failure(NotCompleted(NotCompletedMessage))
    {
      match this
      case Pending => Failure(NotCompleted(NotCompletedMessage))
      case Resolved(v) => Success(v)
      case Rejected(e) => Failure(Thrown(e))
    }
  }

  /** What may be handed to `Resolve`: a plain value, or a value that is
      already a snapshot. The tag stands for the source's runtime test of
      whether the value is a snapshot. */
  datatype Resolvable<T, E> = Plain(plain: T) | Nested(state: State<T, E>)

  /** What a handler does when invoked: it returns a resolvable value, or it
      throws. */
  datatype Outcome<T, E> = Returns(result: Resolvable<T, E>) | Throws(thrown: E)

  /** A partial set of per-status handlers; an absent handler is `None`. */
  datatype Mapper<!R, T, !E> = Mapper(
    pending: Option<() -> Outcome<T, E>>,
    resolved: Option<R -> Outcome<T, E>>,
    rejected: Option<E -> Outcome<T, E>>)

  /** The absorbing constructor: a snapshot comes back unchanged, a plain
      value is wrapped as resolved. */
  function Resolve<R, E>(x: Resolvable<R, E>): (s: State<R, E>)
    ensures x.Nested? ==> s == x.state
    ensures x.Plain? ==> s.IsResolved() && s.Value() == Some(x.plain)
  {
    match x
    case Plain(v) => Resolved(v)
    case Nested(t) => t
  }

  /** The rejecting constructor: always wraps, whatever the error is. */
  function Reject<R, E>(e: E): (s: State<R, E>)
    ensures s.IsRejected() && s.Error() == Some(e)
  {
    Rejected(e)
  }

  /** Equality: same status, same `value` field and same `error` field. */
  function Equals<R(==), E(==)>(s: State<R, E>, t: State<R, E>): (b: bool)
    ensures b <==> s == t
  {
    s.CurrentStatus() == t.CurrentStatus() && s.Value() == t.Value() && s.Error() == t.Error()
  }

  /** The handler of `m` for the status of `s`, invoked on the payload of
      `s`; when that handler is absent, the default value is returned. */
  function Select<R, T, E>(s: State<R, E>, m: Mapper<R, T, E>, defaultValue: Resolvable<T, E>): (o: Outcome<T, E>)
    ensures s.Pending? && m.pending.Some? ==> o == m.pending.value()
    ensures s.Resolved? && m.resolved.Some? ==> o == m.resolved.value(s.value)
    ensures s.Rejected? && m.rejected.Some? ==> o == m.rejected.value(s.error)
    ensures (s.Pending? && m.pending.None?) || (s.Resolved? && m.resolved.None?) || (s.Rejected? && m.rejected.None?)
      ==> o == Returns(defaultValue)
  {
    match s
    case Pending => if m.pending.Some? then m.pending.value() else Returns(defaultValue)
    case Resolved(v) => if m.resolved.Some? then m.resolved.value(v) else Returns(defaultValue)
    case Rejected(e) => if m.rejected.Some? then m.rejected.value(e) else Returns(defaultValue)
  }

  /** A handler's outcome as a snapshot: a returned value passes through
      `Resolve`, a thrown error becomes a rejection. */
  function Settle<T, E>(o: Outcome<T, E>): (s: State<T, E>)
    ensures o.Throws? ==> s == Rejected(o.thrown)
    ensures o.Returns? && o.result.Nested? ==> s == o.result.state
    ensures o.Returns? && o.result.Plain? ==> s == Resolved(o.result.plain)
  {
    match o
    case Returns(x) => Resolve(x)
    case Throws(e) => Reject(e)
  }

  /** The private fold: settle the selected handler's outcome, and hand back
      the source itself when the result equals it. Stated where source and
      result share the payload type. */
  function When<R(==), E(==)>(s: State<R, E>, m: Mapper<R, R, E>, defaultValue: Resolvable<R, E>): (r: State<R, E>)
    ensures r == Settle(Select(s, m, defaultValue))
  {
    var result := Settle(Select(s, m, defaultValue));
    if Equals(s, result) then s else result
  }

  /** The public fold: the `value` field of the folded result, absent unless
      that result is resolved. */
  function Fold<R, T, E>(s: State<R, E>, m: Mapper<R, T, E>, defaultValue: Resolvable<T, E>): (r: Option<T>)
    ensures r.Some? <==> Settle(Select(s, m, defaultValue)).IsResolved()
    ensures r.Some? ==> Settle(Select(s, m, defaultValue)) == Resolved(r.value)
  {
    Settle(Select(s, m, defaultValue)).Value()
  }

  /** Runs `supplier` only on a pending snapshot; an absent supplier or a
      fulfilled snapshot passes through. */
  function IfPending<R(==), E(==)>(s: State<R, E>, supplier: Option<() -> Outcome<R, E>>): (r: State<R, E>)
    ensures s.Pending? && supplier.Some? ==> r == Settle(supplier.value())
    ensures s.IsFulfilled() || supplier.None? ==> r == s
  {
    When(s, Mapper(supplier, None, None), Nested(s))
  }

  /** Maps a resolved value with `mapper` and a rejection with `errorMapper`;
      a status whose handler is absent passes through. */
  function Then<R(==), E(==)>(s: State<R, E>, mapper: Option<R -> Outcome<R, E>>,
                              errorMapper: Option<E -> Outcome<R, E>>): (r: State<R, E>)
    ensures s.Pending? ==> r == s
    ensures s.Resolved? && mapper.Some? ==> r == Settle(mapper.value(s.value))
    ensures s.Resolved? && mapper.None? ==> r == s
    ensures s.Rejected? && errorMapper.Some? ==> r == Settle(errorMapper.value(s.error))
    ensures s.Rejected? && errorMapper.None? ==> r == s
  {
    When(s, Mapper(None, mapper, errorMapper), Nested(s))
  }

  /** Maps a rejection with `mapper`; any other snapshot passes through. */
  function Catch<R(==), E(==)>(s: State<R, E>, mapper: Option<E -> Outcome<R, E>>): (r: State<R, E>)
    ensures s.Rejected? && mapper.Some? ==> r == Settle(mapper.value(s.error))
    ensures !s.Rejected? || mapper.None? ==> r == s
  {
    When(s, Mapper(None, None, mapper), Nested(s))
  }

  /** A zero-argument supplier used where a one-argument handler is
      expected: the argument is ignored. */
  function IgnoringArgument<X, T, E>(supplier: Option<() -> Outcome<T, E>>): (h: Option<X -> Outcome<T, E>>)
    ensures h.Some? <==> supplier.Some?
  {
    match supplier
    case None => None
    case Some(f) => Some((_: X) => f())
  }

  /** `Then` with the same supplier for both outcomes. */
  function Finally<R(==), E(==)>(s: State<R, E>, supplier: Option<() -> Outcome<R, E>>): (r: State<R, E>)
    ensures s.IsFulfilled() && supplier.Some? ==> r == Settle(supplier.value())
    ensures s.Pending? || supplier.None? ==> r == s
  {
    Then(s, IgnoringArgument(supplier), IgnoringArgument(supplier))
  }

  /** The index of the first element satisfying `p`, as `find` scans. */
  function FindIndex<X>(xs: seq<X>, p: X -> bool): (r: Option<nat>)
    ensures r.Some? ==> r.value < |xs| && p(xs[r.value]) && forall j :: 0 <= j < r.value ==> !p(xs[j])
    ensures r.None? ==> forall j :: 0 <= j < |xs| ==> !p(xs[j])
  {
    if |xs| == 0 then None
    else if p(xs[0]) then Some(0)
    else match FindIndex(xs[1..], p)
      case Some(i) => Some(i + 1)
      case None => None
  }

  /** The values of snapshots that are all resolved, in order. */
  function Values<R, E>(ts: seq<State<R, E>>): (vs: seq<R>)
    requires forall i :: 0 <= i < |ts| ==> ts[i].Resolved?
    ensures |vs| == |ts|
    ensures forall i :: 0 <= i < |ts| ==> ts[i] == Resolved(vs[i])
  {
    if |ts| == 0 then [] else [ts[0].value] + Values(ts[1..])
  }

  /** Joins snapshots: the first rejected one by position; otherwise pending
      if any is pending; otherwise all values, in order. */
  function All<R, E>(ts: seq<State<R, E>>): (r: State<seq<R>, E>)
    ensures r.IsRejected() <==> exists i :: 0 <= i < |ts| && ts[i].IsRejected()
    ensures r.IsPending() <==>
      (forall i :: 0 <= i < |ts| ==> !ts[i].IsRejected()) && exists i :: 0 <= i < |ts| && ts[i].IsPending()
    ensures r.IsResolved() ==> |r.value| == |ts| && forall i :: 0 <= i < |ts| ==> ts[i] == Resolved(r.value[i])
  {
    match FindIndex(ts, (t: State<R, E>) => t.IsRejected())
    case Some(i) => Rejected(ts[i].error)
    case None =>
      match FindIndex(ts, (t: State<R, E>) => t.IsPending())
      case Some(_) => Pending
      case None => Resolve(Plain(Values(ts)))
  }

  /** The first fulfilled snapshot by position, else the first snapshot;
      absent when there are no snapshots at all. */
  function Race<R, E>(ts: seq<State<R, E>>): (r: Option<State<R, E>>)
    ensures r.None? <==> |ts| == 0
    ensures r.Some? ==> r.value in ts
    ensures r.Some? && r.value.IsPending() ==> forall i :: 0 <= i < |ts| ==> ts[i].IsPending()
  {
    match FindIndex(ts, (t: State<R, E>) => t.IsFulfilled())
    case Some(i) => Some(ts[i])
    case None => if |ts| == 0 then None else Some(ts[0])
  }
}
