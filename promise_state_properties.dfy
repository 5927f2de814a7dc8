/** Properties of the snapshot operations: absorption, the status
    predicates, equality, unwrapping, error containment, pass-through,
    identity stability and the positional combinators. */
module PromiseStateProperties {
  import opened Wrappers
  import opened PromiseState

  /** Exactly one status predicate holds, and "fulfilled" means "not pending". */
  lemma StatusExactlyOne<R, E>(s: State<R, E>)
    ensures s.IsPending() || s.IsResolved() || s.IsRejected()
    ensures !(s.IsPending() && s.IsResolved())
    ensures !(s.IsPending() && s.IsRejected())
    ensures !(s.IsResolved() && s.IsRejected())
    ensures s.IsFulfilled() <==> !s.IsPending()
  {
  }

  /** `Resolve` never double-wraps: resolving a resolved snapshot again
      changes nothing. */
  lemma ResolveIdempotent<R, E>(x: Resolvable<R, E>)
    ensures Resolve(Nested(Resolve(x))) == Resolve(x)
  {
  }

  /** `Reject` does not absorb: an error that is itself a snapshot is still
      wrapped, whereas `Resolve` hands such a snapshot back unchanged. */
  lemma RejectWrapsSnapshots<R, E>(s: State<R, E>)
    ensures Reject<R, State<R, E>>(s) == Rejected(s)
    ensures Resolve(Nested(s)) == s
  {
  }

  /** `Get` undoes the constructors: a resolved value comes back, a rejection
      is raised again, and a pending snapshot raises "not completed". */
  lemma GetInvertsConstructors<R, E>(v: R, e: E)
    ensures Resolve<R, E>(Plain(v)).Get() == Success(v)
    ensures Reject<R, E>(e).Get() == Failure(Thrown(e))
    ensures State<R, E>.Pending.Get() == Failure(NotCompleted("Progress not completed"))
  {
  }

  /** What `Get` reports determines the snapshot. */
  lemma GetDeterminesState<R, E>(s: State<R, E>)
    ensures s.Get().Success? ==> Resolve(Plain(s.Get().value)) == s
    ensures s.Get().Failure? && s.Get().error.Thrown? ==> Reject(s.Get().error.error) == s
    ensures s.Get().Failure? && s.Get().error.NotCompleted? ==> s == Pending
  {
  }

  /** Equality is reflexive, compares resolved payloads, and never equates a
      pending snapshot with a fulfilled one. */
  lemma EqualsProperties<R, E>(s: State<R, E>, x: R, y: R)
    ensures Equals(s, s)
    ensures Equals<R, E>(Resolved(x), Resolved(y)) <==> x == y
    ensures s.IsFulfilled() ==> !Equals(Pending, s) && !Equals(s, Pending)
  {
  }

  /** A handler that throws is contained: the fold yields the rejection. */
  lemma WhenContainsThrow<R, E>(s: State<R, E>, m: Mapper<R, R, E>, d: Resolvable<R, E>, x: E)
    requires Select(s, m, d) == Throws(x)
    ensures When(s, m, d) == Rejected(x)
  {
  }

  /** Identity stability: a fold whose result equals its source is the source. */
  lemma WhenStable<R, E>(s: State<R, E>, m: Mapper<R, R, E>, d: Resolvable<R, E>)
    requires Equals(s, Settle(Select(s, m, d)))
    ensures When(s, m, d) == s
  {
  }

  /** With the source itself as default, a status without a handler passes
      through unchanged. */
  lemma WhenPassesThrough<R, E>(s: State<R, E>, m: Mapper<R, R, E>)
    requires s.IsPending() ==> m.pending.None?
    requires s.IsResolved() ==> m.resolved.None?
    requires s.IsRejected() ==> m.rejected.None?
    ensures When(s, m, Nested(s)) == s
  {
  }

  /** The public fold yields the `value` field of the private fold. */
  lemma FoldIsWhenValue<R, E>(s: State<R, E>, m: Mapper<R, R, E>, d: Resolvable<R, E>)
    ensures Fold(s, m, d) == When(s, m, d).Value()
    ensures Fold(s, m, d).Some? <==> When(s, m, d).IsResolved()
  {
  }

  /** `Then` on a resolved snapshot resolves what the mapper yields. */
  lemma ThenOnResolved<R, E>(v: R, f: R -> Outcome<R, E>, g: Option<E -> Outcome<R, E>>)
    ensures Then(Resolved(v), Some(f), g) == Settle(f(v))
    ensures f(v).Throws? ==> Then(Resolved(v), Some(f), g) == Rejected(f(v).thrown)
  {
  }

  /** `Then` on a rejected snapshot with an error mapper resolves what that
      mapper yields; without one the rejection passes through. */
  lemma ThenOnRejected<R, E>(e: E, f: Option<R -> Outcome<R, E>>, g: E -> Outcome<R, E>)
    ensures Then(Rejected(e), f, Some(g)) == Settle(g(e))
    ensures Then(Rejected(e), f, None) == Rejected(e)
  {
  }

  /** `Then` on a pending snapshot is a no-op whatever the mappers. */
  lemma ThenOnPending<R, E>(f: Option<R -> Outcome<R, E>>, g: Option<E -> Outcome<R, E>>)
    ensures Then(Pending, f, g) == Pending
  {
  }

  /** Mapping with the identity gives back the same snapshot. */
  lemma ThenIdentity<R, E>(s: State<R, E>)
    ensures Then(s, Some((x: R) => Returns(Plain(x))), None) == s
  {
  }

  /** `Catch` maps only a rejection. */
  lemma CatchOnlyRejected<R, E>(s: State<R, E>, g: Option<E -> Outcome<R, E>>)
    ensures !s.IsRejected() ==> Catch(s, g) == s
    ensures s.IsRejected() && g.Some? ==> Catch(s, g) == Settle(g.value(s.error))
    ensures g.None? ==> Catch(s, g) == s
  {
  }

  /** `IfPending` runs its supplier only on a pending snapshot, and without
      a supplier changes nothing. */
  lemma IfPendingOnlyPending<R, E>(s: State<R, E>, h: () -> Outcome<R, E>)
    ensures s.IsFulfilled() ==> IfPending(s, Some(h)) == s
    ensures s.IsPending() ==> IfPending(s, Some(h)) == Settle(h())
    ensures IfPending(s, None) == s
  {
  }

  /** The adapted supplier ignores its argument and yields what the
      supplier yields. */
  lemma IgnoringArgumentIgnores<X, T, E>(supplier: Option<() -> Outcome<T, E>>, x: X)
    requires supplier.Some?
    ensures IgnoringArgument<X, T, E>(supplier).Some?
    ensures IgnoringArgument<X, T, E>(supplier).value(x) == supplier.value()
  {
  }

  /** `Finally` without a supplier changes nothing; with one, the supplier's
      result replaces a fulfilled snapshot; a pending one passes through. */
  lemma FinallyReplaces<R, E>(s: State<R, E>, h: () -> Outcome<R, E>)
    ensures Finally(s, None) == s
    ensures s.IsFulfilled() ==> Finally(s, Some(h)) == Settle(h())
    ensures s.IsPending() ==> Finally(s, Some(h)) == Pending
  {
  }

  /** The first rejected snapshot by position wins `All`, whatever precedes
      or follows it. */
  lemma AllFirstRejectedWins<R, E>(ts: seq<State<R, E>>, i: nat)
    requires i < |ts| && ts[i].IsRejected()
    requires forall j :: 0 <= j < i ==> !ts[j].IsRejected()
    ensures All(ts) == Rejected(ts[i].error)
  {
  }

  /** Without a rejection, one pending snapshot makes `All` pending. */
  lemma AllPendingWithoutRejection<R, E>(ts: seq<State<R, E>>, i: nat)
    requires i < |ts| && ts[i].IsPending()
    requires forall j :: 0 <= j < |ts| ==> !ts[j].IsRejected()
    ensures All(ts) == Pending
  {
  }

  /** `All` of resolved snapshots resolves to their values, in order; with
      no snapshot at all it resolves to the empty sequence. */
  lemma AllOfResolved<R, E>(vs: seq<R>)
    ensures All(seq(|vs|, i requires 0 <= i < |vs| => State<R, E>.Resolved(vs[i]))) == Resolved(vs)
    ensures All<R, E>([]) == Resolved([])
  {
    var ts := seq(|vs|, i requires 0 <= i < |vs| => State<R, E>.Resolved(vs[i]));
    assert forall i :: 0 <= i < |ts| ==> ts[i].IsResolved();
    var r := All(ts);
    assert r.IsResolved();
    assert forall i :: 0 <= i < |vs| ==> r.value[i] == vs[i];
    assert r.value == vs;
    assert r == Resolved(vs);
  }

  /** The first fulfilled snapshot by position wins `Race`. */
  lemma RaceFirstFulfilled<R, E>(ts: seq<State<R, E>>, i: nat)
    requires i < |ts| && ts[i].IsFulfilled()
    requires forall j :: 0 <= j < i ==> ts[j].IsPending()
    ensures Race(ts) == Some(ts[i])
  {
  }

  /** Without a fulfilled snapshot `Race` yields the first one. */
  lemma RaceAllPending<R, E>(ts: seq<State<R, E>>)
    requires |ts| > 0
    requires forall j :: 0 <= j < |ts| ==> ts[j].IsPending()
    ensures Race(ts) == Some(ts[0])
  {
  }

  /** `All` of one snapshot carries that snapshot's outcome. */
  lemma AllOfOne<R, E>(s: State<R, E>)
    ensures s.IsPending() ==> All([s]) == Pending
    ensures s.IsRejected() ==> All([s]) == Rejected(s.error)
    ensures s.IsResolved() ==> All([s]) == Resolved([s.value])
  {
    if s.IsResolved() {
      AllOfResolved<R, E>([s.value]);
      assert [s] == seq(1, i requires 0 <= i < 1 => State<R, E>.Resolved([s.value][i]));
    }
  }

  /** `Race` of one snapshot is that snapshot. */
  lemma RaceOfOne<R, E>(s: State<R, E>)
    ensures Race([s]) == Some(s)
  {
  }

  /** The handlers of the mapping examples: a suffix on either outcome. */
  function SuccessSuffix(x: string): Outcome<string, string> { Returns(Plain(x + "-success")) }

  function FailSuffix(e: string): Outcome<string, string> { Returns(Plain(e + "-fail")) }

  /** Mapping a resolved and a rejected snapshot with string handlers. */
  lemma ThenMapsExamples()
    ensures Then(Resolved("foo"), Some(SuccessSuffix), Some(FailSuffix)).Value() == Some("foo-success")
    ensures Then(Rejected("bad stuff"), Some(SuccessSuffix), Some(FailSuffix)).Value() == Some("bad stuff-fail")
  {
    assert "foo" + "-success" == "foo-success";
    assert "bad stuff" + "-fail" == "bad stuff-fail";
  }

  /** `IfPending` maps the pending snapshot and keeps a resolved one. */
  lemma IfPendingExamples()
    ensures IfPending(State<string, string>.Pending, Some(() => Returns(Plain("it is pending")))).Value() == Some("it is pending")
    ensures IfPending(State<string, string>.Resolved("foo"), Some(() => Returns(Plain("it is pending")))).Value() == Some("foo")
  {
  }

  /** Joining three resolved snapshots, one pending among resolved ones, and
      one rejected among resolved ones. */
  lemma AllExamples()
    ensures All([State<string, string>.Resolved("a"), Resolved("b"), Resolved("c")]).Value() == Some(["a", "b", "c"])
    ensures All([State<string, string>.Resolved("a"), Resolved("b"), Pending]) == Pending
    ensures All([State<string, string>.Resolved("one"), Resolved("two"), Rejected("bad stuff")]) == Rejected("bad stuff")
  {
    var vs := ["a", "b", "c"];
    AllOfResolved<string, string>(vs);
    assert [State<string, string>.Resolved("a"), Resolved("b"), Resolved("c")]
      == seq(|vs|, i requires 0 <= i < |vs| => State<string, string>.Resolved(vs[i]));
  }

  /** The first fulfilled snapshot by position wins, not the first one. */
  lemma RaceExample()
    ensures Race([State<int, string>.Pending, Resolved(42), Resolved(7)]) == Some(Resolved(42))
  {
  }
}
