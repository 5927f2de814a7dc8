# promise-state in Dafny

A model of `PromiseState`, an immutable snapshot of a promise's settlement
state, written in TypeScript in `src/promise-state.ts`. A snapshot is
`Pending` (a shared constant), `Resolved(value)` or `Rejected(error)`. The
model is pure, as the source is: a Dafny datatype `State<R, E>` with its
status predicates, its `value`/`error` fields as options and `Get`, the
constructors `Resolve` (absorbing) and `Reject` (always wrapping), `Equals`,
the private fold `when` with the four chaining operations built on it
(`Then`, `Catch`, `IfPending`, `Finally`), the public `Fold`, and the
positional combinators `All` and `Race`.

Files:

- `wrappers.dfy`: `Option` (for `undefined`) and `Result` (for a call that throws).
- `promise_state.dfy`: module `PromiseState`, the data model and every operation.
- `promise_state_properties.dfy`: module `PromiseStateProperties`, lemmas for
  the properties the source and its tests promise.

How the model reads the source:

- A handler cannot throw in Dafny. So a handler is an `Option` of a total
  function, and it returns an `Outcome`. That outcome is `Returns(Plain(v))`,
  `Returns(Nested(state))` or `Throws(e)`. The `Plain`/`Nested` tag of
  `Resolvable` stands for the `instanceof PromiseState` test in `resolve`.
- The private `when` (lines 77-92) has three parts:
  - `Select` picks the handler for the current status, or the default value.
  - `Settle` is the `try`/`catch` around `resolve`: a thrown error becomes `Rejected(e)`.
  - `When` adds the final step: if the result `equals` the source, the source is returned.
- `When` needs the source and the result to share one payload type. So do
  `Then`, `Catch`, `IfPending` and `Finally`, which pass the source as
  `when`'s default. That shared type stands for TypeScript's union `R|T`.
  `Fold` only returns a payload, so it keeps a different result type `T`.
- `Finally(s, Some(h))` is `Then(s, h, h)`, with `h` ignoring its argument.
  The supplier's result therefore replaces a fulfilled snapshot, unlike
  `Promise.prototype.finally`, which ignores its callback's result.
- Every handler parameter is an `Option`, because each handler type in the
  source is an optional member of `Mapper` and so admits `undefined`.
- `Race` of no snapshots is `undefined` in the source. Here it is `None`.

## Model

| member | source | states |
|---|---|---|
| PromiseState.State.CurrentStatus | src/promise-state.ts:53-59 | the status is pending, resolved or rejected exactly when the snapshot is that variant |
| PromiseState.State.IsPending | src/promise-state.ts:61-63 | holds exactly on the pending snapshot |
| PromiseState.State.IsResolved | src/promise-state.ts:65-67 | holds exactly on a resolved snapshot |
| PromiseState.State.IsRejected | src/promise-state.ts:69-71 | holds exactly on a rejected snapshot |
| PromiseState.State.IsFulfilled | src/promise-state.ts:73-75 | holds exactly when the snapshot is not pending |
| PromiseState.State.Value | src/promise-state.ts:54 | the `value` field is present exactly on a resolved snapshot, and is its value |
| PromiseState.State.Error | src/promise-state.ts:55 | the `error` field is present exactly on a rejected snapshot, and is its error |
| PromiseState.State.Get | src/promise-state.ts:117-154 | succeeds exactly on a resolved snapshot, with its value; raises the carried error on a rejected one and "Progress not completed" on pending |
| PromiseState.Resolve | src/promise-state.ts:157-162 | a value that is already a snapshot comes back unchanged; a plain value becomes a resolved snapshot carrying it |
| PromiseState.Reject | src/promise-state.ts:163 | always a rejected snapshot whose error is the argument |
| PromiseState.Equals | src/promise-state.ts:121-128 | comparing status, `value` field and `error` field is the same as equality of snapshots |
| PromiseState.Select | src/promise-state.ts:78-86 | the handler for the current status is invoked on that status's payload (nothing for pending); when it is absent the outcome is returning the default value |
| PromiseState.Settle | src/promise-state.ts:84-90 | a thrown handler error becomes `Rejected` of it; a returned snapshot is kept; a returned plain value is resolved |
| PromiseState.When | src/promise-state.ts:77-92 | the fold's result is the settled outcome of the selected handler (or default): handing back the source when equal never changes the value |
| PromiseState.Fold | src/promise-state.ts:94-96 | a payload is present exactly when the folded result is resolved, and it is that result's value, for any result type |
| PromiseState.IfPending | src/promise-state.ts:98-100 | on pending with a supplier, the settled outcome of the supplier; a fulfilled snapshot or an absent supplier passes through |
| PromiseState.Then | src/promise-state.ts:102-107 | pending passes through; a resolved value is settled through `mapper` and a rejection through `errorMapper`; a status whose mapper is absent passes through |
| PromiseState.Catch | src/promise-state.ts:109-111 | a rejection is settled through the mapper; a non-rejected snapshot or an absent mapper passes through |
| PromiseState.IgnoringArgument | src/promise-state.ts:113-115 | the adapted handler is present exactly when the supplier is |
| PromiseState.Finally | src/promise-state.ts:113-115 | a fulfilled snapshot is replaced by the supplier's settled outcome; pending or an absent supplier passes through |
| PromiseState.FindIndex | src/promise-state.ts:29-35 | the index found satisfies the test and no earlier element does; none found means no element does |
| PromiseState.Values | src/promise-state.ts:32 | one value per snapshot, in order, each the value of that resolved snapshot |
| PromiseState.All | src/promise-state.ts:29-32 | rejected iff some input is rejected; pending iff none is rejected and some is pending; otherwise resolved to the inputs' values in order |
| PromiseState.Race | src/promise-state.ts:34-35 | absent iff there are no inputs; always one of the inputs; pending only when every input is pending |
| PromiseStateProperties.StatusExactlyOne | src/promise-state.ts:61-75 | exactly one of pending, resolved, rejected holds; fulfilled iff not pending |
| PromiseStateProperties.ResolveIdempotent | src/promise-state.ts:157-162 | resolving a resolved snapshot again gives the same snapshot |
| PromiseStateProperties.RejectWrapsSnapshots | src/promise-state.ts:157-163 | `Reject` wraps even a snapshot, while `Resolve` hands it back |
| PromiseStateProperties.GetInvertsConstructors | src/promise-state.ts:131-163 | `Get` returns the resolved value, raises the rejected error, and fails with "Progress not completed" on pending |
| PromiseStateProperties.GetDeterminesState | src/promise-state.ts:117-154 | rebuilding a snapshot from what `Get` reports gives the original snapshot |
| PromiseStateProperties.EqualsProperties | src/promise-state.ts:121-128 | equality is reflexive; resolved snapshots are equal iff their values are; pending never equals a fulfilled snapshot |
| PromiseStateProperties.WhenContainsThrow | src/promise-state.ts:84-90 | a handler that throws `x` makes the fold `Rejected(x)` |
| PromiseStateProperties.WhenStable | src/promise-state.ts:91 | a fold whose computed result equals the source returns the source |
| PromiseStateProperties.WhenPassesThrough | src/promise-state.ts:77-92 | with the source as default, a status without a handler passes through unchanged |
| PromiseStateProperties.FoldIsWhenValue | src/promise-state.ts:94-96 | `Fold` is the `value` field of the private fold's result |
| PromiseStateProperties.ThenOnResolved | src/promise-state.ts:102-107 | on `Resolved(v)`, `Then(f, g)` is the settled `f(v)`, and `Rejected(x)` when `f` throws `x` |
| PromiseStateProperties.ThenOnRejected | src/promise-state.ts:102-107 | on `Rejected(e)`, `Then` with an error mapper `g` is the settled `g(e)`; without one it is `Rejected(e)` |
| PromiseStateProperties.ThenOnPending | src/promise-state.ts:102-107 | `Then` on pending is pending for any mappers |
| PromiseStateProperties.ThenIdentity | src/promise-state.test.ts:29-34 | mapping any snapshot with the identity gives the same snapshot |
| PromiseStateProperties.CatchOnlyRejected | src/promise-state.ts:109-111 | `Catch` leaves a non-rejected snapshot and a missing mapper alone, and maps a rejection with its mapper |
| PromiseStateProperties.IfPendingOnlyPending | src/promise-state.ts:98-100 | `IfPending` leaves a fulfilled snapshot alone, settles the supplier's outcome on pending, and without a supplier changes nothing |
| PromiseStateProperties.IgnoringArgumentIgnores | src/promise-state.ts:114 | the handler passed to `then` yields the supplier's outcome whatever argument it is given |
| PromiseStateProperties.FinallyReplaces | src/promise-state.ts:113-115 | no supplier changes nothing; a supplier's outcome replaces a fulfilled snapshot; pending passes through |
| PromiseStateProperties.AllFirstRejectedWins | src/promise-state.ts:29-30 | the first rejected input by position is the result, even after a pending input |
| PromiseStateProperties.AllPendingWithoutRejection | src/promise-state.ts:31 | with no rejected input, one pending input makes the result pending |
| PromiseStateProperties.AllOfResolved | src/promise-state.ts:32 | resolved inputs give `Resolved` of their values in input order; no inputs give `Resolved([])` |
| PromiseStateProperties.AllOfOne | src/promise-state.ts:29-32 | joining one snapshot carries its outcome, with a resolved value as a one-element sequence |
| PromiseStateProperties.RaceFirstFulfilled | src/promise-state.ts:34-35 | the first fulfilled input by position is the result |
| PromiseStateProperties.RaceAllPending | src/promise-state.ts:35 | when no input is fulfilled, the first input is the result |
| PromiseStateProperties.RaceOfOne | src/promise-state.ts:34-35 | racing one snapshot gives that snapshot |
| PromiseStateProperties.ThenMapsExamples | src/promise-state.test.ts:15-27 | "foo" maps to "foo-success" and the rejection "bad stuff" to "bad stuff-fail" |
| PromiseStateProperties.IfPendingExamples | src/promise-state.test.ts:41-51 | pending maps to "it is pending"; `Resolved("foo")` keeps "foo" |
| PromiseStateProperties.AllExamples | src/promise-state.test.ts:58-87 | a, b, c join to ["a", "b", "c"]; a pending input gives pending; a rejected input gives that rejection |
| PromiseStateProperties.RaceExample | src/promise-state.test.ts:90-100 | racing pending, 42 and a later value gives `Resolved(42)` |

## Left out

- `subscribe` (src/promise-state.ts:37-51). It registers callbacks on a live promise, so it depends on the event loop. Asynchronous I/O is not part of this model.
- The type-level machinery `PromiseValue`, `All` and `Race` (src/promise-state.ts:15-19). Heterogeneous tuples of snapshots are modelled as a `seq` of one payload type. So the race example sets 42 against another number, not against `'foo'`.
- Object identity.
  - The `this == progress` fast path of `equals` is not modelled.
  - Neither is the "same instance" reading of identity stability. Here "returns the source" means "is equal to the source".
  - `===` on payloads is Dafny equality. So JavaScript's `NaN !== NaN` and reference comparison of object payloads are not modelled.
- `equals` called with `null` or with a non-snapshot, and the `instanceof` test in `resolve`. Here `Equals` takes two snapshots. The `Plain`/`Nested` tag replaces the runtime test, so a `Plain` payload whose type is itself a snapshot type is wrapped, not absorbed.
- The `null` default parameter of `when` and `fold`. Every caller passes the default value explicitly.
- Changes of payload type in `Then`, `Catch`, `IfPending` and `Finally`. They take one payload type, which stands for the union `R|T` of their TypeScript signatures. `Fold` alone keeps a separate result type.
- Handlers that do not terminate, and handlers that look at more arguments than they declare. Handlers are total Dafny functions.
- `reject()` called with no argument, which gives `Rejected(undefined)`. Here the error is always given.
- The string values of the `Status` enum (src/promise-state.ts:1-5). Only the distinction between the three statuses matters to the operations.
