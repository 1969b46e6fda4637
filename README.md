# ember-async-component: the suspense adapters and the multi-promise helper

This project models the stateful core of `ember-async-component`, an Ember
addon. The addon turns a promise, or a function returning one, into a task
object that a template can read synchronously: loading, success or error.
It also ships a helper that gathers several named promises into one payload
of per-name settlement records. The Dafny model has four modules:

- `Js` (`js.dfy`) holds what the three source files share: JavaScript
  values and their truthiness, and identities for promises and functions.
  `===` on these objects is equality of identities. It also holds how a
  promise settles (`Outcome`) and the record
  `{data, isSuccess, isError, errorReason}`.
- `SuspenseComponent` (`suspense_component.dfy`) models the older adapter.
  A `Task` keeps the last source reference, a record `_state` and
  `isLoading`. The behaviour is first stated on values: `TaskState` has one
  step function per entry point (`ExecuteStep`, `SettleStep`,
  `FinallyStep`), and `Run` applies a trace of render and settlement events.
  Lemmas then cover whole traces: the invariant, no-op re-renders, teardown
  and stale-result suppression. The classes `Task` and `Component` have
  methods that are proved to take exactly those steps.
- `Suspense` (`suspense.dfy`) models the newer adapter. `execute` creates
  one `Task` object per call and keeps the current task and promise. Each
  run's two handlers capture their own task. `Valid()` keeps the tasks of
  all runs distinct, so a handler can only write to the task of its own
  run.
- `MultiPromiseHandler` (`multi_promise_handler.dfy`) models the helper.
  Its callbacks are mutually recursive methods that pop entries from the
  end of the list and write records into the payload. They are proved
  against `Records`, whose meaning does not depend on order: exactly the
  input's keys, each mapped to the record of its own outcome.

Settlement is an explicit event. A promise's callbacks are methods that the
surrounding runtime calls, once per subscription, in any order. Each chain
of the older adapter runs `.then`/`.catch` and then `.finally`. These flags
are plain inputs:

- `IS_BROWSER`, `fastboot.isFastBoot` and `Ember.testing`, bundled in `Env`
  and fixed per component.
- The component's `isDestroying` and `isDestroyed`, passed as `Teardown` to
  each callback.
- The promise a function source returns, passed as `produced`. Calling
  the function runs foreign code, so its result is an input.

Calls into foreign code are kept as ghost logs: `invoked` (function sources
called), `deferred` (promises passed to `deferRendering`), and the chains
or runs attached.

Notes on the code as written, which the model follows:

- The older adapter never sets `isLoading` to true, because that line is
  commented out. A new run returns and stores an optimistic record
  `{data: null, isSuccess: true, isError: false, errorReason: null}`, not a
  loading state. `RunKeepsInv` proves that `isLoading` is never truthy.
- The older adapter's staleness guard compares the source reference it was
  given. For a function source, that is the function, not the promise the
  function returned. The function is called only when a new reference
  starts a run.
- The newer adapter calls a function source on every `execute`, before the
  identity check. It compares the promise that results. It has no
  staleness or teardown guard: a replaced run still writes into its own,
  no longer current, task. `isSuccess` and `isError` are the truthiness of
  `data` and `errorReason`, so a falsy payload such as `0`, `""` or `null`
  reads as not successful.
- Both adapters call `.then` on whatever the source yields. A plain object
  is not treated as an already-resolved value. The model therefore only
  admits promise-like sources: `Source` is a promise or a function.
- The helper never calls function-valued entries, and it does not wait for
  its entries concurrently. It waits for them one at a time, last to first.
  With no entries it returns the empty payload object itself, not a
  promise. A rejected entry becomes an error record and never rejects the
  whole.

## Model

| member | source | states |
|---|---|---|
| `Js.Truthy` | addon/components/suspense/index.js:34-40 | `Boolean(v)`: a value is true iff it is none of undefined, null, false, 0 and "". |
| `SuspenseComponent.UpdateComponentValue` | addon/components/suspense-component.js:42-48 | A callback may write only for the current reference, never while the component is being destroyed or after it is destroyed, and always when its reference is current and the component is alive. |
| `Js.RecordOf` | addon/helpers/multi-promise-handler.js:42-58 | A fulfilment gives `{data: value, isSuccess: true, isError: false, errorReason: null}`. A rejection gives `{data: null, isSuccess: false, isError: true, errorReason: reason}`. Exactly one flag is set, and the record is well shaped. |
| `SuspenseComponent.ExecuteStep` | addon/components/suspense-component.js:68-135 | The identical reference returns the current `_state` and changes nothing. Any other reference is stored first. An unblocked server render returns null and changes nothing else. Otherwise `execute` returns and stores the optimistic record, leaves `isLoading` alone, and attaches one chain that captures the original source reference. The function source is called iff a run starts. `deferRendering(promise)` is called iff a run starts with `blockRender` on a fastboot server. |
| `SuspenseComponent.SettleStep` | addon/components/suspense-component.js:95-121 | When the captured source is still current and the component is alive, `_state` becomes the outcome's record, with exactly one of `isSuccess`/`isError`. Otherwise `_state` is unchanged. The reference, `isLoading` and the logs never change. A rejection is rethrown iff not testing, whether or not the guard held. |
| `SuspenseComponent.FinallyStep` | addon/components/suspense-component.js:122-126 | `isLoading` becomes false iff the guard holds and is otherwise unchanged. `_state` and the reference are untouched. |
| `SuspenseComponent.RunKeepsInv` | addon/components/suspense-component.js:80-134 | Over any trace of renders and callbacks, `_state` stays well shaped: never both flags, no data on an error, no reason unless it is an error. `isLoading` is always undefined or false, never truthy. |
| `SuspenseComponent.SameSourceRendersAreNoops` | addon/components/suspense-component.js:70-72 | Once a reference is stored, any number of renders with it leave the whole Task unchanged: no call, no new chain, no deferral. |
| `SuspenseComponent.TornDownComponentIsNeverWritten` | addon/components/suspense-component.js:42-48 | Callbacks that arrive while the component is destroying or destroyed never change `_state`, `isLoading` or the reference, however many there are and in any order. |
| `SuspenseComponent.SupersededRunsNeverWrite` | addon/components/suspense-component.js:98-125 | Callbacks of chains whose captured source is no longer the current reference never change `_state` or `isLoading`, in any order and number. |
| `SuspenseComponent.ReplacedSourceCannotOverwrite` | addon/components/suspense-component.js:74-126 | Suppose `s1` starts a run and `s2` replaces it. When `s1`'s chain then settles and finishes, the `_state` and `isLoading` installed by `s2` are untouched. |
| `SuspenseComponent.Task.constructor` | addon/components/suspense-component.js:29-40 | A new Task has no reference, the blank record and `isLoading` undefined. |
| `SuspenseComponent.Task.Execute` | addon/components/suspense-component.js:68-135 | The method takes exactly `ExecuteStep`: same result, same new fields and logs. |
| `SuspenseComponent.Task.OnFulfilled` | addon/components/suspense-component.js:96-106 | The `.then` callback takes exactly `SettleStep` for a fulfilment with the captured reference. |
| `SuspenseComponent.Task.OnRejected` | addon/components/suspense-component.js:107-121 | The `.catch` callback takes exactly `SettleStep` for a rejection, including the rethrow outcome. |
| `SuspenseComponent.Task.OnFinally` | addon/components/suspense-component.js:122-126 | The `.finally` callback takes exactly `FinallyStep`. |
| `SuspenseComponent.Component.constructor` | addon/components/suspense-component.js:142-152 | The component owns a fresh Task in its initial state. |
| `SuspenseComponent.Component.Data` | addon/components/suspense-component.js:154-159 | The `data` getter is `execute` with `blockRender` taken as the truthiness of the argument. |
| `Suspense.Task.IsError` | addon/components/suspense/index.js:34-36 | A task reads as an error iff `errorReason` is none of undefined, null, false, 0 and "". |
| `Suspense.Task.IsSuccess` | addon/components/suspense/index.js:38-40 | A task reads as a success iff `data` is none of the falsy values, so a fulfilment with `0`, `""` or `null` does not. |
| `Suspense.Task.constructor` | addon/components/suspense/index.js:29-32 | A new task has `data` and `errorReason` null and is not loading. |
| `Suspense.Component.constructor` | addon/components/suspense/index.js:43-53 | No task, no promise, no runs, and the invariant holds. |
| `Suspense.Component.Execute` | addon/components/suspense/index.js:62-100 | A function source is called on every call. If the resulting promise is the stored one, the stored task is returned and nothing else changes. Otherwise a fresh task and the promise replace the stored ones. An unblocked server render returns null and leaves that task idle with no handlers. Otherwise it returns the current task, loading with null `data`/`errorReason`, and attaches one run to it. Deferral happens iff a run starts with `blockRender` on a fastboot server. The invariant is kept. |
| `Suspense.Component.Replace` | addon/components/suspense/index.js:70-99 | For a new promise, this is the part of `execute` after the identity check, with the same replacement, server-skip, loading, deferral and run-attachment outcomes. |
| `Suspense.Component.OnFulfilled` | addon/components/suspense/index.js:84-88 | The handler sets its own run's task to `data = payload`, not loading. That task reads as success iff the payload is truthy, and never as an error. Every other task, the current one included, is unchanged. |
| `Suspense.Component.OnRejected` | addon/components/suspense/index.js:89-96 | The handler sets its own run's task to `errorReason = e`, not loading. That task reads as an error iff `e` is truthy, and never as success. The current task is unchanged if it is another run's. The rejection is rethrown iff not testing. |
| `Suspense.Component.Data` | addon/components/suspense/index.js:55-60 | The `data` getter has every outcome of `Execute`, with `blockRender` taken as the truthiness of `this.args.blockRender || false`. A function source is called on every call. The same promise gives back the stored task. A new promise replaces task and promise. An unblocked server render returns null. Otherwise a new loading run is attached, deferred iff blocking on a fastboot server. |
| `Suspense.Component.OnlyLatestRunOwnsCurrentTask` | addon/components/suspense/index.js:63-91 | Only the most recent run holds the current task. A replaced run's handlers therefore write elsewhere. |
| `Suspense.Component.NeverSuccessAndError` | addon/components/suspense/index.js:34-40 | No task the component created ever reads as both `isSuccess` and `isError`. |
| `MultiPromiseHandler.PromiseCallback` | addon/helpers/multi-promise-handler.js:33-41 | An empty list returns the payload object itself. A non-empty list returns a promise that fulfils. `Reply` has no rejecting form, because the `.catch` at line 38 turns every rejected entry into a record. The result is the payload plus the records of all entries. Earlier keys not among the entries keep their records. Categories are written one pop at a time, from the end of the list, each once. |
| `MultiPromiseHandler.SuccessCallback` | addon/helpers/multi-promise-handler.js:42-50 | The category gets `{data: value, isSuccess: true, isError: false, errorReason: null}`, and processing continues with the rest. Other earlier keys are unchanged. |
| `MultiPromiseHandler.FailCallback` | addon/helpers/multi-promise-handler.js:51-59 | The category gets `{data: null, isSuccess: false, isError: true, errorReason: reason}`, and processing continues with the rest. The rejection becomes data, and the chain goes on. |
| `MultiPromiseHandler.Compute` | addon/helpers/multi-promise-handler.js:60-63 | No entries returns a plain payload. Otherwise it returns a promise, which always fulfils, because `Reply` has no rejecting form. The payload has exactly the input's keys, each with the record of its own outcome. |
| `MultiPromiseHandler.RecordsKeys` | addon/helpers/multi-promise-handler.js:33-41 | The records written have exactly the categories of the entries as keys. |
| `MultiPromiseHandler.RecordsAt` | addon/helpers/multi-promise-handler.js:42-58 | With distinct categories, each entry's category maps to the record of that entry's own outcome. |
| `MultiPromiseHandler.OrderIndependent` | addon/helpers/multi-promise-handler.js:34-58 | Any reordering of the entries gives the same payload, even though entries are handled last to first. |

## Left out

- `addon/utils/is-browser.js` reads the `window` global. The model takes `IS_BROWSER` as the `isBrowser` flag of `Env`.
- The promise runtime: microtask ordering and the chaining of `then`, `catch` and `finally`. Callbacks are explicit events, delivered in any order, at most once per chain. Two chains on the same promise are not forced to see the same outcome.
- A promise that never settles. For the helper, each entry is given by its outcome, so the model does not cover an aggregate that waits forever.
- Glimmer `@tracked` reactivity and rendering, the `getOwner(...).lookup('service:fastboot')` lookup, and the real effect of `deferRendering`. Deferral is only logged.
- A missing fastboot service. The lookup would then return `undefined`, and with `blockRender` set the adapters would fail reading `isFastBoot`. The model always has an `isFastBoot` flag.
- Where a rethrown rejection ends up (unhandled-rejection reporting). It is only the boolean `rethrown`.
- Dead code: the commented-out `setIsLoading` and `isLoading` getter, the `debugger` statements, the unused `blockRender` class field of both components, and the older component's unused `promise` field. The older adapter keeps its reference on the Task instead. The newer component's `promise` field is modelled as `Suspense.Component.promise`.
- Sources that are neither promises nor functions, and helper entries that are not promises. Both adapters and the helper call `.then` on them, so `Source` and `Entry` admit only promise-like values.
- `SuspenseComponent.ExecuteStep` assumes a function source returns a promise (`produced`). A call that throws, or a result without `.then` (the `.then` at addon/components/suspense-component.js:95 then throws), is not modelled. In the source, the reference is already stored at line 74 in that case. `_state` keeps its previous value and no chain is attached, so every later render with that function returns the stale `_state` and never calls it again.
- `SuspenseComponent.Task.Execute` and `SuspenseComponent.Component.Data` are equated with `ExecuteStep`, so they leave out the same throwing-function and non-promise path.
- `Suspense.Component.Execute` assumes a function source returns a promise. If the call at addon/components/suspense/index.js:64 throws, nothing changes and the next render calls the function again. A result without `.then` is stored (lines 70-71), and its task is marked loading (line 77) before `.then` throws at line 84. That task stays loading and is returned to later renders that yield the same value. Neither path is modelled.
- `Suspense.Component.Replace` and `Suspense.Component.Data` leave out the same throwing-function and non-promise path as `Suspense.Component.Execute`.
- JavaScript numbers: `Value.Number` holds integers, so NaN, -0 and fractions are not modelled.
- `compute`'s unused positional `args`.
- The demo application under `tests/dummy`. It is built on timers, `Date.now`, `RSVP.hash` and routing, and `tests/dummy/app/helpers/function-apply.js` is a one-line pass-through. None of it is part of this model.
