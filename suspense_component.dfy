/**
 * The older adapter, `addon/components/suspense-component.js`.
 *
 * Its `Task` keeps the last source reference it was handed and a record
 * `_state`; every render calls `execute`, which is a no-op for the same
 * reference and otherwise starts a run whose `.then`, `.catch` and
 * `.finally` callbacks write back only while the run's source is still the
 * current one and the component is alive.
 *
 * The first half states the behaviour on values (`TaskState` and one step
 * function per entry point), with lemmas over whole event traces; the
 * second half is the class, whose methods are proved to take exactly those
 * steps.
 */
module SuspenseComponent {
  import opened Js

  /** How far one `promise.then(..).catch(..).finally(..)` chain has run. */
  datatype Phase = Pending | Handled | Finished

  /**
   * One chain attached by `execute`: the source reference its callbacks
   * captured (`promiseOrCallback`) and the promise it listens to.
   */
  datatype Subscription = Subscription(scoped: Source, promise: PromiseId, phase: Phase)

  /**
   * A Task's fields `promise`, `_state` and `isLoading`, together with the
   * chains attached so far and logs of the calls made into foreign code:
   * function sources invoked and promises passed to `deferRendering`.
   */
  datatype TaskState = TaskState(
    promise: Option<Source>,
    state: Record,
    isLoading: Value,
    subs: seq<Subscription>,
    invoked: seq<FunctionId>,
    deferred: seq<PromiseId>)

  /** A fresh Task: no reference yet, the blank record, `isLoading` undefined. */
  const Initial := TaskState(None, Blank, Undefined, [], [], [])

  /** What `execute` stores and returns when it starts a run: success with no data. */
  const Optimistic := Record(Null, true, false, Null)

  /**
   * `updateComponentValue`: a callback may write only if the source it
   * captured is still the Task's current reference and the component is
   * neither destroyed nor being destroyed.
   */
  predicate UpdateComponentValue(current: Option<Source>, scoped: Source, teardown: Teardown)
    // Only a callback of the current reference may write ...
    ensures UpdateComponentValue(current, scoped, teardown) ==> current == Some(scoped)
    // ... never during or after teardown ...
    ensures teardown.isDestroying || teardown.isDestroyed ==> !UpdateComponentValue(current, scoped, teardown)
    // ... and always when it is current and the component is alive.
    ensures current == Some(scoped) && teardown == Teardown(false, false) ==> UpdateComponentValue(current, scoped, teardown)
  {
    current == Some(scoped) && !teardown.isDestroyed && !teardown.isDestroying
  }

  /**
   * Whether `execute(source, blockRender)` gets as far as attaching a chain:
   * the reference is new and this is not a server render left unblocked.
   */
  predicate StartsRun(t: TaskState, source: Source, blockRender: bool, env: Env) {
    t.promise != Some(source) && (env.isBrowser || blockRender)
  }

  datatype Executed = Executed(after: TaskState, result: Option<Record>)

  /**
   * `execute(promiseArg, blockRender)`; `produced` is the promise a function
   * source returns if it is called.
   */
  function ExecuteStep(t: TaskState, source: Source, blockRender: bool, env: Env, produced: PromiseId): (r: Executed)
    // The identical reference returns the current record and changes nothing.
    ensures t.promise == Some(source) ==> r == Executed(t, Some(t.state))
    // Any other reference is stored before anything else happens.
    ensures t.promise != Some(source) ==> r.after.promise == Some(source)
    // A server render that does not block returns null and only stores the reference.
    ensures t.promise != Some(source) && !env.isBrowser && !blockRender ==>
              r.result == None && r.after == t.(promise := Some(source))
    // A new run returns the optimistic record and attaches one chain that
    // captures the source reference itself, not the promise it yields;
    // `isLoading` is left alone.
    ensures StartsRun(t, source, blockRender, env) ==>
              && r.result == Some(Optimistic)
              && r.after.state == Optimistic
              && r.after.isLoading == t.isLoading
              && r.after.subs == t.subs + [Subscription(source, PromiseOf(source, produced), Pending)]
    ensures !StartsRun(t, source, blockRender, env) ==> r.after.subs == t.subs
    // A function source is called once, and only when a run starts.
    ensures r.after.invoked ==
              t.invoked + if StartsRun(t, source, blockRender, env) && source.FunctionRef? then [source.fn] else []
    // `deferRendering(promise)` happens iff a run starts with blockRender on a fastboot server.
    ensures r.after.deferred ==
              t.deferred + if StartsRun(t, source, blockRender, env) && blockRender && env.isFastBoot
                           then [PromiseOf(source, produced)] else []
  {
    if t.promise == Some(source) then
      Executed(t, Some(t.state))
    else
      var stored := t.(promise := Some(source));
      if !env.isBrowser && !blockRender then
        Executed(stored, None)
      else
        var promise := PromiseOf(source, produced);
        var invoked := if source.FunctionRef? then stored.invoked + [source.fn] else stored.invoked;
        var deferred := if blockRender && env.isFastBoot then stored.deferred + [promise] else stored.deferred;
        var subs := stored.subs + [Subscription(source, promise, Pending)];
        Executed(stored.(state := Optimistic, subs := subs, invoked := invoked, deferred := deferred), Some(Optimistic))
  }

  datatype Delivered = Delivered(after: TaskState, rethrown: bool)

  /**
   * Chain `k` receives its promise's outcome: the `.then` callback on a
   * fulfilment, the `.catch` callback on a rejection. `teardown` is the
   * component's state at that moment and `testing` is `Ember.testing`.
   */
  function SettleStep(t: TaskState, k: nat, outcome: Outcome, teardown: Teardown, testing: bool): (r: Delivered)
    requires k < |t.subs| && t.subs[k].phase == Pending
    ensures r.after.subs == t.subs[k := t.subs[k].(phase := Handled)]
    ensures r.after.promise == t.promise && r.after.isLoading == t.isLoading
    ensures r.after.invoked == t.invoked && r.after.deferred == t.deferred
    // A current settlement installs the record of its outcome: exactly one of
    // isSuccess/isError, the payload as data or the reason as errorReason.
    ensures UpdateComponentValue(t.promise, t.subs[k].scoped, teardown) ==>
              && r.after.state == RecordOf(outcome)
              && r.after.state.isSuccess != r.after.state.isError
    // A stale one, or one reaching a torn-down component, leaves `_state` alone.
    ensures !UpdateComponentValue(t.promise, t.subs[k].scoped, teardown) ==> r.after.state == t.state
    // A rejection is rethrown outside tests, whether or not the guard held.
    ensures r.rethrown <==> outcome.Rejected? && !testing
  {
    var sub := t.subs[k];
    var state := if UpdateComponentValue(t.promise, sub.scoped, teardown) then RecordOf(outcome) else t.state;
    Delivered(t.(state := state, subs := t.subs[k := sub.(phase := Handled)]), outcome.Rejected? && !testing)
  }

  /** Chain `k` runs its `.finally` callback. */
  function FinallyStep(t: TaskState, k: nat, teardown: Teardown): (r: TaskState)
    requires k < |t.subs| && t.subs[k].phase == Handled
    ensures r.subs == t.subs[k := t.subs[k].(phase := Finished)]
    ensures r.promise == t.promise && r.state == t.state
    ensures r.invoked == t.invoked && r.deferred == t.deferred
    ensures UpdateComponentValue(t.promise, t.subs[k].scoped, teardown) ==> r.isLoading == Bool(false)
    ensures !UpdateComponentValue(t.promise, t.subs[k].scoped, teardown) ==> r.isLoading == t.isLoading
  {
    var sub := t.subs[k];
    var isLoading := if UpdateComponentValue(t.promise, sub.scoped, teardown) then Bool(false) else t.isLoading;
    t.(isLoading := isLoading, subs := t.subs[k := sub.(phase := Finished)])
  }

  /**
   * What can happen to a Task: a render calls `execute`, or a callback of
   * chain `k` runs. The promise runtime settles each chain at most once and
   * runs `.finally` after `.then`/`.catch`; an event it would not deliver
   * (see `Enabled`) changes nothing.
   */
  datatype Event =
    | Render(source: Source, blockRender: bool, produced: PromiseId)
    | Settle(k: nat, outcome: Outcome, teardown: Teardown)
    | Finally(k: nat, teardown: Teardown)

  predicate Enabled(t: TaskState, e: Event) {
    match e
    case Render(_, _, _) => true
    case Settle(k, _, _) => k < |t.subs| && t.subs[k].phase == Pending
    case Finally(k, _) => k < |t.subs| && t.subs[k].phase == Handled
  }

  function Step(t: TaskState, e: Event, env: Env): TaskState {
    if !Enabled(t, e) then t
    else match e
      case Render(source, blockRender, produced) => ExecuteStep(t, source, blockRender, env, produced).after
      case Settle(k, outcome, teardown) => SettleStep(t, k, outcome, teardown, env.testing).after
      case Finally(k, teardown) => FinallyStep(t, k, teardown)
  }

  /** The Task after a whole trace of events, in order. */
  function Run(t: TaskState, events: seq<Event>, env: Env): TaskState
    decreases |events|
  {
    if events == [] then t else Run(Step(t, events[0], env), events[1..], env)
  }

  /**
   * What holds of every Task the adapter can reach: `_state` is well shaped,
   * and `isLoading` is undefined or false (no line sets it to true).
   */
  predicate Inv(t: TaskState) {
    WellShaped(t.state) && (t.isLoading == Undefined || t.isLoading == Bool(false))
  }

  lemma StepKeepsInv(t: TaskState, e: Event, env: Env)
    requires Inv(t)
    ensures Inv(Step(t, e, env))
  {
  }

  /** Every trace keeps `Inv`; in particular `isLoading` is never truthy. */
  lemma {:induction false} RunKeepsInv(t: TaskState, events: seq<Event>, env: Env)
    requires Inv(t)
    ensures Inv(Run(t, events, env))
    ensures !Truthy(Run(t, events, env).isLoading)
    decreases |events|
  {
    if events != [] {
      StepKeepsInv(t, events[0], env);
      RunKeepsInv(Step(t, events[0], env), events[1..], env);
    }
  }

  /**
   * Rendering again and again with the reference already stored changes
   * nothing at all: no call of the function, no new chain, no deferral.
   */
  lemma {:induction false} SameSourceRendersAreNoops(t: TaskState, source: Source, events: seq<Event>, env: Env)
    requires t.promise == Some(source)
    requires forall i :: 0 <= i < |events| ==> events[i].Render? && events[i].source == source
    ensures Run(t, events, env) == t
    decreases |events|
  {
    if events != [] {
      assert Step(t, events[0], env) == t;
      SameSourceRendersAreNoops(t, source, events[1..], env);
    }
  }

  /** A component being or having been destroyed. */
  predicate TornDown(teardown: Teardown) {
    teardown.isDestroying || teardown.isDestroyed
  }

  /**
   * Once the component is tearing down, no callback, however many arrive,
   * writes `_state` or `isLoading`.
   */
  lemma {:induction false} TornDownComponentIsNeverWritten(t: TaskState, events: seq<Event>, env: Env)
    requires forall i :: 0 <= i < |events| ==> !events[i].Render? && TornDown(events[i].teardown)
    ensures Run(t, events, env).state == t.state
    ensures Run(t, events, env).isLoading == t.isLoading
    ensures Run(t, events, env).promise == t.promise
    decreases |events|
  {
    if events != [] {
      TornDownComponentIsNeverWritten(Step(t, events[0], env), events[1..], env);
    }
  }

  /** Chain `k`, if it exists, captured a reference other than the current one. */
  predicate Superseded(t: TaskState, k: nat) {
    k < |t.subs| ==> Some(t.subs[k].scoped) != t.promise
  }

  /**
   * Stale-result suppression: callbacks of chains whose source has been
   * replaced never write `_state` or `isLoading`, in any order and number.
   */
  lemma {:induction false} SupersededRunsNeverWrite(t: TaskState, events: seq<Event>, env: Env)
    requires forall i :: 0 <= i < |events| ==> !events[i].Render? && Superseded(t, events[i].k)
    ensures Run(t, events, env).state == t.state
    ensures Run(t, events, env).isLoading == t.isLoading
    decreases |events|
  {
    if events != [] {
      var next := Step(t, events[0], env);
      assert |next.subs| == |t.subs| && next.promise == t.promise;
      assert forall j :: 0 <= j < |t.subs| ==> next.subs[j].scoped == t.subs[j].scoped;
      SupersededRunsNeverWrite(next, events[1..], env);
    }
  }

  /**
   * Source `s1` starts a run and `s2` replaces it before `s1` settles: when
   * `s1`'s chain then settles and finishes, the state `s2` installed is
   * untouched.
   */
  lemma ReplacedSourceCannotOverwrite(
    t: TaskState, s1: Source, s2: Source, b1: bool, b2: bool, p1: PromiseId, p2: PromiseId,
    outcome: Outcome, teardown: Teardown, env: Env)
    requires s1 != s2 && StartsRun(t, s1, b1, env)
    ensures var t1 := ExecuteStep(t, s1, b1, env, p1).after;
            var k := |t1.subs| - 1;
            var t2 := ExecuteStep(t1, s2, b2, env, p2).after;
            && k < |t2.subs| && t2.subs[k].phase == Pending
            && var t3 := SettleStep(t2, k, outcome, teardown, env.testing).after;
               && t3.state == t2.state
               && FinallyStep(t3, k, teardown).isLoading == t2.isLoading
  {
  }

  /**
   * `class Task`: the fields `promise`, `_state` and `isLoading`, with the
   * chains and foreign calls kept as ghost logs. `env` stands for the
   * component context's fastboot service, `IS_BROWSER` and `Ember.testing`.
   */
  class Task {
    const env: Env
    var promise: Option<Source>
    var state: Record
    var isLoading: Value
    ghost var subs: seq<Subscription>
    ghost var invoked: seq<FunctionId>
    ghost var deferred: seq<PromiseId>

    ghost function Abs(): TaskState
      reads this
    {
      TaskState(promise, state, isLoading, subs, invoked, deferred)
    }

    constructor(env: Env)
      ensures this.env == env && Abs() == Initial
    {
      this.env := env;
      promise := None;
      state := Blank;
      isLoading := Undefined;
      subs, invoked, deferred := [], [], [];
    }

    method Execute(source: Source, blockRender: bool, produced: PromiseId) returns (result: Option<Record>)
      modifies this
      ensures Executed(Abs(), result) == ExecuteStep(old(Abs()), source, blockRender, env, produced)
    {
      if promise == Some(source) {
        return Some(state);
      }
      promise := Some(source);
      if !env.isBrowser && !blockRender {
        return None;
      }
      var p: PromiseId;
      if source.FunctionRef? {
        p := produced;
        invoked := invoked + [source.fn];
      } else {
        p := source.promise;
      }
      if blockRender && env.isFastBoot {
        deferred := deferred + [p];
      }
      subs := subs + [Subscription(source, p, Pending)];
      state := Record(Null, true, false, Null);
      return Some(state);
    }

    /** The `.then` callback of chain `k`, which captured `scoped`. */
    method OnFulfilled(ghost k: nat, scoped: Source, payload: Value, teardown: Teardown)
      requires k < |subs| && subs[k].phase == Pending && subs[k].scoped == scoped
      modifies this
      ensures Abs() == SettleStep(old(Abs()), k, Fulfilled(payload), teardown, env.testing).after
    {
      if UpdateComponentValue(promise, scoped, teardown) {
        state := Record(payload, true, false, Null);
      }
      subs := subs[k := subs[k].(phase := Handled)];
    }

    /** The `.catch` callback of chain `k`; `rethrown` is whether it throws `e` on. */
    method OnRejected(ghost k: nat, scoped: Source, e: Value, teardown: Teardown) returns (rethrown: bool)
      requires k < |subs| && subs[k].phase == Pending && subs[k].scoped == scoped
      modifies this
      ensures Delivered(Abs(), rethrown) == SettleStep(old(Abs()), k, Rejected(e), teardown, env.testing)
    {
      if UpdateComponentValue(promise, scoped, teardown) {
        state := Record(Null, false, true, e);
      }
      subs := subs[k := subs[k].(phase := Handled)];
      rethrown := !env.testing;
    }

    /** The `.finally` callback of chain `k`. */
    method OnFinally(ghost k: nat, scoped: Source, teardown: Teardown)
      requires k < |subs| && subs[k].phase == Handled && subs[k].scoped == scoped
      modifies this
      ensures Abs() == FinallyStep(old(Abs()), k, teardown)
    {
      if UpdateComponentValue(promise, scoped, teardown) {
        isLoading := Bool(false);
      }
      subs := subs[k := subs[k].(phase := Finished)];
    }
  }

  /** `class SuspenseComponent`: owns one Task and hands it its arguments on every render. */
  class Component {
    const task: Task

    constructor(env: Env)
      ensures fresh(task) && task.env == env && task.Abs() == Initial
    {
      task := new Task(env);
    }

    /** The `data` getter; `blockRender` is `this.args.blockRender || false`. */
    method Data(promise: Source, blockRender: Value, produced: PromiseId) returns (r: Option<Record>)
      modifies task
      ensures Executed(task.Abs(), r) == ExecuteStep(old(task.Abs()), promise, Truthy(blockRender), task.env, produced)
    {
      r := task.Execute(promise, Truthy(blockRender), produced);
    }
  }
}
