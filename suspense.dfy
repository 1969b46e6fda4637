/**
 * The newer adapter, `addon/components/suspense/index.js`.
 *
 * `Suspense.execute` builds a fresh `Task` object on every call, turns the
 * source into a promise (calling a function source every time), and, for a
 * promise it has not seen, makes that task current and lets the promise's
 * two handlers write into that task only. A run that has been replaced
 * keeps writing into its own, no longer current, task; nothing compares
 * references when a promise settles.
 */
module Suspense {
  import opened Js

  /** `class Task`: one per run, written by that run's handlers only. */
  class Task {
    var data: Value
    var errorReason: Value
    var isLoading: bool

    constructor()
      ensures data == Null && errorReason == Null && !isLoading
    {
      data := Null;
      errorReason := Null;
      isLoading := false;
    }

    /** The `isError` getter: `Boolean(this.errorReason)`. */
    predicate IsError()
      reads this
      ensures IsError() <==> errorReason !in Falsy
    {
      Truthy(errorReason)
    }

    /** The `isSuccess` getter: `Boolean(this.data)`. */
    predicate IsSuccess()
      reads this
      ensures IsSuccess() <==> data !in Falsy
    {
      Truthy(data)
    }
  }

  /**
   * One `promise.then(onFulfilled, onRejected)` attached by `execute`: the
   * Task its handlers captured, the promise, and how it has settled so far.
   */
  datatype Run = Run(task: Task, promise: PromiseId, outcome: Option<Outcome>)

  /** The fields a run's handlers leave in its Task for a given outcome so far. */
  ghost predicate Reflects(task: Task, outcome: Option<Outcome>)
    reads task
  {
    match outcome
    case None => task.data == Null && task.errorReason == Null && task.isLoading
    case Some(Fulfilled(v)) => task.data == v && task.errorReason == Null && !task.isLoading
    case Some(Rejected(e)) => task.data == Null && task.errorReason == e && !task.isLoading
  }

  /** A Task nothing has touched since its constructor. */
  ghost predicate Idle(task: Task)
    reads task
  {
    task.data == Null && task.errorReason == Null && !task.isLoading
  }

  /** `class Suspense`: the current task and promise, with ghost logs of its runs and foreign calls. */
  class Component {
    const env: Env
    var task: Task?
    var promise: Option<PromiseId>
    ghost var runs: seq<Run>
    ghost var invoked: seq<FunctionId>
    ghost var deferred: seq<PromiseId>

    /** Every Task the component has handed out or can still write to. */
    ghost function Tasks(): set<Task>
      reads this
    {
      (set i | 0 <= i < |runs| :: runs[i].task) + (if task == null then {} else {task})
    }

    /**
     * Each run has a Task of its own holding what its handlers wrote; the
     * current task is the last run's, or an idle one from a server render
     * that attached no handlers.
     */
    ghost predicate Valid()
      reads this, Tasks()
    {
      && (task == null <==> promise == None)
      && (forall i, j :: 0 <= i < j < |runs| ==> runs[i].task != runs[j].task)
      && (forall i :: 0 <= i < |runs| ==> Reflects(runs[i].task, runs[i].outcome))
      && (task != null ==>
            || (runs != [] && runs[|runs| - 1].task == task)
            || (Idle(task) && forall i :: 0 <= i < |runs| ==> runs[i].task != task))
    }

    constructor(env: Env)
      ensures Valid() && this.env == env
      ensures task == null && promise == None && runs == [] && invoked == [] && deferred == []
    {
      this.env := env;
      task := null;
      promise := None;
      runs, invoked, deferred := [], [], [];
    }

    /** Whether `execute` would attach handlers: a promise not seen last time, and not an unblocked server render. */
    predicate Starts(p: PromiseId, blockRender: bool)
      reads this
    {
      promise != Some(p) && (env.isBrowser || blockRender)
    }

    /**
     * `execute(promiseArg, blockRender)`; `produced` is the promise a
     * function source returns on this call.
     */
    method Execute(source: Source, blockRender: bool, produced: PromiseId) returns (r: Task?)
      requires Valid()
      modifies this
      ensures Valid()
      // A function source is called on every execute, before the identity check.
      ensures invoked == old(invoked) + if source.FunctionRef? then [source.fn] else []
      // The same promise as last time: the stored task is returned, nothing else changes.
      ensures old(promise) == Some(PromiseOf(source, produced)) ==>
                && r == old(task) && task == old(task) && promise == old(promise)
                && runs == old(runs) && deferred == old(deferred)
      // Otherwise the fresh task and the promise replace the stored ones.
      ensures old(promise) != Some(PromiseOf(source, produced)) ==>
                && task != null && fresh(task) && promise == Some(PromiseOf(source, produced))
      // A server render that does not block returns null; the new task stays idle, no handlers.
      ensures old(promise) != Some(PromiseOf(source, produced)) && !env.isBrowser && !blockRender ==>
                && r == null && task != null && Idle(task) && runs == old(runs)
      // Otherwise the returned task is the current one, loading, and one run is attached to it.
      ensures old(Starts(PromiseOf(source, produced), blockRender)) ==>
                && r == task && r != null
                && r.isLoading && r.data == Null && r.errorReason == Null
                && runs == old(runs) + [Run(r, PromiseOf(source, produced), None)]
      // `deferRendering(promise)` iff a run starts with blockRender on a fastboot server.
      ensures deferred == old(deferred) +
                if old(Starts(PromiseOf(source, produced), blockRender)) && blockRender && env.isFastBoot
                then [PromiseOf(source, produced)] else []
    {
      var created := new Task();
      var p := PromiseOf(source, produced);
      invoked := invoked + if source.FunctionRef? then [source.fn] else [];
      if promise == Some(p) {
        return task;
      }
      r := Replace(created, p, blockRender);
    }

    /**
     * The part of `execute` after the identity check: `created` and `p`
     * become the stored task and promise; unless this is an unblocked server
     * render, the task is marked loading, the promise deferred on a fastboot
     * server, and the two handlers attached.
     */
    method Replace(created: Task, p: PromiseId, blockRender: bool) returns (r: Task?)
      requires Valid() && promise != Some(p)
      requires Idle(created) && created !in Tasks()
      modifies this, created
      ensures Valid()
      ensures task == created && promise == Some(p) && invoked == old(invoked)
      ensures !env.isBrowser && !blockRender ==> r == null && Idle(created) && runs == old(runs)
      ensures env.isBrowser || blockRender ==>
                && r == created && created.isLoading && created.data == Null && created.errorReason == Null
                && runs == old(runs) + [Run(created, p, None)]
      ensures deferred == old(deferred) + if (env.isBrowser || blockRender) && blockRender && env.isFastBoot then [p] else []
    {
      task := created;
      promise := Some(p);
      if !env.isBrowser && !blockRender {
        return null;
      }
      created.isLoading := true;
      deferred := deferred + if blockRender && env.isFastBoot then [p] else [];
      runs := runs + [Run(created, p, None)];
      return created;
    }

    /**
     * The fulfilment handler of run `k`, which captured `t`: it writes the
     * payload into `t` and nothing else, so a replaced run never touches the
     * current task.
     */
    method OnFulfilled(ghost k: nat, t: Task, payload: Value)
      requires Valid()
      requires k < |runs| && runs[k].task == t && runs[k].outcome == None
      modifies this, t
      ensures Valid()
      ensures runs == old(runs)[k := Run(t, old(runs[k].promise), Some(Fulfilled(payload)))]
      ensures task == old(task) && promise == old(promise)
      ensures invoked == old(invoked) && deferred == old(deferred)
      ensures t.data == payload && t.errorReason == Null && !t.isLoading
      ensures t.IsSuccess() == Truthy(payload) && !t.IsError()
      ensures task != null && task != t ==> unchanged(task)
    {
      t.data := payload;
      t.isLoading := false;
      runs := runs[k := Run(t, runs[k].promise, Some(Fulfilled(payload)))];
    }

    /**
     * The rejection handler of run `k`, which captured `t`; `rethrown` is
     * whether it throws `e` on (outside tests).
     */
    method OnRejected(ghost k: nat, t: Task, e: Value) returns (rethrown: bool)
      requires Valid()
      requires k < |runs| && runs[k].task == t && runs[k].outcome == None
      modifies this, t
      ensures Valid()
      ensures runs == old(runs)[k := Run(t, old(runs[k].promise), Some(Rejected(e)))]
      ensures task == old(task) && promise == old(promise)
      ensures invoked == old(invoked) && deferred == old(deferred)
      ensures t.data == Null && t.errorReason == e && !t.isLoading
      ensures t.IsError() == Truthy(e) && !t.IsSuccess()
      ensures task != null && task != t ==> unchanged(task)
      ensures rethrown <==> !env.testing
    {
      t.errorReason := e;
      t.isLoading := false;
      runs := runs[k := Run(t, runs[k].promise, Some(Rejected(e)))];
      rethrown := !env.testing;
    }

    /**
     * The `data` getter: `execute` with `blockRender` taken as the truthiness
     * of `this.args.blockRender || false`.
     */
    method Data(source: Source, blockRender: Value, produced: PromiseId) returns (r: Task?)
      requires Valid()
      modifies this
      ensures Valid()
      ensures invoked == old(invoked) + if source.FunctionRef? then [source.fn] else []
      ensures old(promise) == Some(PromiseOf(source, produced)) ==>
                && r == old(task) && task == old(task) && promise == old(promise)
                && runs == old(runs) && deferred == old(deferred)
      ensures old(promise) != Some(PromiseOf(source, produced)) ==>
                && task != null && fresh(task) && promise == Some(PromiseOf(source, produced))
      ensures old(promise) != Some(PromiseOf(source, produced)) && !env.isBrowser && !Truthy(blockRender) ==>
                && r == null && task != null && Idle(task) && runs == old(runs)
      ensures old(Starts(PromiseOf(source, produced), Truthy(blockRender))) ==>
                && r == task && r != null
                && r.isLoading && r.data == Null && r.errorReason == Null
                && runs == old(runs) + [Run(r, PromiseOf(source, produced), None)]
      ensures deferred == old(deferred) +
                if old(Starts(PromiseOf(source, produced), Truthy(blockRender))) && Truthy(blockRender) && env.isFastBoot
                then [PromiseOf(source, produced)] else []
    {
      r := Execute(source, Truthy(blockRender), produced);
    }

    /**
     * Only the latest run's handlers hold the current task, so the handlers
     * of a run that has been replaced never write to it.
     */
    lemma OnlyLatestRunOwnsCurrentTask(k: nat)
      requires Valid() && k < |runs|
      ensures runs[k].task == task ==> k == |runs| - 1
    {
    }

    /** No task the component handed out ever reads as both success and error. */
    lemma NeverSuccessAndError(t: Task)
      requires Valid() && t in Tasks()
      ensures !(t.IsSuccess() && t.IsError())
    {
      if t != task {
        var i :| 0 <= i < |runs| && runs[i].task == t;
        assert Reflects(t, runs[i].outcome);
      } else if runs != [] && runs[|runs| - 1].task == task {
        assert Reflects(t, runs[|runs| - 1].outcome);
      }
    }
  }
}
