/**
 * The second copy of the lifecycle helpers, in constants.js. Its `update`,
 * `contexts`, `mutateToLoading` and `mutateToFailure` are the same text as
 * src/index.js's and are the members of Merge and Lifecycle; only its
 * `mutateToSuccess` differs, and is modelled here as written.
 */
module ConstantsLifecycle {
  import opened Values
  import opened FlowSpec
  import opened Lifecycle

  /**
   * The update function constants.js's `mutateToSuccess(namespace, doUpdate)`
   * dispatches when called with a result: it records the result as the
   * payload of an ERRORED context and never writes `state[namespace]`.
   */
  function SuccessUpdateAsWritten(namespace: string, result: Value, viewModel: State, wallClock: int): State {
    Patched(viewModel, map["loading" := Obj(LoadingWith(viewModel, namespace, Context(Errored, result, None, wallClock)))])
  }

  /** The message constants.js's success callback hands to `doUpdate`. */
  function SuccessMessageAsWritten(namespace: string, result: Value, wallClock: int): Message {
    Message((s: Option<State>) => if s.None? then Throws else Returned(Obj(SuccessUpdateAsWritten(namespace, result, s.value, wallClock))), [])
  }

  /**
   * As written, a success is recorded exactly as a failure whose error is
   * the result: tagged errored, and `state[namespace]` left as it was.
   */
  lemma SuccessAsWrittenIsFailure(namespace: string, result: Value, viewModel: State, wallClock: int)
    ensures SuccessUpdateAsWritten(namespace, result, viewModel, wallClock)
         == FailureUpdate(namespace, result, viewModel, wallClock)
    ensures SetsContext(SuccessUpdateAsWritten(namespace, result, viewModel, wallClock), viewModel, namespace,
                        LifecycleContext(Errored, wallClock, result))
    ensures KeepsOthers(SuccessUpdateAsWritten(namespace, result, viewModel, wallClock), viewModel, {"loading"})
  {
  }

  /**
   * The discrepancy on a concrete input: a success with result 1 for the
   * namespace "users" on the empty state leaves `users` unset and tags
   * `loading.users` as errored, where src/index.js's version stores 1 under
   * `users` and tags it as a success.
   */
  lemma SuccessAsWrittenLosesResult()
    ensures "users" !in SuccessUpdateAsWritten("users", Num(1), map[], 0)
    ensures ReadContext(SuccessUpdateAsWritten("users", Num(1), map[], 0)["loading"].fields["users"])
         == Some(LifecycleContext(Errored, 0, Num(1)))
    ensures SuccessUpdate("users", Num(1), map[], 0)["users"] == Num(1)
    ensures ReadContext(SuccessUpdate("users", Num(1), map[], 0)["loading"].fields["users"])
         == Some(LifecycleContext(Success, 0, Num(1)))
  {
    SuccessAsWrittenIsFailure("users", Num(1), map[], 0);
  }

  /**
   * End to end through the drain: the message constants.js's success
   * callback dispatches commits the failure update, so the namespace is
   * tagged errored and its state slot is left as it was; before the first
   * commit it throws and only the sources run.
   */
  lemma SuccessAsWrittenDispatched(s: Snapshot, namespace: string, result: Value, wallClock: int, sources: seq<Evaluator>)
    ensures s.state.Some? ==>
      var updated := FailureUpdate(namespace, result, s.state.value, wallClock);
      Drain(s, [SuccessMessageAsWritten(namespace, result, wallClock)], sources)
        == RunSources(Snapshot(Some(updated), s.emitted + [updated]), sources)
    ensures s.state.None? ==>
      Drain(s, [SuccessMessageAsWritten(namespace, result, wallClock)], sources) == RunSources(s, sources)
  {
    var m := SuccessMessageAsWritten(namespace, result, wallClock);
    DrainStep(s, [m], sources);
    assert [m][1..] + m.dispatches == [];
    if s.state.Some? {
      SuccessAsWrittenIsFailure(namespace, result, s.state.value, wallClock);
    }
  }
}
