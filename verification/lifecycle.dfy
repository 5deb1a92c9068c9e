/**
 * Lifecycle tagging of asynchronous operations: the `contexts` factory and
 * the mutators that record a namespace's status under `state.loading`.
 * The wall clock is a parameter; an injected clock is its reading.
 */
module Lifecycle {
  import opened Values
  import opened Merge
  import opened FlowSpec

  const OK: string := "success"
  const LOADING: string := "loading"
  const ERRORED: string := "errored"

  datatype Tag = Success | Loading | Errored

  function TagName(tag: Tag): string {
    match tag
    case Success => OK
    case Loading => LOADING
    case Errored => ERRORED
  }

  /** `fallbackTimeToNow(now)`: the injected clock's reading if there is one, the wall clock otherwise. */
  function FallbackTimeToNow(now: Option<int>, wallClock: int): int {
    if now.Some? then now.value else wallClock
  }

  /** `contexts[TagName(tag)](result, now)`: the record `{type, time, kash}`. */
  function Context(tag: Tag, result: Value, now: Option<int>, wallClock: int): Value {
    Obj(map["type" := Str(TagName(tag)), "time" := Num(FallbackTimeToNow(now, wallClock)), "kash" := result])
  }

  /** A lifecycle context read back from a value. */
  datatype LifecycleContext = LifecycleContext(tag: Tag, time: int, kash: Value)

  function TagNamed(name: string): Option<Tag> {
    if name == OK then Some(Success)
    else if name == LOADING then Some(Loading)
    else if name == ERRORED then Some(Errored)
    else None
  }

  /** Reads a value as a lifecycle context: an object with exactly `type`, `time` and `kash`, a known type and a numeric time. */
  function ReadContext(v: Value): Option<LifecycleContext> {
    if v.Obj? && v.fields.Keys == {"type", "time", "kash"}
       && v.fields["type"].Str? && TagNamed(v.fields["type"].s).Some? && v.fields["time"].Num?
    then Some(LifecycleContext(TagNamed(v.fields["type"].s).value, v.fields["time"].n, v.fields["kash"]))
    else None
  }

  /**
   * A context reads back as the tag it was built with, the time the clock
   * gave, and the payload unchanged; its `type` is one of the three names.
   */
  lemma ContextRoundTrip(tag: Tag, result: Value, now: Option<int>, wallClock: int)
    ensures ReadContext(Context(tag, result, now, wallClock))
         == Some(LifecycleContext(tag, FallbackTimeToNow(now, wallClock), result))
    ensures Context(tag, result, now, wallClock).fields["type"] in {Str(OK), Str(LOADING), Str(ERRORED)}
  {
    var fields := Context(tag, result, now, wallClock).fields;
    assert fields.Keys == {"type", "time", "kash"};
    assert TagNamed(TagName(tag)) == Some(tag);
  }

  /** Whatever reads as a context is exactly the context built from what was read. */
  lemma ReadContextExact(v: Value, wallClock: int)
    requires ReadContext(v).Some?
    ensures var c := ReadContext(v).value; v == Context(c.tag, c.kash, Some(c.time), wallClock)
  {
    var c := ReadContext(v).value;
    var built := Context(c.tag, c.kash, Some(c.time), wallClock);
    assert TagName(c.tag) == v.fields["type"].s;
    assert v.fields == built.fields;
  }

  /** Builds the `contexts` table: one entry per status name, each tagging with its own name. */
  method MakeContexts() returns (contexts: map<string, Tag>)
    ensures contexts.Keys == {OK, LOADING, ERRORED}
    ensures forall name :: name in contexts ==> TagName(contexts[name]) == name
  {
    var tags := [Success, Loading, Errored];
    contexts := map[];
    for i := 0 to |tags|
      invariant contexts.Keys == set j | 0 <= j < i :: TagName(tags[j])
      invariant forall name :: name in contexts ==> TagName(contexts[name]) == name
    {
      contexts := contexts[TagName(tags[i]) := tags[i]];
    }
    assert TagName(tags[0]) == OK && TagName(tags[1]) == LOADING && TagName(tags[2]) == ERRORED;
  }

  /** `viewModel.loading` as an argument of `update`: a missing or non-object slot counts as `{}`. */
  function LoadingOf(viewModel: State): Option<State> {
    if "loading" in viewModel then AsPart(viewModel["loading"]) else None
  }

  /** The entries of `viewModel.loading` that survive a merge into it. */
  function LoadingEntries(viewModel: State): State {
    Defaulted(LoadingOf(viewModel))
  }

  /** `r` holds every key of `viewModel` and the `changed` ones, and agrees with `viewModel` off `changed`. */
  ghost predicate KeepsOthers(r: State, viewModel: State, changed: set<string>) {
    && r.Keys == viewModel.Keys + changed
    && forall k :: k in viewModel && k !in changed ==> r[k] == viewModel[k]
  }

  /**
   * `r.loading` is `viewModel.loading` (or `{}`) with the entry `namespace`
   * set to a context reading as `c`, and every other entry kept.
   */
  ghost predicate SetsContext(r: State, viewModel: State, namespace: string, c: LifecycleContext) {
    && "loading" in r && r["loading"].Obj?
    && var entries := r["loading"].fields;
       var before := LoadingEntries(viewModel);
       && entries.Keys == before.Keys + {namespace}
       && (forall n :: n in before && n != namespace ==> entries[n] == before[n])
       && ReadContext(entries[namespace]) == Some(c)
  }

  /** `update(viewModel.loading, {[namespace]: context})`. */
  function LoadingWith(viewModel: State, namespace: string, context: Value): (r: State)
    ensures r == LoadingEntries(viewModel)[namespace := context]
  {
    MergedPair(LoadingOf(viewModel), Some(map[namespace := context]));
    Merged([LoadingOf(viewModel), Some(map[namespace := context])])
  }

  /** `update(viewModel, patch)` for a patch built as an object literal. */
  function Patched(viewModel: State, patch: State): (r: State)
    ensures r == viewModel + patch
  {
    MergedPair(Some(viewModel), Some(patch));
    Merged([Some(viewModel), Some(patch)])
  }

  /**
   * `mutateToLoading(namespace, viewModel)`: the state with `loading[namespace]`
   * set to a loading context (payload undefined, time from the wall clock).
   */
  function MutateToLoading(namespace: string, viewModel: State, wallClock: int): (r: State)
    ensures KeepsOthers(r, viewModel, {"loading"})
    ensures SetsContext(r, viewModel, namespace, LifecycleContext(Loading, wallClock, Undefined))
  {
    var context := Context(Loading, Undefined, None, wallClock);
    ContextRoundTrip(Loading, Undefined, None, wallClock);
    Patched(viewModel, map["loading" := Obj(LoadingWith(viewModel, namespace, context))])
  }

  /**
   * The update function `mutateToFailure(namespace, doUpdate)(error)`
   * dispatches, applied to a state: `loading[namespace]` becomes an errored
   * context carrying the error; every top-level key other than `loading` is kept.
   */
  function FailureUpdate(namespace: string, error: Value, viewModel: State, wallClock: int): (r: State)
    ensures KeepsOthers(r, viewModel, {"loading"})
    ensures SetsContext(r, viewModel, namespace, LifecycleContext(Errored, wallClock, error))
  {
    var context := Context(Errored, error, None, wallClock);
    ContextRoundTrip(Errored, error, None, wallClock);
    Patched(viewModel, map["loading" := Obj(LoadingWith(viewModel, namespace, context))])
  }

  /**
   * The update function `mutateToSuccess(namespace, doUpdate)(result)`
   * dispatches, applied to a state: `state[namespace]` becomes the result and
   * `loading[namespace]` a success context carrying it. The patch literal
   * `{loading, [namespace]: result}` lets the second key win, so for the
   * namespace "loading" the result replaces the whole loading slot.
   */
  function SuccessUpdate(namespace: string, result: Value, viewModel: State, wallClock: int): (r: State)
    ensures namespace != "loading" ==> KeepsOthers(r, viewModel, {"loading", namespace})
    ensures namespace != "loading" ==> SetsContext(r, viewModel, namespace, LifecycleContext(Success, wallClock, result))
    ensures namespace != "loading" ==> r[namespace] == result
    ensures namespace == "loading" ==> KeepsOthers(r, viewModel, {"loading"}) && r["loading"] == result
  {
    var context := Context(Success, result, None, wallClock);
    ContextRoundTrip(Success, result, None, wallClock);
    Patched(viewModel, map["loading" := Obj(LoadingWith(viewModel, namespace, context))][namespace := result])
  }

  /**
   * What `mutateToFailure(namespace, doUpdate)(error)` hands to `doUpdate`:
   * one message, dispatching nothing further. Reading `viewModel.loading`
   * throws while the state is still undefined.
   */
  function FailureMessage(namespace: string, error: Value, wallClock: int): Message {
    Message((s: Option<State>) => if s.None? then Throws else Returned(Obj(FailureUpdate(namespace, error, s.value, wallClock))), [])
  }

  /** What `mutateToSuccess(namespace, doUpdate)(result)` hands to `doUpdate`. */
  function SuccessMessage(namespace: string, result: Value, wallClock: int): Message {
    Message((s: Option<State>) => if s.None? then Throws else Returned(Obj(SuccessUpdate(namespace, result, s.value, wallClock))), [])
  }

  /**
   * Dispatching the failure callback's message into an idle engine commits
   * the failure update (one notification), then runs one pass of the
   * sources; before the first commit it throws and only the sources run.
   */
  lemma FailureDispatched(s: Snapshot, namespace: string, error: Value, wallClock: int, sources: seq<Evaluator>)
    ensures s.state.Some? ==>
      var updated := FailureUpdate(namespace, error, s.state.value, wallClock);
      Drain(s, [FailureMessage(namespace, error, wallClock)], sources)
        == RunSources(Snapshot(Some(updated), s.emitted + [updated]), sources)
    ensures s.state.None? ==>
      Drain(s, [FailureMessage(namespace, error, wallClock)], sources) == RunSources(s, sources)
  {
    var m := FailureMessage(namespace, error, wallClock);
    DrainStep(s, [m], sources);
    assert [m][1..] + m.dispatches == [];
  }

  /** The same for the success callback's message. */
  lemma SuccessDispatched(s: Snapshot, namespace: string, result: Value, wallClock: int, sources: seq<Evaluator>)
    ensures s.state.Some? ==>
      var updated := SuccessUpdate(namespace, result, s.state.value, wallClock);
      Drain(s, [SuccessMessage(namespace, result, wallClock)], sources)
        == RunSources(Snapshot(Some(updated), s.emitted + [updated]), sources)
    ensures s.state.None? ==>
      Drain(s, [SuccessMessage(namespace, result, wallClock)], sources) == RunSources(s, sources)
  {
    var m := SuccessMessage(namespace, result, wallClock);
    DrainStep(s, [m], sources);
    assert [m][1..] + m.dispatches == [];
  }

  /** Tagging an empty state as loading yields `{loading: {[namespace]: {type: 'loading', time, kash: undefined}}}`. */
  lemma LoadingFromEmpty(namespace: string, wallClock: int)
    ensures MutateToLoading(namespace, map[], wallClock)
         == map["loading" := Obj(map[namespace := Context(Loading, Undefined, None, wallClock)])]
  {
    assert LoadingEntries(map[]) == map[];
    assert map[]["loading" := Obj(map[namespace := Context(Loading, Undefined, None, wallClock)])]
        == map["loading" := Obj(map[namespace := Context(Loading, Undefined, None, wallClock)])];
  }
}
