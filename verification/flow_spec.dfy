/**
 * What one run of `createFlow`'s loop computes, as functions: the commit rule
 * for one evaluation, one pass over the sources, and the draining of a queue.
 */
module FlowSpec {
  import opened Values
  import opened Merge

  /** What evaluating a source or a message against the current state produced. */
  datatype Outcome =
    | Throws                  // it raised; a message that is not a function raises a TypeError
    | Returned(value: Value)  // a value that is not the current state object
    | SameState               // the current state object itself (`Object.is` identical)

  /**
   * A source, or the function a message carries: called with the current
   * state (undefined before the first commit). It is a pure function of that
   * state, with no closure state of its own.
   */
  type Evaluator = Option<State> -> Outcome

  /**
   * A dispatched message: what evaluating it produces, and the messages it
   * dispatches re-entrantly while it is evaluated, in the order it dispatches them.
   */
  datatype Message = Message(run: Evaluator, dispatches: seq<Message>)

  /** The engine's state cell and the notifications emitted so far, oldest first. */
  datatype Snapshot = Snapshot(state: Option<State>, emitted: seq<State>)

  /** One step of the evaluation log: a dequeued message, or the source at a registration index. */
  datatype Evaluation = MessageEvaluated | SourceEvaluated(index: nat)

  /** Each notification carries the state committed with it, and the cell holds the latest one. */
  ghost predicate Consistent(s: Snapshot) {
    && (s.state.Some? <==> s.emitted != [])
    && (s.emitted != [] ==> s.state == Some(s.emitted[|s.emitted| - 1]))
  }

  /** The state stored on a commit: `update({}, newState)`, a shallow copy. */
  function Copy(v: Value): State {
    Merged([Some(map[]), AsPart(v)])
  }

  /**
   * The commit rule: a result commits exactly when it is truthy and not the
   * current state object; the committed state is a shallow copy of it, and
   * exactly one notification carrying that state is emitted. A throwing,
   * falsy or identical result leaves state and notifications alone.
   */
  function Apply(s: Snapshot, o: Outcome): (r: Snapshot)
    ensures (r.state != s.state || r.emitted != s.emitted) ==> o.Returned? && Truthy(o.value)
    ensures o.Returned? && Truthy(o.value) ==> r.state.Some? && r.emitted == s.emitted + [r.state.value]
    ensures o.Returned? && o.value.Obj? ==> r.state == Some(o.value.fields)
    ensures o.Returned? && Truthy(o.value) && !o.value.Obj? ==> r.state == Some(map[])
  {
    if o.Returned? && Truthy(o.value) then
      var copy := Copy(o.value);
      MergedPair(Some(map[]), AsPart(o.value));
      assert copy == map[] + Defaulted(AsPart(o.value)) == Defaulted(AsPart(o.value));
      Snapshot(Some(copy), s.emitted + [copy])
    else
      s
  }

  /**
   * One pass over the registered sources, in registration order, each
   * evaluated against the state the previous ones left. Earlier
   * notifications are kept, and each source emits at most one more.
   */
  function RunSources(s: Snapshot, sources: seq<Evaluator>): (r: Snapshot)
    ensures s.emitted <= r.emitted
    ensures |r.emitted| <= |s.emitted| + |sources|
  {
    if sources == [] then s
    else
      var before := RunSources(s, sources[..|sources| - 1]);
      Apply(before, sources[|sources| - 1](before.state))
  }

  /** Running one more source extends a pass by that source's evaluation. */
  lemma RunSourcesStep(s: Snapshot, sources: seq<Evaluator>, i: nat)
    requires i < |sources|
    ensures RunSources(s, sources[..i + 1])
         == Apply(RunSources(s, sources[..i]), sources[i](RunSources(s, sources[..i]).state))
  {
    assert sources[..i + 1][..i] == sources[..i];
  }

  /** How many messages a message stands for: itself and everything it dispatches, transitively. */
  function Size(m: Message): nat {
    1 + QueueSize(m.dispatches)
  }

  function QueueSize(queue: seq<Message>): nat {
    if queue == [] then 0 else Size(queue[0]) + QueueSize(queue[1..])
  }

  lemma {:induction false} QueueSizeAppend(a: seq<Message>, b: seq<Message>)
    ensures QueueSize(a + b) == QueueSize(a) + QueueSize(b)
  {
    if a != [] {
      assert (a + b)[1..] == a[1..] + b;
      QueueSizeAppend(a[1..], b);
    } else {
      assert a + b == b;
    }
  }

  /**
   * Draining a queue: the head message is dequeued and evaluated, the
   * messages it dispatches join the back of the queue, then every source
   * runs; this repeats until the queue is empty.
   */
  function Drain(s: Snapshot, queue: seq<Message>, sources: seq<Evaluator>): (r: Snapshot)
    ensures s.emitted <= r.emitted
    ensures |r.emitted| <= |s.emitted| + QueueSize(queue) * (|sources| + 1)
    decreases QueueSize(queue)
  {
    if queue == [] then s
    else
      var m := queue[0];
      QueueSizeAppend(queue[1..], m.dispatches);
      assert QueueSize(queue) == 1 + QueueSize(m.dispatches) + QueueSize(queue[1..]);
      assert QueueSize(queue) * (|sources| + 1)
          == (|sources| + 1) + QueueSize(queue[1..] + m.dispatches) * (|sources| + 1);
      Drain(RunSources(Apply(s, m.run(s.state)), sources), queue[1..] + m.dispatches, sources)
  }

  /** One turn of the drain: the head's pass, and the queue it leaves, one message shorter in all. */
  lemma DrainStep(s: Snapshot, queue: seq<Message>, sources: seq<Evaluator>)
    requires queue != []
    ensures Drain(s, queue, sources)
         == Drain(RunSources(Apply(s, queue[0].run(s.state)), sources), queue[1..] + queue[0].dispatches, sources)
    ensures QueueSize(queue) == 1 + QueueSize(queue[1..] + queue[0].dispatches)
  {
    QueueSizeAppend(queue[1..], queue[0].dispatches);
  }

  /** The log of the sources' part of a pass: each source once, by registration index, in order. */
  function SourcesLog(count: nat): (r: seq<Evaluation>)
    ensures |r| == count
    ensures forall i :: 0 <= i < count ==> r[i] == SourceEvaluated(i)
  {
    if count == 0 then [] else SourcesLog(count - 1) + [SourceEvaluated(count - 1)]
  }

  /** The log of one pass: the message first, then the sources. */
  function Pass(count: nat): seq<Evaluation> {
    [MessageEvaluated] + SourcesLog(count)
  }

  /** The log of `n` passes over `count` sources. */
  function Passes(n: nat, count: nat): seq<Evaluation> {
    if n == 0 then [] else Passes(n - 1, count) + Pass(count)
  }

  /** A log that has recorded `n` passes records `n + 1` after one more. */
  lemma PassesGrow(prefix: seq<Evaluation>, n: nat, count: nat)
    ensures prefix + Passes(n + 1, count) == (prefix + Passes(n, count)) + Pass(count)
  {
  }

  /** A commit keeps the snapshot consistent and only adds notifications. */
  lemma ApplyConsistent(s: Snapshot, o: Outcome)
    requires Consistent(s)
    ensures Consistent(Apply(s, o))
    ensures s.emitted <= Apply(s, o).emitted
  {
  }

  lemma {:induction false} RunSourcesConsistent(s: Snapshot, sources: seq<Evaluator>)
    requires Consistent(s)
    ensures Consistent(RunSources(s, sources))
    ensures s.emitted <= RunSources(s, sources).emitted
  {
    if sources != [] {
      var before := RunSources(s, sources[..|sources| - 1]);
      RunSourcesConsistent(s, sources[..|sources| - 1]);
      ApplyConsistent(before, sources[|sources| - 1](before.state));
    }
  }

  /**
   * Draining keeps every notification emitted before and leaves the cell
   * holding the state carried by the latest notification.
   */
  lemma {:induction false} DrainConsistent(s: Snapshot, queue: seq<Message>, sources: seq<Evaluator>)
    requires Consistent(s)
    ensures Consistent(Drain(s, queue, sources))
    ensures s.emitted <= Drain(s, queue, sources).emitted
    decreases QueueSize(queue)
  {
    if queue != [] {
      var m := queue[0];
      var next := RunSources(Apply(s, m.run(s.state)), sources);
      ApplyConsistent(s, m.run(s.state));
      RunSourcesConsistent(Apply(s, m.run(s.state)), sources);
      QueueSizeAppend(queue[1..], m.dispatches);
      assert QueueSize(queue) == 1 + QueueSize(m.dispatches) + QueueSize(queue[1..]);
      DrainConsistent(next, queue[1..] + m.dispatches, sources);
    }
  }

  /**
   * Error isolation: a source that throws when its turn comes changes
   * nothing, and the sources after it still run as if it were absent.
   */
  lemma {:induction false} ThrowingSourceIsSkipped(s: Snapshot, before: seq<Evaluator>, failing: Evaluator, after: seq<Evaluator>)
    requires failing(RunSources(s, before).state) == Throws
    ensures RunSources(s, before + [failing] + after) == RunSources(s, before + after)
  {
    var whole := before + [failing] + after;
    var shorter := before + after;
    if after == [] {
      assert whole[..|whole| - 1] == before;
      assert shorter == before;
    } else {
      var init := after[..|after| - 1];
      ThrowingSourceIsSkipped(s, before, failing, init);
      assert whole[..|whole| - 1] == before + [failing] + init;
      assert shorter[..|shorter| - 1] == before + init;
    }
  }

  /**
   * FIFO order: messages that dispatch nothing are processed, with their
   * passes, entirely before anything queued behind them, so dispatching
   * them together or one drain after another ends in the same snapshot.
   */
  lemma {:induction false} DrainSplit(s: Snapshot, first: seq<Message>, second: seq<Message>, sources: seq<Evaluator>)
    requires forall i :: 0 <= i < |first| ==> first[i].dispatches == []
    ensures Drain(s, first + second, sources) == Drain(Drain(s, first, sources), second, sources)
    decreases |first|
  {
    if first == [] {
      assert first + second == second;
    } else {
      var m := first[0];
      var next := RunSources(Apply(s, m.run(s.state)), sources);
      assert (first + second)[0] == m;
      assert (first + second)[1..] + m.dispatches == first[1..] + second;
      assert first[1..] + m.dispatches == first[1..];
      DrainSplit(next, first[1..], second, sources);
    }
  }

  /**
   * Without the precondition of `DrainSplit` the split does not hold: a
   * message that dispatches pushes its dispatch behind whatever was queued
   * with it. Here `first` returns the state itself and dispatches `setOne`,
   * which sets `x` to 1, and `second` sets `x` to 2. With no sources, queued
   * together they end with `x == 1`, one drain after another with `x == 2`.
   */
  lemma DrainSplitNeedsNoDispatches(first: Message, setOne: Message, second: Message)
    requires first.dispatches == [setOne] && setOne.dispatches == [] && second.dispatches == []
    requires first.run(Some(map[])) == SameState
    requires forall s :: setOne.run(s) == Returned(Obj(map["x" := Num(1)]))
    requires forall s :: second.run(s) == Returned(Obj(map["x" := Num(2)]))
    ensures Drain(Snapshot(Some(map[]), [map[]]), [first, second], []).state == Some(map["x" := Num(1)])
    ensures Drain(Drain(Snapshot(Some(map[]), [map[]]), [first], []), [second], []).state == Some(map["x" := Num(2)])
  {
    var s := Snapshot(Some(map[]), [map[]]);
    var one := Apply(s, Returned(Obj(map["x" := Num(1)])));
    var two := Apply(s, Returned(Obj(map["x" := Num(2)])));
    assert Apply(s, SameState) == s;
    // together: `first` changes nothing and queues `setOne` behind `second`
    DrainStep(s, [first, second], []);
    assert [first, second][1..] + first.dispatches == [second, setOne];
    DrainStep(s, [second, setOne], []);
    assert [second, setOne][1..] + second.dispatches == [setOne];
    DrainStep(two, [setOne], []);
    assert [setOne][1..] + setOne.dispatches == [];
    // one after another: `setOne` runs before `second` is queued
    DrainStep(s, [first], []);
    assert [first][1..] + first.dispatches == [setOne];
    DrainStep(s, [setOne], []);
    DrainStep(one, [second], []);
    assert [second][1..] + second.dispatches == [];
  }

  /**
   * A message whose own evaluation throws still triggers a full pass over
   * the sources, and the messages it dispatched before throwing stay queued.
   */
  lemma ThrowingMessageStillRunsSources(s: Snapshot, m: Message, rest: seq<Message>, sources: seq<Evaluator>)
    requires m.run(s.state) == Throws
    ensures Drain(s, [m] + rest, sources) == Drain(RunSources(s, sources), rest + m.dispatches, sources)
  {
    assert ([m] + rest)[0] == m && ([m] + rest)[1..] == rest;
  }
}
