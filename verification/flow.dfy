/**
 * The engine `createFlow` builds: one state cell, a re-entrancy flag and a
 * FIFO queue of messages, drained by a loop that evaluates each message and
 * then every source. The ghost `emitted` records the 'new state'
 * notifications, the ghost `log` every evaluation in the order it happened.
 */
module FlowEngine {
  import opened Values
  import opened Merge
  import opened FlowSpec

  /**
   * The message that seeds the state: `() => ({})`. Whatever the snapshot,
   * evaluating it commits the empty state and emits it once, and it
   * dispatches nothing.
   */
  function SetInitialState(): (m: Message)
    ensures m.dispatches == []
    ensures forall s: Snapshot :: Apply(s, m.run(s.state)) == Snapshot(Some(map[]), s.emitted + [map[]])
  {
    Message(_ => Returned(Obj(map[])), [])
  }

  class Flow {
    const sources: seq<Evaluator>
    var state: Option<State>
    var updating: bool
    var queue: seq<Message>
    ghost var emitted: seq<State>
    ghost var log: seq<Evaluation>

    /** Notifications agree with the cell, and outside a drain nothing is queued. */
    ghost predicate Valid()
      reads this
    {
      Consistent(Current()) && (!updating ==> queue == [])
    }

    ghost function Current(): Snapshot
      reads this
    {
      Snapshot(state, emitted)
    }

    /** `createFlow(sources)` as in src/index.js: the state stays undefined until `start`. */
    constructor (sources: seq<Evaluator>)
      ensures Valid() && !updating && this.sources == sources
      ensures state == None && emitted == [] && log == []
    {
      this.sources := sources;
      state := None;
      updating := false;
      queue := [];
      emitted := [];
      log := [];
    }

    /** `createFlow(sources)` as in index.js: construction itself drains the seeding message. */
    constructor Seeded(sources: seq<Evaluator>)
      ensures Valid() && !updating && this.sources == sources
      ensures Current() == Drain(Snapshot(None, []), [SetInitialState()], sources)
      ensures log == Passes(1, |sources|)
    {
      this.sources := sources;
      state := None;
      updating := false;
      queue := [];
      emitted := [];
      log := [];
      new;
      OnNewMessage(SetInitialState());
    }

    /**
     * Enqueue a message. Inside a drain that is all it does; otherwise it
     * drains the queue: each dequeued message is evaluated first, then every
     * source in registration order, until the queue is empty.
     */
    method OnNewMessage(message: Message)
      requires Valid()
      modifies this
      decreases if updating then 0 else 4
      ensures Valid() && updating == old(updating)
      ensures old(updating) ==> queue == old(queue) + [message] && Current() == old(Current()) && log == old(log)
      ensures !old(updating) ==> queue == [] && Current() == Drain(old(Current()), [message], sources)
      ensures !old(updating) ==> log == old(log) + Passes(Size(message), |sources|)
    {
      queue := queue + [message];
      if updating {
        return;
      }
      updating := true;
      ghost var done := 0;
      ghost var target := Drain(old(Current()), [message], sources);
      assert QueueSize([message]) == Size(message) by {
        assert [message][1..] == [];
      }
      while queue != []
        invariant updating && Consistent(Current())
        invariant Drain(Current(), queue, sources) == target
        invariant done + QueueSize(queue) == Size(message)
        invariant log == old(log) + Passes(done, |sources|)
        decreases QueueSize(queue)
      {
        DrainStep(Current(), queue, sources);
        EvaluateNext();
        PassesGrow(old(log), done, |sources|);
        done := done + 1;
      }
      updating := false;
    }

    /**
     * One turn of the drain loop: dequeue the head message, evaluate it, then
     * evaluate every source in registration order.
     */
    method EvaluateNext()
      requires Valid() && updating && queue != []
      modifies this
      decreases 3
      ensures Valid() && updating
      ensures queue == old(queue)[1..] + old(queue)[0].dispatches
      ensures Current() == RunSources(Apply(old(Current()), old(queue)[0].run(old(state))), sources)
      ensures log == old(log) + Pass(|sources|)
    {
      var message := queue[0];
      queue := queue[1..];
      TryEvaluation(message.run, message.dispatches, MessageEvaluated);
      ghost var evaluated := Current();
      ghost var pending := queue;
      ghost var passLog := log;
      for i := 0 to |sources|
        invariant Valid() && updating && queue == pending
        invariant Current() == RunSources(evaluated, sources[..i])
        invariant log == passLog + SourcesLog(i)
      {
        RunSourcesStep(evaluated, sources, i);
        TryEvaluation(sources[i], [], SourceEvaluated(i));
      }
      assert sources[..|sources|] == sources;
    }

    /**
     * Evaluate a source or a message against the current state. The messages
     * it dispatches are enqueued without draining; an exception is caught and
     * commits nothing; any other result goes through the commit rule.
     */
    method TryEvaluation(run: Evaluator, dispatches: seq<Message>, ghost entry: Evaluation)
      requires Valid() && updating
      modifies this
      decreases 2
      ensures Valid() && updating
      ensures queue == old(queue) + dispatches
      ensures Current() == Apply(old(Current()), run(old(state)))
      ensures log == old(log) + [entry]
    {
      var result := run(state);
      for j := 0 to |dispatches|
        invariant Valid() && updating
        invariant queue == old(queue) + dispatches[..j]
        invariant Current() == old(Current()) && log == old(log)
      {
        DoUpdate(dispatches[j]);
        assert dispatches[..j + 1] == dispatches[..j] + [dispatches[j]];
      }
      if !result.Throws? {
        EvaluateAndReplaceState(result);
      }
      log := log + [entry];
    }

    /** Commit a result that is truthy and not the current state object, and emit it. */
    method EvaluateAndReplaceState(newState: Outcome)
      requires Valid() && !newState.Throws?
      modifies this`state, this`emitted
      ensures Valid()
      ensures Current() == Apply(old(Current()), newState)
    {
      var truthy := match newState
        case Returned(v) => Truthy(v)
        case _ => state.Some?;
      if truthy && !newState.SameState? {
        var copy := Update([Some(map[]), AsPart(newState.value)]);
        state := Some(copy);
        emitted := emitted + [copy];
      }
      ApplyConsistent(old(Current()), newState);
    }

    /** The dispatch function handed to sources and callers. */
    method DoUpdate(updateFunction: Message)
      requires Valid()
      modifies this
      decreases if updating then 1 else 5
      ensures Valid() && updating == old(updating)
      ensures old(updating) ==> queue == old(queue) + [updateFunction] && Current() == old(Current()) && log == old(log)
      ensures !old(updating) ==> queue == [] && Current() == Drain(old(Current()), [updateFunction], sources)
      ensures !old(updating) ==> log == old(log) + Passes(Size(updateFunction), |sources|)
    {
      OnNewMessage(updateFunction);
    }

    /** The current state: the one the latest notification carried, undefined before any. */
    method GetState() returns (s: Option<State>)
      requires Valid()
      ensures s == state
      ensures s == if emitted == [] then None else Some(emitted[|emitted| - 1])
    {
      s := state;
    }

    /** `start()` (src/index.js): dispatch the seeding message through the normal loop. */
    method Start()
      requires Valid() && !updating
      modifies this
      ensures Valid() && !updating
      ensures Current() == Drain(old(Current()), [SetInitialState()], sources)
      ensures log == old(log) + Passes(1, |sources|)
    {
      OnNewMessage(SetInitialState());
    }
  }

  /** With no sources, seeding leaves the state `{}` and emits it once, whatever came before. */
  lemma SeedingWithoutSources(s: Snapshot)
    ensures Drain(s, [SetInitialState()], []) == Snapshot(Some(map[]), s.emitted + [map[]])
  {
    var m := SetInitialState();
    var after := Apply(s, Returned(Obj(map[])));
    assert after == Snapshot(Some(map[]), s.emitted + [map[]]);
    assert [m][1..] + m.dispatches == [];
  }
}
