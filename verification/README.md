# fluent: a verified model of the state engine

This project models the core of *fluent*, a minimal unidirectional
state-management engine written in JavaScript, and proves properties of the
model in Dafny. The engine has one state cell. It changes only through a FIFO
queue of messages. Draining the queue evaluates each message and then every
registered source against the current state, commits truthy results as
shallow copies, and emits one "new state" notification per commit. Around
the engine sit a shallow merge, `update`, and helpers that tag asynchronous
operations as loading, success or errored under `state.loading[namespace]`.

Files and modules:

- `values.dfy` (`Values`): JavaScript values, with truthiness and what a value contributes to `Object.assign`.
- `merge.dfy` (`Merge`): `update`. `Merged` is its specification. `Update` is the loop the source runs, proved equal to it.
- `flow_spec.dfy` (`FlowSpec`): one evaluation's outcome, the commit rule (`Apply`), one pass over the sources (`RunSources`) and the drain of a queue (`Drain`), with their lemmas.
- `flow.dfy` (`FlowEngine`): the class `Flow` that `createFlow` builds. Its fields are `state`, `updating` and `queue`. Two ghost fields record the notifications (`emitted`) and every evaluation in order (`log`). Each method is proved against `FlowSpec`.
- `lifecycle.dfy` (`Lifecycle`): `contexts`, `fallbackTimeToNow`, `mutateToLoading`, and the update functions and messages that `mutateToFailure` and `mutateToSuccess` dispatch.
- `constants_lifecycle.dfy` (`ConstantsLifecycle`): constants.js's `mutateToSuccess`, which differs from src/index.js.

Modelling choices:

- A message, and likewise a source, is a function of the current state, which is undefined before the first commit. It is paired with the messages it dispatches while it is evaluated. A message that is not a function is one whose evaluation throws.
- The outcome of an evaluation is one of three things. `Throws` means it raised an exception. `SameState` means it returned the current state object, which is `Object.is`-identical. `Returned(v)` means it returned any other value.
- Re-entrancy is modelled as the source has it. `TryEvaluation` calls `DoUpdate`, which calls `OnNewMessage` while `updating` is true, so those calls only enqueue.
- The drain loop's body is a separate method, `EvaluateNext`.
- constants.js repeats `update`, `contexts`, `mutateToLoading` and `mutateToFailure` word for word. The same members model both copies, and the table below cites each copy on some of their rows.
- index.js builds the same engine with two differences. Its `createFlow` seeds the state itself, which is the `Seeded` constructor of the same class. It also returns only `getState`, `doUpdate`, `subscribe` and `unsubscribe`, with no `start` (index.js:71-76). The class's `Start` therefore belongs to the src/index.js engine only.
- `update` never changes its arguments here. They are immutable values, and only a local copy of the list is rewritten.
- The wall clock is an explicit `wallClock` parameter. An injected clock is given as its reading, `Option<int>`.

Behaviour a reader might not expect, which the model follows:

- One might expect a commit to merge the result into the existing state. The code replaces the state with a shallow copy of the result, `update({}, newState)` (src/index.js:133). `FlowSpec.Apply` states this.
- Before `start()`, the state is undefined. An update function that reads `viewModel.loading` then throws, and the throw is caught. The lifecycle messages model that throw.
- One might expect dispatching `[m1, m2]` in one drain to end like draining `m1` and then `m2`. It does when the messages in front dispatch nothing (`FlowSpec.DrainSplit`). Without that it can fail, because a message's dispatches join the back of the queue, behind what was queued with it. `FlowSpec.DrainSplitNeedsNoDispatches` gives an input where it fails.

## Model

| member | source | states |
|---|---|---|
| `Merge.Merged` | src/index.js:25-34 | every key of every truthy argument is a key of the merged result |
| `Merge.MergedKeyHasSource` | constants.js:23-32 | every key of the result comes from some truthy argument, so the keys are exactly the union of the truthy arguments' keys |
| `Merge.MergedLastWins` | src/index.js:32-33 | a key takes the value it has in the last truthy argument that holds it (later arguments override earlier ones) |
| `Merge.MergedSkipsFalsy` | src/index.js:27-31 | a falsy argument, anywhere in the list, contributes nothing |
| `Merge.MergedPair` | constants.js:30-31 | two arguments merge as a right-biased union, a falsy one counting as `{}` |
| `Merge.Update` | src/index.js:25-34 | the in-place loop (default falsy entries, put a fresh `{}` in front, assign left to right) returns exactly the specified merge |
| `FlowSpec.RunSources` | src/index.js:114-116 | a pass over the sources keeps earlier notifications and adds at most one per source; `ThrowingSourceIsSkipped` and `SourcesLog` state the order and error isolation |
| `FlowSpec.Drain` | src/index.js:110-117 | draining keeps earlier notifications and adds at most `|sources| + 1` of them for each message drained, counting dispatched ones; `DrainStep` states one turn and `DrainConsistent` that the cell matches the last notification |
| `FlowSpec.Apply` | src/index.js:131-137 | commit rule: state or notifications change only for a truthy, non-identical result; the new state is a shallow copy of it (an object's own entries, `{}` for a truthy primitive), and exactly one notification carrying it is appended |
| `FlowSpec.DrainStep` | src/index.js:110-117 | one turn of the drain: the head message is evaluated, then the sources, and what it dispatched joins the back of the queue; the pending work shrinks by one message |
| `FlowSpec.SourcesLog` | src/index.js:114-116 | a pass evaluates every source exactly once, in registration order |
| `FlowSpec.DrainConsistent` | index.js:47-53 | across a whole drain, earlier notifications are kept and the state cell holds the state carried by the latest notification |
| `FlowSpec.ThrowingSourceIsSkipped` | src/index.js:122-129 | a source that throws commits nothing, and the sources after it run as if it were absent |
| `FlowSpec.ThrowingMessageStillRunsSources` | index.js:38-45 | a message whose evaluation throws still gets its full pass over the sources, and its dispatches stay queued |
| `FlowSpec.DrainSplit` | src/index.js:102-120 | FIFO: messages that dispatch nothing are processed with their passes before anything queued behind them, so dispatching `[m1, m2]` together or one drain after another ends in the same state and notifications |
| `FlowSpec.DrainSplitNeedsNoDispatches` | src/index.js:110-117 | without the no-dispatch condition of `DrainSplit` the split can fail: for an `m1` that returns the state and dispatches a setter of `x` to 1, and an `m2` that sets `x` to 2, with no sources and from `{}`, queuing `[m1, m2]` together ends with `x` = 1 while draining `m1` and then `m2` ends with `x` = 2 |
| `FlowEngine.SetInitialState` | src/index.js:100 | the seeding message dispatches nothing, and from any state it commits `{}` and emits it once |
| `FlowEngine.Flow.constructor` | src/index.js:93-100 | a new engine has an undefined state, no notifications and an empty queue |
| `FlowEngine.Flow.Seeded` | index.js:8-16 | construction alone drains the seeding message `() => ({})` with one pass of the sources |
| `FlowEngine.Flow.OnNewMessage` | src/index.js:102-120 | inside a drain it only appends the message to the queue; otherwise it drains until the queue is empty, ending with `updating` false, the snapshot given by `Drain`, and one pass (message first, then each source in order) logged per processed message, dispatched ones included |
| `FlowEngine.Flow.EvaluateNext` | index.js:26-33 | one loop turn: dequeue the head, evaluate it, then each source against the state the previous one left |
| `FlowEngine.Flow.TryEvaluation` | src/index.js:122-129 | an evaluation's dispatches are only enqueued; a throw commits nothing; any other result goes through the commit rule |
| `FlowEngine.Flow.EvaluateAndReplaceState` | src/index.js:131-137 | stores `update({}, newState)` and emits it only for a truthy, non-identical result |
| `FlowEngine.Flow.DoUpdate` | src/index.js:139-141 | dispatching behaves exactly as `onNewMessage` |
| `FlowEngine.Flow.GetState` | index.js:59-61 | returns the state carried by the most recent notification (undefined before any) and changes nothing |
| `FlowEngine.Flow.Start` | src/index.js:155-157 | `start()` drains the seeding message `() => ({})` through the normal loop |
| `FlowEngine.SeedingWithoutSources` | src/index.js:100 | with no sources, seeding leaves the state `{}` and emits it once, whatever the state was before |
| `Lifecycle.FallbackTimeToNow` | src/index.js:9 | the time is the injected clock's reading if a clock is given, otherwise the wall clock; `ContextRoundTrip` states it through the context's `time` |
| `Lifecycle.Context` | src/index.js:15-21 | builds `{type, time, kash}`; `ContextRoundTrip` and `ReadContextExact` state that it reads back exactly |
| `Lifecycle.ContextRoundTrip` | src/index.js:9-23 | a context reads back as `{type: name, time: clock reading or wall clock, kash: payload}`, and its type is one of success, loading, errored |
| `Lifecycle.ReadContextExact` | constants.js:11-21 | any value that reads as a context is exactly the context built from what was read |
| `Lifecycle.MakeContexts` | constants.js:11-13 | the `contexts` table has exactly the three status names, each building contexts tagged with its own name |
| `Lifecycle.MutateToLoading` | src/index.js:36-43 | sets `loading[namespace]` to a loading context with undefined payload; other loading entries and all other keys are kept; a missing or non-object `loading` counts as `{}` |
| `Lifecycle.FailureUpdate` | src/index.js:45-56 | sets `loading[namespace]` to an errored context carrying the error, keeping the other loading entries; every top-level key other than `loading` is kept, which includes `state[namespace]` unless the namespace is "loading" |
| `Lifecycle.SuccessUpdate` | src/index.js:58-70 | sets `state[namespace]` to the result and `loading[namespace]` to a success context carrying it, keeping all else; for the namespace "loading" the result replaces the loading slot |
| `Lifecycle.FailureMessage` | src/index.js:47-53 | the update function the failure callback dispatches; `FailureDispatched` states what draining it does |
| `Lifecycle.SuccessMessage` | src/index.js:60-67 | the update function the success callback dispatches; `SuccessDispatched` states what draining it does |
| `Lifecycle.FailureDispatched` | constants.js:43-54 | the one message the failure callback dispatches commits the failure update once, followed by a pass of the sources; before the first commit it throws and only the sources run |
| `Lifecycle.SuccessDispatched` | src/index.js:59-69 | the same for the success callback's message |
| `Lifecycle.LoadingFromEmpty` | constants.js:34-41 | on the empty state, loading yields `{loading: {[namespace]: {type: 'loading', time, kash: undefined}}}` |
| `ConstantsLifecycle.SuccessUpdateAsWritten` | constants.js:58-64 | constants.js's success update as written; `SuccessAsWrittenIsFailure` states what it does |
| `ConstantsLifecycle.SuccessMessageAsWritten` | constants.js:57-65 | the message constants.js's success callback dispatches; `SuccessAsWrittenDispatched` states what draining it does |
| `ConstantsLifecycle.SuccessAsWrittenIsFailure` | constants.js:56-67 | constants.js's success update is the failure update with the result as its error: tagged errored, `state[namespace]` left alone |
| `ConstantsLifecycle.SuccessAsWrittenDispatched` | constants.js:56-67 | draining the message constants.js's success callback dispatches commits the failure update: the namespace is tagged errored and its state slot is left alone; before the first commit it throws and only the sources run |
| `ConstantsLifecycle.SuccessAsWrittenLosesResult` | constants.js:57-66 | on namespace "users", result 1 and the empty state, constants.js leaves `users` unset and tags it errored, while src/index.js stores 1 and tags success |

## Findings

| source | as written | input that shows it | evidently intended | confidence | as-written member | corrected member |
|---|---|---|---|---|---|---|
| constants.js:56-67 | `mutateToSuccess` dispatches the failure update: `loading[namespace]` gets an errored context whose payload is the result, and `state[namespace]` is never set | namespace "users", result 1, state `{}` | a success context and `state[namespace] = result`, as src/index.js:58-70 does | high, not executed | `ConstantsLifecycle.SuccessAsWrittenLosesResult` | `Lifecycle.SuccessUpdate` |

## Left out

- `fetch`, `simpleFetch`, `turnResponseIntoJson`, `configureSimpleFetch` and `JSON_HEADER` (src/index.js:72-91, constants.js:69-88) are left out. They are asynchronous network I/O. Their effect on state goes through the three mutators, which are modelled. As written, `configureSimpleFetch` computes `mutateToLoading(namespace, doUpdate)` once, when it is configured (src/index.js:82). That gives a plain object, so each later call `switchToLoad(null)` (src/index.js:89) throws a TypeError. This is not modelled.
- `subscribe`, `unsubscribe` and the EventEmitter are left out. The ghost `emitted` log records one notification per commit. `unsubscribe` passes the listener as the event name to `events.off`, so its effect depends on the events library.
- Listeners are not modelled, and they run inside the drain. `events.emit` calls them synchronously within `tryEvaluation`'s `try` (src/index.js:123-135, index.js:39-51), after `state` has been replaced. A listener that throws keeps the listeners after it from receiving that notification, and its throw is caught as an evaluation error. A listener that calls `doUpdate` only queues its message, which is drained in the same loop. The model captures neither.
- The engine shares its state object by reference. Sources, messages and `getState` callers receive the cell's own object (src/index.js:124, :144). Changing that object in place changes the state with no commit and no notification, and returning it afterwards is `SameState`, so nothing is emitted. The model's states are immutable values, so such changes are outside it.
- `console.log` and `console.error` are left out. They have no effect on state.
- `render` (index.js:79-83) and the `SECONDS` constant are left out. They are UI code and an unused constant.
- The wall clock is an explicit parameter, not a read of `new Date().getTime()`. An injected clock `now` is given as the reading `now()` would return.
- FlowEngine.Flow.OnNewMessage: a message's dispatches form a finite tree, because `Message` is an inductive datatype. A message that re-dispatches itself every time it runs, such as `const ping = (s, d) => { d(ping) }`, makes the code's `while (updateQueue.length)` loop (src/index.js:110, index.js:26) run forever. Such a message is outside the model, so the termination of `Drain` and `OnNewMessage` holds of the model only.
- The sources are fixed when the engine is built (`const sources`). `createFlow` keeps the caller's array by reference, and `for (var source of sources)` (src/index.js:114, index.js:30) walks the live array, so a source pushed after construction or during a pass is evaluated in the code but not in the model.
- `FlowEngine.Flow.Start` also exists on a `Seeded` flow. index.js's flow exposes no `start`, and the model does not stop its callers from using it.
- ThrowingSourceIsSkipped: sources are modelled as pure functions of the state, with no closure state and no clock reads, so a source that throws can be removed from the pass. In JavaScript a source may change shared variables before it throws, and then the sources after it can return something else.
- Sources do not dispatch messages while they are evaluated. In the model, only messages dispatch, and what each message dispatches is fixed rather than chosen from the state it sees. Without this restriction a source that dispatches on every pass keeps the engine's loop running forever, and the drain's termination could not be stated.
- JavaScript numbers are modelled as integers: no fractions and no NaN. Arrays and functions are not modelled as state values.
- When a non-empty string is given to `update`, `Object.assign` copies its characters as indexed keys. The model treats such a string as contributing no keys.
- Object identity is abstracted. A returned value is a fresh object (`Returned`) unless it is the current state object itself (`SameState`). That the committed copy is a new object, distinct from the result, is not expressible on values.
