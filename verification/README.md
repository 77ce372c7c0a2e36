# DogePromise in Dafny

This project models the core of DogePromise, a TypeScript promise library
written to the Promises/A+ standard. The core has three parts:

- the promise itself (`doge_promise.ts`): the PENDING / FULFILLED / REJECTED
  life cycle, `changeState`, `resolve`, `reject`, the constructor and `then`;
- the resolve-value handler chain (`resolve_value_handler.ts`): the DogePromise
  handler, the thenable handler with its `isAlreadyResolved` latch, and the
  default handler;
- the combinators (`enhance_method.ts`): `resolve`, `reject`, `all` and `race`.

There are two layers:

- **Specification** (modules `Values`, `Handlers`, `Semantics`, `Combinators`,
  `Scheduler`). These are functions over a `Machine`, which has three parts:
  - the promise table: each promise's `state`, `value`, `reason` and
    `onPromiseResolvedListeners`;
  - a FIFO queue of the callbacks handed to `setTimeout`;
  - the table of thenable latches.

  Every function keeps the machine well formed (`Wf`):
  - every id it holds exists;
  - `value` is set exactly when the promise is FULFILLED, and `reason` exactly
    when it is REJECTED;
  - every pending `checkResolve` step of `all` holds the values of the inputs
    before it, in input order.

  Every function also only lets the machine evolve (`Evolves`): a settled
  promise never changes again and a closed latch never reopens. Every
  function but `Step` and `Drain` also only appends to the queue (`Grows`);
  those two take tasks off its head.
- **Implementation** (module `Runtime`). The class `World` holds the same
  state in fields and updates it in place, in the order the source does:
  - a `for` loop over the listeners in `changeState`;
  - a `for` loop with `break` over the handler chain in `resolve`;
  - a loop over the inputs in `race`.

  Each method is proved to leave exactly the state that a specification
  function computes: the function of the same name where there is one.
  `HandleSettled` is proved against `Semantics.Reactions`, and
  `CallbackIfCurrentStateIs` states directly the one task it schedules.

User code is modelled as data:

- A callback given to `then` either returns a fixed value or throws. The
  closures the library passes itself are modelled exactly: the forwarders of
  the DogePromise handler and of `race`, the latched adapters of the thenable
  handler, and the `checkResolve` step of `all`.
- An initializer or a thenable's `then` is a script of actions: call
  `resolve`, call `reject`, throw, or schedule more actions for later.
- Reading a candidate's `then` either throws, gives something that is not a
  function, or gives such a script.

The module files are:

- `values.dfy`
- `handlers.dfy`
- `semantics.dfy`
- `combinators.dfy`
- `scheduler.dfy`
- `runtime.dfy`
- the properties: `handler_properties.dfy`, `core_properties.dfy` and
  `combinator_properties.dfy`.

Four points where the code may surprise a reader, all modelled as written:

- **The constructor's `resolve` and `reject` are not latched.** The
  constructor passes the plain methods to the initializer
  (doge_promise.ts:35). Once `resolve` has handed the promise over to a
  pending promise, a second `resolve` still settles it. The lemma
  `CoreProperties.ConstructorResolveNotLatched` shows this. Inside the
  library no capability is called twice in a way where this matters.
- **The thenable handler accepts primitives.** Its `canResolve` holds for
  every value except null and undefined (resolve_value_handler.ts:59-61), and
  it is `tryToResolve` that declines primitives.
- **Listeners are never cleared.** `changeState` does not clear the listener
  list. Nothing reads the list after settlement, because `then` on a settled
  promise schedules its reaction at once.
- **`resolve` has no self-resolution check.** Only the deferred reaction of
  `then` compares a callback's result with the derived promise
  (doge_promise.ts:102-105). A step the initializer defers with
  `setTimeout`, which can see the finished promise, may resolve the promise
  with itself. The DogePromise handler then subscribes the promise to its
  own settlement, so it stays PENDING. The lemma
  `CoreProperties.SelfResolutionWaitsOnItself` shows this.

## Model

| member | source | states |
|---|---|---|
| `Semantics.ChangeState` | doge_promise.ts:47-55 | Succeeds iff the promise is PENDING and the target is not PENDING; otherwise the machine is unchanged. On success: the new state is the target; the payload goes to `value` when FULFILLED and to `reason` when REJECTED; the listeners are kept; one `Dispatch` entry per listener is appended to the queue; every other promise is untouched; the machine stays well formed. |
| `Semantics.Reactions` | doge_promise.ts:81-128 | A listener of a PENDING source yields no task. A listener of a settled source yields exactly one deferred task, for the branch that matches the state, carrying that branch's callback and payload. |
| `Semantics.Reject` | doge_promise.ts:73-75 | A PENDING promise becomes REJECTED with the reason; a settled promise leaves the machine unchanged. |
| `Semantics.Then` | doge_promise.ts:77-139 | Creates the derived promise as a new PENDING record; the callbacks may refer to it, as in `p2 = p.then(() => p2)`. A PENDING source gains exactly one listener and no task is queued. A settled source is unchanged and its reaction is queued at once. No other promise changes. |
| `Semantics.Resolve` | doge_promise.ts:57-71 | Keeps the machine well formed; settled promises, closed latches and queued tasks are preserved. |
| `Semantics.ResolveFrom` | doge_promise.ts:58-70 | The handler loop over `Chain` (the `resolveValueHandlerChain` constant of doge_promise.ts:15-19) from a given position keeps the machine well formed and evolving. |
| `Semantics.TryToResolve` | resolve_value_handler.ts:43-109 | Returns true iff the handler is not the thenable handler or the candidate is a thenable it does not decline. When it returns false the machine is unchanged. |
| `Semantics.NewLatch` | resolve_value_handler.ts:63 | Adds one open latch and changes nothing else. |
| `Semantics.Call` | resolve_value_handler.ts:64-68 | Through a closed latch the call changes nothing. Otherwise it closes the latch, and the latch stays closed afterwards. |
| `Semantics.Run` | doge_promise.ts:34-38 | User code's outcome is the error of its first `Throw`, if it has one. The machine stays well formed. |
| `Semantics.Alloc` | doge_promise.ts:32-33 | Appends one PENDING record with no listeners; the queue and the latches are unchanged. |
| `Semantics.Construct` | doge_promise.ts:26-39 | Returns the new promise's index and keeps the machine well formed. Steps the initializer defers may refer to the promise being built. |
| `Semantics.Dispatch` | doge_promise.ts:53 | A settled record yields one task per listener; a pending one yields none. |
| `Semantics.SettledRec` | doge_promise.ts:49-51 | The record takes the new state and keeps its listeners. The payload goes to `value` when FULFILLED and to `reason` otherwise, and the other field is untouched. Settling a consistent PENDING record gives a consistent record. |
| `Handlers.Owner` | resolve_value_handler.ts:40-109 | The chosen handler can resolve the candidate and never declines it. The DogePromise handler owns exactly the DogePromises. The thenable handler owns exactly the objects whose `then` is a function or throws. The default handler owns exactly undefined, null, primitives, arrays, the cycle TypeError and objects whose `then` is not a function. |
| `Handlers.CanResolve` | resolve_value_handler.ts:40-105 | Every handler accepts a DogePromise. Only the default handler accepts undefined and null. |
| `Handlers.IsObjectOrFunction` | resolve_value_handler.ts:71-72 | DogePromises, objects, arrays, the cycle TypeError and null have `typeof` "object" or "function". Undefined and primitives do not. |
| `Handlers.ThenableDeclines` | resolve_value_handler.ts:71-79 | The thenable handler never declines a DogePromise. It declines an object exactly when its `then` is not a function. It declines undefined, primitives, arrays and the cycle TypeError. |
| `Combinators.ResolvedWith` | enhance_method.ts:3-7 | Returns a new promise and keeps the machine well formed. |
| `Combinators.RejectedWith` | enhance_method.ts:9-13 | Returns a new promise and keeps the machine well formed. |
| `Combinators.CheckResolve` | enhance_method.ts:33-43 | Keeps well formed a machine where the collected values are those of the inputs before the index. |
| `Combinators.CheckRejectStep` | enhance_method.ts:21-28 | Keeps the machine well formed. |
| `Combinators.All` | enhance_method.ts:15-45 | Returns a new promise and keeps the machine well formed. |
| `Combinators.RaceTasks` | enhance_method.ts:49-60 | Schedules one task per input. |
| `Combinators.Race` | enhance_method.ts:47-62 | Returns a new promise and keeps the machine well formed. |
| `Combinators.SubscribeStep` | enhance_method.ts:50-59 | Keeps the machine well formed. |
| `Scheduler.Invoke` | doge_promise.ts:99-101 | The callback's completion carries a value that refers only to existing promises. |
| `Scheduler.Deferred` | doge_promise.ts:91-110 | Keeps the machine well formed and evolving. |
| `Scheduler.RunTask` | doge_promise.ts:91 | Keeps the machine well formed and evolving. |
| `Scheduler.Step` | doge_promise.ts:91 | Removes the oldest task; the tasks behind it keep their order at the head of the new queue. |
| `Scheduler.Drain` | doge_promise.ts:91 | Any number of turns of the event loop keeps the machine well formed and evolving; with no task left, nothing happens. |
| `HandlerProperties.ResolveUsesOwner` | doge_promise.ts:57-71 | The chain loop ends with exactly what the first handler that can resolve the candidate, and does not decline it, does. A declining handler passes the candidate on. |
| `HandlerProperties.ResolvePlain` | resolve_value_handler.ts:106-109 | The default handler fulfils a pending promise with the candidate itself, unchanged. |
| `HandlerProperties.GetterThrowsRejects` | resolve_value_handler.ts:76-97 | When reading `then` throws, the promise is rejected with the thrown value. |
| `HandlerProperties.RunInert` | resolve_value_handler.ts:64-65 | Adapter calls through a closed latch, and code that calls nothing before it throws, change no promise and no latch. |
| `HandlerProperties.RunLaterPrefix` | resolve_value_handler.ts:82-90 | Steps that user code defers with `setTimeout` before anything else change no promise and no latch; the rest of the code runs on the machine they leave. |
| `HandlerProperties.RunFirstCallWins` | resolve_value_handler.ts:63-68 | Code that holds adapters behind an open latch, defers any number of steps and then calls an adapter ends with the promises and latches exactly as that first adapter call leaves them. Later calls are ignored. This covers a thenable's `then` and, since a `RunLater` task runs the same way, the steps it defers. |
| `HandlerProperties.ThenableFirstCallWins` | resolve_value_handler.ts:62-98 | When a thenable's first adapter call, after any deferred steps, is resolve or reject, every promise ends exactly as that one call leaves it. Later calls and a later throw are ignored. |
| `HandlerProperties.ThenableCallbackFulfils` | resolve_value_handler.ts:81-91 | A thenable whose first adapter call, after any deferred steps, is its resolve adapter with a plain value fulfils the promise with that value. |
| `HandlerProperties.ThenableThrowRejects` | resolve_value_handler.ts:92-96 | When `then` throws before calling an adapter, the promise is rejected with what it threw. |
| `CoreProperties.DispatchInOrder` | doge_promise.ts:53 | Settlement schedules exactly one task per listener, in registration order, each for the branch that matches the state. |
| `CoreProperties.SettlementSchedulesListeners` | doge_promise.ts:47-55 | A successful `changeState` keeps the tasks already queued. After them it queues one task per listener, in order, each carrying the new payload to the matching callback. |
| `CoreProperties.SettledIsFinal` | doge_promise.ts:48 | However many turns the event loop runs, a settled promise keeps its state, payloads and listeners. |
| `CoreProperties.ConstructThrowRejects` | doge_promise.ts:34-38 | An initializer that throws before calling either capability leaves the new promise rejected with what it threw. |
| `CoreProperties.ConstructFirstRejectWins` | doge_promise.ts:34-38 | An initializer whose first capability call, after any deferred steps, is `reject(x)` leaves the promise rejected with `x`, whatever it does afterwards, a throw included. |
| `CoreProperties.ConstructorResolveNotLatched` | doge_promise.ts:35 | After `resolve` hands the promise over to a pending promise, a second `resolve` with a plain value still fulfils it. |
| `CoreProperties.SelfResolutionWaitsOnItself` | doge_promise.ts:57-71 | A step the initializer defers with `setTimeout`, resolving the promise with itself, leaves it PENDING once it has run. The promise's only listener is its own forwarder pair, and nothing more is queued. |
| `CoreProperties.DeferredPenetratesRejection` | doge_promise.ts:93-96 | A rejection reaches the derived promise unchanged when `onRejected` is not a function. |
| `CoreProperties.DeferredPenetratesValue` | doge_promise.ts:93-96 | A plain value reaches the derived promise unchanged when `onFulfilled` is not a function. |
| `CoreProperties.DeferredRejectsCycle` | doge_promise.ts:102-105 | A callback that returns the derived promise itself rejects it with the chaining-cycle TypeError. |
| `CoreProperties.ThenCycleRejects` | doge_promise.ts:77-110 | End to end: `d = src.then(() => d)` on a FULFILLED `src` queues one task. Once that task has run, `d` is REJECTED with the chaining-cycle TypeError. |
| `CoreProperties.DeferredRejectsThrow` | doge_promise.ts:107-108 | A callback that throws rejects the derived promise with the thrown value. |
| `CoreProperties.DeferredResolvesResult` | doge_promise.ts:106 | Any other result goes through the derived promise's `resolve`. |
| `CoreProperties.AdoptsSettledPromise` | resolve_value_handler.ts:43-54 | Resolving with a settled DogePromise queues one task. After that task runs, the outer promise has the candidate's state, value and reason. |
| `CoreProperties.ForwardSettles` | resolve_value_handler.ts:45-52 | A forwarding callback settles a pending target with what it receives, and leaves a settled target unchanged. This is also how a `race` promise takes the first outcome that reaches it. |
| `CombinatorProperties.ResolvedWithRunsResolve` | enhance_method.ts:3-7 | `resolve(value)` is a fresh promise on which the whole resolution procedure runs with `value`. |
| `CombinatorProperties.RejectedWithRejects` | enhance_method.ts:9-13 | `reject(reason)` is a fresh promise rejected with `reason`. |
| `CombinatorProperties.AllOfNothing` | enhance_method.ts:33-43 | `all([])` is fulfilled with an empty array during construction. |
| `CombinatorProperties.AllFulfilsInInputOrder` | enhance_method.ts:33-43 | Past the last input, `all` is fulfilled with an array that holds each input's value at that input's index. |
| `CombinatorProperties.CollectKeepsInputOrder` | enhance_method.ts:35-39 | Pushing a fulfilled input's value leaves the collected values equal to the inputs' values up to that index, in order. |
| `CombinatorProperties.RejectedInputStopsCollect` | enhance_method.ts:33-43 | Once input `i` is rejected, no state holds values for inputs past `i - 1`, so `all` cannot be fulfilled. |
| `CombinatorProperties.CheckRejectAttachesForwarder` | enhance_method.ts:18-29 | One `checkReject` step attaches a rejection forwarder to input `i` and schedules the step for `i + 1`. For a settled input it queues the penetration or forwarding task, and past the last input it does nothing. |
| `CombinatorProperties.RaceOfNothing` | enhance_method.ts:47-62 | `race([])` queues no task; its promise is PENDING with no listeners. |
| `CombinatorProperties.RaceSchedulesInOrder` | enhance_method.ts:49-60 | `race` queues one subscription per input, in input order, after the tasks already queued. |
| `Runtime.World.ChangeState` | doge_promise.ts:47-55 | The in-place update and the `forEach` over the listeners leave exactly the state `Semantics.ChangeState` specifies. |
| `Runtime.World.HandleSettled` | doge_promise.ts:81-128 | Appends `Semantics.Reactions` of the listener and changes nothing else. |
| `Runtime.World.CallbackIfCurrentStateIs` | doge_promise.ts:83-111 | Schedules the callback only when the source is in the target state. |
| `Runtime.World.Reject` | doge_promise.ts:73-75 | Equals `Semantics.Reject`. |
| `Runtime.World.Resolve` | doge_promise.ts:57-71 | The `for` loop with `break` over the chain equals `Semantics.Resolve`. |
| `Runtime.World.TryToResolve` | resolve_value_handler.ts:43-109 | Equals `Semantics.TryToResolve`. |
| `Runtime.World.NewLatch` | resolve_value_handler.ts:63 | Equals `Semantics.NewLatch`. |
| `Runtime.World.Call` | resolve_value_handler.ts:64-68 | Equals `Semantics.Call`. |
| `Runtime.World.Run` | doge_promise.ts:34-38 | The step-by-step loop over the user script equals `Semantics.Run`. |
| `Runtime.World.Then` | doge_promise.ts:77-139 | Equals `Semantics.Then`; the callbacks may refer to the derived promise. |
| `Runtime.World.Alloc` | doge_promise.ts:32-33 | Equals `Semantics.Alloc`. |
| `Runtime.World.Construct` | doge_promise.ts:26-39 | Equals `Semantics.Construct`. |
| `Runtime.World.ResolvedWith` | enhance_method.ts:3-7 | Equals `Combinators.ResolvedWith`. |
| `Runtime.World.RejectedWith` | enhance_method.ts:9-13 | Equals `Combinators.RejectedWith`. |
| `Runtime.World.CheckResolve` | enhance_method.ts:33-43 | Equals `Combinators.CheckResolve`. |
| `Runtime.World.All` | enhance_method.ts:15-45 | Equals `Combinators.All`. |
| `Runtime.World.Race` | enhance_method.ts:47-62 | The loop over the inputs equals `Combinators.Race`. |
| `Runtime.World.Invoke` | doge_promise.ts:99-101 | Equals `Scheduler.Invoke`. |
| `Runtime.World.Deferred` | doge_promise.ts:91-110 | Equals `Scheduler.Deferred`. |
| `Runtime.World.Step` | doge_promise.ts:91 | Equals `Scheduler.Step`. The deferred bodies of `checkReject` and `race` run inline. |

## Left out

- Timers: `setTimeout` is a FIFO task queue. Only the order of the callbacks is modelled, not wall-clock time.
- JavaScript reflection: `typeof`, `instanceof`, `bind` and closures are not modelled. Candidates are a datatype.
- Arbitrary user code: callbacks given to `then` either return a value or throw. They cannot act on other promises.
- The `then` getter: it has one fixed behaviour. The source reads it once per resolution, so a getter that behaves differently on each read makes no difference within one resolution.
- Thenables: a thenable's `then` is a finite script of adapter calls, throws and deferred steps.
  - A thenable that contains itself cannot be written, so every resolution terminates.
  - An exception thrown by a deferred step of a script is dropped, as an uncaught exception in a `setTimeout` callback would be.
- The `then` arguments the library passes: `all` passes `null` and `race` passes closures. These are modelled by the `NotFunction`, `Forward` and `CollectInto` callbacks.
- The `resolveValues` array of `all`: it is threaded through the `checkResolve` steps as a value. Only that chain of steps ever holds it, so nothing aliases it.
- The TypeError of a chaining cycle: its identity and message are not modelled. It is the distinguished value `CycleError`.
- The static wrappers of doge_promise.ts:141-152: they only forward to the combinators.
- The test adapter test.ts is not part of this model.
- Eventual settlement: it is not proved. A promise may stay PENDING forever, for example when a thenable never calls back.
- Inputs to `all` and `race`: they must be DogePromise instances, as the source's parameter type says.
- `CoreProperties.AdoptsSettledPromise`: covers only a candidate that is already settled, with an empty queue beforehand. For a pending candidate, `Semantics.Then` shows that the outer promise's forwarders are registered as a listener.
- `CoreProperties.DeferredPenetratesValue`: stated for plain values, those the default handler takes. A thenable value passed through `resolve` is covered by the handler lemmas.
