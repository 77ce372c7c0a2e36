/** The values a DogePromise handles, the scripted behaviour of user code
    (thenables, initializers, callbacks) and the records of the promise table.

    JavaScript values are modelled by the `Value` datatype: only the
    distinctions the resolution procedure makes are kept (primitive or not,
    null/undefined, an instance of DogePromise, an object whose `then` member
    behaves in a given way). */
module Values {

  datatype Option<T> = None | Some(value: T)

  /** Index of a promise in the promise table. */
  type PromiseId = nat
  /** Index of an `isAlreadyResolved` cell in the latch table. */
  type LatchId = nat

  /** `State` of doge_promise.ts. */
  datatype State = Pending | Fulfilled | Rejected

  datatype Value =
    | Undefined
    | Null
      /** A number, string, boolean or symbol: not an object, not a function. */
    | Prim(n: int)
      /** A user object (or function) whose `then` member behaves as given. */
    | Obj(member: ThenMember)
      /** An instance of DogePromise. */
    | Promise(id: PromiseId)
      /** An array, such as the one `all` fulfils with; its `then` is undefined. */
    | Array(items: seq<Value>)
      /** The TypeError raised on a chaining cycle. */
    | CycleError

  /** What reading `candidate.then` yields. */
  datatype ThenMember =
    | GetterThrows(error: Value)
    | NotCallable
    | Callable(script: seq<Action>)

  /** One step of user code that holds a resolve and a reject capability. */
  datatype Action =
    | CallResolve(arg: Value)
    | CallReject(arg: Value)
    | Throw(error: Value)
      /** Schedule the given steps to run later in a task of their own. */
    | Later(script: seq<Action>)

  /** What `then` receives as `onFulfilled` or `onRejected`. The last two are
      the closures that resolve_value_handler.ts and enhance_method.ts pass. */
  datatype Callback =
    | NotFunction
    | Returns(result: Value)
    | Throws(error: Value)
      /** A capability of promise `target` passed as a callback: `resolve` when
          `resolve` holds, `reject` otherwise; returns undefined. With a guard it is
          an adapter of the thenable handler, behind that latch. */
    | Forward(guard: Option<LatchId>, target: PromiseId, resolve: bool)
      /** The callback `checkResolve(index)` of `all` registers on `inputs[index]`:
          it pushes the value onto `collected` and calls `checkResolve(index + 1)`. */
    | CollectInto(all: PromiseId, inputs: seq<PromiseId>, index: nat, collected: seq<Value>)

  /** `handleWhenPromiseIsResolved` of a `then` call that created `derived`. */
  datatype Listener = Reaction(derived: PromiseId, onFulfilled: Callback, onRejected: Callback)

  /** A DogePromise's fields; an unset `value` or `reason` is `None`. */
  datatype Rec = Rec(state: State, value: Option<Value>, reason: Option<Value>, listeners: seq<Listener>)

  /** A callback handed to the deferred scheduler (`setTimeout`). */
  datatype Task =
      /** The deferred part of `callbackIfCurrentStateIs` (doge_promise.ts:91-110). */
    | RunCallback(derived: PromiseId, callback: Callback, arg: Value, fulfilledBranch: bool)
      /** Steps a user script scheduled with `Later`, with its capabilities. */
    | RunLater(guard: Option<LatchId>, target: PromiseId, script: seq<Action>)
      /** The deferred body of `checkReject(index)` (enhance_method.ts:21-28). */
    | CheckReject(all: PromiseId, inputs: seq<PromiseId>, index: nat)
      /** The deferred body of `race`'s loop (enhance_method.ts:50-59). */
    | Subscribe(race: PromiseId, input: PromiseId)

  /** A freshly constructed promise (doge_promise.ts:32-33). */
  const NewRec: Rec := Rec(Pending, None, None, [])

  /** Reading a field of the promise: an unset field reads as undefined. */
  function Payload(o: Option<Value>): (x: Value) {
    if o.Some? then o.value else Undefined
  }

  /** Payload exclusivity: `value` is set exactly when fulfilled, `reason`
      exactly when rejected. */
  predicate Consistent(r: Rec) {
    match r.state
    case Pending => r.value.None? && r.reason.None?
    case Fulfilled => r.value.Some? && r.reason.None?
    case Rejected => r.value.None? && r.reason.Some?
  }

  /** What a script throws: the error of its first `Throw`, which ends it. */
  function Thrown(s: seq<Action>): (e: Option<Value>) {
    if s == [] then None
    else if s[0].Throw? then Some(s[0].error)
    else Thrown(s[1..])
  }

  // ---------------------------------------------------------------------
  // Sizes: the resolution procedure recurses only into values a thenable
  // script passes to its adapters, which are structurally smaller.

  function ValueSize(v: Value): (n: nat) {
    match v
    case Obj(t) => 1 + MemberSize(t)
    case _ => 1
  }

  function MemberSize(t: ThenMember): (n: nat) {
    match t
    case GetterThrows(e) => 1 + ValueSize(e)
    case NotCallable => 1
    case Callable(s) => 1 + ScriptSize(s)
  }

  function ScriptSize(s: seq<Action>): (n: nat) {
    if s == [] then 0 else ActionSize(s[0]) + ScriptSize(s[1..])
  }

  function ActionSize(a: Action): (n: nat)
    ensures n >= 1
  {
    match a
    case CallResolve(x) => 1 + ValueSize(x)
    case CallReject(x) => 1 + ValueSize(x)
    case Throw(e) => 1 + ValueSize(e)
    case Later(s) => 1 + ScriptSize(s)
  }

  // ---------------------------------------------------------------------
  // References to promises held by values; a value "fits" a table of n
  // promises when every promise it mentions exists.

  function Refs(v: Value): (refs: set<PromiseId>) {
    match v
    case Promise(id) => {id}
    case Obj(t) => MemberRefs(t)
    case Array(items) => ItemsRefs(items)
    case _ => {}
  }

  function MemberRefs(t: ThenMember): (refs: set<PromiseId>) {
    match t
    case GetterThrows(e) => Refs(e)
    case NotCallable => {}
    case Callable(s) => ScriptRefs(s)
  }

  function ScriptRefs(s: seq<Action>): (refs: set<PromiseId>) {
    if s == [] then {} else ActionRefs(s[0]) + ScriptRefs(s[1..])
  }

  function ActionRefs(a: Action): (refs: set<PromiseId>) {
    match a
    case CallResolve(x) => Refs(x)
    case CallReject(x) => Refs(x)
    case Throw(e) => Refs(e)
    case Later(s) => ScriptRefs(s)
  }

  function ItemsRefs(vs: seq<Value>): (refs: set<PromiseId>) {
    if vs == [] then {} else ItemsRefs(vs[..|vs| - 1]) + Refs(vs[|vs| - 1])
  }

  predicate Below(refs: set<PromiseId>, n: nat) {
    forall q | q in refs :: q < n
  }

  predicate Fits(v: Value, n: nat) {
    Below(Refs(v), n)
  }

  predicate ScriptFits(s: seq<Action>, n: nat) {
    Below(ScriptRefs(s), n)
  }

  predicate IdsBelow(ids: seq<PromiseId>, n: nat) {
    forall i | 0 <= i < |ids| :: ids[i] < n
  }

  predicate GuardBelow(g: Option<LatchId>, nl: nat) {
    g.Some? ==> g.value < nl
  }

  /** Every promise and latch the callback mentions exists. */
  predicate CallbackFits(cb: Callback, n: nat, nl: nat) {
    match cb
    case NotFunction => true
    case Returns(v) => Fits(v, n)
    case Throws(e) => Fits(e, n)
    case Forward(g, t, _) => GuardBelow(g, nl) && t < n
    case CollectInto(a, inputs, _, col) => a < n && IdsBelow(inputs, n) && Below(ItemsRefs(col), n)
  }
}
