/** The deferred scheduler: `setTimeout` callbacks run one at a time, in the
    order they were scheduled. */
module Scheduler {
  import opened Values
  import opened Semantics
  import opened Combinators

  /** How a call of a user callback ended. */
  datatype Completion = Normal(result: Value) | Abrupt(thrown: Value)

  /** `targetCallback(currentResolveValue)` for a callback that is a function. */
  function Invoke(m: Machine, d: PromiseId, cb: Callback, arg: Value, fb: bool): (r: (Completion, Machine))
    requires Wf(m) && TaskOk(m, RunCallback(d, cb, arg, fb)) && !cb.NotFunction?
    ensures Grows(m, r.1)
    ensures Fits(if r.0.Normal? then r.0.result else r.0.thrown, |r.1.promises|)
  {
    match cb
    case Returns(v) => (Normal(v), m)
    case Throws(e) => (Abrupt(e), m)
    case Forward(g, t, res) => (Normal(Undefined), Call(m, g, t, res, arg))
    case CollectInto(a, inputs, i, col) =>
      // resolveValues.push(value); checkResolve(i + 1)
      var col' := col + [arg];
      assert col'[..|col'| - 1] == col;
      assert Collected(m, inputs, col');
      (Normal(Undefined), CheckResolve(m, a, inputs, i + 1, col'))
  }

  /** The task `callbackIfCurrentStateIs` schedules (doge_promise.ts:91-110):
      penetration when the callback is not a function; otherwise the
      callback's result resolves the derived promise `d`, except that `d`
      itself rejects it with the cycle TypeError, and a throw rejects it. */
  function Deferred(m: Machine, d: PromiseId, cb: Callback, arg: Value, fb: bool): (r: Machine)
    requires Wf(m) && TaskOk(m, RunCallback(d, cb, arg, fb))
    ensures Grows(m, r)
  {
    if cb.NotFunction? then
      if fb then Resolve(m, d, arg) else Reject(m, d, arg)
    else
      var (c, m1) := Invoke(m, d, cb, arg, fb);
      var r := match c
        case Abrupt(e) => Reject(m1, d, e)
        case Normal(v) => if v == Promise(d) then Reject(m1, d, CycleError) else Resolve(m1, d, v);
      GrowsTrans(m, m1, r);
      r
  }

  function RunTask(m: Machine, t: Task): (r: Machine)
    requires Wf(m) && TaskOk(m, t)
    ensures Grows(m, r)
  {
    match t
    case RunCallback(d, cb, arg, fb) => Deferred(m, d, cb, arg, fb)
    case RunLater(g, p, s) => Run(m, g, p, s).1
    case CheckReject(a, inputs, i) => CheckRejectStep(m, a, inputs, i)
    case Subscribe(a, input) => SubscribeStep(m, a, input)
  }

  /** Take the oldest task off the queue and run it. */
  function Step(m: Machine): (r: Machine)
    requires Wf(m) && |m.queue| > 0
    ensures Wf(r) && Evolves(m, r) && m.queue[1..] <= r.queue
  {
    var m0 := m.(queue := m.queue[1..]);
    assert Evolves(m, m0);
    StableFacts(m, m0);
    WfAfter(m, m0);
    assert TaskOk(m, m.queue[0]);
    var r := RunTask(m0, m.queue[0]);
    EvolvesTrans(m, m0, r);
    r
  }

  /** Up to `n` turns of the event loop, stopping early when no task is left. */
  function Drain(m: Machine, n: nat): (r: Machine)
    requires Wf(m)
    ensures Wf(r) && Evolves(m, r)
    ensures n == 0 || m.queue == [] ==> r == m
    decreases n
  {
    if n == 0 || m.queue == [] then m
    else
      var m1 := Step(m);
      var r := Drain(m1, n - 1);
      EvolvesTrans(m, m1, r);
      r
  }
}
