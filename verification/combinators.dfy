/** `resolve`, `reject`, `all` and `race` of enhance_method.ts, built only on
    the constructor and `then`. */
module Combinators {
  import opened Values
  import opened Semantics

  /** `resolve(value)` (enhance_method.ts:3-7). */
  function ResolvedWith(m: Machine, v: Value): (r: (PromiseId, Machine))
    requires Wf(m) && Fits(v, |m.promises|)
    ensures Grows(m, r.1) && r.0 == |m.promises| < |r.1.promises|
  {
    Construct(m, [CallResolve(v)])
  }

  /** `reject(reason)` (enhance_method.ts:9-13). */
  function RejectedWith(m: Machine, reason: Value): (r: (PromiseId, Machine))
    requires Wf(m) && Fits(reason, |m.promises|)
    ensures Grows(m, r.1) && r.0 == |m.promises| < |r.1.promises|
  {
    Construct(m, [CallReject(reason)])
  }

  /** `checkResolve(i)` of `all` (enhance_method.ts:33-43): subscribe to input
      `i`, or fulfil the `all` promise `a` with the collected values once every
      input has delivered its value. */
  function CheckResolve(m: Machine, a: PromiseId, inputs: seq<PromiseId>, i: nat, col: seq<Value>): (r: Machine)
    requires Wf(m) && a < |m.promises| && IdsBelow(inputs, |m.promises|)
    requires i <= |inputs| && |col| == i && Collected(m, inputs, col) && Below(ItemsRefs(col), |m.promises|)
    ensures Grows(m, r)
  {
    if i < |inputs| then Then(m, inputs[i], CollectInto(a, inputs, i, col), NotFunction).1
    else Resolve(m, a, Array(col))
  }

  /** The deferred body of `checkReject(i)` (enhance_method.ts:21-28): attach
      a rejection forwarder to input `i` and schedule the next index. */
  function CheckRejectStep(m: Machine, a: PromiseId, inputs: seq<PromiseId>, i: nat): (r: Machine)
    requires Wf(m) && a < |m.promises| && IdsBelow(inputs, |m.promises|)
    ensures Grows(m, r)
  {
    if i < |inputs| then
      var m1 := Then(m, inputs[i], NotFunction, Forward(None, a, false)).1;
      var r := m1.(queue := m1.queue + [CheckReject(a, inputs, i + 1)]);
      assert Evolves(m1, r);
      StableFacts(m1, r);
      WfAfter(m1, r);
      GrowsTrans(m, m1, r);
      r
    else m
  }

  /** `all(promises)` (enhance_method.ts:15-45). */
  function All(m: Machine, inputs: seq<PromiseId>): (r: (PromiseId, Machine))
    requires Wf(m) && IdsBelow(inputs, |m.promises|)
    ensures Grows(m, r.1) && r.0 == |m.promises| < |r.1.promises|
  {
    var a := |m.promises|;
    var m1 := Alloc(m);
    var m2 := m1.(queue := m1.queue + [CheckReject(a, inputs, 0)]);
    assert Evolves(m1, m2);
    StableFacts(m1, m2);
    WfAfter(m1, m2);
    GrowsTrans(m, m1, m2);
    var r := CheckResolve(m2, a, inputs, 0, []);
    GrowsTrans(m, m2, r);
    (a, r)
  }

  /** The tasks `race`'s loop schedules, one per input in input order. */
  function RaceTasks(a: PromiseId, inputs: seq<PromiseId>): (ts: seq<Task>)
    ensures |ts| == |inputs|
  {
    seq(|inputs|, k requires 0 <= k < |inputs| => Subscribe(a, inputs[k]))
  }

  /** `race(promises)` (enhance_method.ts:47-62). */
  function Race(m: Machine, inputs: seq<PromiseId>): (r: (PromiseId, Machine))
    requires Wf(m) && IdsBelow(inputs, |m.promises|)
    ensures Grows(m, r.1) && r.0 == |m.promises| < |r.1.promises|
  {
    var a := |m.promises|;
    var m1 := Alloc(m);
    var r := m1.(queue := m1.queue + RaceTasks(a, inputs));
    assert Evolves(m1, r);
    StableFacts(m1, r);
    WfAfter(m1, r);
    GrowsTrans(m, m1, r);
    (a, r)
  }

  /** The deferred body of `race`'s loop (enhance_method.ts:50-59). */
  function SubscribeStep(m: Machine, a: PromiseId, input: PromiseId): (r: Machine)
    requires Wf(m) && a < |m.promises| && input < |m.promises|
    ensures Grows(m, r)
  {
    Then(m, input, Forward(None, a, true), Forward(None, a, false)).1
  }
}
