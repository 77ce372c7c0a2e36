/** Properties of `resolve`, `reject`, `all` and `race` (enhance_method.ts). */
module CombinatorProperties {
  import opened Values
  import opened Handlers
  import opened Semantics
  import opened Combinators
  import opened Scheduler
  import opened HandlerProperties

  /** `resolve(value)` is a new promise on which the whole resolution
      procedure runs with `value`. */
  lemma ResolvedWithRunsResolve(m: Machine, v: Value)
    requires Wf(m) && Fits(v, |m.promises|)
    ensures ResolvedWith(m, v).1 == Resolve(Alloc(m), |m.promises|, v)
  {
    var init := [CallResolve(v)];
    assert ScriptRefs(init) == ActionRefs(init[0]) + ScriptRefs(init[1..]);
    var p := |m.promises|;
    var m1 := Alloc(m);
    var m2 := Call(m1, None, p, true, v);
    assert init[1..] == [];
    assert Run(m1, None, p, init) == Run(m2, None, p, []);
  }

  /** `reject(reason)` is a new promise rejected with `reason`. */
  lemma RejectedWithRejects(m: Machine, reason: Value)
    requires Wf(m) && Fits(reason, |m.promises|)
    ensures var (p, r) := RejectedWith(m, reason);
            r.promises[p].state == Rejected && r.promises[p].reason == Some(reason)
  {
    var init := [CallReject(reason)];
    assert ScriptRefs(init) == ActionRefs(init[0]) + ScriptRefs(init[1..]);
    var p := |m.promises|;
    var m1 := Alloc(m);
    var m2 := Call(m1, None, p, false, reason);
    assert init[1..] == [];
    assert Run(m1, None, p, init) == Run(m2, None, p, []);
  }

  /** `all([])` is fulfilled with an empty array as soon as it is built. */
  lemma AllOfNothing(m: Machine)
    requires Wf(m)
    ensures var (a, r) := All(m, []);
            FulfilledWith(r, a, Array([]))
  {
    var a := |m.promises|;
    var m1 := Alloc(m);
    var m2 := m1.(queue := m1.queue + [CheckReject(a, [], 0)]);
    EnqueueKeepsWf(m1, CheckReject(a, [], 0));
    assert Refs(Array([])) == {};
    ResolvePlain(m2, a, Array([]));
  }

  /** Once `checkResolve` has passed the last input, `all` is fulfilled with
      the array of the inputs' values, each at its input's index. */
  lemma AllFulfilsInInputOrder(m: Machine, a: PromiseId, inputs: seq<PromiseId>, col: seq<Value>)
    requires Wf(m) && a < |m.promises| && IdsBelow(inputs, |m.promises|) && m.promises[a].state == Pending
    requires |col| == |inputs| && Collected(m, inputs, col) && Below(ItemsRefs(col), |m.promises|)
    ensures var r := CheckResolve(m, a, inputs, |inputs|, col);
            FulfilledWith(r, a, Array(col))
            && |col| == |inputs| && forall j | 0 <= j < |inputs| :: FulfilledWith(r, inputs[j], col[j])
  {
    assert Refs(Array(col)) == ItemsRefs(col);
    ResolvePlain(m, a, Array(col));
    var r := CheckResolve(m, a, inputs, |inputs|, col);
    StableFacts(m, r);
    assert Collected(r, inputs, col);
  }

  /** The step of `checkResolve` a fulfilled input schedules pushes that
      input's value right after the values of the inputs before it. */
  lemma CollectKeepsInputOrder(m: Machine, t: Task)
    requires Wf(m) && t in m.queue && t.RunCallback? && t.callback.CollectInto?
    ensures var cb := t.callback;
            cb.index < |cb.inputs| && |cb.collected + [t.arg]| == cb.index + 1
            && Collected(m, cb.inputs, cb.collected + [t.arg])
  {
    assert TaskOk(m, t);
    var cb := t.callback;
    var col := cb.collected + [t.arg];
    forall j | 0 <= j < |col| ensures FulfilledWith(m, cb.inputs[j], col[j]) {
      if j < |cb.collected| {
        assert col[j] == cb.collected[j];
      }
    }
  }

  /** A rejected input stops the `checkResolve` walk at its index: no
      well-formed state holds the values of the inputs up to it, so `all`
      can no longer be fulfilled. */
  lemma RejectedInputStopsCollect(m: Machine, inputs: seq<PromiseId>, i: nat, col: seq<Value>)
    requires i < |inputs| && inputs[i] < |m.promises| && m.promises[inputs[i]].state == Rejected
    requires Collected(m, inputs, col)
    ensures |col| <= i < |inputs|
  {
  }

  /** One deferred step of `checkReject`: a rejection forwarder on input `i`,
      then the step for index `i + 1`; past the last input, nothing. */
  lemma CheckRejectAttachesForwarder(m: Machine, a: PromiseId, inputs: seq<PromiseId>, i: nat)
    requires Wf(m) && a < |m.promises| && IdsBelow(inputs, |m.promises|)
    ensures var r := CheckRejectStep(m, a, inputs, i);
            var d := |m.promises|;
            var fwd := Forward(None, a, false);
            (i >= |inputs| ==> r == m)
            && (i < |inputs| && m.promises[inputs[i]].state == Pending ==>
                  r.queue == m.queue + [CheckReject(a, inputs, i + 1)]
                  && r.promises[inputs[i]].listeners == m.promises[inputs[i]].listeners + [Reaction(d, NotFunction, fwd)])
            && (i < |inputs| && m.promises[inputs[i]].state == Rejected ==>
                  r.queue == m.queue + [RunCallback(d, fwd, Payload(m.promises[inputs[i]].reason), false),
                                        CheckReject(a, inputs, i + 1)])
            && (i < |inputs| && m.promises[inputs[i]].state == Fulfilled ==>
                  r.queue == m.queue + [RunCallback(d, NotFunction, Payload(m.promises[inputs[i]].value), true),
                                        CheckReject(a, inputs, i + 1)])
  {
    if i < |inputs| {
      var q := inputs[i];
      var m1 := Then(m, q, NotFunction, Forward(None, a, false)).1;
      assert CheckRejectStep(m, a, inputs, i) == m1.(queue := m1.queue + [CheckReject(a, inputs, i + 1)]);
    }
  }

  /** `race([])` schedules nothing: its promise stays pending with no
      listener, and the queue is as it was. */
  lemma RaceOfNothing(m: Machine)
    requires Wf(m)
    ensures var (a, r) := Race(m, []);
            r.queue == m.queue && r.promises[a] == NewRec
  {
    assert RaceTasks(|m.promises|, []) == [];
  }

  /** `race` schedules one subscription per input, in input order. */
  lemma RaceSchedulesInOrder(m: Machine, inputs: seq<PromiseId>)
    requires Wf(m) && IdsBelow(inputs, |m.promises|)
    ensures var (a, r) := Race(m, inputs);
            r.promises[a] == NewRec && |r.queue| == |m.queue| + |inputs| && r.queue[..|m.queue|] == m.queue
            && forall k | 0 <= k < |inputs| :: r.queue[|m.queue| + k] == Subscribe(a, inputs[k])
  {
  }
}
