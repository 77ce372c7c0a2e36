/** Properties of the DogePromise core (doge_promise.ts): settlement,
    listener dispatch, construction and the deferred reaction of `then`. */
module CoreProperties {
  import opened Values
  import opened Handlers
  import opened Semantics
  import opened Scheduler
  import opened HandlerProperties

  /** The one task the reaction of listener `l` schedules once its source
      has settled as `rec`: the branch matching the state, with its payload. */
  function MatchingTask(l: Listener, rec: Rec): (t: Task) {
    if rec.state == Fulfilled then RunCallback(l.derived, l.onFulfilled, Payload(rec.value), true)
    else RunCallback(l.derived, l.onRejected, Payload(rec.reason), false)
  }

  /** Settlement wakes every listener exactly once, in registration order. */
  lemma {:induction false} DispatchInOrder(ls: seq<Listener>, rec: Rec)
    requires rec.state != Pending
    ensures |Dispatch(ls, rec)| == |ls|
    ensures forall i | 0 <= i < |ls| :: Dispatch(ls, rec)[i] == MatchingTask(ls[i], rec)
  {
    if ls != [] {
      var init := ls[..|ls| - 1];
      DispatchInOrder(init, rec);
      assert Reactions(ls[|ls| - 1], rec) == [MatchingTask(ls[|ls| - 1], rec)];
      forall i | 0 <= i < |ls| ensures Dispatch(ls, rec)[i] == MatchingTask(ls[i], rec) {
        if i < |ls| - 1 {
          assert ls[i] == init[i];
        }
      }
    }
  }

  /** A successful `changeState` schedules, after the tasks already queued,
      one task per listener registered so far, in registration order, each
      carrying the new payload to the callback of the matching branch. */
  lemma SettlementSchedulesListeners(m: Machine, p: PromiseId, s: State, x: Value)
    requires Wf(m) && p < |m.promises| && Fits(x, |m.promises|)
    requires m.promises[p].state == Pending && s != Pending
    ensures var (ok, r) := ChangeState(m, p, s, x);
            var ls := m.promises[p].listeners;
            ok && |r.queue| == |m.queue| + |ls| && r.queue[..|m.queue|] == m.queue
            && forall i | 0 <= i < |ls| ::
                 r.queue[|m.queue| + i]
                   == if s == Fulfilled then RunCallback(ls[i].derived, ls[i].onFulfilled, x, true)
                      else RunCallback(ls[i].derived, ls[i].onRejected, x, false)
  {
    var (ok, r) := ChangeState(m, p, s, x);
    var ls := m.promises[p].listeners;
    DispatchInOrder(ls, r.promises[p]);
    assert r.queue == m.queue + Dispatch(ls, r.promises[p]);
  }

  /** Exactly-once settlement: whatever the event loop runs, a settled
      promise keeps its state, payloads and listeners. */
  lemma SettledIsFinal(m: Machine, p: PromiseId, n: nat)
    requires Wf(m) && p < |m.promises| && m.promises[p].state != Pending
    ensures Drain(m, n).promises[p] == m.promises[p]
  {
    assert Advances(m.promises[p], Drain(m, n).promises[p]);
  }

  // ---------------------------------------------------------------------
  // The constructor (doge_promise.ts:26-39)

  /** An initializer that throws before calling `resolve` or `reject` leaves
      the new promise rejected with what it threw. */
  lemma ConstructThrowRejects(m: Machine, init: seq<Action>, e: Value)
    requires Wf(m) && ScriptFits(init, |m.promises| + 1)
    requires SilentUntilThrow(init) && Thrown(init) == Some(e)
    ensures var (p, r) := Construct(m, init);
            r.promises[p].state == Rejected && r.promises[p].reason == Some(e)
  {
    var p := |m.promises|;
    var m1 := Alloc(m);
    RunInert(m1, None, p, init);
  }

  /** An initializer whose first capability call, after any steps it
      defers, is `reject(x)` leaves the new promise rejected with `x`: its
      later calls, and an exception it throws afterwards, change nothing. */
  lemma ConstructFirstRejectWins(m: Machine, pre: seq<Action>, x: Value, rest: seq<Action>)
    requires Wf(m) && OnlyLater(pre) && ScriptFits(pre + ([CallReject(x)] + rest), |m.promises| + 1)
    ensures var (p, r) := Construct(m, pre + ([CallReject(x)] + rest));
            r.promises[p].state == Rejected && r.promises[p].reason == Some(x)
  {
    var s := [CallReject(x)] + rest;
    ScriptRefsAppend(pre, s);
    assert ScriptRefs(s) == ActionRefs(s[0]) + ScriptRefs(s[1..]);
    assert s[1..] == rest;
    var p := |m.promises|;
    var m1 := Alloc(m);
    RunLaterPrefix(m1, None, p, pre, s);
    var b := Run(m1, None, p, pre).1;
    var m2 := Call(b, None, p, false, x);
    assert m2.promises[p].state == Rejected && m2.promises[p].reason == Some(x);
    assert Run(b, None, p, s) == Run(m2, None, p, rest);
    var (thrown, m3) := Run(m2, None, p, rest);
    assert Advances(m2.promises[p], m3.promises[p]);
    if thrown.Some? {
      assert Reject(m3, p, thrown.value) == m3;
    }
  }

  /** The `resolve` and `reject` the constructor hands out are not latched:
      after `resolve` has handed the promise over to a pending promise `q`,
      a second `resolve` still settles it. */
  lemma ConstructorResolveNotLatched(m: Machine, q: PromiseId, n: int)
    requires Wf(m) && q < |m.promises| && m.promises[q].state == Pending
    requires ScriptFits([CallResolve(Promise(q)), CallResolve(Prim(n))], |m.promises|)
    ensures var (p, r) := Construct(m, [CallResolve(Promise(q)), CallResolve(Prim(n))]);
            FulfilledWith(r, p, Prim(n))
  {
    var init := [CallResolve(Promise(q)), CallResolve(Prim(n))];
    var p := |m.promises|;
    var m1 := Alloc(m);
    var m2 := Call(m1, None, p, true, Promise(q));
    ResolveUsesOwner(m1, p, Promise(q));
    assert m2.promises[p] == m1.promises[p];
    assert init[1..] == [CallResolve(Prim(n))] && init[1..][1..] == [];
    assert Run(m1, None, p, init) == Run(m2, None, p, init[1..]);
    var m3 := Call(m2, None, p, true, Prim(n));
    ResolvePlain(m2, p, Prim(n));
    assert Run(m2, None, p, init[1..]) == Run(m3, None, p, []);
  }

  // ---------------------------------------------------------------------
  // The deferred reaction of `then` (doge_promise.ts:91-110)

  /** A callback that is not a function passes a rejection on unchanged. */
  lemma DeferredPenetratesRejection(m: Machine, d: PromiseId, e: Value)
    requires Wf(m) && TaskOk(m, RunCallback(d, NotFunction, e, false)) && m.promises[d].state == Pending
    ensures var r := Deferred(m, d, NotFunction, e, false);
            r.promises[d].state == Rejected && r.promises[d].reason == Some(e)
  {
  }

  /** A callback that is not a function passes a plain value on unchanged. */
  lemma DeferredPenetratesValue(m: Machine, d: PromiseId, x: Value)
    requires Wf(m) && TaskOk(m, RunCallback(d, NotFunction, x, true)) && m.promises[d].state == Pending
    requires Owner(x) == DefaultHandler
    ensures FulfilledWith(Deferred(m, d, NotFunction, x, true), d, x)
  {
    ResolvePlain(m, d, x);
  }

  /** A callback that returns the derived promise itself rejects it with the
      chaining-cycle TypeError. */
  lemma DeferredRejectsCycle(m: Machine, d: PromiseId, arg: Value, fb: bool)
    requires Wf(m) && TaskOk(m, RunCallback(d, Returns(Promise(d)), arg, fb)) && m.promises[d].state == Pending
    ensures var r := Deferred(m, d, Returns(Promise(d)), arg, fb);
            r.promises[d].state == Rejected && r.promises[d].reason == Some(CycleError)
  {
  }

  /** A callback that throws rejects the derived promise with what it threw. */
  lemma DeferredRejectsThrow(m: Machine, d: PromiseId, e: Value, arg: Value, fb: bool)
    requires Wf(m) && TaskOk(m, RunCallback(d, Throws(e), arg, fb)) && m.promises[d].state == Pending
    ensures var r := Deferred(m, d, Throws(e), arg, fb);
            r.promises[d].state == Rejected && r.promises[d].reason == Some(e)
  {
  }

  /** Any other result is handed to the derived promise's `resolve`. */
  lemma DeferredResolvesResult(m: Machine, d: PromiseId, v: Value, arg: Value, fb: bool)
    requires Wf(m) && TaskOk(m, RunCallback(d, Returns(v), arg, fb)) && v != Promise(d)
    ensures Deferred(m, d, Returns(v), arg, fb) == Resolve(m, d, v)
  {
  }

  /** End to end: `d = src.then(() => d)` on a fulfilled `src` schedules one
      task, and once it has run `d` is rejected with the chaining-cycle
      TypeError. */
  lemma ThenCycleRejects(m: Machine, src: PromiseId)
    requires Wf(m) && src < |m.promises| && m.queue == [] && m.promises[src].state == Fulfilled
    ensures var (d, m1) := Then(m, src, Returns(Promise(|m.promises|)), NotFunction);
            |m1.queue| == 1
            && Step(m1).promises[d].state == Rejected && Step(m1).promises[d].reason == Some(CycleError)
  {
    var d := |m.promises|;
    var cb := Returns(Promise(d));
    var (_, m1) := Then(m, src, cb, NotFunction);
    var t := RunCallback(d, cb, Payload(m.promises[src].value), true);
    assert m1.queue == [t];
    var m0 := m1.(queue := []);
    assert m1.queue[1..] == [];
    assert Evolves(m1, m0);
    StableFacts(m1, m0);
    WfAfter(m1, m0);
    assert TaskOk(m1, t);
    assert Step(m1) == RunTask(m0, t);
    DeferredRejectsCycle(m0, d, t.arg, true);
  }

  /** A step the initializer defers (`setTimeout(() => resolve(p))`) is the
      only way user code can resolve a promise with itself. `resolve` has no
      check for that, so the DogePromise handler subscribes the promise to
      its own settlement: after the step it is still pending, its only
      listener is its own forwarder pair, and nothing is scheduled. */
  lemma SelfResolutionWaitsOnItself(m: Machine)
    requires Wf(m) && m.queue == []
    requires ScriptFits([Later([CallResolve(Promise(|m.promises|))])], |m.promises| + 1)
    ensures var p := |m.promises|;
            var (p', r) := Construct(m, [Later([CallResolve(Promise(p))])]);
            p' == p && |r.queue| == 1
            && Step(r).queue == [] && Step(r).promises[p].state == Pending
            && Step(r).promises[p].listeners == [Reaction(p + 1, Forward(None, p, true), Forward(None, p, false))]
  {
    var p := |m.promises|;
    var t := [CallResolve(Promise(p))];
    var init := [Later(t)];
    assert ScriptRefs(init) == ActionRefs(init[0]) + ScriptRefs(init[1..]);
    assert ScriptRefs(t) == ActionRefs(t[0]) + ScriptRefs(t[1..]);
    var m1 := Alloc(m);
    var r := m1.(queue := m1.queue + [RunLater(None, p, t)]);
    EnqueueKeepsWf(m1, RunLater(None, p, t));
    assert init[1..] == [] && t[1..] == [];
    assert Run(m1, None, p, init) == Run(r, None, p, []);
    var m0 := r.(queue := []);
    assert r.queue[1..] == [];
    assert Evolves(r, m0);
    StableFacts(r, m0);
    WfAfter(r, m0);
    assert Step(r) == RunTask(m0, RunLater(None, p, t));
    ResolveUsesOwner(m0, p, Promise(p));
    var m2 := Call(m0, None, p, true, Promise(p));
    assert Run(m0, None, p, t) == Run(m2, None, p, []);
  }

  // ---------------------------------------------------------------------
  // Adoption of a DogePromise (resolve_value_handler.ts:38-54)

  /** Resolving a pending promise `p` with a settled DogePromise `q` schedules
      one task, and once it has run `p` has settled the way `q` did. */
  lemma AdoptsSettledPromise(m: Machine, p: PromiseId, q: PromiseId)
    requires Wf(m) && p < |m.promises| && q < |m.promises| && p != q && m.queue == []
    requires m.promises[p].state == Pending && m.promises[q].state != Pending
    requires m.promises[q].state == Fulfilled ==> Owner(Payload(m.promises[q].value)) == DefaultHandler
    ensures var m1 := Resolve(m, p, Promise(q));
            |m1.queue| == 1
            && Step(m1).promises[p].state == m.promises[q].state
            && Step(m1).promises[p].value == m.promises[q].value
            && Step(m1).promises[p].reason == m.promises[q].reason
  {
    var rq := m.promises[q];
    assert RecOk(m, q);
    ResolveUsesOwner(m, p, Promise(q));
    var m1 := Resolve(m, p, Promise(q));
    var d := |m.promises|;
    var l := Reaction(d, Forward(None, p, true), Forward(None, p, false));
    assert m1.queue == Reactions(l, rq);
    var t := m1.queue[0];
    var m0 := m1.(queue := []);
    assert m1.queue[1..] == [];
    assert Evolves(m1, m0);
    StableFacts(m1, m0);
    WfAfter(m1, m0);
    assert TaskOk(m1, t);
    assert Step(m1) == RunTask(m0, t);
    assert m0.promises[p] == m.promises[p];
    var fb := rq.state == Fulfilled;
    var x := if fb then rq.value.value else rq.reason.value;
    assert t == RunCallback(d, Forward(None, p, fb), x, fb);
    ForwardSettles(m0, d, p, fb, x);
  }

  /** A forwarding callback (`(value) => resolve(value)` or
      `(reason) => reject(reason)`) settles a pending target with what it
      receives, and leaves a settled target as it is. */
  lemma ForwardSettles(m: Machine, d: PromiseId, p: PromiseId, fb: bool, x: Value)
    requires Wf(m) && TaskOk(m, RunCallback(d, Forward(None, p, fb), x, fb)) && d != p
    requires fb ==> Owner(x) == DefaultHandler
    ensures var r := Deferred(m, d, Forward(None, p, fb), x, fb);
            if m.promises[p].state == Pending then
              r.promises[p].state == (if fb then Fulfilled else Rejected)
              && r.promises[p].value == (if fb then Some(x) else None)
              && r.promises[p].reason == (if fb then None else Some(x))
            else r.promises[p] == m.promises[p]
  {
    var r := Deferred(m, d, Forward(None, p, fb), x, fb);
    if m.promises[p].state == Pending {
      var m1 := Call(m, None, p, fb, x);
      if fb {
        ResolvePlain(m, p, x);
      }
      assert RecOk(m1, p);
      assert Advances(m1.promises[p], r.promises[p]);
    } else {
      assert Advances(m.promises[p], r.promises[p]);
    }
  }
}
