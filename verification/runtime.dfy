/** DogePromise as the source runs it: one `World` object holds every
    promise's fields, the `setTimeout` queue and the `isAlreadyResolved`
    latches, and its methods update them in place in the order the source
    does. Each method is proved to compute what the function of the same
    name in module Semantics, Combinators or Scheduler specifies. */
module Runtime {
  import opened Values
  import opened Handlers
  import S = Semantics
  import C = Combinators
  import Q = Scheduler

  class World {
    /** Promise `p`'s `state`, `value`, `reason` and `onPromiseResolvedListeners`. */
    var promises: seq<Rec>
    /** Callbacks handed to `setTimeout`, oldest first. */
    var queue: seq<Task>
    /** The `isAlreadyResolved` cells of thenable adoptions. */
    var latches: seq<bool>

    ghost function Model(): S.Machine
      reads this
    {
      S.Machine(promises, queue, latches)
    }

    constructor ()
      ensures Model() == S.Empty
    {
      promises, queue, latches := [], [], [];
    }

    // -------------------------------------------------------------------
    // DogePromise (doge_promise.ts)

    /** `changeState` (doge_promise.ts:47-55). */
    method ChangeState(p: PromiseId, s: State, x: Value) returns (ok: bool)
      requires S.Wf(Model()) && p < |promises| && Fits(x, |promises|)
      modifies this
      ensures (ok, Model()) == S.ChangeState(old(Model()), p, s, x)
    {
      if promises[p].state != Pending || s == Pending {
        return false;
      }
      var cur := promises[p];
      promises := promises[p := promises[p].(state := s)];
      if s == Fulfilled {
        promises := promises[p := promises[p].(value := Some(x))];
      } else {
        promises := promises[p := promises[p].(reason := Some(x))];
      }
      var ls := promises[p].listeners;
      for i := 0 to |ls|
        invariant promises == old(promises)[p := S.SettledRec(cur, s, x)] && latches == old(latches)
        invariant queue == old(queue) + S.Dispatch(ls[..i], promises[p])
      {
        assert ls[..i + 1][..i] == ls[..i];
        HandleSettled(p, ls[i]);
      }
      assert ls[..|ls|] == ls;
      ok := true;
    }

    /** `handleWhenPromiseIsResolved` of listener `l` of `src` (doge_promise.ts:81-128). */
    method HandleSettled(src: PromiseId, l: Listener)
      requires src < |promises|
      modifies this
      ensures promises == old(promises) && latches == old(latches)
      ensures queue == old(queue) + S.Reactions(l, promises[src])
    {
      var cur := promises[src];
      CallbackIfCurrentStateIs(src, Fulfilled, l.onFulfilled, Payload(cur.value), l.derived, true);
      CallbackIfCurrentStateIs(src, Rejected, l.onRejected, Payload(cur.reason), l.derived, false);
    }

    /** `callbackIfCurrentStateIs` (doge_promise.ts:83-111): schedules the
        callback only when `src` is in `target` state; `fb` says whether the
        penetration is `resolve` (true) or `reject`. */
    method CallbackIfCurrentStateIs(src: PromiseId, target: State, cb: Callback, arg: Value, derived: PromiseId, fb: bool)
      requires src < |promises|
      modifies this
      ensures promises == old(promises) && latches == old(latches)
      ensures queue == old(queue) + if promises[src].state == target then [RunCallback(derived, cb, arg, fb)] else []
    {
      if promises[src].state != target {
        return;
      }
      queue := queue + [RunCallback(derived, cb, arg, fb)];
    }

    /** `reject` (doge_promise.ts:73-75). */
    method Reject(p: PromiseId, reason: Value)
      requires S.Wf(Model()) && p < |promises| && Fits(reason, |promises|)
      modifies this
      ensures Model() == S.Reject(old(Model()), p, reason)
    {
      var _ := ChangeState(p, Rejected, reason);
    }

    /** `resolve` (doge_promise.ts:57-71): the handler chain, in order. */
    method Resolve(p: PromiseId, v: Value)
      requires S.Wf(Model()) && p < |promises| && Fits(v, |promises|)
      modifies this
      ensures Model() == S.Resolve(old(Model()), p, v)
      decreases ValueSize(v), 10
    {
      for i := 0 to |Chain|
        invariant S.Wf(Model()) && p < |promises| && Fits(v, |promises|)
        invariant S.ResolveFrom(Model(), p, v, i) == S.Resolve(old(Model()), p, v)
      {
        if CanResolve(Chain[i], v) {
          var resolved := TryToResolve(Chain[i], p, v);
          if resolved {
            break;
          }
        }
      }
    }

    /** `tryToResolve` of handler `h` (resolve_value_handler.ts:43-54, 62-98, 106-109). */
    method TryToResolve(h: Handler, p: PromiseId, v: Value) returns (resolved: bool)
      requires CanResolve(h, v)
      requires S.Wf(Model()) && p < |promises| && Fits(v, |promises|)
      modifies this
      ensures (resolved, Model()) == S.TryToResolve(old(Model()), h, p, v)
      decreases ValueSize(v), 5
    {
      match h
      case PromiseHandler =>
        var _ := Then(v.id, Forward(None, p, true), Forward(None, p, false));
        resolved := true;
      case DefaultHandler =>
        var _ := ChangeState(p, Fulfilled, v);
        resolved := true;
      case ThenableHandler =>
        if !IsObjectOrFunction(v) {
          return false;
        }
        match v
        case Promise(q) =>
          var l := NewLatch();
          var _ := Then(q, Forward(Some(l), p, true), Forward(Some(l), p, false));
          resolved := true;
        case Obj(member) =>
          match member {
            case NotCallable =>
              resolved := false;
            case GetterThrows(e) =>
              assert v == Obj(member) && member == GetterThrows(e);
              assert ValueSize(v) == 1 + MemberSize(member) && MemberSize(member) == 1 + ValueSize(e);
              assert Refs(v) == MemberRefs(member) && MemberRefs(member) == Refs(e);
              var l := NewLatch();
              Call(Some(l), p, false, e);
              resolved := true;
            case Callable(script) =>
              assert ValueSize(v) == 2 + ScriptSize(script) && Refs(v) == ScriptRefs(script);
              var l := NewLatch();
              var thrown := Run(Some(l), p, script);
              if thrown.Some? {
                Call(Some(l), p, false, thrown.value);
              }
              resolved := true;
          }
        case _ =>
          resolved := false;
    }

    /** `let isAlreadyResolved = false` (resolve_value_handler.ts:63). */
    method NewLatch() returns (l: LatchId)
      requires S.Wf(Model())
      modifies this
      ensures l == old(|latches|) && Model() == S.NewLatch(old(Model()))
    {
      l := |latches|;
      latches := latches + [false];
    }

    /** A capability call; behind a latch it is `safeCallResolveMethod`
        (resolve_value_handler.ts:64-68). */
    method Call(g: Option<LatchId>, p: PromiseId, resolve: bool, x: Value)
      requires S.Wf(Model()) && GuardBelow(g, |latches|) && p < |promises| && Fits(x, |promises|)
      modifies this
      ensures Model() == S.Call(old(Model()), g, p, resolve, x)
      decreases ValueSize(x), 11
    {
      if g.Some? {
        if latches[g.value] {
          return;
        }
        latches := latches[g.value := true];
      }
      assert S.Grows(old(Model()), Model()) by {
        assert S.Evolves(old(Model()), Model());
        S.StableFacts(old(Model()), Model());
        S.WfAfter(old(Model()), Model());
      }
      if resolve {
        Resolve(p, x);
      } else {
        Reject(p, x);
      }
    }

    /** User code holding the capabilities of `p` runs, step by step, until it
        ends or throws. */
    method Run(g: Option<LatchId>, p: PromiseId, s: seq<Action>) returns (thrown: Option<Value>)
      requires S.Wf(Model()) && GuardBelow(g, |latches|) && p < |promises| && ScriptFits(s, |promises|)
      modifies this
      ensures (thrown, Model()) == S.Run(old(Model()), g, p, s)
      decreases ScriptSize(s), 0
    {
      var i := 0;
      while i < |s|
        invariant 0 <= i <= |s|
        invariant S.Wf(Model()) && GuardBelow(g, |latches|) && p < |promises| && ScriptFits(s[i..], |promises|)
        invariant ScriptSize(s[i..]) <= ScriptSize(s)
        invariant S.Run(Model(), g, p, s[i..]) == S.Run(old(Model()), g, p, s)
      {
        assert s[i..][1..] == s[i + 1..];
        assert ScriptSize(s[i..]) == ActionSize(s[i]) + ScriptSize(s[i + 1..]);
        assert ScriptRefs(s[i..]) == ActionRefs(s[i]) + ScriptRefs(s[i + 1..]);
        match s[i] {
          case Throw(e) =>
            return Some(e);
          case Later(t) =>
            ghost var before := Model();
            queue := queue + [RunLater(g, p, t)];
            assert S.Grows(before, Model()) by {
              assert S.Evolves(before, Model());
              S.StableFacts(before, Model());
              S.WfAfter(before, Model());
            }
          case CallResolve(x) =>
            Call(g, p, true, x);
          case CallReject(x) =>
            Call(g, p, false, x);
        }
        i := i + 1;
      }
      thrown := None;
    }

    /** `then` (doge_promise.ts:77-139): returns the derived promise. */
    method Then(src: PromiseId, onFulfilled: Callback, onRejected: Callback) returns (d: PromiseId)
      requires S.Wf(Model()) && S.ThenArgsOk(Model(), src, onFulfilled, onRejected)
      modifies this
      ensures (d, Model()) == S.Then(old(Model()), src, onFulfilled, onRejected)
    {
      d := |promises|;
      promises := promises + [NewRec];
      var l := Reaction(d, onFulfilled, onRejected);
      if promises[src].state == Pending {
        promises := promises[src := promises[src].(listeners := promises[src].listeners + [l])];
      } else {
        HandleSettled(src, l);
      }
    }

    /** The fields of a new DogePromise (doge_promise.ts:32-33). */
    method Alloc() returns (p: PromiseId)
      requires S.Wf(Model())
      modifies this
      ensures p == old(|promises|) && Model() == S.Alloc(old(Model()))
    {
      p := |promises|;
      promises := promises + [NewRec];
    }

    /** `new DogePromise(initialTask)` (doge_promise.ts:26-39). */
    method Construct(init: seq<Action>) returns (p: PromiseId)
      requires S.Wf(Model()) && ScriptFits(init, |promises| + 1)
      modifies this
      ensures (p, Model()) == S.Construct(old(Model()), init)
    {
      p := Alloc();
      var thrown := Run(None, p, init);
      if thrown.Some? {
        Reject(p, thrown.value);
      }
    }

    // -------------------------------------------------------------------
    // enhance_method.ts

    /** `resolve(value)` (enhance_method.ts:3-7). */
    method ResolvedWith(v: Value) returns (p: PromiseId)
      requires S.Wf(Model()) && Fits(v, |promises|)
      modifies this
      ensures (p, Model()) == C.ResolvedWith(old(Model()), v)
    {
      p := Construct([CallResolve(v)]);
    }

    /** `reject(reason)` (enhance_method.ts:9-13). */
    method RejectedWith(reason: Value) returns (p: PromiseId)
      requires S.Wf(Model()) && Fits(reason, |promises|)
      modifies this
      ensures (p, Model()) == C.RejectedWith(old(Model()), reason)
    {
      p := Construct([CallReject(reason)]);
    }

    /** `checkResolve(i)` (enhance_method.ts:33-43). */
    method CheckResolve(a: PromiseId, inputs: seq<PromiseId>, i: nat, col: seq<Value>)
      requires S.Wf(Model()) && a < |promises| && IdsBelow(inputs, |promises|)
      requires i <= |inputs| && |col| == i && S.Collected(Model(), inputs, col) && Below(ItemsRefs(col), |promises|)
      modifies this
      ensures Model() == C.CheckResolve(old(Model()), a, inputs, i, col)
    {
      if i < |inputs| {
        var _ := Then(inputs[i], CollectInto(a, inputs, i, col), NotFunction);
      } else {
        Resolve(a, Array(col));
      }
    }

    /** `all(promises)` (enhance_method.ts:15-45). */
    method All(inputs: seq<PromiseId>) returns (a: PromiseId)
      requires S.Wf(Model()) && IdsBelow(inputs, |promises|)
      modifies this
      ensures (a, Model()) == C.All(old(Model()), inputs)
    {
      a := Alloc();
      ghost var before := Model();
      queue := queue + [CheckReject(a, inputs, 0)];
      assert S.Grows(before, Model()) by {
        assert S.Evolves(before, Model());
        S.StableFacts(before, Model());
        S.WfAfter(before, Model());
      }
      CheckResolve(a, inputs, 0, []);
    }

    /** `race(promises)` (enhance_method.ts:47-62). */
    method Race(inputs: seq<PromiseId>) returns (a: PromiseId)
      requires S.Wf(Model()) && IdsBelow(inputs, |promises|)
      modifies this
      ensures (a, Model()) == C.Race(old(Model()), inputs)
    {
      a := Alloc();
      for k := 0 to |inputs|
        invariant promises == old(promises) + [NewRec] && latches == old(latches)
        invariant queue == old(queue) + C.RaceTasks(a, inputs[..k])
      {
        assert C.RaceTasks(a, inputs[..k + 1]) == C.RaceTasks(a, inputs[..k]) + [Subscribe(a, inputs[k])];
        queue := queue + [Subscribe(a, inputs[k])];
      }
      assert inputs[..|inputs|] == inputs;
    }

    // -------------------------------------------------------------------
    // The scheduler

    /** Calls a callback that is a function with the settled payload. */
    method Invoke(d: PromiseId, cb: Callback, arg: Value, fb: bool) returns (c: Q.Completion)
      requires S.Wf(Model()) && S.TaskOk(Model(), RunCallback(d, cb, arg, fb)) && !cb.NotFunction?
      modifies this
      ensures (c, Model()) == Q.Invoke(old(Model()), d, cb, arg, fb)
    {
      match cb
      case Returns(v) =>
        c := Q.Normal(v);
      case Throws(e) =>
        c := Q.Abrupt(e);
      case Forward(g, t, res) =>
        Call(g, t, res, arg);
        c := Q.Normal(Undefined);
      case CollectInto(a, inputs, i, col) =>
        var col' := col + [arg];
        assert col'[..|col'| - 1] == col;
        assert S.Collected(Model(), inputs, col');
        CheckResolve(a, inputs, i + 1, col');
        c := Q.Normal(Undefined);
    }

    /** The `setTimeout` body of `callbackIfCurrentStateIs` (doge_promise.ts:91-110). */
    method Deferred(d: PromiseId, cb: Callback, arg: Value, fb: bool)
      requires S.Wf(Model()) && S.TaskOk(Model(), RunCallback(d, cb, arg, fb))
      modifies this
      ensures Model() == Q.Deferred(old(Model()), d, cb, arg, fb)
    {
      if cb.NotFunction? {
        if fb {
          Resolve(d, arg);
        } else {
          Reject(d, arg);
        }
        return;
      }
      var c := Invoke(d, cb, arg, fb);
      match c
      case Abrupt(e) =>
        Reject(d, e);
      case Normal(result) =>
        if result == Promise(d) {
          Reject(d, CycleError);
        } else {
          Resolve(d, result);
        }
    }

    /** Takes the oldest scheduled callback off the queue and runs it. */
    method Step()
      requires S.Wf(Model()) && |queue| > 0
      modifies this
      ensures Model() == Q.Step(old(Model()))
    {
      var t := queue[0];
      queue := queue[1..];
      assert S.Wf(Model()) && S.TaskOk(Model(), t) by {
        assert S.TaskOk(old(Model()), t);
        assert S.Evolves(old(Model()), Model());
        S.StableFacts(old(Model()), Model());
        S.WfAfter(old(Model()), Model());
      }
      match t
      case RunCallback(d, cb, arg, fb) =>
        Deferred(d, cb, arg, fb);
      case RunLater(g, p, s) =>
        var _ := Run(g, p, s);
      case CheckReject(a, inputs, i) =>
        // checkReject(i): subscribe to input i, then schedule checkReject(i + 1)
        if i < |inputs| {
          var _ := Then(inputs[i], NotFunction, Forward(None, a, false));
          queue := queue + [CheckReject(a, inputs, i + 1)];
        }
      case Subscribe(a, input) =>
        var _ := Then(input, Forward(None, a, true), Forward(None, a, false));
    }
  }
}
