/** Properties of `resolve` and of the resolve-value handler chain
    (doge_promise.ts:57-71, resolve_value_handler.ts). */
module HandlerProperties {
  import opened Values
  import opened Handlers
  import opened Semantics

  /** The chain loop ends with the first handler that can resolve the
      candidate and does not decline it: a declining handler leaves the
      machine as it was and passes the candidate on. */
  lemma ResolveUsesOwner(m: Machine, p: PromiseId, v: Value)
    requires Wf(m) && p < |m.promises| && Fits(v, |m.promises|)
    ensures Resolve(m, p, v) == TryToResolve(m, Owner(v), p, v).1
  {
    assert Chain[0] == PromiseHandler && Chain[1] == ThenableHandler && Chain[2] == DefaultHandler;
    if !v.Promise? {
      assert Resolve(m, p, v) == ResolveFrom(m, p, v, 1);
      if !CanResolve(ThenableHandler, v) || ThenableDeclines(v) {
        assert ResolveFrom(m, p, v, 1) == ResolveFrom(m, p, v, 2);
      }
    }
  }

  /** The default handler fulfils a pending promise with the candidate
      itself, unchanged. */
  lemma ResolvePlain(m: Machine, p: PromiseId, v: Value)
    requires Wf(m) && p < |m.promises| && Fits(v, |m.promises|)
    requires Owner(v) == DefaultHandler && m.promises[p].state == Pending
    ensures FulfilledWith(Resolve(m, p, v), p, v)
  {
    ResolveUsesOwner(m, p, v);
  }

  /** A candidate whose `then` getter throws rejects the promise with the
      thrown value. */
  lemma GetterThrowsRejects(m: Machine, p: PromiseId, e: Value)
    requires Wf(m) && p < |m.promises| && Fits(Obj(GetterThrows(e)), |m.promises|)
    requires m.promises[p].state == Pending
    ensures var r := Resolve(m, p, Obj(GetterThrows(e)));
            r.promises[p].state == Rejected && r.promises[p].reason == Some(e)
  {
    var v := Obj(GetterThrows(e));
    ResolveUsesOwner(m, p, v);
    assert Refs(e) == Refs(v);
    var m1 := NewLatch(m);
    var l := |m.latches|;
    var m2 := m1.(latches := m1.latches[l := true]);
    CloseLatchKeepsWf(m1, l);
    assert Call(m1, Some(l), p, false, e) == Reject(m2, p, e);
  }

  /** The script reaches its end or its first `Throw` without calling the
      resolve or the reject capability. */
  predicate SilentUntilThrow(s: seq<Action>) {
    s == [] || s[0].Throw? || (!s[0].CallResolve? && !s[0].CallReject? && SilentUntilThrow(s[1..]))
  }

  /** User code whose capability calls are all ignored (its latch is
      closed), or that calls no capability before it ends or throws, changes
      no promise and no latch: it can only schedule its `Later` steps. */
  lemma {:induction false} RunInert(m: Machine, g: Option<LatchId>, p: PromiseId, s: seq<Action>)
    requires Wf(m) && GuardBelow(g, |m.latches|) && p < |m.promises| && ScriptFits(s, |m.promises|)
    requires (g.Some? && m.latches[g.value]) || SilentUntilThrow(s)
    ensures Run(m, g, p, s).1.promises == m.promises && Run(m, g, p, s).1.latches == m.latches
    decreases |s|
  {
    if s != [] {
      assert ScriptRefs(s) == ActionRefs(s[0]) + ScriptRefs(s[1..]);
      match s[0]
      case Throw(_) =>
      case Later(t) =>
        var m1 := m.(queue := m.queue + [RunLater(g, p, t)]);
        EnqueueKeepsWf(m, RunLater(g, p, t));
        assert Run(m, g, p, s) == Run(m1, g, p, s[1..]);
        RunInert(m1, g, p, s[1..]);
      case CallResolve(x) =>
        assert Call(m, g, p, true, x) == m;
        RunInert(m, g, p, s[1..]);
      case CallReject(x) =>
        assert Call(m, g, p, false, x) == m;
        RunInert(m, g, p, s[1..]);
    }
  }

  /** The script only defers steps (`setTimeout`): it calls no capability
      and throws nothing. */
  predicate OnlyLater(s: seq<Action>) {
    forall i | 0 <= i < |s| :: s[i].Later?
  }

  /** The promises a concatenation of scripts refers to. */
  lemma {:induction false} ScriptRefsAppend(a: seq<Action>, b: seq<Action>)
    ensures ScriptRefs(a + b) == ScriptRefs(a) + ScriptRefs(b)
    decreases |a|
  {
    if a == [] {
      assert a + b == b;
    } else {
      assert (a + b)[0] == a[0] && (a + b)[1..] == a[1..] + b;
      ScriptRefsAppend(a[1..], b);
      assert ScriptRefs(a + b) == ActionRefs(a[0]) + ScriptRefs(a[1..] + b);
    }
  }

  /** Deferred steps at the head of a script only queue: they change no
      promise and no latch, and the rest of the script runs on the machine
      they leave. */
  lemma {:induction false} RunLaterPrefix(m: Machine, g: Option<LatchId>, p: PromiseId, pre: seq<Action>, s: seq<Action>)
    requires Wf(m) && GuardBelow(g, |m.latches|) && p < |m.promises| && OnlyLater(pre)
    requires ScriptFits(pre, |m.promises|) && ScriptFits(s, |m.promises|) && ScriptFits(pre + s, |m.promises|)
    ensures var b := Run(m, g, p, pre).1;
            b.promises == m.promises && b.latches == m.latches
            && Run(m, g, p, pre + s) == Run(b, g, p, s)
    decreases |pre|
  {
    if pre == [] {
      assert pre + s == s;
    } else {
      var t := pre[0].script;
      var m1 := m.(queue := m.queue + [RunLater(g, p, t)]);
      assert ScriptRefs(pre) == ActionRefs(pre[0]) + ScriptRefs(pre[1..]);
      assert (pre + s)[0] == pre[0] && (pre + s)[1..] == pre[1..] + s;
      assert ScriptRefs(pre + s) == ActionRefs(pre[0]) + ScriptRefs(pre[1..] + s);
      EnqueueKeepsWf(m, RunLater(g, p, t));
      assert Run(m, g, p, pre) == Run(m1, g, p, pre[1..]);
      assert Run(m, g, p, pre + s) == Run(m1, g, p, pre[1..] + s);
      RunLaterPrefix(m1, g, p, pre[1..], s);
    }
  }

  /** First call wins: user code holding capabilities behind an open latch
      (a thenable's `then` in progress, or a step it deferred with
      `setTimeout`) that defers some steps and then calls a capability ends
      with the promises and latches exactly as that first call leaves them;
      every later call through the latch is ignored. */
  lemma RunFirstCallWins(m: Machine, l: LatchId, p: PromiseId, pre: seq<Action>, s: seq<Action>)
    requires Wf(m) && l < |m.latches| && !m.latches[l] && p < |m.promises| && OnlyLater(pre)
    requires ScriptFits(pre, |m.promises|) && ScriptFits(s, |m.promises|) && ScriptFits(pre + s, |m.promises|)
    requires |s| > 0 && (s[0].CallResolve? || s[0].CallReject?) && Fits(s[0].arg, |m.promises|)
    ensures var b := Run(m, Some(l), p, pre).1;
            var r := Run(m, Some(l), p, pre + s).1;
            var c := Call(b, Some(l), p, s[0].CallResolve?, s[0].arg);
            b.promises == m.promises && r.promises == c.promises && r.latches == c.latches
  {
    RunLaterPrefix(m, Some(l), p, pre, s);
    var b := Run(m, Some(l), p, pre).1;
    assert ScriptRefs(s) == ActionRefs(s[0]) + ScriptRefs(s[1..]);
    var m2 := Call(b, Some(l), p, s[0].CallResolve?, s[0].arg);
    assert Run(b, Some(l), p, s) == Run(m2, Some(l), p, s[1..]);
    RunInert(m2, Some(l), p, s[1..]);
  }

  /** First call wins for a thenable: when its `then` defers some steps and
      then calls one of its two adapters, the promises end exactly as that
      one call leaves them; an exception thrown afterwards is ignored as
      well. */
  lemma ThenableFirstCallWins(m: Machine, p: PromiseId, pre: seq<Action>, s: seq<Action>)
    requires Wf(m) && p < |m.promises| && Fits(Obj(Callable(pre + s)), |m.promises|) && OnlyLater(pre)
    requires ScriptFits(pre, |m.promises|)
    requires |s| > 0 && (s[0].CallResolve? || s[0].CallReject?) && Fits(s[0].arg, |m.promises|)
    ensures var l := |m.latches|;
            var b := Run(NewLatch(m), Some(l), p, pre).1;
            b.promises == m.promises
            && Resolve(m, p, Obj(Callable(pre + s))).promises
                 == Call(b, Some(l), p, s[0].CallResolve?, s[0].arg).promises
  {
    var v := Obj(Callable(pre + s));
    ResolveUsesOwner(m, p, v);
    assert ValueSize(v) == 2 + ScriptSize(pre + s) && Refs(v) == ScriptRefs(pre + s);
    ScriptRefsAppend(pre, s);
    var l := |m.latches|;
    var m1 := NewLatch(m);
    var (thrown, m3) := Run(m1, Some(l), p, pre + s);
    RunFirstCallWins(m1, l, p, pre, s);
    if thrown.Some? {
      assert Call(m3, Some(l), p, false, thrown.value) == m3;
    }
  }

  /** A thenable whose first adapter call, after any deferred steps, is its
      resolve adapter with a plain value fulfils the promise with that
      value. */
  lemma ThenableCallbackFulfils(m: Machine, p: PromiseId, pre: seq<Action>, x: Value, rest: seq<Action>)
    requires Wf(m) && p < |m.promises| && OnlyLater(pre)
    requires Fits(Obj(Callable(pre + ([CallResolve(x)] + rest))), |m.promises|)
    requires Owner(x) == DefaultHandler && m.promises[p].state == Pending
    ensures FulfilledWith(Resolve(m, p, Obj(Callable(pre + ([CallResolve(x)] + rest)))), p, x)
  {
    var s := [CallResolve(x)] + rest;
    ScriptRefsAppend(pre, s);
    assert Refs(Obj(Callable(pre + s))) == ScriptRefs(pre + s);
    assert ScriptRefs(s) == ActionRefs(s[0]) + ScriptRefs(s[1..]);
    ThenableFirstCallWins(m, p, pre, s);
    var l := |m.latches|;
    var m1 := NewLatch(m);
    RunLaterPrefix(m1, Some(l), p, pre, s);
    var b := Run(m1, Some(l), p, pre).1;
    var m2 := b.(latches := b.latches[l := true]);
    CloseLatchKeepsWf(b, l);
    assert Call(b, Some(l), p, true, x) == Resolve(m2, p, x);
    ResolvePlain(m2, p, x);
  }

  /** A thenable whose `then` throws before calling either adapter rejects
      the promise with the thrown value. */
  lemma ThenableThrowRejects(m: Machine, p: PromiseId, s: seq<Action>, e: Value)
    requires Wf(m) && p < |m.promises| && Fits(Obj(Callable(s)), |m.promises|)
    requires SilentUntilThrow(s) && Thrown(s) == Some(e) && m.promises[p].state == Pending
    ensures var r := Resolve(m, p, Obj(Callable(s)));
            r.promises[p].state == Rejected && r.promises[p].reason == Some(e)
  {
    var v := Obj(Callable(s));
    ResolveUsesOwner(m, p, v);
    assert ValueSize(v) == 2 + ScriptSize(s) && Refs(v) == ScriptRefs(s);
    var l := |m.latches|;
    var m1 := NewLatch(m);
    var (thrown, m2) := Run(m1, Some(l), p, s);
    RunInert(m1, Some(l), p, s);
    var m3 := m2.(latches := m2.latches[l := true]);
    CloseLatchKeepsWf(m2, l);
    assert Call(m2, Some(l), p, false, e) == Reject(m3, p, e);
  }
}
