/** The behaviour of DogePromise as functions over a `Machine`: the promise
    table, the FIFO queue that stands for `setTimeout`, and the
    `isAlreadyResolved` latches of the thenable handler.

    Each operation here is the specification of the method of the same name
    in module Runtime. Every one of them keeps the machine well formed
    (`Wf`), only lets it evolve (`Evolves`: a settled promise never changes
    again and a closed latch never reopens) and only appends to the queue
    (`Grows`). `Step` and `Drain` in module Scheduler are the exceptions to
    the last: they take tasks off the head of the queue. */
module Semantics {
  import opened Values
  import opened Handlers

  datatype Machine = Machine(promises: seq<Rec>, queue: seq<Task>, latches: seq<bool>)

  /** No promise, no pending task, no latch. */
  const Empty: Machine := Machine([], [], [])

  // =====================================================================
  // Well-formedness

  predicate FulfilledWith(m: Machine, q: PromiseId, x: Value) {
    q < |m.promises| && m.promises[q].state == Fulfilled && m.promises[q].value == Some(x)
  }

  /** `col` holds the values of the first |col| inputs, in input order. */
  predicate Collected(m: Machine, inputs: seq<PromiseId>, col: seq<Value>) {
    |col| <= |inputs| && forall j | 0 <= j < |col| :: FulfilledWith(m, inputs[j], col[j])
  }

  /** A `checkResolve` callback attached to `src` is the one for input
      `index == |collected|`, and the values collected so far are those of
      the inputs before it. */
  predicate CollectReady(m: Machine, cb: Callback, src: PromiseId) {
    cb.CollectInto? ==>
      cb.index < |cb.inputs| && |cb.collected| == cb.index && cb.inputs[cb.index] == src
      && Collected(m, cb.inputs, cb.collected)
  }

  predicate CallbackIn(m: Machine, cb: Callback) {
    CallbackFits(cb, |m.promises|, |m.latches|)
  }

  predicate ListenerOk(m: Machine, q: PromiseId, l: Listener) {
    l.derived < |m.promises| && CallbackIn(m, l.onFulfilled) && CallbackIn(m, l.onRejected)
    && CollectReady(m, l.onFulfilled, q) && !l.onRejected.CollectInto?
  }

  predicate TaskOk(m: Machine, t: Task) {
    match t
    case RunCallback(d, cb, arg, fb) =>
      d < |m.promises| && CallbackIn(m, cb) && Fits(arg, |m.promises|)
      && (cb.CollectInto? ==>
            fb && cb.index < |cb.inputs| && CollectReady(m, cb, cb.inputs[cb.index])
            && FulfilledWith(m, cb.inputs[cb.index], arg))
    case RunLater(g, p, s) => GuardBelow(g, |m.latches|) && p < |m.promises| && ScriptFits(s, |m.promises|)
    case CheckReject(a, inputs, _) => a < |m.promises| && IdsBelow(inputs, |m.promises|)
    case Subscribe(r, q) => r < |m.promises| && q < |m.promises|
  }

  predicate RecOk(m: Machine, q: PromiseId)
    requires q < |m.promises|
  {
    var r := m.promises[q];
    Consistent(r)
    && (r.value.Some? ==> Fits(r.value.value, |m.promises|))
    && (r.reason.Some? ==> Fits(r.reason.value, |m.promises|))
    && forall l | l in r.listeners :: ListenerOk(m, q, l)
  }

  /** Every reference resolves, payloads are exclusive, and every pending
      `checkResolve` step carries the values of the inputs before it. */
  predicate Wf(m: Machine) {
    (forall q | 0 <= q < |m.promises| :: RecOk(m, q))
    && (forall t | t in m.queue :: TaskOk(m, t))
  }

  /** How one promise record may change: once settled, never again; while
      pending, listeners are only appended. */
  predicate Advances(a: Rec, b: Rec) {
    if a.state != Pending then b == a else a.listeners <= b.listeners
  }

  predicate Evolves(m: Machine, r: Machine) {
    |m.promises| <= |r.promises| && |m.latches| <= |r.latches|
    && (forall q | 0 <= q < |m.promises| :: Advances(m.promises[q], r.promises[q]))
    && (forall l | 0 <= l < |m.latches| && m.latches[l] :: r.latches[l])
  }

  /** What every operation but `Step` guarantees. */
  predicate Grows(m: Machine, r: Machine) {
    Wf(r) && Evolves(m, r) && m.queue <= r.queue
  }

  lemma EvolvesTrans(a: Machine, b: Machine, c: Machine)
    requires Evolves(a, b) && Evolves(b, c)
    ensures Evolves(a, c)
  {
    forall q | 0 <= q < |a.promises|
      ensures Advances(a.promises[q], c.promises[q])
    {
      assert Advances(a.promises[q], b.promises[q]);
      assert Advances(b.promises[q], c.promises[q]);
    }
  }

  lemma GrowsTrans(a: Machine, b: Machine, c: Machine)
    requires Grows(a, b) && Grows(b, c)
    ensures Grows(a, c)
  {
    EvolvesTrans(a, b, c);
  }

  /** What `Wf` says of one listener or task stays true as the machine evolves. */
  lemma StableFacts(m: Machine, r: Machine)
    requires Evolves(m, r)
    ensures forall q, l :: ListenerOk(m, q, l) ==> ListenerOk(r, q, l)
    ensures forall t :: TaskOk(m, t) ==> TaskOk(r, t)
    ensures forall inputs, col :: Collected(m, inputs, col) ==> Collected(r, inputs, col)
  {
    forall inputs, col | Collected(m, inputs, col) ensures Collected(r, inputs, col) {
      forall j | 0 <= j < |col| ensures FulfilledWith(r, inputs[j], col[j]) {
        assert FulfilledWith(m, inputs[j], col[j]);
        assert Advances(m.promises[inputs[j]], r.promises[inputs[j]]);
      }
    }
    forall t | TaskOk(m, t) ensures TaskOk(r, t) {
      if t.RunCallback? && t.callback.CollectInto? {
        var cb := t.callback;
        assert FulfilledWith(m, cb.inputs[cb.index], t.arg);
        assert Advances(m.promises[cb.inputs[cb.index]], r.promises[cb.inputs[cb.index]]);
      }
    }
  }

  /** Record `q` of `r` is that of `m`, or is consistent, holds payloads that
      fit, and every listener it gained is well formed. */
  predicate RecChangeOk(m: Machine, r: Machine, q: PromiseId)
    requires q < |m.promises| <= |r.promises|
  {
    var b := r.promises[q];
    b == m.promises[q]
    || (Consistent(b)
        && (b.value.Some? ==> Fits(b.value.value, |r.promises|))
        && (b.reason.Some? ==> Fits(b.reason.value, |r.promises|))
        && forall l | l in b.listeners :: l in m.promises[q].listeners || ListenerOk(r, q, l))
  }

  /** A well-formed machine stays well formed when its records advance. */
  lemma WfAfter(m: Machine, r: Machine)
    requires Wf(m) && Evolves(m, r)
    requires forall q | |m.promises| <= q < |r.promises| :: r.promises[q] == NewRec
    requires forall q | 0 <= q < |m.promises| :: RecChangeOk(m, r, q)
    requires forall t | t in r.queue && t !in m.queue :: TaskOk(r, t)
    ensures Wf(r)
  {
    StableFacts(m, r);
    forall q | 0 <= q < |r.promises| ensures RecOk(r, q) {
      if q < |m.promises| {
        assert RecOk(m, q);
        assert RecChangeOk(m, r, q);
        forall l | l in r.promises[q].listeners ensures ListenerOk(r, q, l) {
          if l in m.promises[q].listeners {
            assert ListenerOk(m, q, l);
          }
        }
        if r.promises[q] == m.promises[q] {
          assert Fits(Payload(m.promises[q].value), |m.promises|);
          assert Fits(Payload(m.promises[q].reason), |m.promises|);
        }
      }
    }
    forall t | t in r.queue ensures TaskOk(r, t) {
      if t in m.queue {
        assert TaskOk(m, t);
      }
    }
  }

  /** Closing a latch keeps the machine well formed. */
  lemma CloseLatchKeepsWf(m: Machine, l: LatchId)
    requires Wf(m) && l < |m.latches|
    ensures Grows(m, m.(latches := m.latches[l := true]))
  {
    var r := m.(latches := m.latches[l := true]);
    assert Evolves(m, r);
    StableFacts(m, r);
    WfAfter(m, r);
  }

  /** Scheduling a well-formed task keeps the machine well formed. */
  lemma EnqueueKeepsWf(m: Machine, t: Task)
    requires Wf(m) && TaskOk(m, t)
    ensures Grows(m, m.(queue := m.queue + [t]))
  {
    var r := m.(queue := m.queue + [t]);
    assert Evolves(m, r);
    StableFacts(m, r);
    WfAfter(m, r);
  }

  // =====================================================================
  // changeState (doge_promise.ts:47-55)

  /** The tasks `handleWhenPromiseIsResolved` enqueues for listener `l` once
      its source is `rec`: `callbackIfCurrentStateIs` for FULFILLED, then for
      REJECTED; only the branch matching the state does anything. */
  function Reactions(l: Listener, rec: Rec): (ts: seq<Task>)
    ensures rec.state == Pending ==> ts == []
    ensures rec.state != Pending ==> |ts| == 1 && ts[0].RunCallback? && ts[0].derived == l.derived
    ensures rec.state == Fulfilled ==> ts[0].fulfilledBranch && ts[0].callback == l.onFulfilled && ts[0].arg == Payload(rec.value)
    ensures rec.state == Rejected ==> !ts[0].fulfilledBranch && ts[0].callback == l.onRejected && ts[0].arg == Payload(rec.reason)
  {
    (if rec.state == Fulfilled then [RunCallback(l.derived, l.onFulfilled, Payload(rec.value), true)] else [])
    + (if rec.state == Rejected then [RunCallback(l.derived, l.onRejected, Payload(rec.reason), false)] else [])
  }

  /** `onPromiseResolvedListeners.forEach((cb) => cb())`: on a settled
      record, one task per listener; on a pending one, none. */
  function Dispatch(ls: seq<Listener>, rec: Rec): (ts: seq<Task>)
    ensures rec.state == Pending ==> ts == []
    ensures rec.state != Pending ==> |ts| == |ls|
  {
    if ls == [] then [] else Dispatch(ls[..|ls| - 1], rec) + Reactions(ls[|ls| - 1], rec)
  }

  lemma ReactionsOk(m: Machine, q: PromiseId, l: Listener)
    requires Wf(m) && q < |m.promises| && m.promises[q].state != Pending && RecOk(m, q)
    requires ListenerOk(m, q, l)
    ensures forall t | t in Reactions(l, m.promises[q]) :: TaskOk(m, t)
  {
  }

  lemma DispatchOk(m: Machine, q: PromiseId, ls: seq<Listener>)
    requires Wf(m) && q < |m.promises| && m.promises[q].state != Pending && RecOk(m, q)
    requires forall l | l in ls :: ListenerOk(m, q, l)
    ensures forall t | t in Dispatch(ls, m.promises[q]) :: TaskOk(m, t)
  {
    if ls != [] {
      DispatchOk(m, q, ls[..|ls| - 1]);
      ReactionsOk(m, q, ls[|ls| - 1]);
    }
  }

  /** The record `changeState` writes: the new state, and the payload in
      `value` when fulfilling, in `reason` otherwise. */
  function SettledRec(before: Rec, s: State, x: Value): (r: Rec)
    ensures r.state == s && r.listeners == before.listeners
    ensures s == Fulfilled ==> r.value == Some(x) && r.reason == before.reason
    ensures s != Fulfilled ==> r.reason == Some(x) && r.value == before.value
    ensures Consistent(before) && before.state == Pending && s != Pending ==> Consistent(r)
  {
    if s == Fulfilled then before.(state := s, value := Some(x)) else before.(state := s, reason := Some(x))
  }

  function ChangeState(m: Machine, p: PromiseId, s: State, x: Value): (r: (bool, Machine))
    requires Wf(m) && p < |m.promises| && Fits(x, |m.promises|)
    ensures Grows(m, r.1) && |r.1.promises| == |m.promises| && r.1.latches == m.latches
    ensures r.0 <==> m.promises[p].state == Pending && s != Pending
    ensures !r.0 ==> r.1 == m
    ensures r.0 ==> r.1.promises[p].state == s && r.1.promises[p].listeners == m.promises[p].listeners
    ensures r.0 && s == Fulfilled ==> r.1.promises[p].value == Some(x)
    ensures r.0 && s == Rejected ==> r.1.promises[p].reason == Some(x)
    ensures r.0 ==> r.1.queue == m.queue + Dispatch(m.promises[p].listeners, r.1.promises[p])
    ensures forall q | 0 <= q < |m.promises| && q != p :: r.1.promises[q] == m.promises[q]
  {
    var cur := m.promises[p];
    if cur.state != Pending || s == Pending then (false, m)
    else
      var rec := SettledRec(cur, s, x);
      var r := m.(promises := m.promises[p := rec], queue := m.queue + Dispatch(cur.listeners, rec));
      SettleKeepsWf(m, p, s, x);
      (true, r)
  }

  lemma SettleKeepsWf(m: Machine, p: PromiseId, s: State, x: Value)
    requires Wf(m) && p < |m.promises| && Fits(x, |m.promises|)
    requires m.promises[p].state == Pending && s != Pending
    ensures var rec := SettledRec(m.promises[p], s, x);
            Grows(m, m.(promises := m.promises[p := rec], queue := m.queue + Dispatch(m.promises[p].listeners, rec)))
  {
    var cur := m.promises[p];
    var rec := SettledRec(cur, s, x);
    var mid := m.(promises := m.promises[p := rec]);
    var r := mid.(queue := m.queue + Dispatch(cur.listeners, rec));
    assert RecOk(m, p);
    assert Evolves(m, mid);
    StableFacts(m, mid);
    assert forall l | l in cur.listeners :: ListenerOk(mid, p, l);
    WfAfter(m, mid);
    DispatchOk(mid, p, cur.listeners);
    assert Evolves(m, r);
    WfAfter(m, r);
  }

  /** `reject` (doge_promise.ts:73-75). */
  function Reject(m: Machine, p: PromiseId, reason: Value): (r: Machine)
    requires Wf(m) && p < |m.promises| && Fits(reason, |m.promises|)
    ensures Grows(m, r) && |r.promises| == |m.promises| && r.latches == m.latches
    ensures m.promises[p].state == Pending ==> r.promises[p].state == Rejected && r.promises[p].reason == Some(reason)
    ensures m.promises[p].state != Pending ==> r == m
  {
    ChangeState(m, p, Rejected, reason).1
  }

  // =====================================================================
  // then (doge_promise.ts:77-139)

  /** What a `then(onFulfilled, onRejected)` on `src` may be given. The
      callbacks run only after `then` has returned, so they may refer to the
      derived promise `then` is about to create (index |promises|). */
  predicate ThenArgsOk(m: Machine, src: PromiseId, onFulfilled: Callback, onRejected: Callback) {
    src < |m.promises|
    && CallbackFits(onFulfilled, |m.promises| + 1, |m.latches|)
    && CallbackFits(onRejected, |m.promises| + 1, |m.latches|)
    && CollectReady(m, onFulfilled, src) && !onRejected.CollectInto?
  }

  /** Creates the derived promise (index |promises|); the reaction is appended
      to the source's listeners when it is pending, and run at once otherwise. */
  function Then(m: Machine, src: PromiseId, onFulfilled: Callback, onRejected: Callback): (r: (PromiseId, Machine))
    requires Wf(m) && ThenArgsOk(m, src, onFulfilled, onRejected)
    ensures Grows(m, r.1) && r.1.latches == m.latches
    ensures r.0 == |m.promises| && |r.1.promises| == |m.promises| + 1 && r.1.promises[r.0] == NewRec
    ensures forall q | 0 <= q < |m.promises| && q != src :: r.1.promises[q] == m.promises[q]
    ensures m.promises[src].state == Pending ==>
              r.1.queue == m.queue
              && r.1.promises[src] == m.promises[src].(listeners := m.promises[src].listeners + [Reaction(r.0, onFulfilled, onRejected)])
    ensures m.promises[src].state != Pending ==>
              r.1.promises[src] == m.promises[src]
              && r.1.queue == m.queue + Reactions(Reaction(r.0, onFulfilled, onRejected), m.promises[src])
  {
    var d := |m.promises|;
    var l := Reaction(d, onFulfilled, onRejected);
    var m1 := m.(promises := m.promises + [NewRec]);
    var cur := m.promises[src];
    var r := if cur.state == Pending
      then m1.(promises := m1.promises[src := cur.(listeners := cur.listeners + [l])])
      else m1.(queue := m.queue + Reactions(l, cur));
    ThenKeepsWf(m, src, onFulfilled, onRejected);
    (d, r)
  }

  lemma ThenKeepsWf(m: Machine, src: PromiseId, onFulfilled: Callback, onRejected: Callback)
    requires Wf(m) && ThenArgsOk(m, src, onFulfilled, onRejected)
    ensures var l := Reaction(|m.promises|, onFulfilled, onRejected);
            var m1 := m.(promises := m.promises + [NewRec]);
            var cur := m.promises[src];
            Grows(m, if cur.state == Pending
                     then m1.(promises := m1.promises[src := cur.(listeners := cur.listeners + [l])])
                     else m1.(queue := m.queue + Reactions(l, cur)))
  {
    var d := |m.promises|;
    var l := Reaction(d, onFulfilled, onRejected);
    var m1 := m.(promises := m.promises + [NewRec]);
    var cur := m.promises[src];
    assert Evolves(m, m1);
    StableFacts(m, m1);
    assert ListenerOk(m1, src, l);
    assert RecOk(m, src);
    if cur.state == Pending {
      var r := m1.(promises := m1.promises[src := cur.(listeners := cur.listeners + [l])]);
      assert Evolves(m, r);
      StableFacts(m, r);
      assert ListenerOk(r, src, l);
      forall q, l' | 0 <= q < |m.promises| && l' in r.promises[q].listeners && l' !in m.promises[q].listeners
        ensures ListenerOk(r, q, l')
      {
        assert q == src && l' == l;
      }
      WfAfter(m, r);
    } else {
      WfAfter(m, m1);
      assert RecOk(m1, src);
      ReactionsOk(m1, src, l);
      var r := m1.(queue := m.queue + Reactions(l, cur));
      assert Evolves(m, r);
      WfAfter(m, r);
    }
  }

  // =====================================================================
  // resolve (doge_promise.ts:57-71) and the handlers' tryToResolve
  // (resolve_value_handler.ts:43-54, 62-98, 106-109)

  /** `resolve(v)` of promise `p`: the handler chain from its start. */
  function Resolve(m: Machine, p: PromiseId, v: Value): (r: Machine)
    requires Wf(m) && p < |m.promises| && Fits(v, |m.promises|)
    ensures Grows(m, r)
    decreases ValueSize(v), 10
  {
    ResolveFrom(m, p, v, 0)
  }

  /** The `for ... of` loop over the chain, from handler `i` on: a handler is
      asked to `tryToResolve` only when it `canResolve`, and the loop stops at
      the first that returns true. */
  function ResolveFrom(m: Machine, p: PromiseId, v: Value, i: nat): (r: Machine)
    requires i <= |Chain|
    requires Wf(m) && p < |m.promises| && Fits(v, |m.promises|)
    ensures Grows(m, r)
    decreases ValueSize(v), 9 - i
  {
    if i == |Chain| then m
    else if CanResolve(Chain[i], v) then
      var (resolved, m1) := TryToResolve(m, Chain[i], p, v);
      if resolved then m1
      else
        var r := ResolveFrom(m1, p, v, i + 1);
        GrowsTrans(m, m1, r);
        r
    else ResolveFrom(m, p, v, i + 1)
  }

  /** A fresh `isAlreadyResolved` latch, initially false. */
  function NewLatch(m: Machine): (r: Machine)
    requires Wf(m)
    ensures Grows(m, r) && |r.latches| == |m.latches| + 1 && !r.latches[|m.latches|]
    ensures r.promises == m.promises && r.queue == m.queue
  {
    var r := m.(latches := m.latches + [false]);
    StableFacts(m, r);
    WfAfter(m, r);
    r
  }

  function TryToResolve(m: Machine, h: Handler, p: PromiseId, v: Value): (r: (bool, Machine))
    requires CanResolve(h, v)
    requires Wf(m) && p < |m.promises| && Fits(v, |m.promises|)
    ensures Grows(m, r.1)
    ensures r.0 <==> h != ThenableHandler || !ThenableDeclines(v)
    ensures !r.0 ==> r.1 == m
    decreases ValueSize(v), 5
  {
    match h
    case PromiseHandler =>
      // Follow the candidate: forward its value or reason to this promise.
      (true, Then(m, v.id, Forward(None, p, true), Forward(None, p, false)).1)
    case DefaultHandler =>
      (true, ChangeState(m, p, Fulfilled, v).1)
    case ThenableHandler =>
      if !IsObjectOrFunction(v) then (false, m)
      else
        match v
        case Promise(q) =>
          // `then` of a DogePromise is a function: call it with the adapters.
          var m1 := NewLatch(m);
          var l := |m.latches|;
          var r := Then(m1, q, Forward(Some(l), p, true), Forward(Some(l), p, false)).1;
          GrowsTrans(m, m1, r);
          (true, r)
        case Obj(member) => (
          match member
          case NotCallable => (false, m)
          case GetterThrows(e) =>
            assert Refs(e) == Refs(v) && ValueSize(v) == 2 + ValueSize(e);
            var m1 := NewLatch(m);
            var r := Call(m1, Some(|m.latches|), p, false, e);
            GrowsTrans(m, m1, r);
            (true, r)
          case Callable(script) =>
            assert ValueSize(v) == 2 + ScriptSize(script) && Refs(v) == ScriptRefs(script);
            var m1 := NewLatch(m);
            var l := |m.latches|;
            var (thrown, m2) := Run(m1, Some(l), p, script);
            GrowsTrans(m, m1, m2);
            if thrown.Some? then
              var r := Call(m2, Some(l), p, false, thrown.value);
              GrowsTrans(m, m2, r);
              (true, r)
            else (true, m2))
        case _ =>
          // Arrays and the cycle TypeError: `then` is undefined.
          (false, m)
  }

  /** One call of a capability of `p`; with a guard it is
      `safeCallResolveMethod`: only the first call through a latch acts. */
  function Call(m: Machine, g: Option<LatchId>, p: PromiseId, resolve: bool, x: Value): (r: Machine)
    requires Wf(m) && GuardBelow(g, |m.latches|) && p < |m.promises| && Fits(x, |m.promises|)
    ensures Grows(m, r)
    ensures g.Some? ==> r.latches[g.value]
    ensures g.Some? && m.latches[g.value] ==> r == m
    decreases ValueSize(x), 11
  {
    if g.Some? && m.latches[g.value] then m
    else
      var m1 := if g.Some? then m.(latches := m.latches[g.value := true]) else m;
      assert Evolves(m, m1);
      StableFacts(m, m1);
      WfAfter(m, m1);
      var r := if resolve then Resolve(m1, p, x) else Reject(m1, p, x);
      GrowsTrans(m, m1, r);
      r
  }

  /** User code run with the capabilities of `p` (behind latch `g`, if any):
      the result is the exception it throws, if it throws one. */
  function Run(m: Machine, g: Option<LatchId>, p: PromiseId, s: seq<Action>): (r: (Option<Value>, Machine))
    requires Wf(m) && GuardBelow(g, |m.latches|) && p < |m.promises| && ScriptFits(s, |m.promises|)
    ensures Grows(m, r.1)
    ensures r.0 == Thrown(s)
    ensures r.0.Some? ==> ValueSize(r.0.value) < ScriptSize(s) && Fits(r.0.value, |r.1.promises|)
    decreases ScriptSize(s), 0
  {
    if s == [] then (None, m)
    else
      assert ScriptSize(s) == ActionSize(s[0]) + ScriptSize(s[1..]);
      assert ScriptRefs(s) == ActionRefs(s[0]) + ScriptRefs(s[1..]);
      match s[0]
      case Throw(e) => (Some(e), m)
      case Later(t) =>
        var m1 := m.(queue := m.queue + [RunLater(g, p, t)]);
        assert Evolves(m, m1);
        StableFacts(m, m1);
        WfAfter(m, m1);
        var r := Run(m1, g, p, s[1..]);
        GrowsTrans(m, m1, r.1);
        r
      case CallResolve(x) =>
        var m1 := Call(m, g, p, true, x);
        var r := Run(m1, g, p, s[1..]);
        GrowsTrans(m, m1, r.1);
        r
      case CallReject(x) =>
        var m1 := Call(m, g, p, false, x);
        var r := Run(m1, g, p, s[1..]);
        GrowsTrans(m, m1, r.1);
        r
  }

  // =====================================================================
  // The constructor (doge_promise.ts:26-39)

  /** A new PENDING promise with no listeners at index |promises|. */
  function Alloc(m: Machine): (r: Machine)
    requires Wf(m)
    ensures Grows(m, r) && r.promises == m.promises + [NewRec]
    ensures r.queue == m.queue && r.latches == m.latches
  {
    var r := m.(promises := m.promises + [NewRec]);
    assert Evolves(m, r);
    StableFacts(m, r);
    WfAfter(m, r);
    r
  }

  /** `new DogePromise(initialTask)`: the initializer runs at once with the
      new promise's `resolve` and `reject`; if it throws, the promise is
      rejected with what it threw (a no-op when it already settled). Steps
      the initializer defers (`setTimeout`) run after the constructor has
      returned, so they may refer to the promise being built (index
      |promises|). */
  function Construct(m: Machine, init: seq<Action>): (r: (PromiseId, Machine))
    requires Wf(m) && ScriptFits(init, |m.promises| + 1)
    ensures Grows(m, r.1) && r.0 == |m.promises| < |r.1.promises|
  {
    var p := |m.promises|;
    var m1 := Alloc(m);
    var (thrown, m2) := Run(m1, None, p, init);
    GrowsTrans(m, m1, m2);
    if thrown.Some? then
      var r := Reject(m2, p, thrown.value);
      GrowsTrans(m, m2, r);
      (p, r)
    else (p, m2)
  }
}
