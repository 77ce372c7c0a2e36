/** The decision part of the resolve-value handler chain
    (resolve_value_handler.ts): which handler claims a candidate. What the
    handlers then do to the promise lives in module Semantics. */
module Handlers {
  import opened Values

  datatype Handler = PromiseHandler | ThenableHandler | DefaultHandler

  /** `resolveValueHandlerChain`, in the order `resolve` tries it. */
  const Chain: seq<Handler> := [PromiseHandler, ThenableHandler, DefaultHandler]

  /** `canResolve` of each handler: every handler accepts a DogePromise, and
      only the default handler accepts undefined and null. */
  predicate CanResolve(h: Handler, v: Value): (b: bool)
    ensures v.Promise? ==> b
    ensures b && (v.Undefined? || v.Null?) ==> h == DefaultHandler
  {
    match h
    case PromiseHandler => v.Promise?
    case ThenableHandler => !v.Null? && !v.Undefined?
    case DefaultHandler => true
  }

  /** `typeof v` is "object" or "function" (null included, as in JavaScript). */
  predicate IsObjectOrFunction(v: Value): (b: bool)
    ensures v.Promise? || v.Obj? || v.Array? || v.CycleError? || v.Null? ==> b
    ensures v.Undefined? || v.Prim? ==> !b
  {
    !v.Undefined? && !v.Prim?
  }

  /** The thenable handler's `tryToResolve` returns false: the candidate is not
      an object or function, or reading its `then` gives something that is not
      a function (arrays and the cycle TypeError have no `then`). */
  predicate ThenableDeclines(v: Value): (b: bool)
    ensures v.Promise? ==> !b
    ensures v.Obj? ==> (b <==> v.member.NotCallable?)
    ensures v.Undefined? || v.Prim? || v.Array? || v.CycleError? ==> b
  {
    !IsObjectOrFunction(v) || (v.Obj? && v.member.NotCallable?) || v.Array? || v.CycleError?
  }

  /** The handler whose `tryToResolve` settles or forwards the candidate: the
      first of the chain that can resolve it and does not decline. */
  function Owner(v: Value): (h: Handler)
    ensures CanResolve(h, v)
    ensures h == PromiseHandler <==> v.Promise?
    ensures h == ThenableHandler <==> v.Obj? && !v.member.NotCallable?
    ensures h == DefaultHandler <==>
              v.Undefined? || v.Null? || v.Prim? || v.Array? || v.CycleError? || (v.Obj? && v.member.NotCallable?)
    ensures h == ThenableHandler ==> !ThenableDeclines(v)
  {
    if v.Promise? then PromiseHandler
    else if CanResolve(ThenableHandler, v) && !ThenableDeclines(v) then ThenableHandler
    else DefaultHandler
  }
}
