/**
 * The wrapper of src/index.js: the key of the active-implementation slot
 * (`callee`) and `wrap`, which builds a forwarding function `caller`
 * whose behaviour can be swapped by reassigning `caller[callee]`.
 */
module Mynock {
  import opened Objects

  /**
   * The process environment: whether `NODE_ENV === 'production'` (read on
   * every call of `wrap`), whether `MYNOCK_SYMBOL_CALLEE` is set to a
   * non-empty string, and the identity of the symbol that would then be
   * created (both read once, when the module loads and fixes `callee`).
   * A process has one `callee`; callers of `Wrap` keep the two symbol
   * fields the same across calls.
   */
  datatype Env = Env(production: bool, symbolCallee: bool, calleeSymbol: nat)

  /** The plain-string slot name used unless a symbol is asked for. */
  const PlainCallee: Key := Named("__mynock_callee__")

  /**
   * `callee`: the key under which a proxy stores its active implementation.
   * A symbol cannot be addressed by any string property name, and the
   * key never coincides with the own properties `wrap` itself writes.
   */
  function Callee(env: Env): (k: Key)
    ensures !env.symbolCallee ==> k == Named("__mynock_callee__")
    ensures env.symbolCallee ==> forall s :: k != Named(s)
    ensures k != NameKey && k != LengthKey && k != PrototypeKey
  {
    if env.symbolCallee then Symbol(env.calleeSymbol) else PlainCallee
  }

  /**
   * `p` is a proxy built by `wrap` around `fn`: it forwards calls to its
   * own property `callee`, and its [[Prototype]] is `fn`.
   */
  ghost predicate ProxyOf(p: JsObject, fn: JsObject, callee: Key)
    reads p
    ensures ProxyOf(p, fn, callee) ==> p.Linked() && p.IsConstructor() && p.ancestors != [] && p.ancestors[0] == fn
  {
    && p.behavior == Forward(callee)
    && p.ancestors == [fn] + fn.ancestors
    && callee in p.own
  }

  /**
   * wrap(fn, name). In production it returns `fn` itself. Otherwise it
   * returns a fresh function `caller` whose slot holds `fn`, whose
   * `prototype` is `fn.prototype`, whose [[Prototype]] is `fn`, and whose
   * name is `name` when that is truthy. Nothing that existed before is
   * modified.
   */
  method Wrap(fn: JsObject, name: Value, env: Env) returns (r: JsObject)
    ensures env.production ==> r == fn
    ensures !env.production ==>
      && fresh(r)
      && ProxyOf(r, fn, Callee(env))
      && r.own == map[LengthKey := Num(0),
                      NameKey := if Truthy(name) then name else Str("caller"),
                      PrototypeKey := fn.Get(PrototypeKey),
                      Callee(env) := Ref(fn)]
    ensures fn.own == old(fn.own)
  {
    if !env.production {
      var callee := Callee(env);
      // `function caller() {...}` with the [[Prototype]] that Object.setPrototypeOf gives it;
      // nothing reads `caller` between its declaration and that call.
      var caller := new JsObject(map[NameKey := Str("caller"), LengthKey := Num(0)], fn, Forward(callee));
      caller.Put(callee, Ref(fn));
      caller.Put(PrototypeKey, fn.Get(PrototypeKey));
      if Truthy(name) {
        caller.Put(NameKey, name);
      }
      return caller;
    }
    return fn;
  }

  /**
   * Static properties fall through: a key the proxy does not have as an
   * own property is looked up on the original `fn`, in whatever state
   * `fn` is now; an own property of the proxy shadows it.
   */
  lemma StaticFallThrough(p: JsObject, fn: JsObject, callee: Key, k: Key)
    requires ProxyOf(p, fn, callee)
    ensures p.Get(k) == if k in p.own then p.own[k] else fn.Get(k)
  {
    GetIsOrdinaryGet(p, k);
  }

  /**
   * The slot is never consulted for static properties: two proxies of the
   * same `fn` whose own properties agree except in the slot agree on every
   * other key, whatever their slots hold.
   */
  lemma StaticsIgnoreSlot(p: JsObject, q: JsObject, fn: JsObject, callee: Key, k: Key)
    requires ProxyOf(p, fn, callee) && ProxyOf(q, fn, callee)
    requires p.own - {callee} == q.own - {callee}
    requires k != callee
    ensures p.Get(k) == q.Get(k)
  {
    StaticFallThrough(p, fn, callee, k);
    StaticFallThrough(q, fn, callee, k);
    assert k in p.own <==> k in p.own - {callee};
    assert k in q.own <==> k in q.own - {callee};
    if k in p.own {
      assert p.own[k] == (p.own - {callee})[k];
      assert q.own[k] == (q.own - {callee})[k];
    }
  }

  /**
   * Calling the proxy is calling whatever its slot holds now, with the
   * same receiver and arguments; the proxy costs one stack frame.
   */
  lemma CallForwardsToSlot(p: JsObject, fn: JsObject, callee: Key, self: Fields, args: seq<Value>, stack: nat)
    requires ProxyOf(p, fn, callee)
    ensures Apply(Ref(p), self, args, stack + 1) == Apply(p.own[callee], self, args, stack)
  {
  }

  /**
   * Whatever its slot holds, a proxy can be used with `new`, and its
   * instances inherit from the original's `prototype` object, as long as
   * the proxy's `prototype` equals `fn`'s current `prototype`. A
   * replacement constructor in the slot changes how instances are
   * initialised, never what they inherit. `wrap` copies `prototype` once:
   * reassigning `fn.prototype` afterwards does not reach the proxy.
   */
  lemma InstancesInheritFromOriginal(p: JsObject, fn: JsObject, callee: Key, objectPrototype: JsObject)
    requires ProxyOf(p, fn, callee)
    requires PrototypeKey in p.own && p.own[PrototypeKey] == fn.Get(PrototypeKey)
    ensures p.IsConstructor()
    ensures p.InstanceParent(objectPrototype) == fn.InstanceParent(objectPrototype)
  {
  }

  /**
   * Until its slot is reassigned, a proxy runs the original's code under
   * `new` on the same fresh receiver and arguments, one frame deeper. This
   * is the `Apply` step that `JsObject.Construct` takes on an empty
   * receiver; with `InstancesInheritFromOriginal` for the parent, the
   * instances `new` makes through the proxy match those made through `fn`.
   */
  lemma ConstructsLikeOriginal(p: JsObject, fn: JsObject, callee: Key, args: seq<Value>, stack: nat)
    requires ProxyOf(p, fn, callee) && p.own[callee] == Ref(fn)
    ensures Apply(Ref(p), map[], args, stack + 1) == Apply(Ref(fn), map[], args, stack)
  {
    CallForwardsToSlot(p, fn, callee, map[], args, stack);
  }
}
