/**
 * The slice of JavaScript object semantics that the wrapper relies on:
 * property keys and values, objects with own data properties and a
 * prototype chain, ordinary property lookup ([[Get]]), calling ([[Call]])
 * and construction with `new` ([[Construct]]).
 */
module Objects {

  /** A property key: a string name or a symbol (identified abstractly by a number). */
  datatype Key = Named(name: string) | Symbol(id: nat)

  /** The own properties every function object has, and the one `new` reads. */
  const NameKey: Key := Named("name")
  const LengthKey: Key := Named("length")
  const PrototypeKey: Key := Named("prototype")

  /** The values a property, an argument or a result can hold. Numbers are integers. */
  datatype Value =
    | Undefined
    | Null
    | Bool(b: bool)
    | Num(n: int)
    | Str(s: string)
    | Sym(id: nat)
    | Ref(obj: JsObject)

  /**
   * ToBoolean: the test an `if (x)` applies. The falsy values are exactly
   * `undefined`, `null`, `false`, `0` and the empty string.
   */
  function Truthy(v: Value): (b: bool)
    ensures !b <==> v in {Undefined, Null, Bool(false), Num(0), Str("")}
  {
    match v
    case Undefined => false
    case Null => false
    case Bool(b) => b
    case Num(n) => n != 0
    case Str(s) => s != ""
    case Sym(_) => true
    case Ref(_) => true
  }

  /** The own data properties of one object. */
  type Fields = map<Key, Value>

  /** Errors the engine itself throws. */
  datatype EngineError =
    | TypeError   // calling or constructing something that is not a function
    | RangeError  // the call stack is exhausted

  /**
   * How a call ends: normally, with the returned value; by a `throw` in the
   * called code; or by an error the engine raises before any code runs.
   * Once code has run, `self` holds the receiver's own properties as the
   * code left them, also when it threw.
   */
  datatype Completion =
    | Return(value: Value, self: Fields)
    | Throw(error: Value, self: Fields)
    | Fault(kind: EngineError)

  /**
   * The code of a function written in JavaScript: given the own properties
   * of its receiver `this` and its arguments, it completes. Code signals
   * its own errors with `Throw(error, self)`, keeping the writes it made to
   * `this`; it never returns `Fault`, which only the engine raises.
   */
  type Code = (Fields, seq<Value>) -> Completion

  /** What happens when an object is called. */
  datatype Behavior =
    | Ordinary                                // not callable
    | Native(code: Code, isConstructor: bool) // a function; arrow functions are not constructors
    | Forward(slot: Key)                      // applies its own property `slot` to the same receiver and arguments

  /** The own properties of `v` when it is an object, and none otherwise. */
  function Receiver(v: Value): Fields
    reads if v.Ref? then {v.obj} else {}
  {
    if v.Ref? then v.obj.own else map[]
  }

  /**
   * The value of key `k` on the first object of `chain` that has `k` as
   * an own property, or `undefined` when none has.
   */
  function Lookup(chain: seq<JsObject>, k: Key): (r: Value)
    reads chain
    ensures forall i :: (0 <= i < |chain| && k in chain[i].own && forall j :: 0 <= j < i ==> k !in chain[j].own) ==>
      r == chain[i].own[k]
    ensures (forall i :: 0 <= i < |chain| ==> k !in chain[i].own) ==> r == Undefined
  {
    if chain == [] then Undefined
    else if k in chain[0].own then chain[0].own[k]
    else Lookup(chain[1..], k)
  }

  /**
   * [[Call]] of the value `f` with a receiver whose own properties are
   * `self`, with `stack` further calls left before the stack overflows.
   * Code runs, and the call can end other than by an engine error, only
   * when `f` is a function and stack is left.
   */
  function Apply(f: Value, self: Fields, args: seq<Value>, stack: nat): (c: Completion)
    reads *
    ensures !c.Fault? ==> f.Ref? && !f.obj.behavior.Ordinary? && stack > 0
    decreases stack
  {
    if !f.Ref? || f.obj.behavior.Ordinary? then Fault(TypeError)
    else if stack == 0 then Fault(RangeError)
    else match f.obj.behavior
      case Native(code, _) => code(self, args)
      case Forward(slot) => Apply(f.obj.Get(slot), self, args, stack - 1)
  }

  class JsObject {
    /** Own data properties. */
    var own: Fields
    /** The prototype chain: [[Prototype]], its [[Prototype]], and so on. */
    const ancestors: seq<JsObject>
    const behavior: Behavior

    /** A new object with the given own properties and [[Prototype]]. */
    constructor (own: Fields, proto: JsObject?, behavior: Behavior)
      ensures this.own == own
      ensures this.ancestors == if proto == null then [] else [proto] + proto.ancestors
      ensures this.behavior == behavior
      ensures Linked()
    {
      this.own := own;
      this.ancestors := if proto == null then [] else [proto] + proto.ancestors;
      this.behavior := behavior;
    }

    /** The chain after the first ancestor is that ancestor's own chain. */
    ghost predicate Linked() {
      ancestors == [] || ancestors[0].ancestors == ancestors[1..]
    }

    predicate IsConstructor() {
      behavior.Forward? || (behavior.Native? && behavior.isConstructor)
    }

    /** o[k]: own property first, then along the prototype chain. */
    function Get(k: Key): (r: Value)
      reads this, ancestors
      ensures k in own ==> r == own[k]
      ensures k !in own && ancestors == [] ==> r == Undefined
    {
      Lookup([this] + ancestors, k)
    }

    /** o[k] = v, creating or overwriting an own data property. */
    method Put(k: Key, v: Value)
      modifies this
      ensures own == old(own)[k := v]
    {
      own := own[k := v];
    }

    /** f.apply(thisArg, args): runs this function, writing the receiver's new own properties back. */
    method Call(thisArg: Value, args: seq<Value>, stack: nat) returns (c: Completion)
      modifies if thisArg.Ref? then {thisArg.obj} else {}
      ensures c == old(Apply(Ref(this), Receiver(thisArg), args, stack))
      ensures thisArg.Ref? ==> thisArg.obj.own == if c.Fault? then old(thisArg.obj.own) else c.self
      decreases stack
    {
      if behavior.Ordinary? {
        return Fault(TypeError);
      }
      if stack == 0 {
        return Fault(RangeError);
      }
      match behavior
      case Native(code, _) =>
        c := code(Receiver(thisArg), args);
        if !c.Fault? && thisArg.Ref? {
          thisArg.obj.own := c.self;
        }
      case Forward(slot) =>
        var target := Get(slot);
        if target.Ref? {
          c := target.obj.Call(thisArg, args, stack - 1);
        } else {
          c := Fault(TypeError);
        }
    }

    /**
     * The object `new` makes instances inherit from: this function's
     * `prototype` property when it is an object, else `objectPrototype`.
     */
    function InstanceParent(objectPrototype: JsObject): (parent: JsObject)
      reads this, ancestors
      ensures PrototypeKey in own && own[PrototypeKey].Ref? ==> parent == own[PrototypeKey].obj
      ensures PrototypeKey in own && !own[PrototypeKey].Ref? ==> parent == objectPrototype
      ensures PrototypeKey !in own && ancestors == [] ==> parent == objectPrototype
    {
      var p := Get(PrototypeKey);
      if p.Ref? then p.obj else objectPrototype
    }

    /**
     * new f(...args): a fresh instance inheriting from InstanceParent,
     * initialised by calling this function on it. A returned object
     * replaces the instance.
     */
    method Construct(args: seq<Value>, stack: nat, objectPrototype: JsObject) returns (c: Completion)
      ensures !IsConstructor() ==> c == Fault(TypeError)
      ensures IsConstructor() && !old(Apply(Ref(this), map[], args, stack)).Return? ==>
        c == old(Apply(Ref(this), map[], args, stack))
      ensures IsConstructor() && old(Apply(Ref(this), map[], args, stack)).Return? ==>
        var run := old(Apply(Ref(this), map[], args, stack));
        && c.Return? && c.self == run.self
        && (run.value.Ref? ==> c.value == run.value)
        && (!run.value.Ref? ==>
              && c.value.Ref? && fresh(c.value.obj)
              && c.value.obj.own == run.self
              && c.value.obj.ancestors == [InstanceParent(objectPrototype)] + InstanceParent(objectPrototype).ancestors
              && c.value.obj.behavior.Ordinary?)
    {
      if !IsConstructor() {
        return Fault(TypeError);
      }
      var parent := InstanceParent(objectPrototype);
      // The code sees the fresh instance's (empty) own properties; it cannot observe the allocation itself.
      var run := Apply(Ref(this), map[], args, stack);
      if !run.Return? {
        return run;
      }
      if run.value.Ref? {
        return run;
      }
      var instance := new JsObject(run.self, parent, Ordinary);
      c := Return(Ref(instance), run.self);
    }
  }

  /**
   * The stack bound only cuts calls short: a call that completes without
   * overflowing completes the same way with more stack.
   */
  lemma {:induction false} MoreStackSameOutcome(f: Value, self: Fields, args: seq<Value>, stack: nat, more: nat)
    requires stack <= more
    requires Apply(f, self, args, stack) != Fault(RangeError)
    ensures Apply(f, self, args, more) == Apply(f, self, args, stack)
    decreases stack
  {
    if f.Ref? && f.obj.behavior.Forward? && stack > 0 {
      MoreStackSameOutcome(f.obj.Get(f.obj.behavior.slot), self, args, stack - 1, more - 1);
    }
  }

  /** Ordinary [[Get]]: an own property wins, otherwise the lookup continues at the [[Prototype]]. */
  lemma {:induction false} GetIsOrdinaryGet(o: JsObject, k: Key)
    requires o.Linked()
    ensures o.Get(k) == if k in o.own then o.own[k]
                        else if o.ancestors == [] then Undefined
                        else o.ancestors[0].Get(k)
  {
    if k !in o.own && o.ancestors != [] {
      var p := o.ancestors[0];
      assert ([o] + o.ancestors)[1..] == o.ancestors;
      assert [p] + p.ancestors == o.ancestors;
    }
  }
}
