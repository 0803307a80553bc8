/**
 * The scenarios of src/examples.test.jsx and src/examples.jsx, each
 * replayed on the model and stated as the values it observes.
 */
module Scenarios {
  import opened Objects
  import opened Mynock

  /** The development environment the tests run in: string callee key. */
  const Dev: Env := Env(false, false, 0)

  /** Enough stack for every call below. */
  const Stack: nat := 8

  const AKey: Key := Named("a")
  const BKey: Key := Named("b")
  const AddKey: Key := Named("add")
  const DisplayNameKey: Key := Named("displayName")
  const DefaultPropsKey: Key := Named("defaultProps")

  /** The i-th argument; a missing argument is `undefined`. */
  function Arg(args: seq<Value>, i: nat): Value {
    if i < |args| then args[i] else Undefined
  }

  /** A property of the receiver; a missing one is `undefined`. */
  function Field(self: Fields, k: Key): Value {
    if k in self then self[k] else Undefined
  }

  /** `x + y` on numbers; other operands lie outside the model and give `undefined`. */
  function Plus(x: Value, y: Value): Value {
    if x.Num? && y.Num? then Num(x.n + y.n) else Undefined
  }

  /** `x * y` on numbers; other operands lie outside the model and give `undefined`. */
  function Times(x: Value, y: Value): Value {
    if x.Num? && y.Num? then Num(x.n * y.n) else Undefined
  }

  /** An arrow function returning the sum of its first two arguments. */
  const AddCode: Code := (self: Fields, args: seq<Value>) => Return(Plus(Arg(args, 0), Arg(args, 1)), self)

  /** An arrow function returning the product of its first two arguments. */
  const MultiplyCode: Code := (self: Fields, args: seq<Value>) => Return(Times(Arg(args, 0), Arg(args, 1)), self)

  /** A constructor storing its first two arguments as `a` and `b` on the receiver. */
  const InitCode: Code :=
    (self: Fields, args: seq<Value>) => Return(Undefined, self[AKey := Arg(args, 0)][BKey := Arg(args, 1)])

  /** The stub constructor: stores its first argument plus one as `a` and its second plus two as `b`. */
  const StubInitCode: Code :=
    (self: Fields, args: seq<Value>) =>
      Return(Undefined, self[AKey := Plus(Arg(args, 0), Num(1))][BKey := Plus(Arg(args, 1), Num(2))])

  /** The class method `add`: returns the sum of the receiver's `a` and `b`. */
  const SumFieldsCode: Code := (self: Fields, args: seq<Value>) => Return(Plus(Field(self, AKey), Field(self, BKey)), self)

  /** Object.prototype and Function.prototype. */
  method Intrinsics() returns (objectPrototype: JsObject, functionPrototype: JsObject)
    ensures fresh(objectPrototype) && objectPrototype.own == map[] && objectPrototype.ancestors == []
    ensures fresh(functionPrototype) && functionPrototype.own == map[]
    ensures functionPrototype.ancestors == [objectPrototype]
  {
    objectPrototype := new JsObject(map[], null, Ordinary);
    functionPrototype := new JsObject(map[], objectPrototype, Ordinary);
  }

  /** The exported `add`: the summing arrow function wrapped under the name 'add'. */
  method MakeAdd(functionPrototype: JsObject) returns (add: JsObject)
    ensures fresh(add) && add.behavior == Forward(PlainCallee)
    ensures add.ancestors != [] && add.ancestors[0].behavior == Native(AddCode, false)
    ensures PlainCallee in add.own && add.own[PlainCallee] == Ref(add.ancestors[0])
    ensures NameKey in add.own && add.own[NameKey] == Str("add")
  {
    var arrow := new JsObject(map[NameKey := Str(""), LengthKey := Num(2)], functionPrototype, Native(AddCode, false));
    add := Wrap(arrow, Str("add"), Dev);
  }

  /** 'wrap simple function': add(1, 2) is 3 and add.name is 'add'. */
  method WrapSimpleFunction() returns (sum: Completion, name: Value)
    ensures sum == Return(Num(3), map[])
    ensures name == Str("add")
  {
    var objectPrototype, functionPrototype := Intrinsics();
    var add := MakeAdd(functionPrototype);
    sum := add.Call(Undefined, [Num(1), Num(2)], Stack);
    name := add.Get(NameKey);
  }

  /**
   * 'simple stub spy': with a multiplying stub in the slot add(1, 2) is 2;
   * putting the saved original back restores the sum.
   */
  method StubSimpleFunction() returns (stubbed: Completion, restored: Completion)
    ensures stubbed == Return(Num(2), map[])
    ensures restored == Return(Num(3), map[])
  {
    var objectPrototype, functionPrototype := Intrinsics();
    var add := MakeAdd(functionPrototype);
    var saved := add.Get(PlainCallee);
    var multiply := new JsObject(map[], functionPrototype, Native(MultiplyCode, false));
    add.Put(PlainCallee, Ref(multiply));
    stubbed := add.Call(Undefined, [Num(1), Num(2)], Stack);
    add.Put(PlainCallee, saved);
    restored := add.Call(Undefined, [Num(1), Num(2)], Stack);
  }

  /**
   * The exported `MyCls`: a class whose constructor stores `a` and `b` and
   * whose prototype holds `add`, wrapped without a name.
   */
  method MakeMyCls(objectPrototype: JsObject, functionPrototype: JsObject)
    returns (myCls: JsObject, clsPrototype: JsObject, addMethod: JsObject)
    requires objectPrototype.own == map[] && objectPrototype.ancestors == []
    ensures fresh(myCls) && fresh(clsPrototype) && fresh(addMethod)
    ensures myCls.behavior == Forward(PlainCallee)
    ensures PlainCallee in myCls.own && myCls.own[PlainCallee].Ref?
    ensures myCls.own[PlainCallee].obj.behavior == Native(InitCode, true)
    ensures PrototypeKey in myCls.own && myCls.own[PrototypeKey] == Ref(clsPrototype)
    ensures clsPrototype.own == map[AddKey := Ref(addMethod)] && clsPrototype.ancestors == [objectPrototype]
    ensures addMethod.behavior == Native(SumFieldsCode, false)
  {
    addMethod := new JsObject(map[NameKey := Str("add"), LengthKey := Num(0)], functionPrototype, Native(SumFieldsCode, false));
    clsPrototype := new JsObject(map[AddKey := Ref(addMethod)], objectPrototype, Ordinary);
    var cls := new JsObject(map[NameKey := Str("MyCls"), LengthKey := Num(2), PrototypeKey := Ref(clsPrototype)],
                            functionPrototype, Native(InitCode, true));
    myCls := Wrap(cls, Undefined, Dev);
  }

  /**
   * `new myCls(1, 2).add()`: the instance is initialised by the code in the
   * slot and inherits `add` from `myCls.prototype`.
   */
  method NewAndAdd(myCls: JsObject, clsPrototype: JsObject, addMethod: JsObject, objectPrototype: JsObject)
    returns (c: Completion)
    requires myCls.behavior == Forward(PlainCallee)
    requires PlainCallee in myCls.own && myCls.own[PlainCallee].Ref? && myCls.own[PlainCallee].obj.behavior.Native?
    requires PrototypeKey in myCls.own && myCls.own[PrototypeKey] == Ref(clsPrototype)
    requires clsPrototype.own == map[AddKey := Ref(addMethod)] && clsPrototype.ancestors == [objectPrototype]
    requires objectPrototype.own == map[] && objectPrototype.ancestors == []
    requires addMethod.behavior == Native(SumFieldsCode, false)
    requires var run := myCls.own[PlainCallee].obj.behavior.code(map[], [Num(1), Num(2)]);
             run.Return? && !run.value.Ref? && AddKey !in run.self
    ensures var fields := myCls.own[PlainCallee].obj.behavior.code(map[], [Num(1), Num(2)]).self;
            c == Return(Plus(Field(fields, AKey), Field(fields, BKey)), fields)
  {
    var args := [Num(1), Num(2)];
    var ctor := myCls.own[PlainCallee].obj;
    var run := ctor.behavior.code(map[], args);
    assert Apply(Ref(myCls), map[], args, Stack) == Apply(Ref(ctor), map[], args, Stack - 1) == run;
    var made := myCls.Construct(args, Stack, objectPrototype);
    var instance := made.value.obj;
    assert instance.ancestors == [clsPrototype, objectPrototype];
    GetIsOrdinaryGet(instance, AddKey);
    GetIsOrdinaryGet(clsPrototype, AddKey);
    var add := instance.Get(AddKey);
    assert add == Ref(addMethod);
    c := add.obj.Call(Ref(instance), [], Stack);
  }

  /**
   * 'class constructor spy' and 'class constructor stub': instances of the
   * wrapped class use the original `add` method, both with the original
   * constructor (1 + 2) and with a stubbed one ((1 + 1) + (2 + 2)).
   */
  method ClassConstructor() returns (original: Completion, stubbed: Completion)
    ensures original.Return? && original.value == Num(3)
    ensures stubbed.Return? && stubbed.value == Num(6)
  {
    var objectPrototype, functionPrototype := Intrinsics();
    var myCls, clsPrototype, addMethod := MakeMyCls(objectPrototype, functionPrototype);
    original := NewAndAdd(myCls, clsPrototype, addMethod, objectPrototype);

    var stub := new JsObject(map[], functionPrototype, Native(StubInitCode, true));
    myCls.Put(PlainCallee, Ref(stub));
    stubbed := NewAndAdd(myCls, clsPrototype, addMethod, objectPrototype);
  }

  /** A stateless component: an arrow function of its props, so callable, not a constructor, with no `prototype`. */
  method MakeComponent(functionPrototype: JsObject, own: Fields) returns (component: JsObject)
    ensures fresh(component) && component.own == own
    ensures component.behavior.Native? && !component.IsConstructor()
    ensures component.ancestors == [functionPrototype] + functionPrototype.ancestors
  {
    var render := (self: Fields, args: seq<Value>) => Return(Undefined, self);
    component := new JsObject(own, functionPrototype, Native(render, false));
  }

  /** 'stateless React component with statics assigned after wrap': statics set on the proxy. */
  method StaticsOnProxyAfterWrap() returns (displayName: Value, defaultsFound: bool)
    ensures displayName == Str("My Stateless Component")
    ensures defaultsFound
  {
    var objectPrototype, functionPrototype := Intrinsics();
    var defaults := new JsObject(map[AKey := Str("Hello"), BKey := Str("World")], objectPrototype, Ordinary);
    var base := MakeComponent(functionPrototype, map[NameKey := Str(""), LengthKey := Num(1)]);
    var component := Wrap(base, Undefined, Dev);
    component.Put(DisplayNameKey, Str("My Stateless Component"));
    component.Put(DefaultPropsKey, Ref(defaults));
    displayName := component.Get(DisplayNameKey);
    defaultsFound := component.Get(DefaultPropsKey) == Ref(defaults);
  }

  /**
   * 'stateless React component with statics assigned before wrap': statics
   * set on the original read through the proxy. Having no name of its
   * own, the proxy is named 'caller'.
   */
  method StaticsOnOriginalBeforeWrap() returns (displayName: Value, defaultsFound: bool, name: Value)
    ensures displayName == Str("My Other Stateless Component")
    ensures defaultsFound
    ensures name == Str("caller")
  {
    var objectPrototype, functionPrototype := Intrinsics();
    var defaults := new JsObject(map[AKey := Str("Hello"), BKey := Str("World")], objectPrototype, Ordinary);
    var base := MakeComponent(functionPrototype,
      map[NameKey := Str("BaseStatelessComponent2"), LengthKey := Num(1),
          DisplayNameKey := Str("My Other Stateless Component"), DefaultPropsKey := Ref(defaults)]);
    var component := Wrap(base, Undefined, Dev);
    StaticFallThrough(component, base, PlainCallee, DisplayNameKey);
    StaticFallThrough(component, base, PlainCallee, DefaultPropsKey);
    displayName := component.Get(DisplayNameKey);
    defaultsFound := component.Get(DefaultPropsKey) == Ref(defaults);
    name := component.Get(NameKey);
  }

  /** A static set on the original after wrapping reads through the proxy too. */
  method StaticsOnOriginalAfterWrap() returns (displayName: Value)
    ensures displayName == Str("My Late Component")
  {
    var objectPrototype, functionPrototype := Intrinsics();
    var base := MakeComponent(functionPrototype, map[NameKey := Str(""), LengthKey := Num(1)]);
    var component := Wrap(base, Undefined, Dev);
    base.Put(DisplayNameKey, Str("My Late Component"));
    StaticFallThrough(component, base, PlainCallee, DisplayNameKey);
    displayName := component.Get(DisplayNameKey);
  }

  /** In production `wrap` hands back the original, which has no slot. */
  method ProductionBypass() returns (same: bool, slot: Value, sum: Completion)
    ensures same
    ensures slot == Undefined
    ensures sum == Return(Num(3), map[])
  {
    var objectPrototype, functionPrototype := Intrinsics();
    var arrow := new JsObject(map[NameKey := Str(""), LengthKey := Num(2)], functionPrototype, Native(AddCode, false));
    var add := Wrap(arrow, Str("add"), Env(true, false, 0));
    same := add == arrow;
    slot := add.Get(PlainCallee);
    sum := add.Call(Undefined, [Num(1), Num(2)], 1);
  }
}
