# mynock, modelled in Dafny

mynock wraps a function or class so that tests can swap its behaviour at
run time. `wrap(fn, name)` returns a forwarding function `caller`. Every
call to `caller` applies whatever is currently stored in its own property
`caller[callee]`, passing the same `this` and arguments. A test stubs the
function by reassigning that property. Every holder of the wrapped
reference then sees the new behaviour. The wrapper also does three more
things:

- It gives `caller` the original's `prototype`, so `new caller(...)` builds
  instances with the original's methods.
- It makes the original the `[[Prototype]]` of `caller`, so static properties
  fall through to it.
- It renames `caller` when it is given a truthy `name`.

In production (`NODE_ENV === 'production'`), `wrap` returns `fn` unchanged.

The project has three modules:

- `Objects` (`objects.dfy`) holds the part of JavaScript the wrapper relies
  on. A `JsObject` has mutable own data properties (`own`), a prototype
  chain fixed when it is created (`ancestors`) and a behaviour: not callable,
  a function given by its code, or a forwarder through a property key.
  - `Lookup` and `Get` are the ordinary property read.
  - `Put` is a property write.
  - `Apply` is the specification of a call, and the method `Call` carries it
    out.
  - `Construct` is `new`.
  - Function code is a Dafny function value. It maps the receiver's own
    properties and the arguments to a completion: a return or a `throw`,
    each with the receiver's new properties, or an engine error
    (`TypeError`, `RangeError`) raised before any code runs.
- `Mynock` (`mynock.dfy`) holds `callee` (`Callee`), `wrap` (`Wrap`) and the
  lemmas about wrapped proxies. The environment is passed in as an `Env`
  value.
- `Scenarios` (`scenarios.dfy`) replays the scenarios of `src/examples.test.jsx`
  and `src/examples.jsx` on the model. Each one is stated as the values it
  observes.

The code and its doc comment disagree, and the model follows the code. The
doc comment at `src/index.js:1-6` names a variable `MYNOCK_STRING_CALLEE` and
describes the symbol as the default. The code at `src/index.js:7-9` reads
`MYNOCK_SYMBOL_CALLEE` and uses the plain string `'__mynock_callee__'` unless
that variable is set.

Three consequences of the code are visible in the model:

- `caller` is a function declaration, so it has its own `name` (`"caller"`)
  and `length` (0). These shadow the original's `name` and `length`, so
  those two never fall through. Without a truthy `name`, the proxy is
  named `"caller"` (`Wrap`, `Scenarios.StaticsOnOriginalBeforeWrap`).
- `new proxy(...)` never raises the not-a-constructor `TypeError`. `caller`
  is always constructible, and it calls the slot's value with `apply`
  rather than constructing it. So a proxy around an arrow function can be
  used with `new`.
- Each proxy costs one stack frame. A slot that holds the proxy itself
  recurses until the stack limit, passed as `stack`, runs out with
  `RangeError`.

## Model

| member | source | states |
|---|---|---|
| `Mynock.Callee` | src/index.js:7-9 | The slot key is the string `'__mynock_callee__'` unless the symbol flag is set. In that case it equals no string-named key at all. It never coincides with `name`, `length` or `prototype`. |
| `Mynock.Wrap` | src/index.js:17-31 | In production, the result is `fn` itself. Otherwise the result is a fresh forwarder whose `[[Prototype]]` is `fn`. Its own properties are exactly: `length` 0, `name` (`name` if truthy, otherwise `"caller"`), `prototype` equal to `fn.prototype`, and the slot holding `fn`. `fn` is not modified. |
| `Mynock.StaticFallThrough` | src/index.js:24 | On a proxy of `fn`, a key the proxy has as an own property reads that own value. Any other key reads `fn`'s current value, whether it was attached before or after wrapping. |
| `Mynock.StaticsIgnoreSlot` | src/index.js:22-24 | Two proxies of the same `fn` that differ only in the slot agree on every other key. The slot's value is never consulted for statics. |
| `Mynock.CallForwardsToSlot` | src/index.js:19-21 | Calling a proxy is calling the value its slot holds now, with the same receiver and arguments, one stack frame deeper. |
| `Mynock.ProxyOf` | src/index.js:19-24 | The shape `wrap` builds: a forwarder through the slot whose `[[Prototype]]` is `fn` and which owns the slot. Such a proxy is always a constructor and its chain continues with `fn`'s. |
| `Mynock.InstancesInheritFromOriginal` | src/index.js:23 | Whatever the slot holds, even a replacement constructor, a proxy whose `prototype` equals `fn`'s current `prototype` can be used with `new` and gives instances the same parent as `fn` does. `wrap` copies `prototype` once, so reassigning `fn.prototype` after wrapping does not reach the proxy. |
| `Mynock.ConstructsLikeOriginal` | src/index.js:19-22 | While the slot still holds `fn`, the `Apply` step of `new` on the proxy (the empty fresh receiver) equals `fn`'s, one stack frame deeper. |
| `Objects.Truthy` | src/index.js:25 | The test `if (name)`: the falsy values are exactly `undefined`, `null`, `false`, `0` and the empty string. |
| `Objects.Apply` | src/index.js:19-21 | Calling a value. Code runs, and the call ends other than by an engine error, only when the value is a function and stack is left. A forwarder applies its slot's current value to the same receiver and arguments. |
| `Objects.MoreStackSameOutcome` | src/index.js:19-21 | The stack bound only cuts calls short: a call that completes without a stack overflow completes the same way with more stack. |
| `Objects.Lookup` | src/index.js:24 | Reading a key along a chain returns the value on the first object that owns the key, or `undefined` when none does. |
| `Objects.JsObject.Get` | src/index.js:20 | A property read returns the own value when there is one, and `undefined` when the key is missing and there is no prototype. |
| `Objects.GetIsOrdinaryGet` | src/index.js:24 | A property read is own-then-`[[Prototype]]`: a key missing on an object is read from its first ancestor. |
| `Objects.JsObject.Put` | src/index.js:22-23 | An assignment sets exactly that own property and leaves the other own properties unchanged. |
| `Objects.JsObject.Call` | src/index.js:19-21 | A call completes as `Apply` specifies, evaluated before the call. Once code has run, whether it returned or threw, the receiver's own properties are those the code left. After an engine error, raised before any code runs, they are unchanged. |
| `Objects.JsObject.InstanceParent` | src/index.js:23 | The object `new` makes instances inherit from: the function's own `prototype` when that is an object, and `Object.prototype` when it owns a non-object `prototype`, or owns none and has no `[[Prototype]]`. |
| `Objects.JsObject.Construct` | src/index.js:23 | `new` on a non-constructor is a `TypeError`. A `throw` or engine error propagates. A returned object replaces the instance. Otherwise the result is a fresh instance whose parent is the function's `prototype` object and whose own properties are those the code produced. |
| `Scenarios.MakeAdd` | src/examples.jsx:6 | The exported `add` is a fresh proxy under the plain slot key, named `'add'`, whose slot holds the summing arrow function it inherits from. |
| `Scenarios.MakeMyCls` | src/examples.jsx:9-18 | The exported `MyCls` is a fresh proxy whose slot holds a constructor storing `a` and `b`, and whose `prototype` is the class prototype holding `add`. |
| `Scenarios.MakeComponent` | src/examples.jsx:21-25 | A stateless component is a fresh function, callable but not a constructor, with the given own properties and with `Function.prototype` as its `[[Prototype]]`. |
| `Scenarios.WrapSimpleFunction` | src/examples.test.jsx:34-38 | `add(1, 2)` returns 3 and `add.name` is `'add'`. |
| `Scenarios.StubSimpleFunction` | src/examples.test.jsx:51-60 | With a multiplying stub in the slot, `add(1, 2)` returns 2. After the saved original is put back, it returns 3. |
| `Scenarios.NewAndAdd` | src/examples.test.jsx:62-81 | `new MyCls(1, 2).add()` adds the fields that the slot's code gave the instance, using the `add` method of `MyCls.prototype`. |
| `Scenarios.ClassConstructor` | src/examples.test.jsx:62-81 | `new MyCls(1, 2).add()` is 3 with the original constructor. With the stub that sets `a + 1` and `b + 2`, it is 6. |
| `Scenarios.StaticsOnProxyAfterWrap` | src/examples.jsx:20-35 | A `displayName` and `defaultProps` assigned to the proxy after wrapping read back through it. |
| `Scenarios.StaticsOnOriginalBeforeWrap` | src/examples.jsx:37-54 | A `displayName` and `defaultProps` assigned to the original before wrapping read through the proxy. The unnamed proxy's `name` is `"caller"`. |
| `Scenarios.StaticsOnOriginalAfterWrap` | src/index.js:24 | A static assigned to the original after wrapping reads through the proxy. |
| `Scenarios.ProductionBypass` | src/index.js:18 | In production, `wrap` returns the original. It has no slot, and calling it adds. |

## Left out

- Reading `process.env` is left out. The two flags and the identity of the fresh symbol are passed in as `Env`. Symbols are abstract numbers, and their uniqueness is not modelled.
- Mynock.Callee: the source fixes `callee` once, when the module loads (src/index.js:7-9), while `NODE_ENV` is read on every call of `wrap` (src/index.js:18). The model computes the key from the `Env` given to each `Wrap`, so two wraps with different symbol fields would use different keys; one process has one key, and the scenarios use one `Env` throughout.
- Mynock.Wrap: its argument is always an object, as the declared API asks (`@param {Function} fn`, src/index.d.ts:13). Wrapping `undefined`, `null` or a primitive is not modelled. In development the source then throws a `TypeError`: at `fn.prototype` (src/index.js:23) for `undefined` and `null`, and at `Object.setPrototypeOf` (src/index.js:24) for a number or a string. In production it returns such a value unchanged (src/index.js:30).
- `Object.setPrototypeOf` (src/index.js:24) is not a separate step. `caller` is created with `fn` as its `[[Prototype]]`, because the model fixes every prototype chain at creation. Nothing observes `caller` between its declaration and that call.
- The fresh `prototype` object that the declaration of `caller` would own is not modelled, because src/index.js:23 overwrites it straight away.
- Property attributes, getters and setters, and non-writable properties are left out. `Put` models both the plain assignments and the `Object.defineProperty` of line 26 as a write of a data property.
- Function code sees only the receiver's own properties and its arguments. It cannot read inherited properties of `this` or touch other objects. A receiver that is not an object is presented as having no properties, and writes to it are dropped.
- `.apply` is taken to be the standard `Function.prototype.apply`. A slot value whose own `apply` has been overridden is not modelled.
- Native ES classes are left out. Calling one through `apply` throws. The tests rely on transpiled classes, which the model treats as plain constructor functions.
- Numbers are integers, with no floating point, `NaN` or string concatenation. The scenario helpers give `undefined` for operands outside integers.
- `Objects.JsObject.Construct` runs the constructor's code on an empty receiver and then allocates the instance with the resulting properties. JavaScript allocates first. Code cannot observe the allocation, so the result is the same.
- Sinon's spies and stubs are not modelled: call recording, `calledWith` and `sandbox.restore`. A stub is a `Put` of the slot, and a restore is a `Put` of the saved original. Tape, Enzyme and React rendering are not modelled either.
- The scenario fixtures carry only the properties the scenarios read. `MyCls.prototype` has no `constructor` property, `Object.prototype` and `Function.prototype` own nothing, and the first `defaultProps` assignment (src/examples.jsx:28-31) and the `propTypes` (src/examples.jsx:45-48) are skipped. None of these changes a value a scenario observes.
- The React scenario with a stubbed component constructor (src/examples.test.jsx:119-131) is not modelled, because it depends on `React.Component`.
- src/tsc-test.ts and src/index.d.ts are type-level only. Their one promise, that `wrap` returns a value of its argument's type (src/index.d.ts:13), holds because `Wrap` returns a `JsObject` like its argument.
