# react-yield-as-render-props in Dafny

A model of the generator-to-render-prop resolver of `src/index.js`. A React
component can be written as a generator function. Each `yield <Element />`
suspends the component until the yielded element, rendered with a render-prop
`children`, calls that `children` with a value. The value becomes the result
of the `yield` expression. `generatorComponent(innerFn)` turns such a generator
function into an ordinary function component:

- `isGenerator` decides whether `innerFn(props)` returned a generator
  (`Symbol.iterator in value`).
- A non-generator result is returned as it is.
- A generator is advanced by `runGenerator`, which is first called with
  `undefined`. On `done` it returns the generator's return value verbatim.
  Otherwise it returns a clone of the yielded element whose `children` prop is
  `runGenerator` itself.

Files:

- `js_values.dfy` (module `JsValues`): the JavaScript values the code handles.
  These are primitives, plain objects, arrays, React elements (`Node`: a
  component and its props, `children` among them) and the `runGenerator`
  closures. The file also defines the operators the example components use:
  `+`, `||`, `!==` against a number, and object destructuring.
- `generators.dfy` (module `Generators`): generator objects as the state machine
  of the ECMAScript iteration protocol (ECMAScript 2024, sections 27.1 and 27.5).
  A body is `Yield(node, resume) | Return(value) | Throw(error)`. An instance is
  `SuspendedStart | SuspendedYield | Completed`, and `Next` is `generator.next(v)`.
  `Performs` is the reference description of a run: the body yields Y1..Yn,
  receives v1..vn, and then ends.
- `resolver.dfy` (module `Resolver`): `IsGenerator`, `CloneElement`,
  `RunGenerator`, `GeneratorComponent` and `Drive`. `Drive` is the host engine calling a
  `children` closure once for each value in a list.
- `resolver_laws.dfy` (module `ResolverLaws`): the laws of the resolver.
- `example.dfy` (module `Example`): `AddTwo`, `MyGenerator`, `NonGenerator` and
  `GeneratorWithNoYield`, with the worked examples as lemmas.

A generator object is mutable. Every element cloned while driving one
generator carries the same `runGenerator` closure. The model keeps every
generator instance in a store (`Runtime`), and a closure value
`Callback(RunGeneratorOf(id))` names its instance. So calling the `children`
of an old element advances the generator from its current state, as in the
source. Each function that can advance a generator takes the store and
returns the updated store along with its result.

React lets a function component return `null` (and, since React 18,
`undefined`) to render nothing. This wrapper does not: when `innerFn` returns `undefined`, `null` or
another primitive, `Symbol.iterator in value` throws a TypeError, so
`IsGenerator` returns `Abrupt` and the wrapper throws instead of rendering
nothing. An array passes the check, and the wrapper
then fails calling `generator.next`. The tagged `Returned = Plain(value) |
GeneratorObject(body)` stands for what `innerFn` returns: a generator function
returns a generator object, and any other function returns a value.

## Model

| member | source | states |
|---|---|---|
| Resolver.CloneElement | src/index.js:38-40 | the clone keeps the element's type, has the union of the old and new prop keys, takes overridden props from the config and every other prop from the original |
| Resolver.RunGenerator | src/index.js:25-44 | one call advances only its own generator instance, by exactly one `next` with the given value, leaves every other instance as it was, and throws exactly when `next` throws |
| Resolver.GeneratorComponent | src/index.js:17-49 | a call creates exactly one new generator instance when `innerFn` returned a generator and none otherwise, and leaves all earlier instances untouched |
| Resolver.Drive | src/index.js:25-44 | calling a `children` closure once per value gives one result per call and changes no other generator instance |
| Generators.Next | src/index.js:26 | `next` leaves the generator suspended exactly when it yields and completed exactly when it is done or throws; a completed generator answers `{value: undefined, done: true}` |
| JsValues.Add | src/index.js:10 | JavaScript `+`: numbers add, strings concatenate, a string plus a number appends the number's decimal text, undefined or NaN with a number gives NaN, non-string primitives give a number or NaN |
| JsValues.OrIsDisjunction | src/index.js:52 | `a \|\| b` is truthy exactly when `a` or `b` is, and it is one of its operands: `a` when `a` is truthy, `b` otherwise |
| JsValues.DestructureValueRoundTrip | src/index.js:52 | `const { value: x } = {…, value: v}` gives `v` back whatever else the object holds; destructuring throws exactly for undefined and null; an object without `value` gives undefined |
| ResolverLaws.Classification | src/index.js:13-23 | the wrapper drives a generator exactly when `innerFn` returned one; an object without `Symbol.iterator` comes back unchanged with the store untouched; a primitive or an array makes the wrapper throw |
| ResolverLaws.PassThrough | src/index.js:19-23 | a non-generator element, object or function returned by `innerFn` is the wrapper's result, unchanged, with no generator created |
| ResolverLaws.FirstAdvance | src/index.js:46-47 | the wrapper's result is that of `runGenerator(undefined)` on the new instance, and any other first value would give the same result |
| ResolverLaws.FirstResult | src/index.js:28-43 | the wrapper's first result read off the body: its return value verbatim, its thrown error, or the clone of its first yielded element bound to the new instance, with the instance's state after that step |
| ResolverLaws.NoYield | src/index.js:28-33 | a generator that returns at once makes the wrapper return exactly its return value (undefined included), with no cloned element |
| ResolverLaws.CloneChangesOnlyChildren | src/index.js:34-42 | on a yield, the result is an element of the yielded type with the yielded props, except that `children` is the instance's own `runGenerator` |
| ResolverLaws.ResumeAdvancesOneStep | src/index.js:26 | calling the continuation with `v` makes `v` the value of the pending `yield` and advances the generator exactly one step, to a clone of the next yield, the return value, or the thrown error |
| ResolverLaws.ResumeAfterCompletion | src/index.js:26 | calling the continuation of a completed generator again returns undefined each time and changes nothing |
| ResolverLaws.DriveFollowsScript | src/index.js:25-44 | a generator suspended at a `yield` that, fed v0..vn, yields Y1..Yn and ends: the successive calls return the clones of Y1..Yn in order, then the end, and leave the generator completed |
| ResolverLaws.MultiSuspensionOrdering | src/index.js:17-49 | a generator yielding Y1..Yn and ending after receiving v1..vn: the wrapper returns the clone of Y1, and calling its `children` with v1..vn returns the clones of Y2..Yn in order and then the end; all clones share one closure |
| ResolverLaws.SingleSuspensionRoundTrip | src/index.js:17-49 | a generator that yields Y once and returns R given v: the wrapper returns Y with only `children` changed, and calling that `children` with v returns R |
| ResolverLaws.ErrorStopsTheChain | src/index.js:25-44 | when the generator throws on the k-th resumption, the k-th call throws that error and every later call returns undefined, so no further elements appear |
| ResolverLaws.NestedRenderLeavesOuterAlone | src/index.js:69-76 | rendering a nested wrapped component (with its own generator instance) while a generator is suspended leaves that generator's state as it was, so resuming it gives the same result as without the nested render |
| Example.AddTwo | src/index.js:9-11 | `AddTwo` calls `children` exactly once, advancing only that closure's generator by one `next({value: props.value + 2})`; a non-function `children` throws |
| Example.AddTwoResumesGenerator | src/index.js:9-11 | rendering `AddTwo` whose `children` is a suspended generator's closure resumes that generator with `{value: props.value + 2}` |
| Example.FourIsAddTwoSum | src/index.js:52 | when `AddTwo` resumes the generator, `four` receives exactly `props.value + 2` of the yielded `AddTwo` |
| Example.AddTwoFeedsItsSumBack | src/index.js:9-11 | for any props, the first render returns `<AddTwo value={2 + (props.value \|\| 0)} />` bound to the new instance, and rendering it resumes the generator with `{value: (2 + (props.value \|\| 0)) + 2}` |
| Example.NonGeneratorRendersItsElement | src/index.js:83-85 | the wrapped `NonGenerator` renders its paragraph unchanged |
| Example.GeneratorWithNoYieldRendersItsResult | src/index.js:89-91 | the wrapped `GeneratorWithNoYield` renders its returned paragraph directly |
| Example.FirstRenderYieldsAddTwo | src/index.js:51-52 | with `props.value` absent, the first render returns `AddTwo` with value `2 + (undefined \|\| 0)` = 2, its `children` bound to the new instance, which waits at that `yield` |
| Example.FourSkipsEarlyReturn | src/index.js:52-59 | receiving `{value: 4}`, the generator does not return early; it yields the two context consumers in turn and returns the markup holding what they delivered and 4 |
| Example.WorkedExample | src/index.js:51-59 | with `props.value` absent, the wrapper yields `AddTwo` with value 2, which feeds back 4; the generator skips the early return, yields both context consumers in order and returns the markup holding the context values and 4 |
| Example.ValueFiveTakesEarlyReturn | src/index.js:52-55 | with `value={5}`, `AddTwo` gets 7 and feeds back 9, so the generator returns the early-return paragraph and completes |

## Left out

- React rendering, reconciliation and the internals of `React.cloneElement`: cloning is a pure record update of type and props. Keys and refs are not modelled.
- Context providers and consumers, the `App` class component with its state, `ReactDOM.render`, the DOM lookup and the stylesheet import: these are host-engine and bootstrapping code. A consumer is an element with a `Consumer(context)` type, and `Drive` supplies the values it would pass to `children`.
- The markup of the returned elements is opaque. `MyGeneratorMarkup` keeps only the values the markup shows and the nested `MyGeneratorV2` element it renders.
- `new Date()` and `now.toLocaleTimeString()` are a clock and locale formatting. The time value is kept as given, and the method call is taken to succeed.
- A generator that yields something other than a React element is not modelled, because `Yield` always carries an element. `React.cloneElement` behaviour on non-elements is foreign code.
- Numbers are unbounded integers plus NaN. Fractions, infinities and the loss of precision beyond 2^53 are not modelled.
- The text that `Function.prototype.toString` gives for a `runGenerator` closure is a placeholder string. It only matters when such a closure is an operand of `+`.
- Resuming a completed generator is left unguarded by the source. The model follows the ECMAScript protocol here (`{value: undefined, done: true}`), so `RunGenerator` returns undefined.
- Exceptions thrown by `innerFn` itself are not modelled. `innerFn` is a total function, and only generator bodies (`Throw`) and the language operations model throwing.
- A generator body is a finite `Coroutine` value, so a body that can yield without bound (`while (true) yield …`, or a loop waiting for a resumed value to meet a condition) cannot be written. The laws cover only bodies with a bounded number of yields along each run.
- JsValues.DestructureValue reads only the key `value`, the one key the source destructures. Keys that a built-in prototype defines (`length` on strings and arrays, `constructor` on objects) are not modelled.
- Resolver.GeneratorComponent: only a fresh generator object or a value without `Symbol.iterator` (plus arrays) is modelled as what `innerFn` returns. A hand-written iterator (an object with its own `Symbol.iterator` and `next`), a Map or a Set cannot be written, because `Props` has only string keys; the source would drive the first and throw on `next` for the others. A generator object that `innerFn` returns a second time is not modelled either: the model always starts a new instance from the body, while the source would resume the shared object at its pending `yield`. The laws that start from `SuspendedStart` rely on this.
- Concurrency: the code is single-threaded, and the model is sequential.
