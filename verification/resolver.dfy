/** The generator-to-render-prop resolver of src/index.js: `isGenerator`,
    `generatorComponent` and the `runGenerator` closure it builds.

    A generator object is mutable and every element cloned while driving it
    carries the very same `runGenerator` closure in `children`. The model
    keeps generator objects in a store (`Runtime`) and lets a closure name
    its instance (`RunGeneratorOf(id)`), so calling the `children` of an old
    element advances the generator from wherever it stands now, as in the
    source. */
module Resolver {
  import opened JsValues
  import opened Generators

  /** What `innerFn(props)` evaluates to: an ordinary value (an element, a
      string, null, an array, ...) or, for a generator function, a fresh
      generator object with the function's body. Hand-written iterators and
      a generator object returned a second time are not expressible. */
  datatype Returned = Plain(value: Value) | GeneratorObject(body: Coroutine)

  /** Every generator object created so far, indexed by instance number. */
  datatype Runtime = Runtime(generators: seq<GenState>)

  /** The store after a call, and what the call evaluated to. */
  datatype Run = Run(rt: Runtime, out: Completion<Value>)

  /** The store after a series of calls, and what each call evaluated to. */
  datatype Trace = Trace(rt: Runtime, outs: seq<Completion<Value>>)

  /** `Symbol.iterator in value` (src/index.js:13-15). The `in` operator
      throws a TypeError when its right operand is not an object
      (ECMAScript 2024, section 13.10.1), so undefined, null, booleans,
      numbers and strings make the check throw rather than answer false.
      Among the values this model can express, only generator objects and
      arrays expose `Symbol.iterator`; ordinary objects, React elements and
      functions do not. */
  function IsGenerator(r: Returned): Completion<bool> {
    match r
    case GeneratorObject(_) => Normal(true)
    case Plain(v) =>
      if v.IsPrimitive() then Abrupt(TypeError("Cannot use 'in' operator to search for Symbol.iterator"))
      else Normal(v.Array?)
  }

  /** `React.cloneElement(n, config)` as a pure record update: same type,
      props of `n` overridden by those of `config`. */
  function CloneElement(n: Node, config: Props): (c: Node)
    ensures c.component == n.component
    ensures c.props.Keys == n.props.Keys + config.Keys
    ensures forall k :: k in config ==> c.props[k] == config[k]
    ensures forall k :: k in n.props && k !in config ==> c.props[k] == n.props[k]
  {
    Node(n.component, n.props + config)
  }

  /** The config `{children: runGenerator}` of generator instance `id`. */
  function ChildrenSlot(id: nat): Props {
    map["children" := Callback(RunGeneratorOf(id))]
  }

  /** `runGenerator(value)` of instance `id` (src/index.js:25-44): advance the
      generator once with `v`; on `done` evaluate to the returned value as it
      is, otherwise to a clone of the yielded element whose `children` is this
      same closure. An exception from `next` propagates. */
  function RunGenerator(rt: Runtime, id: nat, v: Value): (r: Run)
    requires id < |rt.generators|
    ensures |r.rt.generators| == |rt.generators|
    ensures forall j :: 0 <= j < |rt.generators| && j != id ==> r.rt.generators[j] == rt.generators[j]
    ensures r.rt.generators[id] == Next(rt.generators[id], v).state
    ensures r.out.Abrupt? <==> Next(rt.generators[id], v).result.Abrupt?
  {
    var a := Next(rt.generators[id], v);
    var rt' := Runtime(rt.generators[id := a.state]);
    match a.result
    case Abrupt(e) => Run(rt', Abrupt(e))
    case Normal(Done(result)) => Run(rt', Normal(result))
    case Normal(Yielded(n)) => Run(rt', Normal(Element(CloneElement(n, ChildrenSlot(id)))))
  }

  /** The function returned by `generatorComponent(innerFn)`, applied to
      `props` (src/index.js:17-49): call `innerFn(props)`; hand back a
      non-generator as it is; otherwise make the generator a new instance and
      return what `runGenerator(undefined)` evaluates to. A value that passes
      `isGenerator` without being a generator (an array) has no `next`, so
      the call `generator.next(...)` throws a TypeError. */
  function GeneratorComponent(inner: Props -> Returned, props: Props, rt: Runtime): (r: Run)
    ensures |r.rt.generators| == |rt.generators| + (if inner(props).GeneratorObject? then 1 else 0)
    ensures r.rt.generators[..|rt.generators|] == rt.generators
  {
    var returned := inner(props);
    match IsGenerator(returned)
    case Abrupt(e) => Run(rt, Abrupt(e))
    case Normal(iterable) =>
      if !iterable then Run(rt, Normal(returned.value))
      else
        match returned
        case Plain(_) => Run(rt, Abrupt(TypeError("generator.next is not a function")))
        case GeneratorObject(body) =>
          RunGenerator(Runtime(rt.generators + [SuspendedStart(body)]), |rt.generators|, Undefined)
  }

  /** The host engine calling the `children` closure of instance `id` once per
      value of `vs`, in order, each call seeing the store the previous one left. */
  function Drive(rt: Runtime, id: nat, vs: seq<Value>): (t: Trace)
    requires id < |rt.generators|
    ensures |t.outs| == |vs|
    ensures |t.rt.generators| == |rt.generators|
    ensures forall j :: 0 <= j < |rt.generators| && j != id ==> t.rt.generators[j] == rt.generators[j]
    decreases |vs|
  {
    if vs == [] then Trace(rt, [])
    else
      var first := RunGenerator(rt, id, vs[0]);
      var rest := Drive(first.rt, id, vs[1..]);
      Trace(rest.rt, [first.out] + rest.outs)
  }
}
