/** The components of src/index.js that exercise the resolver: the
    render-prop component `AddTwo`, the generator `MyGenerator` wrapped as
    `MyGeneratorV2`, `NonGenerator` and `GeneratorWithNoYield`. */
module Example {
  import opened JsValues
  import opened Generators
  import opened Resolver
  import opened ResolverLaws

  /** The argument `AddTwo` hands to its `children`: `{value: props.value + 2}`. */
  function AddTwoArgument(props: Props): Value {
    Record(map["value" := Add(Get(props, "value"), Num(2))])
  }

  /** `AddTwo(props)` (src/index.js:9-11): call `props.children` once with
      `{value: props.value + 2}`. Calling something that is not a function
      throws a TypeError. */
  function AddTwo(props: Props, rt: Runtime): (r: Run)
    requires Get(props, "children").Callback? ==> Get(props, "children").fn.instance < |rt.generators|
    ensures !Get(props, "children").Callback? ==> r.rt == rt && r.out.Abrupt?
    ensures Get(props, "children").Callback? ==>
      var id := Get(props, "children").fn.instance;
      && |r.rt.generators| == |rt.generators|
      && r.rt.generators == rt.generators[id := Next(rt.generators[id], AddTwoArgument(props)).state]
  {
    match Get(props, "children")
    case Callback(f) => RunGenerator(rt, f.instance, AddTwoArgument(props))
    case _ => Run(rt, Abrupt(TypeError("props.children is not a function")))
  }

  /** When `children` is the closure of a generator suspended at a `yield`,
      rendering `AddTwo` resumes that generator with `{value: props.value + 2}`. */
  lemma AddTwoResumesGenerator(props: Props, rt: Runtime, id: nat, k: Value -> Coroutine)
    requires id < |rt.generators| && rt.generators[id] == SuspendedYield(k)
    requires Get(props, "children") == Callback(RunGeneratorOf(id))
    ensures var received := AddTwoArgument(props);
      var r := AddTwo(props, rt);
      && r.rt.generators == rt.generators[id := Step(k(received)).state]
      && (k(received).Yield? ==> r.out == Normal(Element(Resumable(k(received).node, id))))
      && (k(received).Return? ==> r.out == Normal(k(received).result))
  {
    ResumeAdvancesOneStep(rt, id, k, AddTwoArgument(props));
  }

  /** What `four` receives at `const { value: four } = yield <AddTwo … />`
      when the yielded `AddTwo` resumes the generator: `props.value + 2`. */
  lemma FourIsAddTwoSum(props: Props)
    ensures DestructureValue(AddTwoArgument(props)) == Normal(Add(Get(props, "value"), Num(2)))
  {
    DestructureValueRoundTrip(Add(Get(props, "value"), Num(2)), map[], Undefined);
  }

  function Paragraph(text: string): Value {
    Element(Node(Host("p"), map["children" := Str(text)]))
  }

  /** The element `MyGenerator` finally returns (src/index.js:61-78). Its
      markup is opaque here; it records the values it shows and the nested
      `MyGeneratorV2` it renders. */
  function MyGeneratorMarkup(value: Value, now: Value, four: Value): Node {
    Node(Host("div"), map[
      "greeting" := value,
      "time" := now,
      "sum" := four,
      "nested" := Element(Node(Composite("MyGeneratorV2"), map["value" := Num(5)]))])
  }

  const EarlyReturn: Value := Paragraph("How the hell isn't 2 + 2 = 4?")

  /** The element `MyGenerator` yields first: `<AddTwo value={2 + (props.value || 0)} />`. */
  function AddTwoElement(props: Props): Node {
    Node(AddTwoComponent, map["value" := Add(Num(2), Or(Get(props, "value"), Num(0)))])
  }

  /** `MyGenerator(props)` (src/index.js:51-79) as a generator object. */
  function MyGenerator(props: Props): Returned {
    GeneratorObject(Yield(AddTwoElement(props), AfterAddTwo))
  }

  /** The body of `MyGenerator` after its first `yield`, given what that
      `yield` evaluated to. */
  function AfterAddTwo(received: Value): Coroutine {
    match DestructureValue(received)
    case Abrupt(e) => Throw(e)
    case Normal(four) =>
      if !StrictlyEqualsNumber(four, 4) then Return(EarlyReturn)
      else
        Yield(Node(Consumer("SomeContext"), map[]), (value: Value) =>
          Yield(Node(Consumer("SomeOtherContext"), map[]), (now: Value) =>
            Return(Element(MyGeneratorMarkup(value, now, four)))))
  }

  /** `NonGenerator` (src/index.js:83-85) before wrapping. */
  function NonGenerator(props: Props): Returned {
    Plain(Paragraph("Nothing to see here."))
  }

  /** `GeneratorWithNoYield` (src/index.js:89-91) before wrapping. */
  function GeneratorWithNoYield(props: Props): Returned {
    GeneratorObject(Return(Paragraph("I am a generator function that yields nothing.")))
  }

  lemma NonGeneratorRendersItsElement(props: Props, rt: Runtime)
    ensures GeneratorComponent(NonGenerator, props, rt) == Run(rt, Normal(Paragraph("Nothing to see here.")))
  {
    PassThrough(NonGenerator, props, rt, Paragraph("Nothing to see here."));
  }

  lemma GeneratorWithNoYieldRendersItsResult(props: Props, rt: Runtime)
    ensures GeneratorComponent(GeneratorWithNoYield, props, rt).out
         == Normal(Paragraph("I am a generator function that yields nothing."))
  {
    NoYield(GeneratorWithNoYield, props, rt, Paragraph("I am a generator function that yields nothing."));
  }

  /** First render of `<MyGeneratorV2 />` with `props.value` absent: the
      wrapper returns `AddTwo` with value `2 + (undefined || 0)`, that is 2,
      bound to the new generator instance. */
  lemma FirstRenderYieldsAddTwo(rt: Runtime)
    ensures var id := |rt.generators|;
      var w := GeneratorComponent(MyGenerator, map[], rt);
      && w.out == Normal(Element(Resumable(Node(AddTwoComponent, map["value" := Num(2)]), id)))
      && w.rt.generators == rt.generators + [SuspendedYield(AfterAddTwo)]
  {
    var first := AddTwoElement(map[]);
    assert first == Node(AddTwoComponent, map["value" := Num(2)]);
    FirstResult(MyGenerator, map[], rt, Yield(first, AfterAddTwo));
  }

  /** Receiving `{value: 4}`, `MyGenerator` skips the early return, yields the
      two context consumers in turn and returns the markup showing what they
      delivered and 4. */
  lemma FourSkipsEarlyReturn(greeting: Value, now: Value)
    ensures var c := AfterAddTwo(Record(map["value" := Num(4)]));
      && c.Yield? && c.node == Node(Consumer("SomeContext"), map[])
      && Performs(c.resume(greeting), [Node(Consumer("SomeOtherContext"), map[])], [now],
                  Normal(Element(MyGeneratorMarkup(greeting, now, Num(4)))))
  {
    var c := AfterAddTwo(Record(map["value" := Num(4)]));
    var second := c.resume(greeting);
    assert second.resume(now) == Return(Element(MyGeneratorMarkup(greeting, now, Num(4))));
  }

  /** The worked example with `props.value` absent (as `App` renders
      `<MyGeneratorV2 />`): the wrapper yields `AddTwo` with value 2;
      rendering it feeds `{value: 4}` back, so `four` is 4 and the generator
      goes on to the first context consumer rather than returning early;
      feeding the two context values then yields the second consumer and
      finally the markup showing them and 4. */
  lemma WorkedExample(rt: Runtime, greeting: Value, now: Value)
    ensures var id := |rt.generators|;
      var w := GeneratorComponent(MyGenerator, map[], rt);
      && w.out == Normal(Element(Resumable(Node(AddTwoComponent, map["value" := Num(2)]), id)))
      && var a := AddTwo(w.out.value.node.props, w.rt);
         && a.out == Normal(Element(Resumable(Node(Consumer("SomeContext"), map[]), id)))
         && var d := Drive(a.rt, id, [greeting, now]);
            && d.outs[0] == Normal(Element(Resumable(Node(Consumer("SomeOtherContext"), map[]), id)))
            && d.outs[1] == Normal(Element(MyGeneratorMarkup(greeting, now, Num(4))))
            && d.rt.generators[id] == Completed
  {
    var id := |rt.generators|;
    FirstRenderYieldsAddTwo(rt);
    var w := GeneratorComponent(MyGenerator, map[], rt);
    var props := w.out.value.node.props;
    assert Get(props, "children") == Callback(RunGeneratorOf(id));
    assert Get(props, "value") == Num(2);
    var received := Record(map["value" := Num(4)]);
    assert AddTwoArgument(props) == received;
    AddTwoResumesGenerator(props, w.rt, id, AfterAddTwo);
    var a := AddTwo(props, w.rt);
    var afterFour := AfterAddTwo(received);
    FourSkipsEarlyReturn(greeting, now);
    var vs := [greeting, now];
    assert vs[1..] == [now];
    DriveFollowsScript(a.rt, id, afterFour.resume, [Node(Consumer("SomeOtherContext"), map[])], vs,
                       Normal(Element(MyGeneratorMarkup(greeting, now, Num(4)))));
  }

  /** Rendering the `AddTwo` that `MyGenerator` first yields, for any props:
      the wrapper returns `<AddTwo value={2 + (props.value || 0)} />` bound to
      the new instance, and rendering that element resumes the generator with
      `{value: (2 + (props.value || 0)) + 2}`. */
  lemma AddTwoFeedsItsSumBack(props0: Props, rt: Runtime)
    ensures var id := |rt.generators|;
      var w := GeneratorComponent(MyGenerator, props0, rt);
      var received := Record(map["value" := Add(Add(Num(2), Or(Get(props0, "value"), Num(0))), Num(2))]);
      && w.out == Normal(Element(Resumable(AddTwoElement(props0), id)))
      && w.rt.generators == rt.generators + [SuspendedYield(AfterAddTwo)]
      && var a := AddTwo(w.out.value.node.props, w.rt);
         && a.rt.generators == w.rt.generators[id := Step(AfterAddTwo(received)).state]
         && (AfterAddTwo(received).Yield? ==> a.out == Normal(Element(Resumable(AfterAddTwo(received).node, id))))
         && (AfterAddTwo(received).Return? ==> a.out == Normal(AfterAddTwo(received).result))
  {
    var id := |rt.generators|;
    FirstResult(MyGenerator, props0, rt, Yield(AddTwoElement(props0), AfterAddTwo));
    var w := GeneratorComponent(MyGenerator, props0, rt);
    var props := w.out.value.node.props;
    assert Get(props, "children") == Callback(RunGeneratorOf(id));
    assert Get(props, "value") == Add(Num(2), Or(Get(props0, "value"), Num(0)));
    AddTwoResumesGenerator(props, w.rt, id, AfterAddTwo);
  }

  /** With `value={5}`, as the nested `<MyGeneratorV2 value={5} />` is
      rendered: `AddTwo` gets 7 and feeds back 9, so the generator takes the
      early return and ends after a single suspension. */
  lemma ValueFiveTakesEarlyReturn(rt: Runtime)
    ensures var id := |rt.generators|;
      var w := GeneratorComponent(MyGenerator, map["value" := Num(5)], rt);
      && w.out == Normal(Element(Resumable(Node(AddTwoComponent, map["value" := Num(7)]), id)))
      && var a := AddTwo(w.out.value.node.props, w.rt);
         && a.out == Normal(EarlyReturn)
         && a.rt.generators[id] == Completed
  {
    var props0: Props := map["value" := Num(5)];
    assert AddTwoElement(props0) == Node(AddTwoComponent, map["value" := Num(7)]);
    AddTwoFeedsItsSumBack(props0, rt);
    var received := Record(map["value" := Num(9)]);
    assert Add(Add(Num(2), Or(Get(props0, "value"), Num(0))), Num(2)) == Num(9);
    assert AfterAddTwo(received) == Return(EarlyReturn);
  }
}
