/** What driving a generator through `generatorComponent` guarantees. */
module ResolverLaws {
  import opened JsValues
  import opened Generators
  import opened Resolver

  /** The element `runGenerator` of instance `id` makes of a yielded element. */
  function Resumable(n: Node, id: nat): Node {
    CloneElement(n, ChildrenSlot(id))
  }

  /** Classification: the wrapper drives a generator (allocates a generator
      instance) exactly when `innerFn` returned one; an object without
      `Symbol.iterator` comes back unchanged; a primitive makes `in` throw;
      an array passes the check and then fails on `next`. */
  lemma Classification(inner: Props -> Returned, props: Props, rt: Runtime)
    ensures var r := GeneratorComponent(inner, props, rt);
      && (|r.rt.generators| > |rt.generators| <==> inner(props).GeneratorObject?)
      && (inner(props).Plain? && !inner(props).value.Array? && !inner(props).value.IsPrimitive() ==>
            r == Run(rt, Normal(inner(props).value)))
      && (inner(props).Plain? && inner(props).value.IsPrimitive() ==> r.rt == rt && r.out.Abrupt?)
      && (inner(props).Plain? && inner(props).value.Array? ==> r.rt == rt && r.out.Abrupt?)
  {
  }

  /** Pass-through: a non-generator object returned by `innerFn` is the
      wrapper's result, with no generator created. */
  lemma PassThrough(inner: Props -> Returned, props: Props, rt: Runtime, v: Value)
    requires inner(props) == Plain(v)
    requires v.Record? || v.Element? || v.Callback?
    ensures GeneratorComponent(inner, props, rt) == Run(rt, Normal(v))
  {
    assert IsGenerator(Plain(v)) == Normal(false);
  }

  /** The wrapper starts the generator with `runGenerator(undefined)` and
      returns what that call returns; since a fresh generator ignores the
      argument of its first `next`, any other first value would do the same. */
  lemma FirstAdvance(inner: Props -> Returned, props: Props, rt: Runtime, c: Coroutine, v: Value)
    requires inner(props) == GeneratorObject(c)
    ensures var started := Runtime(rt.generators + [SuspendedStart(c)]);
      && GeneratorComponent(inner, props, rt) == RunGenerator(started, |rt.generators|, Undefined)
      && RunGenerator(started, |rt.generators|, v) == RunGenerator(started, |rt.generators|, Undefined)
  {
  }

  /** The first result of the wrapper, read off the generator body: the
      return value as it is (undefined included) when the body does not
      yield, the thrown error when it throws, else a clone of the first
      yielded element bound to the new instance. */
  lemma FirstResult(inner: Props -> Returned, props: Props, rt: Runtime, c: Coroutine)
    requires inner(props) == GeneratorObject(c)
    ensures var id := |rt.generators|;
      var r := GeneratorComponent(inner, props, rt);
      && (c.Return? ==> r == Run(Runtime(rt.generators + [Completed]), Normal(c.result)))
      && (c.Throw? ==> r == Run(Runtime(rt.generators + [Completed]), Abrupt(c.error)))
      && (c.Yield? ==> r == Run(Runtime(rt.generators + [SuspendedYield(c.resume)]), Normal(Element(Resumable(c.node, id)))))
  {
    var started := Runtime(rt.generators + [SuspendedStart(c)]);
    assert started.generators[|rt.generators| := Step(c).state] == rt.generators + [Step(c).state];
  }

  /** No-yield law: a generator whose first `next` is done makes the wrapper
      return its return value directly; no element carrying `runGenerator`
      is produced. */
  lemma NoYield(inner: Props -> Returned, props: Props, rt: Runtime, result: Value)
    requires inner(props) == GeneratorObject(Return(result))
    ensures GeneratorComponent(inner, props, rt).out == Normal(result)
  {
    FirstResult(inner, props, rt, Return(result));
  }

  /** A clone changes only `children`: on a step that yields `n`, the result
      is an element of the same type with the same props as `n`, except that
      `children` is the closure of this very instance. */
  lemma CloneChangesOnlyChildren(rt: Runtime, id: nat, v: Value, n: Node)
    requires id < |rt.generators|
    requires Next(rt.generators[id], v).result == Normal(Yielded(n))
    ensures var out := RunGenerator(rt, id, v).out;
      && out.Normal? && out.value.Element?
      && out.value.node.component == n.component
      && out.value.node.props.Keys == n.props.Keys + {"children"}
      && out.value.node.props["children"] == Callback(RunGeneratorOf(id))
      && forall k :: k in n.props && k != "children" ==> out.value.node.props[k] == n.props[k]
  {
  }

  /** Each call of the continuation advances the generator by exactly one
      step, and the argument of the call becomes the value of the pending
      `yield`: the generator continues as `k(v)`. */
  lemma ResumeAdvancesOneStep(rt: Runtime, id: nat, k: Value -> Coroutine, v: Value)
    requires id < |rt.generators| && rt.generators[id] == SuspendedYield(k)
    ensures var r := RunGenerator(rt, id, v);
      && r.rt.generators == rt.generators[id := Step(k(v)).state]
      && (k(v).Yield? ==> r.out == Normal(Element(Resumable(k(v).node, id))))
      && (k(v).Return? ==> r.out == Normal(k(v).result))
      && (k(v).Throw? ==> r.out == Abrupt(k(v).error))
  {
  }

  /** Calling the continuation of a completed generator yields nothing more:
      every call evaluates to undefined and the store does not change. */
  lemma {:induction false} ResumeAfterCompletion(rt: Runtime, id: nat, vs: seq<Value>)
    requires id < |rt.generators| && rt.generators[id] == Completed
    ensures var t := Drive(rt, id, vs);
      && t.rt == rt
      && forall i :: 0 <= i < |vs| ==> t.outs[i] == Normal(Undefined)
    decreases |vs|
  {
    if vs != [] {
      var first := RunGenerator(rt, id, vs[0]);
      assert first.rt.generators == rt.generators;
      ResumeAfterCompletion(first.rt, id, vs[1..]);
    }
  }

  /** Driving a generator suspended at a `yield` with v0, v1, ..., when its
      continuation yields ys and then ends with `end`: the calls produce the
      clones of ys in order, then `end`, and leave the generator completed. */
  lemma {:induction false} DriveFollowsScript(rt: Runtime, id: nat, k: Value -> Coroutine,
                                              ys: seq<Node>, vs: seq<Value>, end: Completion<Value>)
    requires id < |rt.generators| && rt.generators[id] == SuspendedYield(k)
    requires |vs| == |ys| + 1
    requires Performs(k(vs[0]), ys, vs[1..], end)
    ensures var t := Drive(rt, id, vs);
      && (forall i :: 0 <= i < |ys| ==> t.outs[i] == Normal(Element(Resumable(ys[i], id))))
      && t.outs[|ys|] == end
      && t.rt.generators[id] == Completed
    decreases |vs|
  {
    var c := k(vs[0]);
    var first := RunGenerator(rt, id, vs[0]);
    var t := Drive(rt, id, vs);
    assert t.outs[0] == first.out;
    if ys == [] {
      assert vs[1..] == [];
    } else {
      assert c.Yield? && c.node == ys[0];
      assert first.out == Normal(Element(Resumable(ys[0], id)));
      assert first.rt.generators[id] == SuspendedYield(c.resume);
      DriveFollowsScript(first.rt, id, c.resume, ys[1..], vs[1..], end);
      var rest := Drive(first.rt, id, vs[1..]);
      assert t.outs == [first.out] + rest.outs;
      forall i | 0 <= i < |ys|
        ensures t.outs[i] == Normal(Element(Resumable(ys[i], id)))
      {
        if i > 0 {
          assert t.outs[i] == rest.outs[i - 1];
          assert ys[1..][i - 1] == ys[i];
        }
      }
    }
  }

  /** Multi-suspension ordering: a generator that yields Y1..Yn (n >= 1),
      receiving v1..vn, and then ends with `end`. The wrapper returns the
      clone of Y1; calling the `children` closure it carries with v1..vn in
      turn produces the clones of Y2..Yn in that order and finally `end`.
      All clones carry the same closure. */
  lemma MultiSuspensionOrdering(inner: Props -> Returned, props: Props, rt: Runtime, c: Coroutine,
                                ys: seq<Node>, vs: seq<Value>, end: Completion<Value>)
    requires inner(props) == GeneratorObject(c)
    requires ys != [] && Performs(c, ys, vs, end)
    ensures var id := |rt.generators|;
      var w := GeneratorComponent(inner, props, rt);
      && w.out == Normal(Element(Resumable(ys[0], id)))
      && w.out.value.node.props["children"] == Callback(RunGeneratorOf(id))
      && var t := Drive(w.rt, id, vs);
         && |t.outs| == |vs|
         && (forall i :: 0 <= i < |vs| - 1 ==> t.outs[i] == Normal(Element(Resumable(ys[i + 1], id))))
         && t.outs[|vs| - 1] == end
         && t.rt.generators[id] == Completed
  {
    var id := |rt.generators|;
    FirstResult(inner, props, rt, c);
    var w := GeneratorComponent(inner, props, rt);
    assert w.rt.generators[id] == SuspendedYield(c.resume);
    DriveFollowsScript(w.rt, id, c.resume, ys[1..], vs, end);
  }

  /** Single-suspension round trip: a generator that yields Y once and, given
      `v`, returns R. The wrapper returns Y with `children` rebound; calling
      that `children` with `v` returns R. */
  lemma SingleSuspensionRoundTrip(inner: Props -> Returned, props: Props, rt: Runtime,
                                  y: Node, k: Value -> Coroutine, v: Value, result: Value)
    requires inner(props) == GeneratorObject(Yield(y, k)) && k(v) == Return(result)
    ensures var w := GeneratorComponent(inner, props, rt);
      && w.out == Normal(Element(Resumable(y, |rt.generators|)))
      && w.out.value.node.props.Keys == y.props.Keys + {"children"}
      && w.out.value.node.component == y.component
      && (forall key :: key in y.props && key != "children" ==> w.out.value.node.props[key] == y.props[key])
      && var f := w.out.value.node.props["children"];
         && f == Callback(RunGeneratorOf(|rt.generators|)) && f.fn.instance < |w.rt.generators|
         && RunGenerator(w.rt, f.fn.instance, v).out == Normal(result)
  {
    var c := Yield(y, k);
    assert Performs(c, [y], [v], Normal(result)) by {
      assert Performs(k(v), [], [], Normal(result));
    }
    MultiSuspensionOrdering(inner, props, rt, c, [y], [v], Normal(result));
    var w := GeneratorComponent(inner, props, rt);
    var id := |rt.generators|;
    assert Drive(w.rt, id, [v]).outs[0] == RunGenerator(w.rt, id, v).out;
  }

  /** Error propagation: when the generator throws on the k-th resumption, the
      k-th call evaluates to that error and every later call of the closure
      evaluates to undefined, so no element after the (k-1)-th is produced. */
  lemma ErrorStopsTheChain(inner: Props -> Returned, props: Props, rt: Runtime, c: Coroutine,
                           ys: seq<Node>, vs: seq<Value>, e: Thrown, later: seq<Value>)
    requires inner(props) == GeneratorObject(c)
    requires ys != [] && Performs(c, ys, vs, Abrupt(e))
    ensures var id := |rt.generators|;
      var w := GeneratorComponent(inner, props, rt);
      var t := Drive(w.rt, id, vs);
      && t.outs[|vs| - 1] == Abrupt(e)
      && forall i :: 0 <= i < |later| ==> Drive(t.rt, id, later).outs[i] == Normal(Undefined)
  {
    var id := |rt.generators|;
    MultiSuspensionOrdering(inner, props, rt, c, ys, vs, Abrupt(e));
    var w := GeneratorComponent(inner, props, rt);
    ResumeAfterCompletion(Drive(w.rt, id, vs).rt, id, later);
  }

  /** Recursive composition: rendering another wrapped component while a
      generator is suspended (the nested component gets its own instance)
      does not disturb the suspended generator; resuming it afterwards gives
      what it would have given without the nested render. */
  lemma NestedRenderLeavesOuterAlone(rt: Runtime, id: nat, inner: Props -> Returned, props: Props, v: Value)
    requires id < |rt.generators|
    ensures var nested := GeneratorComponent(inner, props, rt);
      && id < |nested.rt.generators|
      && nested.rt.generators[id] == rt.generators[id]
      && RunGenerator(nested.rt, id, v).out == RunGenerator(rt, id, v).out
  {
    var nested := GeneratorComponent(inner, props, rt);
    assert nested.rt.generators[..|rt.generators|][id] == rt.generators[id];
  }
}
