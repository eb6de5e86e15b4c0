/** Generator objects as the explicit state machine of the ECMAScript
    iteration protocol (ECMAScript 2024, sections 27.1 and 27.5). */
module Generators {
  import opened JsValues

  /** What a generator function's body does from its current point on: it
      suspends yielding a React element and continues with whatever value
      the next `next(v)` passes in, or it finishes by returning a value, or
      it throws. The body before its first `yield` needs no input, so a body
      is a Coroutine as it stands. */
  datatype Coroutine =
    | Yield(node: Node, resume: Value -> Coroutine)
    | Return(result: Value)
    | Throw(error: Thrown)

  /** The [[GeneratorState]] of a generator object (section 27.5.3): not yet
      started, suspended at a `yield` waiting for the value of that `yield`
      expression, or completed. */
  datatype GenState =
    | SuspendedStart(body: Coroutine)
    | SuspendedYield(resume: Value -> Coroutine)
    | Completed

  /** An IteratorResult `{value, done}` (section 27.1.2.1): `done: false`
      carries the yielded element, `done: true` the returned value. */
  datatype IterResult = Yielded(node: Node) | Done(value: Value)

  /** The state a `next` call leaves behind and what the call evaluates to. */
  datatype Advance = Advance(state: GenState, result: Completion<IterResult>)

  /** Runs the body from where it stands to its next suspension or its end. */
  function Step(c: Coroutine): Advance {
    match c
    case Yield(n, k) => Advance(SuspendedYield(k), Normal(Yielded(n)))
    case Return(r) => Advance(Completed, Normal(Done(r)))
    case Throw(e) => Advance(Completed, Abrupt(e))
  }

  /** `generator.next(v)` (sections 27.5.1.2 and 27.5.3.3). A fresh generator
      ignores `v`; a generator suspended at a `yield` makes `v` the value of
      that `yield`; a completed generator answers `{value: undefined, done: true}`. */
  function Next(s: GenState, v: Value): (a: Advance)
    ensures a.state.SuspendedYield? <==> a.result.Normal? && a.result.value.Yielded?
    ensures a.state.Completed? <==> a.result.Abrupt? || a.result.value.Done?
    ensures s.Completed? ==> a.state.Completed? && a.result == Normal(Done(Undefined))
  {
    match s
    case SuspendedStart(c) => Step(c)
    case SuspendedYield(k) => Step(k(v))
    case Completed => Advance(Completed, Normal(Done(Undefined)))
  }

  /** Reference description of a generator run: the body yields ys[0],
      receives vs[0], yields ys[1], receives vs[1], ... and, after receiving
      the last of vs, ends with `end` (a return value or a thrown error). */
  ghost predicate Performs(c: Coroutine, ys: seq<Node>, vs: seq<Value>, end: Completion<Value>)
    decreases |ys|
  {
    && |ys| == |vs|
    && if ys == [] then Ends(c, end)
       else c.Yield? && c.node == ys[0] && Performs(c.resume(vs[0]), ys[1..], vs[1..], end)
  }

  /** The body finishes at once, with `end`. */
  predicate Ends(c: Coroutine, end: Completion<Value>) {
    || (c.Return? && end == Normal(c.result))
    || (c.Throw? && end == Abrupt(c.error))
  }
}
