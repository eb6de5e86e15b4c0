/** The slice of JavaScript values and operations that the resolver and its
    worked example touch: primitives, plain objects, arrays, React elements
    and the `runGenerator` closures that the resolver stores in `children`.
    Numbers are unbounded integers plus NaN; see README for what that leaves out. */
module JsValues {

  type Props = map<string, Value>

  datatype Value =
    | Undefined
    | Null
    | Bool(b: bool)
    | Num(n: int)
    | NaN
    | Str(s: string)
    | Record(fields: Props)
    | Array(items: seq<Value>)
    | Element(node: Node)
    | Callback(fn: Fn)
  {
    /** ECMAScript's Type(v) is not Object. */
    predicate IsPrimitive() {
      Undefined? || Null? || Bool? || Num? || NaN? || Str?
    }
  }

  /** What a React element names as its type: a host tag such as "p", the
      AddTwo render-prop component, a context consumer, or some other
      user component that the host engine renders. */
  datatype Component =
    | Host(tag: string)
    | AddTwoComponent
    | Consumer(context: string)
    | Composite(name: string)

  /** A React element: its type and its props (`children` is one of them). */
  datatype Node = Node(component: Component, props: Props)

  /** The only functions that flow through props in this model: the
      `runGenerator` closure of one generator instance. */
  datatype Fn = RunGeneratorOf(instance: nat)

  datatype Thrown = TypeError(reason: string) | Raised(value: Value)

  /** The result of evaluating something that may throw. */
  datatype Completion<+T> = Normal(value: T) | Abrupt(error: Thrown)

  /** Property read `props[key]`: a missing key reads as undefined. */
  function Get(m: Props, key: string): Value {
    if key in m then m[key] else Undefined
  }

  /** ToBoolean (ECMAScript 2024, section 7.1.2). */
  predicate Truthy(v: Value) {
    match v
    case Undefined => false
    case Null => false
    case Bool(b) => b
    case Num(n) => n != 0
    case NaN => false
    case Str(s) => s != ""
    case _ => true
  }

  /** `a || b` (ECMAScript 2024, section 13.13). */
  function Or(a: Value, b: Value): Value {
    if Truthy(a) then a else b
  }

  /** `||` is logical disjunction on truthiness, and it hands back one of
      its operands rather than a new value: the first one when that is
      truthy, the second one otherwise. */
  lemma OrIsDisjunction(a: Value, b: Value)
    ensures Truthy(Or(a, b)) <==> Truthy(a) || Truthy(b)
    ensures Or(a, b) == a || Or(a, b) == b
    ensures Or(a, b) == a && a != b ==> Truthy(a)
    ensures Or(a, b) == b && a != b ==> !Truthy(a)
  {
  }

  /** Strict (in)equality against a number literal, as in `four !== 4`
      (ECMAScript 2024, section 7.2.15): only a Number with that value is equal. */
  predicate StrictlyEqualsNumber(v: Value, n: int) {
    v.Num? && v.n == n
  }

  /** Decimal digits of a natural number, most significant first. */
  function NatToDecimal(n: nat): (s: string)
    ensures |s| > 0
    ensures forall i :: 0 <= i < |s| ==> '0' <= s[i] <= '9'
    ensures n < 10 <==> |s| == 1
    decreases n
  {
    var d := ['0' + (n % 10) as char];
    if n < 10 then d else NatToDecimal(n / 10) + d
  }

  /** Value of a string of decimal digits; the inverse of NatToDecimal. */
  function DecimalValue(s: string): int
    decreases |s|
  {
    if s == [] then 0 else 10 * DecimalValue(s[..|s| - 1]) + (s[|s| - 1] as int - '0' as int)
  }

  lemma {:induction false} DecimalRoundTrip(n: nat)
    ensures DecimalValue(NatToDecimal(n)) == n
    decreases n
  {
    var s := NatToDecimal(n);
    if n >= 10 {
      DecimalRoundTrip(n / 10);
      assert s[..|s| - 1] == NatToDecimal(n / 10);
    }
  }

  /** Number::toString for an integral Number (ECMAScript 2024, section 6.1.6.1.20). */
  function NumberToString(n: int): (s: string)
    ensures |s| > 0
    ensures n < 0 <==> s[0] == '-'
  {
    if n < 0 then "-" + NatToDecimal(-n) else NatToDecimal(n)
  }

  /** ToString of a primitive (ECMAScript 2024, section 7.1.17). */
  function PrimitiveToString(p: Value): string
    requires p.IsPrimitive()
  {
    match p
    case Undefined => "undefined"
    case Null => "null"
    case Bool(b) => if b then "true" else "false"
    case Num(n) => NumberToString(n)
    case NaN => "NaN"
    case Str(s) => s
  }

  /** The text Function.prototype.toString gives for a `runGenerator` closure. */
  const RunGeneratorSourceText: string := "function runGenerator(value) { ... }"

  /** ToPrimitive with no hint (ECMAScript 2024, section 7.1.1): plain objects
      and React elements print as "[object Object]", arrays join their items
      with ",", functions print their source text. */
  function ToPrimitive(v: Value): (p: Value)
    ensures p.IsPrimitive()
    ensures v.IsPrimitive() ==> p == v
    ensures !v.IsPrimitive() ==> p.Str?
    decreases v, 1
  {
    match v
    case Record(_) => Str("[object Object]")
    case Element(_) => Str("[object Object]")
    case Array(items) => Str(JoinItems(v, 0))
    case Callback(_) => Str(RunGeneratorSourceText)
    case _ => v
  }

  /** Array.prototype.join(",") over `arr.items[i..]`; undefined and null
      items print as the empty string (ECMAScript 2024, section 23.1.3.18). */
  function JoinItems(arr: Value, i: nat): string
    requires arr.Array? && i <= |arr.items|
    decreases arr, 0, |arr.items| - i
  {
    if i == |arr.items| then ""
    else
      var item := arr.items[i];
      var text := if item.Undefined? || item.Null? then "" else PrimitiveToString(ToPrimitive(item));
      (if i == 0 then "" else ",") + text + JoinItems(arr, i + 1)
  }

  /** ToNumber of a non-string primitive (ECMAScript 2024, section 7.1.4). */
  function ToNumber(p: Value): (r: Value)
    requires p.IsPrimitive() && !p.Str?
    ensures r.Num? || r.NaN?
  {
    match p
    case Undefined => NaN
    case Null => Num(0)
    case Bool(b) => Num(if b then 1 else 0)
    case Num(n) => Num(n)
    case NaN => NaN
  }

  /** The `+` operator (ECMAScript 2024, section 13.15.3): string
      concatenation when either operand is a string after ToPrimitive,
      numeric addition otherwise, NaN absorbing. */
  function Add(a: Value, b: Value): (r: Value)
    ensures a.Num? && b.Num? ==> r == Num(a.n + b.n)
    ensures a.Str? && b.Str? ==> r == Str(a.s + b.s)
    ensures a.Str? && b.Num? ==> r == Str(a.s + NumberToString(b.n))
    ensures a.IsPrimitive() && b.IsPrimitive() && !a.Str? && !b.Str? ==> r.Num? || r.NaN?
    ensures (a.Undefined? || a.NaN?) && (b.Num? || b.NaN?) ==> r == NaN
  {
    var pa := ToPrimitive(a);
    var pb := ToPrimitive(b);
    if pa.Str? || pb.Str? then Str(PrimitiveToString(pa) + PrimitiveToString(pb))
    else
      var x := ToNumber(pa);
      var y := ToNumber(pb);
      if x.Num? && y.Num? then Num(x.n + y.n) else NaN
  }

  /** The object pattern `const { value: x } = v` (ECMAScript 2024, section
      8.6.2): undefined and null throw a TypeError; a plain object gives its
      `value` field or undefined. No built-in prototype (Object, Array,
      String, Number, Boolean, Function) defines a `value` property, and a
      React element's own fields are `type`, `props`, `key` and `ref`, so any
      other value gives undefined. */
  function DestructureValue(v: Value): (r: Completion<Value>)
  {
    match v
    case Undefined => Abrupt(TypeError("Cannot destructure property 'value' of undefined"))
    case Null => Abrupt(TypeError("Cannot destructure property 'value' of null"))
    case Record(fields) => Normal(Get(fields, "value"))
    case _ => Normal(Undefined)
  }

  /** Destructuring reads back what an object literal `{value: x}` stores,
      whatever else the literal holds, and throws only on undefined and null. */
  lemma DestructureValueRoundTrip(x: Value, others: Props, v: Value)
    ensures DestructureValue(Record(others["value" := x])) == Normal(x)
    ensures DestructureValue(v).Abrupt? <==> v.Undefined? || v.Null?
    ensures v.Record? && "value" !in v.fields ==> DestructureValue(v) == Normal(Undefined)
  {
  }
}
