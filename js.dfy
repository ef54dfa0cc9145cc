/** The slice of JavaScript's value model that the shim's own logic touches:
    truthiness, string conversion, property reads and `typeof ... === 'function'`. */
module Js {

  datatype Option<+T> = None | Some(value: T)

  datatype Result<+T, +E> = Ok(value: T) | Err(error: E)

  /** A JavaScript value. An object or a function carries the text that its
      string conversion yields, so that `String(v)` stays abstract for them
      while primitives convert exactly. Numbers are integers only. */
  datatype Value =
    | Undefined
    | Null
    | Bool(b: bool)
    | Num(n: int)
    | Str(s: string)
    | Obj(props: map<string, Value>, text: string)
    | Func(source: string)

  /** JavaScript truthiness (no NaN, no -0: numbers are integers). */
  predicate Truthy(v: Value) {
    match v
    case Undefined => false
    case Null => false
    case Bool(b) => b
    case Num(n) => n != 0
    case Str(s) => s != ""
    case Obj(_, _) => true
    case Func(_) => true
  }

  /** The falsy values of the model are exactly JavaScript's: `undefined`,
      `null`, `false`, `0` and the empty string. */
  lemma FalsyValues(v: Value)
    ensures !Truthy(v) <==> v == Undefined || v == Null || v == Bool(false) || v == Num(0) || v == Str("")
  {
  }

  /** Reading a property of these throws a TypeError. */
  predicate Nullish(v: Value) {
    v.Undefined? || v.Null?
  }

  /** `typeof v === 'function'` */
  predicate IsFunction(v: Value) {
    v.Func?
  }

  /** A named property read on a value that is not nullish, as the model
      uses it: the label fields of `args[0]` (`bucketType`, `bucket`,
      `indexName`, `q`) and the own properties of a configuration. It yields
      an object's own property, and `undefined` otherwise; the indexed
      characters and `length` of a string, and members inherited from a
      prototype, are not modelled. */
  function Prop(v: Value, name: string): (r: Value)
    requires !Nullish(v)
    ensures v.Obj? && name in v.props ==> r == v.props[name]
    ensures !(v.Obj? && name in v.props) ==> r == Undefined
  {
    match v
    case Obj(props, _) => if name in props then props[name] else Undefined
    case _ => Undefined
  }

  predicate IsDigit(c: char) {
    '0' <= c <= '9'
  }

  /** The decimal digits of `n`, most significant first. */
  function NatToText(n: nat): (r: string)
    ensures |r| > 0
    ensures forall k :: 0 <= k < |r| ==> IsDigit(r[k])
    decreases n
  {
    var d := [(('0' as int) + n % 10) as char];
    if n < 10 then d else NatToText(n / 10) + d
  }

  /** The number a string of decimal digits denotes. */
  function DecimalValue(s: string): nat
    requires forall k :: 0 <= k < |s| ==> IsDigit(s[k])
    decreases |s|
  {
    if |s| == 0 then 0
    else
      assert IsDigit(s[|s| - 1]);
      10 * DecimalValue(s[..|s| - 1]) + (s[|s| - 1] as int - '0' as int)
  }

  /** The digits of `n` read back as `n`, with no leading zero: the text is
      the canonical decimal form that `String(n)` gives. */
  lemma {:induction false} NatToTextRoundTrip(n: nat)
    ensures var r := NatToText(n); DecimalValue(r) == n && (|r| > 1 ==> r[0] != '0')
    decreases n
  {
    var r := NatToText(n);
    if n >= 10 {
      var h := NatToText(n / 10);
      NatToTextRoundTrip(n / 10);
      assert r == h + [(('0' as int) + n % 10) as char];
      assert r[..|r| - 1] == h;
      assert r[0] == h[0];
      if |h| == 1 {
        assert h == [(('0' as int) + (n / 10) % 10) as char];
      }
    }
  }

  /** `String(v)`, as a template literal `${v}` computes it. */
  function ToText(v: Value): string {
    match v
    case Undefined => "undefined"
    case Null => "null"
    case Bool(b) => if b then "true" else "false"
    case Num(n) => if n < 0 then "-" + NatToText(-n) else NatToText(n)
    case Str(s) => s
    case Obj(_, text) => text
    case Func(source) => source
  }

  /** `args[i]` of an arguments object: `undefined` past its end. */
  function Arg(args: seq<Value>, i: nat): (r: Value)
    ensures i < |args| ==> r == args[i]
    ensures i >= |args| ==> r == Undefined
  {
    if i < |args| then args[i] else Undefined
  }
}
