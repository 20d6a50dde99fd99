/** The JavaScript values the node reads from parameters and from parsed JSON
    responses, with the JavaScript semantics of `||`, object spread and
    template-string conversion that the node relies on. */
module JsValues {

  /** A parsed JSON value as JavaScript sees it. `Undefined` is what reading
      an absent property yields. Numbers are integers in this model. */
  datatype Value =
    | Undefined
    | Null
    | Bool(b: bool)
    | Num(n: int)
    | Str(s: string)
    | Arr(items: seq<Value>)
    | Obj(fields: map<string, Value>)

  /** A JSON object: the body of a response, or an output record. */
  type Payload = map<string, Value>

  /** JavaScript truthiness: `undefined`, `null`, `false`, `0` and `''` are falsy. */
  predicate Truthy(v: Value) {
    match v
    case Undefined => false
    case Null => false
    case Bool(b) => b
    case Num(n) => n != 0
    case Str(s) => s != ""
    case Arr(_) => true
    case Obj(_) => true
  }

  /** Property access `p.key`; an absent property reads as `undefined`. */
  function Get(p: Payload, key: string): Value {
    if key in p then p[key] else Undefined
  }

  /** The chain `vs[0] || vs[1] || ... || vs[n-1]`: the first truthy operand,
      or the last operand when none is truthy. */
  function OrChain(vs: seq<Value>): (r: Value)
    requires |vs| > 0
    ensures r in vs
    ensures Truthy(r) <==> exists i :: 0 <= i < |vs| && Truthy(vs[i])
    ensures forall i :: 0 <= i < |vs| && Truthy(vs[i]) && (forall j :: 0 <= j < i ==> !Truthy(vs[j])) ==> r == vs[i]
    ensures (forall i :: 0 <= i < |vs| ==> !Truthy(vs[i])) ==> r == vs[|vs| - 1]
  {
    if |vs| == 1 || Truthy(vs[0]) then vs[0] else OrChain(vs[1..])
  }

  /** Reading the same operand twice, `x || x`, is just `x`. */
  lemma OrChainRepeated(x: Value)
    ensures OrChain([x, x]) == x
  {
  }

  /** Object spread `{...meta, ...body}`: every property of `body` overrides
      the property of the same name in `meta`. */
  function Spread(meta: Payload, body: Payload): (r: Payload)
    ensures r.Keys == meta.Keys + body.Keys
    ensures forall k :: k in body ==> r[k] == body[k]
    ensures forall k :: k in meta && k !in body ==> r[k] == meta[k]
  {
    meta + body
  }

  /** Spreading the same body a second time changes nothing. */
  lemma SpreadIdempotent(meta: Payload, body: Payload)
    ensures Spread(Spread(meta, body), body) == Spread(meta, body)
  {
  }

  /** Successive spreads may be grouped either way. */
  lemma SpreadAssociative(a: Payload, b: Payload, c: Payload)
    ensures Spread(Spread(a, b), c) == Spread(a, Spread(b, c))
  {
  }

  function DigitChar(d: nat): char
    requires d < 10
  {
    "0123456789"[d]
  }

  /** Decimal digits of a natural number, most significant first. */
  function Digits(n: nat): (s: string)
    ensures |s| > 0
    ensures forall i :: 0 <= i < |s| ==> '0' <= s[i] <= '9'
  {
    if n < 10 then [DigitChar(n)] else Digits(n / 10) + [DigitChar(n % 10)]
  }

  /** Number-to-string conversion of an integer (plain decimal notation). */
  function IntToString(n: int): string {
    if n < 0 then "-" + Digits(-n) else Digits(n)
  }

  /** `Array.prototype.join(",")` over already converted elements. */
  function JoinCommas(parts: seq<string>): string {
    if parts == [] then ""
    else if |parts| == 1 then parts[0]
    else JoinCommas(parts[..|parts| - 1]) + "," + parts[|parts| - 1]
  }

  /** The text a template literal `${v}` produces for `v`. Inside an array,
      `null` and `undefined` elements become empty. */
  function Render(v: Value): string {
    match v
    case Undefined => "undefined"
    case Null => "null"
    case Bool(b) => if b then "true" else "false"
    case Num(n) => IntToString(n)
    case Str(s) => s
    case Obj(_) => "[object Object]"
    case Arr(items) =>
      JoinCommas(seq(|items|, i requires 0 <= i < |items| =>
        if items[i].Null? || items[i].Undefined? then "" else Render(items[i])))
  }
}
