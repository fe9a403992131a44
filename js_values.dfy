/**
 * The part of JavaScript's value semantics that the logger relies on:
 * truthiness, `typeof`, property lookup, the own enumerable properties that
 * object spread and `Object.assign` copy, `String()` conversion,
 * `Array.prototype.join` and ASCII case mapping.
 *
 * Objects are trees of values (no shared references, no cycles).  An object
 * records its own properties, which of them are not enumerable, the
 * properties it inherits from its prototype, and whether it is an `Error`
 * instance.  Property order is not recorded.
 */
module JsValues {

  datatype Option<+T> = None | Some(value: T) {
    function GetOr(default: T): T {
      match this
      case Some(v) => v
      case None => default
    }
  }

  datatype Result<+T, +E> = Success(value: T) | Failure(error: E)

  datatype Value =
    | Undefined
    | Null
    | Bool(b: bool)
    | Num(n: int)
    | Str(s: string)
    | Fn(source: string)
    | Arr(elems: seq<Value>)
    | Obj(own: map<string, Value>, hidden: set<string>, proto: map<string, Value>, errorInstance: bool)

  /** `Boolean(v)` */
  predicate Truthy(v: Value) {
    match v
    case Undefined => false
    case Null => false
    case Bool(b) => b
    case Num(n) => n != 0
    case Str(s) => s != ""
    case _ => true
  }

  /** `typeof v` */
  function TypeOf(v: Value): string {
    match v
    case Undefined => "undefined"
    case Null => "object"
    case Bool(_) => "boolean"
    case Num(_) => "number"
    case Str(_) => "string"
    case Fn(_) => "function"
    case Arr(_) => "object"
    case Obj(_, _, _, _) => "object"
  }

  /** A plain object literal `{...}` with the given properties. */
  function PlainObject(m: map<string, Value>): Value {
    Obj(m, {}, map[], false)
  }

  /** `new Error(message)`: `message` and `stack` are own, non-enumerable;
      `name` and a default `message` come from `Error.prototype`. */
  function NewError(message: string, stack: string): Value {
    Obj(map["message" := Str(message), "stack" := Str(stack)], {"message", "stack"},
        map["name" := Str("Error"), "message" := Str("")], true)
  }

  /** `new Error(msg)` for any message value: `undefined` leaves the
      message unset, so the inherited empty message shows; anything else is
      converted with `String()`. */
  function ErrorFor(msg: Value, stack: string): (r: Value)
    ensures r.Obj? && r.errorInstance
    ensures Get(r, "message") == if msg.Undefined? then Str("") else Str(ToStr(msg))
    ensures Get(r, "name") == Str("Error") && Get(r, "stack") == Str(stack)
    ensures msg.Str? ==> r == NewError(msg.s, stack)
  {
    if msg.Undefined? then
      Obj(map["stack" := Str(stack)], {"stack"}, map["name" := Str("Error"), "message" := Str("")], true)
    else NewError(ToStr(msg), stack)
  }

  /** `Object.prototype.hasOwnProperty.call(v, k)` */
  predicate HasOwn(v: Value, k: string) {
    v.Obj? && k in v.own
  }

  /** `k in v` for an object: own or inherited. */
  predicate Has(v: Value, k: string) {
    v.Obj? && (k in v.own || k in v.proto)
  }

  /** `v[k]` for an object: the own property, else the inherited one, else undefined. */
  function Get(v: Value, k: string): Value {
    if v.Obj? && k in v.own then v.own[k]
    else if v.Obj? && k in v.proto then v.proto[k]
    else Undefined
  }

  /** Decimal text of a natural number, as `String(n)` writes it. */
  function NatToString(n: nat): (r: string)
    ensures |r| > 0
    decreases n
  {
    if n < 10 then [DigitChar(n)] else NatToString(n / 10) + [DigitChar(n % 10)]
  }

  function DigitChar(d: nat): char
    requires d < 10
  {
    ['0', '1', '2', '3', '4', '5', '6', '7', '8', '9'][d]
  }

  function IntToString(n: int): string {
    if n < 0 then "-" + NatToString(-n) else NatToString(n)
  }

  /** The index-keyed entries `{"0": xs[0], "1": xs[1], ...}`. */
  function IndexEntries(xs: seq<Value>): map<string, Value>
    decreases |xs|
  {
    if xs == [] then map[]
    else IndexEntries(xs[..|xs| - 1])[NatToString(|xs| - 1) := xs[|xs| - 1]]
  }

  function Chars(s: string): seq<Value> {
    seq(|s|, i requires 0 <= i < |s| => Str([s[i]]))
  }

  /** The own enumerable properties of `v`: what `{...v}` and
      `Object.assign({}, v)` copy.  Strings and arrays contribute their
      index entries; every other primitive, null and undefined contribute
      nothing. */
  function OwnEnumerable(v: Value): map<string, Value> {
    match v
    case Obj(own, hidden, _, _) => map k | k in own && k !in hidden :: own[k]
    case Arr(elems) => IndexEntries(elems)
    case Str(s) => IndexEntries(Chars(s))
    case _ => map[]
  }

  /** `Object.keys(v)` as a set (the order is not modelled). */
  function Keys(v: Value): set<string> {
    OwnEnumerable(v).Keys
  }

  /** `String(v)` (also what `v.toString()` gives for a non-nullish primitive). */
  function ToStr(v: Value): string
    decreases v, 1
  {
    match v
    case Undefined => "undefined"
    case Null => "null"
    case Bool(b) => if b then "true" else "false"
    case Num(n) => IntToString(n)
    case Str(s) => s
    case Fn(src) => src
    case Arr(elems) => JoinElems(v, elems, 0)
    case Obj(own, _, proto, isErr) =>
      if isErr then ErrorText(v) else "[object Object]"
  }

  /** `Array.prototype.join(',')` over the elements of `arr` from index `i`;
      null and undefined elements become empty strings. */
  function JoinElems(arr: Value, elems: seq<Value>, i: nat): string
    requires arr.Arr? && elems == arr.elems
    decreases arr, 0, |elems| - i
  {
    if i >= |elems| then ""
    else
      (if i == 0 then "" else ",") + JoinText(elems[i]) + JoinElems(arr, elems, i + 1)
  }

  /** The text `Array.prototype.join` writes for one element: null and
      undefined become the empty string, anything else `String(v)`. */
  function JoinText(v: Value): string
    decreases v, 2
  {
    if v.Undefined? || v.Null? then "" else ToStr(v)
  }

  /** `Error.prototype.toString`: `name: message`, leaving out an empty part. */
  function ErrorText(v: Value): string
    requires v.Obj?
    decreases v, 0
  {
    var name := if "name" in v.own then v.own["name"] else if "name" in v.proto then v.proto["name"] else Undefined;
    var msg := if "message" in v.own then v.own["message"] else if "message" in v.proto then v.proto["message"] else Undefined;
    var n := if name.Undefined? then "Error" else ToStr(name);
    var m := if msg.Undefined? then "" else ToStr(msg);
    if n == "" then m else if m == "" then n else n + ": " + m
  }

  function LowerChar(c: char): char {
    if 'A' <= c <= 'Z' then (c as int + 32) as char else c
  }

  function UpperChar(c: char): char {
    if 'a' <= c <= 'z' then (c as int - 32) as char else c
  }

  /** `s.toLowerCase()` restricted to ASCII letters. */
  function AsciiLower(s: string): (r: string)
    ensures |r| == |s|
    ensures forall i :: 0 <= i < |s| ==> r[i] == LowerChar(s[i])
  {
    seq(|s|, i requires 0 <= i < |s| => LowerChar(s[i]))
  }

  /** `s.toUpperCase()` restricted to ASCII letters. */
  function AsciiUpper(s: string): (r: string)
    ensures |r| == |s|
    ensures forall i :: 0 <= i < |s| ==> r[i] == UpperChar(s[i])
  {
    seq(|s|, i requires 0 <= i < |s| => UpperChar(s[i]))
  }

  /** Lower-casing twice is lower-casing once. */
  lemma {:induction false} AsciiLowerIdempotent(s: string)
    ensures AsciiLower(AsciiLower(s)) == AsciiLower(s)
  {
    var once := AsciiLower(s);
    forall i | 0 <= i < |s| ensures AsciiLower(once)[i] == once[i] {
      assert once[i] == LowerChar(s[i]);
    }
  }

  /** Upper-casing forgets a prior lower-casing: both give the same text. */
  lemma UpperOfLower(s: string)
    ensures AsciiUpper(AsciiLower(s)) == AsciiUpper(s)
  {
    forall i | 0 <= i < |s| ensures AsciiUpper(AsciiLower(s))[i] == AsciiUpper(s)[i] {
      assert AsciiLower(s)[i] == LowerChar(s[i]);
    }
  }

  /** `parts.join(sep)` */
  function Join(parts: seq<string>, sep: string): string
    decreases |parts|
  {
    if parts == [] then ""
    else if |parts| == 1 then parts[0]
    else parts[0] + sep + Join(parts[1..], sep)
  }

  /** The separator `parts.join(sep)` uses: the given string, or `","` when
      `sep` is undefined (`None`). */
  function JoinSeparator(sep: Option<string>): string {
    sep.GetOr(",")
  }

  lemma {:induction false} JoinTwo(a: string, b: string, sep: string)
    ensures Join([a, b], sep) == a + sep + b
  {
    assert [a, b][1..] == [b];
  }

  lemma {:induction false} JoinThree(a: string, b: string, c: string, sep: string)
    ensures Join([a, b, c], sep) == a + sep + b + sep + c
  {
    assert [a, b, c][1..] == [b, c];
    JoinTwo(b, c, sep);
  }

  /** Joining a non-empty list with one more part appends separator and part. */
  lemma {:induction false} JoinSnoc(parts: seq<string>, p: string, sep: string)
    requires parts != []
    ensures Join(parts + [p], sep) == Join(parts, sep) + sep + p
    decreases |parts|
  {
    if |parts| == 1 {
      assert parts + [p] == [parts[0], p];
      JoinTwo(parts[0], p, sep);
    } else {
      assert (parts + [p])[1..] == parts[1..] + [p];
      JoinSnoc(parts[1..], p, sep);
    }
  }
}
