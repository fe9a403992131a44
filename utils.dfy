/**
 * The three helpers of the logger: the structural "error-like" test, the
 * error stub that makes errors serialisable, and the boolean-ish parser
 * used for environment overrides.
 */
module Utils {
  import opened JsValues

  /** An object is error-like when it is an `Error` instance or carries both
      an own `message` and an own `stack`. */
  function IsError(v: Value): (r: bool)
    ensures r <==> v.Obj? && (v.errorInstance || ("message" in v.own && "stack" in v.own))
    ensures r ==> Truthy(v) && TypeOf(v) == "object"
  {
    Truthy(v) && TypeOf(v) == "object" &&
    ((v.Obj? && v.errorInstance) || (HasOwn(v, "message") && HasOwn(v, "stack")))
  }

  /** The function value the stub installs as `toJSON`. */
  const StubbedToJSONFn: Value := Fn("function () { /* error projection */ }")

  /** `stubError`: an error that already has a function `toJSON` is returned
      as it is; otherwise `toJSON` is assigned onto it (a new own property is
      enumerable; an existing one keeps its attributes). */
  function StubError(e: Value): (r: Value)
    requires e.Obj?
    ensures r.Obj? && r.proto == e.proto && r.errorInstance == e.errorInstance && r.hidden == e.hidden
    ensures Get(e, "toJSON").Fn? ==> r == e
    ensures Get(r, "toJSON").Fn?
    ensures !Get(e, "toJSON").Fn? ==> r.own == e.own["toJSON" := StubbedToJSONFn]
    ensures forall k :: k != "toJSON" ==> Get(r, k) == Get(e, k) && (Has(r, k) <==> Has(e, k))
    ensures IsError(r) == IsError(e)
  {
    if Get(e, "toJSON").Fn? then e
    else e.(own := e.own["toJSON" := StubbedToJSONFn])
  }

  /** A second stub finds the installed `toJSON` and changes nothing. */
  lemma StubErrorIdempotent(e: Value)
    requires e.Obj?
    ensures StubError(StubError(e)) == StubError(e)
  {
  }

  /** The keys the generated `toJSON` looks at: `name`, `message`, `stack`
      and the error's own enumerable keys. */
  function ProjectionKeys(err: Value): set<string> {
    {"name", "message", "stack"} + Keys(err)
  }

  /** The generated `toJSON`: a fold over the key list into an accumulator
      object, copying every key present on the error whose value is not a
      function. */
  method StubbedToJSON(err: Value) returns (obj: map<string, Value>)
    requires err.Obj?
    ensures obj.Keys <= ProjectionKeys(err)
    ensures forall k :: k in obj ==> Has(err, k) && obj[k] == Get(err, k) && !obj[k].Fn?
    ensures forall k :: k in ProjectionKeys(err) && Has(err, k) && !Get(err, k).Fn? ==> k in obj
    ensures Get(err, "toJSON").Fn? ==> "toJSON" !in obj
  {
    var keys := ProjectionKeys(err);
    obj := map[];
    ghost var done: set<string> := {};
    while keys != {}
      invariant keys + done == ProjectionKeys(err) && keys !! done
      invariant obj.Keys <= done
      invariant forall k :: k in obj ==> Has(err, k) && obj[k] == Get(err, k) && !obj[k].Fn?
      invariant forall k :: k in done && Has(err, k) && !Get(err, k).Fn? ==> k in obj
      decreases keys
    {
      var key :| key in keys;
      if Has(err, key) {
        var val := Get(err, key);
        if TypeOf(val) != "function" {
          obj := obj[key := val];
        }
      }
      keys := keys - {key};
      done := done + {key};
    }
  }

  /** The strings `toBool` accepts as true, compared after lower-casing. */
  const TrueWords: set<string> := {"true", "yes", "y", "on", "1"}

  /** `toBool`: strings by word, numbers by equality with 1, anything else
      by truthiness. */
  function ToBool(v: Value): (r: bool)
    ensures v.Str? ==> (r <==> AsciiLower(v.s) in TrueWords)
    ensures v.Num? ==> (r <==> v.n == 1)
    ensures !v.Str? && !v.Num? ==> r == Truthy(v)
  {
    match v
    case Str(s) => AsciiLower(s) in TrueWords
    case Num(n) => n == 1
    case _ => Truthy(v)
  }

  /** Only the lower-cased text decides: `TRUE`, `Yes` and `On` parse as true. */
  lemma ToBoolIgnoresCase(s: string)
    ensures ToBool(Str(s)) == ToBool(Str(AsciiLower(s)))
  {
    AsciiLowerIdempotent(s);
  }

  /** The cases of the utility's own test table: case does not matter for
      the true words, every other string (including `''`) is false, and among
      numbers only 1 is true. */
  lemma ToBoolExamples()
    ensures ToBool(Str("TRUE")) && ToBool(Str("Yes")) && ToBool(Str("on")) && ToBool(Str("1"))
    ensures !ToBool(Str("false")) && !ToBool(Str("0")) && !ToBool(Str("off"))
    ensures !ToBool(Str("")) && !ToBool(Str("test")) && !ToBool(Str("no")) && !ToBool(Str("n"))
    ensures !ToBool(Null) && !ToBool(Undefined) && ToBool(Num(1)) && !ToBool(Num(0)) && !ToBool(Num(2))
  {
    assert AsciiLower("TRUE") == "true";
    assert AsciiLower("Yes") == "yes";
    assert AsciiLower("on") == "on";
    assert AsciiLower("1") == "1";
    assert AsciiLower("false") == "false";
    assert AsciiLower("0") == "0";
    assert AsciiLower("off") == "off";
    assert AsciiLower("") == "";
    assert AsciiLower("test") == "test";
    assert AsciiLower("no") == "no";
    assert AsciiLower("n") == "n";
  }
}
