/** Controlled-form state as the React pages keep it: an object from field
    name to value, updated one field at a time, merged from defaults, and
    turned into a JSON payload with `parseInt` and `|| null`; and the same
    JSON values as the Django views read them from a request body. */
module Forms {
  import opened Options
  import opened Text

  /** A JSON value a form or a payload holds. A NaN produced by `parseInt`
      travels as `null` (`JSON.stringify(NaN)` is `"null"`). */
  datatype Value = Null | Bool(b: bool) | Num(n: int) | Str(s: string)

  /** JavaScript truthiness: `null`, `false`, `0` and `''` are falsy. */
  predicate Truthy(v: Value)
  {
    match v
    case Null => false
    case Bool(b) => b
    case Num(n) => n != 0
    case Str(s) => s != ""
  }

  /** `String(v)`. */
  function ToJsString(v: Value): string
  {
    match v
    case Null => "null"
    case Bool(b) => if b then "true" else "false"
    case Num(n) => IntToString(n)
    case Str(s) => s
  }

  /** What a Django `CharField` keeps of a JSON value posted to it: NULL for
      `None`, and Python's `str()` of anything else, so `true` is "True" and
      a number its decimal text. */
  function CharFieldText(v: Value): (r: Option<string>)
    ensures r.None? <==> v.Null?
    ensures v.Str? ==> r == Some(v.s)
    ensures v.Bool? ==> r == Some(if v.b then "True" else "False")
    ensures v.Num? ==> r.Some? && PyInt(r.value) == Some(v.n)
  {
    match v
    case Null => None
    case Bool(b) => Some(if b then "True" else "False")
    case Num(n) => PyIntOfIntToString(n); Some(IntToString(n))
    case Str(s) => Some(s)
  }

  /** `parseInt(v)`: the value is first turned into a string. */
  function ParseIntValue(v: Value): Option<int>
  {
    ParseInt(ToJsString(v))
  }

  /** A number reads back as itself, and so does its decimal rendering
      typed into a text field. */
  lemma ParseIntValueOfNumber(n: int)
    ensures ParseIntValue(Num(n)) == Some(n)
    ensures ParseIntValue(Str(IntToString(n))) == Some(n)
  {
    ParseIntOfIntToString(n);
  }

  /** A blank field and `null` parse to NaN. */
  lemma ParseIntValueOfBlank()
    ensures ParseIntValue(Str("")) == None
    ensures ParseIntValue(Null) == None
  {
    assert TrimStart("null", IsJsSpace) == "null";
    assert LeadingDigits("null", 10) == 0;
  }

  /** `parseInt(v)` as it goes on the wire: NaN becomes `null`. */
  function IntOrNull(v: Value): (r: Value)
    ensures ParseIntValue(v).None? ==> r == Null
    ensures ParseIntValue(v).Some? ==> r == Num(ParseIntValue(v).value)
  {
    match ParseIntValue(v)
    case None => Null
    case Some(n) => Num(n)
  }

  /** `parseInt(v) || null`: NaN and 0 both become `null`. */
  function NonZeroIntOrNull(v: Value): (r: Value)
    ensures r == Null <==> ParseIntValue(v) == None || ParseIntValue(v) == Some(0)
    ensures r != Null ==> r == Num(ParseIntValue(v).value) && r.n != 0
  {
    match ParseIntValue(v)
    case Some(n) => if n != 0 then Num(n) else Null
    case None => Null
  }

  /** `v || fallback`: `v` when it is truthy, else the fallback. */
  function OrElse(v: Value, fallback: Value): (r: Value)
    ensures Truthy(v) ==> r == v
    ensures !Truthy(v) ==> r == fallback
  {
    if Truthy(v) then v else fallback
  }

  type Form = map<string, Value>

  /** `{...form, [name]: value}`: the named field holds `value` and every
      other field is as it was. */
  function SetField(form: Form, name: string, value: Value): (r: Form)
    ensures r.Keys == form.Keys + {name}
    ensures r[name] == value
    ensures forall k :: k in form && k != name ==> r[k] == form[k]
  {
    form[name := value]
  }

  /** `{...defaults, ...initial}`: every field of either, with the value of
      `initial` where it has one. */
  function Merge(defaults: Form, initial: Form): (r: Form)
    ensures r.Keys == defaults.Keys + initial.Keys
    ensures forall k :: k in initial ==> r[k] == initial[k]
    ensures forall k :: k in defaults && k !in initial ==> r[k] == defaults[k]
  {
    defaults + initial
  }

  /** `obj[name]`, which is `undefined` for an absent field; `undefined`
      behaves as `null` wherever it is read here (it is falsy, and `parseInt`
      reads both as NaN). */
  function Field(obj: Form, name: string): (v: Value)
    ensures name in obj ==> v == obj[name]
    ensures name !in obj ==> v == Null
  {
    if name in obj then obj[name] else Null
  }
}
