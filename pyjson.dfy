/**
 * A decoded JSON value as Python's `json` module produces it, and the few Python
 * operations the gateway client applies to such a value: truthiness, the `in`
 * operator, subscription by a key and by `0`, `dict.get` and `str()`.
 * Each operation either yields a value or the exception Python raises.
 */
module PyJson {
  import opened Outcomes

  /**
   * A JSON float carries the text Python's `str()` gives for it (e.g. "-9.5", "0.0"); the text
   * must be exactly that canonical form, since truthiness and `str()` read it as such
   * (a zero float is falsy only as "0.0" or "-0.0").
   */
  datatype Json =
    | JNull
    | JBool(b: bool)
    | JInt(i: int)
    | JFloat(text: string)
    | JStr(s: string)
    | JArr(elems: seq<Json>)
    | JObj(fields: map<string, Json>)

  /** The built-in exceptions the operations below can raise. */
  datatype PyError = TypeError | KeyError | IndexError | AttributeError

  /** Python truthiness: `None`, `False`, zero, "" and empty containers are falsy. */
  predicate Truthy(v: Json) {
    match v
    case JNull => false
    case JBool(b) => b
    case JInt(i) => i != 0
    case JFloat(t) => t != "0.0" && t != "-0.0"
    case JStr(s) => s != ""
    case JArr(e) => e != []
    case JObj(f) => f != map[]
  }

  /** Python's falsy values: `None`, `False`, `0`, `0.0`, `""`, `[]` and `{}`; a non-empty container is truthy. */
  lemma FalsyValues()
    ensures !Truthy(JNull) && !Truthy(JBool(false)) && !Truthy(JInt(0))
    ensures !Truthy(JFloat("0.0")) && !Truthy(JFloat("-0.0"))
    ensures !Truthy(JStr("")) && !Truthy(JArr([])) && !Truthy(JObj(map[]))
    ensures Truthy(JBool(true)) && Truthy(JStr("0")) && Truthy(JArr([JNull])) && Truthy(JObj(map["" := JNull]))
  {
    assert "" in map["" := JNull];
  }

  /** `key` occurs in `s` as a contiguous substring. */
  predicate IsSubstring(key: string, s: string)
    decreases |s|
  {
    key <= s || (s != [] && IsSubstring(key, s[1..]))
  }

  /** `key in v`: dict membership, list membership by equality, substring on str; other types raise. */
  function Contains(v: Json, key: string): (r: Result<bool, PyError>)
    ensures v.JObj? ==> r == Ok(key in v.fields)
    ensures v.JArr? ==> r == Ok(JStr(key) in v.elems)
    ensures v.JStr? ==> r == Ok(IsSubstring(key, v.s))
    ensures (v.JInt? || v.JFloat? || v.JBool? || v.JNull?) ==> r == Err(TypeError)
  {
    match v
    case JObj(f) => Ok(key in f)
    case JArr(e) => Ok(JStr(key) in e)
    case JStr(s) => Ok(IsSubstring(key, s))
    case _ => Err(TypeError)
  }

  /** `v[key]` with a string key: only a dict accepts it; lists and strings want integer indices. */
  function Subscript(v: Json, key: string): (r: Result<Json, PyError>)
    ensures r.Ok? <==> v.JObj? && key in v.fields
    ensures r.Ok? ==> r.value == v.fields[key]
    ensures v.JObj? && key !in v.fields ==> r == Err(KeyError)
    ensures !v.JObj? ==> r == Err(TypeError)
  {
    match v
    case JObj(f) => if key in f then Ok(f[key]) else Err(KeyError)
    case _ => Err(TypeError)
  }

  /** `v[0]`: the first list element or first character; JSON object keys are strings, so a dict raises. */
  function First(v: Json): (r: Result<Json, PyError>)
    ensures v.JArr? ==> r == if v.elems == [] then Err(IndexError) else Ok(v.elems[0])
    ensures r.Ok? ==> v.JArr? || v.JStr?
  {
    match v
    case JArr(e) => if e == [] then Err(IndexError) else Ok(e[0])
    case JStr(s) => if s == "" then Err(IndexError) else Ok(JStr(s[..1]))
    case JObj(_) => Err(KeyError)
    case _ => Err(TypeError)
  }

  /** `v.get(key, '')`: only a dict has a `get` method. */
  function GetOrEmpty(v: Json, key: string): (r: Result<Json, PyError>)
    ensures r.Ok? <==> v.JObj?
    ensures v.JObj? && key in v.fields ==> r == Ok(v.fields[key])
    ensures v.JObj? && key !in v.fields ==> r == Ok(JStr(""))
    ensures !v.JObj? ==> r == Err(AttributeError)
  {
    match v
    case JObj(f) => Ok(GetOr(f, key, JStr("")))
    case _ => Err(AttributeError)
  }

  /** Decimal digits of a natural number. */
  function DigitsOf(n: nat): string
    decreases n
  {
    var d := ['0', '1', '2', '3', '4', '5', '6', '7', '8', '9'][n % 10];
    if n < 10 then [d] else DigitsOf(n / 10) + [d]
  }

  /**
   * `str(v)` for the values a gateway cell field holds. The text of a nested
   * list or dict (Python's repr of it) is not modelled: it renders as "".
   */
  function Str(v: Json): string {
    match v
    case JNull => "None"
    case JBool(b) => if b then "True" else "False"
    case JInt(i) => if i < 0 then "-" + DigitsOf(-i) else DigitsOf(i)
    case JFloat(t) => t
    case JStr(s) => s
    case JArr(_) => ""
    case JObj(_) => ""
  }
}
