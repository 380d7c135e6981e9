/**
 * Parsed JSON values and the ways the JavaScript and Python code reads them:
 * property access, `dict.get`, subscripting, truthiness and conversion to
 * text.  Numbers are integers; the payloads the core reads carry no fractions.
 */
module Json {
  import opened Wrappers
  import opened Strings

  datatype Json =
    | JNull
    | JBool(b: bool)
    | JNum(n: int)
    | JStr(s: string)
    | JArr(items: seq<Json>)
    | JObj(fields: map<string, Json>)

  // ---------------------------------------------------------------------------
  // JavaScript.  A property read yields Option<Json>; None is `undefined`.
  // ---------------------------------------------------------------------------

  /** JavaScript truthiness of a value read from a payload. */
  predicate JsTruthy(v: Option<Json>) {
    match v
    case None => false
    case Some(JNull) => false
    case Some(JBool(b)) => b
    case Some(JNum(n)) => n != 0
    case Some(JStr(s)) => s != ""
    case Some(_) => true
  }

  function TypeErrorReading(base: string, key: string): string {
    "Cannot read properties of " + base + " (reading '" + key + "')"
  }

  /** JavaScript `v.key`: reading a property of undefined or null throws a TypeError. */
  function JsGet(v: Option<Json>, key: string): (r: Result<Option<Json>, string>)
    ensures r.Failure? <==> v.None? || v == Some(JNull)
  {
    match v
    case None => Failure(TypeErrorReading("undefined", key))
    case Some(JNull) => Failure(TypeErrorReading("null", key))
    case Some(JObj(m)) => Success(if key in m then Some(m[key]) else None)
    case Some(JStr(s)) => Success(if key == "length" then Some(JNum(Utf16Length(s))) else None)
    case Some(JArr(a)) => Success(if key == "length" then Some(JNum(|a|)) else None)
    case Some(_) => Success(None)
  }

  /** Property read on an object that is known not to be null or undefined. */
  function JsField(v: Json, key: string): Option<Json> {
    match v
    case JObj(m) => if key in m then Some(m[key]) else None
    case JStr(s) => if key == "length" then Some(JNum(Utf16Length(s))) else None
    case JArr(a) => if key == "length" then Some(JNum(|a|)) else None
    case _ => None
  }

  /** JavaScript `String(v)` for a JSON value, as used by template literals and `new Error(v)`. */
  function JsStringOf(v: Json): string
    decreases v
  {
    match v
    case JNull => "null"
    case JBool(b) => if b then "true" else "false"
    case JNum(n) => IntToString(n)
    case JStr(s) => s
    case JArr(a) => Join(seq(|a|, i requires 0 <= i < |a| => if a[i] == JNull then "" else JsStringOf(a[i])), ",")
    case JObj(_) => "[object Object]"
  }

  /** JavaScript `String(v)` where v may be undefined. */
  function JsString(v: Option<Json>): string {
    match v
    case None => "undefined"
    case Some(j) => JsStringOf(j)
  }

  /** JavaScript `a || b` on a value read from a payload. */
  function JsOr(a: Option<Json>, b: Json): Json {
    if JsTruthy(a) then a.value else b
  }

  // ---------------------------------------------------------------------------
  // Python.  Missing keys are handled by `dict.get` defaults or raise.
  // ---------------------------------------------------------------------------

  /** Python truthiness: None, False, 0, "", [] and {} are false. */
  predicate PyTruthy(v: Json) {
    match v
    case JNull => false
    case JBool(b) => b
    case JNum(n) => n != 0
    case JStr(s) => s != ""
    case JArr(a) => a != []
    case JObj(m) => m != map[]
  }

  /** The name Python gives the type of a decoded JSON value. */
  function PyTypeName(v: Json): string {
    match v
    case JNull => "NoneType"
    case JBool(_) => "bool"
    case JNum(_) => "int"
    case JStr(_) => "str"
    case JArr(_) => "list"
    case JObj(_) => "dict"
  }

  /** Python `v.get(key, default)`: only a dict has `get`. */
  function PyGet(v: Json, key: string, default: Json): (r: Result<Json, string>)
    ensures r.Success? <==> v.JObj?
  {
    match v
    case JObj(m) => Success(if key in m then m[key] else default)
    case _ => Failure("'" + PyTypeName(v) + "' object has no attribute 'get'")
  }

  /** `str(e)` of the KeyError raised for a missing key: the key in single quotes. */
  function KeyErrorText(key: string): string {
    "'" + key + "'"
  }

  /** Python `v[key]` with a string key. */
  function PyIndex(v: Json, key: string): (r: Result<Json, string>)
    ensures r.Success? <==> v.JObj? && key in v.fields
  {
    match v
    case JObj(m) => if key in m then Success(m[key]) else Failure(KeyErrorText(key))
    case JArr(_) => Failure("list indices must be integers or slices, not str")
    case JStr(_) => Failure("string indices must be integers, not 'str'")
    case _ => Failure("'" + PyTypeName(v) + "' object is not subscriptable")
  }

  /** Python `repr(v)` for a decoded value; dict entries are not rendered (see README). */
  function PyRepr(v: Json): string
    decreases v
  {
    match v
    case JNull => "None"
    case JBool(b) => if b then "True" else "False"
    case JNum(n) => IntToString(n)
    case JStr(s) => "'" + s + "'"
    case JArr(a) => "[" + Join(seq(|a|, i requires 0 <= i < |a| => PyRepr(a[i])), ", ") + "]"
    case JObj(_) => "{...}"
  }

  /** Python `str(v)` for a decoded value. */
  function PyStr(v: Json): string {
    match v
    case JStr(s) => s
    case _ => PyRepr(v)
  }
}
