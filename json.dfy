/** The values `json.loads` produces and the JSON columns hold, with the
    Python operations the backend applies to them: truthiness, `dict.get`,
    `str()` and `repr()`. */
module Json {
  import opened Text

  /** A decoded JSON value. `JNull` is Python's `None`; an object keeps its
      keys in insertion order, as a Python `dict` does. Floating-point
      numbers are not modelled. */
  datatype JsonValue =
    | JNull
    | JBool(b: bool)
    | JInt(n: int)
    | JString(s: string)
    | JArray(items: seq<JsonValue>)
    | JObject(fields: seq<(string, JsonValue)>)

  /** The entries of a decoded dict, in insertion order. */
  type Fields = seq<(string, JsonValue)>

  /** Python truthiness: `None`, `False`, `0`, `""`, `[]` and `{}` are false. */
  predicate Truthy(v: JsonValue) {
    match v
    case JNull => false
    case JBool(b) => b
    case JInt(n) => n != 0
    case JString(s) => s != ""
    case JArray(items) => items != []
    case JObject(fields) => fields != []
  }

  predicate HasKey(fields: seq<(string, JsonValue)>, key: string) {
    exists i :: 0 <= i < |fields| && fields[i].0 == key
  }

  /** `d.get(key, default)` on a dict's entries. */
  function Lookup(fields: seq<(string, JsonValue)>, key: string, default: JsonValue): (r: JsonValue)
    ensures !HasKey(fields, key) ==> r == default
    ensures HasKey(fields, key) ==> exists i :: 0 <= i < |fields| && fields[i] == (key, r)
  {
    if fields == [] then default
    else if fields[0].0 == key then fields[0].1
    else
      var r := Lookup(fields[1..], key, default);
      assert HasKey(fields, key) ==> HasKey(fields[1..], key) by {
        if HasKey(fields, key) {
          var i :| 0 <= i < |fields| && fields[i].0 == key;
          assert i > 0 && fields[1..][i - 1].0 == key;
        }
      }
      assert forall i :: 0 <= i < |fields| - 1 ==> fields[1..][i] == fields[i + 1];
      r
  }

  /** `value.get(key)` when `value` is a dict; `None` otherwise. */
  function Get(v: JsonValue, key: string): JsonValue {
    if v.JObject? then Lookup(v.fields, key, JNull) else JNull
  }

  /** `repr()` of a decoded value. Strings are shown between single quotes;
      Python's choice of quote and escaping of special characters is not
      modelled. */
  function Repr(v: JsonValue): (r: string)
    ensures r != []
    decreases v, 1
  {
    match v
    case JNull => "None"
    case JBool(b) => if b then "True" else "False"
    case JInt(n) => IntToString(n)
    case JString(s) => "'" + s + "'"
    case JArray(items) => "[" + ReprItems(items) + "]"
    case JObject(fields) => "{" + ReprFields(v, 0) + "}"
  }

  function ReprItems(items: seq<JsonValue>): string
    decreases items, 0
  {
    if items == [] then ""
    else if |items| == 1 then Repr(items[0])
    else Repr(items[0]) + ", " + ReprItems(items[1..])
  }

  /** The `'key': value` entries of `obj`'s fields from position `i` on. */
  function ReprFields(obj: JsonValue, i: nat): string
    requires obj.JObject?
    decreases obj, 0, |obj.fields| - i
  {
    if i >= |obj.fields| then ""
    else
      var field := obj.fields[i];
      assert field < obj;
      var entry := "'" + field.0 + "': " + Repr(field.1);
      if i == |obj.fields| - 1 then entry else entry + ", " + ReprFields(obj, i + 1)
  }

  /** `str()` of a decoded value: a string is itself, anything else its
      `repr()`. */
  function Str(v: JsonValue): string {
    if v.JString? then v.s else Repr(v)
  }

  /** `str()` of a dict always starts with `{`, so it is never empty. */
  lemma StrOfObject(fields: seq<(string, JsonValue)>)
    ensures Str(JObject(fields)) != [] && Str(JObject(fields))[0] == '{'
  {
  }
}
