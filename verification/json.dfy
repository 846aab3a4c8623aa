/** A decoded JSON document as Python's `json.loads` hands it back: `None`,
    `bool`, `int`, `float`, `str`, `list` or an insertion-ordered `dict`.
    Parsing itself is not modelled; the parser is an oracle of type
    `string -> Result<Json, string>` wherever one is needed. */
module Json {
  import opened Wrappers
  import opened Text
  import opened Dicts

  /** A float keeps the text Python's `repr` gives it, which the model does
      not compute. */
  datatype Json =
    | JNull
    | JBool(b: bool)
    | JInt(i: int)
    | JFloat(f: real, repr: string)
    | JStr(s: string)
    | JArr(items: seq<Json>)
    | JObj(fields: Dict<string, Json>)

  /** Python's `bool(value)`. */
  predicate Truthy(j: Json) {
    match j
    case JNull => false
    case JBool(b) => b
    case JInt(i) => i != 0
    case JFloat(f, _) => f != 0.0
    case JStr(s) => |s| > 0
    case JArr(items) => |items| > 0
    case JObj(fields) => |fields| > 0
  }

  /** `value.get(key)` on a JSON object. */
  function Field(fields: Dict<string, Json>, key: string): Option<Json> {
    Get(fields, key)
  }

  /** Python's `str(value)`: strings print bare, everything else as its
      `repr`. */
  function Show(j: Json): string {
    match j
    case JStr(s) => s
    case _ => Repr(j)
  }

  /** Python's `repr(value)`. Strings are quoted with `'` without escaping
      what they hold. */
  function Repr(j: Json): string
    decreases j, 1
  {
    match j
    case JNull => "None"
    case JBool(b) => if b then "True" else "False"
    case JInt(i) => IntToString(i)
    case JFloat(_, r) => r
    case JStr(s) => "'" + s + "'"
    case JArr(items) => "[" + Join(", ", ReprItems(j, items)) + "]"
    case JObj(fields) => "{" + Join(", ", ReprFields(j, fields)) + "}"
  }

  function ReprItems(parent: Json, items: seq<Json>): seq<string>
    requires forall x :: x in items ==> x < parent
    decreases parent, 0, |items|
  {
    if |items| == 0 then []
    else
      assert items[0] in items;
      assert forall x :: x in items[1..] ==> x in items;
      [Repr(items[0])] + ReprItems(parent, items[1..])
  }

  function ReprFields(parent: Json, fields: Dict<string, Json>): seq<string>
    requires forall kv :: kv in fields ==> kv.1 < parent
    decreases parent, 0, |fields|
  {
    if |fields| == 0 then []
    else
      assert fields[0] in fields;
      assert forall kv :: kv in fields[1..] ==> kv in fields;
      ["'" + fields[0].0 + "': " + Repr(fields[0].1)] + ReprFields(parent, fields[1..])
  }
}
