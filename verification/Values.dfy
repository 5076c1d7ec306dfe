/** JSON values as Python's json module decodes them, and the partial look-ups of the source. */
module Values {

  /** None stands for a raised exception wherever the source would raise one. */
  datatype Option<+T> = None | Some(value: T) {
    predicate IsFailure() {
      None?
    }

    function PropagateFailure<U>(): Option<U>
      requires None?
    {
      None
    }

    function Extract(): T
      requires Some?
    {
      value
    }
  }

  /** What the first record of a hash chain names as its predecessor. */
  const GENESIS := "0000000000000000000000000000000000000000000000000000000000000000"

  datatype Json =
    | Null
    | Bool(b: bool)
    | Num(n: int)
    | Str(s: string)
    | Arr(items: seq<Json>)
    | Obj(fields: map<string, Json>)

  /** value[key]: KeyError and TypeError are None. */
  function Field(value: Json, key: string): Option<Json> {
    if value.Obj? && key in value.fields then Some(value.fields[key]) else None
  }

  /** value.get(key) on a dictionary; a missing key reads as null. */
  function GetOrNull(value: Json, key: string): Json {
    if value.Obj? && key in value.fields then value.fields[key] else Null
  }

  /** value as text, for .encode() and json.loads. */
  function AsText(value: Json): Option<string> {
    if value.Str? then Some(value.s) else None
  }

  function TextField(value: Json, key: string): Option<string> {
    var v :- Field(value, key);
    AsText(v)
  }

  /** Rows a Python for loop yields. Rows of a nonempty object or text are themselves text,
      and every row is indexed by name, so those raise. */
  function Rows(value: Json): Option<seq<Json>> {
    match value
    case Arr(items) => Some(items)
    case Obj(fields) => if fields == map[] then Some([]) else None
    case Str(s) => if s == "" then Some([]) else None
    case _ => None
  }

  /** Lists and dictionaries cannot be dictionary keys or set members. */
  predicate Hashable(value: Json) {
    !value.Arr? && !value.Obj?
  }

  /** value[key] != expected */
  function Differs(value: Json, key: string, expected: Json): Option<bool> {
    var v :- Field(value, key);
    Some(v != expected)
  }

  /** Short-circuiting `or`: the right operand may only raise when the left one is false. */
  function Or(a: Option<bool>, b: Option<bool>): Option<bool> {
    if a == Some(false) then b else a
  }
}
