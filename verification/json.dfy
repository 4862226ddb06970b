/**
 * Decoded JSON values and the Python operations the core applies to them
 * (truthiness, `dict.get`, the `in` operator, subscripts). Decoding itself is
 * not modelled: a line or file is given as the value `json.loads` produced, or
 * as undecodable.
 */
module Json {
  import opened Wrappers
  import opened Errors

  datatype JsonValue =
    | JNull
    | JBool(b: bool)
    | JNum(n: int)
    | JStr(s: string)
    | JArr(items: seq<JsonValue>)
    | JObj(fields: map<string, JsonValue>)

  /** What a file holds, as seen through `exists()` and `json.load`. */
  datatype FileState = Missing | Undecodable | Decoded(value: JsonValue)

  /** Python truthiness (`if data:`). */
  predicate Truthy(v: JsonValue)
  {
    match v
    case JNull => false
    case JBool(b) => b
    case JNum(n) => n != 0
    case JStr(s) => |s| > 0
    case JArr(items) => |items| > 0
    case JObj(fields) => |fields| > 0
  }

  /** `d.get(key, default)` on a dict. */
  function GetOr(fields: map<string, JsonValue>, key: string, default: JsonValue): JsonValue
  {
    if key in fields then fields[key] else default
  }

  /** `v.get(key, default)`: only dicts have `get`. */
  function Get(v: JsonValue, key: string, default: JsonValue): Result<JsonValue, Exc>
  {
    if v.JObj? then Ok(GetOr(v.fields, key, default)) else Err(AttributeError)
  }

  /** `sub` occurs in `s` as a contiguous substring. */
  predicate IsSubstring(sub: string, s: string)
    decreases |s|
  {
    sub <= s || (|s| > 0 && IsSubstring(sub, s[1..]))
  }

  /** `key in v` for a string key. */
  function Contains(v: JsonValue, key: string): Result<bool, Exc>
  {
    match v
    case JObj(fields) => Ok(key in fields)
    case JStr(s) => Ok(IsSubstring(key, s))
    case JArr(items) => Ok(JStr(key) in items)
    case _ => Err(TypeError)
  }

  /** `v[key]` for a string key. */
  function Subscript(v: JsonValue, key: string): Result<JsonValue, Exc>
  {
    match v
    case JObj(fields) => if key in fields then Ok(fields[key]) else Err(KeyError)
    case _ => Err(TypeError)
  }

  /** `v[0]` */
  function First(v: JsonValue): Result<JsonValue, Exc>
  {
    match v
    case JArr(items) => if |items| > 0 then Ok(items[0]) else Err(IndexError)
    case JStr(s) => if |s| > 0 then Ok(JStr([s[0]])) else Err(IndexError)
    case JObj(_) => Err(KeyError)
    case _ => Err(TypeError)
  }

  /** The value is a list of strings. */
  predicate IsStrList(v: JsonValue)
  {
    v.JArr? && forall i :: 0 <= i < |v.items| ==> v.items[i].JStr?
  }

  /** The strings of a list of strings. */
  function Strings(items: seq<JsonValue>): (r: seq<string>)
    requires forall i :: 0 <= i < |items| ==> items[i].JStr?
    ensures |r| == |items|
    ensures forall i :: 0 <= i < |items| ==> items[i] == JStr(r[i])
  {
    if |items| == 0 then [] else [items[0].s] + Strings(items[1..])
  }

  /** A list of strings as JSON. */
  function StrList(ss: seq<string>): (v: JsonValue)
    ensures IsStrList(v) && |v.items| == |ss|
    ensures forall i :: 0 <= i < |ss| ==> v.items[i] == JStr(ss[i])
  {
    JArr(seq(|ss|, i requires 0 <= i < |ss| => JStr(ss[i])))
  }

  /** A list of strings survives being written as JSON and read back. */
  lemma StringsOfStrList(ss: seq<string>)
    ensures Strings(StrList(ss).items) == ss
  {
    var r := Strings(StrList(ss).items);
    assert |r| == |ss|;
    assert forall i :: 0 <= i < |ss| ==> r[i] == ss[i];
  }
}
