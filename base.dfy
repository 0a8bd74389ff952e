/** Shared vocabulary: optional values, the JSON-like values a form holds,
    the validation-error record, and ASCII lower-casing. */
module Base {

  datatype Option<+T> = None | Some(value: T) {
    function GetOr(default: T): T {
      match this
      case Some(v) => v
      case None => default
    }
  }

  /** A thrown error or a normal result. */
  datatype Result<+T> = Ok(value: T) | Err(message: string)

  /** A JavaScript value as far as the form cares: `undefined` is kept apart
      from a missing key because lodash's `isEqual` tells them apart. */
  datatype Value =
    | Undefined
    | Null
    | Bool(b: bool)
    | Number(n: int)
    | Str(s: string)
    | List(items: seq<Value>)
    | Object(fields: map<string, Value>)

  /** A form's data object: field name to value. */
  type Data = map<string, Value>

  /** One field's validation message(s): `string | string[]`. */
  datatype ErrorValue = One(message: string) | Many(messages: seq<string>)

  /** The messages an error value carries, in order. */
  function Messages(v: ErrorValue): seq<string> {
    match v
    case One(m) => [m]
    case Many(ms) => ms
  }

  datatype ErrorEntry = ErrorEntry(key: string, value: ErrorValue)

  /** The keys of an object are distinct. */
  predicate UniqueKeys(e: seq<ErrorEntry>) {
    forall i, j :: 0 <= i < j < |e| ==> e[i].key != e[j].key
  }

  /** An error record `Record<string, string | string[]>`, kept as its
      entries in `Object.entries` order. */
  type ErrorBag = e: seq<ErrorEntry> | UniqueKeys(e) witness []

  /** ASCII lower-casing, standing in for `String.prototype.toLowerCase`. */
  function LowerChar(c: char): char {
    if 'A' <= c <= 'Z' then (c as int + 32) as char else c
  }

  function Lower(s: string): (r: string)
    ensures |r| == |s|
    ensures forall i :: 0 <= i < |s| ==> r[i] == LowerChar(s[i])
  {
    if s == [] then [] else [LowerChar(s[0])] + Lower(s[1..])
  }
}
