/** JavaScript values as the caching core sees them: call arguments, receivers,
    cached values, results of decorated methods and the keys they are stored under. */
module JsValue {

  datatype Option<+T> = None | Some(value: T)

  /** A JavaScript value. Numbers are modelled as integers; an object is the list of
      its own enumerable entries in `Object.entries` order (keys pairwise distinct). */
  datatype Value =
    | Undefined
    | Null
    | Bool(b: bool)
    | Num(n: int)
    | Str(s: string)
    | Arr(items: seq<Value>)
    | Obj(entries: seq<(string, Value)>)
    | Func(id: nat)

  /** JavaScript truthiness, as in `if (v)`. */
  predicate Truthy(v: Value) {
    match v
    case Undefined => false
    case Null => false
    case Bool(b) => b
    case Num(n) => n != 0
    case Str(s) => s != ""
    case _ => true
  }

  /** `v === undefined || v === null` */
  predicate Nullish(v: Value) {
    v.Undefined? || v.Null?
  }

  /** How an awaited call settles: resolved with a value, or rejected with an error. */
  datatype Try<+T> = Ok(value: T) | Err(error: Value)

  type Outcome = Try<Value>

  /** The error every failing store operation rejects with. */
  const ClientFailure: Value := Str("client failure")

  /** The error of calling something that is not a function. */
  const TypeError: Value := Str("TypeError")

  /** A decorated method: applied to a receiver (`this`) and an argument list. */
  type Method = (Value, seq<Value>) -> Outcome

  /** The value an awaited call produced, `undefined` when it rejected. */
  function ValueOrUndefined(o: Outcome): Value {
    if o.Ok? then o.value else Undefined
  }

  /** A resolved cache key: one string, or a list of strings. */
  datatype Key = KeyString(name: string) | KeyList(names: seq<string>)

  /** `Array.prototype.join` over strings. */
  function Join(parts: seq<string>, sep: string): string {
    if |parts| == 0 then ""
    else if |parts| == 1 then parts[0]
    else parts[0] + sep + Join(parts[1..], sep)
  }

  /** The string a key becomes in a template literal or as a property name:
      a list converts through `join(",")`. */
  function KeyText(k: Key): string {
    match k
    case KeyString(s) => s
    case KeyList(ks) => Join(ks, ",")
  }

  /** Truthiness of a key: a string when non-empty, a list always (even when empty). */
  predicate KeyTruthy(k: Key) {
    k.KeyList? || k.name != ""
  }

  /** `key.length`: characters of a string, elements of a list. */
  function KeyLength(k: Key): nat {
    match k
    case KeyString(s) => |s|
    case KeyList(ks) => |ks|
  }

  ghost predicate NoDuplicates<T>(s: seq<T>) {
    forall i, j :: 0 <= i < j < |s| ==> s[i] != s[j]
  }
}
