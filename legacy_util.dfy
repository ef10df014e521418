/** The hash-field helpers of the root package: lib/util/isScalar.ts and lib/util/fieldify.ts.
    Object keys are taken to be distinct, as JavaScript guarantees for own properties. */
module LegacyFields {
  import opened JsValue

  /** `SCALAR_KEY`: the one field under which a scalar is stored in a hash. */
  const ScalarKey: string := ""

  /** `typeof v === 'object'` (true for `null` and arrays as well). */
  predicate IsObjectType(v: Value) {
    v.Null? || v.Arr? || v.Obj?
  }

  /** `Object.keys(v).length` for an object: an array has one key per index. */
  function OwnKeyCount(v: Value): nat {
    match v
    case Arr(items) => |items|
    case Obj(entries) => |entries|
    case _ => 0
  }

  /** `v[name]` for an object; an array has no property named by a non-index such as `''`. */
  function PropertyOf(v: Value, name: string): Value
    decreases if v.Obj? then |v.entries| else 0
  {
    if v.Obj? && |v.entries| > 0 then
      if v.entries[0].0 == name then v.entries[0].1 else PropertyOf(Obj(v.entries[1..]), name)
    else Undefined
  }

  /** isScalar: exactly a plain object whose only key is `''`, with a truthy value there. */
  function IsScalar(v: Value): (b: bool)
    ensures b <==> v.Obj? && |v.entries| == 1 && v.entries[0].0 == ScalarKey && Truthy(v.entries[0].1)
    ensures !Truthy(v) || !IsObjectType(v) ==> !b
  {
    assert v.Obj? && |v.entries| == 1 ==> PropertyOf(Obj(v.entries[1..]), ScalarKey) == Undefined;
    Truthy(v) && IsObjectType(v) && OwnKeyCount(v) == 1 && Truthy(PropertyOf(v, ScalarKey))
  }

  /** `[k1, s(v1), k2, s(v2), ...]` over the entries, in order. */
  function Flatten(entries: seq<(string, Value)>, serialize: Value -> string): (fields: seq<string>)
    ensures |fields| == 2 * |entries|
    ensures forall i :: 0 <= i < |entries| ==>
              fields[2 * i] == entries[i].0 && fields[2 * i + 1] == serialize(entries[i].1)
  {
    if |entries| == 0 then []
    else
      var rest := Flatten(entries[1..], serialize);
      assert forall i :: 1 <= i < |entries| ==> entries[i] == entries[1..][i - 1];
      [entries[0].0, serialize(entries[0].1)] + rest
  }

  /** fieldify, with `serializeValue` as the parameter `serialize`: an object's entries
      flattened, anything else (arrays included) as the single pair `['', s(value)]`.
      `Object.entries(null)` throws. */
  function Fieldify(value: Value, serialize: Value -> string): (r: Try<seq<string>>)
    ensures r.Err? <==> value.Null?
    ensures r.Err? ==> r.error == TypeError
    ensures value.Obj? ==> r == Ok(Flatten(value.entries, serialize))
    ensures !value.Obj? && !value.Null? ==> r == Ok([ScalarKey, serialize(value)])
  {
    if value.Null? then Err(TypeError)
    else if value.Obj? then Ok(Flatten(value.entries, serialize))
    else Ok([ScalarKey, serialize(value)])
  }

  /** What a hash built from a field list holds: consecutive fields paired as key and value. */
  function PairUp(fields: seq<string>): seq<(string, string)>
    requires |fields| % 2 == 0
    decreases |fields|
  {
    if |fields| == 0 then [] else [(fields[0], fields[1])] + PairUp(fields[2..])
  }

  /** Pairing the flattened fields up gives back every key with its serialised value. */
  lemma {:induction false} PairUpFlatten(entries: seq<(string, Value)>, serialize: Value -> string)
    ensures |PairUp(Flatten(entries, serialize))| == |entries|
    ensures forall i :: 0 <= i < |entries| ==>
              PairUp(Flatten(entries, serialize))[i] == (entries[i].0, serialize(entries[i].1))
  {
    if |entries| > 0 {
      var fields := Flatten(entries, serialize);
      var rest := Flatten(entries[1..], serialize);
      assert fields[2..] == rest;
      PairUpFlatten(entries[1..], serialize);
      assert forall i :: 1 <= i < |entries| ==> entries[i] == entries[1..][i - 1];
    }
  }

  /** A stored scalar, `{'': s(value)}`, reads back as a scalar exactly when its text is
      non-empty. */
  lemma FieldifiedScalarIsScalar(value: Value, serialize: Value -> string)
    requires !value.Obj? && !value.Null?
    ensures var fields := Fieldify(value, serialize).value;
            var stored := PairUp(fields);
            && stored == [(ScalarKey, serialize(value))]
            && (IsScalar(Obj([(stored[0].0, Str(stored[0].1))])) <==> serialize(value) != "")
  {
    var fields := Fieldify(value, serialize).value;
    assert fields[2..] == [];
  }
}
