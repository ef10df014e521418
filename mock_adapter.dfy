/** The in-memory `CacheClient` of packages/core/test/test-utils.ts: a dictionary of
    cached values, substring-matched `keys`, and `delHash`. Each operation can be made to
    reject, the way the test suites replace `get`, `set` or `del` with throwing mocks. */
module MockStore {
  import opened JsValue

  /** Keeps the elements of `s` that satisfy `keep`, in order. */
  function Filter(s: seq<string>, keep: string -> bool): seq<string> {
    if |s| == 0 then []
    else (if keep(s[0]) then [s[0]] else []) + Filter(s[1..], keep)
  }

  lemma {:induction false} FilterMembers(s: seq<string>, keep: string -> bool)
    ensures forall x :: x in Filter(s, keep) <==> x in s && keep(x)
    ensures NoDuplicates(s) ==> NoDuplicates(Filter(s, keep))
  {
    if |s| > 0 {
      FilterMembers(s[1..], keep);
      assert forall x :: x in s <==> x == s[0] || x in s[1..];
      if NoDuplicates(s) {
        assert NoDuplicates(s[1..]) by {
          forall i, j | 0 <= i < j < |s[1..]| ensures s[1..][i] != s[1..][j] {
            assert s[1..][i] == s[i + 1] && s[1..][j] == s[j + 1];
          }
        }
        assert s[0] !in s[1..] by {
          forall j | 0 <= j < |s[1..]| ensures s[1..][j] != s[0] {
            assert s[1..][j] == s[j + 1];
          }
        }
        var rest := Filter(s[1..], keep);
        if keep(s[0]) {
          forall i, j | 0 <= i < j < |[s[0]] + rest| ensures ([s[0]] + rest)[i] != ([s[0]] + rest)[j] {
            if i == 0 {
              assert ([s[0]] + rest)[j] == rest[j - 1];
              assert rest[j - 1] in rest;
            } else {
              assert ([s[0]] + rest)[i] == rest[i - 1] && ([s[0]] + rest)[j] == rest[j - 1];
            }
          }
        } else {
          assert Filter(s, keep) == rest;
        }
      }
    } else {
      assert Filter(s, keep) == [];
    }
  }

  /** `s.startsWith(p)` */
  predicate StartsWith(s: string, p: string) {
    |p| <= |s| && s[..|p|] == p
  }

  /** `s.includes(p)`: `p` occurs somewhere in `s` (the empty pattern occurs everywhere). */
  predicate Includes(s: string, p: string)
    decreases |s|
  {
    StartsWith(s, p) || (|s| > 0 && Includes(s[1..], p))
  }

  /** `p` occurs in `s` at index `i`. */
  predicate OccursAt(s: string, p: string, i: int) {
    0 <= i && i + |p| <= |s| && s[i..i + |p|] == p
  }

  /** `Includes` is substring search: it holds exactly when there is an occurrence index. */
  lemma {:induction false} IncludesIsSubstring(s: string, p: string)
    ensures Includes(s, p) <==> exists i :: OccursAt(s, p, i)
    decreases |s|
  {
    if StartsWith(s, p) {
      assert OccursAt(s, p, 0);
    } else if |s| > 0 {
      IncludesIsSubstring(s[1..], p);
      if Includes(s[1..], p) {
        var j :| OccursAt(s[1..], p, j);
        assert s[1..][j..j + |p|] == s[j + 1..j + 1 + |p|];
        assert OccursAt(s, p, j + 1);
      }
      if exists i :: OccursAt(s, p, i) {
        var i :| OccursAt(s, p, i);
        assert i != 0;
        assert s[1..][i - 1..i - 1 + |p|] == s[i..i + |p|];
        assert OccursAt(s[1..], p, i - 1);
      }
    } else {
      assert |p| > 0;
    }
  }

  /** The cache object: values by property name, and the names in `Object.keys` order. */
  datatype Dict = Dict(values: map<string, Value>, order: seq<string>) {
    /** The order lists each stored name exactly once. */
    ghost predicate Valid() {
      && (forall k :: k in values <==> k in order)
      && NoDuplicates(order)
    }
  }

  const EmptyDict: Dict := Dict(map[], [])

  /** `cache[key]`: `undefined` for a missing name. */
  function Lookup(d: Dict, key: string): Value {
    if key in d.values then d.values[key] else Undefined
  }

  /** `cache[key] = value`: a new name goes last, an existing one keeps its position. */
  function Put(d: Dict, key: string, value: Value): Dict {
    Dict(d.values[key := value], if key in d.values then d.order else d.order + [key])
  }

  /** The cache after a `set` that rejects (`rejected`) or stores the value under the key's name. */
  function AfterSet(d: Dict, rejected: bool, key: Key, value: Value): Dict {
    if rejected then d else Put(d, KeyText(key), value)
  }

  /** `delete cache[key]` */
  function Remove(d: Dict, key: string): Dict {
    Dict(d.values - {key}, Filter(d.order, x => x != key))
  }

  /** The deletes of `keys.forEach(key => delete cache[key])`, in order. */
  function RemoveAll(d: Dict, keys: seq<string>): Dict
    decreases |keys|
  {
    if |keys| == 0 then d else Remove(RemoveAll(d, keys[..|keys| - 1]), keys[|keys| - 1])
  }

  /** `Object.keys(cache).filter(key => key.includes(pattern))` */
  function MatchingKeys(d: Dict, pattern: string): seq<string> {
    Filter(d.order, x => Includes(x, pattern))
  }

  /** Set then get: the stored value is read back, and every other name keeps its value. */
  lemma PutThenLookup(d: Dict, key: string, value: Value, other: string)
    ensures Lookup(Put(d, key, value), key) == value
    ensures other != key ==> Lookup(Put(d, key, value), other) == Lookup(d, other)
  {
  }

  /** A second set of the same name overwrites the first. */
  lemma PutOverwrites(d: Dict, key: string, v1: Value, v2: Value)
    ensures Put(Put(d, key, v1), key, v2).values == Put(d, key, v2).values
  {
  }

  lemma {:induction false} PutKeepsValid(d: Dict, key: string, value: Value)
    requires d.Valid()
    ensures Put(d, key, value).Valid()
  {
    if key !in d.values {
      var o := d.order + [key];
      assert key !in d.order;
      forall i, j | 0 <= i < j < |o| ensures o[i] != o[j] {
        if j == |d.order| {
          assert o[i] == d.order[i];
          assert d.order[i] in d.order;
        } else {
          assert o[i] == d.order[i] && o[j] == d.order[j];
        }
      }
    }
  }

  lemma {:induction false} RemoveKeepsValid(d: Dict, key: string)
    requires d.Valid()
    ensures Remove(d, key).Valid()
    ensures Remove(d, key).values == d.values - {key}
  {
    FilterMembers(d.order, x => x != key);
  }

  /** Deleting a list of names removes exactly those names and keeps every other value. */
  lemma RemoveAllRemoves(d: Dict, keys: seq<string>)
    requires d.Valid()
    ensures RemoveAll(d, keys).Valid()
    ensures RemoveAll(d, keys).values == d.values - (set k | k in keys)
  {
    RemoveAllKeepsValid(d, keys);
    RemoveAllValues(d, keys);
  }

  lemma {:induction false} RemoveAllKeepsValid(d: Dict, keys: seq<string>)
    requires d.Valid()
    ensures RemoveAll(d, keys).Valid()
    decreases |keys|
  {
    if |keys| > 0 {
      RemoveAllKeepsValid(d, keys[..|keys| - 1]);
      RemoveKeepsValid(RemoveAll(d, keys[..|keys| - 1]), keys[|keys| - 1]);
    }
  }

  lemma {:induction false} RemoveAllValues(d: Dict, keys: seq<string>)
    ensures RemoveAll(d, keys).values == d.values - (set k | k in keys)
    decreases |keys|
  {
    if |keys| == 0 {
      assert (set k | k in keys) == {};
      assert d.values - {} == d.values;
    } else {
      var init := keys[..|keys| - 1];
      var last := keys[|keys| - 1];
      RemoveAllValues(d, init);
      var names := set k | k in keys;
      var initNames := set k | k in init;
      assert names == initNames + {last} by {
        assert keys == init + [last];
        forall k ensures k in keys <==> k in init || k == last {
          assert k in keys <==> k in init + [last];
        }
      }
      assert (d.values - initNames) - {last} == d.values - names;
    }
  }

  /** `keys(p)` lists exactly the stored names containing `p`, without repetition. */
  lemma MatchingKeysExact(d: Dict, pattern: string)
    requires d.Valid()
    ensures forall x :: x in MatchingKeys(d, pattern) <==> x in d.values && Includes(x, pattern)
    ensures NoDuplicates(MatchingKeys(d, pattern))
  {
    FilterMembers(d.order, x => Includes(x, pattern));
  }

  /** `keys('')` lists every stored name, in order. */
  lemma {:induction false} EmptyPatternMatchesAll(o: seq<string>)
    ensures Filter(o, x => Includes(x, "")) == o
  {
    if |o| > 0 {
      assert StartsWith(o[0], "");
      EmptyPatternMatchesAll(o[1..]);
      assert o == [o[0]] + o[1..];
    }
  }

  /** The names `del` deletes: a string names one key, an array each of its elements. */
  function DeletedNames(key: Key): seq<string> {
    match key
    case KeyString(s) => [s]
    case KeyList(ks) => ks
  }

  /** The patterns of `delHash`: a single hash, or each element of a list. */
  function HashPatterns(hashes: Key): seq<string> {
    DeletedNames(hashes)
  }

  /** The concatenated `keys(p)` results over the patterns, all read from one state. */
  function KeysOfAll(d: Dict, patterns: seq<string>): seq<string>
    decreases |patterns|
  {
    if |patterns| == 0 then [] else KeysOfAll(d, patterns[..|patterns| - 1]) + MatchingKeys(d, patterns[|patterns| - 1])
  }

  /** A name is among the matches of a pattern list exactly when it is stored and contains one pattern. */
  lemma {:induction false} KeysOfAllExact(d: Dict, patterns: seq<string>)
    requires d.Valid()
    ensures forall x :: x in KeysOfAll(d, patterns) <==> x in d.values && exists p :: p in patterns && Includes(x, p)
    decreases |patterns|
  {
    if |patterns| > 0 {
      var init := patterns[..|patterns| - 1];
      var last := patterns[|patterns| - 1];
      KeysOfAllExact(d, init);
      MatchingKeysExact(d, last);
      assert patterns == init + [last];
      forall x ensures x in KeysOfAll(d, patterns) <==> x in d.values && exists p :: p in patterns && Includes(x, p) {
        if x in d.values && exists p :: p in patterns && Includes(x, p) {
          var p :| p in patterns && Includes(x, p);
          if p != last {
            assert p in init;
          }
        }
      }
    }
  }

  /** After `delHash`, a stored name survives exactly when it contains none of the patterns. */
  lemma DelHashSurvivors(d: Dict, patterns: seq<string>, x: string)
    requires d.Valid()
    ensures x in RemoveAll(d, KeysOfAll(d, patterns)).values <==>
              x in d.values && forall p :: p in patterns ==> !Includes(x, p)
  {
    KeysOfAllExact(d, patterns);
    RemoveAllRemoves(d, KeysOfAll(d, patterns));
  }

  /** The error the test suites' throwing mocks reject with. */
  const MockFailure: Value := ClientFailure

  /** A store call, as the client receives it. */
  datatype ClientCall =
    | GetCall(key: Key, field: Option<string>)
    | SetCall(key: Key, value: Value, ttl: Option<int>)
    | DelCall(key: Key)
    | KeysCall(pattern: string)

  /** What a decorated call does, in order: calls on a store, or a run of the decorated method. */
  datatype Event = Called(client: MockAdapter, call: ClientCall) | Ran(scope: Value, args: seq<Value>)

  /** The `defaultDeserializer` property a client may carry (read by the legacy decorators). */
  datatype ClientDeserializer = NoDeserializerProperty | NullDeserializer | DeserializeWith(f: Value -> Try<Value>)

  class MockAdapter {
    var cache: Dict
    const getFails: bool
    const setFails: bool
    const delFails: bool
    const keysFails: bool
    const defaultDeserializer: ClientDeserializer

    /** `getClientTTL()` */
    const ClientTTL: int := 84600

    ghost predicate Valid()
      reads this
    {
      cache.Valid()
    }

    /** `new MockAdapter()`: an empty cache, every operation succeeds, no `defaultDeserializer`. */
    constructor ()
      ensures Valid() && cache == EmptyDict
      ensures !getFails && !setFails && !delFails && !keysFails
      ensures defaultDeserializer == NoDeserializerProperty
    {
      cache := EmptyDict;
      getFails, setFails, delFails, keysFails := false, false, false, false;
      defaultDeserializer := NoDeserializerProperty;
    }

    /** An adapter whose chosen operations reject, as the tests' throwing mocks do. */
    constructor Faulty(getFails: bool, setFails: bool, delFails: bool, keysFails: bool, deserializer: ClientDeserializer)
      ensures Valid() && cache == EmptyDict
      ensures this.getFails == getFails && this.setFails == setFails
      ensures this.delFails == delFails && this.keysFails == keysFails
      ensures defaultDeserializer == deserializer
    {
      cache := EmptyDict;
      this.getFails, this.setFails, this.delFails, this.keysFails := getFails, setFails, delFails, keysFails;
      defaultDeserializer := deserializer;
    }

    /** How `get(key)` settles in the current state. */
    function GetOutcome(key: Key): Outcome
      reads this
    {
      if getFails then Err(MockFailure) else Ok(Lookup(cache, KeyText(key)))
    }

    /** `get(key[, field])`: the value under the key's property name; the field is not read. */
    method Get(key: Key, field: Option<string>) returns (r: Outcome, ghost call: ClientCall)
      ensures call == GetCall(key, field)
      ensures r == GetOutcome(key)
      ensures !getFails ==> r == Ok(Lookup(cache, KeyText(key)))
    {
      call := GetCall(key, field);
      if getFails {
        r := Err(MockFailure);
      } else {
        r := Ok(Lookup(cache, KeyText(key)));
      }
    }

    /** `set(key, value, ttl)`: stores the value and resolves to it; the TTL is not kept. */
    method Set(key: Key, value: Value, ttl: Option<int>) returns (r: Outcome, ghost call: ClientCall)
      modifies this
      ensures call == SetCall(key, value, ttl)
      ensures r == if setFails then Err(MockFailure) else Ok(value)
      ensures cache == AfterSet(old(cache), setFails, key, value)
      ensures old(Valid()) ==> Valid()
    {
      call := SetCall(key, value, ttl);
      if setFails {
        r := Err(MockFailure);
      } else {
        if Valid() {
          PutKeepsValid(cache, KeyText(key), value);
        }
        cache := Put(cache, KeyText(key), value);
        r := Ok(value);
      }
    }

    /** `del(key)`: a string is one delete, an array one delete per element. */
    method Del(key: Key) returns (r: Outcome, ghost call: ClientCall)
      modifies this
      ensures call == DelCall(key)
      ensures delFails ==> r == Err(MockFailure) && cache == old(cache)
      ensures !delFails ==> r == Ok(Undefined) && cache == RemoveAll(old(cache), DeletedNames(key))
      ensures old(Valid()) ==> Valid()
    {
      call := DelCall(key);
      if delFails {
        r := Err(MockFailure);
        return;
      }
      match key {
        case KeyString(s) =>
        assert [s][..0] == [];
        if Valid() {
          RemoveKeepsValid(cache, s);
        }
        cache := Remove(cache, s);
      case KeyList(ks) =>
        ghost var start := cache;
        var i := 0;
        while i < |ks|
          invariant 0 <= i <= |ks|
          invariant cache == RemoveAll(start, ks[..i])
          invariant start.Valid() ==> Valid()
        {
          assert ks[..i + 1][..i] == ks[..i];
          if Valid() {
            RemoveKeepsValid(cache, ks[i]);
          }
          cache := Remove(cache, ks[i]);
          i := i + 1;
        }
        assert ks[..|ks|] == ks;
      }
      r := Ok(Undefined);
    }

    /** `keys(pattern)`: the stored names containing the pattern, in `Object.keys` order. */
    method Keys(pattern: string) returns (r: Try<seq<string>>, ghost call: ClientCall)
      ensures call == KeysCall(pattern)
      ensures r == if keysFails then Err(MockFailure) else Ok(MatchingKeys(cache, pattern))
    {
      call := KeysCall(pattern);
      if keysFails {
        r := Err(MockFailure);
      } else {
        r := Ok(MatchingKeys(cache, pattern));
      }
    }

    /** `delHash(hashKeyOrKeys)`: every `keys(p)` is read first, then each list is deleted. */
    method DelHash(hashKeyOrKeys: Key) returns (r: Outcome, ghost calls: seq<ClientCall>)
      modifies this
      ensures var ps := HashPatterns(hashKeyOrKeys);
              && (|ps| > 0 && (keysFails || delFails) ==> r == Err(MockFailure) && cache == old(cache))
              && (|ps| == 0 || (!keysFails && !delFails) ==>
                    r == Ok(Undefined) && cache == RemoveAll(old(cache), KeysOfAll(old(cache), ps)))
      ensures old(Valid()) ==> Valid()
    {
      var ps := HashPatterns(hashKeyOrKeys);
      var found, failed;
      found, failed, calls := ListEach(ps);
      if failed {
        r := Err(MockFailure);
        return;
      }
      ghost var deletes;
      r, deletes := DeleteEach(found, ps);
      calls := calls + deletes;
    }

    /** The `keys(p)` calls of `delHash`, one per pattern, all against the current state. */
    method ListEach(ps: seq<string>) returns (found: seq<seq<string>>, failed: bool, ghost calls: seq<ClientCall>)
      ensures |found| == |ps| && |calls| == |ps|
      ensures forall j :: 0 <= j < |ps| ==> calls[j] == KeysCall(ps[j])
      ensures failed <==> |ps| > 0 && keysFails
      ensures !failed ==> forall j :: 0 <= j < |ps| ==> found[j] == MatchingKeys(cache, ps[j])
    {
      calls := [];
      found := [];
      failed := false;
      var i := 0;
      while i < |ps|
        invariant 0 <= i <= |ps| && |found| == i && |calls| == i
        invariant forall j :: 0 <= j < i ==> calls[j] == KeysCall(ps[j])
        invariant failed <==> (i > 0 && keysFails)
        invariant !failed ==> forall j :: 0 <= j < i ==> found[j] == MatchingKeys(cache, ps[j])
      {
        var listed, call := Keys(ps[i]);
        calls := calls + [call];
        if listed.Ok? {
          found := found + [listed.value];
        } else {
          failed := true;
          found := found + [[]];
        }
        i := i + 1;
      }
    }

    /** The `del` calls of `delHash`, one per list of matches, in order. */
    method DeleteEach(found: seq<seq<string>>, ghost ps: seq<string>) returns (r: Outcome, ghost calls: seq<ClientCall>)
      requires |found| == |ps|
      requires forall j :: 0 <= j < |ps| ==> found[j] == MatchingKeys(cache, ps[j])
      modifies this
      ensures !delFails ==> r == Ok(Undefined) && cache == RemoveAll(old(cache), KeysOfAll(old(cache), ps))
      ensures delFails ==> cache == old(cache) && r == if |ps| > 0 then Err(MockFailure) else Ok(Undefined)
      ensures old(Valid()) ==> Valid()
    {
      ghost var start := cache;
      calls := [];
      r := Ok(Undefined);
      var i := 0;
      while i < |found|
        invariant 0 <= i <= |found|
        invariant !delFails ==> r == Ok(Undefined) && cache == RemoveAll(start, KeysOfAll(start, ps[..i]))
        invariant delFails ==> cache == start && r == if i > 0 then Err(MockFailure) else Ok(Undefined)
        invariant start.Valid() ==> Valid()
      {
        var deleted, call := Del(KeyList(found[i]));
        calls := calls + [call];
        if deleted.Err? {
          r := deleted;
        } else {
          assert ps[..i + 1][..i] == ps[..i];
          RemoveAllAppend(start, KeysOfAll(start, ps[..i]), found[i]);
        }
        i := i + 1;
      }
      assert ps[..|ps|] == ps;
    }
  }

  /** Deleting one list and then another is deleting their concatenation. */
  lemma {:induction false} RemoveAllAppend(d: Dict, first: seq<string>, second: seq<string>)
    ensures RemoveAll(RemoveAll(d, first), second) == RemoveAll(d, first + second)
    decreases |second|
  {
    if |second| == 0 {
      assert first + second == first;
    } else {
      var init := second[..|second| - 1];
      RemoveAllAppend(d, first, init);
      assert (first + second)[..|first + second| - 1] == first + init;
      assert (first + second)[|first + second| - 1] == second[|second| - 1];
    }
  }
}
