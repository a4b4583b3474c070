/**
 A model of the Python `dict` that structlog hands to its processors as the
 event dictionary: an insertion-ordered table from string keys to values.

 The table is an association list whose keys are distinct. Assigning to a key
 that is present replaces its value where it stands; assigning to a new key
 appends it; `pop` removes the key and hands back its value.
 */
module EventDicts {

  datatype Option<T> = None | Some(value: T)

  /** The values a structured log record carries. Nested dictionaries
      (such as `details={...}`) and lists are values too; they are only ever
      passed through. */
  datatype Value =
    | Str(s: string)
    | Int(i: int)
    | Bool(b: bool)
    | Null
    | List(items: seq<Value>)
    | Dict(fields: seq<(string, Value)>)

  type Entry = (string, Value)

  /** The keys of a table, in insertion order. */
  function Keys(e: seq<Entry>): (ks: seq<string>)
    ensures |ks| == |e|
  {
    if e == [] then [] else [e[0].0] + Keys(e[1..])
  }

  predicate HasKey(e: seq<Entry>, k: string) {
    k in Keys(e)
  }

  /** The invariant of every Python dictionary: no key occurs twice. */
  predicate DistinctKeys(e: seq<Entry>) {
    e == [] || (!HasKey(e[1..], e[0].0) && DistinctKeys(e[1..]))
  }

  /** `d.get(k)`: the value stored under `k`, if any. */
  function Lookup(e: seq<Entry>, k: string): Option<Value> {
    if e == [] then None
    else if e[0].0 == k then Some(e[0].1)
    else Lookup(e[1..], k)
  }

  /** The table as an unordered map. */
  function ToMap(e: seq<Entry>): map<string, Value> {
    if e == [] then map[] else ToMap(e[1..])[e[0].0 := e[0].1]
  }

  /** `d[k] = v`. */
  function SetKey(e: seq<Entry>, k: string, v: Value): seq<Entry> {
    if e == [] then [(k, v)]
    else if e[0].0 == k then [(k, v)] + e[1..]
    else [e[0]] + SetKey(e[1..], k, v)
  }

  /** The table left behind by `d.pop(k)`. */
  function RemoveKey(e: seq<Entry>, k: string): seq<Entry> {
    if e == [] then []
    else if e[0].0 == k then e[1..]
    else [e[0]] + RemoveKey(e[1..], k)
  }

  /** The entries whose key lies outside `ks`, in their order. */
  function Others(e: seq<Entry>, ks: set<string>): seq<Entry> {
    if e == [] then []
    else (if e[0].0 in ks then [] else [e[0]]) + Others(e[1..], ks)
  }

  // ---------------------------------------------------------------------------
  // Lookup and the map view

  lemma {:induction false} LookupHasKey(e: seq<Entry>, k: string)
    ensures Lookup(e, k).Some? <==> HasKey(e, k)
  {
    if e != [] {
      LookupHasKey(e[1..], k);
    }
  }

  lemma {:induction false} ToMapLookup(e: seq<Entry>, k: string)
    ensures k in ToMap(e) <==> Lookup(e, k).Some?
    ensures k in ToMap(e) ==> Lookup(e, k) == Some(ToMap(e)[k])
  {
    if e != [] {
      ToMapLookup(e[1..], k);
    }
  }

  /** Two tables with the same lookups have the same map view. */
  lemma SameLookupsSameMap(a: seq<Entry>, b: seq<Entry>, ks: set<string>)
    requires forall k :: k !in ks ==> Lookup(a, k) == Lookup(b, k)
    ensures ToMap(a) - ks == ToMap(b) - ks
  {
    forall k | k !in ks
      ensures k in ToMap(a) <==> k in ToMap(b)
      ensures k in ToMap(a) ==> ToMap(a)[k] == ToMap(b)[k]
    {
      ToMapLookup(a, k);
      ToMapLookup(b, k);
    }
  }

  // ---------------------------------------------------------------------------
  // Assignment `d[k] = v`

  /** After `d[k] = v`, `k` maps to `v` and every other key is as before. */
  lemma {:induction false} SetKeyLookup(e: seq<Entry>, k: string, v: Value, j: string)
    ensures Lookup(SetKey(e, k, v), j) == if j == k then Some(v) else Lookup(e, j)
  {
    if e != [] && e[0].0 != k {
      SetKeyLookup(e[1..], k, v, j);
    }
  }

  /** An existing key keeps its position; a new key goes to the end. */
  lemma {:induction false} SetKeyKeys(e: seq<Entry>, k: string, v: Value)
    ensures Keys(SetKey(e, k, v)) == if HasKey(e, k) then Keys(e) else Keys(e) + [k]
  {
    if e != [] && e[0].0 != k {
      SetKeyKeys(e[1..], k, v);
    }
  }

  /** A new key is appended as a new last entry. */
  lemma {:induction false} SetKeyAbsent(e: seq<Entry>, k: string, v: Value)
    requires !HasKey(e, k)
    ensures SetKey(e, k, v) == e + [(k, v)]
  {
    if e != [] {
      SetKeyAbsent(e[1..], k, v);
      assert [e[0]] + (e[1..] + [(k, v)]) == e + [(k, v)];
    }
  }

  /** Assigning a key the value it already holds leaves the table as it is. */
  lemma {:induction false} SetKeySame(e: seq<Entry>, k: string, v: Value)
    requires Lookup(e, k) == Some(v)
    ensures SetKey(e, k, v) == e
  {
    if e[0].0 != k {
      SetKeySame(e[1..], k, v);
    }
  }

  lemma {:induction false} SetKeyDistinct(e: seq<Entry>, k: string, v: Value)
    requires DistinctKeys(e)
    ensures DistinctKeys(SetKey(e, k, v))
  {
    if e != [] && e[0].0 != k {
      SetKeyDistinct(e[1..], k, v);
      SetKeyKeys(e[1..], k, v);
      assert SetKey(e, k, v)[1..] == SetKey(e[1..], k, v);
    }
  }

  /** Assignment to a key of `ks` does not disturb the entries outside `ks`. */
  lemma {:induction false} SetKeyOthers(e: seq<Entry>, k: string, v: Value, ks: set<string>)
    requires k in ks
    ensures Others(SetKey(e, k, v), ks) == Others(e, ks)
  {
    if e != [] && e[0].0 != k {
      SetKeyOthers(e[1..], k, v, ks);
      assert SetKey(e, k, v)[1..] == SetKey(e[1..], k, v);
    }
  }

  // ---------------------------------------------------------------------------
  // Removal `d.pop(k)`

  /** After `d.pop(k)`, `k` is gone and every other key is as before. */
  lemma {:induction false} RemoveKeyLookup(e: seq<Entry>, k: string, j: string)
    requires DistinctKeys(e)
    ensures Lookup(RemoveKey(e, k), j) == if j == k then None else Lookup(e, j)
  {
    if e != [] {
      if e[0].0 == k {
        if j == k {
          LookupHasKey(e[1..], k);
        }
      } else {
        RemoveKeyLookup(e[1..], k, j);
      }
    }
  }

  /** Removal never introduces a key; removing a missing key changes nothing. */
  lemma {:induction false} RemoveKeyHasKey(e: seq<Entry>, k: string, j: string)
    ensures HasKey(RemoveKey(e, k), j) ==> HasKey(e, j)
    ensures !HasKey(e, k) ==> RemoveKey(e, k) == e
  {
    if e != [] && e[0].0 != k {
      RemoveKeyHasKey(e[1..], k, j);
    }
  }

  lemma {:induction false} RemoveKeyDistinct(e: seq<Entry>, k: string)
    requires DistinctKeys(e)
    ensures DistinctKeys(RemoveKey(e, k))
  {
    if e != [] && e[0].0 != k {
      RemoveKeyDistinct(e[1..], k);
      RemoveKeyHasKey(e[1..], k, e[0].0);
      assert RemoveKey(e, k)[1..] == RemoveKey(e[1..], k);
    }
  }

  /** Removing a key of `ks` does not disturb the entries outside `ks`. */
  lemma {:induction false} RemoveKeyOthers(e: seq<Entry>, k: string, ks: set<string>)
    requires k in ks
    ensures Others(RemoveKey(e, k), ks) == Others(e, ks)
  {
    if e != [] && e[0].0 != k {
      RemoveKeyOthers(e[1..], k, ks);
      assert RemoveKey(e, k)[1..] == RemoveKey(e[1..], k);
    }
  }

  /** Removing a key held by the front part of a table leaves the back part in place. */
  lemma {:induction false} RemoveKeyPrefix(p: seq<Entry>, s: seq<Entry>, k: string)
    requires HasKey(p, k)
    ensures RemoveKey(p + s, k) == RemoveKey(p, k) + s
  {
    assert (p + s)[1..] == p[1..] + s;
    if p[0].0 != k {
      RemoveKeyPrefix(p[1..], s, k);
    }
  }

  // ---------------------------------------------------------------------------
  // Concatenation

  lemma {:induction false} KeysConcat(a: seq<Entry>, b: seq<Entry>)
    ensures Keys(a + b) == Keys(a) + Keys(b)
  {
    if a != [] {
      assert (a + b)[1..] == a[1..] + b;
      KeysConcat(a[1..], b);
    } else {
      assert a + b == b;
    }
  }

  /** A key of the front part is found there. */
  lemma {:induction false} LookupPrefix(a: seq<Entry>, b: seq<Entry>, k: string)
    requires HasKey(a, k)
    ensures Lookup(a + b, k) == Lookup(a, k)
  {
    assert (a + b)[1..] == a[1..] + b;
    if a[0].0 != k {
      LookupPrefix(a[1..], b, k);
    }
  }

  // ---------------------------------------------------------------------------
  // Filtering

  /** Filtering out keys the table does not hold changes nothing. */
  lemma {:induction false} OthersNone(e: seq<Entry>, ks: set<string>)
    requires forall k :: k in ks ==> !HasKey(e, k)
    ensures Others(e, ks) == e
  {
    if e != [] {
      OthersNone(e[1..], ks);
    }
  }

  /** In a dictionary, removing a key is filtering that one key out. */
  lemma {:induction false} RemoveKeyIsOthers(e: seq<Entry>, k: string)
    requires DistinctKeys(e)
    ensures RemoveKey(e, k) == Others(e, {k})
  {
    if e != [] {
      RemoveKeyIsOthers(e[1..], k);
      if e[0].0 == k {
        OthersNone(e[1..], {k});
      }
    }
  }

  /** Filtering twice is filtering by the union. */
  lemma {:induction false} OthersOthers(e: seq<Entry>, a: set<string>, b: set<string>)
    ensures Others(Others(e, a), b) == Others(e, a + b)
  {
    if e != [] {
      OthersOthers(e[1..], a, b);
      var o := Others(e, a);
      if e[0].0 !in a {
        assert o == [e[0]] + Others(e[1..], a);
        assert o[1..] == Others(e[1..], a);
      } else {
        assert o == Others(e[1..], a);
      }
    }
  }

  /** Filtering by a key the table does not hold changes nothing more. */
  lemma {:induction false} OthersIgnoresAbsent(e: seq<Entry>, a: set<string>, b: set<string>)
    requires forall k :: k in b ==> !HasKey(e, k)
    ensures Others(e, a + b) == Others(e, a)
  {
    if e != [] {
      OthersIgnoresAbsent(e[1..], a, b);
    }
  }

  // ---------------------------------------------------------------------------

  /** The event dictionary, updated in place by the processors. */
  class EventDict {
    var entries: seq<Entry>

    ghost predicate Valid()
      reads this
    {
      DistinctKeys(entries)
    }

    /** The dictionary as an unordered map. */
    function AsMap(): map<string, Value>
      reads this
    {
      ToMap(entries)
    }

    constructor (initial: seq<Entry>)
      requires DistinctKeys(initial)
      ensures Valid() && entries == initial
    {
      entries := initial;
    }

    /** `k in d`. */
    method Contains(k: string) returns (b: bool)
      ensures b <==> Lookup(entries, k).Some?
      ensures b <==> k in AsMap()
    {
      b := HasKey(entries, k);
      LookupHasKey(entries, k);
      ToMapLookup(entries, k);
    }

    /** `d[k] = v`. */
    method Set(k: string, v: Value)
      requires Valid()
      modifies this
      ensures Valid()
      ensures entries == SetKey(old(entries), k, v)
      ensures forall j :: Lookup(entries, j) == if j == k then Some(v) else Lookup(old(entries), j)
      ensures Keys(entries) == if HasKey(old(entries), k) then Keys(old(entries))
                               else Keys(old(entries)) + [k]
    {
      SetKeyDistinct(entries, k, v);
      SetKeyKeys(entries, k, v);
      forall j ensures Lookup(SetKey(entries, k, v), j) == if j == k then Some(v) else Lookup(entries, j) {
        SetKeyLookup(entries, k, v, j);
      }
      entries := SetKey(entries, k, v);
    }

    /** `d.pop(k)`; `None` stands for the `KeyError` raised on a missing key,
        in which case the dictionary is left as it was. */
    method Pop(k: string) returns (r: Option<Value>)
      requires Valid()
      modifies this
      ensures Valid()
      ensures r == Lookup(old(entries), k)
      ensures entries == RemoveKey(old(entries), k)
      ensures r.None? ==> entries == old(entries)
      ensures forall j :: Lookup(entries, j) == if j == k then None else Lookup(old(entries), j)
    {
      r := Lookup(entries, k);
      LookupHasKey(entries, k);
      RemoveKeyHasKey(entries, k, k);
      RemoveKeyDistinct(entries, k);
      forall j ensures Lookup(RemoveKey(entries, k), j) == if j == k then None else Lookup(entries, j) {
        RemoveKeyLookup(entries, k, j);
      }
      entries := RemoveKey(entries, k);
    }
  }
}
