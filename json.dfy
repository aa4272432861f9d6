/**
 * PHP values as `json_decode($body, true)` produces them and as callers pass them
 * to the client: null, bool, number, string, and arrays. A JSON list and a JSON
 * object are both PHP arrays; `Entries` gives the key/value view that PHP's
 * `foreach` and `$a['k']` see, with a list's keys being its decimal indices.
 */
module Json {
  import opened Wrappers
  import opened Text

  /** A decimal number: `digits` times ten to the power of minus `scale`. */
  datatype Decimal = Decimal(digits: int, scale: nat)

  datatype Json =
    | JNull
    | JBool(b: bool)
    | JNum(n: Decimal)
    | JStr(s: string)
    | JList(items: seq<Json>)
    | JObject(fields: seq<(string, Json)>)

  /** PHP `is_array`. */
  predicate IsArray(v: Json) { v.JList? || v.JObject? }

  function Keys<V>(fs: seq<(string, V)>): (ks: seq<string>)
    ensures |ks| == |fs| && forall i :: 0 <= i < |fs| ==> ks[i] == fs[i].0
  {
    seq(|fs|, i requires 0 <= i < |fs| => fs[i].0)
  }

  predicate DistinctKeys<V>(fs: seq<(string, V)>)
  {
    forall i, j :: 0 <= i < j < |fs| ==> fs[i].0 != fs[j].0
  }

  /** The key/value pairs `foreach ($v as $k => $x)` visits, in order. */
  function Entries(v: Json): (es: seq<(string, Json)>)
    ensures !IsArray(v) ==> es == []
  {
    match v
    case JList(items) => seq(|items|, i requires 0 <= i < |items| => (NatToString(i), items[i]))
    case JObject(fields) => fields
    case _ => []
  }

  /** The values `foreach ($v as $x)` visits, in order; nothing for a non-array. */
  function Values(v: Json): (xs: seq<Json>)
    ensures |xs| == |Entries(v)|
  {
    match v
    case JList(items) => items
    case JObject(fields) => seq(|fields|, i requires 0 <= i < |fields| => fields[i].1)
    case _ => []
  }

  /** The value stored under key `k`: the first pair with that key. */
  function Lookup<V>(fs: seq<(string, V)>, k: string): Option<V>
  {
    if fs == [] then None
    else if fs[0].0 == k then Some(fs[0].1)
    else Lookup(fs[1..], k)
  }

  /** A key is found exactly when it is one of the keys, and then with a value stored under it. */
  lemma {:induction false} LookupFinds<V>(fs: seq<(string, V)>, k: string)
    ensures Lookup(fs, k).None? <==> k !in Keys(fs)
    ensures Lookup(fs, k).Some? ==> exists i :: 0 <= i < |fs| && fs[i] == (k, Lookup(fs, k).value)
  {
    if fs != [] {
      assert Keys(fs) == [fs[0].0] + Keys(fs[1..]);
      if fs[0].0 != k {
        LookupFinds(fs[1..], k);
        if Lookup(fs, k).Some? {
          var i :| 0 <= i < |fs[1..]| && fs[1..][i] == (k, Lookup(fs, k).value);
          assert fs[i + 1] == (k, Lookup(fs, k).value);
        }
      }
    }
  }

  /** The integer a key denotes when PHP would store it as an int key. */
  function CanonicalIndex(k: string): Option<nat>
  {
    if k == "0" then Some(0)
    else if |k| > 0 && '1' <= k[0] <= '9' && AllDigits(k) then Some(DigitsValue(k))
    else None
  }

  /** PHP `$v[$k] ?? null`: the stored value, or null when `$v` is not an array or has no such key. */
  function Get(v: Json, k: string): Json
  {
    match v
    case JObject(fields) => (match Lookup(fields, k) case Some(x) => x case None => JNull)
    case JList(items) =>
      (match CanonicalIndex(k)
       case Some(i) => if i < |items| then items[i] else JNull
       case None => JNull)
    case _ => JNull
  }

  /** PHP `array_key_exists($k, $v)` for an array `$v`. */
  predicate HasKey(v: Json, k: string)
    requires IsArray(v)
  {
    match v
    case JObject(fields) => k in Keys(fields)
    case JList(items) => CanonicalIndex(k).Some? && CanonicalIndex(k).value < |items|
  }

  /**
   * PHP `$a[$k] = $x` on an ordered array: replaces the value in place when the
   * key is present, appends the pair otherwise.
   */
  function Put<V>(fs: seq<(string, V)>, k: string, x: V): (r: seq<(string, V)>)
    ensures |r| == if k in Keys(fs) then |fs| else |fs| + 1
  {
    if fs == [] then [(k, x)]
    else if fs[0].0 == k then assert Keys(fs)[0] == k; [(k, x)] + fs[1..]
    else
      assert Keys(fs) == [fs[0].0] + Keys(fs[1..]);
      [fs[0]] + Put(fs[1..], k, x)
  }

  lemma {:induction false} PutKeys<V>(fs: seq<(string, V)>, k: string, x: V)
    ensures forall j :: j in Keys(Put(fs, k, x)) <==> j in Keys(fs) || j == k
  {
    if fs != [] && fs[0].0 != k {
      PutKeys(fs[1..], k, x);
      assert Keys(fs) == [fs[0].0] + Keys(fs[1..]);
      assert Keys(Put(fs, k, x)) == [fs[0].0] + Keys(Put(fs[1..], k, x));
    } else if fs != [] {
      assert Keys(fs) == [k] + Keys(fs[1..]);
      assert Keys(Put(fs, k, x)) == [k] + Keys(fs[1..]);
    } else {
      assert Keys(Put(fs, k, x)) == [k];
    }
  }

  lemma {:induction false} PutLookup<V>(fs: seq<(string, V)>, k: string, x: V, j: string)
    ensures Lookup(Put(fs, k, x), j) == if j == k then Some(x) else Lookup(fs, j)
  {
    if fs != [] && fs[0].0 != k {
      PutLookup(fs[1..], k, x, j);
    }
  }

  /** Assigning a new key appends it, so an array built by `Put` from distinct keys keeps their order. */
  lemma PutFresh<V>(fs: seq<(string, V)>, k: string, x: V)
    requires k !in Keys(fs)
    ensures Put(fs, k, x) == fs + [(k, x)]
  {
    if fs != [] {
      assert Keys(fs) == [fs[0].0] + Keys(fs[1..]);
      PutFresh(fs[1..], k, x);
    }
  }

  lemma {:induction false} PutDistinct<V>(fs: seq<(string, V)>, k: string, x: V)
    requires DistinctKeys(fs)
    ensures DistinctKeys(Put(fs, k, x))
  {
    if fs != [] && fs[0].0 != k {
      PutDistinct(fs[1..], k, x);
      PutKeys(fs[1..], k, x);
      var r := Put(fs, k, x);
      var t := Put(fs[1..], k, x);
      assert r == [fs[0]] + t;
      assert Keys(fs) == [fs[0].0] + Keys(fs[1..]);
      forall j | 0 <= j < |t| ensures t[j].0 != fs[0].0 {
        assert Keys(t)[j] == t[j].0;
        if t[j].0 in Keys(fs[1..]) {
          var i :| 0 <= i < |fs| - 1 && Keys(fs[1..])[i] == t[j].0;
          assert fs[i + 1].0 == t[j].0;
        }
      }
    }
  }

  /** Reading an index or key of anything that is not an array gives null. */
  lemma GetOfScalar(v: Json, k: string)
    requires !IsArray(v)
    ensures Get(v, k) == JNull
  {
  }

  /** Assigning `pairs` one after another, from the left, to an empty array. */
  function PutAll<V>(pairs: seq<(string, V)>): seq<(string, V)>
  {
    if pairs == [] then [] else Put(PutAll(pairs[..|pairs| - 1]), pairs[|pairs| - 1].0, pairs[|pairs| - 1].1)
  }

  /** The keys of the result are exactly the keys assigned. */
  lemma {:induction false} PutAllKeys<V>(pairs: seq<(string, V)>, k: string)
    ensures k in Keys(PutAll(pairs)) <==> exists i :: 0 <= i < |pairs| && pairs[i].0 == k
  {
    if pairs != [] {
      var init := pairs[..|pairs| - 1];
      var last := pairs[|pairs| - 1];
      PutAllKeys(init, k);
      PutKeys(PutAll(init), last.0, last.1);
      if exists i :: 0 <= i < |init| && init[i].0 == k {
        var i :| 0 <= i < |init| && init[i].0 == k;
        assert pairs[i].0 == k;
      }
      if exists i :: 0 <= i < |pairs| && pairs[i].0 == k {
        var i :| 0 <= i < |pairs| && pairs[i].0 == k;
        if i < |init| {
          assert init[i].0 == k;
        }
      }
    }
  }

  /** The last assignment to a key decides its value. */
  lemma {:induction false} PutAllLastWins<V>(pairs: seq<(string, V)>, i: nat)
    requires i < |pairs|
    requires forall j :: i < j < |pairs| ==> pairs[j].0 != pairs[i].0
    ensures Lookup(PutAll(pairs), pairs[i].0) == Some(pairs[i].1)
  {
    var init := pairs[..|pairs| - 1];
    var last := pairs[|pairs| - 1];
    PutLookup(PutAll(init), last.0, last.1, pairs[i].0);
    if i < |pairs| - 1 {
      assert init[i] == pairs[i];
      PutAllLastWins(init, i);
    }
  }

  /** Every pair of `Put(fs, k, x)` is `(k, x)` or a pair of `fs`. */
  lemma {:induction false} PutElements<V>(fs: seq<(string, V)>, k: string, x: V)
    ensures forall p :: p in Put(fs, k, x) ==> p == (k, x) || p in fs
  {
    if fs != [] && fs[0].0 != k {
      PutElements(fs[1..], k, x);
    }
  }

  /** The result has distinct keys, and each of its pairs is one of the pairs assigned. */
  lemma {:induction false} PutAllShape<V>(pairs: seq<(string, V)>)
    ensures DistinctKeys(PutAll(pairs))
    ensures forall p :: p in PutAll(pairs) ==> p in pairs
  {
    if pairs != [] {
      var init := pairs[..|pairs| - 1];
      var last := pairs[|pairs| - 1];
      PutAllShape(init);
      PutDistinct(PutAll(init), last.0, last.1);
      PutElements(PutAll(init), last.0, last.1);
    }
  }

  /** Assigning distinct keys in order builds exactly the list of pairs. */
  lemma {:induction false} PutAllDistinct<V>(pairs: seq<(string, V)>)
    requires DistinctKeys(pairs)
    ensures PutAll(pairs) == pairs
  {
    if pairs != [] {
      var init := pairs[..|pairs| - 1];
      var last := pairs[|pairs| - 1];
      PutAllDistinct(init);
      assert forall j | 0 <= j < |init| :: Keys(init)[j] == pairs[j].0 != last.0;
      PutFresh(init, last.0, last.1);
      assert init + [last] == pairs;
    }
  }

  /** A key that is assigned, always with the same value, holds that value. */
  lemma {:induction false} PutAllUniform<V>(pairs: seq<(string, V)>, k: string, x: V, i: nat)
    requires i < |pairs| && pairs[i].0 == k
    requires forall j :: 0 <= j < |pairs| && pairs[j].0 == k ==> pairs[j].1 == x
    ensures Lookup(PutAll(pairs), k) == Some(x)
  {
    var init := pairs[..|pairs| - 1];
    var last := pairs[|pairs| - 1];
    PutLookup(PutAll(init), last.0, last.1, k);
    if last.0 != k {
      assert init[i] == pairs[i];
      PutAllUniform(init, k, x, i);
    }
  }

  /** Assigning the same key twice keeps one pair, holding the second value. */
  lemma PutAllSameKeyTwice<V>(k: string, x: V, y: V)
    ensures PutAll([(k, x), (k, y)]) == [(k, y)]
  {
    var pairs := [(k, x), (k, y)];
    assert pairs[..1] == [(k, x)];
    assert [(k, x)][..0] == [];
    assert PutAll([(k, x)]) == [(k, x)];
    assert Put([(k, x)], k, y) == [(k, y)] + [(k, x)][1..];
  }
}
