/** Python's insertion-ordered `dict`, as a sequence of key/value pairs.
    Assigning an existing key replaces its value in place; a new key goes
    at the end. Chunking and last-write-wins both depend on this order. */
module Dict {
  import opened Common

  type Dict<K(==,!new), V> = seq<(K, V)>

  function KeysOf<K(==,!new), V>(d: Dict<K, V>): (r: seq<K>)
    ensures |r| == |d|
    ensures forall i :: 0 <= i < |d| ==> r[i] == d[i].0
  {
    if d == [] then [] else [d[0].0] + KeysOf(d[1..])
  }

  predicate NoDupKeys<K(==,!new), V>(d: Dict<K, V>) {
    forall i, j :: 0 <= i < j < |d| ==> d[i].0 != d[j].0
  }

  /** `d.get(k)`: the value of the first pair with key `k`. */
  function Get<K(==,!new), V>(d: Dict<K, V>, k: K): (r: Option<V>)
    ensures r.None? <==> k !in KeysOf(d)
  {
    if d == [] then None else if d[0].0 == k then Some(d[0].1) else Get(d[1..], k)
  }

  lemma {:induction false} GetAt<K(!new), V>(d: Dict<K, V>, i: nat)
    requires NoDupKeys(d) && i < |d|
    ensures Get(d, d[i].0) == Some(d[i].1)
  {
    if i > 0 {
      assert NoDupKeys(d[1..]);
      GetAt(d[1..], i - 1);
    }
  }

  /** `d[k] = v`. */
  function Put<K(==,!new), V>(d: Dict<K, V>, k: K, v: V): (r: Dict<K, V>)
    ensures Get(r, k) == Some(v)
    ensures forall k' :: k' != k ==> Get(r, k') == Get(d, k')
    ensures KeysOf(r) == if k in KeysOf(d) then KeysOf(d) else KeysOf(d) + [k]
  {
    if d == [] then [(k, v)]
    else if d[0].0 == k then [(k, v)] + d[1..]
    else
      var t := Put(d[1..], k, v);
      assert ([d[0]] + t)[1..] == t;
      [d[0]] + t
  }

  /** Helper: `Put`'s frame for one other key, instantiated. Callers whose
      context holds many dictionary terms call it instead of relying on the
      quantified ensures of `Put`. */
  lemma PutOther<K(!new), V>(d: Dict<K, V>, k: K, v: V, k2: K)
    requires k2 != k
    ensures Get(Put(d, k, v), k2) == Get(d, k2)
  {
  }

  lemma {:induction false} PutNoDup<K(!new), V>(d: Dict<K, V>, k: K, v: V)
    requires NoDupKeys(d)
    ensures NoDupKeys(Put(d, k, v))
  {
    var r := Put(d, k, v);
    var ks := KeysOf(r);
    forall i, j | 0 <= i < j < |r| ensures r[i].0 != r[j].0 {
      assert ks[i] == r[i].0 && ks[j] == r[j].0;
      if k in KeysOf(d) {
        assert ks[i] == d[i].0 && ks[j] == d[j].0;
      } else if j < |d| {
        assert ks[i] == d[i].0 && ks[j] == d[j].0;
      } else {
        assert ks[i] == KeysOf(d)[i] && ks[j] == k;
      }
    }
  }

  /** `d.update(e)`: every pair of `e`, in order, assigned into `d`. */
  function Update<K(==,!new), V>(d: Dict<K, V>, e: Dict<K, V>): (r: Dict<K, V>)
    ensures forall k :: k in KeysOf(d) ==> k in KeysOf(r)
    ensures forall i :: 0 <= i < |e| ==> e[i].0 in KeysOf(r)
    decreases |e|
  {
    if e == [] then d else Update(Put(d, e[0].0, e[0].1), e[1..])
  }

  /** Updating with one more pair is assigning that pair afterwards. */
  lemma {:induction false} UpdateSnoc<K(!new), V>(d: Dict<K, V>, e: Dict<K, V>, k: K, v: V)
    ensures Update(d, e + [(k, v)]) == Put(Update(d, e), k, v)
    decreases |e|
  {
    if e != [] {
      assert (e + [(k, v)])[1..] == e[1..] + [(k, v)];
      UpdateSnoc(Put(d, e[0].0, e[0].1), e[1..], k, v);
    }
  }

  /** After an update, a key takes its value from the update when the update
      has it, and keeps its old value otherwise. */
  lemma {:induction false} UpdateGet<K(!new), V>(d: Dict<K, V>, e: Dict<K, V>, k: K)
    requires NoDupKeys(e)
    ensures Get(Update(d, e), k) == if k in KeysOf(e) then Get(e, k) else Get(d, k)
    decreases |e|
  {
    if e != [] {
      assert NoDupKeys(e[1..]);
      UpdateGet(Put(d, e[0].0, e[0].1), e[1..], k);
      assert KeysOf(e) == [e[0].0] + KeysOf(e[1..]);
      if k == e[0].0 {
        assert k !in KeysOf(e[1..]);
      }
    }
  }

  lemma {:induction false} UpdateNoDup<K(!new), V>(d: Dict<K, V>, e: Dict<K, V>)
    requires NoDupKeys(d)
    ensures NoDupKeys(Update(d, e))
    decreases |e|
  {
    if e != [] {
      PutNoDup(d, e[0].0, e[0].1);
      UpdateNoDup(Put(d, e[0].0, e[0].1), e[1..]);
    }
  }

  /** After an update, a key that the update assigns takes the value of its
      last assignment. */
  lemma {:induction false} UpdateLastWins<K(!new), V>(d: Dict<K, V>, e: Dict<K, V>, j: nat)
    requires j < |e| && forall i :: j < i < |e| ==> e[i].0 != e[j].0
    ensures Get(Update(d, e), e[j].0) == Some(e[j].1)
    decreases |e|
  {
    if j == 0 {
      UpdateFirstUnrepeated(d, e);
    } else {
      UpdateLastWins(Put(d, e[0].0, e[0].1), e[1..], j - 1);
    }
  }

  /** A first pair whose key never comes again survives the update. */
  lemma UpdateFirstUnrepeated<K(!new), V>(d: Dict<K, V>, e: Dict<K, V>)
    requires 0 < |e| && forall i :: 0 < i < |e| ==> e[i].0 != e[0].0
    ensures Get(Update(d, e), e[0].0) == Some(e[0].1)
  {
    UpdateAbsent(Put(d, e[0].0, e[0].1), e[1..], e[0].0);
  }

  /** After an update, a key the update never assigns keeps its value. */
  lemma {:induction false} UpdateAbsent<K(!new), V>(d: Dict<K, V>, e: Dict<K, V>, k: K)
    requires forall i :: 0 <= i < |e| ==> e[i].0 != k
    ensures Get(Update(d, e), k) == Get(d, k)
    decreases |e|
  {
    if e != [] {
      UpdateAbsent(Put(d, e[0].0, e[0].1), e[1..], k);
    }
  }

  /** `{f(k): v for k, v in d.items()}`: the comprehension assigns in order,
      so when two keys collapse to one, the later pair wins. */
  function MapKeys<K(==,!new), K2(==,!new), V>(d: Dict<K, V>, f: K -> K2): (r: Dict<K2, V>)
    ensures forall i :: 0 <= i < |d| ==> f(d[i].0) in KeysOf(r)
  {
    Update([], MapKeysPairs(d, f))
  }

  /** The comprehension as a loop over the pairs of `d`, in order. */
  method MapKeysInOrder<K(==,!new), K2(==,!new), V>(d: Dict<K, V>, f: K -> K2) returns (r: Dict<K2, V>)
    ensures r == MapKeys(d, f)
  {
    r := [];
    var i := 0;
    while i < |d|
      invariant 0 <= i <= |d|
      invariant r == Update([], MapKeysPairs(d[..i], f))
    {
      MapKeysPairsSnoc(d, f, i);
      UpdateSnoc([], MapKeysPairs(d[..i], f), f(d[i].0), d[i].1);
      r := Put(r, f(d[i].0), d[i].1);
      i := i + 1;
    }
    assert d[..i] == d;
  }

  lemma MapKeysPairsSnoc<K(!new), K2(!new), V>(d: Dict<K, V>, f: K -> K2, i: nat)
    requires i < |d|
    ensures MapKeysPairs(d[..i + 1], f) == MapKeysPairs(d[..i], f) + [(f(d[i].0), d[i].1)]
  {
  }

  /** A key of the comprehension holds the value of the last pair whose key
      maps to it, and a key no pair maps to is absent. */
  lemma MapKeysGet<K(!new), K2(!new), V>(d: Dict<K, V>, f: K -> K2, x: K2)
    ensures (forall i :: 0 <= i < |d| ==> f(d[i].0) != x) ==> Get(MapKeys(d, f), x).None?
    ensures forall j :: 0 <= j < |d| && f(d[j].0) == x && (forall i :: j < i < |d| ==> f(d[i].0) != x) ==>
              Get(MapKeys(d, f), x) == Some(d[j].1)
  {
    var e := MapKeysPairs(d, f);
    if forall i :: 0 <= i < |d| ==> f(d[i].0) != x {
      UpdateAbsent([], e, x);
    }
    forall j | 0 <= j < |d| && f(d[j].0) == x && (forall i :: j < i < |d| ==> f(d[i].0) != x)
      ensures Get(MapKeys(d, f), x) == Some(d[j].1)
    {
      UpdateLastWins([], e, j);
    }
  }

  /** When `f` tells keys apart, `f(k)` holds what `k` held. */
  lemma MapKeysInjective<K(!new), K2(!new), V>(d: Dict<K, V>, f: K -> K2, k: K)
    requires NoDupKeys(d)
    requires forall a, b :: f(a) == f(b) ==> a == b
    ensures Get(MapKeys(d, f), f(k)) == Get(d, k)
  {
    MapKeysGet(d, f, f(k));
    if k in KeysOf(d) {
      var j :| 0 <= j < |d| && d[j].0 == k;
      GetAt(d, j);
    }
  }

  function MapKeysPairs<K(==,!new), K2(==,!new), V>(d: Dict<K, V>, f: K -> K2): (r: Dict<K2, V>)
    ensures |r| == |d|
    ensures forall i :: 0 <= i < |d| ==> r[i] == (f(d[i].0), d[i].1)
  {
    if d == [] then [] else [(f(d[0].0), d[0].1)] + MapKeysPairs(d[1..], f)
  }
}
