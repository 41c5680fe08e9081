/**
 * Python dicts, kept as their (key, value) entries in insertion order.
 *
 * The same representation holds a raw list of pairs (a JSON object as written, possibly with a
 * repeated key) and a dict built from it: building inserts the pairs one by one, so a repeated key
 * keeps the position of its first occurrence and the value of its last, as Python's dict() does.
 */
module OrderedDict {
  import opened Runtime

  function Keys<K, V>(d: seq<(K, V)>): set<K>
  {
    set i | 0 <= i < |d| :: d[i].0
  }

  /** A dict proper: no key occurs twice. */
  predicate UniqueKeys<K(==), V>(d: seq<(K, V)>)
  {
    forall i, j :: 0 <= i < j < |d| ==> d[i].0 != d[j].0
  }

  /** The position of the first entry with key k. */
  function Find<K(==), V>(d: seq<(K, V)>, k: K): (r: Option<nat>)
    ensures r.Some? ==> r.value < |d| && d[r.value].0 == k && forall j :: 0 <= j < r.value ==> d[j].0 != k
    ensures r.None? ==> k !in Keys(d)
  {
    if d == [] then None
    else if d[0].0 == k then Some(0)
    else match Find(d[1..], k)
      case None => None
      case Some(i) => Some(i + 1)
  }

  /** The position of the last entry with key k. */
  function FindLast<K(==), V>(d: seq<(K, V)>, k: K): (r: Option<nat>)
    ensures r.Some? ==> r.value < |d| && d[r.value].0 == k && forall j :: r.value < j < |d| ==> d[j].0 != k
    ensures r.None? ==> k !in Keys(d)
  {
    if d == [] then None
    else if d[|d| - 1].0 == k then Some(|d| - 1)
    else FindLast(d[..|d| - 1], k)
  }

  /** Python's d[k] / d.get(k) on the dict built from the entries: the value of the last entry for k. */
  function Lookup<K(==), V>(d: seq<(K, V)>, k: K): (r: Option<V>)
    ensures r.None? <==> k !in Keys(d)
  {
    match FindLast(d, k)
    case None => None
    case Some(i) => Some(d[i].1)
  }

  /** Python's d[k] = v: an existing key keeps its position, a new key goes last. */
  function Put<K(==), V>(d: seq<(K, V)>, k: K, v: V): seq<(K, V)>
  {
    match Find(d, k)
    case Some(i) => d[i := (k, v)]
    case None => d + [(k, v)]
  }

  /** In a dict proper the first and the last entry for a key are the same entry. */
  lemma FindUnique<K, V>(d: seq<(K, V)>, k: K)
    requires UniqueKeys(d)
    ensures FindLast(d, k) == Find(d, k)
  {
    if Find(d, k).None? {
      assert FindLast(d, k).None?;
    }
  }

  /** Assignment d[k] = v: keeps a dict proper, adds k, changes only k, and moves no key. */
  lemma PutEffect<K, V>(d: seq<(K, V)>, k: K, v: V)
    requires UniqueKeys(d)
    ensures UniqueKeys(Put(d, k, v))
    ensures Keys(Put(d, k, v)) == Keys(d) + {k}
    ensures Lookup(Put(d, k, v), k) == Some(v)
    ensures forall k' :: k' != k ==> Lookup(Put(d, k, v), k') == Lookup(d, k')
    ensures |d| <= |Put(d, k, v)| <= |d| + 1
    ensures forall i :: 0 <= i < |d| ==> Put(d, k, v)[i].0 == d[i].0
  {
    PutShape(d, k, v);
    PutUnique(d, k, v);
    PutLookup(d, k, v);
  }

  lemma PutShape<K, V>(d: seq<(K, V)>, k: K, v: V)
    ensures |d| <= |Put(d, k, v)| <= |d| + 1
    ensures forall i :: 0 <= i < |d| ==> Put(d, k, v)[i].0 == d[i].0
    ensures Keys(Put(d, k, v)) == Keys(d) + {k}
  {
    var r := Put(d, k, v);
    assert forall i :: 0 <= i < |d| ==> r[i].0 == d[i].0;
    if Find(d, k).None? { assert r[|d|].0 == k; } else { assert r[Find(d, k).value].0 == k; }
  }

  lemma PutUnique<K, V>(d: seq<(K, V)>, k: K, v: V)
    requires UniqueKeys(d)
    ensures UniqueKeys(Put(d, k, v))
  {
  }

  lemma PutLookup<K, V>(d: seq<(K, V)>, k: K, v: V)
    requires UniqueKeys(d)
    ensures Lookup(Put(d, k, v), k) == Some(v)
    ensures forall k' :: k' != k ==> Lookup(Put(d, k, v), k') == Lookup(d, k')
  {
    var r := Put(d, k, v);
    PutShape(d, k, v);
    PutUnique(d, k, v);
    forall k' ensures Lookup(r, k') == if k' == k then Some(v) else Lookup(d, k') {
      FindUnique(r, k');
      FindUnique(d, k');
      if Find(r, k').Some? {
        var i := Find(r, k').value;
        if k' != k { assert i < |d| && d[i].0 == k'; }
      } else if k' != k {
        assert k' !in Keys(d);
      }
    }
  }

  /** Python's d.update(pairs): the pairs are assigned one after the other. */
  function UpdateWith<K(==), V>(d: seq<(K, V)>, pairs: seq<(K, V)>): seq<(K, V)>
  {
    if pairs == [] then d
    else
      var last := pairs[|pairs| - 1];
      Put(UpdateWith(d, pairs[..|pairs| - 1]), last.0, last.1)
  }

  /** Python's dict(pairs). */
  function FromPairs<K(==), V>(pairs: seq<(K, V)>): seq<(K, V)>
  {
    UpdateWith([], pairs)
  }

  /**
   * An update keeps a dict proper; afterwards the keys are the old keys and the pairs' keys, a key
   * given by the pairs maps to its last value among them and every other key keeps its old value,
   * and the old keys stay where they were.
   */
  lemma {:induction false} UpdateWithEffect<K, V>(d: seq<(K, V)>, pairs: seq<(K, V)>)
    requires UniqueKeys(d)
    ensures UniqueKeys(UpdateWith(d, pairs))
    ensures Keys(UpdateWith(d, pairs)) == Keys(d) + Keys(pairs)
    ensures forall k :: Lookup(UpdateWith(d, pairs), k) == if k in Keys(pairs) then Lookup(pairs, k) else Lookup(d, k)
    ensures |d| <= |UpdateWith(d, pairs)|
    ensures forall i :: 0 <= i < |d| ==> UpdateWith(d, pairs)[i].0 == d[i].0
  {
    if pairs != [] {
      var init := pairs[..|pairs| - 1];
      var last := pairs[|pairs| - 1];
      UpdateWithEffect(d, init);
      PutEffect(UpdateWith(d, init), last.0, last.1);
      assert pairs == init + [last];
      SnocKeys(init, last);
    }
  }

  /** Appending one pair adds its key; looking up that key gives its value, other keys are as before. */
  lemma SnocKeys<K, V>(init: seq<(K, V)>, last: (K, V))
    ensures Keys(init + [last]) == Keys(init) + {last.0}
    ensures Lookup(init + [last], last.0) == Some(last.1)
    ensures forall k :: k != last.0 ==> Lookup(init + [last], k) == Lookup(init, k)
  {
    var p := init + [last];
    assert p[..|p| - 1] == init;
    assert forall i :: 0 <= i < |init| ==> p[i] == init[i];
    assert Keys(p) == Keys(init) + {last.0} by {
      assert p[|init|].0 == last.0;
    }
  }

  /** The first key of dict(pairs) is the first key written. */
  lemma {:induction false} FromPairsFirstKey<K, V>(pairs: seq<(K, V)>)
    requires pairs != []
    ensures FromPairs(pairs) != [] && FromPairs(pairs)[0].0 == pairs[0].0
  {
    if |pairs| == 1 {
      assert pairs[..0] == [];
      assert UpdateWith([], pairs[..0]) == [];
      assert Find<K, V>([], pairs[0].0) == None;
    } else {
      var init := pairs[..|pairs| - 1];
      FromPairsFirstKey(init);
      UpdateWithEffect([], init);
      PutEffect(FromPairs(init), pairs[|pairs| - 1].0, pairs[|pairs| - 1].1);
    }
  }

  /** Python's zip(xs, ys) of two lists of the same length. */
  function Zip<K, V>(xs: seq<K>, ys: seq<V>): (r: seq<(K, V)>)
    requires |xs| == |ys|
    ensures |r| == |xs| && forall i :: 0 <= i < |xs| ==> r[i] == (xs[i], ys[i])
  {
    seq(|xs|, i requires 0 <= i < |xs| => (xs[i], ys[i]))
  }

  /**
   * dict(zip(xs, ys)): its keys are exactly the xs, each key once, and each key is paired with the
   * y at the position where that key occurs last.
   */
  lemma ZipDict<K, V>(xs: seq<K>, ys: seq<V>)
    requires |xs| == |ys|
    ensures UniqueKeys(FromPairs(Zip(xs, ys)))
    ensures Keys(FromPairs(Zip(xs, ys))) == set i | 0 <= i < |xs| :: xs[i]
    ensures forall i :: 0 <= i < |xs| && (forall j :: i < j < |xs| ==> xs[j] != xs[i]) ==>
              Lookup(FromPairs(Zip(xs, ys)), xs[i]) == Some(ys[i])
  {
    var z := Zip(xs, ys);
    UpdateWithEffect([], z);
    forall i | 0 <= i < |xs| && (forall j :: i < j < |xs| ==> xs[j] != xs[i])
      ensures Lookup(z, xs[i]) == Some(ys[i])
    {
      assert z[i].0 == xs[i];
    }
    assert Keys(z) == set i | 0 <= i < |xs| :: xs[i] by {
      forall k | k in Keys(z) ensures exists i :: 0 <= i < |xs| && xs[i] == k { }
    }
  }
}
