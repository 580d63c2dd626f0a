/**
 * A Python `dict` as the model sees it: entries in insertion order, each key at
 * most once. `Set` is `d[k] = v`, `Values` is `list(d.values())` and `ToMap`
 * forgets the order, giving the mathematical map the dictionary stands for.
 */
module OrderedDict {
  import opened Wrappers

  type Entries<V> = seq<(string, V)>

  /** No key occurs twice: what a dict guarantees of its entries. */
  predicate DistinctKeys<V>(e: Entries<V>) {
    forall i, j :: 0 <= i < j < |e| ==> e[i].0 != e[j].0
  }

  function KeySet<V>(e: Entries<V>): set<string> {
    set i | 0 <= i < |e| :: e[i].0
  }

  /** The keys in insertion order, as `list(d.keys())`. */
  function Keys<V>(e: Entries<V>): (r: seq<string>)
    ensures |r| == |e|
    ensures forall i :: 0 <= i < |e| ==> r[i] == e[i].0
  {
    if e == [] then [] else Keys(e[..|e| - 1]) + [e[|e| - 1].0]
  }

  /** The values in insertion order, as `list(d.values())`. */
  function Values<V>(e: Entries<V>): (r: seq<V>)
    ensures |r| == |e|
    ensures forall i :: 0 <= i < |e| ==> r[i] == e[i].1
  {
    if e == [] then [] else Values(e[..|e| - 1]) + [e[|e| - 1].1]
  }

  /** The map the entries denote; a later entry for a key wins, as a later assignment does. */
  function ToMap<V>(e: Entries<V>): map<string, V> {
    if e == [] then map[] else ToMap(e[..|e| - 1])[e[|e| - 1].0 := e[|e| - 1].1]
  }

  /** Position of key `k`, if present. */
  function Find<V>(e: Entries<V>, k: string): (r: Option<nat>)
    ensures r.None? <==> forall i :: 0 <= i < |e| ==> e[i].0 != k
    ensures r.Some? ==> r.value < |e| && e[r.value].0 == k
  {
    if e == [] then None
    else if e[|e| - 1].0 == k then Some(|e| - 1)
    else Find(e[..|e| - 1], k)
  }

  /** Where a key is found depends on the keys only, not on the values. */
  lemma {:induction false} FindDependsOnKeys<V, W>(e: Entries<V>, f: Entries<W>, k: string)
    requires |e| == |f|
    requires forall i :: 0 <= i < |e| ==> e[i].0 == f[i].0
    ensures Find(e, k) == Find(f, k)
  {
    if e != [] {
      FindDependsOnKeys(e[..|e| - 1], f[..|f| - 1], k);
    }
  }

  /** `d[k] = v`: an existing key keeps its position and takes the new value; a new key goes last. */
  function Set<V>(e: Entries<V>, k: string, v: V): (r: Entries<V>)
    ensures Find(e, k).Some? ==> |r| == |e| && r == e[Find(e, k).value := (k, v)]
    ensures Find(e, k).None? ==> r == e + [(k, v)]
  {
    match Find(e, k)
    case Some(i) => e[i := (k, v)]
    case None => e + [(k, v)]
  }

  lemma KeySetOfSnoc<V>(e: Entries<V>)
    requires e != []
    ensures KeySet(e) == KeySet(e[..|e| - 1]) + {e[|e| - 1].0}
  {
  }

  /**
   * For a dict, the map has one key per entry and each entry's value under its
   * key: the entries are exactly the dictionary's contents.
   */
  lemma {:induction false} ToMapOfDistinct<V>(e: Entries<V>)
    requires DistinctKeys(e)
    ensures ToMap(e).Keys == KeySet(e)
    ensures forall i :: 0 <= i < |e| ==> ToMap(e)[e[i].0] == e[i].1
  {
    if e != [] {
      var init := e[..|e| - 1];
      assert DistinctKeys(init);
      ToMapOfDistinct(init);
      KeySetOfSnoc(e);
      forall i | 0 <= i < |e| ensures ToMap(e)[e[i].0] == e[i].1 {
        if i < |e| - 1 {
          assert init[i] == e[i];
          assert e[i].0 != e[|e| - 1].0;
        }
      }
    }
  }

  /** Distinct keys: as many keys as entries. */
  lemma {:induction false} KeySetSize<V>(e: Entries<V>)
    requires DistinctKeys(e)
    ensures |KeySet(e)| == |e|
  {
    if e != [] {
      var init := e[..|e| - 1];
      assert DistinctKeys(init);
      KeySetSize(init);
      KeySetOfSnoc(e);
    }
  }

  /**
   * `list(d.values())` lists every value of the dictionary, once per key, in
   * insertion order: its length is the number of entries and its elements are
   * the values of the map.
   */
  lemma {:induction false} ValuesOfDict<V>(e: Entries<V>)
    requires DistinctKeys(e)
    ensures |Values(e)| == |ToMap(e)|
    ensures forall i :: 0 <= i < |e| ==> e[i].0 in ToMap(e) && Values(e)[i] == ToMap(e)[e[i].0]
    ensures forall k :: k in ToMap(e) ==> exists i :: 0 <= i < |e| && Keys(e)[i] == k && Values(e)[i] == ToMap(e)[k]
  {
    ToMapOfDistinct(e);
    KeySetSize(e);
    assert |ToMap(e)| == |ToMap(e).Keys|;
  }

  /** `d[k] = v` keeps the keys distinct and adds `k` to them. */
  lemma SetKeys<V>(e: Entries<V>, k: string, v: V)
    requires DistinctKeys(e)
    ensures DistinctKeys(Set(e, k, v))
    ensures KeySet(Set(e, k, v)) == KeySet(e) + {k}
  {
    var r := Set(e, k, v);
    forall x | x in KeySet(r) ensures x in KeySet(e) + {k} {
      var i :| 0 <= i < |r| && r[i].0 == x;
      if x != k { assert r[i] == e[i]; }
    }
    forall x | x in KeySet(e) + {k} ensures x in KeySet(r) {
      if x == k {
        match Find(e, k)
        case Some(i) => assert r[i].0 == k;
        case None => assert r[|e|].0 == k;
      } else {
        var i :| 0 <= i < |e| && e[i].0 == x;
        assert r[i].0 == x;
      }
    }
  }

  /** Replacing the value of the entry at `i` updates the denoted map at that entry's key. */
  lemma {:induction false} ToMapReplaceAt<V>(e: Entries<V>, i: nat, v: V)
    requires DistinctKeys(e) && i < |e|
    ensures ToMap(e[i := (e[i].0, v)]) == ToMap(e)[e[i].0 := v]
  {
    var r := e[i := (e[i].0, v)];
    var init := e[..|e| - 1];
    assert r[..|r| - 1] == if i == |e| - 1 then init else init[i := (e[i].0, v)];
    if i < |e| - 1 {
      assert DistinctKeys(init);
      assert init[i] == e[i];
      ToMapReplaceAt(init, i, v);
      assert e[i].0 != e[|e| - 1].0;
    }
  }

  /** `d[k] = v` updates the denoted map at `k` and nowhere else. */
  lemma SetIsMapUpdate<V>(e: Entries<V>, k: string, v: V)
    requires DistinctKeys(e)
    ensures DistinctKeys(Set(e, k, v))
    ensures ToMap(Set(e, k, v)) == ToMap(e)[k := v]
  {
    SetKeys(e, k, v);
    match Find(e, k)
    case Some(i) => ToMapReplaceAt(e, i, v);
    case None => assert Set(e, k, v)[..|e|] == e;
  }

  /** `d[k] = v` leaves every other entry where it was, so the insertion order of the others is unchanged. */
  lemma SetKeepsOrder<V>(e: Entries<V>, k: string, v: V)
    ensures forall i :: 0 <= i < |e| && e[i].0 != k ==> Set(e, k, v)[i] == e[i]
    ensures |Set(e, k, v)| == |e| + (if k in KeySet(e) then 0 else 1)
    ensures Set(e, k, v)[if k in KeySet(e) then Find(e, k).value else |e|] == (k, v)
  {
  }
}
