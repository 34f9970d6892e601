/** Python's `dict`, whose iteration order is insertion order: a sequence of
    distinct keys in the order they were first inserted, and the map from
    each key to its current value. Writing an existing key replaces its value
    and keeps its position. */
module PyDict {
  import opened Common

  datatype Dict<K(==,!new), V> = Dict(keys: seq<K>, entries: map<K, V>) {

    ghost predicate Valid() {
      && Distinct(keys)
      && (forall k :: k in entries <==> k in keys)
    }

    /** `d.get(k)`. */
    function Get(k: K): (r: Option<V>)
      ensures r.Some? <==> k in entries
      ensures r.Some? ==> r.value == entries[k]
    {
      if k in entries then Some(entries[k]) else None
    }

    /** `d[k] = v`. */
    function Put(k: K, v: V): (d: Dict<K, V>)
      requires Valid()
      ensures d.Valid()
      ensures d.entries == entries[k := v]
      ensures k in entries ==> d.keys == keys
      ensures k !in entries ==> d.keys == keys + [k]
    {
      if k in entries then Dict(keys, entries[k := v])
      else
        DistinctSnoc(keys, k);
        Dict(keys + [k], entries[k := v])
    }
  }

  function Empty<K(==,!new), V>(): (d: Dict<K, V>)
    ensures d.Valid() && d.keys == [] && d.entries == map[]
  {
    Dict([], map[])
  }

  function IndexOf<K(==)>(s: seq<K>, k: K): (i: nat)
    requires k in s
    ensures i < |s| && s[i] == k && k !in s[..i]
  {
    if s[0] == k then 0 else 1 + IndexOf(s[1..], k)
  }

  /** The elements at positions `i` and `j` differ. */
  ghost predicate Differ<K>(s: seq<K>, i: int, j: int)
    requires 0 <= i < |s| && 0 <= j < |s|
  {
    s[i] != s[j]
  }

  /** No element occurs twice. The fact about a pair of positions is stated
      through `Differ`, so a proof draws it only for the pairs it names. */
  ghost predicate Distinct<K>(s: seq<K>) {
    forall i, j | 0 <= i < j < |s| :: Differ(s, i, j)
  }

  lemma DistinctAt<K>(s: seq<K>, i: int, j: int)
    requires Distinct(s) && 0 <= i < |s| && 0 <= j < |s| && i != j
    ensures s[i] != s[j]
  {
    if i < j {
      assert Differ(s, i, j);
    } else {
      assert Differ(s, j, i);
    }
  }

  /** Without its last element, a sequence of distinct elements is still
      distinct and does not hold that element. */
  lemma DistinctInit<K>(s: seq<K>)
    requires Distinct(s) && s != []
    ensures Distinct(s[..|s| - 1]) && s[|s| - 1] !in s[..|s| - 1]
  {
    var init := s[..|s| - 1];
    forall i, j | 0 <= i < j < |init| ensures Differ(init, i, j) {
      DistinctAt(s, i, j);
    }
    if s[|s| - 1] in init {
      var k :| 0 <= k < |init| && init[k] == s[|s| - 1];
      DistinctAt(s, k, |s| - 1);
    }
  }

  /** Appending an element not yet present keeps the elements distinct. */
  lemma DistinctSnoc<K>(s: seq<K>, x: K)
    requires Distinct(s) && x !in s
    ensures Distinct(s + [x])
  {
    var t := s + [x];
    forall i, j | 0 <= i < j < |t| ensures Differ(t, i, j) {
      if j < |s| {
        DistinctAt(s, i, j);
      } else {
        assert t[i] == s[i];
      }
    }
  }

  /** A sequence of distinct elements has as many elements as the set it lists. */
  lemma {:induction false} DistinctCard<K(!new)>(s: seq<K>, ks: set<K>)
    requires Distinct(s)
    requires forall k :: k in ks <==> k in s
    ensures |ks| == |s|
  {
    if s != [] {
      var last := s[|s| - 1];
      var init := s[..|s| - 1];
      DistinctInit(s);
      assert forall k :: k in ks - {last} <==> k in init by {
        assert s == init + [last];
      }
      DistinctCard(init, ks - {last});
    }
  }
}
