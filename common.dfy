/** Small value types shared by the modules of the model: optional values,
    results with an error side, and insertion-ordered dictionaries.

    Python dictionaries keep their keys in insertion order, and several of the
    modelled routines depend on that order (which appearance rows are written
    first, which emotion wins a tie).  They are modelled as association lists
    whose keys are pairwise distinct. */
module Common {

  datatype Option<T> = None | Some(value: T)

  datatype Result<T, E> = Success(value: T) | Failure(error: E)

  /** The status code and `error` message of a route's error reply. */
  datatype HttpError = HttpError(status: int, message: string)

  /** One key/value entry of an insertion-ordered dictionary. */
  datatype Pair<K, V> = Pair(key: K, value: V)

  /** Extending a prefix of `s` by one element, after a fixed head `a`. */
  lemma AppendPrefix<T>(a: seq<T>, s: seq<T>, j: nat)
    requires j < |s|
    ensures a + s[..j + 1] == (a + s[..j]) + [s[j]]
  {
    assert s[..j + 1] == s[..j] + [s[j]];
  }

  /** Appending one element keeps the list as a prefix. */
  lemma SnocPrefix<T>(a: seq<T>, x: T)
    ensures (a + [x])[..|a|] == a
  {
  }

  /** A nonempty list is its prefix followed by its last element. */
  lemma SnocSplit<T>(a: seq<T>)
    requires a != []
    ensures a == a[..|a| - 1] + [a[|a| - 1]]
  {
  }

  lemma AppendAssoc<T>(a: seq<T>, b: seq<T>, c: seq<T>)
    ensures (a + b) + c == a + (b + c)
  {
  }

  /** Being a prefix is transitive. */
  lemma PrefixTransitive<T>(a: seq<T>, b: seq<T>, c: seq<T>)
    requires |a| <= |b| <= |c| && c[..|b|] == b && b[..|a|] == a
    ensures c[..|a|] == a
  {
    assert c[..|a|] == c[..|b|][..|a|];
  }

  /** The keys of an association list, in insertion order. */
  function Keys<K, V>(d: seq<Pair<K, V>>): (ks: seq<K>)
    ensures |ks| == |d|
    ensures forall i :: 0 <= i < |d| ==> ks[i] == d[i].key
  {
    if d == [] then [] else Keys(d[..|d| - 1]) + [d[|d| - 1].key]
  }

  /** No key occurs twice: the association list is a dictionary. */
  predicate DistinctKeys<K(==), V>(d: seq<Pair<K, V>>)
  {
    forall i, j :: 0 <= i < j < |d| ==> d[i].key != d[j].key
  }

  /** `d.get(k)`: the value stored under `k`, if any. */
  function Lookup<K(==), V>(d: seq<Pair<K, V>>, k: K): (r: Option<V>)
    ensures r.None? <==> forall i :: 0 <= i < |d| ==> d[i].key != k
  {
    if d == [] then None
    else if d[|d| - 1].key == k then Some(d[|d| - 1].value)
    else Lookup(d[..|d| - 1], k)
  }

  /** The position of `k` in the association list, if present. */
  function IndexOf<K(==), V>(d: seq<Pair<K, V>>, k: K): (r: Option<nat>)
    ensures r.None? <==> forall i :: 0 <= i < |d| ==> d[i].key != k
    ensures r.Some? ==> r.value < |d| && d[r.value].key == k
  {
    if d == [] then None
    else if d[|d| - 1].key == k then Some(|d| - 1)
    else IndexOf(d[..|d| - 1], k)
  }

  lemma {:induction false} LookupAtIndex<K, V>(d: seq<Pair<K, V>>, i: nat)
    requires DistinctKeys(d) && i < |d|
    ensures Lookup(d, d[i].key) == Some(d[i].value)
  {
    if i < |d| - 1 {
      assert d[..|d| - 1][i] == d[i];
      LookupAtIndex(d[..|d| - 1], i);
    }
  }

  /** `d[k] = v`: the value of an existing key is replaced in place, a new
      key is appended. */
  function Assign<K(==), V>(d: seq<Pair<K, V>>, k: K, v: V): (r: seq<Pair<K, V>>)
    ensures |r| == |d| || |r| == |d| + 1
  {
    match IndexOf(d, k) {
      case Some(i) => d[i := Pair(k, v)]
      case None => d + [Pair(k, v)]
    }
  }

  lemma {:induction false} LookupReplace<K, V>(d: seq<Pair<K, V>>, i: nat, v: V, k: K)
    requires DistinctKeys(d) && i < |d|
    ensures Lookup(d[i := Pair(d[i].key, v)], k) == if k == d[i].key then Some(v) else Lookup(d, k)
  {
    var n := |d| - 1;
    if i < n {
      assert d[i := Pair(d[i].key, v)][..n] == d[..n][i := Pair(d[i].key, v)];
      assert d[..n][i] == d[i];
      LookupReplace(d[..n], i, v, k);
    } else {
      assert d[i := Pair(d[i].key, v)][..n] == d[..n];
    }
  }

  /** After `d[k] = v` the dictionary maps `k` to `v` and every other key
      as before, and it is still a dictionary. */
  lemma AssignLookup<K, V>(d: seq<Pair<K, V>>, k: K, v: V, k': K)
    requires DistinctKeys(d)
    ensures DistinctKeys(Assign(d, k, v))
    ensures Lookup(Assign(d, k, v), k') == if k' == k then Some(v) else Lookup(d, k')
  {
    match IndexOf(d, k) {
      case Some(i) =>
        LookupReplace(d, i, v, k');
      case None =>
        assert (d + [Pair(k, v)])[..|d|] == d;
    }
  }

  function Min(a: int, b: int): int { if a <= b then a else b }

  function Max(a: int, b: int): int { if a >= b then a else b }
}
