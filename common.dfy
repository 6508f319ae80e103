/** Values shared by every part of the canteen model: an optional value, the
    lookup tables the pages build with `new Map(list.map(x => [x.id, x]))`,
    the first-match search that `Array.prototype.find` performs, and the
    `filter` by one field that picks a category out of a menu. */
module Common {

  datatype Option<+T> = None | Some(value: T)

  /** A JavaScript string is truthy exactly when it is not empty. */
  predicate Truthy(s: string) {
    s != []
  }

  /** `new Map(xs.map(x => [key(x), x]))`: a later entry with the same key
      overwrites an earlier one. */
  function IndexBy<K, T>(xs: seq<T>, key: T -> K): (m: map<K, T>)
    ensures forall i :: 0 <= i < |xs| ==> key(xs[i]) in m
    ensures forall k :: k in m ==> key(m[k]) == k && m[k] in xs
  {
    if xs == [] then map[]
    else
      var init := xs[..|xs| - 1];
      var x := xs[|xs| - 1];
      assert forall i :: 0 <= i < |init| ==> init[i] == xs[i];
      IndexBy(init, key)[key(x) := x]
  }

  /** The entry `IndexBy` keeps for a key is the LAST element carrying that key. */
  lemma {:induction false} IndexByKeepsLast<K, T>(xs: seq<T>, key: T -> K, i: nat)
    requires i < |xs|
    requires forall j :: i < j < |xs| ==> key(xs[j]) != key(xs[i])
    ensures key(xs[i]) in IndexBy(xs, key) && IndexBy(xs, key)[key(xs[i])] == xs[i]
  {
    if i < |xs| - 1 {
      var init := xs[..|xs| - 1];
      assert forall j :: i < j < |init| ==> init[j] == xs[j];
      IndexByKeepsLast(init, key, i);
    }
  }

  /** A key no element carries is absent from the index. */
  lemma {:induction false} IndexByAbsent<K, T>(xs: seq<T>, key: T -> K, k: K)
    requires forall i :: 0 <= i < |xs| ==> key(xs[i]) != k
    ensures k !in IndexBy(xs, key)
  {
    if xs != [] {
      var init := xs[..|xs| - 1];
      assert forall i :: 0 <= i < |init| ==> init[i] == xs[i];
      IndexByAbsent(init, key, k);
    }
  }

  /** Position of the first element carrying key `k`, as `xs.findIndex` gives it. */
  function FindIndex<K(==), T>(xs: seq<T>, key: T -> K, k: K): (r: Option<nat>)
    ensures r.None? <==> forall i :: 0 <= i < |xs| ==> key(xs[i]) != k
    ensures r.Some? ==> r.value < |xs| && key(xs[r.value]) == k
                        && forall j :: 0 <= j < r.value ==> key(xs[j]) != k
  {
    if xs == [] then None
    else if key(xs[0]) == k then Some(0)
    else
      match FindIndex(xs[1..], key, k)
      case None => None
      case Some(i) => Some(i + 1)
  }

  /** `xs.find(x => key(x) == k)`: the first element carrying key `k`. */
  function Find<K(==), T>(xs: seq<T>, key: T -> K, k: K): (r: Option<T>)
    ensures r.None? <==> forall i :: 0 <= i < |xs| ==> key(xs[i]) != k
    ensures r.Some? ==> key(r.value) == k
  {
    match FindIndex(xs, key, k)
    case None => None
    case Some(i) => Some(xs[i])
  }

  /** What `Find` returns is the element at the first position carrying the key. */
  lemma FindIsFirst<K, T>(xs: seq<T>, key: T -> K, k: K)
    requires Find(xs, key, k).Some?
    ensures exists i :: 0 <= i < |xs| && xs[i] == Find(xs, key, k).value && forall j :: 0 <= j < i ==> key(xs[j]) != k
  {
    var i := FindIndex(xs, key, k).value;
    assert xs[i] == Find(xs, key, k).value;
  }

  /** All elements carry distinct keys (document ids in one collection). */
  predicate DistinctKeys<K(==), T>(xs: seq<T>, key: T -> K) {
    forall i, j :: 0 <= i < j < |xs| ==> key(xs[i]) != key(xs[j])
  }

  /** With distinct keys, the lookup table and the first-match search agree. */
  lemma IndexByAgreesWithFind<K, T>(xs: seq<T>, key: T -> K, k: K)
    requires DistinctKeys(xs, key)
    ensures k in IndexBy(xs, key) <==> Find(xs, key, k).Some?
    ensures k in IndexBy(xs, key) ==> IndexBy(xs, key)[k] == Find(xs, key, k).value
  {
    var r := FindIndex(xs, key, k);
    if r.Some? {
      IndexByKeepsLast(xs, key, r.value);
    } else {
      IndexByAbsent(xs, key, k);
    }
  }

  /** `xs.filter(x => key(x) === k)`: the elements carrying key `k`, in order. */
  function Filter<K(==), T(!new)>(xs: seq<T>, key: T -> K, k: K): (r: seq<T>)
    ensures |r| <= |xs|
    ensures forall x :: x in r <==> x in xs && key(x) == k
  {
    if xs == [] then []
    else
      var rest := Filter(xs[1..], key, k);
      assert xs == [xs[0]] + xs[1..];
      if key(xs[0]) == k then [xs[0]] + rest else rest
  }

  /** Filtering keeps every copy of an element with the key and no other element. */
  lemma {:induction false} FilterMultiset<K, T(!new)>(xs: seq<T>, key: T -> K, k: K)
    ensures forall x :: multiset(Filter(xs, key, k))[x] == if key(x) == k then multiset(xs)[x] else 0
  {
    if xs != [] {
      FilterMultiset(xs[1..], key, k);
      assert xs == [xs[0]] + xs[1..];
    }
  }

  /** Filtering keeps the order: it distributes over concatenation. */
  lemma {:induction false} FilterConcat<K, T(!new)>(a: seq<T>, b: seq<T>, key: T -> K, k: K)
    ensures Filter(a + b, key, k) == Filter(a, key, k) + Filter(b, key, k)
  {
    if a == [] {
      assert a + b == b;
    } else {
      assert (a + b)[0] == a[0];
      assert (a + b)[1..] == a[1..] + b;
      FilterConcat(a[1..], b, key, k);
    }
  }

  /** A list whose every element carries the key filters to itself; one
      with no such element filters to nothing. */
  lemma {:induction false} FilterUniform<K, T(!new)>(xs: seq<T>, key: T -> K, k: K)
    ensures (forall i :: 0 <= i < |xs| ==> key(xs[i]) == k) ==> Filter(xs, key, k) == xs
    ensures (forall i :: 0 <= i < |xs| ==> key(xs[i]) != k) ==> Filter(xs, key, k) == []
  {
    if xs != [] {
      FilterUniform(xs[1..], key, k);
    }
  }
}
