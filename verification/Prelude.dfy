/** Failure-carrying values used throughout the model. */
module Prelude {

  datatype Option<+T> = None | Some(value: T)

  /** A call of the source either returns a value or throws. */
  datatype Result<+T> = Success(value: T) | Failure(error: string)
}

/** Array helpers: `filter`, the stable `sort` by a numeric key, and duplicate-freedom. */
module Sequences {

  predicate Distinct<T(==)>(xs: seq<T>) {
    forall i, j :: 0 <= i < j < |xs| ==> xs[i] != xs[j]
  }

  function Keep<T>(xs: seq<T>, test: T -> bool): (r: seq<T>)
    ensures |r| <= |xs|
    ensures forall i :: 0 <= i < |r| ==> r[i] in xs && test(r[i])
    ensures forall i :: 0 <= i < |xs| && test(xs[i]) ==> xs[i] in r
  {
    if xs == [] then []
    else if test(xs[0]) then [xs[0]] + Keep(xs[1..], test)
    else Keep(xs[1..], test)
  }

  lemma {:induction false} KeepDistinct<T>(xs: seq<T>, test: T -> bool)
    requires Distinct(xs)
    ensures Distinct(Keep(xs, test))
  {
    if xs != [] {
      KeepDistinct(xs[1..], test);
      assert xs[0] !in xs[1..];
    }
  }

  /** Keeping by two tests that agree on the elements is the same. */
  lemma {:induction false} KeepAgrees<T>(xs: seq<T>, one: T -> bool, two: T -> bool)
    requires forall i :: 0 <= i < |xs| ==> one(xs[i]) == two(xs[i])
    ensures Keep(xs, one) == Keep(xs, two)
  {
    if xs != [] { KeepAgrees(xs[1..], one, two); }
  }

  lemma {:induction false} KeepAppend<T>(xs: seq<T>, x: T, test: T -> bool)
    ensures Keep(xs + [x], test) == Keep(xs, test) + (if test(x) then [x] else [])
  {
    if xs != [] {
      assert (xs + [x])[1..] == xs[1..] + [x];
      KeepAppend(xs[1..], x, test);
    }
  }

  function InsertDescending<T>(x: T, xs: seq<T>, key: T -> int): (r: seq<T>)
    ensures |r| == |xs| + 1
    ensures forall i :: 0 <= i < |r| ==> r[i] == x || r[i] in xs
    ensures forall y :: y in xs ==> y in r
    ensures x in r
  {
    if xs == [] || key(x) >= key(xs[0]) then [x] + xs
    else [xs[0]] + InsertDescending(x, xs[1..], key)
  }

  /** Stable sort, largest key first: among equal keys the earlier element stays earlier. */
  function SortDescending<T>(xs: seq<T>, key: T -> int): (r: seq<T>)
    ensures |r| == |xs|
    ensures forall i :: 0 <= i < |r| ==> r[i] in xs
    ensures forall y :: y in xs ==> y in r
  {
    if xs == [] then [] else InsertDescending(xs[0], SortDescending(xs[1..], key), key)
  }

  lemma {:induction false} InsertAgrees<T>(x: T, xs: seq<T>, one: T -> int, two: T -> int)
    requires one(x) == two(x) && forall i :: 0 <= i < |xs| ==> one(xs[i]) == two(xs[i])
    ensures InsertDescending(x, xs, one) == InsertDescending(x, xs, two)
  {
    if xs != [] { InsertAgrees(x, xs[1..], one, two); }
  }

  /** Sorting by two keys that agree on the elements is the same. */
  lemma {:induction false} SortAgrees<T>(xs: seq<T>, one: T -> int, two: T -> int)
    requires forall i :: 0 <= i < |xs| ==> one(xs[i]) == two(xs[i])
    ensures SortDescending(xs, one) == SortDescending(xs, two)
  {
    if xs != [] {
      SortAgrees(xs[1..], one, two);
      var rest := SortDescending(xs[1..], one);
      forall i | 0 <= i < |rest| ensures one(rest[i]) == two(rest[i]) { assert rest[i] in xs[1..]; }
      InsertAgrees(xs[0], rest, one, two);
    }
  }

  predicate Descending<T>(xs: seq<T>, key: T -> int) {
    forall i, j :: 0 <= i < j < |xs| ==> key(xs[i]) >= key(xs[j])
  }

  lemma {:induction false} InsertKeepsOrder<T>(x: T, xs: seq<T>, key: T -> int)
    requires Descending(xs, key)
    ensures Descending(InsertDescending(x, xs, key), key)
  {
    if xs != [] && key(x) < key(xs[0]) {
      var rest := InsertDescending(x, xs[1..], key);
      InsertKeepsOrder(x, xs[1..], key);
      forall i | 0 <= i < |rest| ensures key(xs[0]) >= key(rest[i]) {
        if rest[i] != x { assert rest[i] in xs[1..]; }
      }
    }
  }

  lemma {:induction false} SortIsDescending<T>(xs: seq<T>, key: T -> int)
    ensures Descending(SortDescending(xs, key), key)
  {
    if xs != [] {
      SortIsDescending(xs[1..], key);
      InsertKeepsOrder(xs[0], SortDescending(xs[1..], key), key);
    }
  }
}

/**
 The JavaScript `Map`, without its iteration order. Where the source walks `values()` the model walks
 one listing per set of keys (`Enumerate`), of which nothing is known but that each key occurs once.
 */
module Maps {
  import opened Prelude
  import opened Sequences

  ghost function Enumerate<K(!new)>(keys: set<K>): (r: seq<K>)
    ensures forall k :: k in r <==> k in keys
    ensures Distinct(r)
  {
    if keys == {} then []
    else
      var k :| k in keys;
      [k] + Enumerate(keys - {k})
  }

  /** The key of a value that satisfies the test, if there is one. */
  ghost function Find<K, V>(m: map<K, V>, test: V -> bool): (r: Option<K>)
    ensures r.Some? ==> r.value in m && test(m[r.value])
    ensures r.None? ==> forall k :: k in m ==> !test(m[k])
  {
    if exists k :: k in m && test(m[k]) then
      var k :| k in m && test(m[k]);
      Some(k)
    else None
  }

  /** The keys of all values that satisfy the test, in the order of the listing. */
  ghost function Filter<K(!new), V>(m: map<K, V>, test: V -> bool): (r: seq<K>)
    ensures forall k :: k in r <==> k in m && test(m[k])
    ensures Distinct(r)
  {
    KeepDistinct(Enumerate(m.Keys), (k: K) => k in m && test(m[k]));
    Keep(Enumerate(m.Keys), (k: K) => k in m && test(m[k]))
  }

  lemma FilterIs<K(!new), V>(m: map<K, V>, test: V -> bool, keep: K -> bool)
    requires forall k :: k in m ==> keep(k) == test(m[k])
    ensures Filter(m, test) == Keep(Enumerate(m.Keys), keep)
  {
    var order := Enumerate(m.Keys);
    forall i | 0 <= i < |order| ensures keep(order[i]) == (order[i] in m && test(m[order[i]])) { assert order[i] in order; }
    KeepAgrees(order, (k: K) => k in m && test(m[k]), keep);
  }

  /** `[...m.values()].filter(test)`, as keys: the loop over the listing. */
  method Select<K(!new, ==), V>(m: map<K, V>, order: seq<K>, test: V -> bool) returns (r: seq<K>)
    requires order == Enumerate(m.Keys)
    ensures r == Filter(m, test)
  {
    r := [];
    ghost var keep := (k: K) => k in m && test(m[k]);
    for n := 0 to |order|
      invariant r == Keep(order[..n], keep)
    {
      assert order[..n + 1] == order[..n] + [order[n]] && order[n] in order;
      KeepAppend(order[..n], order[n], keep);
      if test(m[order[n]]) { r := r + [order[n]]; }
    }
    assert order[..|order|] == order;
    FilterIs(m, test, keep);
  }
}
