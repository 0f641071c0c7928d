/** Serializing the maps of a projection with their rows sorted by id, under any collation. */
module SerializedOrder {
  import opened Json
  import opened CanonicalText

  /**
   `localeCompare`, as the place each id has in the collation: two ids compare as their places do, and distinct ids may
   share a place.
   */
  type Collation = Text -> real

  /** The rows of one map of the projection, by id; a `Map` lists them in insertion order. */
  ghost function Rows(e: Entries): (m: map<Text, Value>)
    ensures m.Keys == Keys(e)
  {
    if e.NoEntry? then map[] else Rows(e.rest)[e.key := e.value]
  }

  predicate DistinctIds(e: Entries) {
    e.Entry? ==> e.key !in Keys(e.rest) && DistinctIds(e.rest)
  }

  function ValuesOf(e: Entries): Items {
    if e.NoEntry? then NoItem else Item(e.value, ValuesOf(e.rest))
  }

  /** A row goes before the first one whose place is not smaller, so that rows of one place keep their order. */
  function Place(rank: Collation, key: Text, value: Value, e: Entries): Entries {
    if e.NoEntry? || rank(key) <= rank(e.key) then Entry(key, value, e) else Entry(e.key, e.value, Place(rank, key, value, e.rest))
  }

  /** The stable sort. */
  function Collate(rank: Collation, e: Entries): Entries {
    if e.NoEntry? then NoEntry else Place(rank, e.key, e.value, Collate(rank, e.rest))
  }

  /** `byId`. */
  function ById(rank: Collation, e: Entries): Value {
    Arr(ValuesOf(Collate(rank, e)))
  }

  /* ---------- places in a sorted listing ---------- */

  function Ranks(rank: Collation, e: Entries): seq<real> {
    if e.NoEntry? then [] else [rank(e.key)] + Ranks(rank, e.rest)
  }

  ghost predicate Rising(xs: seq<real>) {
    forall i, j :: 0 <= i < j < |xs| ==> xs[i] <= xs[j]
  }

  /** Every listed row is a row of the map. */
  ghost predicate Drawn(e: Entries, m: map<Text, Value>) {
    e.Entry? ==> e.key in m && m[e.key] == e.value && Drawn(e.rest, m)
  }

  function Inserted(x: real, xs: seq<real>): seq<real> {
    if xs == [] || x <= xs[0] then [x] + xs else [xs[0]] + Inserted(x, xs[1..])
  }

  lemma {:induction false} InsertedBag(x: real, xs: seq<real>)
    ensures multiset(Inserted(x, xs)) == multiset(xs) + multiset{x}
  {
    if xs != [] && x > xs[0] {
      InsertedBag(x, xs[1..]);
      assert xs == [xs[0]] + xs[1..];
    }
  }

  lemma {:induction false} InsertedRises(x: real, xs: seq<real>)
    requires Rising(xs)
    ensures Rising(Inserted(x, xs))
  {
    if xs != [] && x > xs[0] {
      var rest := Inserted(x, xs[1..]);
      InsertedRises(x, xs[1..]);
      InsertedBag(x, xs[1..]);
      forall i | 0 <= i < |rest| ensures xs[0] <= rest[i] {
        assert rest[i] in multiset(rest);
        assert rest[i] == x || rest[i] in xs[1..];
      }
    }
  }

  lemma {:induction false} PlaceRanks(rank: Collation, key: Text, value: Value, e: Entries)
    ensures Ranks(rank, Place(rank, key, value, e)) == Inserted(rank(key), Ranks(rank, e))
  {
    if e.Entry? {
      assert Ranks(rank, e)[1..] == Ranks(rank, e.rest);
      if rank(key) > rank(e.key) { PlaceRanks(rank, key, value, e.rest); }
    }
  }

  lemma {:induction false} CollateRanks(rank: Collation, e: Entries)
    ensures Rising(Ranks(rank, Collate(rank, e))) && multiset(Ranks(rank, Collate(rank, e))) == multiset(Ranks(rank, e))
  {
    if e.Entry? {
      CollateRanks(rank, e.rest);
      PlaceRanks(rank, e.key, e.value, Collate(rank, e.rest));
      InsertedRises(rank(e.key), Ranks(rank, Collate(rank, e.rest)));
      InsertedBag(rank(e.key), Ranks(rank, Collate(rank, e.rest)));
      assert Ranks(rank, e) == [rank(e.key)] + Ranks(rank, e.rest);
    }
  }

  lemma {:induction false} PlaceDrawn(rank: Collation, key: Text, value: Value, e: Entries, m: map<Text, Value>)
    requires Drawn(e, m) && key in m && m[key] == value
    ensures Drawn(Place(rank, key, value, e), m)
  {
    if e.Entry? && rank(key) > rank(e.key) { PlaceDrawn(rank, key, value, e.rest, m); }
  }

  lemma {:induction false} CollateDrawn(rank: Collation, e: Entries, m: map<Text, Value>)
    requires Drawn(e, m)
    ensures Drawn(Collate(rank, e), m)
  {
    if e.Entry? {
      CollateDrawn(rank, e.rest, m);
      PlaceDrawn(rank, e.key, e.value, Collate(rank, e.rest), m);
    }
  }

  lemma {:induction false} DrawnFromRows(e: Entries, m: map<Text, Value>)
    requires DistinctIds(e) && forall k :: k in Rows(e) ==> k in m && m[k] == Rows(e)[k]
    ensures Drawn(e, m)
  {
    if e.Entry? { DrawnFromRows(e.rest, m); }
  }

  /* ---------- listings of one map ---------- */

  function Without(e: Entries, key: Text): Entries {
    if e.NoEntry? then NoEntry else if e.key == key then e.rest else Entry(e.key, e.value, Without(e.rest, key))
  }

  lemma {:induction false} Removed(e: Entries, key: Text)
    requires DistinctIds(e) && key in Keys(e)
    ensures Keys(Without(e, key)) == Keys(e) - {key} && DistinctIds(Without(e, key))
  {
    if e.key != key { Removed(e.rest, key); }
  }

  lemma {:induction false} RemovedRows(e: Entries, key: Text)
    requires DistinctIds(e) && key in Keys(e)
    ensures Rows(Without(e, key)) == Rows(e) - {key}
  {
    if e.key != key {
      RemovedRows(e.rest, key);
      var m := Rows(e.rest);
      assert (m - {key})[e.key := e.value] == m[e.key := e.value] - {key};
    } else {
      var m := Rows(e.rest);
      assert m[key := e.value] - {key} == m;
    }
  }

  lemma {:induction false} RemovedRanks(rank: Collation, e: Entries, key: Text)
    requires DistinctIds(e) && key in Keys(e)
    ensures multiset(Ranks(rank, e)) == multiset(Ranks(rank, Without(e, key))) + multiset{rank(key)}
  {
    assert Ranks(rank, e) == [rank(e.key)] + Ranks(rank, e.rest);
    if e.key != key { RemovedRanks(rank, e.rest, key); }
  }

  lemma {:induction false} SameRanks(rank: Collation, a: Entries, b: Entries)
    requires DistinctIds(a) && DistinctIds(b) && Keys(a) == Keys(b)
    ensures multiset(Ranks(rank, a)) == multiset(Ranks(rank, b))
  {
    if a.Entry? {
      Removed(b, a.key);
      RemovedRanks(rank, b, a.key);
      assert Keys(a.rest) == Keys(a) - {a.key};
      SameRanks(rank, a.rest, Without(b, a.key));
      assert Ranks(rank, a) == [rank(a.key)] + Ranks(rank, a.rest);
    } else {
      assert b.NoEntry?;
    }
  }

  lemma {:induction false} RisingUnique(xs: seq<real>, ys: seq<real>)
    requires Rising(xs) && Rising(ys) && multiset(xs) == multiset(ys)
    ensures xs == ys
  {
    assert |xs| == |multiset(xs)| == |multiset(ys)| == |ys|;
    if xs != [] {
      LeastFirst(xs, ys);
      LeastFirst(ys, xs);
      assert xs == [xs[0]] + xs[1..] && ys == [ys[0]] + ys[1..];
      assert multiset(xs[1..]) == multiset(xs) - multiset{xs[0]};
      RisingUnique(xs[1..], ys[1..]);
    }
  }

  lemma LeastFirst(xs: seq<real>, ys: seq<real>)
    requires Rising(xs) && multiset(xs) == multiset(ys) && xs != [] && ys != []
    ensures xs[0] <= ys[0]
  {
    assert ys[0] in multiset(xs);
    var i :| 0 <= i < |xs| && xs[i] == ys[0];
  }

  /* ---------- when the order of insertion matters ---------- */

  /** Rows whose ids share a place are equal. */
  ghost predicate TiesAreEqual(rank: Collation, m: map<Text, Value>) {
    forall j, k :: j in m && k in m && rank(j) == rank(k) ==> m[j] == m[k]
  }

  lemma {:induction false} SameValues(rank: Collation, a: Entries, b: Entries, m: map<Text, Value>)
    requires TiesAreEqual(rank, m) && Drawn(a, m) && Drawn(b, m) && Ranks(rank, a) == Ranks(rank, b)
    ensures ValuesOf(a) == ValuesOf(b)
  {
    if a.Entry? {
      assert Ranks(rank, a)[0] == Ranks(rank, b)[0] && Ranks(rank, a)[1..] == Ranks(rank, b)[1..];
      SameValues(rank, a.rest, b.rest, m);
    }
  }

  lemma SerializedAlike(rank: Collation, a: Entries, b: Entries)
    requires DistinctIds(a) && DistinctIds(b) && Rows(a) == Rows(b) && TiesAreEqual(rank, Rows(a))
    ensures ById(rank, a) == ById(rank, b)
  {
    var m := Rows(a);
    DrawnFromRows(a, m);
    DrawnFromRows(b, m);
    CollateDrawn(rank, a, m);
    CollateDrawn(rank, b, m);
    CollateRanks(rank, a);
    CollateRanks(rank, b);
    assert Keys(a) == Rows(a).Keys == Keys(b);
    SameRanks(rank, a, b);
    RisingUnique(Ranks(rank, Collate(rank, a)), Ranks(rank, Collate(rank, b)));
    SameValues(rank, Collate(rank, a), Collate(rank, b), m);
  }

  /** The row that is placed comes at once before the rows of its place. */
  function ItemAt(items: Items, n: nat): Value {
    if items.NoItem? then Null else if n == 0 then items.first else ItemAt(items.others, n - 1)
  }

  /** How many rows at the front have a smaller place. */
  function Before(rank: Collation, place: real, e: Entries): nat {
    if e.Entry? && rank(e.key) < place then 1 + Before(rank, place, e.rest) else 0
  }

  lemma {:induction false} PlacedAt(rank: Collation, key: Text, value: Value, e: Entries)
    ensures ItemAt(ValuesOf(Place(rank, key, value, e)), Before(rank, rank(key), e)) == value
    ensures Before(rank, rank(key), Place(rank, key, value, e)) == Before(rank, rank(key), e)
  {
    if e.Entry? && rank(key) > rank(e.key) { PlacedAt(rank, key, value, e.rest); }
  }

  /** Two rows of one place, listed one way round and the other, are serialized in different orders. */
  lemma SwappedDiffers(rank: Collation, j: Text, v: Value, k: Text, w: Value, rest: Entries)
    requires rank(j) == rank(k) && v != w
    ensures ById(rank, Entry(j, v, Entry(k, w, rest))) != ById(rank, Entry(k, w, Entry(j, v, rest)))
  {
    var sorted, p := Collate(rank, rest), Before(rank, rank(j), Collate(rank, rest));
    var one, two := Place(rank, j, v, Place(rank, k, w, sorted)), Place(rank, k, w, Place(rank, j, v, sorted));
    PlacedAt(rank, k, w, sorted);
    PlacedAt(rank, j, v, sorted);
    PlacedAt(rank, j, v, Place(rank, k, w, sorted));
    PlacedAt(rank, k, w, Place(rank, j, v, sorted));
    assert ItemAt(ValuesOf(one), p) == v && ItemAt(ValuesOf(two), p) == w;
    assert Collate(rank, Entry(k, w, rest)) == Place(rank, k, w, sorted) && Collate(rank, Entry(j, v, rest)) == Place(rank, j, v, sorted);
    assert Collate(rank, Entry(j, v, Entry(k, w, rest))) == one && Collate(rank, Entry(k, w, Entry(j, v, rest))) == two;
  }

  lemma PutBack(m: map<Text, Value>, j: Text, k: Text, rest: map<Text, Value>)
    requires j in m && k in m && j != k && rest == m - {j} - {k}
    ensures rest[k := m[k]][j := m[j]] == m
  {
  }

  lemma SwappedRows(rank: Collation, e: Entries, j: Text, k: Text) returns (one: Entries, two: Entries)
    requires DistinctIds(e) && j in Keys(e) && k in Keys(e) && rank(j) == rank(k) && Rows(e)[j] != Rows(e)[k]
    ensures DistinctIds(one) && DistinctIds(two) && Rows(one) == Rows(e) && Rows(two) == Rows(e) && ById(rank, one) != ById(rank, two)
  {
    var m, less := Rows(e), Without(e, j);
    Removed(e, j);
    RemovedRows(e, j);
    Removed(less, k);
    RemovedRows(less, k);
    var rest := Without(less, k);
    one, two := Entry(j, m[j], Entry(k, m[k], rest)), Entry(k, m[k], Entry(j, m[j], rest));
    PutBack(m, j, k, Rows(rest));
    assert m - {j} - {k} == m - {k} - {j};
    PutBack(m, k, j, Rows(rest));
    SwappedDiffers(rank, j, m[j], k, m[k], rest);
  }

  /** However the map was filled, its rows are serialized in the same way. */
  ghost predicate OrderIgnored(rank: Collation, e: Entries) {
    forall b :: DistinctIds(b) && Rows(b) == Rows(e) ==> ById(rank, b) == ById(rank, e)
  }

  /**
   The serialized rows of a map do not depend on the order in which it was filled if and only if the collation puts
   different rows in different places.
   */
  lemma OrderIgnoredExactly(rank: Collation, e: Entries)
    requires DistinctIds(e)
    ensures OrderIgnored(rank, e) <==> TiesAreEqual(rank, Rows(e))
  {
    if TiesAreEqual(rank, Rows(e)) {
      forall b | DistinctIds(b) && Rows(b) == Rows(e) ensures ById(rank, b) == ById(rank, e) { SerializedAlike(rank, b, e); }
    } else {
      var j, k :| j in Rows(e) && k in Rows(e) && rank(j) == rank(k) && Rows(e)[j] != Rows(e)[k];
      var one, two := SwappedRows(rank, e, j, k);
      assert ById(rank, one) != ById(rank, e) || ById(rank, two) != ById(rank, e);
    }
  }

  /* ---------- the whole projection ---------- */

  /** The maps of a projection, each with its name. */
  datatype Tables = NoTable | Table(name: Text, rows: Entries, others: Tables)

  function Serialize(rank: Collation, t: Tables): Entries {
    if t.NoTable? then NoEntry else Entry(t.name, ById(rank, t.rows), Serialize(rank, t.others))
  }

  ghost predicate SameTables(rank: Collation, a: Tables, b: Tables) {
    if a.NoTable? then b.NoTable?
    else
      && b.Table? && a.name == b.name && DistinctIds(a.rows) && DistinctIds(b.rows)
      && Rows(a.rows) == Rows(b.rows) && TiesAreEqual(rank, Rows(a.rows)) && SameTables(rank, a.others, b.others)
  }

  lemma {:induction false} SerializesAlike(rank: Collation, a: Tables, b: Tables)
    requires SameTables(rank, a, b)
    ensures Serialize(rank, a) == Serialize(rank, b)
  {
    if a.Table? {
      SerializedAlike(rank, a.rows, b.rows);
      SerializesAlike(rank, a.others, b.others);
    }
  }

  /** The text under the projection digest does not depend on the order in which any map was filled, unless ids tie. */
  lemma DigestIgnoresInsertionOrder(rank: Collation, a: Tables, b: Tables)
    requires SameTables(rank, a, b)
    ensures CanonicalJson(Obj(Serialize(rank, a))) == CanonicalJson(Obj(Serialize(rank, b)))
  {
    SerializesAlike(rank, a, b);
  }
}
