/** A table of a projection as the reader sees it: rows in any order, each checked against its digest and filed under its id. */
module TableReader {
  import opened Prelude

  /** One reading loop: each row is checked, then filed under the id its content names. */
  function ReadTable<K(!new), V(!new)>(rows: seq<V>, id: V -> K, ok: (K, V) -> bool): Result<map<K, V>> {
    if rows == [] then Success(map[])
    else
      var last := rows[|rows| - 1];
      var before := ReadTable(rows[..|rows| - 1], id, ok);
      if before.Failure? then before
      else if !ok(id(last), last) then Failure("projection digest does not match its content")
      else Success(before.value[id(last) := last])
  }

  lemma {:induction false} ReadStops<K(!new), V(!new)>(rows: seq<V>, n: int, id: V -> K, ok: (K, V) -> bool)
    requires 0 <= n <= |rows| && ReadTable(rows[..n], id, ok).Failure?
    ensures ReadTable(rows, id, ok) == ReadTable(rows[..n], id, ok)
    decreases |rows|
  {
    if n == |rows| {
      assert rows[..n] == rows;
    } else {
      assert rows[..|rows| - 1][..n] == rows[..n];
      ReadStops(rows[..|rows| - 1], n, id, ok);
    }
  }

  /** The loop itself, giving up at the first row that does not match. */
  method ReadRows<K(!new), V(!new)>(rows: seq<V>, id: V -> K, ok: (K, V) -> bool) returns (r: Result<map<K, V>>)
    ensures r == ReadTable(rows, id, ok)
    ensures r.Success? ==> forall v :: v in rows ==> ok(id(v), v)
  {
    var read: map<K, V> := map[];
    for n := 0 to |rows|
      invariant ReadTable(rows[..n], id, ok) == Success(read)
      invariant forall v :: v in rows[..n] ==> ok(id(v), v)
    {
      assert rows[..n + 1][..n] == rows[..n] && rows[..n + 1] == rows[..n] + [rows[n]];
      if !ok(id(rows[n]), rows[n]) {
        ReadStops(rows, n + 1, id, ok);
        return Failure("projection digest does not match its content");
      }
      read := read[id(rows[n]) := rows[n]];
    }
    assert rows[..|rows|] == rows;
    r := Success(read);
  }

  /** The rows hold exactly the values of the map, in any order. */
  ghost predicate Lists<K(!new), V(!new)>(rows: seq<V>, m: map<K, V>) {
    forall v :: v in rows <==> v in m.Values
  }

  ghost predicate TableOk<K(!new), V(!new)>(m: map<K, V>, id: V -> K, ok: (K, V) -> bool) {
    forall k :: k in m ==> id(m[k]) == k && ok(k, m[k])
  }

  lemma {:induction false} ReadsPrefix<K(!new), V(!new)>(rows: seq<V>, m: map<K, V>, id: V -> K, ok: (K, V) -> bool)
    requires TableOk(m, id, ok) && forall v :: v in rows ==> v in m.Values
    ensures var r := ReadTable(rows, id, ok);
            && r.Success?
            && (forall k :: k in r.value ==> k in m && r.value[k] == m[k])
            && (forall v :: v in rows ==> id(v) in r.value)
  {
    if rows != [] {
      var last := rows[|rows| - 1];
      ReadsPrefix(rows[..|rows| - 1], m, id, ok);
      assert last in rows;
      assert rows == rows[..|rows| - 1] + [last];
    }
  }

  /** A table whose records are in order reads back as it was, whatever order the rows come in. */
  lemma ReadsBack<K(!new), V(!new)>(rows: seq<V>, m: map<K, V>, id: V -> K, ok: (K, V) -> bool)
    requires TableOk(m, id, ok) && Lists(rows, m)
    ensures ReadTable(rows, id, ok) == Success(m)
  {
    ReadsPrefix(rows, m, id, ok);
    var r := ReadTable(rows, id, ok).value;
    forall k | k in m ensures k in r {
      assert m[k] in m.Values;
      assert m[k] in rows;
    }
    assert r == m;
  }

  /** One row that does not match makes the whole reading throw. */
  lemma {:induction false} BadRowStops<K(!new), V(!new)>(rows: seq<V>, id: V -> K, ok: (K, V) -> bool, bad: V)
    requires bad in rows && !ok(id(bad), bad)
    ensures ReadTable(rows, id, ok).Failure?
  {
    var last := rows[|rows| - 1];
    if last != bad {
      assert rows == rows[..|rows| - 1] + [last];
      BadRowStops(rows[..|rows| - 1], id, ok, bad);
    }
  }
}
