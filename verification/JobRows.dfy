/** Ordered dependency lists of jobs as unordered table rows. */
module JobRows {
  import opened Sequences

  type Id = nat

  datatype Row = Row(jobId: Id, dependsOn: Id, ordinal: nat)

  /** The table after all jobs were written: a set, the database keeps no order. */
  ghost predicate Holds(table: set<Row>, jobs: map<Id, seq<Id>>) {
    forall row :: row in table <==> row.jobId in jobs && row.ordinal < |jobs[row.jobId]| && jobs[row.jobId][row.ordinal] == row.dependsOn
  }

  /** The constraints of the table: known jobs, no self-dependency, no pair and no ordinal twice. */
  predicate Admits(table: set<Row>, jobs: map<Id, seq<Id>>, row: Row) {
    && row.jobId in jobs && row.dependsOn in jobs && row.jobId != row.dependsOn
    && forall other :: other in table && other.jobId == row.jobId ==> other.dependsOn != row.dependsOn && other.ordinal != row.ordinal
  }

  /** The list names known other jobs, each once. */
  ghost predicate Proper(jobs: map<Id, seq<Id>>, id: Id, list: seq<Id>) {
    Distinct(list) && id !in list && forall i :: 0 <= i < |list| ==> list[i] in jobs
  }

  ghost predicate RowsOf(table: set<Row>, before: set<Row>, id: Id, list: seq<Id>) {
    forall row :: row in table <==> row in before || (row.jobId == id && row.ordinal < |list| && list[row.ordinal] == row.dependsOn)
  }

  lemma NextRow(table: set<Row>, before: set<Row>, jobs: map<Id, seq<Id>>, id: Id, list: seq<Id>, next: Id)
    requires id in jobs && Proper(jobs, id, list) && RowsOf(table, before, id, list) && forall row :: row in before ==> row.jobId != id
    ensures Admits(table, jobs, Row(id, next, |list|)) <==> Proper(jobs, id, list + [next])
    ensures RowsOf(table + {Row(id, next, |list|)}, before, id, list + [next])
  {
    var row, longer := Row(id, next, |list|), list + [next];
    if next in list {
      var i :| 0 <= i < |list| && list[i] == next;
      assert Row(id, next, i) in table;
      assert longer[i] == longer[|list|];
    }
    if !Proper(jobs, id, longer) && next in jobs && next != id { assert next in list; }
    if Proper(jobs, id, longer) { assert longer[|list|] == next && next in longer; }
  }

  /** Inserting the list of one job: the first row the table refuses makes the whole write throw. */
  method WriteList(table: set<Row>, jobs: map<Id, seq<Id>>, id: Id) returns (ok: bool, next: set<Row>)
    requires id in jobs && forall row :: row in table ==> row.jobId != id
    ensures ok <==> Proper(jobs, id, jobs[id])
    ensures ok ==> RowsOf(next, table, id, jobs[id])
  {
    var list := jobs[id];
    ok, next := true, table;
    for i := 0 to |list|
      invariant ok && Proper(jobs, id, list[..i]) && RowsOf(next, table, id, list[..i])
    {
      assert list[..i + 1] == list[..i] + [list[i]];
      NextRow(next, table, jobs, id, list[..i], list[i]);
      if !Admits(next, jobs, Row(id, list[i], i)) {
        ImproperPrefix(jobs, id, list, i + 1);
        return false, next;
      }
      next := next + {Row(id, list[i], i)};
    }
    assert list[..|list|] == list;
  }

  lemma ImproperPrefix(jobs: map<Id, seq<Id>>, id: Id, list: seq<Id>, n: nat)
    requires n <= |list| && !Proper(jobs, id, list[..n])
    ensures !Proper(jobs, id, list)
  {
    if id in list[..n] {
      var i :| 0 <= i < n && list[..n][i] == id;
      assert list[i] == id;
    }
  }

  /** The insertion loops over jobs and their dependency lists: they throw exactly when some list is not proper. */
  method WriteRows(order: seq<Id>, jobs: map<Id, seq<Id>>) returns (ok: bool, table: set<Row>)
    requires Distinct(order) && forall id :: id in order <==> id in jobs
    ensures ok <==> forall id :: id in jobs ==> Proper(jobs, id, jobs[id])
    ensures ok ==> Holds(table, jobs)
  {
    ok, table := true, {};
    for n := 0 to |order|
      invariant ok && forall i :: 0 <= i < n ==> Proper(jobs, order[i], jobs[order[i]])
      invariant forall row :: row in table <==>
                  row.jobId in order[..n] && row.ordinal < |jobs[row.jobId]| && jobs[row.jobId][row.ordinal] == row.dependsOn
    {
      assert order[n] in order && order[n] !in order[..n];
      ok, table := WriteList(table, jobs, order[n]);
      if !ok { return; }
      assert order[..n + 1] == order[..n] + [order[n]];
    }
    assert order[..|order|] == order;
  }

  /** `ORDER BY job_id, dependency_ordinal`. */
  predicate Precedes(a: Row, b: Row) {
    a.jobId < b.jobId || (a.jobId == b.jobId && a.ordinal < b.ordinal)
  }

  ghost predicate OrderedListing(rows: seq<Row>, table: set<Row>) {
    && (forall row :: row in rows <==> row in table)
    && (forall i, j :: 0 <= i < j < |rows| ==> Precedes(rows[i], rows[j]))
  }

  /** The reading loop: append each row to the list of its job. */
  method ReadRows(rows: seq<Row>) returns (dependencies: map<Id, seq<Id>>)
    ensures forall id :: (if id in dependencies then dependencies[id] else []) == Gathered(rows, id)
  {
    dependencies := map[];
    for n := 0 to |rows|
      invariant forall id :: (if id in dependencies then dependencies[id] else []) == Gathered(rows[..n], id)
    {
      var row := rows[n];
      assert rows[..n + 1][..n] == rows[..n];
      var prior := if row.jobId in dependencies then dependencies[row.jobId] else [];
      dependencies := dependencies[row.jobId := prior + [row.dependsOn]];
    }
    assert rows[..|rows|] == rows;
  }

  function Gathered(rows: seq<Row>, id: Id): seq<Id> {
    if rows == [] then []
    else
      var last := rows[|rows| - 1];
      Gathered(rows[..|rows| - 1], id) + (if last.jobId == id then [last.dependsOn] else [])
  }

  /* ---------- the list comes back ---------- */

  ghost predicate ListedBefore(rows: seq<Row>, n: int, row: Row) {
    exists i :: 0 <= i < n && i < |rows| && rows[i] == row
  }

  /** The first `n` rows hold exactly the first `c` dependencies of the job. */
  ghost predicate Prefix(rows: seq<Row>, n: int, id: Id, d: seq<Id>, c: int) {
    && 0 <= n <= |rows| && 0 <= c <= |d|
    && (forall i :: 0 <= i < n && rows[i].jobId == id ==> rows[i].ordinal < c)
    && (forall o :: 0 <= o < c ==> ListedBefore(rows, n, Row(id, d[o], o)))
    && Gathered(rows[..n], id) == d[..c]
  }

  /** The next row of the job is the next dependency: a smaller ordinal is taken, a larger one would skip a row. */
  lemma NextOrdinal(rows: seq<Row>, table: set<Row>, jobs: map<Id, seq<Id>>, n: int, id: Id, c: int)
    requires OrderedListing(rows, table) && Holds(table, jobs) && id in jobs && Prefix(rows, n, id, jobs[id], c)
    requires n < |rows| && rows[n].jobId == id
    ensures c < |jobs[id]| && rows[n] == Row(id, jobs[id][c], c)
  {
    var d, o := jobs[id], rows[n].ordinal;
    assert rows[n] in rows;
    assert o < c ==> ListedBefore(rows, n, Row(id, d[o], o));
    if o > c { Listed(rows, table, jobs, id, c); }
  }

  /** Every dependency has its row in the listing. */
  lemma Listed(rows: seq<Row>, table: set<Row>, jobs: map<Id, seq<Id>>, id: Id, o: nat)
    requires OrderedListing(rows, table) && Holds(table, jobs) && id in jobs && o < |jobs[id]|
    ensures exists m :: 0 <= m < |rows| && rows[m] == Row(id, jobs[id][o], o)
  {
    assert Row(id, jobs[id][o], o) in table;
  }

  lemma {:induction false} PrefixAt(rows: seq<Row>, table: set<Row>, jobs: map<Id, seq<Id>>, n: int, id: Id) returns (c: int)
    requires OrderedListing(rows, table) && Holds(table, jobs) && id in jobs && 0 <= n <= |rows|
    ensures Prefix(rows, n, id, jobs[id], c)
  {
    if n == 0 {
      c := 0;
    } else {
      var d := jobs[id];
      c := PrefixAt(rows, table, jobs, n - 1, id);
      assert rows[..n][..n - 1] == rows[..n - 1];
      if rows[n - 1].jobId == id {
        NextOrdinal(rows, table, jobs, n - 1, id, c);
        var before := c;
        c := c + 1;
        assert d[..c] == d[..before] + [d[before]];
        forall o | 0 <= o < c ensures ListedBefore(rows, n, Row(id, d[o], o)) {
          if o < before { assert ListedBefore(rows, n - 1, Row(id, d[o], o)); } else { assert rows[n - 1] == Row(id, d[o], o); }
        }
      } else {
        forall o | 0 <= o < c ensures ListedBefore(rows, n, Row(id, d[o], o)) {
          assert ListedBefore(rows, n - 1, Row(id, d[o], o));
        }
      }
    }
  }

  lemma {:induction false} NoRowsNoList(rows: seq<Row>, id: Id)
    requires forall i :: 0 <= i < |rows| ==> rows[i].jobId != id
    ensures Gathered(rows, id) == []
  {
    if rows != [] { NoRowsNoList(rows[..|rows| - 1], id); }
  }

  /** Whatever order the database keeps rows in, reading them ordered by job and ordinal gives back every dependency list. */
  lemma DependenciesRoundTrip(rows: seq<Row>, table: set<Row>, jobs: map<Id, seq<Id>>, id: Id)
    requires OrderedListing(rows, table) && Holds(table, jobs)
    ensures Gathered(rows, id) == if id in jobs then jobs[id] else []
  {
    assert rows[..|rows|] == rows;
    if id in jobs {
      var c := PrefixAt(rows, table, jobs, |rows|, id);
      if c < |jobs[id]| { Listed(rows, table, jobs, id, c); }
    } else {
      forall i | 0 <= i < |rows| ensures rows[i].jobId != id { assert rows[i] in rows; }
      NoRowsNoList(rows, id);
    }
  }
}
