/** The first difference between two JSON trees. */
module Difference {
  import opened Prelude
  import opened Json
  import opened Canonical

  datatype Segment = Index(index: nat) | Key(key: Text) | Length

  type Path = seq<Segment>

  /* ---------- looking up ---------- */

  function SizeOf(v: Value): nat {
    match v
    case Arr(items) => 1 + ItemsSize(items)
    case Obj(entries) => 1 + EntriesSize(entries)
    case _ => 0
  }

  function ItemsSize(items: Items): nat {
    if items.NoItem? then 0 else 1 + SizeOf(items.first) + ItemsSize(items.others)
  }

  function EntriesSize(e: Entries): nat {
    if e.NoEntry? then 0 else 1 + SizeOf(e.value) + EntriesSize(e.rest)
  }

  function Count(items: Items): nat {
    if items.NoItem? then 0 else 1 + Count(items.others)
  }

  function Get(e: Entries, k: Text): (v: Value)
    requires k in Keys(e)
    ensures SizeOf(v) < EntriesSize(e)
  {
    if e.key == k then e.value else Get(e.rest, k)
  }

  lemma {:induction false} GetMeans(e: Entries, k: Text)
    requires k in Keys(e)
    ensures Fields(e)[k] == Meaning(Get(e, k))
    ensures ProperEntries(e) ==> Proper(Get(e, k))
    ensures PlainEntries(e) ==> Plain(Get(e, k))
  {
    if e.key != k { GetMeans(e.rest, k); }
  }

  /* ---------- the sorted union of two key sets ---------- */

  predicate SortedKeys(ks: seq<Text>) {
    forall i, j :: 0 <= i < j < |ks| ==> Less(ks[i], ks[j])
  }

  function AddKey(k: Text, ks: seq<Text>): (r: seq<Text>)
    ensures forall x :: x in r <==> x in ks || x == k
  {
    if ks == [] || Less(k, ks[0]) then [k] + ks
    else if k == ks[0] then ks
    else
      var r := [ks[0]] + AddKey(k, ks[1..]);
      assert ks == [ks[0]] + ks[1..];
      r
  }

  function AddKeys(e: Entries, ks: seq<Text>): (r: seq<Text>)
    ensures forall x :: x in r <==> x in ks || x in Keys(e)
  {
    if e.NoEntry? then ks else AddKey(e.key, AddKeys(e.rest, ks))
  }

  lemma {:induction false} AddKeySorts(k: Text, ks: seq<Text>)
    requires SortedKeys(ks)
    ensures SortedKeys(AddKey(k, ks))
  {
    if ks != [] {
      LessTotal(k, ks[0]);
      if Less(k, ks[0]) {
        forall j | 0 <= j < |ks| ensures Less(k, ks[j]) {
          if j > 0 { LessTransitive(k, ks[0], ks[j]); }
        }
      } else if k != ks[0] {
        var r := AddKey(k, ks[1..]);
        AddKeySorts(k, ks[1..]);
        forall j | 0 <= j < |r| ensures Less(ks[0], r[j]) {
          if r[j] != k {
            assert r[j] in ks[1..];
            var i :| 0 <= i < |ks[1..]| && ks[1..][i] == r[j];
            assert r[j] == ks[i + 1];
          }
        }
      }
    }
  }

  lemma {:induction false} AddKeysSorts(e: Entries, ks: seq<Text>)
    requires SortedKeys(ks)
    ensures SortedKeys(AddKeys(e, ks))
  {
    if e.Entry? {
      AddKeysSorts(e.rest, ks);
      AddKeySorts(e.key, AddKeys(e.rest, ks));
    }
  }

  /* ---------- the first difference ---------- */

  function FirstDifference(left: Value, right: Value): Option<Path>
    decreases SizeOf(left), 0
  {
    match (left, right)
    case (Arr(l), Arr(r)) => if Count(l) != Count(r) then Some([Length]) else ItemsDifference(l, r, 0)
    case (Obj(l), Obj(r)) => KeysDifference(AddKeys(l, AddKeys(r, [])), l, r)
    case _ => if left == right then None else Some([])
  }

  function ItemsDifference(l: Items, r: Items, index: nat): Option<Path>
    requires Count(l) == Count(r)
    decreases ItemsSize(l), 0
  {
    if l.NoItem? then None
    else
      var d := FirstDifference(l.first, r.first);
      if d.Some? then Some([Index(index)] + d.value) else ItemsDifference(l.others, r.others, index + 1)
  }

  function KeysDifference(keys: seq<Text>, l: Entries, r: Entries): Option<Path>
    decreases EntriesSize(l), |keys|
  {
    if keys == [] then None
    else if keys[0] !in Keys(l) || keys[0] !in Keys(r) then Some([Key(keys[0])])
    else
      var d := FirstDifference(Get(l, keys[0]), Get(r, keys[0]));
      if d.Some? then Some([Key(keys[0])] + d.value) else KeysDifference(keys[1..], l, r)
  }

  /* ---------- what a first difference is, on trees ---------- */

  ghost predicate AgreeOn(a: map<Text, Tree>, b: map<Text, Tree>, k: Text) {
    (k in a <==> k in b) && (k in a && k in b ==> a[k] == b[k])
  }

  ghost predicate AgreeBelow(a: map<Text, Tree>, b: map<Text, Tree>, k: Text) {
    forall j :: Less(j, k) ==> AgreeOn(a, b, j)
  }

  /** The trees differ at the path, and everything earlier in traversal order is equal. */
  ghost predicate FirstAt(a: Tree, b: Tree, path: Path)
    decreases |path|
  {
    if path == [] then a != b && !(a.ArrTree? && b.ArrTree?) && !(a.ObjTree? && b.ObjTree?)
    else
      match path[0]
      case Length => a.ArrTree? && b.ArrTree? && |a.items| != |b.items| && |path| == 1
      case Index(i) =>
        && a.ArrTree? && b.ArrTree? && |a.items| == |b.items| && i < |a.items|
        && (forall j :: 0 <= j < i ==> a.items[j] == b.items[j])
        && FirstAt(a.items[i], b.items[i], path[1..])
      case Key(k) =>
        && a.ObjTree? && b.ObjTree? && (k in a.fields || k in b.fields) && AgreeBelow(a.fields, b.fields, k)
        && (if k in a.fields && k in b.fields then FirstAt(a.fields[k], b.fields[k], path[1..]) else |path| == 1)
  }

  /** A difference at a path is a difference. */
  lemma {:induction false} DifferentAt(a: Tree, b: Tree, path: Path)
    requires FirstAt(a, b, path)
    ensures a != b
    decreases |path|
  {
    if path != [] {
      match path[0]
      case Length =>
      case Index(i) => DifferentAt(a.items[i], b.items[i], path[1..]);
      case Key(k) => if k in a.fields && k in b.fields { DifferentAt(a.fields[k], b.fields[k], path[1..]); }
    }
  }

  /** Two trees have at most one first difference. */
  lemma {:induction false} FirstIsUnique(a: Tree, b: Tree, p: Path, q: Path)
    requires FirstAt(a, b, p) && FirstAt(a, b, q)
    ensures p == q
    decreases |p|
  {
    if p != [] && q != [] {
      match p[0]
      case Length =>
      case Index(i) =>
        var j := q[0].index;
        DifferentAt(a.items[i], b.items[i], p[1..]);
        DifferentAt(a.items[j], b.items[j], q[1..]);
        FirstIsUnique(a.items[i], b.items[i], p[1..], q[1..]);
        assert p == [p[0]] + p[1..] && q == [q[0]] + q[1..];
      case Key(k) =>
        var j := q[0].key;
        LessTotal(k, j);
        DiffersOn(a, b, p);
        DiffersOn(a, b, q);
        if k in a.fields && k in b.fields { FirstIsUnique(a.fields[k], b.fields[k], p[1..], q[1..]); }
        assert p == [p[0]] + p[1..] && q == [q[0]] + q[1..];
    }
  }

  lemma DiffersOn(a: Tree, b: Tree, path: Path)
    requires FirstAt(a, b, path) && path != [] && path[0].Key?
    ensures !AgreeOn(a.fields, b.fields, path[0].key)
  {
    var k := path[0].key;
    if k in a.fields && k in b.fields { DifferentAt(a.fields[k], b.fields[k], path[1..]); }
  }

  /* ---------- soundness and completeness ---------- */

  /** The result says what it should about two trees. */
  ghost predicate Tells(d: Option<Path>, a: Tree, b: Tree) {
    if d.None? then a == b else FirstAt(a, b, d.value)
  }

  /** The same for two item lists whose first element has the given index. */
  ghost predicate TellsItems(d: Option<Path>, a: seq<Tree>, b: seq<Tree>, index: nat) {
    && |a| == |b|
    && (d.None? ==> a == b)
    && (d.Some? ==>
          && |d.value| > 0 && d.value[0].Index? && index <= d.value[0].index < index + |a|
          && var i := d.value[0].index - index;
          && (forall j :: 0 <= j < i ==> a[j] == b[j]) && FirstAt(a[i], b[i], d.value[1..]))
  }

  lemma {:induction false} DifferenceTells(left: Value, right: Value)
    requires Proper(left) && Proper(right) && Plain(left) && Plain(right)
    ensures Tells(FirstDifference(left, right), Meaning(left), Meaning(right))
    decreases SizeOf(left), 0
  {
    match (left, right)
    case (Arr(l), Arr(r)) =>
      CountTrees(l);
      CountTrees(r);
      if Count(l) == Count(r) { ItemsTell(l, r, 0); }
    case (Obj(l), Obj(r)) =>
      var keys := AddKeys(l, AddKeys(r, []));
      AddKeysSorts(r, []);
      AddKeysSorts(l, AddKeys(r, []));
      KeysTell(keys, l, r);
    case _ =>
  }

  lemma {:induction false} CountTrees(items: Items)
    ensures |ItemTrees(items)| == Count(items)
  {
    if items.Item? { CountTrees(items.others); }
  }

  lemma {:induction false} ItemsTell(l: Items, r: Items, index: nat)
    requires ProperItems(l) && ProperItems(r) && PlainItems(l) && PlainItems(r) && Count(l) == Count(r)
    ensures TellsItems(ItemsDifference(l, r, index), ItemTrees(l), ItemTrees(r), index)
    decreases ItemsSize(l), 0
  {
    CountTrees(l);
    CountTrees(r);
    if l.Item? {
      DifferenceTells(l.first, r.first);
      var d := FirstDifference(l.first, r.first);
      if d.Some? {
        assert ([Index(index)] + d.value)[1..] == d.value;
      } else {
        ItemsTell(l.others, r.others, index + 1);
        TellsLater(ItemsDifference(l.others, r.others, index + 1), Meaning(l.first), ItemTrees(l.others), ItemTrees(r.others), index);
      }
    }
  }

  lemma TellsLater(d: Option<Path>, first: Tree, a: seq<Tree>, b: seq<Tree>, index: nat)
    requires TellsItems(d, a, b, index + 1)
    ensures TellsItems(d, [first] + a, [first] + b, index)
  {
  }

  /** Every key of either object is still to come, or the two agree on it. */
  ghost predicate RestAgrees(keys: seq<Text>, l: Entries, r: Entries) {
    forall k :: k in keys || AgreeOn(Fields(l), Fields(r), k)
  }

  lemma {:induction false} KeysTell(keys: seq<Text>, l: Entries, r: Entries)
    requires ProperEntries(l) && ProperEntries(r) && PlainEntries(l) && PlainEntries(r)
    requires SortedKeys(keys) && RestAgrees(keys, l, r) && forall k :: k in keys ==> k in Keys(l) || k in Keys(r)
    ensures Tells(KeysDifference(keys, l, r), ObjTree(Fields(l)), ObjTree(Fields(r)))
    decreases EntriesSize(l), |keys|
  {
    if keys == [] {
      AgreeEverywhere(Fields(l), Fields(r));
    } else {
      var k := keys[0];
      AgreesBelowFirst(keys, l, r);
      if k in Keys(l) && k in Keys(r) {
        GetMeans(l, k);
        GetMeans(r, k);
        DifferenceTells(Get(l, k), Get(r, k));
        var d := FirstDifference(Get(l, k), Get(r, k));
        if d.Some? {
          assert ([Key(k)] + d.value)[1..] == d.value;
        } else {
          assert AgreeOn(Fields(l), Fields(r), k);
          assert keys == [k] + keys[1..];
          KeysTell(keys[1..], l, r);
        }
      }
    }
  }

  lemma AgreeEverywhere(a: map<Text, Tree>, b: map<Text, Tree>)
    requires forall k :: AgreeOn(a, b, k)
    ensures a == b
  {
    forall k ensures k in a <==> k in b { assert AgreeOn(a, b, k); }
    forall k | k in a ensures a[k] == b[k] { assert AgreeOn(a, b, k); }
  }

  lemma AgreesBelowFirst(keys: seq<Text>, l: Entries, r: Entries)
    requires keys != [] && SortedKeys(keys) && RestAgrees(keys, l, r)
    ensures AgreeBelow(Fields(l), Fields(r), keys[0])
  {
    forall j | Less(j, keys[0]) ensures AgreeOn(Fields(l), Fields(r), j) {
      if j in keys {
        var i :| 0 <= i < |keys| && keys[i] == j;
        if i > 0 { LessTransitive(j, keys[0], j); }
        LessIrreflexive(j);
      }
    }
  }

  /**
   The comparison is sound and complete: it returns nothing exactly when the trees are equal up to key order,
   and otherwise exactly the one path at which they first differ.
   */
  lemma DifferenceIsExact(left: Value, right: Value)
    requires Proper(left) && Proper(right) && Plain(left) && Plain(right)
    ensures FirstDifference(left, right).None? <==> Meaning(left) == Meaning(right)
    ensures forall path :: FirstDifference(left, right) == Some(path) <==> FirstAt(Meaning(left), Meaning(right), path)
  {
    var d, a, b := FirstDifference(left, right), Meaning(left), Meaning(right);
    DifferenceTells(left, right);
    if d.Some? { DifferentAt(a, b, d.value); }
    forall path | FirstAt(a, b, path) ensures d == Some(path) {
      DifferentAt(a, b, path);
      FirstIsUnique(a, b, path, d.value);
    }
  }
}
