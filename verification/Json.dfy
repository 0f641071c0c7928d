/** JavaScript values as canonical.ts sees them, and what they mean when key order is forgotten. */
module Json {

  /** A UTF-16 code unit; strings are sequences of these. */
  type Unit = x: int | 0 <= x < 0x10000

  type Text = seq<Unit>

  predicate IsDigit(u: Unit) {
    0x30 <= u <= 0x39
  }

  /** Characters that occur in the decimal text of a finite number: digits, + - . e */
  predicate IsNumberUnit(u: Unit) {
    IsDigit(u) || u == 0x2b || u == 0x2d || u == 0x2e || u == 0x65
  }

  predicate IsNumberText(t: Text) {
    t != [] && (IsDigit(t[0]) || t[0] == 0x2d) && forall i :: 0 <= i < |t| ==> IsNumberUnit(t[i])
  }

  const Zero: Text := [0x30]

  /** The text `Number::toString` gives a finite number other than negative zero. */
  type NumberText = t: Text | IsNumberText(t) witness Zero

  /** Distinct finite numbers have distinct texts, except that negative zero prints as zero. */
  datatype Number = Finite(text: NumberText) | NegativeZero | NonFinite

  datatype Value =
    | Null
    | Bool(flag: bool)
    | Num(number: Number)
    | Str(text: Text)
    | Arr(items: Items)
    | Obj(entries: Entries)
    | Undefined
    | Unsupported(kind: string)

  datatype Items = NoItem | Item(first: Value, others: Items)

  /** The own enumerable properties in insertion order. */
  datatype Entries = NoEntry | Entry(key: Text, value: Value, rest: Entries)

  function Keys(e: Entries): set<Text> {
    if e.NoEntry? then {} else {e.key} + Keys(e.rest)
  }

  /** An object has each key once; a JavaScript value is built that way at every depth. */
  predicate Proper(v: Value) {
    match v
    case Arr(items) => ProperItems(items)
    case Obj(entries) => ProperEntries(entries)
    case _ => true
  }

  predicate ProperItems(items: Items) {
    items.Item? ==> Proper(items.first) && ProperItems(items.others)
  }

  predicate ProperEntries(e: Entries) {
    e.Entry? ==> e.key !in Keys(e.rest) && Proper(e.value) && ProperEntries(e.rest)
  }

  /* ---------- meaning ---------- */

  datatype Tree =
    | NullTree
    | BoolTree(flag: bool)
    | NumTree(number: Number)
    | StrTree(text: Text)
    | ArrTree(items: seq<Tree>)
    | ObjTree(fields: map<Text, Tree>)
    | NoTree

  function Meaning(v: Value): Tree {
    match v
    case Null => NullTree
    case Bool(b) => BoolTree(b)
    case Num(n) => NumTree(n)
    case Str(s) => StrTree(s)
    case Arr(items) => ArrTree(ItemTrees(items))
    case Obj(entries) => ObjTree(Fields(entries))
    case Undefined => NoTree
    case Unsupported(_) => NoTree
  }

  function ItemTrees(items: Items): seq<Tree> {
    if items.NoItem? then [] else [Meaning(items.first)] + ItemTrees(items.others)
  }

  function Fields(e: Entries): (m: map<Text, Tree>)
    ensures m.Keys == Keys(e)
  {
    if e.NoEntry? then map[] else Fields(e.rest)[e.key := Meaning(e.value)]
  }

  /* ---------- the order `sort()` uses: code unit by code unit ---------- */

  predicate Less(a: Text, b: Text) {
    b != [] && (a == [] || a[0] < b[0] || (a[0] == b[0] && Less(a[1..], b[1..])))
  }

  lemma {:induction false} LessTotal(a: Text, b: Text)
    ensures Less(a, b) || a == b || Less(b, a)
  {
    if a != [] && b != [] && a[0] == b[0] {
      LessTotal(a[1..], b[1..]);
      assert a == [a[0]] + a[1..] && b == [b[0]] + b[1..];
    }
  }

  lemma {:induction false} LessIrreflexive(a: Text)
    ensures !Less(a, a)
  {
    if a != [] { LessIrreflexive(a[1..]); }
  }

  lemma {:induction false} LessTransitive(a: Text, b: Text, c: Text)
    requires Less(a, b) && Less(b, c)
    ensures Less(a, c)
  {
    if a != [] && a[0] == b[0] && b[0] == c[0] { LessTransitive(a[1..], b[1..], c[1..]); }
  }

  /* ---------- sorting properties by key ---------- */

  function Insert(key: Text, value: Value, e: Entries): (r: Entries)
    ensures Keys(r) == Keys(e) + {key}
  {
    if e.NoEntry? || Less(key, e.key) then Entry(key, value, e)
    else Entry(e.key, e.value, Insert(key, value, e.rest))
  }

  function Sort(e: Entries): (r: Entries)
    ensures Keys(r) == Keys(e)
  {
    if e.NoEntry? then NoEntry else Insert(e.key, e.value, Sort(e.rest))
  }

  predicate Below(key: Text, e: Entries) {
    e.Entry? ==> Less(key, e.key) && Below(key, e.rest)
  }

  /** Keys strictly ascend. */
  predicate Ascending(e: Entries) {
    e.Entry? ==> Below(e.key, e.rest) && Ascending(e.rest)
  }

  lemma {:induction false} BelowAll(key: Text, e: Entries, k: Text)
    requires Below(key, e) && k in Keys(e)
    ensures Less(key, k)
  {
    if k != e.key { BelowAll(key, e.rest, k); }
  }

  lemma {:induction false} BelowKeys(key: Text, e: Entries)
    requires forall k :: k in Keys(e) ==> Less(key, k)
    ensures Below(key, e)
  {
    if e.Entry? { BelowKeys(key, e.rest); }
  }

  lemma {:induction false} InsertAscends(key: Text, value: Value, e: Entries)
    requires Ascending(e) && key !in Keys(e)
    ensures Ascending(Insert(key, value, e))
  {
    if e.Entry? {
      LessTotal(key, e.key);
      if Less(key, e.key) {
        forall k | k in Keys(e) ensures Less(key, k) {
          if k != e.key {
            BelowAll(e.key, e.rest, k);
            LessTransitive(key, e.key, k);
          }
        }
        BelowKeys(key, e);
      } else {
        var r := Insert(key, value, e.rest);
        InsertAscends(key, value, e.rest);
        forall k | k in Keys(r) ensures Less(e.key, k) {
          if k != key { BelowAll(e.key, e.rest, k); }
        }
        BelowKeys(e.key, r);
      }
    }
  }

  lemma {:induction false} InsertFields(key: Text, value: Value, e: Entries)
    requires key !in Keys(e)
    ensures Fields(Insert(key, value, e)) == Fields(e)[key := Meaning(value)]
  {
    if e.Entry? && !Less(key, e.key) {
      InsertFields(key, value, e.rest);
      var m: map<Text, Tree> := Fields(e.rest);
      var first: map<Text, Tree> := m[key := Meaning(value)];
      var second: map<Text, Tree> := m[e.key := Meaning(e.value)];
      assert first[e.key := Meaning(e.value)] == second[key := Meaning(value)];
    }
  }

  /** Sorting puts the keys in order and keeps every field. */
  lemma {:induction false} SortAscends(e: Entries)
    requires ProperEntries(e)
    ensures Ascending(Sort(e)) && Fields(Sort(e)) == Fields(e)
  {
    if e.Entry? {
      SortAscends(e.rest);
      InsertAscends(e.key, e.value, Sort(e.rest));
      InsertFields(e.key, e.value, Sort(e.rest));
    }
  }

  lemma {:induction false} SortedIsFixed(e: Entries)
    requires Ascending(e)
    ensures Sort(e) == e
  {
    if e.Entry? { SortedIsFixed(e.rest); }
  }

  /** In an ascending list the first key is the smallest and occurs once. */
  lemma HeadIsLeast(e: Entries, k: Text)
    requires Ascending(e) && e.Entry? && k in Keys(e)
    ensures k == e.key || Less(e.key, k)
    ensures e.key !in Keys(e.rest)
  {
    if k != e.key { BelowAll(e.key, e.rest, k); }
    if e.key in Keys(e.rest) {
      BelowAll(e.key, e.rest, e.key);
      LessIrreflexive(e.key);
    }
  }

  lemma SameHead(a: Entries, b: Entries)
    requires Ascending(a) && Ascending(b) && a.Entry? && Keys(a) == Keys(b)
    ensures b.Entry? && a.key == b.key && Keys(a.rest) == Keys(b.rest)
  {
    assert a.key in Keys(b);
    HeadIsLeast(a, b.key);
    HeadIsLeast(b, a.key);
    if a.key != b.key {
      LessTransitive(a.key, b.key, a.key);
      LessIrreflexive(a.key);
    }
    HeadIsLeast(a, a.key);
    HeadIsLeast(b, b.key);
    assert Keys(a.rest) == Keys(a) - {a.key};
    assert Keys(b.rest) == Keys(b) - {b.key};
  }
}
