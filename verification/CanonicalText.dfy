/** The text `JSON.stringify` prints, and that it can be read back in one way only. */
module CanonicalText {
  import opened Prelude
  import opened Json
  import opened Canonical

  /* ---------- strings ---------- */

  predicate IsHigh(u: Unit) {
    0xd800 <= u < 0xdc00
  }

  predicate IsLow(u: Unit) {
    0xdc00 <= u < 0xe000
  }

  function Hex(n: int): Unit
    requires 0 <= n < 16
  {
    if n < 10 then 0x30 + n else 0x61 + n - 10
  }

  /** A backslash, u and four lower-case hexadecimal digits. */
  function Escape4(u: Unit): Text {
    [0x5c, 0x75, Hex(u / 16 / 16 / 16), Hex(u / 16 / 16 % 16), Hex(u / 16 % 16), Hex(u % 16)]
  }

  /** The letter of a two-character escape, where there is one. */
  function ShortEscape(u: Unit): Option<Unit> {
    if u == 0x22 then Some(0x22) else if u == 0x5c then Some(0x5c)
    else if u == 0x08 then Some(0x62) else if u == 0x0c then Some(0x66)
    else if u == 0x0a then Some(0x6e) else if u == 0x0d then Some(0x72)
    else if u == 0x09 then Some(0x74) else None
  }

  /** One code unit that is not half of a surrogate pair. */
  function EscapeUnit(u: Unit): (r: Text)
    ensures |r| > 0
  {
    if ShortEscape(u).Some? then [0x5c, ShortEscape(u).value]
    else if u < 0x20 || IsHigh(u) || IsLow(u) then Escape4(u)
    else [u]
  }

  /** How many units of the string the next printed piece stands for: two for a surrogate pair. */
  function Chunk(s: Text): (n: nat)
    requires s != []
    ensures 1 <= n <= |s|
  {
    if |s| > 1 && IsHigh(s[0]) && IsLow(s[1]) then 2 else 1
  }

  function Emit(s: Text): (r: Text)
    requires s != []
    ensures |r| > 0 && r[0] != 0x22
  {
    if Chunk(s) == 2 then s[..2] else EscapeUnit(s[0])
  }

  function Escape(s: Text): Text {
    if s == [] then [] else Emit(s) + Escape(s[Chunk(s)..])
  }

  function Quote(s: Text): (r: Text)
    ensures |r| > 0 && r[0] == 0x22
  {
    [0x22] + Escape(s) + [0x22]
  }

  /* ---------- values ---------- */

  function PrintNumber(n: Number): (r: Text)
    ensures IsNumberText(r)
  {
    match n
    case Finite(text) => text
    case NegativeZero => Zero
    case NonFinite => Zero
  }

  const NullText: Text := [0x6e, 0x75, 0x6c, 0x6c]
  const TrueText: Text := [0x74, 0x72, 0x75, 0x65]
  const FalseText: Text := [0x66, 0x61, 0x6c, 0x73, 0x65]

  /** `JSON.stringify` of a plain value. */
  function Print(v: Value): (r: Text)
    ensures |r| > 0
  {
    match v
    case Null => NullText
    case Bool(b) => if b then TrueText else FalseText
    case Num(n) => PrintNumber(n)
    case Str(s) => Quote(s)
    case Arr(items) => [0x5b] + (PrintItems(items) + [0x5d])
    case Obj(entries) => [0x7b] + (PrintEntries(entries) + [0x7d])
    case Undefined => NullText
    case Unsupported(_) => NullText
  }

  function PrintItems(items: Items): Text {
    if items.NoItem? then []
    else if items.others.NoItem? then Print(items.first)
    else Print(items.first) + ([0x2c] + PrintItems(items.others))
  }

  function PrintEntries(e: Entries): Text {
    if e.NoEntry? then []
    else if e.rest.NoEntry? then Quote(e.key) + ([0x3a] + Print(e.value))
    else Quote(e.key) + ([0x3a] + (Print(e.value) + ([0x2c] + PrintEntries(e.rest))))
  }

  function CanonicalJson(v: Value): Result<Text> {
    var n := Normalize(v);
    if n.Failure? then Failure(n.error) else Success(Print(n.value))
  }

  /* ---------- reading back: strings ---------- */

  lemma Cancel(p: Text, x: Text, y: Text)
    requires p + x == p + y
    ensures x == y
  {
    assert x == (p + x)[|p|..];
    assert y == (p + y)[|p|..];
  }

  lemma HexInjective(m: int, n: int)
    requires 0 <= m < 16 && 0 <= n < 16 && Hex(m) == Hex(n)
    ensures m == n
  {
  }

  lemma SameDivision(m: int, n: int)
    requires m / 16 == n / 16 && m % 16 == n % 16
    ensures m == n
  {
  }

  lemma Escape4Injective(u: Unit, w: Unit)
    requires Escape4(u) == Escape4(w)
    ensures u == w
  {
    var a, b := Escape4(u), Escape4(w);
    assert a[2] == b[2] && a[3] == b[3] && a[4] == b[4] && a[5] == b[5];
    HexInjective(u / 16 / 16 / 16, w / 16 / 16 / 16);
    HexInjective(u / 16 / 16 % 16, w / 16 / 16 % 16);
    SameDivision(u / 16 / 16, w / 16 / 16);
    HexInjective(u / 16 % 16, w / 16 % 16);
    SameDivision(u / 16, w / 16);
    HexInjective(u % 16, w % 16);
    SameDivision(u, w);
  }

  /** The first two characters tell how long the escape is. */
  lemma EscapeUnitLength(u: Unit, w: Unit, p: Text, q: Text)
    requires EscapeUnit(u) + p == EscapeUnit(w) + q
    ensures |EscapeUnit(u)| == |EscapeUnit(w)|
  {
    var a, b := EscapeUnit(u), EscapeUnit(w);
    assert (a + p)[0] == a[0] && (b + q)[0] == b[0];
    assert |a| > 1 ==> (a + p)[1] == a[1];
    assert |b| > 1 ==> (b + q)[1] == b[1];
  }

  lemma SamePrefix(a: Text, b: Text, p: Text, q: Text)
    requires a + p == b + q && |a| == |b|
    ensures a == b && p == q
  {
    assert a == (a + p)[..|a|] && b == (b + q)[..|b|];
    assert p == (a + p)[|a|..] && q == (b + q)[|b|..];
  }

  lemma EscapeUnitInjective(u: Unit, w: Unit)
    requires EscapeUnit(u) == EscapeUnit(w)
    ensures u == w
  {
    var a, b := EscapeUnit(u), EscapeUnit(w);
    assert a[0] == b[0];
    if |a| == 6 {
      Escape4Injective(u, w);
    } else if |a| == 2 {
      assert a[1] == b[1];
    }
  }

  lemma EscapeUnitReads(u: Unit, w: Unit, p: Text, q: Text)
    requires EscapeUnit(u) + p == EscapeUnit(w) + q
    ensures u == w && p == q
  {
    EscapeUnitLength(u, w, p, q);
    SamePrefix(EscapeUnit(u), EscapeUnit(w), p, q);
    EscapeUnitInjective(u, w);
  }

  lemma EmitReads(s: Text, t: Text, p: Text, q: Text)
    requires s != [] && t != [] && Emit(s) + p == Emit(t) + q
    ensures Chunk(s) == Chunk(t) && s[..Chunk(s)] == t[..Chunk(t)] && p == q
  {
    var a, b := Emit(s), Emit(t);
    assert (a + p)[0] == a[0] && (b + q)[0] == b[0];
    if Chunk(s) == 2 && Chunk(t) == 2 {
      assert (a + p)[1] == a[1] && (b + q)[1] == b[1];
      assert a == b;
      Cancel(a, p, q);
    } else if Chunk(s) == 1 && Chunk(t) == 1 {
      EscapeUnitReads(s[0], t[0], p, q);
    }
  }

  lemma EscapeFirst(s: Text, x: Text)
    ensures (Escape(s) + ([0x22] + x))[0] == 0x22 <==> s == []
  {
    if s == [] {
      assert Escape(s) + ([0x22] + x) == [0x22] + x;
    } else {
      assert (Escape(s) + ([0x22] + x))[0] == Emit(s)[0];
    }
  }

  lemma EscapeSplit(s: Text, p: Text)
    requires s != []
    ensures Escape(s) + p == Emit(s) + (Escape(s[Chunk(s)..]) + p)
  {
  }

  /** The closing quote is found in one way only. */
  lemma {:induction false} EscapeReads(s: Text, t: Text, x: Text, y: Text)
    requires Escape(s) + ([0x22] + x) == Escape(t) + ([0x22] + y)
    ensures s == t && x == y
    decreases |s|
  {
    var p, q := [0x22] + x, [0x22] + y;
    EscapeFirst(s, x);
    EscapeFirst(t, y);
    if s == [] {
      assert Escape(s) + p == p && Escape(t) + q == q;
      Cancel([0x22], x, y);
    } else {
      var s1, t1 := s[Chunk(s)..], t[Chunk(t)..];
      EscapeSplit(s, p);
      EscapeSplit(t, q);
      EmitReads(s, t, Escape(s1) + p, Escape(t1) + q);
      EscapeReads(s1, t1, x, y);
      assert s == s[..Chunk(s)] + s1 && t == t[..Chunk(t)] + t1;
    }
  }

  lemma QuoteSplit(s: Text, x: Text)
    ensures Quote(s) + x == [0x22] + (Escape(s) + ([0x22] + x))
  {
  }

  lemma QuoteReads(s: Text, t: Text, x: Text, y: Text)
    requires Quote(s) + x == Quote(t) + y
    ensures s == t && x == y
  {
    QuoteSplit(s, x);
    QuoteSplit(t, y);
    Cancel([0x22], Escape(s) + ([0x22] + x), Escape(t) + ([0x22] + y));
    EscapeReads(s, t, x, y);
  }

  /* ---------- reading back: numbers ---------- */

  /** Nothing that could extend a number follows. */
  predicate Stops(x: Text) {
    x == [] || !IsNumberUnit(x[0])
  }

  lemma NotShorter(a: Text, b: Text, x: Text, y: Text)
    requires IsNumberText(b) && Stops(x) && a + x == b + y
    ensures |a| >= |b|
  {
    var t := a + x;
    assert forall i :: 0 <= i < |b| ==> t[i] == b[i];
    assert |x| > 0 ==> t[|a|] == x[0];
  }

  lemma NumberReads(a: Text, b: Text, x: Text, y: Text)
    requires IsNumberText(a) && IsNumberText(b) && Stops(x) && Stops(y) && a + x == b + y
    ensures a == b && x == y
  {
    NotShorter(a, b, x, y);
    NotShorter(b, a, y, x);
    SamePrefix(a, b, x, y);
  }

  /* ---------- reading back: values ---------- */

  /** Plain and without negative zero: what a JSON text can tell apart. */
  predicate Readable(v: Value) {
    match v
    case Num(n) => n.Finite?
    case Arr(items) => ReadableItems(items)
    case Obj(entries) => ReadableEntries(entries)
    case Undefined => false
    case Unsupported(_) => false
    case _ => true
  }

  predicate ReadableItems(items: Items) {
    items.Item? ==> Readable(items.first) && ReadableItems(items.others)
  }

  predicate ReadableEntries(e: Entries) {
    e.Entry? ==> Readable(e.value) && ReadableEntries(e.rest)
  }

  /** The first character of a printed value gives its kind away. */
  function Kind(u: Unit): int {
    if u == 0x6e then 0 else if u == 0x74 then 1 else if u == 0x66 then 2 else if u == 0x22 then 3
    else if u == 0x5b then 4 else if u == 0x7b then 5 else 6
  }

  function KindOf(v: Value): int {
    match v
    case Null => 0
    case Bool(b) => if b then 1 else 2
    case Num(_) => 6
    case Str(_) => 3
    case Arr(_) => 4
    case Obj(_) => 5
    case Undefined => 0
    case Unsupported(_) => 0
  }

  lemma FirstTells(v: Value)
    ensures Kind(Print(v)[0]) == KindOf(v)
    ensures Print(v)[0] != 0x5d && Print(v)[0] != 0x2c && Print(v)[0] != 0x7d
  {
  }

  lemma SameKind(a: Value, b: Value, x: Text, y: Text)
    requires Print(a) + x == Print(b) + y
    ensures KindOf(a) == KindOf(b)
  {
    FirstTells(a);
    FirstTells(b);
    assert (Print(a) + x)[0] == Print(a)[0] && (Print(b) + y)[0] == Print(b)[0];
  }

  lemma Bracketed(open: Unit, inside: Text, close: Unit, x: Text)
    ensures [open] + (inside + [close]) + x == [open] + (inside + ([close] + x))
  {
  }

  /** A printed value can be read back in one way only, whatever follows it. */
  lemma {:induction false} PrintReads(a: Value, b: Value, x: Text, y: Text)
    requires Readable(a) && Readable(b) && Stops(x) && Stops(y) && Print(a) + x == Print(b) + y
    ensures a == b && x == y
    decreases a
  {
    SameKind(a, b, x, y);
    match a
    case Null => Cancel(NullText, x, y);
    case Bool(flag) => Cancel(Print(a), x, y);
    case Num(n) => NumberReads(PrintNumber(n), PrintNumber(b.number), x, y);
    case Str(s) => QuoteReads(s, b.text, x, y);
    case Arr(items) =>
      Bracketed(0x5b, PrintItems(items), 0x5d, x);
      Bracketed(0x5b, PrintItems(b.items), 0x5d, y);
      Cancel([0x5b], PrintItems(items) + ([0x5d] + x), PrintItems(b.items) + ([0x5d] + y));
      ItemsRead(items, b.items, x, y);
    case Obj(entries) =>
      Bracketed(0x7b, PrintEntries(entries), 0x7d, x);
      Bracketed(0x7b, PrintEntries(b.entries), 0x7d, y);
      Cancel([0x7b], PrintEntries(entries) + ([0x7d] + x), PrintEntries(b.entries) + ([0x7d] + y));
      EntriesRead(entries, b.entries, x, y);
  }

  /** What follows the first element: a comma and the others, or the closing bracket. */
  function AfterItem(others: Items, x: Text): (r: Text)
    ensures r != [] && Stops(r)
  {
    if others.NoItem? then [0x5d] + x else [0x2c] + (PrintItems(others) + ([0x5d] + x))
  }

  lemma ItemsSplit(items: Items, x: Text)
    requires items.Item?
    ensures PrintItems(items) + ([0x5d] + x) == Print(items.first) + AfterItem(items.others, x)
  {
  }

  lemma ItemsFirst(items: Items, x: Text)
    ensures (PrintItems(items) + ([0x5d] + x))[0] == 0x5d <==> items.NoItem?
  {
    if items.NoItem? {
      assert PrintItems(items) + ([0x5d] + x) == [0x5d] + x;
    } else {
      ItemsSplit(items, x);
      FirstTells(items.first);
    }
  }

  lemma {:induction false} ItemsRead(a: Items, b: Items, x: Text, y: Text)
    requires ReadableItems(a) && ReadableItems(b) && PrintItems(a) + ([0x5d] + x) == PrintItems(b) + ([0x5d] + y)
    ensures a == b && x == y
    decreases a
  {
    ItemsFirst(a, x);
    ItemsFirst(b, y);
    if a.Item? {
      ItemsSplit(a, x);
      ItemsSplit(b, y);
      PrintReads(a.first, b.first, AfterItem(a.others, x), AfterItem(b.others, y));
      assert AfterItem(a.others, x)[0] == AfterItem(b.others, y)[0];
      if a.others.NoItem? {
        Cancel([0x5d], x, y);
      } else {
        Cancel([0x2c], PrintItems(a.others) + ([0x5d] + x), PrintItems(b.others) + ([0x5d] + y));
        ItemsRead(a.others, b.others, x, y);
      }
    } else {
      assert PrintItems(a) + ([0x5d] + x) == [0x5d] + x && PrintItems(b) + ([0x5d] + y) == [0x5d] + y;
      Cancel([0x5d], x, y);
    }
  }

  function AfterEntry(rest: Entries, x: Text): (r: Text)
    ensures r != [] && Stops(r)
  {
    if rest.NoEntry? then [0x7d] + x else [0x2c] + (PrintEntries(rest) + ([0x7d] + x))
  }

  lemma EntriesSplit(e: Entries, x: Text)
    requires e.Entry?
    ensures PrintEntries(e) + ([0x7d] + x) == Quote(e.key) + ([0x3a] + (Print(e.value) + AfterEntry(e.rest, x)))
  {
  }

  lemma EntriesFirst(e: Entries, x: Text)
    ensures (PrintEntries(e) + ([0x7d] + x))[0] == 0x7d <==> e.NoEntry?
  {
    if e.NoEntry? {
      assert PrintEntries(e) + ([0x7d] + x) == [0x7d] + x;
    } else {
      EntriesSplit(e, x);
    }
  }

  lemma {:induction false} EntriesRead(a: Entries, b: Entries, x: Text, y: Text)
    requires ReadableEntries(a) && ReadableEntries(b) && PrintEntries(a) + ([0x7d] + x) == PrintEntries(b) + ([0x7d] + y)
    ensures a == b && x == y
    decreases a
  {
    EntriesFirst(a, x);
    EntriesFirst(b, y);
    if a.Entry? {
      EntriesSplit(a, x);
      EntriesSplit(b, y);
      var p, q := Print(a.value) + AfterEntry(a.rest, x), Print(b.value) + AfterEntry(b.rest, y);
      QuoteReads(a.key, b.key, [0x3a] + p, [0x3a] + q);
      Cancel([0x3a], p, q);
      PrintReads(a.value, b.value, AfterEntry(a.rest, x), AfterEntry(b.rest, y));
      assert AfterEntry(a.rest, x)[0] == AfterEntry(b.rest, y)[0];
      if a.rest.NoEntry? {
        Cancel([0x7d], x, y);
      } else {
        Cancel([0x2c], PrintEntries(a.rest) + ([0x7d] + x), PrintEntries(b.rest) + ([0x7d] + y));
        EntriesRead(a.rest, b.rest, x, y);
      }
    } else {
      assert PrintEntries(a) + ([0x7d] + x) == [0x7d] + x && PrintEntries(b) + ([0x7d] + y) == [0x7d] + y;
      Cancel([0x7d], x, y);
    }
  }

  /* ---------- negative zero ---------- */

  /** The value with every negative zero replaced by zero. */
  function PlusZero(v: Value): Value {
    match v
    case Num(n) => if n.NegativeZero? then Num(Finite(Zero)) else v
    case Arr(items) => Arr(PlusZeroItems(items))
    case Obj(entries) => Obj(PlusZeroEntries(entries))
    case _ => v
  }

  function PlusZeroItems(items: Items): Items {
    if items.NoItem? then NoItem else Item(PlusZero(items.first), PlusZeroItems(items.others))
  }

  function PlusZeroEntries(e: Entries): (r: Entries)
    ensures Keys(r) == Keys(e)
  {
    if e.NoEntry? then NoEntry else Entry(e.key, PlusZero(e.value), PlusZeroEntries(e.rest))
  }

  lemma {:induction false} PlusZeroPrints(v: Value)
    ensures Print(PlusZero(v)) == Print(v) && (Plain(v) ==> Readable(PlusZero(v)))
  {
    match v
    case Arr(items) => PlusZeroItemsPrint(items);
    case Obj(entries) => PlusZeroEntriesPrint(entries);
    case _ =>
  }

  lemma {:induction false} PlusZeroItemsPrint(items: Items)
    ensures PrintItems(PlusZeroItems(items)) == PrintItems(items) && (PlainItems(items) ==> ReadableItems(PlusZeroItems(items)))
  {
    if items.Item? {
      PlusZeroPrints(items.first);
      PlusZeroItemsPrint(items.others);
    }
  }

  lemma {:induction false} PlusZeroEntriesPrint(e: Entries)
    ensures PrintEntries(PlusZeroEntries(e)) == PrintEntries(e) && (PlainEntries(e) ==> ReadableEntries(PlusZeroEntries(e)))
  {
    if e.Entry? {
      PlusZeroPrints(e.value);
      PlusZeroEntriesPrint(e.rest);
    }
  }

  lemma {:induction false} PlusZeroOrders(v: Value)
    ensures PlusZero(Ordered(v)) == Ordered(PlusZero(v))
    ensures Proper(v) ==> Proper(PlusZero(v))
    ensures Plain(v) ==> Plain(PlusZero(v))
  {
    match v
    case Arr(items) => PlusZeroItemsOrder(items);
    case Obj(entries) =>
      PlusZeroEntriesOrder(entries);
      PlusZeroSorts(OrderedEntries(entries));
    case _ =>
  }

  lemma {:induction false} PlusZeroItemsOrder(items: Items)
    ensures PlusZeroItems(OrderedItems(items)) == OrderedItems(PlusZeroItems(items))
    ensures ProperItems(items) ==> ProperItems(PlusZeroItems(items))
    ensures PlainItems(items) ==> PlainItems(PlusZeroItems(items))
  {
    if items.Item? {
      PlusZeroOrders(items.first);
      PlusZeroItemsOrder(items.others);
    }
  }

  lemma {:induction false} PlusZeroEntriesOrder(e: Entries)
    ensures PlusZeroEntries(OrderedEntries(e)) == OrderedEntries(PlusZeroEntries(e))
    ensures ProperEntries(e) ==> ProperEntries(PlusZeroEntries(e))
    ensures PlainEntries(e) ==> PlainEntries(PlusZeroEntries(e))
  {
    if e.Entry? {
      PlusZeroOrders(e.value);
      PlusZeroEntriesOrder(e.rest);
    }
  }

  lemma {:induction false} PlusZeroInserts(key: Text, value: Value, e: Entries)
    ensures PlusZeroEntries(Insert(key, value, e)) == Insert(key, PlusZero(value), PlusZeroEntries(e))
  {
    if e.Entry? && !Less(key, e.key) { PlusZeroInserts(key, value, e.rest); }
  }

  lemma {:induction false} PlusZeroSorts(e: Entries)
    ensures PlusZeroEntries(Sort(e)) == Sort(PlusZeroEntries(e))
  {
    if e.Entry? {
      PlusZeroSorts(e.rest);
      PlusZeroInserts(e.key, e.value, Sort(e.rest));
    }
  }

  /* ---------- one tidy value per meaning ---------- */

  lemma {:induction false} TidyUnique(a: Value, b: Value)
    requires Tidy(a) && Tidy(b) && Plain(a) && Plain(b) && Meaning(a) == Meaning(b)
    ensures a == b
  {
    match a
    case Arr(items) => TidyItemsUnique(items, b.items);
    case Obj(entries) => TidyEntriesUnique(entries, b.entries);
    case _ =>
  }

  lemma {:induction false} TidyItemsUnique(a: Items, b: Items)
    requires TidyItems(a) && TidyItems(b) && PlainItems(a) && PlainItems(b) && ItemTrees(a) == ItemTrees(b)
    ensures a == b
  {
    if a.Item? {
      assert b.Item?;
      assert ItemTrees(a)[0] == Meaning(a.first) && ItemTrees(b)[0] == Meaning(b.first);
      assert ItemTrees(a)[1..] == ItemTrees(a.others) && ItemTrees(b)[1..] == ItemTrees(b.others);
      TidyUnique(a.first, b.first);
      TidyItemsUnique(a.others, b.others);
    }
  }

  lemma FieldsTail(e: Entries)
    requires Ascending(e) && e.Entry?
    ensures Fields(e.rest) == Fields(e) - {e.key} && Fields(e)[e.key] == Meaning(e.value)
  {
    HeadIsLeast(e, e.key);
  }

  lemma {:induction false} TidyEntriesUnique(a: Entries, b: Entries)
    requires Ascending(a) && Ascending(b) && TidyEntries(a) && TidyEntries(b) && PlainEntries(a) && PlainEntries(b) && Fields(a) == Fields(b)
    ensures a == b
  {
    assert Keys(a) == Fields(a).Keys == Keys(b);
    if a.Entry? {
      SameHead(a, b);
      FieldsTail(a);
      FieldsTail(b);
      TidyUnique(a.value, b.value);
      TidyEntriesUnique(a.rest, b.rest);
    }
  }

  /* ---------- main results ---------- */

  /** Values that mean the same, up to the sign of zero, print the same: key order never matters. */
  lemma SameMeaningSameText(a: Value, b: Value)
    requires Proper(a) && Proper(b) && Plain(a) && Plain(b) && Meaning(PlusZero(a)) == Meaning(PlusZero(b))
    ensures CanonicalJson(a) == CanonicalJson(b)
  {
    var p, q := PlusZero(a), PlusZero(b);
    PlusZeroOrders(a);
    PlusZeroOrders(b);
    OrderedMeans(p);
    OrderedMeans(q);
    OrderedIsTidy(p);
    OrderedIsTidy(q);
    TidyUnique(Ordered(p), Ordered(q));
    NormalizeOrders(a);
    NormalizeOrders(b);
    PlusZeroPrints(Ordered(a));
    PlusZeroPrints(Ordered(b));
  }

  lemma SameTextSameMeaning(a: Value, b: Value)
    requires Proper(a) && Proper(b) && Plain(a) && Plain(b) && CanonicalJson(a) == CanonicalJson(b)
    ensures Meaning(PlusZero(a)) == Meaning(PlusZero(b))
  {
    NormalizeOrders(a);
    NormalizeOrders(b);
    OrderedIsTidy(a);
    OrderedIsTidy(b);
    PlusZeroPrints(Ordered(a));
    PlusZeroPrints(Ordered(b));
    var p, q := PlusZero(Ordered(a)), PlusZero(Ordered(b));
    assert Print(p) + [] == Print(p) && Print(q) + [] == Print(q);
    PrintReads(p, q, [], []);
    PlusZeroOrders(a);
    PlusZeroOrders(b);
    OrderedMeans(PlusZero(a));
    OrderedMeans(PlusZero(b));
  }

  /**
   Canonical text is a true canonical form: defined exactly on plain values, and equal exactly when the two
   values are equal up to key order and the sign of zero.
   */
  lemma CanonicalForm(a: Value, b: Value)
    requires Proper(a) && Proper(b)
    ensures CanonicalJson(a).Success? <==> Plain(a)
    ensures Plain(a) && Plain(b) ==> (CanonicalJson(a) == CanonicalJson(b) <==> Meaning(PlusZero(a)) == Meaning(PlusZero(b)))
  {
    NormalizeOrders(a);
    if Plain(a) && Plain(b) {
      if CanonicalJson(a) == CanonicalJson(b) { SameTextSameMeaning(a, b); }
      if Meaning(PlusZero(a)) == Meaning(PlusZero(b)) { SameMeaningSameText(a, b); }
    }
  }

  /** The sign of zero is lost: two numbers that differ print the same. */
  lemma NegativeZeroPrintsAsZero()
    ensures CanonicalJson(Num(NegativeZero)) == CanonicalJson(Num(Finite(Zero)))
    ensures Meaning(Num(NegativeZero)) != Meaning(Num(Finite(Zero)))
  {
  }

  lemma {:induction false} ReadableHasNoNegativeZero(v: Value)
    requires Readable(v)
    ensures PlusZero(v) == v && Plain(v)
  {
    match v
    case Arr(items) => ReadableItemsSame(items);
    case Obj(entries) => ReadableEntriesSame(entries);
    case _ =>
  }

  lemma {:induction false} ReadableItemsSame(items: Items)
    requires ReadableItems(items)
    ensures PlusZeroItems(items) == items && PlainItems(items)
  {
    if items.Item? {
      ReadableHasNoNegativeZero(items.first);
      ReadableItemsSame(items.others);
    }
  }

  lemma {:induction false} ReadableEntriesSame(e: Entries)
    requires ReadableEntries(e)
    ensures PlusZeroEntries(e) == e && PlainEntries(e)
  {
    if e.Entry? {
      ReadableHasNoNegativeZero(e.value);
      ReadableEntriesSame(e.rest);
    }
  }

  /** Without negative zeros the text decides equality up to key order exactly. */
  lemma CanonicalFormWithoutNegativeZero(a: Value, b: Value)
    requires Proper(a) && Proper(b) && Readable(a) && Readable(b)
    ensures CanonicalJson(a) == CanonicalJson(b) <==> Meaning(a) == Meaning(b)
  {
    ReadableHasNoNegativeZero(a);
    ReadableHasNoNegativeZero(b);
    CanonicalForm(a, b);
  }
}
