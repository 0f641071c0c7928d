/** Canonical JSON text (`canonical.ts`). */
module Canonical {
  import opened Prelude
  import opened Json

  /* ---------- normalize ---------- */

  /** A property whose value has been normalized, or has thrown. */
  datatype Tried = NoTry | Try(key: Text, outcome: Result<Value>, rest: Tried)

  function Normalize(v: Value): Result<Value> {
    match v
    case Num(n) => if n.NonFinite? then Failure("Canonical JSON cannot contain non-finite numbers") else Success(v)
    case Arr(items) =>
      var done := NormalizeItems(items);
      if done.Failure? then Failure(done.error) else Success(Arr(done.value))
    case Obj(entries) =>
      var done := Collect(SortTried(TryEach(entries)));
      if done.Failure? then Failure(done.error) else Success(Obj(done.value))
    case Undefined => Failure("Canonical JSON cannot contain undefined")
    case Unsupported(_) => Failure("Canonical JSON cannot contain this type")
    case _ => Success(v)
  }

  function NormalizeItems(items: Items): Result<Items> {
    if items.NoItem? then Success(NoItem)
    else
      var first := Normalize(items.first);
      if first.Failure? then Failure(first.error)
      else
        var others := NormalizeItems(items.others);
        if others.Failure? then others else Success(Item(first.value, others.value))
  }

  function TryEach(e: Entries): Tried {
    if e.NoEntry? then NoTry
    else
      Try(e.key, if e.value.Undefined? then Failure("Canonical JSON cannot contain undefined values") else Normalize(e.value), TryEach(e.rest))
  }

  function InsertTried(key: Text, outcome: Result<Value>, t: Tried): Tried {
    if t.NoTry? || Less(key, t.key) then Try(key, outcome, t)
    else Try(t.key, t.outcome, InsertTried(key, outcome, t.rest))
  }

  function SortTried(t: Tried): Tried {
    if t.NoTry? then NoTry else InsertTried(t.key, t.outcome, SortTried(t.rest))
  }

  /** Fill the fresh object key by key; the first property that throws, in key order, ends it. */
  function Collect(t: Tried): Result<Entries> {
    if t.NoTry? then Success(NoEntry)
    else if t.outcome.Failure? then Failure(t.outcome.error)
    else
      var rest := Collect(t.rest);
      if rest.Failure? then rest else Success(Entry(t.key, t.outcome.value, rest.value))
  }

  /* ---------- what can be printed ---------- */

  /** No undefined, no unsupported value and no non-finite number at any depth. */
  predicate Plain(v: Value) {
    match v
    case Num(n) => !n.NonFinite?
    case Arr(items) => PlainItems(items)
    case Obj(entries) => PlainEntries(entries)
    case Undefined => false
    case Unsupported(_) => false
    case _ => true
  }

  predicate PlainItems(items: Items) {
    items.Item? ==> Plain(items.first) && PlainItems(items.others)
  }

  predicate PlainEntries(e: Entries) {
    e.Entry? ==> Plain(e.value) && PlainEntries(e.rest)
  }

  /** What normalize makes of a plain value: the same value with the keys of every object in order. */
  function Ordered(v: Value): Value {
    match v
    case Arr(items) => Arr(OrderedItems(items))
    case Obj(entries) => Obj(Sort(OrderedEntries(entries)))
    case _ => v
  }

  function OrderedItems(items: Items): Items {
    if items.NoItem? then NoItem else Item(Ordered(items.first), OrderedItems(items.others))
  }

  function OrderedEntries(e: Entries): (r: Entries)
    ensures Keys(r) == Keys(e)
  {
    if e.NoEntry? then NoEntry else Entry(e.key, Ordered(e.value), OrderedEntries(e.rest))
  }

  function Trials(e: Entries): Tried {
    if e.NoEntry? then NoTry else Try(e.key, Success(e.value), Trials(e.rest))
  }

  lemma {:induction false} InsertTrials(key: Text, value: Value, e: Entries)
    ensures InsertTried(key, Success(value), Trials(e)) == Trials(Insert(key, value, e))
  {
    if e.Entry? && !Less(key, e.key) { InsertTrials(key, value, e.rest); }
  }

  lemma {:induction false} SortTrials(e: Entries)
    ensures SortTried(Trials(e)) == Trials(Sort(e))
  {
    if e.Entry? {
      SortTrials(e.rest);
      InsertTrials(e.key, e.value, Sort(e.rest));
    }
  }

  lemma {:induction false} CollectTrials(e: Entries)
    ensures Collect(Trials(e)) == Success(e)
  {
    if e.Entry? { CollectTrials(e.rest); }
  }

  predicate Throws(t: Tried) {
    t.Try? && (t.outcome.Failure? || Throws(t.rest))
  }

  lemma {:induction false} InsertThrows(key: Text, outcome: Result<Value>, t: Tried)
    ensures Throws(InsertTried(key, outcome, t)) == (outcome.Failure? || Throws(t))
  {
    if t.Try? && !Less(key, t.key) { InsertThrows(key, outcome, t.rest); }
  }

  lemma {:induction false} SortThrows(t: Tried)
    ensures Throws(SortTried(t)) == Throws(t)
  {
    if t.Try? {
      SortThrows(t.rest);
      InsertThrows(t.key, t.outcome, SortTried(t.rest));
    }
  }

  lemma {:induction false} CollectThrows(t: Tried)
    ensures Collect(t).Failure? == Throws(t)
  {
    if t.Try? { CollectThrows(t.rest); }
  }

  /** Normalizing succeeds exactly on plain values, and then only puts keys in order. */
  lemma {:induction false} NormalizeOrders(v: Value)
    ensures Normalize(v).Success? <==> Plain(v)
    ensures Plain(v) ==> Normalize(v) == Success(Ordered(v))
    decreases v, 0
  {
    match v
    case Arr(items) => NormalizeItemsOrders(items);
    case Obj(entries) =>
      TryEachOrders(entries);
      var t := TryEach(entries);
      SortThrows(t);
      CollectThrows(SortTried(t));
      if Plain(v) {
        SortTrials(OrderedEntries(entries));
        CollectTrials(Sort(OrderedEntries(entries)));
      }
    case _ =>
  }

  lemma {:induction false} NormalizeItemsOrders(items: Items)
    ensures NormalizeItems(items).Success? <==> PlainItems(items)
    ensures PlainItems(items) ==> NormalizeItems(items) == Success(OrderedItems(items))
  {
    if items.Item? {
      NormalizeOrders(items.first);
      NormalizeItemsOrders(items.others);
    }
  }

  lemma {:induction false} TryEachOrders(e: Entries)
    ensures Throws(TryEach(e)) <==> !PlainEntries(e)
    ensures PlainEntries(e) ==> TryEach(e) == Trials(OrderedEntries(e))
  {
    if e.Entry? {
      NormalizeOrders(e.value);
      TryEachOrders(e.rest);
    }
  }

  /* ---------- normalize keeps the meaning ---------- */

  lemma {:induction false} OrderedMeans(v: Value)
    requires Proper(v)
    ensures Meaning(Ordered(v)) == Meaning(v) && Proper(Ordered(v))
  {
    match v
    case Arr(items) => OrderedItemsMean(items);
    case Obj(entries) =>
      OrderedEntriesMean(entries);
      SortAscends(OrderedEntries(entries));
      SortProper(OrderedEntries(entries));
    case _ =>
  }

  lemma {:induction false} OrderedItemsMean(items: Items)
    requires ProperItems(items)
    ensures ItemTrees(OrderedItems(items)) == ItemTrees(items) && ProperItems(OrderedItems(items))
  {
    if items.Item? {
      OrderedMeans(items.first);
      OrderedItemsMean(items.others);
    }
  }

  lemma {:induction false} OrderedEntriesMean(e: Entries)
    requires ProperEntries(e)
    ensures Fields(OrderedEntries(e)) == Fields(e) && ProperEntries(OrderedEntries(e))
  {
    if e.Entry? {
      OrderedMeans(e.value);
      OrderedEntriesMean(e.rest);
    }
  }

  lemma {:induction false} InsertProper(key: Text, value: Value, e: Entries)
    requires ProperEntries(e) && key !in Keys(e) && Proper(value)
    ensures ProperEntries(Insert(key, value, e))
  {
    if e.Entry? && !Less(key, e.key) { InsertProper(key, value, e.rest); }
  }

  lemma {:induction false} SortProper(e: Entries)
    requires ProperEntries(e)
    ensures ProperEntries(Sort(e))
  {
    if e.Entry? {
      SortProper(e.rest);
      InsertProper(e.key, e.value, Sort(e.rest));
    }
  }

  /** A value whose objects have their keys in order at every depth. */
  predicate Tidy(v: Value) {
    match v
    case Arr(items) => TidyItems(items)
    case Obj(entries) => Ascending(entries) && TidyEntries(entries)
    case _ => true
  }

  predicate TidyItems(items: Items) {
    items.Item? ==> Tidy(items.first) && TidyItems(items.others)
  }

  predicate TidyEntries(e: Entries) {
    e.Entry? ==> Tidy(e.value) && TidyEntries(e.rest)
  }

  lemma {:induction false} OrderedIsTidy(v: Value)
    requires Proper(v)
    ensures Tidy(Ordered(v)) && (Plain(v) ==> Plain(Ordered(v)))
  {
    match v
    case Arr(items) => OrderedItemsTidy(items);
    case Obj(entries) =>
      OrderedEntriesMean(entries);
      OrderedEntriesTidy(entries);
      SortAscends(OrderedEntries(entries));
      SortTidy(OrderedEntries(entries));
    case _ =>
  }

  lemma {:induction false} OrderedItemsTidy(items: Items)
    requires ProperItems(items)
    ensures TidyItems(OrderedItems(items)) && (PlainItems(items) ==> PlainItems(OrderedItems(items)))
  {
    if items.Item? {
      OrderedIsTidy(items.first);
      OrderedItemsTidy(items.others);
    }
  }

  lemma {:induction false} OrderedEntriesTidy(e: Entries)
    requires ProperEntries(e)
    ensures TidyEntries(OrderedEntries(e)) && (PlainEntries(e) ==> PlainEntries(OrderedEntries(e)))
  {
    if e.Entry? {
      OrderedIsTidy(e.value);
      OrderedEntriesTidy(e.rest);
    }
  }

  lemma {:induction false} InsertTidy(key: Text, value: Value, e: Entries)
    requires TidyEntries(e) && Tidy(value)
    ensures TidyEntries(Insert(key, value, e)) && (PlainEntries(Insert(key, value, e)) <==> Plain(value) && PlainEntries(e))
  {
    if e.Entry? && !Less(key, e.key) { InsertTidy(key, value, e.rest); }
  }

  lemma {:induction false} SortTidy(e: Entries)
    requires TidyEntries(e)
    ensures TidyEntries(Sort(e)) && (PlainEntries(Sort(e)) <==> PlainEntries(e))
  {
    if e.Entry? {
      SortTidy(e.rest);
      InsertTidy(e.key, e.value, Sort(e.rest));
    }
  }

  lemma {:induction false} TidyIsFixed(v: Value)
    requires Tidy(v)
    ensures Ordered(v) == v
  {
    match v
    case Arr(items) => TidyItemsFixed(items);
    case Obj(entries) =>
      TidyEntriesFixed(entries);
      SortedIsFixed(entries);
    case _ =>
  }

  lemma {:induction false} TidyItemsFixed(items: Items)
    requires TidyItems(items)
    ensures OrderedItems(items) == items
  {
    if items.Item? {
      TidyIsFixed(items.first);
      TidyItemsFixed(items.others);
    }
  }

  lemma {:induction false} TidyEntriesFixed(e: Entries)
    requires TidyEntries(e)
    ensures OrderedEntries(e) == e
  {
    if e.Entry? {
      TidyIsFixed(e.value);
      TidyEntriesFixed(e.rest);
    }
  }

  /** Normalizing keeps the meaning and is idempotent. */
  lemma NormalizeIsIdempotent(v: Value)
    requires Proper(v) && Normalize(v).Success?
    ensures Meaning(Normalize(v).value) == Meaning(v)
    ensures Normalize(Normalize(v).value) == Normalize(v)
  {
    NormalizeOrders(v);
    OrderedMeans(v);
    OrderedIsTidy(v);
    TidyIsFixed(Ordered(v));
    NormalizeOrders(Ordered(v));
  }
}
