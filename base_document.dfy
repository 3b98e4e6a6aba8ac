/**
 * `BaseDocument.save`: a document without an id draws one from the counter
 * named by its `meta['collection']`, or by its lower-cased class name, and is
 * then written. A document that already has an id keeps it and draws nothing.
 */
module BaseDocument {
  import opened Wrappers
  import Text
  import opened Counters

  /** `meta.get('collection', cls.__name__.lower())`. */
  function CounterName(metaCollection: Option<string>, className: string): (name: string)
    ensures metaCollection.Some? ==> name == metaCollection.value
    ensures metaCollection.None? ==> |name| == |className|
    ensures metaCollection.None? ==> forall i | 0 <= i < |name| ::
      !('A' <= name[i] <= 'Z') && (('A' <= className[i] <= 'Z') || name[i] == className[i])
  {
    metaCollection.GetOr(Text.Lower(className))
  }

  /** The documents the database has written, by id, in order. */
  class Database {
    var written: seq<int>

    constructor ()
      ensures written == []
    {
      written := [];
    }
  }

  class Document {
    var id: Option<int>
    const className: string
    const metaCollection: Option<string>

    constructor (className: string, metaCollection: Option<string>, id: Option<int>)
      ensures this.className == className && this.metaCollection == metaCollection && this.id == id
    {
      this.className := className;
      this.metaCollection := metaCollection;
      this.id := id;
    }

    /** `save()`: assign an id only when there is none, then write the document. */
    method Save(store: CounterStore, db: Database)
      modifies this, store, db
      ensures old(id).Some? ==> id == old(id)
      ensures old(id).Some? ==> store.counters == old(store.counters) && store.allocations == old(store.allocations)
      ensures old(id).None? ==> id == Some(NextId(old(store.counters), CounterKey(CounterName(metaCollection, className))))
      ensures old(id).None? ==>
        && store.counters == old(store.counters)[CounterKey(CounterName(metaCollection, className)) := id.value]
        && store.allocations == old(store.allocations) + 1
      ensures id.Some? && db.written == old(db.written) + [id.value]
    {
      if id.None? {
        var name := CounterName(metaCollection, className);
        var next := store.GetNextSequence(name);
        id := Some(next);
      }
      db.written := db.written + [id.value];
    }
  }

  /** The model classes whose counters the seeding script creates, in its order, after `User`. */
  const SeededClasses: seq<string> := [
    "Product", "Category", "Sale", "StockBatch", "ProductLog", "APIActivityLog", "RetailerMetrics", "SaleItem"
  ]

  /** The counter each seeded class draws from is the script's entry for it. */
  lemma SeededClassKeys()
    ensures CounterKey(CounterName(None, "User")) == InitialCounters[0].0
    ensures |SeededClasses| == |InitialCounters| - 1
    ensures forall i | 0 <= i < |SeededClasses| :: CounterKey(CounterName(None, SeededClasses[i])) == InitialCounters[i + 1].0
  {
    LowerIs("User", "user");
    LowerIs("Product", "product");
    LowerIs("Category", "category");
    LowerIs("Sale", "sale");
    LowerIs("StockBatch", "stockbatch");
    LowerIs("ProductLog", "productlog");
    LowerIs("APIActivityLog", "apiactivitylog");
    LowerIs("RetailerMetrics", "retailermetrics");
    LowerIs("SaleItem", "saleitem");
  }

  /** `Text.Lower(s)` on a concrete text, character by character. */
  lemma LowerIs(s: string, t: string)
    requires |s| == |t| && forall i | 0 <= i < |s| :: Text.LowerChar(s[i]) == t[i]
    ensures Text.Lower(s) == t
  {
  }

  /**
   * On a store without the seeded counters, after the seeding script the
   * first `User` saved without an id gets 1001, and the first document of
   * each other seeded class gets 1 (no `meta['collection']` set).
   */
  lemma FirstSavedIdsAfterSeeding(counters: map<string, int>)
    requires forall i | 0 <= i < |InitialCounters| :: InitialCounters[i].0 !in counters
    ensures NextId(Seeded(counters, InitialCounters), CounterKey(CounterName(None, "User"))) == 1001
    ensures forall i | 0 <= i < |SeededClasses| ::
      NextId(Seeded(counters, InitialCounters), CounterKey(CounterName(None, SeededClasses[i]))) == 1
  {
    FirstIdsAfterSeeding(counters);
    SeededClassKeys();
  }
}
