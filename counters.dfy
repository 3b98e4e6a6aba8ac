/**
 * The `counters` collection that hands out integer ids, and the one-time
 * script that seeds it. A counter document `{"_id": name, "seq": n}` is the
 * entry `name := n` of a map. `get_next_sequence` lives in a module that is
 * not part of this model; it is modelled as "the counter of `name` is the
 * document `name + "_id"`; a missing counter counts as 0; add one, store and
 * return the new value".
 */
module Counters {

  /**
   * The counter document `get_next_sequence(name)` draws from. The seeding
   * script's keys are collection names followed by "_id"
   * (`stockbatch_id` for the `StockBatch` collection), so that suffix is
   * taken to be what the helper adds.
   */
  function CounterKey(name: string): string {
    name + "_id"
  }

  /** The value the next allocation from `name` returns. */
  function NextId(counters: map<string, int>, name: string): int {
    (if name in counters then counters[name] else 0) + 1
  }

  /** One `update_one({"_id": key}, {"$setOnInsert": counter}, upsert=True)`: only an absent key is written. */
  function SetOnInsert(counters: map<string, int>, key: string, initial: int): (r: map<string, int>)
    ensures key in r
    ensures key in counters ==> r == counters
    ensures key !in counters ==> r[key] == initial && forall k | k in counters :: k in r && r[k] == counters[k]
  {
    if key in counters then counters else counters[key := initial]
  }

  /** The store after upserting `entries` one after the other. */
  function Seeded(counters: map<string, int>, entries: seq<(string, int)>): map<string, int>
    decreases |entries|
  {
    if entries == [] then counters
    else Seeded(SetOnInsert(counters, entries[0].0, entries[0].1), entries[1..])
  }

  /** The counters of `initial_counters` other than the users', each starting from 0. */
  const ZeroStartNames: seq<string> := [
    "product_id", "category_id", "sale_id", "stockbatch_id", "productlog_id",
    "apiactivitylog_id", "retailermetrics_id", "saleitem_id"
  ]

  /** `initial_counters`: users start from 1000, everything else from 0, in the script's order. */
  const InitialCounters: seq<(string, int)> :=
    [(CounterKey("user"), 1000)] + seq(|ZeroStartNames|, i requires 0 <= i < |ZeroStartNames| => (ZeroStartNames[i], 0))

  /** After seeding, every key of the entries is present, and no other key was added. */
  lemma {:induction false} SeededKeys(counters: map<string, int>, entries: seq<(string, int)>)
    ensures forall i | 0 <= i < |entries| :: entries[i].0 in Seeded(counters, entries)
    ensures forall k :: k in Seeded(counters, entries) <==>
      k in counters || exists i | 0 <= i < |entries| :: entries[i].0 == k
    decreases |entries|
  {
    if entries != [] {
      var next := SetOnInsert(counters, entries[0].0, entries[0].1);
      SeededKeys(next, entries[1..]);
      SeededKeeps(next, entries[1..]);
      assert forall i | 1 <= i < |entries| :: entries[i] == entries[1..][i - 1];
    }
  }

  /** `$setOnInsert` never overwrites: a counter that existed keeps its value. */
  lemma {:induction false} SeededKeeps(counters: map<string, int>, entries: seq<(string, int)>)
    ensures forall k | k in counters :: k in Seeded(counters, entries) && Seeded(counters, entries)[k] == counters[k]
    decreases |entries|
  {
    if entries != [] {
      SeededKeeps(SetOnInsert(counters, entries[0].0, entries[0].1), entries[1..]);
    }
  }

  /** Seeding a store that already holds every key changes nothing. */
  lemma {:induction false} SeededNoop(counters: map<string, int>, entries: seq<(string, int)>)
    requires forall i | 0 <= i < |entries| :: entries[i].0 in counters
    ensures Seeded(counters, entries) == counters
  {
    if entries != [] {
      assert forall i | 0 <= i < |entries| - 1 :: entries[1..][i] == entries[i + 1];
      SeededNoop(counters, entries[1..]);
    }
  }

  /** Running the seeding script twice leaves the store as running it once. */
  lemma SeededIdempotent(counters: map<string, int>, entries: seq<(string, int)>)
    ensures Seeded(Seeded(counters, entries), entries) == Seeded(counters, entries)
  {
    SeededKeys(counters, entries);
    SeededNoop(Seeded(counters, entries), entries);
  }

  /** A key absent before seeding gets the value of its first entry. */
  lemma {:induction false} SeededFresh(counters: map<string, int>, entries: seq<(string, int)>, i: nat)
    requires i < |entries| && entries[i].0 !in counters
    requires forall j | 0 <= j < i :: entries[j].0 != entries[i].0
    ensures entries[i].0 in Seeded(counters, entries) && Seeded(counters, entries)[entries[i].0] == entries[i].1
    decreases |entries|
  {
    var next := SetOnInsert(counters, entries[0].0, entries[0].1);
    if i == 0 {
      SeededKeeps(next, entries[1..]);
    } else {
      SeededFresh(next, entries[1..], i - 1);
    }
  }

  /** No two entries of `initial_counters` name the same counter. */
  lemma InitialKeysDistinct()
    ensures forall i, j | 0 <= j < i < |InitialCounters| :: InitialCounters[j].0 != InitialCounters[i].0
  {
    var keys := [CounterKey("user")] + ZeroStartNames;
    assert CounterKey("user") == "user_id";
    forall i, j | 0 <= j < i < |InitialCounters|
      ensures InitialCounters[j].0 != InitialCounters[i].0
    {
      assert keys[i] == InitialCounters[i].0 && keys[j] == InitialCounters[j].0;
      assert |keys[i]| != |keys[j]| || keys[i][0] != keys[j][0];
    }
  }

  /** Seeding distinct keys, none of them present, stores each entry's value under its key. */
  lemma SeededAllFresh(counters: map<string, int>, entries: seq<(string, int)>)
    requires forall i, j | 0 <= j < i < |entries| :: entries[j].0 != entries[i].0
    requires forall i | 0 <= i < |entries| :: entries[i].0 !in counters
    ensures forall i | 0 <= i < |entries| ::
      entries[i].0 in Seeded(counters, entries) && Seeded(counters, entries)[entries[i].0] == entries[i].1
  {
    forall i | 0 <= i < |entries|
      ensures entries[i].0 in Seeded(counters, entries) && Seeded(counters, entries)[entries[i].0] == entries[i].1
    {
      SeededFresh(counters, entries, i);
    }
  }

  /**
   * On a store without these counters, seeding makes the first user id 1001
   * and the first id of every other collection 1.
   */
  lemma FirstIdsAfterSeeding(counters: map<string, int>)
    requires forall i | 0 <= i < |InitialCounters| :: InitialCounters[i].0 !in counters
    ensures NextId(Seeded(counters, InitialCounters), CounterKey("user")) == 1001
    ensures forall i | 1 <= i < |InitialCounters| :: NextId(Seeded(counters, InitialCounters), InitialCounters[i].0) == 1
  {
    InitialKeysDistinct();
    SeededAllFresh(counters, InitialCounters);
  }

  /** The `counters` collection. `allocations` counts the calls of `get_next_sequence`. */
  class CounterStore {
    var counters: map<string, int>
    var allocations: nat

    constructor (initial: map<string, int>)
      ensures counters == initial && allocations == 0
    {
      counters := initial;
      allocations := 0;
    }

    /** `get_next_sequence(name)`: bumps the counter of `name` and returns its new value. */
    method GetNextSequence(name: string) returns (id: int)
      modifies this
      ensures id == NextId(old(counters), CounterKey(name))
      ensures counters == old(counters)[CounterKey(name) := id]
      ensures allocations == old(allocations) + 1
    {
      var key := CounterKey(name);
      id := NextId(counters, key);
      counters := counters[key := id];
      allocations := allocations + 1;
    }

    /** The seeding loop over `initial_counters`. */
    method SeedCounters()
      modifies this
      ensures counters == Seeded(old(counters), InitialCounters)
      ensures forall i | 0 <= i < |InitialCounters| :: InitialCounters[i].0 in counters
      ensures forall k | k in old(counters) :: k in counters && counters[k] == old(counters)[k]
      ensures allocations == old(allocations)
    {
      var i := 0;
      while i < |InitialCounters|
        invariant 0 <= i <= |InitialCounters|
        invariant Seeded(counters, InitialCounters[i..]) == Seeded(old(counters), InitialCounters)
        invariant allocations == old(allocations)
      {
        var entry := InitialCounters[i];
        assert InitialCounters[i..][1..] == InitialCounters[i + 1..];
        counters := SetOnInsert(counters, entry.0, entry.1);
        i := i + 1;
      }
      SeededKeys(old(counters), InitialCounters);
      SeededKeeps(old(counters), InitialCounters);
    }
  }
}
