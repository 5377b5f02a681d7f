/**
 * The insert-if-absent loop every seeder runs: each seed document is read by
 * its id and partition key, counted as existing when found, and otherwise
 * written (with its update time stamped) and counted as created. Seeders run
 * in ascending priority.
 */
module Seeding {
  import opened Wrappers
  import opened Documents

  /** The store after seeding `seeds` into `docs`, one seed after another. */
  function Seeded<T>(docs: map<(string, string), T>, seeds: seq<T>, key: T -> (string, string),
                     stamp: T -> T): map<(string, string), T>
    decreases |seeds|
  {
    if |seeds| == 0 then docs
    else
      var m := Seeded(docs, seeds[..|seeds| - 1], key, stamp);
      var s := seeds[|seeds| - 1];
      if key(s) in m then m else m[key(s) := stamp(s)]
  }

  /** How many seeds find no document under their key when their turn comes. */
  function CreatedCount<T>(docs: map<(string, string), T>, seeds: seq<T>, key: T -> (string, string),
                           stamp: T -> T): nat
    decreases |seeds|
  {
    if |seeds| == 0 then 0
    else
      var init := seeds[..|seeds| - 1];
      CreatedCount(docs, init, key, stamp) + (if key(seeds[|seeds| - 1]) in Seeded(docs, init, key, stamp) then 0 else 1)
  }

  /** Seeding never overwrites or removes a stored document. */
  lemma {:induction false} SeededKeepsExisting<T>(docs: map<(string, string), T>, seeds: seq<T>,
                                                 key: T -> (string, string), stamp: T -> T)
    ensures forall k :: k in docs ==> k in Seeded(docs, seeds, key, stamp) && Seeded(docs, seeds, key, stamp)[k] == docs[k]
    decreases |seeds|
  {
    if |seeds| > 0 {
      SeededKeepsExisting(docs, seeds[..|seeds| - 1], key, stamp);
    }
  }

  /** Afterwards every seed's key is present. */
  lemma {:induction false} SeededCoversSeeds<T>(docs: map<(string, string), T>, seeds: seq<T>,
                                               key: T -> (string, string), stamp: T -> T)
    ensures forall i :: 0 <= i < |seeds| ==> key(seeds[i]) in Seeded(docs, seeds, key, stamp)
    decreases |seeds|
  {
    if |seeds| > 0 {
      var init := seeds[..|seeds| - 1];
      SeededCoversSeeds(docs, init, key, stamp);
      forall i | 0 <= i < |seeds| - 1 ensures key(seeds[i]) in Seeded(docs, seeds, key, stamp) {
        assert seeds[i] == init[i];
      }
    }
  }

  /** Every document present afterwards was there before or is a stamped seed
      stored under its own key. */
  lemma {:induction false} SeededOnlyAddsSeeds<T>(docs: map<(string, string), T>, seeds: seq<T>,
                                                 key: T -> (string, string), stamp: T -> T)
    ensures forall k :: k in Seeded(docs, seeds, key, stamp) ==>
              k in docs || exists i :: 0 <= i < |seeds| && key(seeds[i]) == k && Seeded(docs, seeds, key, stamp)[k] == stamp(seeds[i])
    decreases |seeds|
  {
    if |seeds| > 0 {
      var init := seeds[..|seeds| - 1];
      var m := Seeded(docs, init, key, stamp);
      var r := Seeded(docs, seeds, key, stamp);
      SeededOnlyAddsSeeds(docs, init, key, stamp);
      forall k | k in r && k !in docs
        ensures exists i :: 0 <= i < |seeds| && key(seeds[i]) == k && r[k] == stamp(seeds[i])
      {
        if k == key(seeds[|seeds| - 1]) && k !in m {
          assert r[k] == stamp(seeds[|seeds| - 1]);
        } else {
          assert k in m && r[k] == m[k];
          var i :| 0 <= i < |init| && key(init[i]) == k && m[k] == stamp(init[i]);
          assert seeds[i] == init[i];
        }
      }
    }
  }

  /** The created count is the number of documents seeding added. */
  lemma {:induction false} CreatedCountIsGrowth<T>(docs: map<(string, string), T>, seeds: seq<T>,
                                                  key: T -> (string, string), stamp: T -> T)
    ensures |Seeded(docs, seeds, key, stamp).Keys| == |docs.Keys| + CreatedCount(docs, seeds, key, stamp)
    ensures CreatedCount(docs, seeds, key, stamp) <= |seeds|
    decreases |seeds|
  {
    if |seeds| > 0 {
      var init := seeds[..|seeds| - 1];
      CreatedCountIsGrowth(docs, init, key, stamp);
      var m := Seeded(docs, init, key, stamp);
      var k := key(seeds[|seeds| - 1]);
      if k !in m {
        assert m[k := stamp(seeds[|seeds| - 1])].Keys == m.Keys + {k};
      }
    }
  }

  /** Seeding a store that already holds every seed's key changes nothing and
      creates nothing. */
  lemma {:induction false} SeedingPresentIsNoOp<T>(docs: map<(string, string), T>, seeds: seq<T>,
                                                  key: T -> (string, string), stamp: T -> T)
    requires forall i :: 0 <= i < |seeds| ==> key(seeds[i]) in docs
    ensures Seeded(docs, seeds, key, stamp) == docs
    ensures CreatedCount(docs, seeds, key, stamp) == 0
    decreases |seeds|
  {
    if |seeds| > 0 {
      var init := seeds[..|seeds| - 1];
      assert forall i :: 0 <= i < |init| ==> init[i] == seeds[i];
      SeedingPresentIsNoOp(docs, init, key, stamp);
    }
  }

  /** Seeding is idempotent: a second run over the same seeds changes nothing
      and creates nothing. */
  lemma SeedingIdempotent<T>(docs: map<(string, string), T>, seeds: seq<T>,
                             key: T -> (string, string), stamp: T -> T)
    ensures Seeded(Seeded(docs, seeds, key, stamp), seeds, key, stamp) == Seeded(docs, seeds, key, stamp)
    ensures CreatedCount(Seeded(docs, seeds, key, stamp), seeds, key, stamp) == 0
  {
    SeededCoversSeeds(docs, seeds, key, stamp);
    SeedingPresentIsNoOp(Seeded(docs, seeds, key, stamp), seeds, key, stamp);
  }

  /** Seeds with distinct keys, none of them stored yet, are all created. */
  lemma {:induction false} SeedingAbsentCreatesAll<T>(docs: map<(string, string), T>, seeds: seq<T>,
                                                     key: T -> (string, string), stamp: T -> T)
    requires forall i, j :: 0 <= i < j < |seeds| ==> key(seeds[i]) != key(seeds[j])
    requires forall i :: 0 <= i < |seeds| ==> key(seeds[i]) !in docs
    ensures CreatedCount(docs, seeds, key, stamp) == |seeds|
    decreases |seeds|
  {
    if |seeds| > 0 {
      var init := seeds[..|seeds| - 1];
      var k := key(seeds[|seeds| - 1]);
      assert forall i :: 0 <= i < |init| ==> init[i] == seeds[i];
      SeedingAbsentCreatesAll(docs, init, key, stamp);
      SeededOnlyAddsSeeds(docs, init, key, stamp);
      assert k !in Seeded(docs, init, key, stamp);
    }
  }

  /** Every element in positions `lo` to `hi - 1` satisfies `p`, checked one
      element at a time from the front, so that a fixed seed table can be
      checked entry by entry. */
  predicate AllIn<T>(s: seq<T>, p: T -> bool, lo: nat, hi: nat)
    requires hi <= |s|
    decreases hi - lo
  {
    lo >= hi || (p(s[lo]) && AllIn(s, p, lo + 1, hi))
  }

  lemma {:induction false} AllInAt<T>(s: seq<T>, p: T -> bool, lo: nat, hi: nat, j: int)
    requires hi <= |s| && AllIn(s, p, lo, hi) && lo <= j < hi
    ensures p(s[j])
    decreases hi - lo
  {
    if lo < j {
      AllInAt(s, p, lo + 1, hi, j);
    }
  }

  /** Two adjacent checked ranges make one. */
  lemma {:induction false} AllInJoin<T>(s: seq<T>, p: T -> bool, lo: nat, mid: nat, hi: nat)
    requires lo <= mid <= hi <= |s| && AllIn(s, p, lo, mid) && AllIn(s, p, mid, hi)
    ensures AllIn(s, p, lo, hi)
    decreases mid - lo
  {
    if lo < mid {
      AllInJoin(s, p, lo + 1, mid, hi);
    }
  }

  /** The `SeedAsync` loop: returns how many seeds were written and how many
      were already present. */
  method SeedInto<T>(store: Container<T>, seeds: seq<T>, key: T -> (string, string), stamp: T -> T)
    returns (created: nat, existing: nat)
    modifies store
    ensures store.docs == Seeded(old(store.docs), seeds, key, stamp)
    ensures created == CreatedCount(old(store.docs), seeds, key, stamp)
    ensures created + existing == |seeds|
  {
    created, existing := 0, 0;
    var i := 0;
    while i < |seeds|
      invariant 0 <= i <= |seeds|
      invariant store.docs == Seeded(old(store.docs), seeds[..i], key, stamp)
      invariant created == CreatedCount(old(store.docs), seeds[..i], key, stamp)
      invariant created + existing == i
    {
      PrefixStep(seeds, i);
      var seed := seeds[i];
      var (id, partitionKey) := key(seed);
      var found := store.Get(id, partitionKey);
      if found.Some? {
        existing := existing + 1;
      } else {
        store.Upsert(id, partitionKey, stamp(seed));
        created := created + 1;
      }
      i := i + 1;
    }
    assert seeds[..i] == seeds;
  }
}
