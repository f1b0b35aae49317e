/** The attempt aggregator: a nested counting map from a first key to a second
    key to a count, kept by the class `LoginAttempts`.

    The source calls the first key "user" and the second "provider", but every
    caller stores capture group 1 (the provider named in the log line) at the
    first level and group 2 (the user) at the second. The model therefore
    speaks of `key1` and `key2`. */
module Aggregation {
  import opened Sums
  import opened Extraction

  /** The value of the `Attempts` field. A nil map and an empty map behave the
      same for every read, range and assignment the collector performs, so both
      are the empty map here. */
  type Attempts = map<string, map<string, int>>

  /** Indexing the outer map, as Go does it: a missing key reads as a nil
      (empty) inner map. */
  function Inner(m: Attempts, key1: string): map<string, int>
  {
    if key1 in m then m[key1] else map[]
  }

  /** Indexing an inner map, as Go does it: a missing key reads as 0. */
  function Get(inner: map<string, int>, key2: string): int
  {
    if key2 in inner then inner[key2] else 0
  }

  /** The count of a pair: `Attempts[key1][key2]` in Go, 0 when absent. */
  function Count(m: Attempts, key1: string, key2: string): int
  {
    Get(Inner(m, key1), key2)
  }

  /** What every aggregate built by `addAttempt` satisfies: an inner map exists
      only once something was counted in it, and every stored count is at least 1. */
  ghost predicate ValidMap(m: Attempts)
  {
    forall key1 :: key1 in m ==>
      m[key1] != map[] && forall key2 :: key2 in m[key1] ==> m[key1][key2] >= 1
  }

  /** In a valid aggregate a pair is stored exactly when its count is positive,
      and no count is negative. */
  lemma CountPositiveIffStored(m: Attempts, key1: string, key2: string)
    requires ValidMap(m)
    ensures Count(m, key1, key2) >= 0
    ensures Count(m, key1, key2) > 0 <==> key1 in m && key2 in m[key1]
  {
  }

  /** In valid aggregates the counts are the whole state: two valid aggregates
      with the same count for every pair are the same map. */
  lemma CountDeterminesAttempts(m1: Attempts, m2: Attempts)
    requires ValidMap(m1) && ValidMap(m2)
    requires forall key1, key2 :: Count(m1, key1, key2) == Count(m2, key1, key2)
    ensures m1 == m2
  {
    forall key1 | key1 in m1 ensures key1 in m2 {
      var key2 :| key2 in m1[key1];
      assert Count(m1, key1, key2) >= 1;
    }
    forall key1 | key1 in m2 ensures key1 in m1 {
      var key2 :| key2 in m2[key1];
      assert Count(m2, key1, key2) >= 1;
    }
    forall key1 | key1 in m1 ensures m1[key1] == m2[key1] {
      forall key2 | key2 in m1[key1] ensures key2 in m2[key1] {
        assert Count(m1, key1, key2) >= 1;
      }
      forall key2 | key2 in m2[key1] ensures key2 in m1[key1] {
        assert Count(m2, key1, key2) >= 1;
      }
      forall key2 | key2 in m1[key1] ensures m1[key1][key2] == m2[key1][key2] {
        assert Count(m1, key1, key2) == Count(m2, key1, key2);
      }
    }
  }

  /** `addAttempt` on values: create the first level and the second level when
      missing, then store 1 or increment. */
  function AddPair(m: Attempts, key1: string, key2: string): (r: Attempts)
    ensures forall a, b :: Count(r, a, b) == Count(m, a, b) + (if a == key1 && b == key2 then 1 else 0)
    ensures r.Keys == m.Keys + {key1}
    ensures r[key1].Keys == Inner(m, key1).Keys + {key2}
    ensures forall a :: a in m && a != key1 ==> r[a] == m[a]
    ensures ValidMap(m) ==> ValidMap(r)
  {
    var inner := Inner(m, key1);
    m[key1 := inner[key2 := if key2 in inner then inner[key2] + 1 else 1]]
  }

  /** The first-level keys in `keys` under which `key2` is stored. */
  ghost function HoldersIn(m: Attempts, keys: set<string>, key2: string): set<string>
  {
    set key1 | key1 in keys && key1 in m && key2 in m[key1]
  }

  /** The first-level keys under which `key2` is stored. */
  ghost function KeysHolding(m: Attempts, key2: string): set<string>
  {
    HoldersIn(m, m.Keys, key2)
  }

  /** The number of second-level keys under each first-level key in `keys`. */
  function RowSizes(m: Attempts, keys: set<string>): (r: map<string, int>)
    ensures r.Keys == keys * m.Keys
  {
    map key1 | key1 in keys && key1 in m :: |m[key1]|
  }

  /** The number of stored pairs under the first-level keys in `keys`. */
  ghost function PairsUnder(m: Attempts, keys: set<string>): int
  {
    SumValues(RowSizes(m, keys))
  }

  /** The number of stored (key1, key2) pairs. */
  ghost function NumPairs(m: Attempts): int
  {
    PairsUnder(m, m.Keys)
  }

  /** The sum of the counts under each first-level key. */
  ghost function RowTotals(m: Attempts): (r: map<string, int>)
    ensures r.Keys == m.Keys
  {
    map key1 | key1 in m :: SumValues(m[key1])
  }

  /** The sum of all stored counts. */
  ghost function Total(m: Attempts): int
  {
    SumValues(RowTotals(m))
  }

  /** Taking one more first-level key into account adds its pairs. */
  lemma PairsUnderStep(m: Attempts, keys: set<string>, key1: string)
    requires key1 in m && key1 !in keys
    ensures PairsUnder(m, keys + {key1}) == PairsUnder(m, keys) + |m[key1]|
    ensures forall key2 :: |HoldersIn(m, keys + {key1}, key2)|
                        == |HoldersIn(m, keys, key2)| + (if key2 in m[key1] then 1 else 0)
  {
    var big := RowSizes(m, keys + {key1});
    var small := RowSizes(m, keys);
    SumValuesRemove(big, key1);
    assert big - {key1} == small;
    forall key2 ensures |HoldersIn(m, keys + {key1}, key2)|
                     == |HoldersIn(m, keys, key2)| + (if key2 in m[key1] then 1 else 0)
    {
      if key2 in m[key1] {
        assert HoldersIn(m, keys + {key1}, key2) == HoldersIn(m, keys, key2) + {key1};
      } else {
        assert HoldersIn(m, keys + {key1}, key2) == HoldersIn(m, keys, key2);
      }
    }
  }

  /** Replacing one row changes the total by the difference of the row sums. */
  lemma TotalUpdateRow(m: Attempts, key1: string, row: map<string, int>)
    ensures Total(m[key1 := row]) == Total(m) - SumValues(Inner(m, key1)) + SumValues(row)
  {
    var sums := RowTotals(m);
    assert RowTotals(m[key1 := row]) == sums[key1 := SumValues(row)];
    SumValuesUpdate(sums, key1, SumValues(row));
    if key1 !in m {
      assert Inner(m, key1) == map[];
    }
  }

  /** One `addAttempt` raises the total of all counts by exactly one. */
  lemma TotalAddPair(m: Attempts, key1: string, key2: string)
    ensures Total(AddPair(m, key1, key2)) == Total(m) + 1
  {
    var inner := Inner(m, key1);
    var inner' := inner[key2 := Get(inner, key2) + 1];
    assert AddPair(m, key1, key2) == m[key1 := inner'];
    SumValuesUpdate(inner, key2, Get(inner, key2) + 1);
    TotalUpdateRow(m, key1, inner');
  }

  /** `loginMatchesToLoginAttempts` on values: the aggregate of a list of pairs,
      added in list order. */
  function Aggregate(results: seq<Match>): Attempts
  {
    if results == [] then map[]
    else
      var init, last := results[..|results| - 1], results[|results| - 1];
      AddPair(Aggregate(init), last.group1, last.group2)
  }

  /** An aggregate is valid, counts every pair exactly as often as it occurs in
      the list, and is empty exactly when the list is. */
  lemma {:induction false} AggregateCounts(results: seq<Match>)
    ensures ValidMap(Aggregate(results))
    ensures forall key1, key2 {:trigger Count(Aggregate(results), key1, key2)} ::
              Count(Aggregate(results), key1, key2) == multiset(results)[Match(key1, key2)]
    ensures Aggregate(results) == map[] <==> results == []
  {
    if results != [] {
      var init, last := results[..|results| - 1], results[|results| - 1];
      assert results == init + [last];
      assert multiset(results) == multiset(init) + multiset{last};
      AggregateCounts(init);
      var r := AddPair(Aggregate(init), last.group1, last.group2);
      assert last.group1 in r;
    }
  }

  /** The counts of an aggregate sum to the number of pairs it was built from. */
  lemma {:induction false} AggregateTotal(results: seq<Match>)
    ensures Total(Aggregate(results)) == |results|
  {
    if results == [] {
      assert RowTotals(Aggregate(results)) == map[];
    } else {
      var init, last := results[..|results| - 1], results[|results| - 1];
      AggregateTotal(init);
      TotalAddPair(Aggregate(init), last.group1, last.group2);
    }
  }

  /** `LoginAttempts`: the mutable aggregate whose `Attempts` map the source
      updates in place. */
  class LoginAttempts {
    var attempts: Attempts

    ghost predicate Valid()
      reads this
    {
      ValidMap(attempts)
    }

    /** The zero value `var attempts LoginAttempts`: a nil map. */
    constructor ()
      ensures attempts == map[]
      ensures Valid()
    {
      attempts := map[];
    }

    /** `addAttempt`: counts one more (key1, key2) and touches no other pair. */
    method AddAttempt(key1: string, key2: string)
      modifies this
      ensures attempts == AddPair(old(attempts), key1, key2)
      ensures old(Valid()) ==> Valid()
    {
      // init the first-level entry
      if key1 !in attempts {
        attempts := attempts[key1 := map[]];
      }
      // add or increment the count
      if key2 !in attempts[key1] {
        attempts := attempts[key1 := attempts[key1][key2 := 1]];
      } else {
        attempts := attempts[key1 := attempts[key1][key2 := attempts[key1][key2] + 1]];
      }
    }

    /** `getUserList`: every first-level key exactly once, in map order
        (which Go leaves unspecified: each step picks any key not yet listed). */
    method GetUserList() returns (users: seq<string>)
      ensures forall key1 :: key1 in users <==> key1 in attempts
      ensures forall i, j :: 0 <= i < j < |users| ==> users[i] != users[j]
    {
      users := [];
      var remaining := attempts.Keys;
      while remaining != {}
        invariant remaining <= attempts.Keys
        invariant forall key1 :: key1 in users <==> key1 in attempts && key1 !in remaining
        invariant forall i, j :: 0 <= i < j < |users| ==> users[i] != users[j]
        decreases remaining
      {
        var key1 :| key1 in remaining;
        users := users + [key1];
        remaining := remaining - {key1};
      }
    }

    /** `getProviderList`: the second-level keys of every first-level key, one
        after the other. A second-level key stored under k first-level keys
        appears k times, and the list is as long as there are stored pairs. */
    method GetProviderList() returns (providers: seq<string>)
      ensures forall key2 :: multiset(providers)[key2] == |KeysHolding(attempts, key2)|
      ensures |providers| == NumPairs(attempts)
    {
      providers := [];
      var remaining := attempts.Keys;
      ghost var done: set<string> := {};
      assert RowSizes(attempts, done) == map[];
      while remaining != {}
        invariant done !! remaining && done + remaining == attempts.Keys
        invariant forall key2 :: multiset(providers)[key2] == |HoldersIn(attempts, done, key2)|
        invariant |providers| == PairsUnder(attempts, done)
        decreases remaining
      {
        var key1 :| key1 in remaining;
        providers := AppendKeys(providers, attempts[key1]);
        PairsUnderStep(attempts, done, key1);
        remaining := remaining - {key1};
        done := done + {key1};
      }
      assert done == attempts.Keys;
    }

    /** `countLoginAttempts` as written: its lookup only runs when `key1` is
        absent, where the inner lookup always misses, so it answers 0 for every
        aggregate and pair, even for a pair that is stored. */
    function CountLoginAttempts(key1: string, key2: string): (r: int)
      reads this
      ensures r == 0
      ensures ValidMap(attempts) && key1 in attempts && key2 in attempts[key1] ==> r < Count(attempts, key1, key2)
    {
      if key1 !in attempts then
        var inner := Inner(attempts, key1);
        if key2 !in inner then Get(inner, key2) else 0
      else 0
    }
  }

  /** The inner loop of `getProviderList`: append every key of `inner` once,
      in map order. */
  method AppendKeys(acc: seq<string>, inner: map<string, int>) returns (r: seq<string>)
    ensures multiset(r) == multiset(acc) + multiset(inner.Keys)
    ensures |r| == |acc| + |inner|
    ensures r[..|acc|] == acc
  {
    r := acc;
    var left := inner.Keys;
    ghost var added: seq<string> := [];
    while left != {}
      invariant left <= inner.Keys
      invariant r == acc + added
      invariant multiset(added) + multiset(left) == multiset(inner.Keys)
      decreases left
    {
      var key2 :| key2 in left;
      assert multiset(left) == multiset(left - {key2}) + multiset{key2};
      r := r + [key2];
      added := added + [key2];
      left := left - {key2};
    }
    assert |added| == |multiset(added)| == |multiset(inner.Keys)| == |inner.Keys|;
    assert r[..|acc|] == acc;
  }

  /** `loginMatchesToLoginAttempts`: a fresh aggregate counting every pair of
      `results` as often as it occurs (group 1 at the first level). */
  method LoginMatchesToLoginAttempts(results: seq<Match>) returns (la: LoginAttempts)
    ensures fresh(la) && la.Valid()
    ensures la.attempts == Aggregate(results)
  {
    la := new LoginAttempts();
    var i := 0;
    while i < |results|
      invariant 0 <= i <= |results|
      invariant la.attempts == Aggregate(results[..i])
    {
      la.AddAttempt(results[i].group1, results[i].group2);
      assert results[..i + 1][..i] == results[..i];
      i := i + 1;
    }
    assert results[..i] == results;
    AggregateCounts(results);
  }
}
