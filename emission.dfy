/** `pushLoginAttemptsIntoMetricsChannel`: merge the partial aggregates received
    on one channel into a single aggregate, then send one counter observation
    per stored pair of it. */
module Emission {
  import opened Aggregation

  /** A metric descriptor: fully-qualified name, help text and the names of its
      variable labels. */
  datatype Desc = Desc(fqName: string, help: string, variableLabels: seq<string>)

  /** One constant counter metric: its descriptor, its value, and its label
      values, the i-th value going with the descriptor's i-th label name. */
  datatype Observation = Observation(desc: Desc, value: int, labelValues: seq<string>)

  // ---------------------------------------------------------------------------
  // The merge, as written

  /** What one partial adds to the merged count of (key1, key2). The merge walks
      every first-level key against the provider list, which holds key2 once
      per first-level key storing it, so the partial's own count is added that
      many times. */
  ghost function Contribution(p: Attempts, key1: string, key2: string): int
  {
    Count(p, key1, key2) * |KeysHolding(p, key2)|
  }

  /** The merged count of (key1, key2) after the partials `ps`, in arrival order. */
  ghost function MergedCount(ps: seq<Attempts>, key1: string, key2: string): int
  {
    if ps == [] then 0
    else MergedCount(ps[..|ps| - 1], key1, key2) + Contribution(ps[|ps| - 1], key1, key2)
  }

  /** The plain sum of the partials' counts of (key1, key2). */
  ghost function SumOfCounts(ps: seq<Attempts>, key1: string, key2: string): int
  {
    if ps == [] then 0
    else SumOfCounts(ps[..|ps| - 1], key1, key2) + Count(ps[|ps| - 1], key1, key2)
  }

  /** The aggregates held by a sequence of `LoginAttempts` objects. */
  ghost function Snapshots(ps: seq<LoginAttempts>): (r: seq<Attempts>)
    reads ps
    ensures |r| == |ps|
    ensures forall i :: 0 <= i < |ps| ==> r[i] == ps[i].attempts
  {
    if ps == [] then [] else Snapshots(ps[..|ps| - 1]) + [ps[|ps| - 1].attempts]
  }

  // ---------------------------------------------------------------------------
  // Properties of the merge

  /** Merged counts add up over a split of the arrivals. */
  lemma {:induction false} MergedCountAppend(ps: seq<Attempts>, qs: seq<Attempts>, key1: string, key2: string)
    ensures MergedCount(ps + qs, key1, key2) == MergedCount(ps, key1, key2) + MergedCount(qs, key1, key2)
    decreases |qs|
  {
    if qs == [] {
      assert ps + qs == ps;
    } else {
      var init, last := qs[..|qs| - 1], qs[|qs| - 1];
      var pq := ps + qs;
      assert pq[..|pq| - 1] == ps + init;
      assert pq[|pq| - 1] == last;
      MergedCountAppend(ps, init, key1, key2);
    }
  }

  /** Taking any one partial out of the arrivals removes exactly its contribution. */
  lemma MergedCountRemoveAt(ps: seq<Attempts>, i: nat, key1: string, key2: string)
    requires i < |ps|
    ensures MergedCount(ps, key1, key2)
         == MergedCount(ps[..i] + ps[i + 1..], key1, key2) + Contribution(ps[i], key1, key2)
  {
    assert ps == ps[..i] + [ps[i]] + ps[i + 1..];
    MergedCountAppend(ps[..i] + [ps[i]], ps[i + 1..], key1, key2);
    MergedCountAppend(ps[..i], [ps[i]], key1, key2);
    MergedCountAppend(ps[..i], ps[i + 1..], key1, key2);
    assert [ps[i]][..0] == [];
  }

  /** The last element of `ps` occurs somewhere in a permutation `qs` of it,
      and what is left of both are permutations of each other. */
  lemma MatchLast<T>(ps: seq<T>, qs: seq<T>) returns (j: nat)
    requires ps != [] && multiset(ps) == multiset(qs)
    ensures j < |qs| && qs[j] == ps[|ps| - 1]
    ensures multiset(ps[..|ps| - 1]) == multiset(qs[..j] + qs[j + 1..])
  {
    var init, last := ps[..|ps| - 1], ps[|ps| - 1];
    assert ps == init + [last];
    assert last in multiset(qs);
    j :| 0 <= j < |qs| && qs[j] == last;
    var rest := qs[..j] + qs[j + 1..];
    assert qs == qs[..j] + [qs[j]] + qs[j + 1..];
    assert multiset(qs) == multiset(qs[..j]) + multiset{last} + multiset(qs[j + 1..]);
    assert multiset(rest) == multiset(qs[..j]) + multiset(qs[j + 1..]);
    assert multiset(init) == multiset(ps) - multiset{last};
  }

  /** The merged counts do not depend on the order in which the partials arrive. */
  lemma {:induction false} MergedCountPermutation(ps: seq<Attempts>, qs: seq<Attempts>, key1: string, key2: string)
    requires multiset(ps) == multiset(qs)
    ensures MergedCount(ps, key1, key2) == MergedCount(qs, key1, key2)
    decreases |ps|
  {
    if ps == [] {
      assert |qs| == |multiset(qs)| == 0;
    } else {
      var j := MatchLast(ps, qs);
      MergedCountPermutation(ps[..|ps| - 1], qs[..j] + qs[j + 1..], key1, key2);
      MergedCountRemoveAt(qs, j, key1, key2);
    }
  }

  /** A valid partial's contribution is a non-negative multiple of its own
      count, positive exactly when it stores the pair. */
  lemma ContributionBounds(p: Attempts, key1: string, key2: string)
    requires ValidMap(p)
    ensures Contribution(p, key1, key2) >= Count(p, key1, key2) >= 0
    ensures Contribution(p, key1, key2) > 0 <==> Count(p, key1, key2) > 0
  {
    CountPositiveIffStored(p, key1, key2);
    var c, k := Count(p, key1, key2), |KeysHolding(p, key2)|;
    if c > 0 {
      assert key1 in KeysHolding(p, key2);
      assert k >= 1;
      assert c * k >= c * 1;
    } else {
      assert c * k == 0;
    }
  }

  /** When every partial is valid, the merge loses nothing: each merged count is
      at least the sum of the partials' counts, and it is positive exactly when
      some partial holds the pair. */
  lemma {:induction false} MergedCountBounds(ps: seq<Attempts>, key1: string, key2: string)
    requires forall i :: 0 <= i < |ps| ==> ValidMap(ps[i])
    ensures MergedCount(ps, key1, key2) >= SumOfCounts(ps, key1, key2) >= 0
    ensures MergedCount(ps, key1, key2) > 0 <==> exists i :: 0 <= i < |ps| && Count(ps[i], key1, key2) > 0
  {
    if ps != [] {
      var init, last := ps[..|ps| - 1], ps[|ps| - 1];
      MergedCountBounds(init, key1, key2);
      ContributionBounds(last, key1, key2);
      if exists i :: 0 <= i < |ps| && Count(ps[i], key1, key2) > 0 {
        var i :| 0 <= i < |ps| && Count(ps[i], key1, key2) > 0;
        if i < |ps| - 1 {
          assert init[i] == ps[i];
        }
      }
    }
  }

  /** When no partial stores key2 under more than one first-level key, the
      merge is the exact sum of the partials' counts. */
  lemma {:induction false} MergeExactWithoutSharedKey2(ps: seq<Attempts>, key1: string, key2: string)
    requires forall i :: 0 <= i < |ps| ==> ValidMap(ps[i]) && |KeysHolding(ps[i], key2)| <= 1
    ensures MergedCount(ps, key1, key2) == SumOfCounts(ps, key1, key2)
  {
    if ps != [] {
      var init, last := ps[..|ps| - 1], ps[|ps| - 1];
      MergeExactWithoutSharedKey2(init, key1, key2);
      CountPositiveIffStored(last, key1, key2);
      if Count(last, key1, key2) > 0 {
        assert key1 in KeysHolding(last, key2);
        assert |KeysHolding(last, key2)| == 1;
      }
    }
  }

  /** N partials that each counted the same pair once merge to a count of N. */
  lemma SingleIncrementsMergeToTheirNumber(ps: seq<Attempts>, key1: string, key2: string)
    requires forall i :: 0 <= i < |ps| ==> ps[i] == AddPair(map[], key1, key2)
    ensures MergedCount(ps, key1, key2) == |ps|
  {
    var one := AddPair(map[], key1, key2);
    assert one == map[key1 := map[key2 := 1]];
    assert KeysHolding(one, key2) == {key1};
    assert ValidMap(one);
    MergeExactWithoutSharedKey2(ps, key1, key2);
    SumOfOnes(ps, key1, key2);
  }

  lemma {:induction false} SumOfOnes(ps: seq<Attempts>, key1: string, key2: string)
    requires forall i :: 0 <= i < |ps| ==> ps[i] == AddPair(map[], key1, key2)
    ensures SumOfCounts(ps, key1, key2) == |ps|
  {
    if ps != [] {
      SumOfOnes(ps[..|ps| - 1], key1, key2);
    }
  }

  /** The over-count, on the smallest input that shows it: one partial storing
      the same second-level key under two first-level keys once each merges to
      2 for each of them, twice the partial's count. */
  lemma MergeOverCountsSharedKey2()
    ensures var p := map["htpasswd" := map["alice" := 1], "github" := map["alice" := 1]];
            && SumOfCounts([p], "htpasswd", "alice") == 1 && MergedCount([p], "htpasswd", "alice") == 2
            && SumOfCounts([p], "github", "alice") == 1 && MergedCount([p], "github", "alice") == 2
  {
    var p := map["htpasswd" := map["alice" := 1], "github" := map["alice" := 1]];
    assert KeysHolding(p, "alice") == {"htpasswd", "github"};
    var ps: seq<Attempts> := [p];
    assert ps[..0] == [];
  }

  // ---------------------------------------------------------------------------
  // What is sent

  /** `o` reports a stored pair of `m` with its count under `desc`. */
  ghost predicate ObservesPair(o: Observation, desc: Desc, m: Attempts)
  {
    && o.desc == desc
    && |o.labelValues| == 2
    && o.labelValues[0] in m
    && o.labelValues[1] in m[o.labelValues[0]]
    && o.value == m[o.labelValues[0]][o.labelValues[1]]
  }

  /** `obs` reports every stored pair of `m` exactly once and nothing else. */
  ghost predicate IsEmissionOf(obs: seq<Observation>, desc: Desc, m: Attempts)
  {
    && (forall i :: 0 <= i < |obs| ==> ObservesPair(obs[i], desc, m))
    && (forall i, j :: 0 <= i < j < |obs| ==> obs[i].labelValues != obs[j].labelValues)
    && (forall key1, key2 :: key1 in m && key2 in m[key1] ==>
          exists i :: 0 <= i < |obs| && obs[i].labelValues == [key1, key2])
  }

  /** `obs` reports every pair with a positive merged count of `ps` exactly
      once, with that count, and nothing else. */
  ghost predicate EmitsMerged(obs: seq<Observation>, desc: Desc, ps: seq<Attempts>)
  {
    && (forall i :: 0 <= i < |obs| ==>
          && obs[i].desc == desc
          && |obs[i].labelValues| == 2
          && obs[i].value == MergedCount(ps, obs[i].labelValues[0], obs[i].labelValues[1])
          && obs[i].value > 0)
    && (forall i, j :: 0 <= i < j < |obs| ==> obs[i].labelValues != obs[j].labelValues)
    && (forall key1, key2 :: MergedCount(ps, key1, key2) > 0 ==>
          exists i :: 0 <= i < |obs| && obs[i].labelValues == [key1, key2])
  }

  /** A channel that delivered nothing sends nothing. */
  lemma EmptyChannelSendsNothing(obs: seq<Observation>, desc: Desc)
    ensures EmitsMerged(obs, desc, []) <==> obs == []
  {
    if obs != [] {
      var first := obs[0];
    }
  }

  // ---------------------------------------------------------------------------
  // The loops

  lemma MulSucc(c: int, k: int)
    ensures c * (k + 1) == c * k + c
  {
  }

  /** The innermost merge loop: `addAttempt(key1, key2)` `times` times. */
  method AddRepeated(merged: LoginAttempts, key1: string, key2: string, times: int)
    requires merged.Valid()
    modifies merged
    ensures merged.Valid()
    ensures forall a, b :: Count(merged.attempts, a, b)
                        == old(Count(merged.attempts, a, b)) + (if a == key1 && b == key2 && times > 0 then times else 0)
  {
    var n := 0;
    while n < times
      invariant merged.Valid()
      invariant 0 <= n && (times > 0 ==> n <= times) && (times <= 0 ==> n == 0)
      invariant forall a, b :: Count(merged.attempts, a, b)
                          == old(Count(merged.attempts, a, b)) + (if a == key1 && b == key2 then n else 0)
    {
      merged.AddAttempt(key1, key2);
      n := n + 1;
    }
  }

  /** One entry of the provider list adds the partial's count of that pair
      once more. */
  lemma AbsorbStep(base: Attempts, before: Attempts, after: Attempts, p: Attempts,
                   key1: string, providers: seq<string>, j: nat)
    requires ValidMap(p) && j < |providers|
    requires forall a, b :: Count(before, a, b)
               == Count(base, a, b) + (if a == key1 then Count(p, a, b) * multiset(providers[..j])[b] else 0)
    requires forall a, b :: Count(after, a, b)
               == Count(before, a, b)
                + (if a == key1 && b == providers[j] && Count(p, key1, providers[j]) > 0 then Count(p, key1, providers[j]) else 0)
    ensures forall a, b :: Count(after, a, b)
              == Count(base, a, b) + (if a == key1 then Count(p, a, b) * multiset(providers[..j + 1])[b] else 0)
  {
    CountPositiveIffStored(p, key1, providers[j]);
    assert providers[..j + 1] == providers[..j] + [providers[j]];
    forall a, b ensures Count(after, a, b)
                     == Count(base, a, b) + (if a == key1 then Count(p, a, b) * multiset(providers[..j + 1])[b] else 0)
    {
      if a == key1 && b == providers[j] {
        MulSucc(Count(p, a, b), multiset(providers[..j])[b]);
      }
    }
  }

  /** The middle merge loop for one first-level key `key1` of the partial:
      every entry of the provider list, each adding the partial's count of the
      pair to the merged aggregate. */
  method AbsorbRow(merged: LoginAttempts, part: LoginAttempts, key1: string, providers: seq<string>)
    requires merged != part && merged.Valid() && part.Valid()
    modifies merged
    ensures merged.Valid()
    ensures forall a, b :: Count(merged.attempts, a, b)
                        == old(Count(merged.attempts, a, b))
                         + (if a == key1 then Count(part.attempts, a, b) * multiset(providers)[b] else 0)
  {
    ghost var p := part.attempts;
    ghost var base := merged.attempts;
    var j := 0;
    while j < |providers|
      invariant 0 <= j <= |providers|
      invariant merged.Valid()
      invariant forall a, b :: Count(merged.attempts, a, b)
                          == Count(base, a, b) + (if a == key1 then Count(p, a, b) * multiset(providers[..j])[b] else 0)
    {
      ghost var before := merged.attempts;
      AddRepeated(merged, key1, providers[j], Count(part.attempts, key1, providers[j]));
      AbsorbStep(base, before, merged.attempts, p, key1, providers, j);
      j := j + 1;
    }
    assert providers[..j] == providers;
  }

  /** The body of the merge loop for one received partial: every first-level
      key of the partial against every entry of its provider list. */
  method AbsorbPartial(merged: LoginAttempts, part: LoginAttempts)
    requires merged != part && merged.Valid() && part.Valid()
    modifies merged
    ensures merged.Valid()
    ensures forall a, b :: Count(merged.attempts, a, b)
                        == old(Count(merged.attempts, a, b)) + Contribution(part.attempts, a, b)
  {
    var users := part.GetUserList();
    var providers := part.GetProviderList();
    ghost var p := part.attempts;
    ghost var base := merged.attempts;
    var i := 0;
    while i < |users|
      invariant 0 <= i <= |users|
      invariant merged.Valid()
      invariant forall a, b :: Count(merged.attempts, a, b)
                          == Count(base, a, b) + (if a in users[..i] then Count(p, a, b) * multiset(providers)[b] else 0)
    {
      assert users[i] !in users[..i];
      assert forall a :: a in users[..i + 1] <==> a in users[..i] || a == users[i];
      AbsorbRow(merged, part, users[i], providers);
      i := i + 1;
    }
    assert users[..i] == users;
    forall a, b ensures Count(merged.attempts, a, b) == Count(base, a, b) + Contribution(p, a, b) {
      if a !in users {
        assert a !in p;
      }
    }
  }

  /** Absorbing partial `k` extends the merged counts of the first `k`
      partials to those of the first `k + 1`. */
  lemma MergeStep(ps: seq<Attempts>, k: nat, before: Attempts, after: Attempts)
    requires k < |ps|
    requires forall a, b :: Count(before, a, b) == MergedCount(ps[..k], a, b)
    requires forall a, b :: Count(after, a, b) == Count(before, a, b) + Contribution(ps[k], a, b)
    ensures forall a, b :: Count(after, a, b) == MergedCount(ps[..k + 1], a, b)
  {
    assert ps[..k + 1][..k] == ps[..k];
  }

  /** The merge loop: every received partial is absorbed, in arrival order,
      into a fresh aggregate. */
  method MergePartials(partials: seq<LoginAttempts>) returns (merged: LoginAttempts)
    requires forall i :: 0 <= i < |partials| ==> partials[i].Valid()
    ensures fresh(merged) && merged.Valid()
    ensures forall a, b :: Count(merged.attempts, a, b) == MergedCount(Snapshots(partials), a, b)
  {
    ghost var ps := Snapshots(partials);
    merged := new LoginAttempts();
    var k := 0;
    while k < |partials|
      invariant 0 <= k <= |partials|
      invariant fresh(merged) && merged.Valid()
      invariant forall a, b :: Count(merged.attempts, a, b) == MergedCount(ps[..k], a, b)
    {
      ghost var before := merged.attempts;
      AbsorbPartial(merged, partials[k]);
      MergeStep(ps, k, before, merged.attempts);
      k := k + 1;
    }
    assert ps[..k] == ps;
  }

  /** `o` reports the count of (key1, key2) for some key2 stored in `row`. */
  ghost predicate ObservesRow(o: Observation, desc: Desc, key1: string, row: map<string, int>)
  {
    && o.desc == desc
    && |o.labelValues| == 2
    && o.labelValues[0] == key1
    && o.labelValues[1] in row
    && o.value == row[o.labelValues[1]]
  }

  /** What the inner emit loop has established once every key is emitted. */
  lemma RowEmitted(acc: seq<Observation>, r: seq<Observation>, emitted: seq<string>,
                   desc: Desc, key1: string, row: map<string, int>)
    requires |r| == |acc| + |emitted|
    requires forall k :: 0 <= k < |emitted| ==> emitted[k] in row
    requires forall k :: 0 <= k < |emitted| ==> r[|acc| + k] == Observation(desc, row[emitted[k]], [key1, emitted[k]])
    requires forall k, l :: 0 <= k < l < |emitted| ==> emitted[k] != emitted[l]
    requires forall key2 :: key2 in row ==> key2 in emitted
    ensures forall i :: |acc| <= i < |r| ==> ObservesRow(r[i], desc, key1, row)
    ensures forall i, j :: |acc| <= i < j < |r| ==> r[i].labelValues != r[j].labelValues
    ensures forall key2 :: key2 in row ==> exists i :: |acc| <= i < |r| && r[i].labelValues == [key1, key2]
  {
    forall i | |acc| <= i < |r| ensures ObservesRow(r[i], desc, key1, row) {
      var k := i - |acc|;
      assert r[i] == Observation(desc, row[emitted[k]], [key1, emitted[k]]);
    }
    forall i, j | |acc| <= i < j < |r| ensures r[i].labelValues != r[j].labelValues {
      var k, l := i - |acc|, j - |acc|;
      assert r[i].labelValues == [key1, emitted[k]];
      assert r[j].labelValues == [key1, emitted[l]];
      assert emitted[k] != emitted[l];
    }
    forall key2 | key2 in row ensures exists i :: |acc| <= i < |r| && r[i].labelValues == [key1, key2] {
      var k :| 0 <= k < |emitted| && emitted[k] == key2;
      assert r[|acc| + k].labelValues == [key1, key2];
    }
  }

  /** The inner emit loop has reported, in `out`, the keys `emitted` of `row`,
      each once and with its count, and `left` holds the keys not reported yet. */
  ghost predicate RowProgress(desc: Desc, key1: string, row: map<string, int>,
                              left: set<string>, emitted: seq<string>, out: seq<Observation>)
  {
    && left <= row.Keys
    && |out| == |emitted| == |row.Keys - left|
    && (forall k :: 0 <= k < |emitted| ==> emitted[k] in row && emitted[k] !in left)
    && (forall k :: 0 <= k < |emitted| ==> out[k] == Observation(desc, row[emitted[k]], [key1, emitted[k]]))
    && (forall k, l :: 0 <= k < l < |emitted| ==> emitted[k] != emitted[l])
    && (forall key2 :: key2 in row && key2 !in left ==> key2 in emitted)
  }

  /** Reporting one more key keeps the inner loop's progress. */
  lemma RowProgressStep(desc: Desc, key1: string, row: map<string, int>,
                        left: set<string>, emitted: seq<string>, out: seq<Observation>, key2: string)
    requires RowProgress(desc, key1, row, left, emitted, out) && key2 in left
    ensures RowProgress(desc, key1, row, left - {key2}, emitted + [key2],
                        out + [Observation(desc, row[key2], [key1, key2])])
  {
    assert row.Keys - (left - {key2}) == (row.Keys - left) + {key2};
  }

  /** The inner emit loop for one first-level key `key1` whose inner map is
      `row`: one observation per second-level key, in map order. */
  method EmitRow(acc: seq<Observation>, desc: Desc, key1: string, row: map<string, int>)
    returns (r: seq<Observation>)
    ensures |r| == |acc| + |row| && r[..|acc|] == acc
    ensures forall i :: |acc| <= i < |r| ==> ObservesRow(r[i], desc, key1, row)
    ensures forall i, j :: |acc| <= i < j < |r| ==> r[i].labelValues != r[j].labelValues
    ensures forall key2 :: key2 in row ==> exists i :: |acc| <= i < |r| && r[i].labelValues == [key1, key2]
  {
    var out: seq<Observation> := [];
    var left := row.Keys;
    ghost var emitted: seq<string> := [];
    while left != {}
      invariant RowProgress(desc, key1, row, left, emitted, out)
      decreases left
    {
      var key2 :| key2 in left;
      RowProgressStep(desc, key1, row, left, emitted, out, key2);
      out := out + [Observation(desc, row[key2], [key1, key2])];
      emitted := emitted + [key2];
      left := left - {key2};
    }
    assert row.Keys - left == row.Keys;
    r := acc + out;
    assert forall k :: 0 <= k < |emitted| ==> r[|acc| + k] == out[k];
    RowEmitted(acc, r, emitted, desc, key1, row);
  }

  /** The outer emit loop keeps reporting only stored pairs, each once, when
      the row of `key1` is added. */
  lemma EmitStepObserves(m: Attempts, desc: Desc, done: set<string>, key1: string,
                         before: seq<Observation>, obs: seq<Observation>)
    requires key1 in m && key1 !in done
    requires forall i :: 0 <= i < |before| ==> ObservesPair(before[i], desc, m) && before[i].labelValues[0] in done
    requires forall i, j :: 0 <= i < j < |before| ==> before[i].labelValues != before[j].labelValues
    requires |obs| >= |before| && obs[..|before|] == before
    requires forall i :: |before| <= i < |obs| ==> ObservesRow(obs[i], desc, key1, m[key1])
    requires forall i, j :: |before| <= i < j < |obs| ==> obs[i].labelValues != obs[j].labelValues
    ensures forall i :: 0 <= i < |obs| ==> ObservesPair(obs[i], desc, m) && obs[i].labelValues[0] in done + {key1}
    ensures forall i, j :: 0 <= i < j < |obs| ==> obs[i].labelValues != obs[j].labelValues
  {
    forall i | 0 <= i < |before| ensures obs[i] == before[i] {
      assert obs[..|before|][i] == obs[i];
    }
  }

  /** The outer emit loop keeps covering every stored pair of the rows done
      when the row of `key1` is added. */
  lemma EmitStepCovers(m: Attempts, done: set<string>, key1: string,
                       before: seq<Observation>, obs: seq<Observation>)
    requires key1 in m && done <= m.Keys
    requires forall a, b :: a in done && b in m[a] ==>
               exists i :: 0 <= i < |before| && before[i].labelValues == [a, b]
    requires |obs| >= |before| && obs[..|before|] == before
    requires forall b :: b in m[key1] ==> exists i :: |before| <= i < |obs| && obs[i].labelValues == [key1, b]
    ensures forall a, b :: a in done + {key1} && b in m[a] ==>
              exists i :: 0 <= i < |obs| && obs[i].labelValues == [a, b]
  {
    forall a, b | a in done + {key1} && b in m[a]
      ensures exists i :: 0 <= i < |obs| && obs[i].labelValues == [a, b]
    {
      if a != key1 {
        var i :| 0 <= i < |before| && before[i].labelValues == [a, b];
        assert obs[..|before|][i] == obs[i];
      }
    }
  }

  /** The emit loop: one observation per stored pair of the merged aggregate,
      with that pair's count and label values (key1, key2). */
  method Emit(merged: LoginAttempts, desc: Desc) returns (obs: seq<Observation>)
    ensures IsEmissionOf(obs, desc, merged.attempts)
    ensures |obs| == NumPairs(merged.attempts)
  {
    var m := merged.attempts;
    obs := [];
    var remaining := m.Keys;
    ghost var done: set<string> := {};
    assert RowSizes(m, done) == map[];
    while remaining != {}
      invariant done !! remaining && done + remaining == m.Keys
      invariant forall i :: 0 <= i < |obs| ==> ObservesPair(obs[i], desc, m) && obs[i].labelValues[0] in done
      invariant forall i, j :: 0 <= i < j < |obs| ==> obs[i].labelValues != obs[j].labelValues
      invariant forall key1, key2 :: key1 in done && key2 in m[key1] ==>
                  exists i :: 0 <= i < |obs| && obs[i].labelValues == [key1, key2]
      invariant |obs| == PairsUnder(m, done)
      decreases remaining
    {
      var key1 :| key1 in remaining;
      MoveKey(done, remaining, m.Keys, key1);
      ghost var before := obs;
      obs := EmitRow(obs, desc, key1, m[key1]);
      EmitStepObserves(m, desc, done, key1, before, obs);
      EmitStepCovers(m, done, key1, before, obs);
      PairsUnderStep(m, done, key1);
      remaining := remaining - {key1};
      done := done + {key1};
    }
    assert done == m.Keys;
  }

  /** Moving one key from the keys still to visit to the visited ones keeps
      the two a partition. */
  lemma MoveKey(done: set<string>, remaining: set<string>, all: set<string>, key: string)
    requires done !! remaining && done + remaining == all && key in remaining
    ensures (done + {key}) !! (remaining - {key}) && (done + {key}) + (remaining - {key}) == all
  {
  }

  /** Emitting an aggregate whose counts are the merged counts of `ps` reports
      exactly the pairs with a positive merged count, with those counts. */
  lemma EmissionOfMergedCounts(obs: seq<Observation>, desc: Desc, m: Attempts, ps: seq<Attempts>)
    requires ValidMap(m) && IsEmissionOf(obs, desc, m)
    requires forall a, b :: Count(m, a, b) == MergedCount(ps, a, b)
    ensures EmitsMerged(obs, desc, ps)
  {
    forall i | 0 <= i < |obs|
      ensures obs[i].value == MergedCount(ps, obs[i].labelValues[0], obs[i].labelValues[1]) > 0
    {
      assert ObservesPair(obs[i], desc, m);
      CountPositiveIffStored(m, obs[i].labelValues[0], obs[i].labelValues[1]);
    }
    forall key1, key2 | MergedCount(ps, key1, key2) > 0
      ensures exists i :: 0 <= i < |obs| && obs[i].labelValues == [key1, key2]
    {
      CountPositiveIffStored(m, key1, key2);
    }
  }

  /** The emitted metrics do not depend on the order in which the partials
      arrive: observations that report one arrival order report every
      permutation of it. */
  lemma EmitsMergedPermutation(obs: seq<Observation>, desc: Desc, ps: seq<Attempts>, qs: seq<Attempts>)
    requires multiset(ps) == multiset(qs)
    requires EmitsMerged(obs, desc, ps)
    ensures EmitsMerged(obs, desc, qs)
  {
    forall key1, key2 ensures MergedCount(ps, key1, key2) == MergedCount(qs, key1, key2) {
      MergedCountPermutation(ps, qs, key1, key2);
    }
  }

  /** `pushLoginAttemptsIntoMetricsChannel`: merge what the channel delivered,
      then send one observation per pair whose merged count is positive. */
  method PushLoginAttempts(partials: seq<LoginAttempts>, desc: Desc) returns (obs: seq<Observation>)
    requires forall i :: 0 <= i < |partials| ==> partials[i].Valid()
    ensures EmitsMerged(obs, desc, Snapshots(partials))
  {
    var merged := MergePartials(partials);
    obs := Emit(merged, desc);
    EmissionOfMergedCounts(obs, desc, merged.attempts, Snapshots(partials));
  }
}
