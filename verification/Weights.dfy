/** Load weights and the weighted ranking (apps/directory/weights.go), over exact reals. */
module Weights {
  import opened Names
  import opened Apps
  import Hrw
  import opened Ranking

  const ALPHA_CPU: real := 0.7
  const ALPHA_MEM: real := 0.7
  const ALPHA_USERS: real := 0.4
  const MEM_BUDGET_MB: real := 2048.0
  const TARGET_USERS_PER_NODE: real := 800.0
  const WEIGHT_FLOOR: real := 0.0001

  // 1 + ALPHA_CPU + ALPHA_MEM + ALPHA_USERS
  const MAX_PENALTY: real := 2.8

  function Clamp01(x: real): (r: real)
    ensures 0.0 <= r <= 1.0
  {
    if x < 0.0 then 0.0 else if x > 1.0 then 1.0 else x
  }

  function Cpu(a: App): real {
    Clamp01(if a.stats.None? then 0.0 else a.stats.value.cpuPercent / 100.0)
  }

  function Mem(a: App): real {
    Clamp01(if a.stats.None? then 0.0 else a.stats.value.rssMB as real / MEM_BUDGET_MB)
  }

  function Users(a: App): real {
    Clamp01(a.usersTotal as real / TARGET_USERS_PER_NODE)
  }

  function Penalty(a: App): (p: real)
    ensures 1.0 <= p <= MAX_PENALTY
  {
    1.0 + ALPHA_CPU * Cpu(a) + ALPHA_MEM * Mem(a) + ALPHA_USERS * Users(a)
  }

  function NodeWeight(a: App): real {
    if !Listed(a) then 0.0
    else
      var w := 1.0 / Penalty(a);
      if w < WEIGHT_FLOOR then WEIGHT_FLOOR else w
  }

  function WeightOf(apps: AppMap, id: Text): real {
    if id in apps then NodeWeight(apps[id]) else 0.0
  }

  /** float64(score) * w, without the rounding */
  function Scale(score: nat, w: real): real {
    score as real * w
  }

  function Value(apps: AppMap, room: Text, id: Text): real {
    Scale(Hrw.Score(room, id), WeightOf(apps, id))
  }

  function WeightedKey(apps: AppMap, room: Text): Text -> real {
    id => Value(apps, room, id)
  }

  /** The candidates left once weight zero is skipped. */
  function Candidates(apps: AppMap, ids: seq<Text>): (r: seq<Text>)
    ensures forall id | id in r :: id in ids && id in apps && Listed(apps[id])
    ensures forall id | id in ids && id in apps && Listed(apps[id]) :: id in r
  {
    if ids == [] then []
    else
      var rest := Candidates(apps, ids[..|ids| - 1]);
      var id := ids[|ids| - 1];
      if id in apps && Listed(apps[id]) then rest + [id] else rest
  }

  ghost predicate IsWeightedRanking(apps: AppMap, room: Text, ids: seq<Text>, out: seq<Text>) {
    IsRanking(WeightedKey(apps, room), multiset(Candidates(apps, ids)), out)
  }

  /** Every eligible weight lies in [1/2.8, 1]; the floor is never reached. */
  lemma WeightRange(a: App)
    requires Listed(a)
    ensures NodeWeight(a) == 1.0 / Penalty(a)
    ensures 1.0 <= NodeWeight(a) * MAX_PENALTY && NodeWeight(a) <= 1.0
  {
    Reciprocal(Penalty(a), MAX_PENALTY);
  }

  lemma Scaled(q: real, u: real, v: real)
    requires q > 0.0 && u < v
    ensures u * q < v * q
  {
  }

  /** Dividing by more gives less. */
  lemma Reciprocal(p: real, q: real)
    requires 1.0 <= p <= q
    ensures 1.0 / q <= 1.0 / p <= 1.0
    ensures 1.0 <= (1.0 / p) * q
  {
    var u, v := 1.0 / p, 1.0 / q;
    assert u * p == 1.0 && v * q == 1.0;
    assert u > 0.0 && v > 0.0;
    assert u * p <= u * q;
    if u < v {
      Scaled(q, u, v);
    }
    if u > 1.0 {
      Scaled(p, 1.0, u);
    }
  }

  lemma ZeroWeight(a: App)
    ensures NodeWeight(a) == 0.0 <==> !a.healthy || a.draining || a.wsURL == []
    ensures NodeWeight(a) >= 0.0
  {
    if Listed(a) {
      WeightRange(a);
    }
  }

  /** While no measure is saturated the weight is 1 over 1 + 0.7 cpu + 0.7 mem + 0.4 users, each as a
      fraction of 100 percent, 2048 MB and 800 users; missing stats count as nothing. */
  lemma WeightFormula(a: App)
    requires a.healthy && !a.draining && a.wsURL != []
    requires 0 <= a.usersTotal <= 800
    requires a.stats.Some? ==> 0.0 <= a.stats.value.cpuPercent <= 100.0 && a.stats.value.rssMB <= 2048
    ensures var cpu := if a.stats.Some? then a.stats.value.cpuPercent else 0.0;
            var mem := if a.stats.Some? then a.stats.value.rssMB as real else 0.0;
            NodeWeight(a) == 1.0 / (1.0 + 0.7 * (cpu / 100.0) + 0.7 * (mem / 2048.0)
                                    + 0.4 * (a.usersTotal as real / 800.0))
  {
    WeightRange(a);
  }

  /** Beyond those limits more load changes nothing. */
  lemma WeightSaturates(a: App, b: App)
    requires (a.usersTotal >= 800 && b == a.(usersTotal := 800))
             || (a.usersTotal <= 0 && b == a.(usersTotal := 0))
             || (a.stats.Some? && a.stats.value.cpuPercent >= 100.0
                 && b == a.(stats := Some(a.stats.value.(cpuPercent := 100.0))))
             || (a.stats.Some? && a.stats.value.rssMB >= 2048
                 && b == a.(stats := Some(a.stats.value.(rssMB := 2048))))
    ensures NodeWeight(a) == NodeWeight(b)
  {
    assert Penalty(a) == Penalty(b);
  }

  /** Known answers: nobody, a half full and a full node without stats; full CPU alone; everything full. */
  lemma KnownWeights(a: App)
    requires a.healthy && !a.draining && a.wsURL != []
    ensures NodeWeight(a.(usersTotal := 0, stats := None)) == 1.0
    ensures NodeWeight(a.(usersTotal := 400, stats := None)) == 1.0 / 1.2
    ensures NodeWeight(a.(usersTotal := 800, stats := None)) == 1.0 / 1.4
    ensures NodeWeight(a.(usersTotal := 0, stats := Some(NodeStats(0, 100.0)))) == 1.0 / 1.7
    ensures NodeWeight(a.(usersTotal := 0, stats := Some(NodeStats(2048, 0.0)))) == 1.0 / 1.7
    ensures NodeWeight(a.(usersTotal := 800, stats := Some(NodeStats(2048, 100.0)))) == 1.0 / 2.8
  {
    WeightFormula(a.(usersTotal := 0, stats := None));
    WeightFormula(a.(usersTotal := 400, stats := None));
    WeightFormula(a.(usersTotal := 800, stats := None));
    WeightFormula(a.(usersTotal := 0, stats := Some(NodeStats(0, 100.0))));
    WeightFormula(a.(usersTotal := 0, stats := Some(NodeStats(2048, 0.0))));
    WeightFormula(a.(usersTotal := 800, stats := Some(NodeStats(2048, 100.0))));
  }

  /** The pair pushed for an app that is not skipped. */
  lemma CandidateStep(apps: AppMap, ids: seq<Text>, n: nat)
    requires n < |ids|
    ensures Candidates(apps, ids[..n + 1]) ==
            Candidates(apps, ids[..n]) + (if WeightOf(apps, ids[n]) == 0.0 then [] else [ids[n]])
  {
    assert ids[..n + 1][..n] == ids[..n];
    if ids[n] in apps {
      ZeroWeight(apps[ids[n]]);
    }
  }

  method WeightedRankApps(apps: AppMap, room: Text, appIDs: seq<Text>) returns (out: seq<Text>)
    ensures IsWeightedRanking(apps, room, appIDs, out)
    ensures forall id :: multiset(out)[id] ==
              if id in apps && apps[id].healthy && !apps[id].draining && apps[id].wsURL != []
              then multiset(appIDs)[id] else 0
    ensures forall i, j | 0 <= i < j < |out| && out[i] in apps && out[j] in apps ::
              Scale(Hrw.Score(room, out[i]), NodeWeight(apps[out[i]]))
              >= Scale(Hrw.Score(room, out[j]), NodeWeight(apps[out[j]]))
  {
    ghost var key := WeightedKey(apps, room);
    var ps := [];
    for n := 0 to |appIDs|
      invariant Ids(ps) == Candidates(apps, appIDs[..n])
      invariant forall p | p in ps :: p.val == key(p.id)
    {
      var id := appIDs[n];
      CandidateStep(apps, appIDs, n);
      var w := WeightOf(apps, id);
      if w != 0.0 {
        var score := Hrw.ComputeScore(room, id);
        var p := Pair(id, Scale(score, w));
        assert p.val == key(id);
        IdsConcat(ps, [p]);
        assert Ids([p]) == [id];
        ps := ps + [p];
      }
    }
    assert appIDs[..|appIDs|] == appIDs;
    var sorted := SortSlice(ps);
    out := Ids(sorted);
    SortedPairsRank(key, sorted);
    RankedMembers(apps, room, appIDs, out);
    RankedOrder(apps, room, appIDs, out);
  }

  lemma RankedMembers(apps: AppMap, room: Text, ids: seq<Text>, out: seq<Text>)
    requires IsWeightedRanking(apps, room, ids, out)
    ensures forall id :: multiset(out)[id] ==
              if id in apps && apps[id].healthy && !apps[id].draining && apps[id].wsURL != []
              then multiset(ids)[id] else 0
  {
    forall id ensures multiset(out)[id] == if id in apps && Listed(apps[id]) then multiset(ids)[id] else 0 {
      CandidateCount(apps, ids, id);
    }
  }

  lemma RankedOrder(apps: AppMap, room: Text, ids: seq<Text>, out: seq<Text>)
    requires IsWeightedRanking(apps, room, ids, out)
    ensures forall i, j | 0 <= i < j < |out| && out[i] in apps && out[j] in apps ::
              Scale(Hrw.Score(room, out[i]), NodeWeight(apps[out[i]]))
              >= Scale(Hrw.Score(room, out[j]), NodeWeight(apps[out[j]]))
  {
    var key := WeightedKey(apps, room);
    forall i, j | 0 <= i < j < |out| && out[i] in apps && out[j] in apps ensures
        Value(apps, room, out[i]) >= Value(apps, room, out[j])
    {
      assert key(out[i]) >= key(out[j]);
    }
  }

  /** Exactly the apps of nonzero weight are kept, each as often as it was listed. */
  lemma {:induction false} CandidateCount(apps: AppMap, ids: seq<Text>, id: Text)
    ensures multiset(Candidates(apps, ids))[id] ==
            if id in apps && Listed(apps[id]) then multiset(ids)[id] else 0
  {
    if ids != [] {
      CandidateCount(apps, ids[..|ids| - 1], id);
      assert ids == ids[..|ids| - 1] + [ids[|ids| - 1]];
    }
  }

  lemma RankedAreCandidates(apps: AppMap, room: Text, ids: seq<Text>, ranked: seq<Text>)
    requires IsWeightedRanking(apps, room, ids, ranked)
    ensures forall id :: id in ranked <==> id in ids && id in apps && Listed(apps[id])
  {
    forall id ensures id in ranked <==> id in Candidates(apps, ids) {
      assert id in ranked <==> id in multiset(ranked);
      assert id in Candidates(apps, ids) <==> id in multiset(Candidates(apps, ids));
    }
  }

  lemma SingletonRanking(apps: AppMap, room: Text, id: Text)
    requires id in apps && Listed(apps[id])
    ensures IsWeightedRanking(apps, room, [id], [id])
  {
    assert [id][..0] == [];
    assert Candidates(apps, [id]) == [id];
  }

  lemma BigScoreValue(apps: AppMap, room: Text, a: Text, b: Text)
    requires a in apps && b in apps && Listed(apps[a]) && Listed(apps[b])
    requires Hrw.Score(room, a) as real > MAX_PENALTY * Hrw.Score(room, b) as real
    ensures Value(apps, room, a) > Value(apps, room, b)
  {
    WeightRange(apps[a]);
    WeightRange(apps[b]);
    DominatedScale(Hrw.Score(room, a), WeightOf(apps, a), Hrw.Score(room, b), WeightOf(apps, b));
  }

  /** Load overrides hashing only within a factor 2.8: an app whose score is more than 2.8 times
      another's is ranked before it whatever their loads. */
  lemma BigScoreWins(apps: AppMap, room: Text, ids: seq<Text>, out: seq<Text>, a: Text, b: Text)
    requires IsWeightedRanking(apps, room, ids, out)
    requires a in Candidates(apps, ids) && b in Candidates(apps, ids)
    requires Hrw.Score(room, a) as real > MAX_PENALTY * Hrw.Score(room, b) as real
    ensures Before(out, a, b) && !Before(out, b, a)
  {
    BigScoreValue(apps, room, a, b);
    var key := WeightedKey(apps, room);
    assert key(a) > key(b);
    PrecedenceIsKeyOrder(key, multiset(Candidates(apps, ids)), out, a, b);
  }

  lemma DominatedScale(x: nat, w: real, y: nat, v: real)
    requires x as real > MAX_PENALTY * y as real
    requires 1.0 <= w * MAX_PENALTY && 0.0 <= v <= 1.0
    ensures Scale(x, w) > Scale(y, v)
  {
    assert w > 0.0;
    assert y as real * v <= y as real;
    Scaled(w, MAX_PENALTY * y as real, x as real);
    assert y as real * (w * MAX_PENALTY) >= y as real;
  }

  /** b is a after its load went up: still eligible or not as before, nothing it reports is lower;
      missing stats count as zero. */
  ghost predicate MoreLoaded(a: App, b: App) {
    && (a.healthy && !a.draining && a.wsURL != [] <==> b.healthy && !b.draining && b.wsURL != [])
    && a.usersTotal <= b.usersTotal
    && (if a.stats.Some? then a.stats.value.cpuPercent else 0.0)
       <= (if b.stats.Some? then b.stats.value.cpuPercent else 0.0)
    && (if a.stats.Some? then a.stats.value.rssMB else 0) <= (if b.stats.Some? then b.stats.value.rssMB else 0)
  }

  lemma MoreLoadMeasures(a: App, b: App)
    requires MoreLoaded(a, b)
    ensures Listed(a) == Listed(b) && Cpu(a) <= Cpu(b) && Mem(a) <= Mem(b) && Users(a) <= Users(b)
  {
    assert a.usersTotal as real <= b.usersTotal as real;
  }

  /** Strictly more of something not yet saturated weighs strictly less. */
  lemma MoreLoadWeighsStrictlyLess(a: App, b: App)
    requires MoreLoaded(a, b) && a.healthy && !a.draining && a.wsURL != []
    requires (a.usersTotal < b.usersTotal && a.usersTotal < 800 && b.usersTotal > 0)
             || (b.stats.Some? && (a.stats.None? || a.stats.value.cpuPercent < b.stats.value.cpuPercent)
                 && (a.stats.Some? ==> a.stats.value.cpuPercent < 100.0) && b.stats.value.cpuPercent > 0.0)
             || (b.stats.Some? && (a.stats.None? || a.stats.value.rssMB < b.stats.value.rssMB)
                 && (a.stats.Some? ==> a.stats.value.rssMB < 2048) && b.stats.value.rssMB > 0)
    ensures NodeWeight(b) < NodeWeight(a)
  {
    MoreLoadMeasures(a, b);
    WeightRange(a);
    WeightRange(b);
    assert Penalty(a) < Penalty(b);
    StrictReciprocal(Penalty(a), Penalty(b));
  }

  lemma StrictReciprocal(p: real, q: real)
    requires 1.0 <= p < q
    ensures 1.0 / q < 1.0 / p
  {
    Reciprocal(p, q);
    assert 1.0 / p * p == 1.0 && 1.0 / q * q == 1.0;
    Scaled(1.0 / p, p, q);
  }

  lemma MoreLoadWeighsLess(a: App, b: App)
    requires MoreLoaded(a, b)
    ensures NodeWeight(b) <= NodeWeight(a)
  {
    MoreLoadMeasures(a, b);
    if Listed(a) {
      WeightRange(a);
      WeightRange(b);
      Reciprocal(Penalty(a), Penalty(b));
    }
  }

  lemma {:induction false} SameCandidates(apps: AppMap, more: AppMap, ids: seq<Text>)
    requires apps.Keys == more.Keys
    requires forall id | id in apps :: Listed(apps[id]) == Listed(more[id])
    ensures Candidates(apps, ids) == Candidates(more, ids)
  {
    if ids != [] {
      SameCandidates(apps, more, ids[..|ids| - 1]);
    }
  }

  /** Raising one app's load never moves it ahead of an app that preceded it, and leaves the
      order of all the others as it was. */
  lemma MoreLoadNeverHelps(apps: AppMap, id: Text, loaded: App, room: Text, ids: seq<Text>,
                           out: seq<Text>, out': seq<Text>, x: Text, y: Text)
    requires id in apps && MoreLoaded(apps[id], loaded)
    requires IsWeightedRanking(apps, room, ids, out)
    requires IsWeightedRanking(apps[id := loaded], room, ids, out')
    requires NoTies(WeightedKey(apps, room), multiset(Candidates(apps, ids)))
    requires NoTies(WeightedKey(apps[id := loaded], room), multiset(Candidates(apps, ids)))
    requires x in Candidates(apps, ids) && y in Candidates(apps, ids) && x != y
    ensures x != id && y != id ==> (Before(out, x, y) <==> Before(out', x, y))
    ensures y == id && Before(out, x, y) ==> Before(out', x, y)
  {
    var more := apps[id := loaded];
    MoreLoadMeasures(apps[id], loaded);
    SameCandidates(apps, more, ids);
    LoadedValue(apps, id, loaded, room, x);
    LoadedValue(apps, id, loaded, room, y);
    var key, key' := WeightedKey(apps, room), WeightedKey(more, room);
    assert key(x) == Value(apps, room, x) && key(y) == Value(apps, room, y);
    assert key'(x) == Value(more, room, x) && key'(y) == Value(more, room, y);
    var bag := multiset(Candidates(apps, ids));
    PrecedenceIsKeyOrder(key, bag, out, x, y);
    PrecedenceIsKeyOrder(key', bag, out', x, y);
  }

  lemma LoadedWeight(apps: AppMap, id: Text, loaded: App, x: Text)
    requires id in apps && MoreLoaded(apps[id], loaded)
    ensures WeightOf(apps[id := loaded], x) <= WeightOf(apps, x)
    ensures x != id ==> WeightOf(apps[id := loaded], x) == WeightOf(apps, x)
  {
    MoreLoadWeighsLess(apps[id], loaded);
  }

  lemma LoadedValue(apps: AppMap, id: Text, loaded: App, room: Text, x: Text)
    requires id in apps && MoreLoaded(apps[id], loaded)
    ensures Value(apps[id := loaded], room, x) <= Value(apps, room, x)
    ensures x != id ==> Value(apps[id := loaded], room, x) == Value(apps, room, x)
  {
    LoadedWeight(apps, id, loaded, x);
    ScaleMonotone(Hrw.Score(room, x), WeightOf(apps[id := loaded], x), WeightOf(apps, x));
  }

  lemma ScaleMonotone(score: nat, v: real, w: real)
    requires v <= w
    ensures Scale(score, v) <= Scale(score, w)
  {
  }
}
