/** Ranking apps by a score, highest first (internal/shared/hrw.go:16-31), and what such a
    ranking is worth to a room: it depends on nothing but the scores. */
module Ranking {
  import opened Names
  import Hrw

  datatype Pair = Pair(id: Text, val: real)

  function Ids(ps: seq<Pair>): seq<Text> {
    seq(|ps|, i requires 0 <= i < |ps| => ps[i].id)
  }

  ghost predicate IsRanking(key: Text -> real, bag: multiset<Text>, out: seq<Text>) {
    && multiset(out) == bag
    && forall i, j | 0 <= i < j < |out| :: key(out[i]) >= key(out[j])
  }

  ghost predicate NoTies(key: Text -> real, bag: multiset<Text>) {
    forall x, y | x in bag && y in bag && key(x) == key(y) :: x == y
  }

  ghost predicate Before(out: seq<Text>, x: Text, y: Text) {
    exists i, j :: 0 <= i < j < |out| && out[i] == x && out[j] == y
  }

  function Without(s: seq<Text>, a: Text): seq<Text> {
    if s == [] then [] else (if s[0] == a then [] else [s[0]]) + Without(s[1..], a)
  }

  function HrwKey(room: Text): Text -> real {
    id => Hrw.Score(room, id) as real
  }

  ghost predicate Descending(ps: seq<Pair>) {
    forall i, j | 0 <= i < j < |ps| :: ps[i].val >= ps[j].val
  }

  lemma IdsConcat(a: seq<Pair>, b: seq<Pair>)
    ensures Ids(a + b) == Ids(a) + Ids(b)
    ensures multiset(Ids(a + b)) == multiset(Ids(a)) + multiset(Ids(b))
  {
    assert Ids(a + b) == Ids(a) + Ids(b);
  }

  method Insert(ps: seq<Pair>, p: Pair) returns (out: seq<Pair>)
    requires Descending(ps)
    ensures Descending(out)
    ensures multiset(Ids(out)) == multiset(Ids(ps)) + multiset{p.id}
    ensures forall q | q in out :: q == p || q in ps
  {
    var k := |ps|;
    while k > 0 && ps[k - 1].val < p.val
      invariant 0 <= k <= |ps|
      invariant forall i | k <= i < |ps| :: ps[i].val < p.val
    {
      k := k - 1;
    }
    out := ps[..k] + [p] + ps[k..];
    InsertKeepsIds(ps, p, k);
    forall i, j | 0 <= i < j < |out| ensures out[i].val >= out[j].val {
      assert i < k ==> out[i] == ps[i];
      assert j > k ==> out[j] == ps[j - 1];
    }
  }

  lemma InsertKeepsIds(ps: seq<Pair>, p: Pair, k: nat)
    requires k <= |ps|
    ensures multiset(Ids(ps[..k] + [p] + ps[k..])) == multiset(Ids(ps)) + multiset{p.id}
  {
    IdsConcat(ps[..k], ps[k..]);
    IdsConcat(ps[..k], [p]);
    IdsConcat(ps[..k] + [p], ps[k..]);
    assert ps[..k] + ps[k..] == ps;
    assert Ids([p]) == [p.id];
  }

  /** sort.Slice with the comparison ps[i].val > ps[j].val, order among equals left open. */
  method SortSlice(ps: seq<Pair>) returns (out: seq<Pair>)
    ensures multiset(Ids(out)) == multiset(Ids(ps))
    ensures Descending(out)
    ensures forall p | p in out :: p in ps
  {
    out := [];
    for n := 0 to |ps|
      invariant multiset(Ids(out)) == multiset(Ids(ps[..n]))
      invariant Descending(out)
      invariant forall p | p in out :: p in ps
    {
      assert Ids(ps[..n + 1]) == Ids(ps[..n]) + [ps[n].id];
      out := Insert(out, ps[n]);
    }
    assert ps[..|ps|] == ps;
  }

  lemma SortedPairsRank(key: Text -> real, ps: seq<Pair>)
    requires Descending(ps)
    requires forall p | p in ps :: p.val == key(p.id)
    ensures IsRanking(key, multiset(Ids(ps)), Ids(ps))
  {
    var out := Ids(ps);
    forall i | 0 <= i < |ps| ensures key(out[i]) == ps[i].val {
      assert ps[i] in ps;
    }
  }

  method RankApps(room: Text, appIDs: seq<Text>) returns (out: seq<Text>)
    ensures IsRanking(HrwKey(room), multiset(appIDs), out)
    ensures multiset(out) == multiset(appIDs)
    ensures forall i, j | 0 <= i < j < |out| :: Hrw.Score(room, out[i]) >= Hrw.Score(room, out[j])
  {
    var ps := [];
    for n := 0 to |appIDs|
      invariant Ids(ps) == appIDs[..n]
      invariant forall p | p in ps :: p.val == HrwKey(room)(p.id)
    {
      var score := Hrw.ComputeScore(room, appIDs[n]);
      ps := ps + [Pair(appIDs[n], score as real)];
    }
    assert appIDs[..|appIDs|] == appIDs;
    var sorted := SortSlice(ps);
    out := Ids(sorted);
    SortedPairsRank(HrwKey(room), sorted);
    forall i, j | 0 <= i < j < |out| ensures Hrw.Score(room, out[i]) >= Hrw.Score(room, out[j]) {
      assert HrwKey(room)(out[i]) >= HrwKey(room)(out[j]);
    }
  }

  lemma HeadsAgree(key: Text -> real, bag: multiset<Text>, r: seq<Text>, q: seq<Text>)
    requires IsRanking(key, bag, r) && IsRanking(key, bag, q) && NoTies(key, bag)
    requires r != [] && q != []
    ensures r[0] == q[0]
  {
    assert r[0] in multiset(r) && q[0] in multiset(q);
    assert r[0] in q && q[0] in r;
  }

  lemma TailRanks(key: Text -> real, bag: multiset<Text>, r: seq<Text>)
    requires IsRanking(key, bag, r) && r != []
    ensures IsRanking(key, bag - multiset{r[0]}, r[1..])
  {
    assert r == [r[0]] + r[1..];
  }

  lemma SameLength(r: seq<Text>, q: seq<Text>)
    requires multiset(r) == multiset(q)
    ensures |r| == |q|
  {
    assert |multiset(r)| == |r|;
  }

  lemma Rejoin(r: seq<Text>, q: seq<Text>)
    requires r != [] && q != [] && r[0] == q[0] && r[1..] == q[1..]
    ensures r == q
  {
    assert r == [r[0]] + r[1..];
  }

  /** Without ties there is exactly one ranking: input order does not matter. */
  lemma {:induction false} RankingUnique(key: Text -> real, bag: multiset<Text>, r: seq<Text>, q: seq<Text>)
    requires IsRanking(key, bag, r) && IsRanking(key, bag, q) && NoTies(key, bag)
    ensures r == q
    decreases |r|
  {
    SameLength(r, q);
    if r != [] {
      HeadsAgree(key, bag, r, q);
      TailRanks(key, bag, r);
      TailRanks(key, bag, q);
      RankingUnique(key, bag - multiset{r[0]}, r[1..], q[1..]);
      Rejoin(r, q);
    }
  }

  lemma {:induction false} WithoutBag(s: seq<Text>, a: Text)
    ensures multiset(Without(s, a)) == multiset(s)[a := 0]
    ensures s != [] && s[0] != a ==> Without(s, a) != [] && Without(s, a)[0] == s[0]
  {
    if s != [] {
      WithoutBag(s[1..], a);
      assert s == [s[0]] + s[1..];
    }
  }

  lemma {:induction false} WithoutSorted(key: Text -> real, s: seq<Text>, a: Text)
    requires forall i, j | 0 <= i < j < |s| :: key(s[i]) >= key(s[j])
    ensures var w := Without(s, a); forall i, j | 0 <= i < j < |w| :: key(w[i]) >= key(w[j])
  {
    if s != [] {
      WithoutSorted(key, s[1..], a);
      var w := Without(s[1..], a);
      forall j | 0 <= j < |w| ensures key(s[0]) >= key(w[j]) {
        WithoutBag(s[1..], a);
        assert w[j] in multiset(w);
        assert w[j] in multiset(s[1..]);
      }
    }
  }

  /** Removing an app deletes it from the ranking and moves nothing else. */
  lemma RemovalOnlyDeletes(key: Text -> real, bag: multiset<Text>, a: Text, before: seq<Text>, after: seq<Text>)
    requires NoTies(key, bag)
    requires IsRanking(key, bag, before) && IsRanking(key, bag[a := 0], after)
    ensures after == Without(before, a)
  {
    WithoutBag(before, a);
    WithoutSorted(key, before, a);
    RankingUnique(key, bag[a := 0], after, Without(before, a));
  }

  /** Only rooms led by the removed app change leader. */
  lemma OnlyItsRoomsMove(room: Text, ids: seq<Text>, a: Text, before: seq<Text>, after: seq<Text>)
    requires NoTies(HrwKey(room), multiset(ids))
    requires IsRanking(HrwKey(room), multiset(ids), before)
    requires IsRanking(HrwKey(room), multiset(ids)[a := 0], after)
    requires before != [] && before[0] != a
    ensures after != [] && after[0] == before[0]
  {
    RemovalOnlyDeletes(HrwKey(room), multiset(ids), a, before, after);
    WithoutBag(before, a);
  }

  /** In a ranking without ties, precedence is exactly the comparison of keys. */
  lemma PrecedenceIsKeyOrder(key: Text -> real, bag: multiset<Text>, out: seq<Text>, x: Text, y: Text)
    requires IsRanking(key, bag, out) && x in bag && y in bag && x != y
    ensures key(x) > key(y) ==> Before(out, x, y) && !Before(out, y, x)
    ensures NoTies(key, bag) ==> (Before(out, x, y) <==> key(x) > key(y))
  {
    assert x in out && y in out;
    var i :| 0 <= i < |out| && out[i] == x;
    var j :| 0 <= j < |out| && out[j] == y;
    assert i < j ==> Before(out, x, y);
    assert j < i ==> Before(out, y, x);
  }
}
