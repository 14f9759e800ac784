/** Runs showing that none of the three assumptions of SingleHost can be dropped. */
module Counterexamples {
  import opened Names
  import opened Apps
  import opened Leases
  import opened Placement
  import opened SingleHost
  import Weights

  const A: Text := [65]
  const B: Text := [66]
  const ROOM: Text := [82]
  const ADDRESS: Text := [87]

  const A_HOLDS: LeaseMap := map[ROOM := Lease(A, 60.0)]
  const B_HOLDS: LeaseMap := map[ROOM := Lease(B, 60.0)]
  const B_KNOWN: AppMap := map[B := App(ADDRESS, 0, map[], false, 0.0, true, None)]
  const ON_A: map<nat, Conn> := map[0 := Conn(A, ROOM, false)]

  const A_KNOWN: AppMap := map[A := App(ADDRESS, 1, map[ROOM := 1], false, 61.0, true, None)]

  function Late(now: real, leases: LeaseMap, apps: AppMap, beats: map<nat, Beat>, conns: map<nat, Conn>): World {
    World(now, leases, apps, map[], beats, conns, {})
  }

  const START: World := Late(0.0, map[], map[], map[], map[])
  const HOSTED: World := Late(0.0, A_HOLDS, map[], map[], ON_A)
  const EXPIRED: World := Late(61.0, A_HOLDS, map[], map[], ON_A)
  const A_LISTS: Heartbeat := Heartbeat(A, ADDRESS, Some(map[ROOM := 1]), 1, false)

  lemma LeaseRunsOut()
    ensures Next(START, Connect(0, A, ROOM, false), HOSTED)
    ensures Next(HOSTED, Tick(61.0), EXPIRED)
  {
  }

  lemma HeartbeatComesLate()
    ensures var received := Late(61.0, A_HOLDS, A_KNOWN, map[0 := Beat(A, map[ROOM := 1])], ON_A);
            && Next(EXPIRED, Receive(0, A_LISTS), received)
            && Next(received, Renew(0, ROOM, false), Late(61.0, A_HOLDS, A_KNOWN, map[0 := Beat(A, map[])], ON_A))
  {
    assert map[ROOM := 1] - {ROOM} == map[];
  }

  /** A's heartbeat is worked through only after the lease ran out, which does not win the room back:
      B may claim it while A still has its client. Only LeasesOutlive is broken. */
  lemma LateHeartbeatSplitsRoom() returns (ws: seq<World>, steps: seq<Step>)
    ensures Run(ws, steps)
    ensures forall i {:trigger steps[i]} | 0 <= i < |steps| :: CrashStop(ws[i], steps[i]) && PositiveCounts(steps[i])
    ensures TwoHosts(ws[|steps|])
  {
    var received := Late(61.0, A_HOLDS, A_KNOWN, map[0 := Beat(A, map[ROOM := 1])], ON_A);
    var last := Late(61.0, A_HOLDS, A_KNOWN, map[0 := Beat(A, map[])], ON_A);
    var split := Late(61.0, map[ROOM := Lease(B, 121.0)], A_KNOWN, last.beats, ON_A[1 := Conn(B, ROOM, false)]);
    LeaseRunsOut();
    HeartbeatComesLate();
    assert Next(last, Connect(1, B, ROOM, false), split);
    assert split.conns[0].node == A && split.conns[1].node == B;
    ws := [START, HOSTED, EXPIRED, received, last, split];
    steps := [Connect(0, A, ROOM, false), Tick(61.0), Receive(0, A_LISTS), Renew(0, ROOM, false),
              Connect(1, B, ROOM, false)];
  }

  const A_DENIES: Heartbeat := Heartbeat(A, ADDRESS, Some(map[ROOM := 0]), 0, false)
  const DENIED: AppMap := map[A := App(ADDRESS, 0, map[ROOM := 0], false, 0.0, true, None)]

  lemma ZeroCountReleases()
    ensures var received := Late(0.0, A_HOLDS, DENIED, map[0 := Beat(A, map[ROOM := 0])], ON_A);
            && Next(HOSTED, Receive(0, A_DENIES), received)
            && Next(received, Renew(0, ROOM, false), Late(0.0, map[], DENIED, map[0 := Beat(A, map[])], ON_A))
  {
    assert map[ROOM := 0] - {ROOM} == map[];
    assert A_HOLDS - {ROOM} == map[];
  }

  /** A reports a count of zero for a room with a client, which the directory takes for giving the room
      up. Only PositiveCounts is broken. */
  lemma ZeroCountSplitsRoom() returns (ws: seq<World>, steps: seq<Step>)
    ensures Run(ws, steps)
    ensures forall i {:trigger steps[i]} | 0 <= i < |steps| ::
              LeasesOutlive(ws[i], steps[i]) && CrashStop(ws[i], steps[i])
    ensures TwoHosts(ws[|steps|])
  {
    var received := Late(0.0, A_HOLDS, DENIED, map[0 := Beat(A, map[ROOM := 0])], ON_A);
    var freed := Late(0.0, map[], DENIED, map[0 := Beat(A, map[])], ON_A);
    var split := Late(0.0, B_HOLDS, DENIED, freed.beats, ON_A[1 := Conn(B, ROOM, false)]);
    LeaseRunsOut();
    ZeroCountReleases();
    assert Next(freed, Connect(1, B, ROOM, false), split);
    assert split.conns[0].node == A && split.conns[1].node == B;
    ws := [START, HOSTED, received, freed, split];
    steps := [Connect(0, A, ROOM, false), Receive(0, A_DENIES), Renew(0, ROOM, false), Connect(1, B, ROOM, false)];
  }

  function Joining(leases: LeaseMap, pc: Pc): World {
    World(0.0, leases, B_KNOWN, map[0 := Join(ROOM, pc)], map[0 := Beat(B, map[])], ON_A, {})
  }

  const HB: Heartbeat := Heartbeat(B, ADDRESS, None, 0, false)

  /** A run without a late renewal or a nonpositive count, ending in w. */
  ghost predicate Path(ws: seq<World>, steps: seq<Step>, w: World) {
    && Run(ws, steps) && ws[|steps|] == w
    && forall i {:trigger steps[i]} | 0 <= i < |steps| :: LeasesOutlive(ws[i], steps[i]) && PositiveCounts(steps[i])
  }

  lemma Extend(ws: seq<World>, steps: seq<Step>, w: World, step: Step, w': World)
    returns (ws': seq<World>, steps': seq<Step>)
    requires Path(ws, steps, w) && Next(w, step, w') && !step.Tick? && PositiveCounts(step)
    ensures Path(ws', steps', w')
  {
    ws', steps' := ws + [w'], steps + [step];
    forall i {:trigger steps'[i]} | 0 <= i < |steps'|
      ensures Next(ws'[i], steps'[i], ws'[i + 1]) && LeasesOutlive(ws'[i], steps'[i]) && PositiveCounts(steps'[i])
    {
      assert i < |steps| ==> steps'[i] == steps[i] && ws'[i + 1] == ws[i + 1];
    }
  }

  /** A hosts a client before its first heartbeat, and a join for the room begins. */
  lemma JoinBegins() returns (ws: seq<World>, steps: seq<Step>)
    ensures Path(ws, steps, Joining(A_HOLDS, Marking))
  {
    var w0 := World(0.0, map[], map[], map[], map[], map[], {});
    var w1 := World(0.0, A_HOLDS, map[], map[], map[], ON_A, {});
    var w2 := World(0.0, A_HOLDS, B_KNOWN, map[], map[0 := Beat(B, map[])], ON_A, {});
    ws, steps := [w0], [];
    ws, steps := Extend(ws, steps, w0, Connect(0, A, ROOM, false), w1);
    ws, steps := Extend(ws, steps, w1, Receive(0, HB), w2);
    ws, steps := Extend(ws, steps, w2, Start(0, ROOM), Joining(A_HOLDS, Marking));
  }

  lemma JoinReadsA() returns (ws: seq<World>, steps: seq<Step>)
    ensures Path(ws, steps, Joining(A_HOLDS, CheckingEligible(A)))
  {
    var w0, w1 := Joining(A_HOLDS, Marking), Joining(A_HOLDS, ReadingOwner);
    assert MarkedStale(B_KNOWN, 0.0) == B_KNOWN;
    ws, steps := JoinBegins();
    ws, steps := Extend(ws, steps, w0, Advance(0, Mark), w1);
    ws, steps := Extend(ws, steps, w1, Advance(0, ReadOwner), Joining(A_HOLDS, CheckingEligible(A)));
  }

  lemma JoinCondemnsA() returns (ws: seq<World>, steps: seq<Step>)
    ensures Path(ws, steps, Joining(A_HOLDS, Listing(Some(A))))
  {
    var w2, w3 := Joining(A_HOLDS, CheckingEligible(A)), Joining(A_HOLDS, CheckingGone(A));
    ws, steps := JoinReadsA();
    ws, steps := Extend(ws, steps, w2, Advance(0, JudgeEligible), w3);
    ws, steps := Extend(ws, steps, w3, Advance(0, JudgeGone), Joining(A_HOLDS, Listing(Some(A))));
  }

  lemma JoinListsB()
    ensures Next(Joining(A_HOLDS, Listing(Some(A))), Advance(0, List), Joining(A_HOLDS, Ranking(Some(A), [B])))
  {
    assert (set id | id in B_KNOWN && Listed(B_KNOWN[id])) == {B};
    assert SetToSeq({B}) == [B];
  }

  lemma JoinRanksB()
    ensures Next(Joining(A_HOLDS, Ranking(Some(A), [B])), Advance(0, Rank([B])), Joining(A_HOLDS, Trying(Some(A), [B])))
  {
    Weights.SingletonRanking(B_KNOWN, ROOM, B);
  }

  lemma JoinTriesB() returns (ws: seq<World>, steps: seq<Step>)
    ensures Path(ws, steps, Joining(A_HOLDS, Trying(Some(A), [B])))
  {
    var w0, w1 := Joining(A_HOLDS, Listing(Some(A))), Joining(A_HOLDS, Ranking(Some(A), [B]));
    JoinListsB();
    JoinRanksB();
    ws, steps := JoinCondemnsA();
    ws, steps := Extend(ws, steps, w0, Advance(0, List), w1);
    ws, steps := Extend(ws, steps, w1, Advance(0, Rank([B])), Joining(A_HOLDS, Trying(Some(A), [B])));
  }

  lemma JoinTakesOver() returns (ws: seq<World>, steps: seq<Step>)
    ensures Path(ws, steps, Joining(B_HOLDS, Claimed(Some(A), [B])))
  {
    var w2, w3 := Joining(A_HOLDS, Trying(Some(A), [B])), Joining(A_HOLDS, Claiming(Some(A), [B]));
    ws, steps := JoinTriesB();
    ws, steps := Extend(ws, steps, w2, Advance(0, CheckLimit), w3);
    ws, steps := Extend(ws, steps, w3, Advance(0, Claim(false)), Joining(B_HOLDS, Claimed(Some(A), [B])));
  }

  /** A node the directory does not know yet, as every node after a directory restart, hosts a client;
      a join takes it for gone and moves the room. Only CrashStop is broken. */
  lemma UnknownNodeSplitsRoom() returns (ws: seq<World>, steps: seq<Step>)
    ensures Run(ws, steps)
    ensures forall i {:trigger steps[i]} | 0 <= i < |steps| ::
              LeasesOutlive(ws[i], steps[i]) && PositiveCounts(steps[i])
    ensures TwoHosts(ws[|steps|])
  {
    var last := Joining(B_HOLDS, Claimed(Some(A), [B]));
    var split := last.(conns := ON_A[1 := Conn(B, ROOM, false)]);
    ws, steps := JoinTakesOver();
    ws, steps := Extend(ws, steps, last, Connect(1, B, ROOM, false), split);
    assert split.conns[0].node == A && split.conns[1].node == B;
  }
}
