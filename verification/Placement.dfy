/** Room placement as a protocol: any number of joins in the directory, heartbeats and WebSocket
    accepts on the nodes interleave, and each touches the shared lease keys one atomic command at a
    time (apps/directory/handlers.go:195-360, apps/app/server/main.go:358-405). The directory's mutex
    is not modelled: dropping it only adds interleavings. */
module Placement {
  import opened Names
  import opened Apps
  import opened Leases
  import Weights

  datatype Answer = Routed(app: Text) | NoHealthyApps | RoomFull

  /** Where a JoinHandler call stands: the name says what it does next. `stale` is staleOwner and
      `rest` the ranked candidates not yet given up. */
  datatype Pc =
    | Marking
    | ReadingOwner
    | CheckingEligible(owner: Text)
    | CheckingGone(owner: Text)
    | Listing(stale: Option<Text>)
    | Ranking(stale: Option<Text>, ids: seq<Text>)
    | Trying(stale: Option<Text>, rest: seq<Text>)
    | Claiming(stale: Option<Text>, rest: seq<Text>)
    | Claimed(stale: Option<Text>, rest: seq<Text>)
    | Releasing(stale: Option<Text>, rest: seq<Text>)
    | Done(answer: Answer)

  datatype Join = Join(room: Text, pc: Pc)

  /** A heartbeat being worked through: the rooms still to refresh or release. */
  datatype Beat = Beat(app: Text, todo: map<Text, int>)

  /** A connection a node let in: an accept in progress, then a client. */
  datatype Conn = Conn(node: Text, room: Text, client: bool)

  datatype World = World(now: real, leases: LeaseMap, apps: AppMap, joins: map<nat, Join>,
                         beats: map<nat, Beat>, conns: map<nat, Conn>, crashed: set<Text>)

  // The steps of a join. `lost` means Redis acted but the reply never arrived.
  datatype Act =
    | Mark
    | ReadOwner
    | OwnerError
    | JudgeEligible
    | JudgeGone
    | List
    | Rank(ranked: seq<Text>)
    | CheckLimit
    | Claim(lost: bool)
    | ClaimError
    | ReadAddress
    | ReleaseBack(failed: bool)

  datatype Step =
    | Tick(d: real)
    | Crash(node: Text)
    | Receive(b: nat, hb: Heartbeat)
    | Renew(b: nat, room: Text, failed: bool)
    | Start(j: nat, room: Text)
    | Advance(j: nat, act: Act)
    | Connect(c: nat, node: Text, room: Text, lost: bool)
    | Upgrade(c: nat)
    | Close(c: nat)

  ghost predicate CanAct(s: World, join: Join, act: Act) {
    match act
    case Mark => join.pc.Marking?
    case ReadOwner => join.pc.ReadingOwner?
    case OwnerError => join.pc.ReadingOwner?
    case JudgeEligible => join.pc.CheckingEligible?
    case JudgeGone => join.pc.CheckingGone?
    case List => join.pc.Listing?
    case Rank(ranked) => join.pc.Ranking? && Weights.IsWeightedRanking(s.apps, join.room, join.pc.ids, ranked)
    case CheckLimit => join.pc.Trying?
    case Claim(_) => join.pc.Claiming? && join.pc.rest != []
    case ClaimError => join.pc.Claiming? && join.pc.rest != []
    case ReadAddress => join.pc.Claimed? && join.pc.rest != []
    case ReleaseBack(_) => join.pc.Releasing? && join.pc.rest != []
  }

  /** The ids getHealthyAppIDs lists, in the order the map iteration happens to give. */
  ghost function ListedIDs(apps: AppMap): seq<Text> {
    SetToSeq(set id | id in apps && Listed(apps[id]))
  }

  ghost function SetToSeq(ids: set<Text>): (r: seq<Text>)
    ensures forall id :: id in r <==> id in ids
  {
    if ids == {} then [] else
      var id :| id in ids;
      [id] + SetToSeq(ids - {id})
  }

  ghost function PcAfter(s: World, join: Join, act: Act): Pc
    requires CanAct(s, join, act)
  {
    match act
    case Mark => ReadingOwner
    case ReadOwner =>
      var owner := OwnerAt(s.leases, join.room, s.now);
      if owner.Some? then CheckingEligible(owner.value) else Listing(None)
    case OwnerError => Listing(None)
    case JudgeEligible =>
      if OwnerEligible(s.apps, join.pc.owner, join.room) then Done(Routed(join.pc.owner))
      else CheckingGone(join.pc.owner)
    case JudgeGone =>
      Listing(if OwnerGone(s.apps, join.pc.owner, s.now) then Some(join.pc.owner) else None)
    case List =>
      var ids := ListedIDs(s.apps);
      if ids == [] then Done(NoHealthyApps) else Ranking(join.pc.stale, ids)
    case Rank(ranked) => Trying(join.pc.stale, ranked)
    case CheckLimit =>
      if join.pc.rest == [] then Done(RoomFull)
      else if BelowRoomLimit(s.apps, join.pc.rest[0], join.room) then Claiming(join.pc.stale, join.pc.rest)
      else Trying(join.pc.stale, join.pc.rest[1..])
    case Claim(lost) =>
      if Claimable(s.leases, join.room, join.pc.stale, s.now) && !lost then Claimed(join.pc.stale, join.pc.rest)
      else Trying(join.pc.stale, join.pc.rest[1..])
    case ClaimError => Trying(join.pc.stale, join.pc.rest[1..])
    case ReadAddress =>
      if join.pc.rest[0] in s.apps && s.apps[join.pc.rest[0]].wsURL != [] then Done(Routed(join.pc.rest[0]))
      else Releasing(join.pc.stale, join.pc.rest)
    case ReleaseBack(_) => Trying(join.pc.stale, join.pc.rest[1..])
  }

  ghost function LeasesAfter(s: World, join: Join, act: Act): LeaseMap
    requires CanAct(s, join, act)
  {
    match act
    case Claim(_) => Leases.Claimed(s.leases, join.room, join.pc.stale, join.pc.rest[0], s.now)
    case ReleaseBack(failed) =>
      if failed then s.leases else Released(s.leases, join.room, join.pc.rest[0], s.now)
    case _ => s.leases
  }

  ghost predicate Enabled(s: World, step: Step) {
    match step
    case Tick(d) => d >= 0.0
    case Crash(_) => true
    case Receive(b, hb) => b !in s.beats && hb.appID != [] && hb.wsURL != []
    case Renew(b, room, _) => b in s.beats && room in s.beats[b].todo
    case Start(j, room) => j !in s.joins && room != []
    case Advance(j, act) => j in s.joins && CanAct(s, s.joins[j], act)
    case Connect(c, node, _, _) => c !in s.conns && node !in s.crashed
    case Upgrade(c) => c in s.conns
    case Close(c) => c in s.conns
  }

  ghost predicate Accepts(s: World, node: Text, room: Text) {
    OwnerAt(Leases.Claimed(s.leases, room, None, node, s.now), room, s.now) == Some(node)
  }

  ghost function Apply(s: World, step: Step): World
    requires Enabled(s, step)
  {
    match step
    case Tick(d) => s.(now := s.now + d)
    case Crash(node) =>
      s.(crashed := s.crashed + {node},
         conns := map c | c in s.conns && s.conns[c].node != node :: s.conns[c])
    case Receive(b, hb) =>
      s.(apps := Heard(s.apps, hb, s.now),
         beats := s.beats[b := Beat(hb.appID, if hb.rooms.Some? then hb.rooms.value else map[])])
    case Renew(b, room, failed) =>
      var beat := s.beats[b];
      s.(beats := s.beats[b := beat.(todo := beat.todo - {room})],
         leases := if failed then s.leases
                   else if beat.todo[room] > 0 then Refreshed(s.leases, room, beat.app, s.now)
                   else Released(s.leases, room, beat.app, s.now))
    case Start(j, room) => s.(joins := s.joins[j := Join(room, Marking)])
    case Advance(j, act) =>
      var join := s.joins[j];
      s.(joins := s.joins[j := join.(pc := PcAfter(s, join, act))],
         leases := LeasesAfter(s, join, act),
         apps := if act.Mark? then MarkedStale(s.apps, s.now) else s.apps)
    case Connect(c, node, room, lost) =>
      s.(leases := Leases.Claimed(s.leases, room, None, node, s.now),
         conns := if Accepts(s, node, room) && !lost then s.conns[c := Conn(node, room, false)] else s.conns)
    case Upgrade(c) => s.(conns := s.conns[c := s.conns[c].(client := true)])
    case Close(c) => s.(conns := s.conns - {c})
  }

  ghost predicate Init(s: World) {
    s.leases == map[] && s.apps == map[] && s.joins == map[] && s.beats == map[] && s.conns == map[] && s.crashed == {}
  }

  ghost predicate Next(s: World, step: Step, s': World) {
    Enabled(s, step) && s' == Apply(s, step)
  }

  /** ws[i] is the world before steps[i]. */
  ghost predicate Run(ws: seq<World>, steps: seq<Step>) {
    && |ws| == |steps| + 1
    && Init(ws[0])
    && forall i {:trigger steps[i]} | 0 <= i < |steps| :: Next(ws[i], steps[i], ws[i + 1])
  }

  ghost predicate Holds(s: World, room: Text, app: Text) {
    OwnerAt(s.leases, room, s.now) == Some(app)
  }

  /** The node has a connection to the room. */
  ghost predicate Hosts(s: World, node: Text, room: Text) {
    exists c :: c in s.conns && s.conns[c].node == node && s.conns[c].room == room
  }

  lemma WhereConnsComeFrom(s: World, step: Step, c: nat)
    requires Enabled(s, step) && c in Apply(s, step).conns
    ensures var conn := Apply(s, step).conns[c];
            if c in s.conns then s.conns[c].node == conn.node && s.conns[c].room == conn.room
            else step == Connect(c, conn.node, conn.room, false) && Accepts(s, conn.node, conn.room)
  {
  }

  /** A connection ends only by closing or with its node, and becomes a client only by its upgrade. */
  lemma WhereConnsGo(s: World, step: Step, c: nat)
    requires Enabled(s, step) && c in s.conns
    ensures var s' := Apply(s, step);
            && (c !in s'.conns <==> step == Close(c) || step == Crash(s.conns[c].node))
            && (c in s'.conns ==> s'.conns[c] == s.conns[c].(client := s.conns[c].client || step == Upgrade(c)))
  {
  }

  ///////////////////////////// What needs no assumption /////////////////////////////

  /** A claim that is given back leaves the app without the room. */
  lemma GivenBack(s: World, j: nat)
    requires Enabled(s, Advance(j, ReleaseBack(false)))
    ensures !Holds(Apply(s, Advance(j, ReleaseBack(false))), s.joins[j].room, s.joins[j].pc.rest[0])
  {
  }

  ghost predicate CandidatesKnown(apps: AppMap, pc: Pc) {
    && !pc.Releasing?
    && ((pc.Trying? || pc.Claiming? || pc.Claimed?) ==> forall id | id in pc.rest :: id in apps)
  }

  /** Every app has an address and every candidate is known, so no join ever gives a lease back. */
  ghost predicate Sound(s: World) {
    && (forall id | id in s.apps :: s.apps[id].wsURL != [])
    && (forall j | j in s.joins :: CandidatesKnown(s.apps, s.joins[j].pc))
  }

  lemma SoundAct(s: World, j: nat, act: Act)
    requires Sound(s) && Enabled(s, Advance(j, act))
    ensures Sound(Apply(s, Advance(j, act)))
  {
    if act.Rank? {
      Weights.RankedAreCandidates(s.apps, s.joins[j].room, s.joins[j].pc.ids, act.ranked);
    }
    var s' := Apply(s, Advance(j, act));
    assert s'.apps.Keys == s.apps.Keys;
    forall k | k in s'.joins ensures CandidatesKnown(s'.apps, s'.joins[k].pc) {
      assert CandidatesKnown(s.apps, s.joins[k].pc);
    }
  }

  lemma SoundStep(s: World, step: Step)
    requires Sound(s) && Enabled(s, step)
    ensures Sound(Apply(s, step))
  {
    if step.Advance? {
      SoundAct(s, step.j, step.act);
    }
  }

  lemma {:induction false} SoundRun(ws: seq<World>, steps: seq<Step>, i: nat)
    requires Run(ws, steps) && i < |ws|
    ensures Sound(ws[i])
  {
    if i > 0 {
      SoundRun(ws, steps, i - 1);
      SoundStep(ws[i - 1], steps[i - 1]);
    }
  }
}
