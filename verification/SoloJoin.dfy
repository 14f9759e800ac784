/** The step-by-step join of Placement and the handler of Directory are one algorithm: a join left
    alone, whichever of its Redis commands fail without effect, ends exactly where the handler's
    contract says. */
module SoloJoin {
  import opened Names
  import opened Apps
  import opened Leases
  import opened Placement
  import Directory
  import Weights

  /** What the request found when it began, and which of its Redis commands fail. */
  datatype Call = Call(room: Text, now: real, apps: AppMap, leases: LeaseMap, faults: Directory.Faults)

  /** The join takes a step: a command fails exactly if the call says so, and no reply is lost. */
  ghost predicate SoloNext(call: Call, w: World, j: nat, act: Act, w': World) {
    && Next(w, Advance(j, act), w')
    && (act.ReadOwner? ==> !call.faults.lookup)
    && (act.OwnerError? ==> call.faults.lookup)
    && (act.Claim? ==> !act.lost && w.joins[j].pc.rest[0] !in call.faults.claims)
    && (act.ClaimError? ==> w.joins[j].pc.rest[0] in call.faults.claims)
  }

  function Marked(call: Call): AppMap {
    MarkedStale(call.apps, call.now)
  }

  function Seen(call: Call): Option<Text> {
    Directory.SeenOwner(call.leases, call.room, call.now, call.faults)
  }

  ghost predicate Rejected(call: Call, stale: Option<Text>) {
    Directory.Rejected(Marked(call), call.leases, call.room, call.now, call.faults, stale)
  }

  predicate HasRoom(call: Call, id: Text) {
    Directory.HasRoom(Marked(call), id, call.room)
  }

  ghost predicate ListsAll(call: Call, ids: seq<Text>) {
    forall id :: id in ids <==> Directory.InService(Marked(call), id, call.now) && Marked(call)[id].wsURL != []
  }

  predicate Refused(call: Call, stale: Option<Text>, id: Text) {
    !Claimable(call.leases, call.room, stale, call.now) || !HasRoom(call, id) || id in call.faults.claims
  }

  /** The first n of the ranked candidates could not be claimed; rest is what remains. */
  ghost predicate Progress(call: Call, stale: Option<Text>, rest: seq<Text>, ids: seq<Text>, ranked: seq<Text>,
                           n: nat) {
    && Rejected(call, stale)
    && ListsAll(call, ids) && ids != []
    && Weights.IsWeightedRanking(Marked(call), call.room, ids, ranked)
    && n <= |ranked| && rest == ranked[n..]
    && forall k | 0 <= k < n :: Refused(call, stale, ranked[k])
  }

  ghost predicate Trial(call: Call, stale: Option<Text>, rest: seq<Text>) {
    exists ids, ranked, n: nat :: Progress(call, stale, rest, ids, ranked, n)
  }

  ghost function ReplyOf(call: Call, answer: Answer): Directory.Reply {
    match answer
    case NoHealthyApps => Directory.NoHealthyApps
    case RoomFull => Directory.RoomFull
    case Routed(app) =>
      if app in Marked(call) then Directory.RouteTo(Marked(call), app, call.room) else Directory.BadRequest
  }

  ghost predicate Placed(call: Call, reply: Directory.Reply, after: LeaseMap) {
    Directory.Placed(Marked(call), call.leases, call.room, call.now, call.faults, reply, after)
  }

  /** How far the call has got, in terms of what it found. */
  ghost predicate Along(call: Call, w: World, j: nat) {
    && j in w.joins && w.joins[j].room == call.room && w.now == call.now
    && Directory.Addressed(Marked(call))
    && w.apps == (if w.joins[j].pc.Marking? then call.apps else Marked(call))
    && (!w.joins[j].pc.Claimed? && !w.joins[j].pc.Done? ==> w.leases == call.leases)
    && match w.joins[j].pc
       case Marking => true
       case ReadingOwner => true
       case CheckingEligible(owner) => Seen(call) == Some(owner)
       case CheckingGone(owner) =>
         Seen(call) == Some(owner) && !OwnerEligible(Marked(call), owner, call.room)
       case Listing(stale) => Rejected(call, stale)
       case Ranking(stale, ids) => Rejected(call, stale) && ListsAll(call, ids) && ids != []
       case Trying(stale, rest) => Trial(call, stale, rest)
       case Claiming(stale, rest) => Trial(call, stale, rest) && rest != [] && HasRoom(call, rest[0])
       case Claimed(stale, rest) =>
         && Trial(call, stale, rest) && rest != [] && !Refused(call, stale, rest[0])
         && w.leases == Put(call.leases, call.room, rest[0], call.now)
       case Releasing(_, _) => false
       case Done(answer) => Placed(call, ReplyOf(call, answer), w.leases)
  }

  lemma TrialMoves(call: Call, stale: Option<Text>, rest: seq<Text>)
    requires Trial(call, stale, rest) && rest != [] && Refused(call, stale, rest[0])
    ensures Trial(call, stale, rest[1..])
  {
    var ids, ranked, n: nat :| Progress(call, stale, rest, ids, ranked, n);
    assert n < |ranked|;
    assert ranked[n..][1..] == ranked[n + 1..];
    assert Progress(call, stale, rest[1..], ids, ranked, n + 1);
  }

  /** The candidates are the apps in service. */
  lemma RankedServe(call: Call, ids: seq<Text>, ranked: seq<Text>)
    requires Directory.Addressed(Marked(call)) && ListsAll(call, ids) && ids != []
    requires Weights.IsWeightedRanking(Marked(call), call.room, ids, ranked)
    ensures ranked != [] && ListsAll(call, ranked)
  {
    Weights.RankedAreCandidates(Marked(call), call.room, ids, ranked);
    Directory.ListedInService(call.apps, call.now, call.room);
    assert ids[0] in ids && ids[0] in ranked;
  }

  lemma TrialEnds(call: Call, stale: Option<Text>, rest: seq<Text>)
    requires Directory.Addressed(Marked(call)) && Trial(call, stale, rest) && rest == []
    ensures Placed(call, Directory.RoomFull, call.leases)
  {
    var ids, ranked, n: nat :| Progress(call, stale, rest, ids, ranked, n);
    RankedServe(call, ids, ranked);
    assert forall id | id in ranked :: Refused(call, stale, id);
    assert Directory.LoopOutcome(Marked(call), call.leases, call.room, call.now, stale, ranked, call.faults.claims,
                                 Directory.RoomFull, call.leases);
    Directory.LoopPlaces(Marked(call), call.leases, call.room, call.now, call.faults, stale, ids, ranked,
                         Directory.RoomFull, call.leases);
  }

  lemma TrialWins(call: Call, stale: Option<Text>, rest: seq<Text>)
    requires Directory.Addressed(Marked(call)) && Trial(call, stale, rest)
    requires rest != [] && !Refused(call, stale, rest[0])
    ensures Placed(call, Directory.RouteTo(Marked(call), rest[0], call.room),
                   Put(call.leases, call.room, rest[0], call.now))
  {
    var ids, ranked, n: nat :| Progress(call, stale, rest, ids, ranked, n);
    RankedServe(call, ids, ranked);
    var reply := Directory.RouteTo(Marked(call), rest[0], call.room);
    assert ranked[n] == rest[0] && ranked[n] in ranked;
    assert Directory.Fits(Marked(call), call.room, call.faults.claims, ranked[n]);
    forall k | 0 <= k < n ensures !Directory.Fits(Marked(call), call.room, call.faults.claims, ranked[k]) {
      assert Refused(call, stale, ranked[k]);
    }
    assert Directory.FirstFits(Marked(call), call.room, ranked, call.faults.claims, reply);
    Directory.LoopPlaces(Marked(call), call.leases, call.room, call.now, call.faults, stale, ids, ranked, reply,
                         Put(call.leases, call.room, rest[0], call.now));
  }

  lemma AlongStart(call: Call, w: World, j: nat, act: Act, w': World)
    requires Along(call, w, j) && SoloNext(call, w, j, act, w')
    requires act.Mark? || act.ReadOwner? || act.OwnerError?
    ensures Along(call, w', j)
  {
    if w'.joins[j].pc.Listing? {
      Directory.OwnerRejected(call.apps, call.leases, call.room, call.now, call.faults, None);
    }
  }

  lemma AlongJudge(call: Call, w: World, j: nat, act: Act, w': World)
    requires Along(call, w, j) && SoloNext(call, w, j, act, w') && (act.JudgeEligible? || act.JudgeGone?)
    ensures Along(call, w', j)
  {
    var owner := w.joins[j].pc.owner;
    if act.JudgeGone? {
      Directory.OwnerRejected(call.apps, call.leases, call.room, call.now, call.faults, w'.joins[j].pc.stale);
    } else if OwnerEligible(Marked(call), owner, call.room) {
      Directory.OwnerServes(call.apps, call.leases, call.room, call.now, call.faults);
    }
  }

  lemma AlongList(call: Call, w: World, j: nat, act: Act, w': World)
    requires Along(call, w, j) && SoloNext(call, w, j, act, w') && (act.List? || act.Rank?)
    ensures Along(call, w', j)
  {
    var pc := w.joins[j].pc;
    if act.List? {
      var ids := ListedIDs(Marked(call));
      Directory.ListedInService(call.apps, call.now, call.room);
      assert ListsAll(call, ids);
      if ids == [] {
        Directory.NobodyServes(Marked(call), call.leases, call.room, call.now, call.faults, pc.stale, ids);
      }
    } else {
      assert Progress(call, pc.stale, act.ranked, pc.ids, act.ranked, 0);
    }
  }

  lemma AlongCheck(call: Call, w: World, j: nat, act: Act, w': World)
    requires Along(call, w, j) && SoloNext(call, w, j, act, w') && act.CheckLimit?
    ensures Along(call, w', j)
  {
    var pc := w.joins[j].pc;
    if pc.rest == [] {
      TrialEnds(call, pc.stale, pc.rest);
    } else if w'.joins[j].pc.Trying? {
      TrialMoves(call, pc.stale, pc.rest);
    }
  }

  lemma AlongClaim(call: Call, w: World, j: nat, act: Act, w': World)
    requires Along(call, w, j) && SoloNext(call, w, j, act, w') && (act.Claim? || act.ClaimError?)
    ensures Along(call, w', j)
  {
    if w'.joins[j].pc.Trying? {
      TrialMoves(call, w.joins[j].pc.stale, w.joins[j].pc.rest);
    }
  }

  lemma AlongAddress(call: Call, w: World, j: nat, act: Act, w': World)
    requires Along(call, w, j) && SoloNext(call, w, j, act, w') && act.ReadAddress?
    ensures Along(call, w', j)
  {
    var app := w.joins[j].pc.rest[0];
    assert app in Marked(call) && Marked(call)[app].wsURL != [];
    assert w'.joins[j].pc == Done(Routed(app));
    assert ReplyOf(call, Routed(app)) == Directory.RouteTo(Marked(call), app, call.room);
    TrialWins(call, w.joins[j].pc.stale, w.joins[j].pc.rest);
  }

  lemma AlongStep(call: Call, w: World, j: nat, act: Act, w': World)
    requires Along(call, w, j) && SoloNext(call, w, j, act, w')
    ensures Along(call, w', j)
  {
    match act
    case Mark | ReadOwner | OwnerError => AlongStart(call, w, j, act, w');
    case JudgeEligible | JudgeGone => AlongJudge(call, w, j, act, w');
    case List => AlongList(call, w, j, act, w');
    case Rank(_) => AlongList(call, w, j, act, w');
    case CheckLimit => AlongCheck(call, w, j, act, w');
    case Claim(_) => AlongClaim(call, w, j, act, w');
    case ClaimError => AlongClaim(call, w, j, act, w');
    case ReadAddress => AlongAddress(call, w, j, act, w');
    case ReleaseBack(_) =>
  }

  ghost predicate SoloRun(call: Call, ws: seq<World>, acts: seq<Act>, j: nat) {
    && |ws| == |acts| + 1
    && forall k {:trigger acts[k]} | 0 <= k < |acts| :: SoloNext(call, ws[k], j, acts[k], ws[k + 1])
  }

  lemma {:induction false} AlongAll(call: Call, ws: seq<World>, acts: seq<Act>, j: nat, i: nat)
    requires SoloRun(call, ws, acts, j) && i < |ws| && Along(call, ws[0], j)
    ensures Along(call, ws[i], j)
  {
    if i > 0 {
      AlongAll(call, ws, acts, j, i - 1);
      AlongStep(call, ws[i - 1], j, acts[i - 1], ws[i]);
    }
  }

  /** A join that runs to its end alone leaves the answer and the lease that JoinHandler promises. */
  lemma SoloJoinIsPlaced(call: Call, ws: seq<World>, acts: seq<Act>, j: nat)
    requires SoloRun(call, ws, acts, j)
    requires j in ws[0].joins && ws[0].joins[j] == Join(call.room, Marking)
    requires ws[0].now == call.now && ws[0].apps == call.apps && ws[0].leases == call.leases
    requires Directory.Addressed(call.apps)
    requires j in ws[|acts|].joins && ws[|acts|].joins[j].pc.Done?
    ensures Directory.Placed(Marked(call), call.leases, call.room, call.now, call.faults,
                             ReplyOf(call, ws[|acts|].joins[j].pc.answer), ws[|acts|].leases)
  {
    AlongAll(call, ws, acts, j, |acts|);
  }
}
