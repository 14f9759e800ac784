/** The directory service (apps/directory/handlers.go): its table of apps, the heartbeat handler
    and the join handler, one request at a time. */
module Directory {
  import opened Names
  import opened Apps
  import opened Leases
  import Hrw
  import Weights

  const ROOM_QUERY: Text := [63, 114, 111, 111, 109, 61]  // "?room="

  datatype Reply =
    | BadRequest
    | Routed(app: Text, url: Text)
    | NoHealthyApps
    | RoomFull

  predicate Addressed(apps: AppMap) {
    forall id | id in apps :: apps[id].wsURL != []
  }

  function RouteTo(apps: AppMap, id: Text, room: Text): Reply
    requires id in apps
  {
    Routed(id, apps[id].wsURL + ROOM_QUERY + room)
  }

  /** The Redis commands that fail, without effect, during one join: reading the owner, and claiming
      for these apps. */
  datatype Faults = Faults(lookup: bool, claims: set<Text>)

  ///////////////////////////// What a join is to do, in terms of what nodes reported ////////////////////////////

  /** Heard within the last ten seconds, and not draining. */
  predicate InService(apps: AppMap, id: Text, now: real) {
    id in apps && !apps[id].draining && now - apps[id].lastSeen <= 10.0
  }

  predicate HasRoom(apps: AppMap, id: Text, room: Text) {
    id in apps && (room in apps[id].rooms ==> apps[id].rooms[room] < 300)
  }

  predicate Placeable(apps: AppMap, room: Text, now: real, faults: Faults, id: Text) {
    InService(apps, id, now) && apps[id].wsURL != [] && HasRoom(apps, id, room) && id !in faults.claims
  }

  ghost predicate Best(apps: AppMap, room: Text, now: real, faults: Faults, id: Text) {
    && Placeable(apps, room, now, faults, id)
    && forall other | Placeable(apps, room, now, faults, other) ::
         Weights.Scale(Hrw.Score(room, id), Weights.NodeWeight(apps[id]))
         >= Weights.Scale(Hrw.Score(room, other), Weights.NodeWeight(apps[other]))
  }

  predicate SentTo(apps: AppMap, room: Text, reply: Reply, id: Text) {
    id in apps && reply == Routed(id, apps[id].wsURL + Ascii("?room=") + room)
  }

  /** Where a join alone in the system ends up: an owner in service with room; or 503 when nobody is in
      service; or 429 while the lease is held by an owner that was not read as gone; or the placeable
      app of greatest weighted score, which gets the lease; or 429 when there is none. `apps` is the
      table after the stale marking. */
  ghost predicate Placed(apps: AppMap, leases: LeaseMap, room: Text, now: real, faults: Faults, reply: Reply,
                         after: LeaseMap) {
    var owner := if faults.lookup then None else OwnerAt(leases, room, now);
    var gone := owner.Some? && (owner.value !in apps || now - apps[owner.value].lastSeen > 10.0);
    if owner.Some? && InService(apps, owner.value, now) && HasRoom(apps, owner.value, room) then
      SentTo(apps, room, reply, owner.value) && after == leases
    else if forall id | InService(apps, id, now) :: apps[id].wsURL == [] then
      reply == NoHealthyApps && after == leases
    else if OwnerAt(leases, room, now).Some? && !gone then
      reply == RoomFull && after == leases
    else if exists id :: Placeable(apps, room, now, faults, id) then
      reply.Routed? && Best(apps, room, now, faults, reply.app) && SentTo(apps, room, reply, reply.app)
      && after == leases[room := Lease(reply.app, now + 60.0)]
    else
      reply == RoomFull && after == leases
  }

  /** What the marking, and the handler's three tests after it, come to. */
  lemma MarkedMeans(apps: AppMap, now: real, room: Text, id: Text)
    ensures var marked := MarkedStale(apps, now);
            && (id in marked <==> id in apps)
            && (id in marked ==> marked[id] == apps[id].(healthy := InService(apps, id, now)))
            && (id in marked && Listed(marked[id]) <==> InService(marked, id, now) && marked[id].wsURL != [])
            && (OwnerEligible(marked, id, room) <==> InService(marked, id, now) && HasRoom(marked, id, room))
            && (OwnerGone(marked, id, now) <==> id !in marked || now - marked[id].lastSeen > 10.0)
            && (BelowRoomLimit(marked, id, room) <==> HasRoom(marked, id, room))
  {
  }

  lemma RouteIsSent(apps: AppMap, id: Text, room: Text)
    requires id in apps
    ensures SentTo(apps, room, RouteTo(apps, id, room), id)
  {
    assert ROOM_QUERY == Ascii("?room=");
  }

  /** The leases after the heartbeat's room list was worked through: positive counts refresh, the
      others release, and only live leases the app itself holds are touched. */
  ghost predicate Reported(hb: Heartbeat, now: real, before: LeaseMap, after: LeaseMap) {
    var rooms := if hb.rooms.Some? then hb.rooms.value else map[];
    forall r: Text ::
      (if r !in rooms || r !in before || before[r].owner != hb.appID || before[r].deadline < now then
         (r in after <==> r in before) && (r in after ==> after[r] == before[r])
       else if rooms[r] > 0 then
         r in after && after[r] == Lease(hb.appID, now + 60.0)
       else r !in after)
  }

  class State {
    var apps: AppMap
    const store: LeaseStore

    ghost predicate Valid()
      reads this
    {
      Addressed(apps)
    }

    constructor (store: LeaseStore)
      ensures Valid() && apps == map[] && this.store == store
    {
      this.store := store;
      apps := map[];
    }

    /** Returns whether the heartbeat was accepted (200) or lacked a field (400). */
    method HeartbeatHandler(hb: Heartbeat, now: real) returns (ok: bool)
      requires Valid()
      modifies this, store
      ensures Valid()
      ensures ok <==> hb.appID != [] && hb.wsURL != []
      ensures !ok ==> apps == old(apps) && store.leases == old(store.leases)
      ensures ok ==> apps == Heard(old(apps), hb, now)
      ensures ok ==> apps.Keys == old(apps).Keys + {hb.appID}
      ensures ok ==> forall id | id in apps && id != hb.appID :: apps[id] == old(apps)[id]
      ensures ok ==> var a := apps[hb.appID];
                && a.wsURL == hb.wsURL && a.usersTotal == hb.usersTotal && a.draining == hb.draining
                && a.lastSeen == now && a.healthy
                && a.rooms == (if hb.rooms.Some? then hb.rooms.value
                               else if hb.appID in old(apps) then old(apps)[hb.appID].rooms else map[])
                && a.stats == (if hb.appID in old(apps) then old(apps)[hb.appID].stats else None)
      ensures ok ==> Reported(hb, now, old(store.leases), store.leases)
    {
      if hb.appID == [] || hb.wsURL == [] {
        return false;
      }
      apps := Heard(apps, hb, now);
      ghost var before := store.leases;
      var rooms := if hb.rooms.Some? then hb.rooms.value else map[];
      var todo := rooms.Keys;
      while todo != {}
        invariant todo <= rooms.Keys
        invariant Valid() && apps == Heard(old(apps), hb, now)
        invariant Reported(hb.(rooms := Some(rooms - todo)), now, before, store.leases)
        decreases |todo|
      {
        var room :| room in todo;
        if rooms[room] > 0 {
          store.RefreshLease(room, hb.appID, now);
        } else {
          store.Release(room, hb.appID, now);
        }
        todo := todo - {room};
      }
      return true;
    }

    method MarkStale(now: real)
      modifies this
      ensures apps == MarkedStale(old(apps), now)
      ensures apps.Keys == old(apps).Keys
      ensures forall id | id in apps ::
                var a := old(apps)[id];
                apps[id] == a.(healthy := !a.draining && now - a.lastSeen <= 10.0)
    {
      var todo := apps.Keys;
      while todo != {}
        invariant todo <= apps.Keys == old(apps).Keys
        invariant forall id | id in apps ::
            apps[id] == if id in todo then old(apps)[id] else Rechecked(old(apps)[id], now)
        decreases |todo|
      {
        var id :| id in todo;
        apps := apps[id := Rechecked(apps[id], now)];
        todo := todo - {id};
      }
    }

    method GetHealthyAppIDs() returns (ids: seq<Text>)
      ensures forall id ::
                id in ids <==> id in apps && apps[id].healthy && !apps[id].draining && apps[id].wsURL != []
      ensures forall i, k | 0 <= i < k < |ids| :: ids[i] != ids[k]
    {
      ids := [];
      var todo := apps.Keys;
      while todo != {}
        invariant todo <= apps.Keys
        invariant forall id :: id in ids <==> id in apps && id !in todo && Listed(apps[id])
        invariant forall i, k | 0 <= i < k < |ids| :: ids[i] != ids[k]
        decreases |todo|
      {
        var id :| id in todo;
        if Listed(apps[id]) {
          ids := ids + [id];
        }
        todo := todo - {id};
      }
    }

    method JoinHandler(room: Text, now: real, faults: Faults) returns (reply: Reply)
      requires Valid()
      modifies this, store
      ensures Valid()
      ensures room == [] ==> reply == BadRequest && apps == old(apps) && store.leases == old(store.leases)
      ensures room != [] ==> apps == MarkedStale(old(apps), now)
      ensures room != [] ==> Placed(apps, old(store.leases), room, now, faults, reply, store.leases)
      ensures reply.Routed? ==> Serves(apps, store.leases, room, now, reply.app, reply.url)
    {
      if room == [] {
        return BadRequest;
      }
      MarkStale(now);

      var staleOwner: Option<Text> := None;
      if !faults.lookup {
        var owner := store.Owner(room, now);
        if owner.Some? {
          if OwnerEligible(apps, owner.value, room) {
            OwnerServes(old(apps), store.leases, room, now, faults);
            return RouteTo(apps, owner.value, room);
          }
          if OwnerGone(apps, owner.value, now) {
            staleOwner := owner;
          }
        }
      }
      OwnerRejected(old(apps), store.leases, room, now, faults, staleOwner);
      var ids := GetHealthyAppIDs();
      ListedInService(old(apps), now, room);
      if |ids| == 0 {
        NobodyServes(apps, store.leases, room, now, faults, staleOwner, ids);
        return NoHealthyApps;
      }
      assert ids[0] in ids;
      var ranked := Weights.WeightedRankApps(apps, room, ids);
      Weights.RankedAreCandidates(apps, room, ids, ranked);
      reply := ClaimLoop(room, now, staleOwner, ranked, faults.claims);
      LoopPlaces(apps, old(store.leases), room, now, faults, staleOwner, ids, ranked, reply, store.leases);
      RoutedMeans(apps, old(store.leases), room, now, faults, reply, store.leases);
    }

    /** The loop over the ranked candidates: the first one below the room limit whose claim goes
        through wins, unless it has no address; then it gives the lease back and the loop goes on, as it
        does after a failed command. */
    method ClaimLoop(room: Text, now: real, staleOwner: Option<Text>, ranked: seq<Text>, failing: set<Text>)
      returns (reply: Reply)
      requires forall id | id in ranked :: id in apps
      modifies store
      ensures LoopOutcome(apps, old(store.leases), room, now, staleOwner, ranked, failing, reply, store.leases)
    {
      for i := 0 to |ranked|
        invariant store.leases == LeasesTried(apps, old(store.leases), room, now, staleOwner, ranked[..i], failing)
        invariant forall k | 0 <= k < i ::
            !Claimable(old(store.leases), room, staleOwner, now) || !Fits(apps, room, failing, ranked[k])
      {
        var id := ranked[i];
        assert ranked[..i + 1] == ranked[..i] + [id];
        if BelowRoomLimit(apps, id, room) && id !in failing {
          var claimed;
          if staleOwner.Some? {
            claimed := store.Takeover(room, staleOwner.value, id, now);
          } else {
            claimed := store.TryClaim(room, id, now);
          }
          if claimed {
            assert Claimable(old(store.leases), room, staleOwner, now);
            assert store.leases == Put(old(store.leases), room, id, now);
            if apps[id].wsURL != [] {
              assert id in ranked && Fits(apps, room, failing, id);
              return RouteTo(apps, id, room);
            }
            store.Release(room, id, now);
          }
        }
      }
      assert ranked[..|ranked|] == ranked;
      return RoomFull;
    }
  }

  function SeenOwner(leases: LeaseMap, room: Text, now: real, faults: Faults): Option<Text> {
    if faults.lookup then None else OwnerAt(leases, room, now)
  }

  lemma OwnerServes(apps: AppMap, leases: LeaseMap, room: Text, now: real, faults: Faults)
    requires var owner, marked := SeenOwner(leases, room, now, faults), MarkedStale(apps, now);
             owner.Some? && OwnerEligible(marked, owner.value, room)
    ensures var owner, marked := SeenOwner(leases, room, now, faults), MarkedStale(apps, now);
            var reply := RouteTo(marked, owner.value, room);
            Placed(marked, leases, room, now, faults, reply, leases)
            && Serves(marked, leases, room, now, reply.app, reply.url)
  {
    var owner, marked := SeenOwner(leases, room, now, faults), MarkedStale(apps, now);
    MarkedMeans(apps, now, room, owner.value);
    RouteIsSent(marked, owner.value, room);
    RoutedMeans(marked, leases, room, now, faults, RouteTo(marked, owner.value, room), leases);
  }

  lemma OwnerRejected(apps: AppMap, leases: LeaseMap, room: Text, now: real, faults: Faults,
                      staleOwner: Option<Text>)
    requires var owner, marked := SeenOwner(leases, room, now, faults), MarkedStale(apps, now);
             && (owner.Some? ==> !OwnerEligible(marked, owner.value, room))
             && staleOwner == (if owner.Some? && OwnerGone(marked, owner.value, now) then owner else None)
    ensures Rejected(MarkedStale(apps, now), leases, room, now, faults, staleOwner)
  {
    var owner := SeenOwner(leases, room, now, faults);
    if owner.Some? {
      MarkedMeans(apps, now, room, owner.value);
    }
  }

  lemma NobodyServes(apps: AppMap, leases: LeaseMap, room: Text, now: real, faults: Faults,
                     staleOwner: Option<Text>, ids: seq<Text>)
    requires Rejected(apps, leases, room, now, faults, staleOwner)
    requires ids == [] && forall id :: id in ids <==> InService(apps, id, now) && apps[id].wsURL != []
    ensures Placed(apps, leases, room, now, faults, NoHealthyApps, leases)
  {
    forall id | InService(apps, id, now) ensures apps[id].wsURL == [] {
      assert id !in ids;
    }
  }

  /** A routed app holds the lease, was heard within ten seconds, is not draining and reports fewer than
      300 users in the room. */
  ghost predicate Serves(apps: AppMap, leases: LeaseMap, room: Text, now: real, app: Text, url: Text) {
    && app in apps && now - apps[app].lastSeen <= 10.0 && !apps[app].draining
    && (room in apps[app].rooms ==> apps[app].rooms[room] < 300)
    && url == apps[app].wsURL + Ascii("?room=") + room
    && OwnerAt(leases, room, now) == Some(app)
  }

  lemma RoutedMeans(apps: AppMap, leases: LeaseMap, room: Text, now: real, faults: Faults, reply: Reply,
                    after: LeaseMap)
    requires Placed(apps, leases, room, now, faults, reply, after)
    ensures reply.Routed? ==> Serves(apps, after, room, now, reply.app, reply.url)
  {
  }

  lemma ListedInService(apps: AppMap, now: real, room: Text)
    ensures var marked := MarkedStale(apps, now);
            forall id :: id in marked && marked[id].healthy && !marked[id].draining && marked[id].wsURL != []
                         <==> InService(marked, id, now) && marked[id].wsURL != []
  {
    forall id ensures var marked := MarkedStale(apps, now);
                      id in marked && Listed(marked[id]) <==> InService(marked, id, now) && marked[id].wsURL != []
    {
      MarkedMeans(apps, now, room, id);
    }
  }

  predicate Fits(apps: AppMap, room: Text, failing: set<Text>, id: Text) {
    HasRoom(apps, id, room) && apps[id].wsURL != [] && id !in failing
  }

  ghost predicate FirstFits(apps: AppMap, room: Text, ranked: seq<Text>, failing: set<Text>, reply: Reply) {
    exists i :: 0 <= i < |ranked| && Fits(apps, room, failing, ranked[i])
      && (forall k | 0 <= k < i :: !Fits(apps, room, failing, ranked[k]))
      && reply == RouteTo(apps, ranked[i], room)
  }

  /** The leases after these candidates were tried and none was kept: the room's key is gone if any of
      them claimed it. */
  function LeasesTried(apps: AppMap, leases: LeaseMap, room: Text, now: real, staleOwner: Option<Text>,
                       tried: seq<Text>, failing: set<Text>): LeaseMap {
    if Claimable(leases, room, staleOwner, now)
       && exists id :: id in tried && HasRoom(apps, id, room) && id !in failing
    then leases - {room}
    else leases
  }

  /** What the claim loop does to a lease table it has to itself. */
  ghost predicate LoopOutcome(apps: AppMap, leases: LeaseMap, room: Text, now: real, staleOwner: Option<Text>,
                              ranked: seq<Text>, failing: set<Text>, reply: Reply, after: LeaseMap) {
    if Claimable(leases, room, staleOwner, now) && exists id :: id in ranked && Fits(apps, room, failing, id) then
      FirstFits(apps, room, ranked, failing, reply) && after == leases[room := Lease(reply.app, now + 60.0)]
    else
      reply == RoomFull && after == LeasesTried(apps, leases, room, now, staleOwner, ranked, failing)
  }

  /** The handler has read an owner that could not serve the room, and goes on with its lease as stale
      exactly when it is gone. */
  ghost predicate Rejected(apps: AppMap, leases: LeaseMap, room: Text, now: real, faults: Faults,
                           staleOwner: Option<Text>) {
    var seen := SeenOwner(leases, room, now, faults);
    && (seen.Some? ==> !(InService(apps, seen.value, now) && HasRoom(apps, seen.value, room)))
    && staleOwner == (if seen.Some? && (seen.value !in apps || now - apps[seen.value].lastSeen > 10.0)
                      then seen else None)
  }

  lemma LoopPlaces(apps: AppMap, leases: LeaseMap, room: Text, now: real, faults: Faults, staleOwner: Option<Text>,
                   ids: seq<Text>, ranked: seq<Text>, reply: Reply, after: LeaseMap)
    requires Addressed(apps)
    requires Weights.IsWeightedRanking(apps, room, ids, ranked)
    requires ranked != []
    requires forall id :: id in ranked <==> InService(apps, id, now) && apps[id].wsURL != []
    requires LoopOutcome(apps, leases, room, now, staleOwner, ranked, faults.claims, reply, after)
    requires Rejected(apps, leases, room, now, faults, staleOwner)
    ensures Placed(apps, leases, room, now, faults, reply, after)
  {
    assert ranked[0] in ranked;
    if Claimable(leases, room, staleOwner, now) {
      if id :| id in ranked && Fits(apps, room, faults.claims, id) {
        FirstFitIsBest(apps, room, now, faults, ids, ranked, reply);
        assert Placeable(apps, room, now, faults, id);
      }
    }
  }

  lemma FirstFitIsBest(apps: AppMap, room: Text, now: real, faults: Faults, ids: seq<Text>, ranked: seq<Text>,
                       reply: Reply)
    requires Addressed(apps)
    requires Weights.IsWeightedRanking(apps, room, ids, ranked)
    requires forall id :: id in ranked <==> InService(apps, id, now) && apps[id].wsURL != []
    requires FirstFits(apps, room, ranked, faults.claims, reply)
    ensures reply.Routed? && Best(apps, room, now, faults, reply.app) && SentTo(apps, room, reply, reply.app)
  {
    var i :| 0 <= i < |ranked| && Fits(apps, room, faults.claims, ranked[i])
             && (forall k | 0 <= k < i :: !Fits(apps, room, faults.claims, ranked[k]))
             && reply == RouteTo(apps, ranked[i], room);
    assert ranked[i] in ranked;
    RouteIsSent(apps, ranked[i], room);
    Weights.RankedOrder(apps, room, ids, ranked);
    forall other | Placeable(apps, room, now, faults, other)
      ensures Weights.Scale(Hrw.Score(room, ranked[i]), Weights.NodeWeight(apps[ranked[i]]))
              >= Weights.Scale(Hrw.Score(room, other), Weights.NodeWeight(apps[other]))
    {
      assert other in ranked;
      var j :| 0 <= j < |ranked| && ranked[j] == other;
      assert !(j < i);
    }
  }
}
