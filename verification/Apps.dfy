/** What the directory remembers of an app node (apps/directory/handlers.go:16-50). */
module Apps {
  import opened Names

  const ROOM_CAPACITY := 300
  const HEALTHY_TTL: real := 10.0

  datatype NodeStats = NodeStats(rssMB: nat, cpuPercent: real)

  datatype App = App(wsURL: Text, usersTotal: int, rooms: map<Text, int>, draining: bool,
                     lastSeen: real, healthy: bool, stats: Option<NodeStats>)

  type AppMap = map<Text, App>

  // rooms is None when the field was omitted, as it is for an empty map.
  datatype Heartbeat = Heartbeat(appID: Text, wsURL: Text, rooms: Option<map<Text, int>>,
                                 usersTotal: int, draining: bool)

  function RoomCount(a: App, room: Text): int {
    if room in a.rooms then a.rooms[room] else 0
  }

  /** The record after a heartbeat received at `now`; the heartbeat's stats are not kept. */
  function Heard(apps: AppMap, hb: Heartbeat, now: real): AppMap {
    var known := hb.appID in apps;
    var rooms := if hb.rooms.Some? then hb.rooms.value else if known then apps[hb.appID].rooms else map[];
    var stats := if known then apps[hb.appID].stats else None;
    apps[hb.appID := App(hb.wsURL, hb.usersTotal, rooms, hb.draining, now, true, stats)]
  }

  function Rechecked(a: App, now: real): App {
    a.(healthy := !a.draining && now - a.lastSeen <= HEALTHY_TTL)
  }

  function MarkedStale(apps: AppMap, now: real): AppMap {
    map id | id in apps :: Rechecked(apps[id], now)
  }

  predicate OwnerEligible(apps: AppMap, owner: Text, room: Text) {
    && owner in apps
    && apps[owner].healthy && !apps[owner].draining
    && RoomCount(apps[owner], room) < ROOM_CAPACITY
  }

  predicate OwnerGone(apps: AppMap, owner: Text, now: real) {
    owner !in apps || now - apps[owner].lastSeen > HEALTHY_TTL
  }

  predicate BelowRoomLimit(apps: AppMap, app: Text, room: Text) {
    app in apps && RoomCount(apps[app], room) < ROOM_CAPACITY
  }

  /** Listed by getHealthyAppIDs. */
  predicate Listed(a: App) {
    a.healthy && !a.draining && a.wsURL != []
  }
}
