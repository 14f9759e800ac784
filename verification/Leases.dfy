/** Room leases in Redis: one expiring key per room, changed only by atomic commands and scripts
    (apps/directory/redis.go and apps/app/server/roomlease.go). Times are in seconds. */
module Leases {
  import opened Names

  // leaseTTL in the directory and roomLeaseTTL in the app server
  const LEASE_TTL: real := 60.0

  datatype Lease = Lease(owner: Text, deadline: real)

  type LeaseMap = map<Text, Lease>

  /** The owner a reader sees. Redis drops a key once the clock is past its deadline. */
  function OwnerAt(leases: LeaseMap, room: Text, now: real): Option<Text> {
    if room in leases && now <= leases[room].deadline then Some(leases[room].owner) else None
  }

  /** SET key app EX 60 */
  function Put(leases: LeaseMap, room: Text, app: Text, now: real): LeaseMap {
    leases[room := Lease(app, now + LEASE_TTL)]
  }

  function Refreshed(leases: LeaseMap, room: Text, app: Text, now: real): LeaseMap {
    if OwnerAt(leases, room, now) == Some(app) then Put(leases, room, app, now) else leases
  }

  function Released(leases: LeaseMap, room: Text, app: Text, now: real): LeaseMap {
    if OwnerAt(leases, room, now) == Some(app) then leases - {room} else leases
  }

  /** When a claim goes through: the key is absent, or still holds the owner given as stale. */
  predicate Claimable(leases: LeaseMap, room: Text, stale: Option<Text>, now: real) {
    var cur := OwnerAt(leases, room, now);
    cur.None? || (stale.Some? && cur == stale)
  }

  function Claimed(leases: LeaseMap, room: Text, stale: Option<Text>, app: Text, now: real): LeaseMap {
    if Claimable(leases, room, stale, now) then Put(leases, room, app, now) else leases
  }

  /** The five atomic operations. */
  class LeaseStore {
    var leases: LeaseMap

    constructor ()
      ensures leases == map[]
    {
      leases := map[];
    }

    method Owner(room: Text, now: real) returns (owner: Option<Text>)
      ensures owner == OwnerAt(leases, room, now)
      ensures owner == if room in leases && leases[room].deadline >= now then Some(leases[room].owner) else None
    {
      if room in leases && now <= leases[room].deadline {
        return Some(leases[room].owner);
      }
      return None;
    }

    method TryClaim(room: Text, app: Text, now: real) returns (ok: bool)
      modifies this
      ensures ok <==> OwnerAt(old(leases), room, now) == None
      ensures leases == Claimed(old(leases), room, None, app, now)
      ensures leases == if ok then old(leases)[room := Lease(app, now + 60.0)] else old(leases)
    {
      var owner := Owner(room, now);
      ok := owner.None?;
      if ok {
        leases := leases[room := Lease(app, now + LEASE_TTL)];
      }
    }

    method RefreshLease(room: Text, app: Text, now: real)
      modifies this
      ensures leases == Refreshed(old(leases), room, app, now)
      ensures var held := room in old(leases) && old(leases)[room].owner == app && old(leases)[room].deadline >= now;
              leases == if held then old(leases)[room := Lease(app, now + 60.0)] else old(leases)
    {
      var owner := Owner(room, now);
      if owner == Some(app) {
        leases := leases[room := leases[room].(deadline := now + LEASE_TTL)];
      }
    }

    method Release(room: Text, app: Text, now: real)
      modifies this
      ensures leases == Released(old(leases), room, app, now)
      ensures var held := room in old(leases) && old(leases)[room].owner == app && old(leases)[room].deadline >= now;
              leases == if held then old(leases) - {room} else old(leases)
    {
      var owner := Owner(room, now);
      if owner == Some(app) {
        leases := leases - {room};
      }
    }

    method Takeover(room: Text, stale: Text, app: Text, now: real) returns (ok: bool)
      modifies this
      ensures ok <==> Claimable(old(leases), room, Some(stale), now)
      ensures leases == Claimed(old(leases), room, Some(stale), app, now)
      ensures ok <==> OwnerAt(old(leases), room, now) in {None, Some(stale)}
      ensures leases == if ok then old(leases)[room := Lease(app, now + 60.0)] else old(leases)
    {
      var owner := Owner(room, now);
      ok := owner.None? || owner == Some(stale);
      if ok {
        leases := leases[room := Lease(app, now + LEASE_TTL)];
      }
    }

    /** claimOrGetRoomOwner on the node `node`. */
    method ClaimOrGet(room: Text, node: Text, now: real) returns (owner: Text)
      modifies this
      ensures leases == Claimed(old(leases), room, None, node, now)
      ensures OwnerAt(leases, room, now) == Some(owner)
      ensures leases == if OwnerAt(old(leases), room, now).Some? then old(leases)
                        else old(leases)[room := Lease(node, now + 60.0)]
    {
      var cur := Owner(room, now);
      if cur.Some? {
        return cur.value;
      }
      leases := leases[room := Lease(node, now + LEASE_TTL)];
      return node;
    }
  }
}
