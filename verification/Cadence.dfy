/** When a node keeps its room: heartbeats that list the room arrive often enough
    (apps/directory/handlers.go:213-217, apps/directory/redis.go:35-40). First for one node and one room,
    whatever the other nodes and rooms do, then for all of them at once. */
module Cadence {
  import opened Names
  import opened Leases
  import opened Placement
  import opened SingleHost
  import Apps
  import Ownership

  /** The node lets its first connection to the room in. */
  ghost predicate FirstAccept(w: World, step: Step, node: Text, room: Text) {
    && step.Connect? && step.node == node && step.room == room && !step.lost
    && Accepts(w, node, room) && !Hosts(w, node, room)
  }

  /** The directory works through a heartbeat of the node that lists the room. */
  ghost predicate Lists(w: World, step: Step, node: Text, room: Text) {
    && step.Renew? && !step.failed && step.room == room
    && step.b in w.beats && w.beats[step.b].app == node
    && room in w.beats[step.b].todo && w.beats[step.b].todo[room] > 0
  }

  /** When the node last listed the room, counting from its first accept. */
  ghost function LastListed(ws: seq<World>, steps: seq<Step>, i: nat, node: Text, room: Text): real
    requires i < |ws| == |steps| + 1
  {
    if i == 0 then ws[0].now
    else if Lists(ws[i - 1], steps[i - 1], node, room) || FirstAccept(ws[i - 1], steps[i - 1], node, room) then
      ws[i - 1].now
    else LastListed(ws, steps, i - 1, node, room)
  }

  ///////////////////////////// One node, one room /////////////////////////////

  /** The lease has at least g seconds left at a first accept, and while the node hosts the room the
      clock never moves more than g past its last listing. */
  ghost predicate ListedInTime(ws: seq<World>, steps: seq<Step>, i: nat, g: real, node: Text, room: Text)
    requires i < |steps| && |ws| == |steps| + 1
  {
    && (FirstAccept(ws[i], steps[i], node, room) ==>
          room in ws[i + 1].leases && ws[i + 1].leases[room].deadline >= ws[i].now + g)
    && (steps[i].Tick? && Hosts(ws[i], node, room) ==>
          ws[i].now + steps[i].d <= LastListed(ws, steps, i, node, room) + g)
  }

  /** ... and the node does not give the room up, nor does a join for the room find it gone. */
  ghost predicate OnCadence(ws: seq<World>, steps: seq<Step>, i: nat, g: real, node: Text, room: Text)
    requires i < |steps| && |ws| == |steps| + 1
  {
    && ListedInTime(ws, steps, i, g, node, room)
    && !OwnRelease(ws[i], steps[i], room, node)
    && !FoundGone(ws[i], steps[i], room, node)
  }

  /** The lease runs until g seconds after its last listing, at least. */
  ghost predicate LeadOf(ws: seq<World>, steps: seq<Step>, i: nat, g: real, node: Text, room: Text)
    requires i < |ws| == |steps| + 1
  {
    room in ws[i].leases && ws[i].leases[room].deadline >= LastListed(ws, steps, i, node, room) + g
  }

  /** A held lease is only ever touched by its holder's heartbeats. */
  lemma HeldLeaseUntouched(w: World, step: Step, room: Text, node: Text)
    requires Sound(w) && Enabled(w, step)
    requires Holds(w, room, node) && Ownership.Unsuspected(w, room, node) && !OwnRelease(w, step, room, node)
    ensures var w' := Apply(w, step);
            && room in w'.leases
            && (if Lists(w, step, node, room) then w'.leases[room] == Lease(node, w.now + LEASE_TTL)
                else w'.leases[room] == w.leases[room])
  {
    if step.Advance? {
      assert CandidatesKnown(w.apps, w.joins[step.j].pc);
    }
  }

  /** One step of a run. */
  ghost predicate Turn(ws: seq<World>, steps: seq<Step>, i: nat) {
    i < |steps| && |ws| == |steps| + 1 && Next(ws[i], steps[i], ws[i + 1]) && Sound(ws[i])
  }

  lemma KeptWhileHosting(ws: seq<World>, steps: seq<Step>, i: nat, g: real, node: Text, room: Text)
    requires Turn(ws, steps, i) && g <= LEASE_TTL && OnCadence(ws, steps, i, g, node, room)
    requires Hosts(ws[i], node, room) && Holds(ws[i], room, node) && LeadOf(ws, steps, i, g, node, room)
    requires Ownership.Unsuspected(ws[i], room, node)
    ensures Holds(ws[i + 1], room, node) && LeadOf(ws, steps, i + 1, g, node, room)
  {
    HeldLeaseUntouched(ws[i], steps[i], room, node);
    assert !FirstAccept(ws[i], steps[i], node, room);
    LeavesExactly(ws[i], steps[i], room, node);
  }

  lemma KeptFromAccept(ws: seq<World>, steps: seq<Step>, i: nat, g: real, node: Text, room: Text)
    requires Turn(ws, steps, i) && ListedInTime(ws, steps, i, g, node, room)
    requires !Hosts(ws[i], node, room) && Hosts(ws[i + 1], node, room)
    ensures Holds(ws[i + 1], room, node) && LeadOf(ws, steps, i + 1, g, node, room)
  {
    var c :| c in ws[i + 1].conns && ws[i + 1].conns[c].node == node && ws[i + 1].conns[c].room == room;
    WhereConnsComeFrom(ws[i], steps[i], c);
    assert FirstAccept(ws[i], steps[i], node, room);
  }

  /** With g seconds left at its first accept and a listing at least every g <= 60 seconds, a node that
      does not give the room up and is not found gone by a join for it keeps the room's lease, running
      and with its lead, as long as it has a connection, whatever happens to other nodes and rooms. */
  lemma {:induction false} RenewedInTime(ws: seq<World>, steps: seq<Step>, g: real, p: nat, i: nat,
                                         node: Text, room: Text)
    requires Run(ws, steps) && p <= i < |ws| && g <= LEASE_TTL
    requires !Hosts(ws[p], node, room) && Ownership.Unsuspected(ws[p], room, node)
    requires forall k | p <= k < i :: OnCadence(ws, steps, k, g, node, room)
    ensures Ownership.Unsuspected(ws[i], room, node)
    ensures Hosts(ws[i], node, room) ==> Holds(ws[i], room, node) && LeadOf(ws, steps, i, g, node, room)
    decreases i
  {
    if p < i {
      RenewedInTime(ws, steps, g, p, i - 1, node, room);
      SoundRun(ws, steps, i - 1);
      assert Next(ws[i - 1], steps[i - 1], ws[i]) && OnCadence(ws, steps, i - 1, g, node, room);
      Ownership.UnsuspectedStep(ws[i - 1], steps[i - 1], room, node);
      if Hosts(ws[i - 1], node, room) {
        KeptWhileHosting(ws, steps, i - 1, g, node, room);
      } else if Hosts(ws[i], node, room) {
        KeptFromAccept(ws, steps, i - 1, g, node, room);
      }
    }
  }

  /** The directory has received a heartbeat of the node within the last ten seconds. */
  ghost predicate HeardLately(ws: seq<World>, steps: seq<Step>, i: nat, node: Text)
    requires i < |ws| == |steps| + 1
  {
    var heard := Ownership.LastHeard(ws, steps, i, node);
    heard.Some? && ws[i].now - heard.value <= Apps.HEALTHY_TTL
  }

  /** Heartbeats alone do it: a node heard every ten seconds, with the room listed in time, keeps its room. */
  lemma HeartbeatsKeepTheRoom(ws: seq<World>, steps: seq<Step>, g: real, p: nat, i: nat, node: Text, room: Text)
    requires Run(ws, steps) && p <= i < |ws| && g <= LEASE_TTL
    requires !Hosts(ws[p], node, room) && Ownership.Unsuspected(ws[p], room, node)
    requires forall k {:trigger steps[k]} | p <= k < i ::
               && HeardLately(ws, steps, k, node) && ListedInTime(ws, steps, k, g, node, room)
               && !OwnRelease(ws[k], steps[k], room, node)
    ensures Hosts(ws[i], node, room) ==> Holds(ws[i], room, node)
  {
    forall k | p <= k < i ensures OnCadence(ws, steps, k, g, node, room) {
      Ownership.GoneMeansSilent(ws, steps, k, node);
    }
    RenewedInTime(ws, steps, g, p, i, node, room);
  }

  ///////////////////////////// All nodes and rooms /////////////////////////////

  /** Every node lists every room it hosts in time, gone means dead, and counts are positive. */
  ghost predicate PacedRun(ws: seq<World>, steps: seq<Step>, g: real) {
    && Run(ws, steps)
    && forall i {:trigger steps[i]} | 0 <= i < |steps| ::
         && CrashStop(ws[i], steps[i]) && PositiveCounts(steps[i])
         && forall node, room :: ListedInTime(ws, steps, i, g, node, room)
  }

  lemma {:induction false} PacedState(ws: seq<World>, steps: seq<Step>, g: real, k: nat, i: nat)
    requires PacedRun(ws, steps, g) && k <= i < |ws|
    ensures HostsLive(ws[i]) && BeatsPositive(ws[i]) && ws[k].crashed <= ws[i].crashed
    decreases i
  {
    if i > 0 {
      PacedState(ws, steps, g, if k < i then k else i - 1, i - 1);
      assert Next(ws[i - 1], steps[i - 1], ws[i]) && PositiveCounts(steps[i - 1]);
      HostsLiveStep(ws[i - 1], steps[i - 1]);
      BeatsPositiveStep(ws[i - 1], steps[i - 1]);
    }
  }

  lemma PacedHostHolds(ws: seq<World>, steps: seq<Step>, g: real, i: nat, c: nat)
    requires PacedRun(ws, steps, g) && g <= LEASE_TTL && i < |ws| && c in ws[i].conns
    ensures Holds(ws[i], ws[i].conns[c].room, ws[i].conns[c].node)
  {
    var room, node := ws[i].conns[c].room, ws[i].conns[c].node;
    forall k | 0 <= k < i ensures OnCadence(ws, steps, k, g, node, room) {
      PacedState(ws, steps, g, k, i);
      PacedState(ws, steps, g, k, k);
      assert CrashStop(ws[k], steps[k]) && node !in ws[k].crashed;
    }
    RenewedInTime(ws, steps, g, 0, i, node, room);
    assert Hosts(ws[i], node, room);
  }

  /** Under such heartbeats the only assumption left for a single host per room is that gone means dead. */
  lemma PacedRunHasOneHost(ws: seq<World>, steps: seq<Step>, g: real, i: nat)
    requires PacedRun(ws, steps, g) && g <= LEASE_TTL && i < |ws|
    ensures HostsHold(ws[i]) && !TwoHosts(ws[i])
  {
    forall c | c in ws[i].conns ensures Holds(ws[i], ws[i].conns[c].room, ws[i].conns[c].node) {
      PacedHostHolds(ws, steps, g, i, c);
    }
    HoldingIsOneHost(ws[i]);
  }
}
