/** A room is hosted by exactly one node: whatever the interleaving, a node with a client or an accept
    for a room holds the room's live lease (apps/app/server/roomlease.go:9-11). First exactly which
    steps break this, then assumptions under which no such step is taken. */
module SingleHost {
  import opened Names
  import opened Apps
  import opened Leases
  import opened Placement

  ///////////////////////////// How a lease leaves its owner /////////////////////////////

  ghost predicate RunsOut(w: World, step: Step, room: Text) {
    step.Tick? && room in w.leases && w.leases[room].deadline < w.now + step.d
  }

  /** The owner's own heartbeat gives the room up. */
  ghost predicate OwnRelease(w: World, step: Step, room: Text, owner: Text) {
    && step.Renew? && !step.failed && step.room == room
    && step.b in w.beats && w.beats[step.b].app == owner
    && room in w.beats[step.b].todo && w.beats[step.b].todo[room] <= 0
  }

  /** A join that takes the owner for gone claims the room for another app. */
  ghost predicate TakenOver(w: World, step: Step, room: Text, owner: Text) {
    && step.Advance? && step.act.Claim? && step.j in w.joins && w.joins[step.j].room == room
    && var pc := w.joins[step.j].pc;
       pc.Claiming? && pc.stale == Some(owner) && pc.rest != [] && pc.rest[0] != owner
  }

  ghost predicate Leaves(w: World, step: Step, room: Text, owner: Text) {
    RunsOut(w, step, room) || OwnRelease(w, step, room, owner) || TakenOver(w, step, room, owner)
  }

  lemma LeavesExactly(w: World, step: Step, room: Text, owner: Text)
    requires Sound(w) && Enabled(w, step) && Holds(w, room, owner)
    ensures !Holds(Apply(w, step), room, owner) <==> Leaves(w, step, room, owner)
  {
    if step.Advance? {
      assert CandidatesKnown(w.apps, w.joins[step.j].pc);
    }
  }

  ///////////////////////////// Exactly when hosts keep their leases /////////////////////////////

  /** Every node with a connection to a room holds the room's live lease. */
  ghost predicate HostsHold(w: World) {
    forall c | c in w.conns :: Holds(w, w.conns[c].room, w.conns[c].node)
  }

  ghost predicate TwoHosts(w: World) {
    exists c, d :: c in w.conns && d in w.conns
      && w.conns[c].room == w.conns[d].room && w.conns[c].node != w.conns[d].node
  }

  /** The step takes the lease of a room from a node that keeps a connection to it. */
  ghost predicate Parts(w: World, step: Step) {
    Enabled(w, step)
    && exists c :: c in w.conns && c in Apply(w, step).conns && Leaves(w, step, w.conns[c].room, w.conns[c].node)
  }

  lemma PartsExactly(w: World, step: Step)
    requires Sound(w) && HostsHold(w) && Enabled(w, step)
    ensures HostsHold(Apply(w, step)) <==> !Parts(w, step)
  {
    var w' := Apply(w, step);
    forall c | c in w'.conns
      ensures Holds(w', w'.conns[c].room, w'.conns[c].node)
              <==> !(c in w.conns && Leaves(w, step, w.conns[c].room, w.conns[c].node))
    {
      WhereConnsComeFrom(w, step, c);
      if c in w.conns {
        LeavesExactly(w, step, w.conns[c].room, w.conns[c].node);
      }
    }
  }

  ghost predicate HostsHoldThrough(ws: seq<World>, i: nat)
    requires i < |ws|
  {
    forall k | 0 <= k <= i :: HostsHold(ws[k])
  }

  ghost predicate NonePartsBefore(ws: seq<World>, steps: seq<Step>, i: nat)
    requires i <= |steps| < |ws|
  {
    forall k | 0 <= k < i :: !Parts(ws[k], steps[k])
  }

  lemma HostsHoldThroughStart(ws: seq<World>, steps: seq<Step>)
    requires Run(ws, steps)
    ensures HostsHoldThrough(ws, 0) && NonePartsBefore(ws, steps, 0)
  {
  }

  lemma HostsHoldThroughNext(ws: seq<World>, steps: seq<Step>, i: nat)
    requires i < |steps| < |ws|
    ensures HostsHoldThrough(ws, i) ==> HostsHold(ws[i])
    ensures HostsHoldThrough(ws, i + 1) <==> HostsHoldThrough(ws, i) && HostsHold(ws[i + 1])
    ensures NonePartsBefore(ws, steps, i + 1) <==> NonePartsBefore(ws, steps, i) && !Parts(ws[i], steps[i])
  {
  }

  ghost predicate PartsDecides(ws: seq<World>, steps: seq<Step>, i: nat)
    requires i < |steps| < |ws|
  {
    HostsHold(ws[i]) ==> (HostsHold(ws[i + 1]) <==> !Parts(ws[i], steps[i]))
  }

  lemma HostsHoldNext(ws: seq<World>, steps: seq<Step>, i: nat)
    requires Run(ws, steps) && i < |steps|
    ensures PartsDecides(ws, steps, i)
  {
    SoundRun(ws, steps, i);
    assert Next(ws[i], steps[i], ws[i + 1]);
    if HostsHold(ws[i]) {
      PartsExactly(ws[i], steps[i]);
    }
  }

  lemma {:induction false} HostsHoldChain(ws: seq<World>, steps: seq<Step>, i: nat)
    requires i <= |steps| < |ws| && HostsHoldThrough(ws, 0)
    requires forall k | 0 <= k < i :: PartsDecides(ws, steps, k)
    ensures HostsHoldThrough(ws, i) <==> NonePartsBefore(ws, steps, i)
  {
    if i > 0 {
      HostsHoldChain(ws, steps, i - 1);
      HostsHoldThroughNext(ws, steps, i - 1);
      assert PartsDecides(ws, steps, i - 1);
    }
  }

  /** In every run, hosts have held their leases so far exactly when no step so far let a lease run out
      under a connection, gave it up in the node's own heartbeat, or took it over from a node that a
      join had found gone while it still had a connection. */
  lemma HostsHoldExactly(ws: seq<World>, steps: seq<Step>, i: nat)
    requires Run(ws, steps) && i <= |steps|
    ensures HostsHoldThrough(ws, i) <==> NonePartsBefore(ws, steps, i)
  {
    HostsHoldThroughStart(ws, steps);
    forall k | 0 <= k < i ensures PartsDecides(ws, steps, k) {
      HostsHoldNext(ws, steps, k);
    }
    HostsHoldChain(ws, steps, i);
  }

  /** While hosts hold their leases no room is on two nodes ... */
  lemma HoldingIsOneHost(w: World)
    requires HostsHold(w)
    ensures !TwoHosts(w)
  {
    forall c, d | c in w.conns && d in w.conns && w.conns[c].room == w.conns[d].room
      ensures w.conns[c].node == w.conns[d].node
    {
      assert Holds(w, w.conns[c].room, w.conns[c].node) && Holds(w, w.conns[d].room, w.conns[d].node);
    }
  }

  /** ... and another live node is let in next to a connection, putting the room on two, exactly when
      the connection's node has lost the lease, to that other node or to nobody. */
  lemma OneAcceptAway(w: World, c: nat, d: nat, other: Text)
    requires c in w.conns && d !in w.conns && other != w.conns[c].node && other !in w.crashed
    ensures var room, node := w.conns[c].room, w.conns[c].node;
            var w' := Apply(w, Connect(d, other, room, false));
            if !Holds(w, room, node) && (OwnerAt(w.leases, room, w.now).None? || Holds(w, room, other)) then
              TwoHosts(w') && d in w'.conns
            else w'.conns == w.conns
  {
    var room := w.conns[c].room;
    var w' := Apply(w, Connect(d, other, room, false));
    if Accepts(w, other, room) {
      assert w'.conns[c] == w.conns[c] && w'.conns[d] == Conn(other, room, false);
    }
  }

  ///////////////////////////// Three assumptions that exclude such steps /////////////////////////////

  /** No lease runs out while its holder has a client or an accept in progress. */
  ghost predicate LeasesOutlive(w: World, step: Step) {
    step.Tick? ==>
      forall c | c in w.conns && Holds(w, w.conns[c].room, w.conns[c].node) :: !RunsOut(w, step, w.conns[c].room)
  }

  /** A join for the room, having read the owner, finds it gone. */
  ghost predicate FoundGone(w: World, step: Step, room: Text, owner: Text) {
    && step.Advance? && step.act.JudgeGone? && step.j in w.joins
    && w.joins[step.j] == Join(room, CheckingGone(owner))
    && OwnerGone(w.apps, owner, w.now)
  }

  /** Gone means dead: a node a join finds gone has stopped for good
      (the premise of apps/directory/handlers.go:383-387). */
  ghost predicate CrashStop(w: World, step: Step) {
    forall room, owner | FoundGone(w, step, room, owner) :: owner in w.crashed
  }

  /** Nodes report only rooms with users, as snapshotActive does (apps/app/server/heartbeat.go:68-78). */
  ghost predicate PositiveCounts(step: Step) {
    step.Receive? && step.hb.rooms.Some? ==> forall r | r in step.hb.rooms.value :: step.hb.rooms.value[r] > 0
  }

  ghost predicate Assumed(w: World, step: Step) {
    LeasesOutlive(w, step) && CrashStop(w, step) && PositiveCounts(step)
  }

  function StaleOf(pc: Pc): Option<Text> {
    if pc.Listing? || pc.Ranking? || pc.Trying? || pc.Claiming? || pc.Claimed? || pc.Releasing? then pc.stale else None
  }

  ghost predicate StaleIsDead(w: World) {
    forall j | j in w.joins && StaleOf(w.joins[j].pc).Some? :: StaleOf(w.joins[j].pc).value in w.crashed
  }

  ghost predicate HostsLive(w: World) {
    forall c | c in w.conns :: w.conns[c].node !in w.crashed
  }

  ghost predicate BeatsPositive(w: World) {
    forall b, r | b in w.beats && r in w.beats[b].todo :: w.beats[b].todo[r] > 0
  }

  lemma HostsLiveStep(w: World, step: Step)
    requires HostsLive(w) && Enabled(w, step)
    ensures HostsLive(Apply(w, step)) && w.crashed <= Apply(w, step).crashed
  {
    forall c | c in Apply(w, step).conns ensures Apply(w, step).conns[c].node !in Apply(w, step).crashed {
      WhereConnsComeFrom(w, step, c);
    }
  }

  lemma BeatsPositiveStep(w: World, step: Step)
    requires BeatsPositive(w) && Enabled(w, step) && PositiveCounts(step)
    ensures BeatsPositive(Apply(w, step))
  {
    var w' := Apply(w, step);
    forall b, r | b in w'.beats && r in w'.beats[b].todo ensures w'.beats[b].todo[r] > 0 {
      assert b in w.beats && r in w.beats[b].todo ==> w.beats[b].todo[r] > 0;
    }
  }

  lemma StaleIsDeadStep(w: World, step: Step)
    requires StaleIsDead(w) && Enabled(w, step) && CrashStop(w, step)
    ensures StaleIsDead(Apply(w, step))
  {
    var w' := Apply(w, step);
    forall j | j in w'.joins && StaleOf(w'.joins[j].pc).Some? ensures StaleOf(w'.joins[j].pc).value in w'.crashed {
      if step.Advance? && step.j == j && step.act.JudgeGone? {
        assert FoundGone(w, step, w.joins[j].room, StaleOf(w'.joins[j].pc).value);
      } else if j in w.joins && StaleOf(w.joins[j].pc).Some? {
        assert StaleOf(w.joins[j].pc).value in w.crashed;
      }
    }
  }

  ghost predicate Safe(w: World) {
    Sound(w) && StaleIsDead(w) && HostsLive(w) && BeatsPositive(w) && HostsHold(w)
  }

  lemma AssumedNeverParts(w: World, step: Step)
    requires Safe(w) && Enabled(w, step) && LeasesOutlive(w, step)
    ensures !Parts(w, step)
  {
    forall c | c in w.conns ensures !Leaves(w, step, w.conns[c].room, w.conns[c].node) {
      assert Holds(w, w.conns[c].room, w.conns[c].node);
    }
  }

  /** Under the assumptions every step keeps the invariant. */
  lemma SafeStep(w: World, step: Step)
    requires Safe(w) && Enabled(w, step) && Assumed(w, step)
    ensures Safe(Apply(w, step))
  {
    SoundStep(w, step);
    StaleIsDeadStep(w, step);
    HostsLiveStep(w, step);
    BeatsPositiveStep(w, step);
    AssumedNeverParts(w, step);
    PartsExactly(w, step);
  }

  ghost predicate AssumedRun(ws: seq<World>, steps: seq<Step>) {
    Run(ws, steps) && forall i {:trigger steps[i]} | 0 <= i < |steps| :: Assumed(ws[i], steps[i])
  }

  lemma {:induction false} SafeRun(ws: seq<World>, steps: seq<Step>, i: nat)
    requires AssumedRun(ws, steps) && i < |ws|
    ensures Safe(ws[i])
  {
    if i > 0 {
      SafeRun(ws, steps, i - 1);
      SafeStep(ws[i - 1], steps[i - 1]);
    }
  }

  /** At every moment of every assumed run, each connection's node holds the live lease of its room, so
      two connections to one room are on one node. */
  lemma OneHostPerRoom(ws: seq<World>, steps: seq<Step>, i: nat, c: nat, d: nat)
    requires AssumedRun(ws, steps) && i < |ws|
    requires c in ws[i].conns && d in ws[i].conns
    ensures var w := ws[i];
            && OwnerAt(w.leases, w.conns[c].room, w.now) == Some(w.conns[c].node)
            && (w.conns[c].room == w.conns[d].room ==> w.conns[c].node == w.conns[d].node)
  {
    SafeRun(ws, steps, i);
    var w := ws[i];
    assert Holds(w, w.conns[c].room, w.conns[c].node) && Holds(w, w.conns[d].room, w.conns[d].node);
  }
}
