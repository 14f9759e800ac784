/** How a lease changes hands and what a successful join proves, over whole runs and with no
    assumption about crashes, expiry or what heartbeats report. */
module Ownership {
  import opened Names
  import opened Apps
  import opened Leases
  import opened Placement
  import opened SingleHost

  ///////////////////////////// What a join has seen /////////////////////////////

  /** Join j, for this room, read `owner` at a step before i. */
  ghost predicate Saw(ws: seq<World>, steps: seq<Step>, i: nat, j: nat, room: Text, owner: Text)
    requires i <= |steps| < |ws|
  {
    exists m | 0 <= m < i :: SawAt(ws, steps, m, j, room, owner)
  }

  ghost predicate SawAt(ws: seq<World>, steps: seq<Step>, m: nat, j: nat, room: Text, owner: Text)
    requires m < |steps| < |ws|
  {
    steps[m] == Advance(j, ReadOwner) && Holds(ws[m], room, owner)
  }

  /** Join j found `owner` unknown or silent for longer than the TTL, after having read it as owner. */
  ghost predicate Condemned(ws: seq<World>, steps: seq<Step>, i: nat, j: nat, room: Text, owner: Text)
    requires i <= |steps| < |ws|
  {
    exists p | 0 <= p < i ::
      CondemnedAt(ws, steps, p, j, owner) && Saw(ws, steps, p, j, room, owner)
  }

  ghost predicate CondemnedAt(ws: seq<World>, steps: seq<Step>, p: nat, j: nat, owner: Text)
    requires p < |steps| < |ws|
  {
    steps[p] == Advance(j, JudgeGone) && OwnerGone(ws[p].apps, owner, ws[p].now)
  }

  /** `app` held the room's lease at some moment while join j was in progress. */
  ghost predicate HeldDuring(ws: seq<World>, steps: seq<Step>, i: nat, j: nat, room: Text, app: Text)
    requires i <= |steps| < |ws|
  {
    exists m | 0 <= m <= i :: HeldAt(ws[m], j, room, app)
  }

  ghost predicate HeldAt(w: World, j: nat, room: Text, app: Text) {
    j in w.joins && w.joins[j].room == room && !w.joins[j].pc.Done? && Holds(w, room, app)
  }

  ghost predicate Justified(ws: seq<World>, steps: seq<Step>, i: nat, j: nat)
    requires i <= |steps| < |ws| && j in ws[i].joins
  {
    var join := ws[i].joins[j];
    && (join.pc.CheckingEligible? || join.pc.CheckingGone? ==>
          Saw(ws, steps, i, j, join.room, join.pc.owner) && HeldDuring(ws, steps, i, j, join.room, join.pc.owner))
    && (StaleOf(join.pc).Some? ==> Condemned(ws, steps, i, j, join.room, StaleOf(join.pc).value))
    && (join.pc.Claimed? ==> join.pc.rest != [] && HeldDuring(ws, steps, i, j, join.room, join.pc.rest[0]))
    && (join.pc.Done? && join.pc.answer.Routed? ==> HeldDuring(ws, steps, i, j, join.room, join.pc.answer.app))
  }

  lemma EvidenceGrows(ws: seq<World>, steps: seq<Step>, i: nat, j: nat, room: Text, app: Text)
    requires i < |steps| < |ws|
    ensures Saw(ws, steps, i, j, room, app) ==> Saw(ws, steps, i + 1, j, room, app)
    ensures Condemned(ws, steps, i, j, room, app) ==> Condemned(ws, steps, i + 1, j, room, app)
    ensures HeldDuring(ws, steps, i, j, room, app) ==> HeldDuring(ws, steps, i + 1, j, room, app)
  {
  }

  lemma JustifiedUnmoved(ws: seq<World>, steps: seq<Step>, i: nat, j: nat)
    requires i < |steps| < |ws| && j in ws[i].joins && Justified(ws, steps, i, j)
    requires j in ws[i + 1].joins && ws[i + 1].joins[j] == ws[i].joins[j]
    ensures Justified(ws, steps, i + 1, j)
  {
    var join := ws[i].joins[j];
    match join.pc {
      case CheckingEligible(o) => EvidenceGrows(ws, steps, i, j, join.room, o);
      case CheckingGone(o) => EvidenceGrows(ws, steps, i, j, join.room, o);
      case Done(Routed(a)) => EvidenceGrows(ws, steps, i, j, join.room, a);
      case Claimed(_, rest) => EvidenceGrows(ws, steps, i, j, join.room, rest[0]);
      case _ =>
    }
    if StaleOf(join.pc).Some? {
      EvidenceGrows(ws, steps, i, j, join.room, StaleOf(join.pc).value);
    }
  }

  ghost predicate Moves(ws: seq<World>, steps: seq<Step>, i: nat, j: nat, act: Act) {
    && i < |steps| < |ws| && steps[i] == Advance(j, act)
    && Next(ws[i], steps[i], ws[i + 1])
    && Justified(ws, steps, i, j)
  }

  lemma JustifiedReading(ws: seq<World>, steps: seq<Step>, i: nat, j: nat, act: Act)
    requires Moves(ws, steps, i, j, act) && (act.ReadOwner? || act.JudgeEligible? || act.JudgeGone?)
    ensures Justified(ws, steps, i + 1, j)
  {
    var w, w' := ws[i], ws[i + 1];
    var join, pc := w.joins[j], w'.joins[j].pc;
    if act.ReadOwner? {
      if pc.CheckingEligible? {
        assert SawAt(ws, steps, i, j, join.room, pc.owner);
        assert HeldAt(w', j, join.room, pc.owner);
      }
    } else {
      EvidenceGrows(ws, steps, i, j, join.room, join.pc.owner);
      if act.JudgeGone? && pc.stale.Some? {
        assert CondemnedAt(ws, steps, i, j, join.pc.owner);
      }
    }
  }

  lemma JustifiedClaim(ws: seq<World>, steps: seq<Step>, i: nat, j: nat, act: Act)
    requires Moves(ws, steps, i, j, act) && act.Claim?
    ensures Justified(ws, steps, i + 1, j)
  {
    var join, pc := ws[i].joins[j], ws[i + 1].joins[j].pc;
    if StaleOf(join.pc).Some? {
      EvidenceGrows(ws, steps, i, j, join.room, StaleOf(join.pc).value);
    }
    if pc.Claimed? {
      assert HeldAt(ws[i + 1], j, join.room, join.pc.rest[0]);
    }
  }

  lemma AddressOutcome(w: World, j: nat, w': World)
    requires Next(w, Advance(j, ReadAddress), w')
    ensures w.joins[j].pc.Claimed? && w.joins[j].pc.rest != []
    ensures j in w'.joins && w'.joins[j].room == w.joins[j].room
    ensures var pc := w.joins[j].pc;
            w'.joins[j].pc == Done(Routed(pc.rest[0])) || w'.joins[j].pc == Releasing(pc.stale, pc.rest)
  {
  }

  lemma JustifiedAddress(ws: seq<World>, steps: seq<Step>, i: nat, j: nat)
    requires i < |steps| < |ws| && j in ws[i].joins && j in ws[i + 1].joins && Justified(ws, steps, i, j)
    requires ws[i].joins[j].pc.Claimed? && ws[i + 1].joins[j].room == ws[i].joins[j].room
    requires var pc := ws[i].joins[j].pc;
             pc.rest != [] && (ws[i + 1].joins[j].pc == Done(Routed(pc.rest[0]))
                               || ws[i + 1].joins[j].pc == Releasing(pc.stale, pc.rest))
    ensures Justified(ws, steps, i + 1, j)
  {
    var join := ws[i].joins[j];
    if join.pc.stale.Some? {
      EvidenceGrows(ws, steps, i, j, join.room, join.pc.stale.value);
    }
    EvidenceGrows(ws, steps, i, j, join.room, join.pc.rest[0]);
  }

  lemma JustifiedOther(ws: seq<World>, steps: seq<Step>, i: nat, j: nat, act: Act)
    requires Moves(ws, steps, i, j, act)
    requires !act.ReadOwner? && !act.JudgeEligible? && !act.JudgeGone? && !act.Claim? && !act.ReadAddress?
    ensures Justified(ws, steps, i + 1, j)
  {
    var join, pc := ws[i].joins[j], ws[i + 1].joins[j].pc;
    assert StaleOf(pc) == None || StaleOf(pc) == StaleOf(join.pc);
    if StaleOf(join.pc).Some? {
      EvidenceGrows(ws, steps, i, j, join.room, StaleOf(join.pc).value);
    }
  }

  lemma JustifiedMoved(ws: seq<World>, steps: seq<Step>, i: nat, j: nat, act: Act)
    requires Moves(ws, steps, i, j, act)
    ensures Justified(ws, steps, i + 1, j)
  {
    match act {
      case ReadOwner | JudgeEligible | JudgeGone => JustifiedReading(ws, steps, i, j, act);
      case Claim(_) => JustifiedClaim(ws, steps, i, j, act);
      case ReadAddress =>
        AddressOutcome(ws[i], j, ws[i + 1]);
        JustifiedAddress(ws, steps, i, j);
      case _ => JustifiedOther(ws, steps, i, j, act);
    }
  }

  lemma {:induction false} AllJustified(ws: seq<World>, steps: seq<Step>, i: nat, j: nat)
    requires Run(ws, steps) && i <= |steps| && j in ws[i].joins
    ensures Justified(ws, steps, i, j)
  {
    if i > 0 {
      var w, step := ws[i - 1], steps[i - 1];
      assert Next(w, step, ws[i]);
      if j in w.joins {
        AllJustified(ws, steps, i - 1, j);
        if step.Advance? && step.j == j {
          JustifiedMoved(ws, steps, i - 1, j, step.act);
        } else {
          JustifiedUnmoved(ws, steps, i - 1, j);
        }
      }
    }
  }

  ///////////////////////////// How a lease leaves its owner /////////////////////////////

  /** A lease leaves its owner only by running out, by the owner's own heartbeat giving it up, or by
      the takeover of a join that had read this owner and then found it gone. */
  lemma HowALeaseLeaves(ws: seq<World>, steps: seq<Step>, i: nat, room: Text, owner: Text)
    requires Run(ws, steps) && i < |steps|
    requires Holds(ws[i], room, owner) && !Holds(ws[i + 1], room, owner)
    ensures var w, step := ws[i], steps[i];
            || RunsOut(w, step, room)
            || OwnRelease(w, step, room, owner)
            || (TakenOver(w, step, room, owner) && Condemned(ws, steps, i, step.j, room, owner))
  {
    var w, step := ws[i], steps[i];
    assert Next(w, step, ws[i + 1]);
    SoundRun(ws, steps, i);
    LeavesExactly(w, step, room, owner);
    if TakenOver(w, step, room, owner) {
      AllJustified(ws, steps, i, step.j);
    }
  }

  /** No join in progress for the room takes `owner` for gone. */
  ghost predicate Unsuspected(w: World, room: Text, owner: Text) {
    forall j | j in w.joins && w.joins[j].room == room :: StaleOf(w.joins[j].pc) != Some(owner)
  }

  lemma UnsuspectedStep(w: World, step: Step, room: Text, owner: Text)
    requires Unsuspected(w, room, owner) && Enabled(w, step) && !FoundGone(w, step, room, owner)
    ensures Unsuspected(Apply(w, step), room, owner)
  {
    var w' := Apply(w, step);
    forall j | j in w'.joins && w'.joins[j].room == room ensures StaleOf(w'.joins[j].pc) != Some(owner) {
      if j in w.joins {
        assert StaleOf(w.joins[j].pc) != Some(owner);
      }
    }
  }

  /** One step against an owner that no join for the room finds gone, whose lease does not run out and
      who does not give it up. */
  ghost predicate Undisturbed(w: World, step: Step, room: Text, owner: Text) {
    && Enabled(w, step)
    && !FoundGone(w, step, room, owner)
    && !OwnRelease(w, step, room, owner)
    && !RunsOut(w, step, room)
  }

  lemma OwnerKeepsStep(w: World, step: Step, room: Text, owner: Text)
    requires Sound(w) && Undisturbed(w, step, room, owner)
    requires Holds(w, room, owner) && Unsuspected(w, room, owner)
    ensures Holds(Apply(w, step), room, owner) && Unsuspected(Apply(w, step), room, owner)
  {
    UnsuspectedStep(w, step, room, owner);
    LeavesExactly(w, step, room, owner);
  }

  ghost predicate UndisturbedBetween(ws: seq<World>, steps: seq<Step>, i: nat, k: nat, room: Text, owner: Text)
    requires k <= |steps| < |ws|
  {
    forall p {:trigger steps[p]} | i <= p < k :: Undisturbed(ws[p], steps[p], room, owner)
  }

  /** An owner that no join for the room finds gone, which GoneMeansSilent says is one that was heard
      lately, keeps its room against any number of concurrent joins, however full or draining it is, as
      long as its lease is renewed in time and it does not give it up. */
  lemma {:induction false} LiveOwnerKeepsItsRoom(ws: seq<World>, steps: seq<Step>, i: nat, k: nat, m: nat,
                                                 room: Text, owner: Text)
    requires Run(ws, steps) && i <= m <= k <= |steps|
    requires Holds(ws[i], room, owner) && Unsuspected(ws[i], room, owner)
    requires UndisturbedBetween(ws, steps, i, k, room, owner)
    ensures Holds(ws[m], room, owner) && Unsuspected(ws[m], room, owner)
    decreases m
  {
    if i < m {
      LiveOwnerKeepsItsRoom(ws, steps, i, k, m - 1, room, owner);
      SoundRun(ws, steps, m - 1);
      var w, step := ws[m - 1], steps[m - 1];
      assert Next(w, step, ws[m]) && Undisturbed(w, step, room, owner);
      OwnerKeepsStep(w, step, room, owner);
    }
  }

  /** The step at which the directory last received a heartbeat of the app. */
  ghost function LastBeat(steps: seq<Step>, i: nat, app: Text): (b: Option<nat>)
    requires i <= |steps|
    ensures b.Some? ==> b.value < i && steps[b.value].Receive? && steps[b.value].hb.appID == app
    ensures forall k | 0 <= k < i && steps[k].Receive? && steps[k].hb.appID == app :: b.Some? && k <= b.value
  {
    if i == 0 then None
    else if steps[i - 1].Receive? && steps[i - 1].hb.appID == app then Some(i - 1)
    else LastBeat(steps, i - 1, app)
  }

  ghost function LastHeard(ws: seq<World>, steps: seq<Step>, i: nat, app: Text): Option<real>
    requires i <= |steps| < |ws|
  {
    var b := LastBeat(steps, i, app);
    if b.Some? then Some(ws[b.value].now) else None
  }

  lemma HeardStep(w: World, step: Step, app: Text)
    requires Enabled(w, step)
    ensures var w' := Apply(w, step);
            if step.Receive? && step.hb.appID == app then app in w'.apps && w'.apps[app].lastSeen == w.now
            else
              && (app in w'.apps <==> app in w.apps)
              && (app in w.apps ==> w'.apps[app].lastSeen == w.apps[app].lastSeen)
  {
  }

  lemma {:induction false} RecordsAreHeartbeats(ws: seq<World>, steps: seq<Step>, i: nat, app: Text)
    requires Run(ws, steps) && i < |ws|
    ensures var heard := LastHeard(ws, steps, i, app);
            (app in ws[i].apps <==> heard.Some?) && (heard.Some? ==> ws[i].apps[app].lastSeen == heard.value)
  {
    if i > 0 {
      RecordsAreHeartbeats(ws, steps, i - 1, app);
      assert Next(ws[i - 1], steps[i - 1], ws[i]);
      HeardStep(ws[i - 1], steps[i - 1], app);
    }
  }

  /** Gone is exactly: no heartbeat received yet, or none for more than ten seconds. */
  lemma GoneMeansSilent(ws: seq<World>, steps: seq<Step>, i: nat, app: Text)
    requires Run(ws, steps) && i < |ws|
    ensures var heard := LastHeard(ws, steps, i, app);
            OwnerGone(ws[i].apps, app, ws[i].now) <==> heard.None? || ws[i].now - heard.value > 10.0
  {
    RecordsAreHeartbeats(ws, steps, i, app);
  }

  ///////////////////////////// Agreement /////////////////////////////

  /** Every successful join names an app that held the room's lease while the join was in progress. */
  lemma RoutedHeldTheLease(ws: seq<World>, steps: seq<Step>, i: nat, j: nat)
    requires Run(ws, steps) && i <= |steps| && j in ws[i].joins
    requires ws[i].joins[j].pc.Done? && ws[i].joins[j].pc.answer.Routed?
    ensures var join := ws[i].joins[j];
            HeldDuring(ws, steps, i, j, join.room, join.pc.answer.app)
  {
    AllJustified(ws, steps, i, j);
  }

  lemma {:induction false} JoinsStay(ws: seq<World>, steps: seq<Step>, m: nat, p: nat, j: nat)
    requires Run(ws, steps) && m <= p <= |steps| && j in ws[m].joins
    ensures j in ws[p].joins
    decreases p
  {
    if m < p {
      JoinsStay(ws, steps, m, p - 1, j);
      assert Next(ws[p - 1], steps[p - 1], ws[p]);
    }
  }

  /** While one app holds the lease throughout, every join that ran within that time and succeeded was
      sent to it. */
  lemma JoinsAgree(ws: seq<World>, steps: seq<Step>, p: nat, q: nat, room: Text, owner: Text, j: nat)
    requires Run(ws, steps) && p <= q <= |steps|
    requires forall m | p <= m <= q :: Holds(ws[m], room, owner)
    requires j in ws[q].joins && j !in ws[p].joins && ws[q].joins[j].room == room
    requires ws[q].joins[j].pc.Done? && ws[q].joins[j].pc.answer.Routed?
    ensures ws[q].joins[j].pc.answer.app == owner
  {
    var app := ws[q].joins[j].pc.answer.app;
    RoutedHeldTheLease(ws, steps, q, j);
    var m :| 0 <= m <= q && HeldAt(ws[m], j, room, app);
    if m <= p {
      JoinsStay(ws, steps, m, p, j);
    }
    assert Holds(ws[m], room, owner);
  }

  /** A node lets a connection in exactly when it is the owner and its reply is not lost. */
  lemma OnlyTheOwnerAccepts(w: World, c: nat, node: Text, room: Text, lost: bool, owner: Text)
    requires Enabled(w, Connect(c, node, room, lost)) && Holds(w, room, owner)
    ensures c in Apply(w, Connect(c, node, room, lost)).conns <==> node == owner && !lost
  {
  }

  /** ... and every connection that any node let in within that time is on it. */
  lemma {:induction false} AcceptsAgree(ws: seq<World>, steps: seq<Step>, p: nat, q: nat,
                                        room: Text, owner: Text, c: nat)
    requires Run(ws, steps) && p <= q <= |steps|
    requires forall m | p <= m <= q :: Holds(ws[m], room, owner)
    requires c in ws[q].conns && c !in ws[p].conns && ws[q].conns[c].room == room
    ensures ws[q].conns[c].node == owner
    decreases q
  {
    var w, step := ws[q - 1], steps[q - 1];
    assert Next(w, step, ws[q]) && Holds(w, room, owner);
    WhereConnsComeFrom(w, step, c);
    if c in w.conns {
      AcceptsAgree(ws, steps, p, q - 1, room, owner, c);
    } else {
      OnlyTheOwnerAccepts(w, c, step.node, room, false, owner);
    }
  }
}
