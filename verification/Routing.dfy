/** Which apps joins are sent to, over whole runs and in terms of the heartbeats the directory received:
    what its table says (apps/directory/handlers.go:195-211, 441-454), and what a routed app had reported
    (apps/directory/handlers.go:286-346, 363-382). */
module Routing {
  import opened Names
  import opened Apps
  import opened Leases
  import opened Placement
  import Ownership
  import Weights

  ///////////////////////////// The table is the last heartbeats /////////////////////////////

  /** The last room list the app sent; a heartbeat may omit it. */
  ghost function ReportedRooms(steps: seq<Step>, i: nat, app: Text): map<Text, int>
    requires i <= |steps|
  {
    if i == 0 then map[]
    else if steps[i - 1].Receive? && steps[i - 1].hb.appID == app && steps[i - 1].hb.rooms.Some? then
      steps[i - 1].hb.rooms.value
    else ReportedRooms(steps, i - 1, app)
  }

  predicate Marks(step: Step) {
    step.Advance? && step.act.Mark?
  }

  /** No join that began since heartbeat b found it draining or more than ten seconds old. */
  ghost predicate FreshAtMarks(ws: seq<World>, steps: seq<Step>, b: nat, i: nat)
    requires b < i <= |steps| < |ws| && steps[b].Receive?
  {
    forall m | b < m < i && Marks(steps[m]) :: !steps[b].hb.draining && ws[m].now - ws[b].now <= 10.0
  }

  ghost predicate RecordMatches(ws: seq<World>, steps: seq<Step>, i: nat, app: Text)
    requires i <= |steps| < |ws|
  {
    var b := Ownership.LastBeat(steps, i, app);
    && (app in ws[i].apps <==> b.Some?)
    && (b.None? ==> ReportedRooms(steps, i, app) == map[])
    && (b.Some? ==>
          var a, hb := ws[i].apps[app], steps[b.value].hb;
          && a.wsURL == hb.wsURL && a.usersTotal == hb.usersTotal && a.draining == hb.draining
          && a.lastSeen == ws[b.value].now && a.stats.None?
          && a.rooms == ReportedRooms(steps, i, app)
          && (a.healthy <==> FreshAtMarks(ws, steps, b.value, i)))
  }

  /** What a step does to the record of an app. */
  lemma RecordStep(w: World, step: Step, app: Text)
    requires Enabled(w, step)
    ensures var w' := Apply(w, step);
            if step.Receive? && step.hb.appID == app then
              && app in w'.apps
              && var a := w'.apps[app];
                 && a.wsURL == step.hb.wsURL && a.usersTotal == step.hb.usersTotal
                 && a.draining == step.hb.draining && a.lastSeen == w.now && a.healthy
                 && a.rooms == (if step.hb.rooms.Some? then step.hb.rooms.value
                                else if app in w.apps then w.apps[app].rooms else map[])
                 && a.stats == (if app in w.apps then w.apps[app].stats else None)
            else
              && (app in w'.apps <==> app in w.apps)
              && (app in w.apps ==>
                    var a := w.apps[app];
                    w'.apps[app] == if Marks(step) then a.(healthy := !a.draining && w.now - a.lastSeen <= 10.0)
                                    else a)
  {
  }

  lemma {:induction false} TimeGrows(ws: seq<World>, steps: seq<Step>, m: nat, i: nat)
    requires Run(ws, steps) && m <= i <= |steps|
    ensures ws[m].now <= ws[i].now
    decreases i
  {
    if m < i {
      TimeGrows(ws, steps, m, i - 1);
      assert Next(ws[i - 1], steps[i - 1], ws[i]);
    }
  }

  lemma FreshGrows(ws: seq<World>, steps: seq<Step>, b: nat, i: nat)
    requires b < i < |steps| < |ws| && steps[b].Receive?
    ensures FreshAtMarks(ws, steps, b, i + 1) <==>
            && FreshAtMarks(ws, steps, b, i)
            && (Marks(steps[i]) ==> !steps[b].hb.draining && ws[i].now - ws[b].now <= 10.0)
  {
  }

  lemma RecordReceived(ws: seq<World>, steps: seq<Step>, i: nat, app: Text)
    requires i < |steps| < |ws| && RecordMatches(ws, steps, i, app) && Next(ws[i], steps[i], ws[i + 1])
    requires steps[i].Receive? && steps[i].hb.appID == app
    ensures RecordMatches(ws, steps, i + 1, app)
  {
    RecordStep(ws[i], steps[i], app);
    assert Ownership.LastBeat(steps, i + 1, app) == Some(i);
  }

  lemma RecordKept(ws: seq<World>, steps: seq<Step>, i: nat, app: Text)
    requires i < |steps| < |ws| && RecordMatches(ws, steps, i, app) && Next(ws[i], steps[i], ws[i + 1])
    requires !(steps[i].Receive? && steps[i].hb.appID == app)
    requires forall m | 0 <= m <= i :: ws[m].now <= ws[i].now
    ensures RecordMatches(ws, steps, i + 1, app)
  {
    RecordStep(ws[i], steps[i], app);
    var b := Ownership.LastBeat(steps, i, app);
    assert Ownership.LastBeat(steps, i + 1, app) == b;
    if b.Some? {
      FreshGrows(ws, steps, b.value, i);
    }
  }

  /** The table after any run: each record is the app's last heartbeat, the last room list it sent, no
      stats, and healthy exactly if no join that began since found it draining or ten seconds old. */
  lemma {:induction false} RecordIsLastBeat(ws: seq<World>, steps: seq<Step>, i: nat, app: Text)
    requires Run(ws, steps) && i <= |steps|
    ensures RecordMatches(ws, steps, i, app)
  {
    if i > 0 {
      RecordIsLastBeat(ws, steps, i - 1, app);
      assert Next(ws[i - 1], steps[i - 1], ws[i]);
      if steps[i - 1].Receive? && steps[i - 1].hb.appID == app {
        RecordReceived(ws, steps, i - 1, app);
      } else {
        forall m | 0 <= m < i ensures ws[m].now <= ws[i - 1].now {
          TimeGrows(ws, steps, m, i - 1);
        }
        RecordKept(ws, steps, i - 1, app);
      }
    }
  }

  ///////////////////////////// What a routed app had reported /////////////////////////////

  ghost predicate Marked(steps: seq<Step>, i: nat, j: nat)
    requires i <= |steps|
  {
    exists m | 0 <= m < i :: steps[m] == Advance(j, Mark)
  }

  /** Join j looked at the app, after its own marking, and found it healthy and not draining. */
  ghost predicate VettedAt(ws: seq<World>, steps: seq<Step>, k: nat, j: nat, app: Text)
    requires k < |steps| < |ws|
  {
    && steps[k].Advance? && steps[k].j == j && (steps[k].act.JudgeEligible? || steps[k].act.Rank?)
    && Marked(steps, k, j)
    && app in ws[k].apps && ws[k].apps[app].healthy && !ws[k].apps[app].draining
  }

  ghost predicate Vetted(ws: seq<World>, steps: seq<Step>, i: nat, j: nat, app: Text)
    requires i <= |steps| < |ws|
  {
    exists k | 0 <= k < i :: VettedAt(ws, steps, k, j, app)
  }

  /** Join j found fewer than 300 users of the room on the app. */
  ghost predicate HadRoomAt(ws: seq<World>, steps: seq<Step>, l: nat, j: nat, room: Text, app: Text)
    requires l < |steps| < |ws|
  {
    && steps[l].Advance? && steps[l].j == j && app in ws[l].apps
    && (room in ws[l].apps[app].rooms ==> ws[l].apps[app].rooms[room] < 300)
  }

  ghost predicate HadRoom(ws: seq<World>, steps: seq<Step>, i: nat, j: nat, room: Text, app: Text)
    requires i <= |steps| < |ws|
  {
    exists l | 0 <= l < i :: HadRoomAt(ws, steps, l, j, room, app)
  }

  ghost predicate Careful(ws: seq<World>, steps: seq<Step>, i: nat, j: nat)
    requires i <= |steps| < |ws| && j in ws[i].joins
  {
    var room, pc := ws[i].joins[j].room, ws[i].joins[j].pc;
    && (!pc.Marking? ==> Marked(steps, i, j))
    && (pc.Trying? || pc.Claiming? || pc.Claimed? || pc.Releasing? ==>
          forall id | id in pc.rest :: Vetted(ws, steps, i, j, id))
    && ((pc.Claiming? || pc.Claimed?) && pc.rest != [] ==> HadRoom(ws, steps, i, j, room, pc.rest[0]))
    && (pc.Done? && pc.answer.Routed? ==>
          Vetted(ws, steps, i, j, pc.answer.app) && HadRoom(ws, steps, i, j, room, pc.answer.app))
  }

  lemma CareGrows(ws: seq<World>, steps: seq<Step>, i: nat, j: nat, room: Text, app: Text)
    requires i < |steps| < |ws|
    ensures Vetted(ws, steps, i, j, app) ==> Vetted(ws, steps, i + 1, j, app)
    ensures HadRoom(ws, steps, i, j, room, app) ==> HadRoom(ws, steps, i + 1, j, room, app)
    ensures Marked(steps, i, j) ==> Marked(steps, i + 1, j)
  {
  }

  lemma CarefulUnmoved(ws: seq<World>, steps: seq<Step>, i: nat, j: nat)
    requires i < |steps| < |ws| && j in ws[i].joins && Careful(ws, steps, i, j)
    requires j in ws[i + 1].joins && ws[i + 1].joins[j] == ws[i].joins[j]
    ensures Careful(ws, steps, i + 1, j)
  {
    forall app ensures Vetted(ws, steps, i, j, app) ==> Vetted(ws, steps, i + 1, j, app) {
      CareGrows(ws, steps, i, j, ws[i].joins[j].room, app);
    }
    forall app ensures HadRoom(ws, steps, i, j, ws[i].joins[j].room, app)
                       ==> HadRoom(ws, steps, i + 1, j, ws[i].joins[j].room, app) {
      CareGrows(ws, steps, i, j, ws[i].joins[j].room, app);
    }
    CareGrows(ws, steps, i, j, ws[i].joins[j].room, []);
  }

  ghost predicate Moves(ws: seq<World>, steps: seq<Step>, i: nat, j: nat, act: Act) {
    && i < |steps| < |ws| && steps[i] == Advance(j, act)
    && Next(ws[i], steps[i], ws[i + 1])
    && Careful(ws, steps, i, j)
  }

  lemma CarefulJudging(ws: seq<World>, steps: seq<Step>, i: nat, j: nat)
    requires Moves(ws, steps, i, j, JudgeEligible)
    ensures Careful(ws, steps, i + 1, j)
  {
    CareGrows(ws, steps, i, j, [], []);
    var pc := ws[i + 1].joins[j].pc;
    if pc.Done? {
      assert VettedAt(ws, steps, i, j, pc.answer.app);
      assert HadRoomAt(ws, steps, i, j, ws[i].joins[j].room, pc.answer.app);
    }
  }

  lemma CarefulRanking(ws: seq<World>, steps: seq<Step>, i: nat, j: nat, act: Act)
    requires Moves(ws, steps, i, j, act) && act.Rank?
    ensures Careful(ws, steps, i + 1, j)
  {
    CareGrows(ws, steps, i, j, [], []);
    Weights.RankedAreCandidates(ws[i].apps, ws[i].joins[j].room, ws[i].joins[j].pc.ids, act.ranked);
    forall id | id in act.ranked ensures Vetted(ws, steps, i + 1, j, id) {
      assert VettedAt(ws, steps, i, j, id);
    }
  }

  lemma CarefulLimit(ws: seq<World>, steps: seq<Step>, i: nat, j: nat)
    requires Moves(ws, steps, i, j, CheckLimit)
    ensures Careful(ws, steps, i + 1, j)
  {
    var room, rest := ws[i].joins[j].room, ws[i].joins[j].pc.rest;
    CareGrows(ws, steps, i, j, [], []);
    forall id | id in rest ensures Vetted(ws, steps, i + 1, j, id) {
      CareGrows(ws, steps, i, j, room, id);
    }
    assert rest != [] ==> forall id | id in rest[1..] :: id in rest;
    if ws[i + 1].joins[j].pc.Claiming? {
      assert HadRoomAt(ws, steps, i, j, room, rest[0]);
    }
  }

  lemma CarefulClaiming(ws: seq<World>, steps: seq<Step>, i: nat, j: nat, act: Act)
    requires Moves(ws, steps, i, j, act)
    requires act.Claim? || act.ClaimError? || act.ReadAddress? || act.ReleaseBack?
    ensures Careful(ws, steps, i + 1, j)
  {
    var room, rest := ws[i].joins[j].room, ws[i].joins[j].pc.rest;
    forall id | id in rest ensures Vetted(ws, steps, i + 1, j, id) {
      CareGrows(ws, steps, i, j, room, id);
    }
    CareGrows(ws, steps, i, j, room, rest[0]);
    assert rest[0] in rest && forall id | id in rest[1..] :: id in rest;
  }

  lemma CarefulStarting(ws: seq<World>, steps: seq<Step>, i: nat, j: nat, act: Act)
    requires Moves(ws, steps, i, j, act)
    requires act.Mark? || act.ReadOwner? || act.OwnerError? || act.JudgeGone? || act.List?
    ensures Careful(ws, steps, i + 1, j)
  {
    CareGrows(ws, steps, i, j, [], []);
    if act.Mark? {
      assert steps[i] == Advance(j, Mark);
    }
  }

  lemma CarefulMoved(ws: seq<World>, steps: seq<Step>, i: nat, j: nat, act: Act)
    requires Moves(ws, steps, i, j, act)
    ensures Careful(ws, steps, i + 1, j)
  {
    match act
    case Mark | ReadOwner | OwnerError | JudgeGone | List => CarefulStarting(ws, steps, i, j, act);
    case JudgeEligible => CarefulJudging(ws, steps, i, j);
    case Rank(_) => CarefulRanking(ws, steps, i, j, act);
    case CheckLimit => CarefulLimit(ws, steps, i, j);
    case _ => CarefulClaiming(ws, steps, i, j, act);
  }

  lemma {:induction false} AllCareful(ws: seq<World>, steps: seq<Step>, i: nat, j: nat)
    requires Run(ws, steps) && i <= |steps| && j in ws[i].joins
    ensures Careful(ws, steps, i, j)
  {
    if i > 0 {
      var w, step := ws[i - 1], steps[i - 1];
      assert Next(w, step, ws[i]);
      if j in w.joins {
        AllCareful(ws, steps, i - 1, j);
        if step.Advance? && step.j == j {
          CarefulMoved(ws, steps, i - 1, j, step.act);
        } else {
          CarefulUnmoved(ws, steps, i - 1, j);
        }
      }
    }
  }

  lemma FreshWasHeard(ws: seq<World>, steps: seq<Step>, k: nat, b: nat, m: nat)
    requires b < k <= |steps| < |ws| && steps[b].Receive? && FreshAtMarks(ws, steps, b, k)
    requires m < k && Marks(steps[m]) && (m < b ==> ws[m].now <= ws[b].now)
    ensures ws[m].now - ws[b].now <= 10.0
  {
    if m > b {
      assert Marks(steps[m]);
    }
  }

  lemma HeardBefore(ws: seq<World>, steps: seq<Step>, k: nat, app: Text, m: nat)
    requires Run(ws, steps) && k <= |steps| && m < k
    ensures var b := Ownership.LastBeat(steps, k, app);
            b.Some? && m < b.value ==> ws[m].now <= ws[b.value].now
  {
    var b := Ownership.LastBeat(steps, k, app);
    if b.Some? && m < b.value {
      TimeGrows(ws, steps, m, b.value);
    }
  }

  /** The app vetted at k was heard no more than ten seconds before any marking ahead of k. */
  lemma VettedWasHeard(ws: seq<World>, steps: seq<Step>, k: nat, j: nat, app: Text, m: nat)
    requires k < |steps| < |ws| && RecordMatches(ws, steps, k, app) && VettedAt(ws, steps, k, j, app)
    requires m < k && Marks(steps[m])
    requires var b := Ownership.LastBeat(steps, k, app); b.Some? && m < b.value ==> ws[m].now <= ws[b.value].now
    ensures var b := Ownership.LastBeat(steps, k, app);
            b.Some? && !steps[b.value].hb.draining && ws[m].now - ws[b.value].now <= 10.0
  {
    FreshWasHeard(ws, steps, k, Ownership.LastBeat(steps, k, app).value, m);
  }

  /** Every successful join was sent to an app whose last heartbeat, when the join looked, was not
      draining and was no more than ten seconds older than the join's own marking; and that had, when the
      join looked, last reported fewer than 300 users in the room. */
  lemma RoutedWasInService(ws: seq<World>, steps: seq<Step>, i: nat, j: nat) returns (m: nat, k: nat, l: nat)
    requires Run(ws, steps) && i <= |steps| && j in ws[i].joins
    requires ws[i].joins[j].pc.Done? && ws[i].joins[j].pc.answer.Routed?
    ensures m < k < i && steps[m] == Advance(j, Mark)
    ensures steps[k].Advance? && steps[k].j == j && (steps[k].act.JudgeEligible? || steps[k].act.Rank?)
    ensures l < i && steps[l].Advance? && steps[l].j == j
    ensures var b := Ownership.LastBeat(steps, k, ws[i].joins[j].pc.answer.app);
            b.Some? && !steps[b.value].hb.draining && ws[m].now - ws[b.value].now <= 10.0
    ensures var rooms, room := ReportedRooms(steps, l, ws[i].joins[j].pc.answer.app), ws[i].joins[j].room;
            room in rooms ==> rooms[room] < 300
  {
    var app, room := ws[i].joins[j].pc.answer.app, ws[i].joins[j].room;
    AllCareful(ws, steps, i, j);
    k :| 0 <= k < i && VettedAt(ws, steps, k, j, app);
    l :| 0 <= l < i && HadRoomAt(ws, steps, l, j, room, app);
    m :| 0 <= m < k && steps[m] == Advance(j, Mark);
    RecordIsLastBeat(ws, steps, k, app);
    HeardBefore(ws, steps, k, app, m);
    VettedWasHeard(ws, steps, k, j, app, m);
    RecordIsLastBeat(ws, steps, l, app);
  }

  lemma StillDraining(steps: seq<Step>, s: nat, k: nat, app: Text)
    requires s <= k <= |steps|
    requires var b := Ownership.LastBeat(steps, s, app); b.Some? && steps[b.value].hb.draining
    requires forall b | s <= b < k && steps[b].Receive? && steps[b].hb.appID == app :: steps[b].hb.draining
    ensures var b := Ownership.LastBeat(steps, k, app); b.Some? && steps[b.value].hb.draining
  {
    var first, b := Ownership.LastBeat(steps, s, app).value, Ownership.LastBeat(steps, k, app);
    assert steps[first].Receive? && steps[first].hb.appID == app;
    assert b.Some? && (b.value >= s || b.value == first);
  }

  lemma LooksAfterStart(ws: seq<World>, steps: seq<Step>, s: nat, k: nat, j: nat)
    requires Run(ws, steps) && s <= |steps| && k < |steps| && steps[k].Advance? && steps[k].j == j
    requires j !in ws[s].joins
    ensures s <= k
  {
    assert Next(ws[k], steps[k], ws[k + 1]);
    if k < s {
      Ownership.JoinsStay(ws, steps, k, s, j);
    }
  }

  /** An app that says it is draining gets no join that begins after it said so. */
  lemma DrainingGetsNoJoins(ws: seq<World>, steps: seq<Step>, s: nat, i: nat, j: nat, app: Text)
    requires Run(ws, steps) && s <= i <= |steps|
    requires var b := Ownership.LastBeat(steps, s, app); b.Some? && steps[b.value].hb.draining
    requires forall b | s <= b < i && steps[b].Receive? && steps[b].hb.appID == app :: steps[b].hb.draining
    requires j !in ws[s].joins && j in ws[i].joins
    ensures ws[i].joins[j].pc != Done(Routed(app))
  {
    if ws[i].joins[j].pc == Done(Routed(app)) {
      var m, k, l := RoutedWasInService(ws, steps, i, j);
      LooksAfterStart(ws, steps, s, k, j);
      StillDraining(steps, s, k, app);
    }
  }
}
