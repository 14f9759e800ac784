/** Who is online, mirrored into Redis (apps/app/server/presence.go): a room's key is rewritten whole
    from the node's own onlineUsers map, under a mutex. */
module Presence {
  import opened Names

  const PRESENCE_TTL: real := 30.0

  // A Redis set with its expiry; Redis keeps no empty sets.
  datatype Entry = Entry(users: set<Text>, deadline: real)

  function UsersOf(online: map<Text, set<Text>>, room: Text): set<Text> {
    if room in online then online[room] else {}
  }

  /** The presence keys and the index after one transaction of writePresence. */
  function WrittenKeys(keys: map<Text, Entry>, room: Text, users: set<Text>, now: real): map<Text, Entry> {
    if users == {} then keys - {room} else keys[room := Entry(users, now + PRESENCE_TTL)]
  }

  function WrittenIndex(index: set<Text>, room: Text, users: set<Text>): set<Text> {
    if users == {} then index - {room} else index + {room}
  }

  function LiveUsers(keys: map<Text, Entry>, room: Text, now: real): set<Text> {
    if room in keys && now <= keys[room].deadline then keys[room].users else {}
  }

  /** One node's map and the shared Redis copy. */
  class Mirror {
    var onlineUsers: map<Text, set<Text>>
    var keys: map<Text, Entry>
    var index: set<Text>

    constructor ()
      ensures onlineUsers == map[] && keys == map[] && index == {}
    {
      onlineUsers, keys, index := map[], map[], {};
    }

    method WritePresence(room: Text, now: real)
      modifies this`keys, this`index
      ensures keys == WrittenKeys(old(keys), room, UsersOf(onlineUsers, room), now)
      ensures index == WrittenIndex(old(index), room, UsersOf(onlineUsers, room))
      ensures if room in onlineUsers && onlineUsers[room] != {} then
                keys == old(keys)[room := Entry(onlineUsers[room], now + 30.0)] && index == old(index) + {room}
              else
                keys == old(keys) - {room} && index == old(index) - {room}
    {
      var users := if room in onlineUsers then onlineUsers[room] else {};
      keys := keys - {room};
      if users == {} {
        index := index - {room};
      } else {
        keys := keys[room := Entry(users, now + PRESENCE_TTL)];
        index := index + {room};
      }
    }

    /** From any state of Redis: afterwards the key, the index entry and the expiry of every room with
        users here are right, and nothing else has changed. */
    method SyncAllPresence(now: real)
      modifies this`keys, this`index
      ensures forall r | r in onlineUsers && onlineUsers[r] != {} ::
                r in keys && keys[r] == Entry(onlineUsers[r], now + 30.0) && r in index
      ensures forall r | r !in onlineUsers || onlineUsers[r] == {} ::
                && (r in keys <==> r in old(keys)) && (r in keys ==> keys[r] == old(keys)[r])
                && (r in index <==> r in old(index))
    {
      var active: seq<Text> := [];
      var todo := onlineUsers.Keys;
      while todo != {}
        invariant todo <= onlineUsers.Keys
        invariant forall r :: r in active <==> r in onlineUsers && r !in todo && onlineUsers[r] != {}
        decreases |todo|
      {
        var r :| r in todo;
        if onlineUsers[r] != {} {
          active := active + [r];
        }
        todo := todo - {r};
      }
      for i := 0 to |active|
        invariant forall r | r in active[..i] ::
            r in keys && keys[r] == Entry(onlineUsers[r], now + PRESENCE_TTL) && r in index
        invariant forall r | r !in active[..i] ::
            && (r in keys <==> r in old(keys)) && (r in keys ==> keys[r] == old(keys)[r])
            && (r in index <==> r in old(index))
      {
        assert active[i] in active;
        WritePresence(active[i], now);
        assert active[..i + 1] == active[..i] + [active[i]];
      }
      assert active[..|active|] == active;
    }

    /** The users of every indexed room whose key is alive; the index loses the others. */
    method ReadPresence(now: real) returns (out: map<Text, set<Text>>)
      modifies this`index
      ensures forall r ::
                r in out <==> r in old(index) && r in keys && keys[r].deadline >= now && keys[r].users != {}
      ensures forall r | r in out :: out[r] == keys[r].users
      ensures index == out.Keys
    {
      out := map[];
      var stale: set<Text> := {};
      var todo := index;
      while todo != {}
        invariant todo <= index == old(index)
        invariant out.Keys == set r | r in index && r !in todo && LiveUsers(keys, r, now) != {}
        invariant forall r | r in out :: out[r] == LiveUsers(keys, r, now)
        invariant stale == set r | r in index && r !in todo && LiveUsers(keys, r, now) == {}
        decreases |todo|
      {
        var r :| r in todo;
        var users := LiveUsers(keys, r, now);
        if users == {} {
          stale := stale + {r};
        } else {
          out := out[r := users];
        }
        todo := todo - {r};
      }
      index := index - stale;
    }
  }

  ///////////////////////////// The protocol /////////////////////////////

  /** A thread that changed a room, or a periodic sweep, or a reader of all presence. The names say how
      far it got; from Entered on, and while sweeping, it holds presenceMu. */
  datatype Pc =
    | Changed(room: Text)
    | Entered(room: Text)
    | Copied(room: Text, users: set<Text>)
    | Collected(active: set<Text>)
    | Sweeping(active: set<Text>)
    | SweepCopied(active: set<Text>, room: Text, users: set<Text>)
    | Reading(todo: set<Text>, stale: set<Text>)

  /** No key expires and every write succeeds, so a key is just its set of users. */
  datatype World = World(online: map<Text, set<Text>>, keys: map<Text, set<Text>>, index: set<Text>,
                         mu: Option<nat>, threads: map<nat, Pc>)

  datatype Step =
    | Arrive(t: nat, room: Text, user: Text)
    | Depart(t: nat, room: Text, user: Text)
    | Rename(t: nat, room: Text, oldName: Text, newName: Text)
    | Enter(t: nat)
    | Copy(t: nat)
    | Write(t: nat)
    | Collect(t: nat)
    | StartSweep(t: nat)
    | SweepCopy(t: nat, room: Text)
    | SweepWrite(t: nat)
    | EndSweep(t: nat)
    | ReadIndex(t: nat)
    | ReadKey(t: nat, room: Text)
    | DropStale(t: nat)

  function Departed(online: map<Text, set<Text>>, room: Text, user: Text): map<Text, set<Text>> {
    if room !in online then online
    else if online[room] - {user} == {} then online - {room}
    else online[room := online[room] - {user}]
  }

  function Renamed(online: map<Text, set<Text>>, room: Text, oldName: Text, newName: Text): map<Text, set<Text>> {
    if room !in online then online else online[room := online[room] - {oldName} + {newName}]
  }

  predicate Enabled(w: World, step: Step) {
    match step
    case Arrive(t, _, _) => t !in w.threads
    case Depart(t, _, _) => t !in w.threads
    case Rename(t, _, _, _) => t !in w.threads
    case Enter(t) => t in w.threads && w.threads[t].Changed? && w.mu.None?
    case Copy(t) => t in w.threads && w.threads[t].Entered?
    case Write(t) => t in w.threads && w.threads[t].Copied?
    case Collect(t) => t !in w.threads
    case StartSweep(t) => t in w.threads && w.threads[t].Collected? && w.mu.None?
    case SweepCopy(t, room) => t in w.threads && w.threads[t].Sweeping? && room in w.threads[t].active
    case SweepWrite(t) => t in w.threads && w.threads[t].SweepCopied?
    case EndSweep(t) => t in w.threads && w.threads[t].Sweeping? && w.threads[t].active == {}
    case ReadIndex(t) => t !in w.threads
    case ReadKey(t, room) => t in w.threads && w.threads[t].Reading? && room in w.threads[t].todo
    case DropStale(t) => t in w.threads && w.threads[t].Reading? && w.threads[t].todo == {}
  }

  function Mirrored(w: World, room: Text, users: set<Text>): World {
    w.(keys := if users == {} then w.keys - {room} else w.keys[room := users],
       index := WrittenIndex(w.index, room, users))
  }

  function Apply(w: World, step: Step): World
    requires Enabled(w, step)
  {
    match step
    case Arrive(t, room, user) =>
      w.(online := w.online[room := UsersOf(w.online, room) + {user}], threads := w.threads[t := Changed(room)])
    case Depart(t, room, user) =>
      w.(online := Departed(w.online, room, user), threads := w.threads[t := Changed(room)])
    case Rename(t, room, oldName, newName) =>
      w.(online := Renamed(w.online, room, oldName, newName), threads := w.threads[t := Changed(room)])
    case Enter(t) => w.(mu := Some(t), threads := w.threads[t := Entered(w.threads[t].room)])
    case Copy(t) =>
      w.(threads := w.threads[t := Copied(w.threads[t].room, UsersOf(w.online, w.threads[t].room))])
    case Write(t) =>
      Mirrored(w, w.threads[t].room, w.threads[t].users).(mu := None, threads := w.threads - {t})
    case Collect(t) =>
      w.(threads := w.threads[t := Collected(set r | r in w.online && w.online[r] != {})])
    case StartSweep(t) => w.(mu := Some(t), threads := w.threads[t := Sweeping(w.threads[t].active)])
    case SweepCopy(t, room) =>
      w.(threads := w.threads[t := SweepCopied(w.threads[t].active, room, UsersOf(w.online, room))])
    case SweepWrite(t) =>
      var pc := w.threads[t];
      Mirrored(w, pc.room, pc.users).(threads := w.threads[t := Sweeping(pc.active - {pc.room})])
    case EndSweep(t) => w.(mu := None, threads := w.threads - {t})
    case ReadIndex(t) => w.(threads := w.threads[t := Reading(w.index, {})])
    case ReadKey(t, room) =>
      var pc := w.threads[t];
      w.(threads := w.threads[t := Reading(pc.todo - {room},
                                           if UsersOf(w.keys, room) == {} then pc.stale + {room} else pc.stale)])
    case DropStale(t) => w.(index := w.index - w.threads[t].stale, threads := w.threads - {t})
  }

  ghost predicate Next(w: World, step: Step, w': World) {
    Enabled(w, step) && w' == Apply(w, step)
  }

  ghost predicate Run(ws: seq<World>, steps: seq<Step>) {
    && |ws| == |steps| + 1
    && ws[0] == World(map[], map[], {}, None, map[])
    && forall i {:trigger steps[i]} | 0 <= i < |steps| :: Next(ws[i], steps[i], ws[i + 1])
  }

  predicate HoldsMutex(pc: Pc) {
    pc.Entered? || pc.Copied? || pc.Sweeping? || pc.SweepCopied?
  }

  /** Between changing the room and finishing the sync that follows. */
  predicate Syncing(pc: Pc, room: Text) {
    (pc.Changed? || pc.Entered? || pc.Copied?) && pc.room == room
  }

  ghost predicate Settled(w: World, room: Text) {
    forall t | t in w.threads :: !Syncing(w.threads[t], room)
  }

  ghost predicate Waiting(w: World, room: Text) {
    exists t :: t in w.threads && w.threads[t] == Changed(room)
  }

  ///////////////////////////// Who is online /////////////////////////////

  /** The step concerns the user: it lets them in or out, or renames to or from their name where
      anybody is. */
  predicate Concerns(steps: seq<Step>, k: nat, room: Text, user: Text)
    requires k < |steps|
    decreases k, 1
  {
    match steps[k]
    case Arrive(_, r, u) => r == room && u == user
    case Depart(_, r, u) => r == room && u == user
    case Rename(_, r, before, after) => r == room && user in {before, after} && Occupants(steps, k, room) != {}
    case _ => false
  }

  /** The step leaves the user it concerns in the room. */
  predicate LeavesIn(step: Step, user: Text) {
    step.Arrive? || (step.Rename? && step.newName == user)
  }

  /** The last event that concerned the user left them in. */
  ghost predicate Online(steps: seq<Step>, i: nat, room: Text, user: Text)
    requires i <= |steps|
  {
    exists k | 0 <= k < i ::
      Concerns(steps, k, room, user) && LeavesIn(steps[k], user)
      && forall m | k < m < i :: !Concerns(steps, m, room, user)
  }

  function Occupants(steps: seq<Step>, i: nat, room: Text): set<Text>
    requires i <= |steps|
    decreases i, 0
  {
    if i == 0 then {}
    else
      var named := match steps[i - 1]
                   case Arrive(_, _, u) => {u}
                   case Depart(_, _, u) => {u}
                   case Rename(_, _, before, after) => {before, after}
                   case _ => {};
      var concerned := set u | u in named && Concerns(steps, i - 1, room, u);
      Occupants(steps, i - 1, room) - concerned + set u | u in concerned && LeavesIn(steps[i - 1], u)
  }

  lemma {:induction false} OccupantsOnline(steps: seq<Step>, i: nat, room: Text, user: Text)
    requires i <= |steps|
    ensures user in Occupants(steps, i, room) <==> Online(steps, i, room, user)
  {
    if i > 0 {
      OccupantsOnline(steps, i - 1, room, user);
      if Concerns(steps, i - 1, room, user) {
        assert Online(steps, i, room, user) <==> LeavesIn(steps[i - 1], user);
      } else {
        OnlineKept(steps, i - 1, room, user);
      }
    }
  }

  lemma OnlineKept(steps: seq<Step>, i: nat, room: Text, user: Text)
    requires i < |steps| && !Concerns(steps, i, room, user)
    ensures Online(steps, i + 1, room, user) <==> Online(steps, i, room, user)
  {
    if Online(steps, i, room, user) {
      var k :| 0 <= k < i && Concerns(steps, k, room, user) && LeavesIn(steps[k], user)
               && forall m | k < m < i :: !Concerns(steps, m, room, user);
      assert forall m | k < m < i + 1 :: !Concerns(steps, m, room, user);
    }
  }

  ghost predicate LocalIs(w: World, steps: seq<Step>, i: nat, room: Text)
    requires i <= |steps|
  {
    UsersOf(w.online, room) == Occupants(steps, i, room) && (room in w.online ==> w.online[room] != {})
  }

  lemma LocalStep(w: World, steps: seq<Step>, i: nat, room: Text)
    requires i < |steps| && Enabled(w, steps[i]) && LocalIs(w, steps, i, room)
    ensures LocalIs(Apply(w, steps[i]), steps, i + 1, room)
  {
    var w' := Apply(w, steps[i]);
    forall u ensures u in UsersOf(w'.online, room) <==> u in Occupants(steps, i + 1, room) {
      assert u in UsersOf(w.online, room) <==> u in Occupants(steps, i, room);
    }
    if steps[i].Rename? && steps[i].room == room && room in w'.online {
      assert steps[i].newName in w'.online[room];
    }
    if steps[i].Arrive? && steps[i].room == room {
      assert steps[i].user in w'.online[room];
    }
  }

  lemma {:induction false} LocalRun(ws: seq<World>, steps: seq<Step>, i: nat, room: Text)
    requires Run(ws, steps) && i <= |steps|
    ensures LocalIs(ws[i], steps, i, room)
  {
    if i > 0 {
      LocalRun(ws, steps, i - 1, room);
      assert Next(ws[i - 1], steps[i - 1], ws[i]);
      LocalStep(ws[i - 1], steps, i - 1, room);
    }
  }

  /** The node's own map, after any run, has exactly the users that the last arrival, departure or
      rename concerning them left in. */
  lemma OnlineRun(ws: seq<World>, steps: seq<Step>, i: nat, room: Text, user: Text)
    requires Run(ws, steps) && i <= |steps|
    ensures room in ws[i].online && user in ws[i].online[room] <==> Online(steps, i, room, user)
  {
    LocalRun(ws, steps, i, room);
    OccupantsOnline(steps, i, room, user);
    assert user in UsersOf(ws[i].online, room) <==> user in Occupants(steps, i, room);
  }

  ///////////////////////////// The invariant /////////////////////////////

  ghost predicate MutexOk(w: World) {
    && (forall t | t in w.threads :: HoldsMutex(w.threads[t]) <==> w.mu == Some(t))
    && (w.mu.Some? ==> w.mu.value in w.threads)
  }

  /** A copy about to be written is up to date, or somebody is waiting to write a newer one. */
  ghost predicate CopiesOk(w: World) {
    forall t | t in w.threads && (w.threads[t].Copied? || w.threads[t].SweepCopied?) ::
      w.threads[t].users == UsersOf(w.online, w.threads[t].room) || Waiting(w, w.threads[t].room)
  }

  ghost predicate SettledOk(w: World) {
    forall r | Settled(w, r) :: UsersOf(w.keys, r) == UsersOf(w.online, r)
  }

  ghost predicate Inv(w: World) {
    MutexOk(w) && CopiesOk(w) && SettledOk(w)
  }

  /** A step whose thread does not stop syncing keeps settled rooms settled or unsettles them. */
  lemma SettledBefore(w: World, w': World, t: nat, room: Text)
    requires Settled(w', room)
    requires forall u | u != t ::
               (u in w.threads <==> u in w'.threads) && (u in w.threads ==> w'.threads[u] == w.threads[u])
    requires t in w.threads ==> !Syncing(w.threads[t], room)
    ensures Settled(w, room)
  {
    forall u | u in w.threads ensures !Syncing(w.threads[u], room) {
      assert u != t ==> u in w'.threads && w'.threads[u] == w.threads[u];
    }
  }

  lemma WaitingStays(w: World, w': World, t: nat, room: Text)
    requires Waiting(w, room)
    requires forall u | u != t && u in w.threads :: u in w'.threads && w'.threads[u] == w.threads[u]
    requires t in w.threads ==> !w.threads[t].Changed?
    ensures Waiting(w', room)
  {
    var u :| u in w.threads && w.threads[u] == Changed(room);
    assert u != t && w'.threads[u] == Changed(room);
  }

  /** A thread changes a room and is about to sync it. */
  lemma InvChange(w: World, w': World, t: nat, room: Text)
    requires Inv(w) && t !in w.threads
    requires w' == w.(online := w'.online, threads := w.threads[t := Changed(room)])
    requires forall r | r != room :: UsersOf(w'.online, r) == UsersOf(w.online, r)
    ensures Inv(w')
  {
    assert w'.threads[t] == Changed(room);
    assert Waiting(w', room) && !Settled(w', room);
    forall r | Settled(w', r) ensures UsersOf(w'.keys, r) == UsersOf(w'.online, r) {
      SettledBefore(w, w', t, r);
    }
    forall u | u in w'.threads && (w'.threads[u].Copied? || w'.threads[u].SweepCopied?)
      ensures w'.threads[u].users == UsersOf(w'.online, w'.threads[u].room) || Waiting(w', w'.threads[u].room)
    {
      assert u in w.threads && w.threads[u] == w'.threads[u];
      if Waiting(w, w.threads[u].room) {
        WaitingStays(w, w', t, w.threads[u].room);
      }
    }
  }

  /** A thread moves on without touching users or keys; taking the mutex is one way to do so. */
  lemma InvMove(w: World, step: Step)
    requires Inv(w) && Enabled(w, step)
    requires step.Enter? || step.Copy? || step.Collect? || step.StartSweep? || step.SweepCopy? || step.EndSweep?
             || step.ReadIndex? || step.ReadKey? || step.DropStale?
    ensures Inv(Apply(w, step))
  {
    var w' := Apply(w, step);
    forall r | step.t in w.threads && Syncing(w.threads[step.t], r) ensures !Settled(w', r) {
      assert Syncing(w'.threads[step.t], r);
    }
    forall r | Settled(w', r) ensures UsersOf(w'.keys, r) == UsersOf(w'.online, r) {
      SettledBefore(w, w', step.t, r);
    }
    forall u | u in w'.threads && (w'.threads[u].Copied? || w'.threads[u].SweepCopied?)
      ensures w'.threads[u].users == UsersOf(w'.online, w'.threads[u].room) || Waiting(w', w'.threads[u].room)
    {
      if u != step.t {
        assert w'.threads[u] == w.threads[u] && w.mu == Some(u);
        if Waiting(w, w.threads[u].room) {
          WaitingStays(w, w', step.t, w.threads[u].room);
        }
      }
    }
  }

  /** A write: its copy was up to date, or the room is not settled yet. */
  lemma InvWrite(w: World, step: Step)
    requires Inv(w) && Enabled(w, step) && (step.Write? || step.SweepWrite?)
    ensures Inv(Apply(w, step))
  {
    var w' := Apply(w, step);
    var pc := w.threads[step.t];
    assert w.mu == Some(step.t);
    if Waiting(w, pc.room) {
      WaitingStays(w, w', step.t, pc.room);
      assert !Settled(w', pc.room);
    }
    forall r | Settled(w', r) ensures UsersOf(w'.keys, r) == UsersOf(w'.online, r) {
      if r != pc.room {
        SettledBefore(w, w', step.t, r);
      }
    }
  }

  lemma InvStep(w: World, step: Step)
    requires Inv(w) && Enabled(w, step)
    ensures Inv(Apply(w, step))
  {
    match step
    case Arrive(t, room, _) => InvChange(w, Apply(w, step), t, room);
    case Depart(t, room, _) => InvChange(w, Apply(w, step), t, room);
    case Rename(t, room, _, _) => InvChange(w, Apply(w, step), t, room);
    case Write(_) => InvWrite(w, step);
    case SweepWrite(_) => InvWrite(w, step);
    case _ => InvMove(w, step);
  }

  lemma {:induction false} InvRun(ws: seq<World>, steps: seq<Step>, i: nat)
    requires Run(ws, steps) && i < |ws|
    ensures Inv(ws[i])
  {
    if i > 0 {
      InvRun(ws, steps, i - 1);
      InvStep(ws[i - 1], steps[i - 1]);
    }
  }

  ///////////////////////////// Main results /////////////////////////////

  /** Whenever no thread is between changing a room and finishing its sync, Redis has exactly the users
      that arrivals, departures and renames have left online, however all of them, sweeps and readers
      interleave. */
  lemma PresenceConverges(ws: seq<World>, steps: seq<Step>, i: nat, room: Text)
    requires Run(ws, steps) && i <= |steps| && Settled(ws[i], room)
    ensures forall u :: room in ws[i].keys && u in ws[i].keys[room] <==> Online(steps, i, room, u)
  {
    InvRun(ws, steps, i);
    forall u ensures room in ws[i].keys && u in ws[i].keys[room] <==> Online(steps, i, room, u) {
      OnlineRun(ws, steps, i, room, u);
      assert u in UsersOf(ws[i].keys, room) <==> u in UsersOf(ws[i].online, room);
    }
  }

  /** A reader drops only rooms that have no key at that moment. */
  ghost predicate DropsOnlyEmpty(w: World, step: Step) {
    step.DropStale? && Enabled(w, step) ==> forall r | r in w.threads[step.t].stale :: UsersOf(w.keys, r) == {}
  }

  ghost predicate IndexOk(w: World) {
    forall r :: r in w.index <==> UsersOf(w.keys, r) != {}
  }

  lemma IndexExactly(w: World, step: Step)
    requires IndexOk(w) && Enabled(w, step)
    ensures IndexOk(Apply(w, step)) <==> DropsOnlyEmpty(w, step)
  {
    if step.DropStale? {
      var w' := Apply(w, step);
      assert w'.keys == w.keys;
      forall r | r in w.threads[step.t].stale && UsersOf(w.keys, r) != {} ensures !IndexOk(w') {
        assert r !in w'.index;
      }
    }
  }

  ghost predicate IndexOkThrough(ws: seq<World>, i: nat)
    requires i < |ws|
  {
    forall k | 0 <= k <= i :: IndexOk(ws[k])
  }

  ghost predicate DropsOnlyEmptyBefore(ws: seq<World>, steps: seq<Step>, i: nat)
    requires i <= |steps| < |ws|
  {
    forall k | 0 <= k < i :: DropsOnlyEmpty(ws[k], steps[k])
  }

  lemma IndexOkThroughStart(ws: seq<World>, steps: seq<Step>)
    requires Run(ws, steps)
    ensures IndexOkThrough(ws, 0) && DropsOnlyEmptyBefore(ws, steps, 0)
  {
  }

  lemma IndexOkThroughNext(ws: seq<World>, steps: seq<Step>, i: nat)
    requires i < |steps| < |ws|
    ensures IndexOkThrough(ws, i) ==> IndexOk(ws[i])
    ensures IndexOkThrough(ws, i + 1) <==> IndexOkThrough(ws, i) && IndexOk(ws[i + 1])
    ensures DropsOnlyEmptyBefore(ws, steps, i + 1)
            <==> DropsOnlyEmptyBefore(ws, steps, i) && DropsOnlyEmpty(ws[i], steps[i])
  {
  }

  lemma IndexNext(ws: seq<World>, steps: seq<Step>, i: nat)
    requires Run(ws, steps) && i < |steps|
    ensures IndexOk(ws[i]) ==> (IndexOk(ws[i + 1]) <==> DropsOnlyEmpty(ws[i], steps[i]))
  {
    assert Next(ws[i], steps[i], ws[i + 1]);
    if IndexOk(ws[i]) {
      IndexExactly(ws[i], steps[i]);
    }
  }

  /** In every run, the index has listed exactly the rooms with a key so far exactly when no reader so
      far dropped a room that had a key at that moment. */
  lemma {:induction false} IndexRun(ws: seq<World>, steps: seq<Step>, i: nat)
    requires Run(ws, steps) && i <= |steps|
    ensures IndexOkThrough(ws, i) <==> DropsOnlyEmptyBefore(ws, steps, i)
  {
    if i == 0 {
      IndexOkThroughStart(ws, steps);
    } else {
      IndexRun(ws, steps, i - 1);
      IndexOkThroughNext(ws, steps, i - 1);
      IndexNext(ws, steps, i - 1);
    }
  }

  /** Then it lists exactly the settled rooms that have users. */
  lemma IndexConverges(ws: seq<World>, steps: seq<Step>, i: nat, room: Text)
    requires Run(ws, steps) && i <= |steps| && Settled(ws[i], room)
    requires DropsOnlyEmptyBefore(ws, steps, i)
    ensures room in ws[i].index <==> exists u :: Online(steps, i, room, u)
  {
    IndexRun(ws, steps, i);
    PresenceConverges(ws, steps, i, room);
    assert IndexOk(ws[i]);
    var users := UsersOf(ws[i].keys, room);
    if users != {} {
      var u :| u in users;
      assert Online(steps, i, room, u);
    }
    if u :| Online(steps, i, room, u) {
      assert u in users;
    }
  }

  ///////////////////////////// A sweep repairs /////////////////////////////

  ghost predicate SweepStep(step: Step, t: nat) {
    (step.Collect? || step.StartSweep? || step.SweepCopy? || step.SweepWrite? || step.EndSweep?) && step.t == t
  }

  /** One whole sweep by thread t, from any state of Redis, with nothing in between. */
  ghost predicate SweepRun(ws: seq<World>, steps: seq<Step>, t: nat) {
    && |ws| == |steps| + 1 >= 2
    && steps[0] == Collect(t) && steps[|steps| - 1] == EndSweep(t)
    && (forall k {:trigger steps[k]} | 0 <= k < |steps| ::
          SweepStep(steps[k], t) && (steps[k].EndSweep? ==> k == |steps| - 1))
    && (forall k {:trigger steps[k]} | 0 <= k < |steps| :: Next(ws[k], steps[k], ws[k + 1]))
  }

  predicate Peopled(w: World, room: Text) {
    room in w.online && w.online[room] != {}
  }

  /** The room's key and index entry are right, or still those of w0. */
  ghost predicate RoomSwept(w0: World, w: World, room: Text, done: bool) {
    if done then room in w0.online && room in w.keys && w.keys[room] == w0.online[room] && room in w.index
    else
      && (room in w.keys <==> room in w0.keys) && (room in w.keys ==> w.keys[room] == w0.keys[room])
      && (room in w.index <==> room in w0.index)
  }

  predicate SweepPc(pc: Pc) {
    pc.Collected? || pc.Sweeping? || pc.SweepCopied?
  }

  ghost predicate MidSweep(w0: World, w: World, t: nat) {
    && w.online == w0.online && t in w.threads && SweepPc(w.threads[t])
    && var pc := w.threads[t];
       && (forall r | r in pc.active :: Peopled(w0, r))
       && (pc.Collected? ==> forall r | Peopled(w0, r) :: r in pc.active)
       && (pc.SweepCopied? ==> pc.room in pc.active && pc.users == w0.online[pc.room])
       && forall r {:trigger Peopled(w0, r)} :: RoomSwept(w0, w, r, Peopled(w0, r) && r !in pc.active)
  }

  lemma MidSweepStep(w0: World, w: World, t: nat, step: Step)
    requires MidSweep(w0, w, t) && Enabled(w, step) && SweepStep(step, t) && !step.EndSweep?
    ensures MidSweep(w0, Apply(w, step), t)
  {
    var w' := Apply(w, step);
    forall r ensures RoomSwept(w0, w', r, Peopled(w0, r) && r !in w'.threads[t].active) {
      assert Peopled(w0, r) ==> RoomSwept(w0, w, r, r !in w.threads[t].active);
      assert RoomSwept(w0, w, r, Peopled(w0, r) && r !in w.threads[t].active);
    }
  }

  lemma {:induction false} MidSweepRun(ws: seq<World>, steps: seq<Step>, t: nat, i: nat)
    requires SweepRun(ws, steps, t) && 0 < i < |steps|
    ensures MidSweep(ws[0], ws[i], t)
  {
    assert Next(ws[i - 1], steps[i - 1], ws[i]);
    if i == 1 {
      assert ws[1].threads[t] == Collected(set r | r in ws[0].online && ws[0].online[r] != {});
    } else {
      MidSweepRun(ws, steps, t, i - 1);
      MidSweepStep(ws[0], ws[i - 1], t, steps[i - 1]);
    }
  }

  /** The sweep of the step model does what SyncAllPresence promises: every local room with users is
      right afterwards, every other key and index entry as it was. */
  lemma SweepRepairs(ws: seq<World>, steps: seq<Step>, t: nat, room: Text)
    requires SweepRun(ws, steps, t)
    ensures var w := ws[|steps|];
            if room in ws[0].online && ws[0].online[room] != {} then
              room in w.keys && w.keys[room] == ws[0].online[room] && room in w.index
            else
              && (room in w.keys <==> room in ws[0].keys) && (room in w.keys ==> w.keys[room] == ws[0].keys[room])
              && (room in w.index <==> room in ws[0].index)
  {
    var i := |steps| - 1;
    assert steps[0] != steps[i];
    MidSweepRun(ws, steps, t, i);
    assert Next(ws[i], steps[i], ws[i + 1]);
    assert RoomSwept(ws[0], ws[i], room, Peopled(ws[0], room) && room !in ws[i].threads[t].active);
  }

  ///////////////////////////// A reader can hide a room /////////////////////////////

  const HALL: Text := [72]
  const ANN: Text := [65]

  ghost predicate Path(ws: seq<World>, steps: seq<Step>, w: World) {
    Run(ws, steps) && ws[|steps|] == w
  }

  lemma Extend(ws: seq<World>, steps: seq<Step>, w: World, step: Step) returns (ws': seq<World>, steps': seq<Step>)
    requires Path(ws, steps, w) && Enabled(w, step)
    ensures Path(ws', steps', Apply(w, step))
  {
    ws', steps' := ws + [Apply(w, step)], steps + [step];
    forall i {:trigger steps'[i]} | 0 <= i < |steps'| ensures Next(ws'[i], steps'[i], ws'[i + 1]) {
      assert i < |steps| ==> steps'[i] == steps[i] && ws'[i + 1] == ws[i + 1];
    }
  }

  /** A change to the room and the whole sync that follows it, with nothing in between. */
  lemma ChangeAndSync(ws: seq<World>, steps: seq<Step>, w: World, step: Step)
    returns (ws': seq<World>, steps': seq<Step>)
    requires Path(ws, steps, w) && Enabled(w, step) && (step.Arrive? || step.Depart?) && w.mu.None?
    ensures var online := Apply(w, step).online;
            Path(ws', steps', Mirrored(w.(online := online), step.room, UsersOf(online, step.room)))
  {
    var w1 := Apply(w, step);
    ws', steps' := Extend(ws, steps, w, step);
    var w2 := Apply(w1, Enter(step.t));
    ws', steps' := Extend(ws', steps', w1, Enter(step.t));
    var w3 := Apply(w2, Copy(step.t));
    ws', steps' := Extend(ws', steps', w2, Copy(step.t));
    ws', steps' := Extend(ws', steps', w3, Write(step.t));
    assert w3.threads - {step.t} == w.threads;
  }

  /** It can fail: a reader that saw the room's key gone drops it from the index after
      the room has filled again, and the room is settled, has a user and is not listed. */
  lemma SlowReaderHidesRoom() returns (ws: seq<World>, steps: seq<Step>)
    ensures Run(ws, steps)
    ensures var w := ws[|steps|]; Settled(w, HALL) && UsersOf(w.online, HALL) == {ANN} && HALL !in w.index
  {
    var w0 := World(map[], map[], {}, None, map[]);
    ws, steps := [w0], [];
    ws, steps := ChangeAndSync(ws, steps, w0, Arrive(0, HALL, ANN));
    var w1 := ws[|steps|];
    assert UsersOf(w0.online, HALL) + {ANN} == {ANN};
    assert w1.online == map[HALL := {ANN}] && w1.index == {HALL} && w1.threads == map[];
    ws, steps := Extend(ws, steps, w1, ReadIndex(1));
    var w2 := ws[|steps|];
    assert w2.threads == map[1 := Reading({HALL}, {})];
    ws, steps := ChangeAndSync(ws, steps, w2, Depart(0, HALL, ANN));
    var w3 := ws[|steps|];
    assert w3.online == map[] && w3.keys == map[];
    ws, steps := Extend(ws, steps, w3, ReadKey(1, HALL));
    var w4 := ws[|steps|];
    assert w4.threads[1] == Reading({}, {HALL});
    ws, steps := ChangeAndSync(ws, steps, w4, Arrive(0, HALL, ANN));
    var w5 := ws[|steps|];
    ws, steps := Extend(ws, steps, w5, DropStale(1));
  }
}
