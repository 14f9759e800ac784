/** The life of a room's Redis subscription on one node (apps/app/server/main.go:399-434, 195-208,
    465-528): joins, leaves, starting subscribers and dying subscribers interleave, each region under
    subLock is one step, and the emptiness check inside stopSubscriptionIfEmpty is a step of its own
    because it only shares roomsLock with joins. Before shutdown; the context is never cancelled. */
module Subscriptions {
  import opened Names

  /** What subLock guards. A pubsub is named by the generation of the goroutine that opened it. */
  datatype Table = Table(subscriptions: set<Text>, subGens: map<Text, nat>, subGen: nat, roomSubs: map<Text, nat>)

  const NO_SUBSCRIPTIONS: Table := Table({}, map[], 0, map[])

  function Subscribed(t: Table, room: Text): Table {
    if room in t.subscriptions then t
    else t.(subscriptions := t.subscriptions + {room}, subGen := t.subGen + 1,
            subGens := t.subGens[room := t.subGen + 1])
  }

  function Forgotten(t: Table, room: Text): Table {
    t.(subscriptions := t.subscriptions - {room}, subGens := t.subGens - {room}, roomSubs := t.roomSubs - {room})
  }

  function Stopped(t: Table, room: Text, empty: bool): Table {
    if empty && room in t.subscriptions then Forgotten(t, room) else t
  }

  predicate Current(t: Table, room: Text, gen: nat) {
    room in t.subscriptions && room in t.subGens && t.subGens[room] == gen
  }

  predicate Registered(t: Table, room: Text, gen: nat) {
    room in t.roomSubs && t.roomSubs[room] == gen
  }

  function Cleaned(t: Table, room: Text, gen: nat): Table {
    if Registered(t, room, gen) then Forgotten(t, room) else t
  }

  /** The table as the node keeps it, one method per region under subLock. */
  class Hub {
    var subscriptions: set<Text>
    var subGens: map<Text, nat>
    var subGen: nat
    var roomSubs: map<Text, nat>

    ghost function View(): Table
      reads this
    {
      Table(subscriptions, subGens, subGen, roomSubs)
    }

    constructor ()
      ensures View() == NO_SUBSCRIPTIONS
    {
      subscriptions, subGens, subGen, roomSubs := {}, map[], 0, map[];
    }

    /** The generation to start a subscriber for, if the room had none. */
    method EnsureSubscription(room: Text) returns (gen: Option<nat>)
      modifies this
      ensures View() == Subscribed(old(View()), room)
      ensures gen == if room in old(subscriptions) then None else Some(subGen)
      ensures roomSubs == old(roomSubs)
      ensures if room in old(subscriptions) then
                subscriptions == old(subscriptions) && subGens == old(subGens) && subGen == old(subGen)
              else
                && subscriptions == old(subscriptions) + {room}
                && subGen == old(subGen) + 1 && subGens == old(subGens)[room := subGen]
    {
      if room in subscriptions {
        return None;
      }
      subscriptions := subscriptions + {room};
      subGen := subGen + 1;
      subGens := subGens[room := subGen];
      return Some(subGen);
    }

    /** The pubsub to close, if one was registered. */
    method StopSubscriptionIfEmpty(room: Text, empty: bool) returns (ps: Option<nat>)
      modifies this
      ensures View() == Stopped(old(View()), room, empty)
      ensures ps == if empty && room in old(subscriptions) && room in old(roomSubs) then Some(old(roomSubs)[room])
                    else None
      ensures subGen == old(subGen)
      ensures if empty && room in old(subscriptions) then
                && subscriptions == old(subscriptions) - {room}
                && subGens == old(subGens) - {room} && roomSubs == old(roomSubs) - {room}
              else
                subscriptions == old(subscriptions) && subGens == old(subGens) && roomSubs == old(roomSubs)
    {
      if !empty || room !in subscriptions {
        return None;
      }
      subscriptions := subscriptions - {room};
      subGens := subGens - {room};
      ps := if room in roomSubs then Some(roomSubs[room]) else None;
      roomSubs := roomSubs - {room};
    }

    method Register(room: Text, gen: nat) returns (ok: bool)
      modifies this
      ensures ok <==> Current(old(View()), room, gen)
      ensures View() == if ok then old(View()).(roomSubs := old(roomSubs)[room := gen]) else old(View())
      ensures ok <==> room in old(subscriptions) && room in old(subGens) && old(subGens)[room] == gen
    {
      if room !in subscriptions || room !in subGens || subGens[room] != gen {
        return false;
      }
      roomSubs := roomSubs[room := gen];
      return true;
    }

    method Cleanup(room: Text, gen: nat)
      modifies this
      ensures View() == Cleaned(old(View()), room, gen)
      ensures subGen == old(subGen)
      ensures if room in old(roomSubs) && old(roomSubs)[room] == gen then
                && subscriptions == old(subscriptions) - {room}
                && subGens == old(subGens) - {room} && roomSubs == old(roomSubs) - {room}
              else
                subscriptions == old(subscriptions) && subGens == old(subGens) && roomSubs == old(roomSubs)
    {
      if room in roomSubs && roomSubs[room] == gen {
        roomSubs := roomSubs - {room};
        subscriptions := subscriptions - {room};
        subGens := subGens - {room};
      }
    }
  }

  ///////////////////////////// The protocol /////////////////////////////

  // handleConnections: added to rooms, pumps started, past its subscription step
  datatype Handler = Added | Pumping | Past

  // readPump: still connected; removed from rooms; holding subLock after the emptiness check;
  // about to close a pubsub; finished
  datatype Reader = Reading | Removed | Checked(empty: bool) | Closing(ps: nat) | Finished

  datatype Client = Client(room: Text, handler: Handler, reader: Reader)

  // runSubscription: before its registration; receiving; after its channel closed; returned
  datatype Phase = Starting | Listening | Dying | Exited

  datatype Subscriber = Subscriber(room: Text, phase: Phase)

  datatype Node = Node(table: Table, subLock: Option<nat>, rooms: map<Text, set<nat>>,
                       clients: map<nat, Client>, subs: map<nat, Subscriber>, closed: set<nat>)

  datatype Step =
    | Join(c: nat, room: Text)
    | StartPumps(c: nat)
    | Subscribe(c: nat)
    | Leave(c: nat)
    | Check(c: nat)
    | Stop(c: nat)
    | ClosePubSub(c: nat)
    | TryRegister(g: nat)
    | ChannelClosed(g: nat)
    | CleanUp(g: nat)

  function RoomSet(rooms: map<Text, set<nat>>, room: Text): set<nat> {
    if room in rooms then rooms[room] else {}
  }

  function WithoutClient(rooms: map<Text, set<nat>>, room: Text, c: nat): map<Text, set<nat>> {
    if room !in rooms then rooms
    else if rooms[room] - {c} == {} then rooms - {room}
    else rooms[room := rooms[room] - {c}]
  }

  predicate Enabled(n: Node, step: Step) {
    match step
    case Join(c, _) => c !in n.clients
    case StartPumps(c) => c in n.clients && n.clients[c].handler.Added?
    case Subscribe(c) => c in n.clients && n.clients[c].handler.Pumping? && n.subLock.None?
    case Leave(c) => c in n.clients && !n.clients[c].handler.Added? && n.clients[c].reader.Reading?
    case Check(c) => c in n.clients && n.clients[c].reader.Removed? && n.subLock.None?
    case Stop(c) => c in n.clients && n.clients[c].reader.Checked? && n.subLock == Some(c)
    case ClosePubSub(c) => c in n.clients && n.clients[c].reader.Closing?
    case TryRegister(g) => g in n.subs && n.subs[g].phase.Starting? && n.subLock.None?
    case ChannelClosed(g) => g in n.subs && n.subs[g].phase.Listening? && g in n.closed
    case CleanUp(g) => g in n.subs && n.subs[g].phase.Dying? && n.subLock.None?
  }

  function SetReader(n: Node, c: nat, reader: Reader): map<nat, Client>
    requires c in n.clients
  {
    n.clients[c := n.clients[c].(reader := reader)]
  }

  function SetHandler(n: Node, c: nat, handler: Handler): map<nat, Client>
    requires c in n.clients
  {
    n.clients[c := n.clients[c].(handler := handler)]
  }

  function SetPhase(n: Node, g: nat, phase: Phase): map<nat, Subscriber>
    requires g in n.subs
  {
    n.subs[g := n.subs[g].(phase := phase)]
  }

  function Apply(n: Node, step: Step): Node
    requires Enabled(n, step)
  {
    match step
    case Join(c, room) =>
      n.(rooms := n.rooms[room := RoomSet(n.rooms, room) + {c}],
         clients := n.clients[c := Client(room, Added, Reading)])
    case StartPumps(c) => n.(clients := SetHandler(n, c, Pumping))
    case Subscribe(c) =>
      var room := n.clients[c].room;
      n.(table := Subscribed(n.table, room),
         subs := if room in n.table.subscriptions then n.subs
                 else n.subs[n.table.subGen + 1 := Subscriber(room, Starting)],
         clients := SetHandler(n, c, Past))
    case Leave(c) =>
      n.(rooms := WithoutClient(n.rooms, n.clients[c].room, c), clients := SetReader(n, c, Removed))
    case Check(c) =>
      n.(subLock := Some(c),
         clients := SetReader(n, c, Checked(RoomSet(n.rooms, n.clients[c].room) == {})))
    case Stop(c) =>
      var room, empty := n.clients[c].room, n.clients[c].reader.empty;
      n.(subLock := None,
         table := Stopped(n.table, room, empty),
         clients := SetReader(n, c, if empty && room in n.table.subscriptions && room in n.table.roomSubs
                                    then Closing(n.table.roomSubs[room]) else Finished))
    case ClosePubSub(c) =>
      n.(closed := n.closed + {n.clients[c].reader.ps}, clients := SetReader(n, c, Finished))
    case TryRegister(g) =>
      var room := n.subs[g].room;
      if Current(n.table, room, g) then
        n.(table := n.table.(roomSubs := n.table.roomSubs[room := g]), subs := SetPhase(n, g, Listening))
      else n.(closed := n.closed + {g}, subs := SetPhase(n, g, Exited))
    case ChannelClosed(g) => n.(subs := SetPhase(n, g, Dying))
    case CleanUp(g) => n.(table := Cleaned(n.table, n.subs[g].room, g), subs := SetPhase(n, g, Exited))
  }

  predicate Init(n: Node) {
    n == NOBODY
  }

  ghost predicate Next(n: Node, step: Step, n': Node) {
    Enabled(n, step) && n' == Apply(n, step)
  }

  ghost predicate Run(ns: seq<Node>, steps: seq<Step>) {
    && |ns| == |steps| + 1
    && Init(ns[0])
    && forall i {:trigger steps[i]} | 0 <= i < |steps| :: Next(ns[i], steps[i], ns[i + 1])
  }

  ///////////////////////////// The invariant /////////////////////////////

  ghost predicate InRoom(n: Node, c: nat) {
    c in n.clients && c in RoomSet(n.rooms, n.clients[c].room)
  }

  /** Past its subscription step and not yet removed from rooms. */
  ghost predicate Served(n: Node, c: nat) {
    c in n.clients && n.clients[c].handler.Past? && n.clients[c].reader.Reading?
  }

  ghost predicate ClosePending(n: Node, g: nat) {
    exists c :: c in n.clients && n.clients[c].reader == Closing(g)
  }

  ghost predicate RoomsAgree(n: Node) {
    && (forall c | c in n.clients :: n.clients[c].reader.Reading? <==> InRoom(n, c))
    && (forall r, c | r in n.rooms && c in n.rooms[r] :: c in n.clients && n.clients[c].room == r)
  }

  /** subLock is held exactly by the client between its check and its stop, and if that check found the
      room empty then nobody in it is past the subscription step. */
  ghost predicate LockOk(n: Node) {
    && (forall c | c in n.clients :: n.clients[c].reader.Checked? <==> n.subLock == Some(c))
    && (n.subLock.Some? ==> n.subLock.value in n.clients)
    && (forall c, d | c in n.clients && n.clients[c].reader == Checked(true) && Served(n, d) ::
          n.clients[d].room != n.clients[c].room)
  }

  /** The current generation of a flagged room belongs to a live goroutine of that room, registered
      exactly when it listens, whose pubsub nobody has closed or is about to close. */
  ghost predicate CurrentOk(n: Node, room: Text) {
    room in n.table.subGens ==>
      var g := n.table.subGens[room];
      && g in n.subs && n.subs[g].room == room
      && (n.subs[g].phase.Starting? || n.subs[g].phase.Listening?)
      && (n.subs[g].phase.Listening? <==> room in n.table.roomSubs)
      && g !in n.closed && !ClosePending(n, g)
  }

  ghost predicate TableOk(n: Node) {
    && n.table.subscriptions == n.table.subGens.Keys
    && (forall r | r in n.table.roomSubs :: r in n.table.subGens && n.table.roomSubs[r] == n.table.subGens[r])
    && (forall r | r in n.table.subGens :: CurrentOk(n, r))
    && (forall g | g in n.subs :: g <= n.table.subGen)
  }

  /** A subscriber that is not the current one is not running for long. */
  ghost predicate SubOk(n: Node, g: nat) {
    g in n.subs ==>
      && (n.subs[g].phase.Listening? && !Current(n.table, n.subs[g].room, g) ==> g in n.closed || ClosePending(n, g))
      && (n.subs[g].phase.Dying? || n.subs[g].phase.Exited? ==> g in n.closed)
  }

  ghost predicate PendingKnown(n: Node) {
    && (forall c | c in n.clients && n.clients[c].reader.Closing? :: n.clients[c].reader.ps <= n.table.subGen)
    && (forall g | g in n.closed :: g <= n.table.subGen)
  }

  ghost predicate Covered(n: Node) {
    forall c | Served(n, c) :: n.clients[c].room in n.table.subscriptions
  }

  ghost predicate Inv(n: Node) {
    && RoomsAgree(n) && LockOk(n) && TableOk(n) && PendingKnown(n) && Covered(n)
    && forall g | g in n.subs :: SubOk(n, g)
  }

  lemma InvJoin(n: Node, c: nat, room: Text)
    requires Inv(n) && Enabled(n, Join(c, room))
    ensures Inv(Apply(n, Join(c, room)))
  {
    var n' := Apply(n, Join(c, room));
    ClientsKeepClosing(n, n', c);
    forall d | d in n'.clients ensures n'.clients[d].reader.Reading? <==> InRoom(n', d) {
      assert d != c ==> (InRoom(n', d) <==> InRoom(n, d));
    }
    SubsUntouched(n, n');
  }

  /** A step of client c that neither starts nor ends a pending close leaves the pending closes alone. */
  lemma ClientsKeepClosing(n: Node, n': Node, c: nat)
    requires forall d | d != c ::
               (d in n.clients <==> d in n'.clients) && (d in n.clients ==> n'.clients[d] == n.clients[d])
    requires c in n'.clients && !n'.clients[c].reader.Closing?
    requires c in n.clients ==> !n.clients[c].reader.Closing?
    ensures forall g :: ClosePending(n', g) <==> ClosePending(n, g)
  {
    forall g ensures ClosePending(n', g) <==> ClosePending(n, g) {
      if ClosePending(n, g) {
        var d :| d in n.clients && n.clients[d].reader == Closing(g);
        assert d in n'.clients && n'.clients[d].reader == Closing(g);
      }
      if ClosePending(n', g) {
        var d :| d in n'.clients && n'.clients[d].reader == Closing(g);
        assert d in n.clients && n.clients[d].reader == Closing(g);
      }
    }
  }

  lemma SubsUntouched(n: Node, n': Node)
    requires TableOk(n) && forall g | g in n.subs :: SubOk(n, g)
    requires n'.table == n.table && n'.subs == n.subs && n'.closed == n.closed
    requires forall g :: ClosePending(n', g) <==> ClosePending(n, g)
    ensures TableOk(n') && forall g | g in n'.subs :: SubOk(n', g)
  {
    forall r | r in n'.table.subGens ensures CurrentOk(n', r) {
      assert CurrentOk(n, r);
    }
    forall g | g in n'.subs ensures SubOk(n', g) {
      assert SubOk(n, g);
    }
  }

  lemma InvStartPumps(n: Node, c: nat)
    requires Inv(n) && Enabled(n, StartPumps(c))
    ensures Inv(Apply(n, StartPumps(c)))
  {
    var n' := Apply(n, StartPumps(c));
    forall d | d in n'.clients
      ensures n'.clients[d].reader == n.clients[d].reader && n'.clients[d].room == n.clients[d].room
    {
    }
    forall d | d in n'.clients ensures n'.clients[d].reader.Reading? <==> InRoom(n', d) {
      assert InRoom(n', d) <==> InRoom(n, d);
    }
    forall g ensures ClosePending(n', g) <==> ClosePending(n, g) {
      SameClosing(n, n', g);
    }
    SubsUntouched(n, n');
  }

  lemma SameClosing(n: Node, n': Node, g: nat)
    requires forall d ::
               && (d in n.clients <==> d in n'.clients)
               && (d in n.clients ==> n'.clients[d].reader == n.clients[d].reader)
    ensures ClosePending(n', g) <==> ClosePending(n, g)
  {
    if ClosePending(n, g) {
      var d :| d in n.clients && n.clients[d].reader == Closing(g);
      assert d in n'.clients && n'.clients[d].reader == Closing(g);
    }
  }

  lemma InvSubscribe(n: Node, c: nat)
    requires Inv(n) && Enabled(n, Subscribe(c))
    ensures Inv(Apply(n, Subscribe(c)))
  {
    var n' := Apply(n, Subscribe(c));
    forall g ensures ClosePending(n', g) <==> ClosePending(n, g) {
      SameClosing(n, n', g);
    }
    forall d | d in n'.clients ensures n'.clients[d].reader.Reading? <==> InRoom(n', d) {
      assert InRoom(n', d) <==> InRoom(n, d);
    }
    forall d | Served(n', d) ensures n'.clients[d].room in n'.table.subscriptions {
      assert d != c ==> Served(n, d);
    }
    if n.clients[c].room in n.table.subscriptions {
      SubsUntouched(n, n');
    } else {
      SubscribeStarts(n, c);
    }
  }

  /** The subscription that is really started gets a generation nothing else uses. */
  lemma SubscribeStarts(n: Node, c: nat)
    requires Inv(n) && Enabled(n, Subscribe(c)) && n.clients[c].room !in n.table.subscriptions
    ensures var n' := Apply(n, Subscribe(c));
            TableOk(n') && PendingKnown(n') && forall g | g in n'.subs :: SubOk(n', g)
  {
    var n' := Apply(n, Subscribe(c));
    var room, newGen := n.clients[c].room, n.table.subGen + 1;
    assert newGen !in n.subs && newGen !in n.closed && !ClosePending(n, newGen);
    forall g ensures ClosePending(n', g) <==> ClosePending(n, g) {
      SameClosing(n, n', g);
    }
    forall r | r in n'.table.subGens ensures CurrentOk(n', r) {
      if r != room {
        assert CurrentOk(n, r);
        assert n'.table.subGens[r] == n.table.subGens[r];
      }
    }
    forall g | g in n'.subs ensures SubOk(n', g) {
      if g != newGen {
        OthersStaySub(n, c, g);
      }
    }
  }

  lemma OthersStaySub(n: Node, c: nat, g: nat)
    requires Inv(n) && Enabled(n, Subscribe(c)) && n.clients[c].room !in n.table.subscriptions
    requires g in n.subs
    ensures SubOk(Apply(n, Subscribe(c)), g)
  {
    var n' := Apply(n, Subscribe(c));
    SameClosing(n, n', g);
    assert SubOk(n, g) && n'.subs[g] == n.subs[g];
    assert Current(n.table, n.subs[g].room, g) ==> Current(n'.table, n.subs[g].room, g);
  }

  lemma InvLeave(n: Node, c: nat)
    requires Inv(n) && Enabled(n, Leave(c))
    ensures Inv(Apply(n, Leave(c)))
  {
    var n' := Apply(n, Leave(c));
    ClientsKeepClosing(n, n', c);
    forall d | d in n'.clients ensures n'.clients[d].reader.Reading? <==> InRoom(n', d) {
      assert d != c ==> (InRoom(n', d) <==> InRoom(n, d));
    }
    forall d | Served(n', d) ensures Served(n, d) && n'.clients[d] == n.clients[d] {
    }
    SubsUntouched(n, n');
  }

  lemma InvCheck(n: Node, c: nat)
    requires Inv(n) && Enabled(n, Check(c))
    ensures Inv(Apply(n, Check(c)))
  {
    var n' := Apply(n, Check(c));
    ClientsKeepClosing(n, n', c);
    forall d | d in n'.clients ensures n'.clients[d].reader.Reading? <==> InRoom(n', d) {
      assert InRoom(n', d) <==> InRoom(n, d);
    }
    forall d | Served(n', d) ensures Served(n, d) && n'.clients[d] == n.clients[d] && InRoom(n, d) {
      assert n.clients[d].reader.Reading? <==> InRoom(n, d);
    }
    SubsUntouched(n, n');
  }

  lemma InvStop(n: Node, c: nat)
    requires Inv(n) && Enabled(n, Stop(c))
    ensures Inv(Apply(n, Stop(c)))
  {
    var n' := Apply(n, Stop(c));
    var room := n.clients[c].room;
    forall d | d in n'.clients ensures n'.clients[d].reader.Reading? <==> InRoom(n', d) {
      assert InRoom(n', d) <==> InRoom(n, d);
    }
    forall d | Served(n', d) ensures n'.clients[d].room in n'.table.subscriptions {
      assert Served(n, d);
    }
    if n'.table == n.table {
      ClientsKeepClosing(n, n', c);
      SubsUntouched(n, n');
    } else {
      StopForgets(n, c);
    }
  }

  /** The stop that does something: its room is forgotten and the registered pubsub, if any, is the one
      it goes on to close. */
  lemma StopForgets(n: Node, c: nat)
    requires Inv(n) && Enabled(n, Stop(c))
    requires n.clients[c].reader.empty && n.clients[c].room in n.table.subscriptions
    ensures var n' := Apply(n, Stop(c));
            TableOk(n') && PendingKnown(n') && forall g | g in n'.subs :: SubOk(n', g)
  {
    var n' := Apply(n, Stop(c));
    var room := n.clients[c].room;
    assert CurrentOk(n, room);
    forall g ensures ClosePending(n', g) <==> ClosePending(n, g) || n'.clients[c].reader == Closing(g) {
      OneMoreClosing(n, n', c, g);
    }
    forall r | r in n'.table.subGens ensures CurrentOk(n', r) {
      assert CurrentOk(n, r);
    }
    forall g | g in n'.subs ensures SubOk(n', g) {
      assert SubOk(n, g);
      assert Current(n.table, room, g) && n.subs[g].phase.Listening? ==> n'.clients[c].reader == Closing(g);
    }
  }

  lemma OneMoreClosing(n: Node, n': Node, c: nat, g: nat)
    requires forall d | d != c ::
               (d in n.clients <==> d in n'.clients) && (d in n.clients ==> n'.clients[d] == n.clients[d])
    requires c in n'.clients && c in n.clients && !n.clients[c].reader.Closing?
    ensures ClosePending(n', g) <==> ClosePending(n, g) || n'.clients[c].reader == Closing(g)
  {
    if ClosePending(n, g) {
      var d :| d in n.clients && n.clients[d].reader == Closing(g);
      assert d in n'.clients && n'.clients[d].reader == Closing(g);
    }
    if ClosePending(n', g) {
      var d :| d in n'.clients && n'.clients[d].reader == Closing(g);
      assert d != c ==> d in n.clients && n.clients[d].reader == Closing(g);
    }
  }

  lemma InvClose(n: Node, c: nat)
    requires Inv(n) && Enabled(n, ClosePubSub(c))
    ensures Inv(Apply(n, ClosePubSub(c)))
  {
    var n' := Apply(n, ClosePubSub(c));
    var ps := n.clients[c].reader.ps;
    assert ClosePending(n, ps);
    forall d | d in n'.clients ensures n'.clients[d].reader.Reading? <==> InRoom(n', d) {
      assert InRoom(n', d) <==> InRoom(n, d);
    }
    forall d | Served(n', d) ensures Served(n, d) && n'.clients[d] == n.clients[d] {
    }
    forall g | g != ps ensures ClosePending(n', g) <==> ClosePending(n, g) {
      if ClosePending(n, g) {
        var d :| d in n.clients && n.clients[d].reader == Closing(g);
        assert d in n'.clients && n'.clients[d].reader == Closing(g);
      }
      if ClosePending(n', g) {
        var d :| d in n'.clients && n'.clients[d].reader == Closing(g);
        assert d in n.clients && n.clients[d].reader == Closing(g);
      }
    }
    forall r | r in n'.table.subGens ensures CurrentOk(n', r) {
      assert CurrentOk(n, r);
    }
    forall g | g in n'.subs ensures SubOk(n', g) {
      assert SubOk(n, g);
    }
  }

  /** A dying subscriber is never the current one, so its cleanup touches nothing: its replacement's
      entries are safe from it. */
  lemma CleanupTouchesNothing(n: Node, g: nat)
    requires Inv(n) && Enabled(n, CleanUp(g))
    ensures Apply(n, CleanUp(g)).table == n.table
  {
    var room := n.subs[g].room;
    assert SubOk(n, g);
    assert room in n.table.subGens ==> CurrentOk(n, room);
  }

  /** A step of subscriber g alone. */
  lemma InvSubscriber(n: Node, step: Step, g: nat)
    requires Inv(n) && Enabled(n, step)
    requires step == TryRegister(g) || step == ChannelClosed(g) || step == CleanUp(g)
    ensures Inv(Apply(n, step))
  {
    var n' := Apply(n, step);
    assert SubOk(n, g);
    if step.CleanUp? {
      CleanupTouchesNothing(n, g);
    }
    forall d | d in n'.clients ensures n'.clients[d].reader.Reading? <==> InRoom(n', d) {
      assert InRoom(n', d) <==> InRoom(n, d);
    }
    forall d | Served(n', d) ensures Served(n, d) {
    }
    forall x ensures ClosePending(n', x) <==> ClosePending(n, x) {
      SameClosing(n, n', x);
    }
    forall r | r in n'.table.subGens ensures CurrentOk(n', r) {
      assert CurrentOk(n, r);
    }
    forall x | x in n'.subs ensures SubOk(n', x) {
      assert SubOk(n, x);
    }
  }

  lemma InvStep(n: Node, step: Step)
    requires Inv(n) && Enabled(n, step)
    ensures Inv(Apply(n, step))
  {
    match step
    case Join(c, room) => InvJoin(n, c, room);
    case StartPumps(c) => InvStartPumps(n, c);
    case Subscribe(c) => InvSubscribe(n, c);
    case Leave(c) => InvLeave(n, c);
    case Check(c) => InvCheck(n, c);
    case Stop(c) => InvStop(n, c);
    case ClosePubSub(c) => InvClose(n, c);
    case TryRegister(g) => InvSubscriber(n, step, g);
    case ChannelClosed(g) => InvSubscriber(n, step, g);
    case CleanUp(g) => InvSubscriber(n, step, g);
  }

  lemma {:induction false} InvRun(ns: seq<Node>, steps: seq<Step>, i: nat)
    requires Run(ns, steps) && i < |ns|
    ensures Inv(ns[i])
  {
    if i > 0 {
      InvRun(ns, steps, i - 1);
      InvStep(ns[i - 1], steps[i - 1]);
    }
  }

  ///////////////////////////// Main results /////////////////////////////

  /** A goroutine that delivers, or is about to register and then deliver, messages of the room. */
  ghost predicate Serving(n: Node, room: Text, g: nat) {
    && g in n.subs && n.subs[g].room == room
    && (n.subs[g].phase.Starting? || (n.subs[g].phase.Listening? && Registered(n.table, room, g)))
    && Current(n.table, room, g)
  }

  /** Every client past its subscription step and still in rooms is served: its room is flagged and has
      exactly one subscriber of the current generation, starting or registered, neither closed nor
      about to be. */
  lemma EveryClientIsServed(ns: seq<Node>, steps: seq<Step>, i: nat, c: nat) returns (g: nat)
    requires Run(ns, steps) && i < |ns| && Served(ns[i], c)
    ensures var n, room := ns[i], ns[i].clients[c].room;
            && room in n.table.subscriptions
            && Serving(n, room, g) && g !in n.closed && !ClosePending(n, g)
            && forall h | Serving(n, room, h) :: h == g
  {
    InvRun(ns, steps, i);
    var n, room := ns[i], ns[i].clients[c].room;
    assert CurrentOk(n, room);
    g := n.table.subGens[room];
  }

  /** No orphans: a registered pubsub belongs to the current generation of its room, and every other
      listening subscriber is closed or has a pending close; one that has returned left nothing open. */
  lemma NoOrphanSubscriber(ns: seq<Node>, steps: seq<Step>, i: nat)
    requires Run(ns, steps) && i < |ns|
    ensures var n := ns[i];
            && (forall r | r in n.table.roomSubs ::
                  var g := n.table.roomSubs[r];
                  Current(n.table, r, g) && g in n.subs && n.subs[g] == Subscriber(r, Listening))
            && (forall g | g in n.subs && n.subs[g].phase.Listening? && !Registered(n.table, n.subs[g].room, g) ::
                  g in n.closed || ClosePending(n, g))
            && (forall g | g in n.subs && n.subs[g].phase.Exited? :: g in n.closed)
  {
    InvRun(ns, steps, i);
    var n := ns[i];
    forall r | r in n.table.roomSubs
      ensures var g := n.table.roomSubs[r];
              Current(n.table, r, g) && g in n.subs && n.subs[g] == Subscriber(r, Listening)
    {
      assert CurrentOk(n, r);
    }
    forall g | g in n.subs && n.subs[g].phase.Listening? && !Registered(n.table, n.subs[g].room, g)
      ensures g in n.closed || ClosePending(n, g)
    {
      assert SubOk(n, g) && CurrentOk(n, n.subs[g].room);
    }
    forall g | g in n.subs && n.subs[g].phase.Exited? ensures g in n.closed {
      assert SubOk(n, g);
    }
  }

  lemma OutdatedStep(n: Node, step: Step, g: nat)
    requires Inv(n) && Enabled(n, step)
    requires g in n.subs && n.subs[g].phase.Starting? && !Current(n.table, n.subs[g].room, g)
    ensures var n' := Apply(n, step);
            && g in n'.subs && n'.subs[g].room == n.subs[g].room
            && (n'.subs[g].phase.Starting? || n'.subs[g].phase.Exited?)
            && !Current(n'.table, n'.subs[g].room, g)
  {
    assert g <= n.table.subGen;
  }

  lemma ExitedStep(n: Node, step: Step, g: nat)
    requires Inv(n) && Enabled(n, step)
    requires g in n.subs && n.subs[g].phase.Exited?
    ensures g in Apply(n, step).subs && Apply(n, step).subs[g].phase.Exited?
  {
    assert g <= n.table.subGen;
  }

  /** A goroutine whose generation was replaced before it registered never registers: it can only
      return. */
  lemma {:induction false} OutdatedNeverRegisters(ns: seq<Node>, steps: seq<Step>, i: nat, k: nat, g: nat)
    requires Run(ns, steps) && i <= k < |ns|
    requires g in ns[i].subs && ns[i].subs[g].phase.Starting? && !Current(ns[i].table, ns[i].subs[g].room, g)
    ensures g in ns[k].subs
    ensures ns[k].subs[g].phase.Exited?
            || (ns[k].subs[g].phase.Starting? && !Current(ns[k].table, ns[k].subs[g].room, g))
    decreases k
  {
    if i < k {
      OutdatedNeverRegisters(ns, steps, i, k - 1, g);
      InvRun(ns, steps, k - 1);
      assert Next(ns[k - 1], steps[k - 1], ns[k]);
      if ns[k - 1].subs[g].phase.Exited? {
        ExitedStep(ns[k - 1], steps[k - 1], g);
      } else {
        OutdatedStep(ns[k - 1], steps[k - 1], g);
      }
    }
  }

  lemma {:induction false} GenerationsGrow(ns: seq<Node>, steps: seq<Step>, i: nat, k: nat)
    requires Run(ns, steps) && i <= k < |ns|
    ensures ns[i].table.subGen <= ns[k].table.subGen
    decreases k
  {
    if i < k {
      GenerationsGrow(ns, steps, i, k - 1);
      assert Next(ns[k - 1], steps[k - 1], ns[k]);
    }
  }

  /** Generations are unique and increasing: the one a join hands out is above every one ever used. */
  lemma FreshGeneration(ns: seq<Node>, steps: seq<Step>, i: nat, k: nat, g: nat, c: nat)
    requires Run(ns, steps) && i <= k < |steps| && g in ns[i].subs
    requires steps[k] == Subscribe(c) && c in ns[k].clients && ns[k].clients[c].room !in ns[k].table.subscriptions
    ensures var room := ns[k].clients[c].room;
            room in ns[k + 1].table.subGens && g < ns[k + 1].table.subGens[room]
  {
    InvRun(ns, steps, i);
    GenerationsGrow(ns, steps, i, k);
    assert Next(ns[k], steps[k], ns[k + 1]);
  }

  ///////////////////////////// Idle rooms /////////////////////////////

  /** Somebody is in the room, or has just left it and will still look whether it is empty. */
  ghost predicate Attends(n: Node, c: nat, room: Text) {
    && c in n.clients && n.clients[c].room == room
    && (n.clients[c].reader.Reading? || n.clients[c].reader.Removed? || n.clients[c].reader == Checked(true))
  }

  ghost predicate Attended(n: Node) {
    forall r | r in n.table.subscriptions :: exists c :: Attends(n, c, r)
  }

  /** A step that starts a subscription finds somebody there to end it: the room has an occupant, or a
      client that left and will still look. */
  ghost predicate StartsAttended(n: Node, step: Step) {
    step.Subscribe? && step.c in n.clients && n.clients[step.c].room !in n.table.subscriptions ==>
      exists d :: Attends(n, d, n.clients[step.c].room)
  }

  lemma AttendsStays(n: Node, step: Step, c: nat, room: Text)
    requires Inv(n) && Enabled(n, step) && Attends(n, c, room)
    requires room in n.table.subscriptions && room in Apply(n, step).table.subscriptions
    ensures Attends(Apply(n, step), c, room)
            || (step == Check(c) && RoomSet(n.rooms, room) != {} && n.clients[c].reader.Removed?)
  {
    var client, client' := n.clients[c], Apply(n, step).clients[c];
    assert client'.room == client.room;
    if client'.reader != client.reader {
      assert step == Leave(c) || step == Check(c) || step == Stop(c);
    }
  }

  lemma AttendedStays(n: Node, step: Step, room: Text)
    requires Inv(n) && Attended(n) && Enabled(n, step)
    requires room in n.table.subscriptions && room in Apply(n, step).table.subscriptions
    ensures exists c :: Attends(Apply(n, step), c, room)
  {
    var c :| Attends(n, c, room);
    AttendsStays(n, step, c, room);
    if !Attends(Apply(n, step), c, room) {
      var d :| d in RoomSet(n.rooms, room);
      OccupantAttends(n, d, room, c);
    }
  }

  lemma SubscribingChangesNobody(n: Node, c: nat, d: nat, room: Text)
    requires Enabled(n, Subscribe(c))
    ensures Attends(Apply(n, Subscribe(c)), d, room) <==> Attends(n, d, room)
  {
  }

  lemma AttendedExactly(n: Node, step: Step)
    requires Inv(n) && Attended(n) && Enabled(n, step)
    ensures Attended(Apply(n, step)) <==> StartsAttended(n, step)
  {
    var n' := Apply(n, step);
    if step.Subscribe? {
      var room := n.clients[step.c].room;
      forall d ensures Attends(n', d, room) <==> Attends(n, d, room) {
        SubscribingChangesNobody(n, step.c, d, room);
      }
      assert room in n'.table.subscriptions;
    }
    forall r | r in n'.table.subscriptions && r in n.table.subscriptions ensures exists c :: Attends(n', c, r) {
      AttendedStays(n, step, r);
    }
  }

  lemma OccupantAttends(n: Node, d: nat, room: Text, c: nat)
    requires Inv(n) && d in RoomSet(n.rooms, room)
    requires Enabled(n, Check(c)) && n.clients[c].reader.Removed?
    ensures Attends(Apply(n, Check(c)), d, room)
  {
    assert d in n.rooms[room] && InRoom(n, d);
    assert n.clients[d].reader.Reading?;
  }

  ghost predicate AttendedThrough(ns: seq<Node>, i: nat)
    requires i < |ns|
  {
    forall k | 0 <= k <= i :: Attended(ns[k])
  }

  ghost predicate StartsAttendedBefore(ns: seq<Node>, steps: seq<Step>, i: nat)
    requires i <= |steps| < |ns|
  {
    forall k | 0 <= k < i :: StartsAttended(ns[k], steps[k])
  }

  lemma AttendedThroughStart(ns: seq<Node>, steps: seq<Step>)
    requires Run(ns, steps)
    ensures AttendedThrough(ns, 0) && StartsAttendedBefore(ns, steps, 0)
  {
  }

  lemma AttendedThroughNext(ns: seq<Node>, steps: seq<Step>, i: nat)
    requires i < |steps| < |ns|
    ensures AttendedThrough(ns, i) ==> Attended(ns[i])
    ensures AttendedThrough(ns, i + 1) <==> AttendedThrough(ns, i) && Attended(ns[i + 1])
    ensures StartsAttendedBefore(ns, steps, i + 1)
            <==> StartsAttendedBefore(ns, steps, i) && StartsAttended(ns[i], steps[i])
  {
  }

  lemma AttendedNext(ns: seq<Node>, steps: seq<Step>, i: nat)
    requires Run(ns, steps) && i < |steps|
    ensures Attended(ns[i]) ==> (Attended(ns[i + 1]) <==> StartsAttended(ns[i], steps[i]))
  {
    InvRun(ns, steps, i);
    assert Next(ns[i], steps[i], ns[i + 1]);
    if Attended(ns[i]) {
      AttendedExactly(ns[i], steps[i]);
    }
  }

  /** In every run, idle rooms have held no subscription so far exactly when every subscription started
      so far found somebody there to end it. */
  lemma {:induction false} IdleRoomsUnsubscribe(ns: seq<Node>, steps: seq<Step>, i: nat)
    requires Run(ns, steps) && i <= |steps|
    ensures AttendedThrough(ns, i) <==> StartsAttendedBefore(ns, steps, i)
  {
    if i == 0 {
      AttendedThroughStart(ns, steps);
    } else {
      IdleRoomsUnsubscribe(ns, steps, i - 1);
      AttendedThroughNext(ns, steps, i - 1);
      AttendedNext(ns, steps, i - 1);
    }
  }

  /** The client subscribes before its connection is gone. */
  ghost predicate Timely(n: Node, step: Step) {
    step.Subscribe? && step.c in n.clients ==> n.clients[step.c].reader.Reading?
  }

  /** In particular if every client subscribes before its connection is gone. */
  lemma TimelyClientsUnsubscribe(ns: seq<Node>, steps: seq<Step>, i: nat)
    requires Run(ns, steps) && i <= |steps|
    requires forall k | 0 <= k < i :: Timely(ns[k], steps[k])
    ensures Attended(ns[i])
  {
    forall k | 0 <= k < i ensures StartsAttended(ns[k], steps[k]) {
      assert Timely(ns[k], steps[k]);
      if steps[k].Subscribe? && steps[k].c in ns[k].clients {
        assert Attends(ns[k], steps[k].c, ns[k].clients[steps[k].c].room);
      }
    }
    IdleRoomsUnsubscribe(ns, steps, i);
  }

  const LOBBY: Text := [76]

  function Alone(rooms: map<Text, set<nat>>, handler: Handler, reader: Reader, lock: Option<nat>): Node {
    Node(NO_SUBSCRIPTIONS, lock, rooms, map[0 := Client(LOBBY, handler, reader)], map[], {})
  }

  const NOBODY: Node := Node(NO_SUBSCRIPTIONS, None, map[], map[], map[], {})

  lemma DroppedSteps()
    ensures Next(NOBODY, Join(0, LOBBY), Alone(map[LOBBY := {0}], Added, Reading, None))
    ensures Next(Alone(map[LOBBY := {0}], Added, Reading, None), StartPumps(0),
                 Alone(map[LOBBY := {0}], Pumping, Reading, None))
    ensures Next(Alone(map[LOBBY := {0}], Pumping, Reading, None), Leave(0), Alone(map[], Pumping, Removed, None))
    ensures Next(Alone(map[], Pumping, Removed, None), Check(0), Alone(map[], Pumping, Checked(true), Some(0)))
    ensures Next(Alone(map[], Pumping, Checked(true), Some(0)), Stop(0), Alone(map[], Pumping, Finished, None))
  {
    assert RoomSet(map[], LOBBY) + {0} == {0};
  }

  function Life(table: Table, lock: Option<nat>, rooms: map<Text, set<nat>>, reader: Reader, phase: Phase,
                closed: set<nat>): Node {
    Node(table, lock, rooms, map[0 := Client(LOBBY, Past, reader)], map[1 := Subscriber(LOBBY, phase)], closed)
  }

  const FLAGGED: Table := Table({LOBBY}, map[LOBBY := 1], 1, map[])
  const REGISTERED: Table := Table({LOBBY}, map[LOBBY := 1], 1, map[LOBBY := 1])
  const CLEARED: Table := Table({}, map[], 1, map[])

  lemma LifeBegins()
    ensures Next(Alone(map[LOBBY := {0}], Pumping, Reading, None), Subscribe(0),
                 Life(FLAGGED, None, map[LOBBY := {0}], Reading, Starting, {}))
    ensures Next(Life(FLAGGED, None, map[LOBBY := {0}], Reading, Starting, {}), TryRegister(1),
                 Life(REGISTERED, None, map[LOBBY := {0}], Reading, Listening, {}))
    ensures Next(Life(REGISTERED, None, map[LOBBY := {0}], Reading, Listening, {}), Leave(0),
                 Life(REGISTERED, None, map[], Removed, Listening, {}))
  {
  }

  lemma LifeEnds()
    ensures Next(Life(REGISTERED, None, map[], Removed, Listening, {}), Check(0),
                 Life(REGISTERED, Some(0), map[], Checked(true), Listening, {}))
    ensures Next(Life(REGISTERED, Some(0), map[], Checked(true), Listening, {}), Stop(0),
                 Life(CLEARED, None, map[], Closing(1), Listening, {}))
    ensures Next(Life(CLEARED, None, map[], Closing(1), Listening, {}), ClosePubSub(0),
                 Life(CLEARED, None, map[], Finished, Listening, {1}))
    ensures Next(Life(CLEARED, None, map[], Finished, Listening, {1}), ChannelClosed(1),
                 Life(CLEARED, None, map[], Finished, Dying, {1}))
    ensures Next(Life(CLEARED, None, map[], Finished, Dying, {1}), CleanUp(1),
                 Life(CLEARED, None, map[], Finished, Exited, {1}))
  {
  }

  /** A whole life: a client joins, its room's subscriber registers, the client leaves, and nothing of
      the subscription stays behind. */
  lemma SubscriptionComesAndGoes() returns (ns: seq<Node>, steps: seq<Step>)
    ensures Run(ns, steps)
    ensures exists i :: 0 <= i < |ns| && Served(ns[i], 0) && Serving(ns[i], LOBBY, 1) && ns[i].subs[1].phase.Listening?
    ensures var n := ns[|steps|];
            && n.table.subscriptions == {} && n.table.subGens == map[] && n.table.roomSubs == map[]
            && n.rooms == map[] && n.subs == map[1 := Subscriber(LOBBY, Exited)] && n.closed == {1}
  {
    DroppedSteps();
    LifeBegins();
    LifeEnds();
    steps := [Join(0, LOBBY), StartPumps(0), Subscribe(0), TryRegister(1), Leave(0), Check(0), Stop(0),
              ClosePubSub(0), ChannelClosed(1), CleanUp(1)];
    ns := [NOBODY, Alone(map[LOBBY := {0}], Added, Reading, None), Alone(map[LOBBY := {0}], Pumping, Reading, None),
           Life(FLAGGED, None, map[LOBBY := {0}], Reading, Starting, {}),
           Life(REGISTERED, None, map[LOBBY := {0}], Reading, Listening, {}),
           Life(REGISTERED, None, map[], Removed, Listening, {}),
           Life(REGISTERED, Some(0), map[], Checked(true), Listening, {}),
           Life(CLEARED, None, map[], Closing(1), Listening, {}),
           Life(CLEARED, None, map[], Finished, Listening, {1}),
           Life(CLEARED, None, map[], Finished, Dying, {1}),
           Life(CLEARED, None, map[], Finished, Exited, {1})];
    assert Served(ns[4], 0) && Serving(ns[4], LOBBY, 1);
  }

  /** It can fail: readPump starts before the subscription step, so a client that drops at
      once leaves a subscription behind in a room nobody is in or will check. */
  lemma DroppedClientLeavesSubscription() returns (ns: seq<Node>, steps: seq<Step>)
    ensures Run(ns, steps)
    ensures LOBBY in ns[|steps|].table.subscriptions
    ensures forall c | c in ns[|steps|].clients :: ns[|steps|].clients[c].reader.Finished?
  {
    var n1 := Alone(map[LOBBY := {0}], Added, Reading, None);
    var n2 := Alone(map[LOBBY := {0}], Pumping, Reading, None);
    var n3 := Alone(map[], Pumping, Removed, None);
    var n4 := Alone(map[], Pumping, Checked(true), Some(0));
    var n5 := Alone(map[], Pumping, Finished, None);
    var n6 := Node(Table({LOBBY}, map[LOBBY := 1], 1, map[]), None, map[], map[0 := Client(LOBBY, Past, Finished)],
                   map[1 := Subscriber(LOBBY, Starting)], {});
    DroppedSteps();
    assert Next(n5, Subscribe(0), n6);
    ns := [NOBODY, n1, n2, n3, n4, n5, n6];
    steps := [Join(0, LOBBY), StartPumps(0), Leave(0), Check(0), Stop(0), Subscribe(0)];
  }
}
