/** Users per room, as reported in heartbeats (apps/app/server/heartbeat.go:36-78). The map is guarded
    by a mutex, the total is a separate atomic, so a reader can fall between the two. */
module Counters {
  import opened Names

  function CountOf(data: map<Text, int>, room: Text): int {
    if room in data then data[room] else 0
  }

  function Incremented(data: map<Text, int>, room: Text): map<Text, int> {
    data[room := CountOf(data, room) + 1]
  }

  function Decremented(data: map<Text, int>, room: Text): map<Text, int> {
    if CountOf(data, room) > 1 then data[room := data[room] - 1] else data - {room}
  }

  class RoomCounters {
    var data: map<Text, int>
    var tot: int

    constructor ()
      ensures data == map[] && tot == 0
    {
      data, tot := map[], 0;
    }

    method Inc(room: Text)
      modifies this
      ensures data == Incremented(old(data), room) && tot == old(tot) + 1
      ensures data == old(data)[room := if room in old(data) then old(data)[room] + 1 else 1]
    {
      data := data[room := CountOf(data, room) + 1];
      tot := tot + 1;
    }

    method Dec(room: Text)
      modifies this
      ensures data == Decremented(old(data), room) && tot == old(tot) - 1
      ensures data == if room in old(data) && old(data)[room] >= 2 then old(data)[room := old(data)[room] - 1]
                      else old(data) - {room}
    {
      var prev := CountOf(data, room);
      if prev > 1 {
        data := data[room := prev - 1];
      } else {
        data := data - {room};
      }
      tot := tot - 1;
    }

    /** Only rooms with users are reported. */
    method SnapshotActive() returns (out: map<Text, int>, total: int)
      ensures out == map r | r in data && data[r] > 0 :: data[r]
      ensures total == tot
    {
      out := map[];
      var todo := data.Keys;
      while todo != {}
        invariant todo <= data.Keys
        invariant out == map r | r in data && r !in todo && data[r] > 0 :: data[r]
        decreases |todo|
      {
        var r :| r in todo;
        if data[r] > 0 {
          out := out[r := data[r]];
        }
        todo := todo - {r};
      }
      total := tot;
    }
  }

  ///////////////////////////// The protocol /////////////////////////////

  // A connection: before inc; between the two updates of inc; counted; between those of dec; after.
  datatype Phase = Fresh | HalfIn | In | HalfOut | Out

  datatype Client = Client(room: Text, phase: Phase)

  datatype Node = Node(data: map<Text, int>, tot: int, clients: map<nat, Client>)

  datatype Step =
    | Connect(c: nat, room: Text)
    | IncData(c: nat)
    | IncTotal(c: nat)
    | DecData(c: nat)
    | DecTotal(c: nat)

  predicate Enabled(n: Node, step: Step) {
    match step
    case Connect(c, _) => c !in n.clients
    case IncData(c) => c in n.clients && n.clients[c].phase.Fresh?
    case IncTotal(c) => c in n.clients && n.clients[c].phase.HalfIn?
    case DecData(c) => c in n.clients && n.clients[c].phase.In?
    case DecTotal(c) => c in n.clients && n.clients[c].phase.HalfOut?
  }

  function Apply(n: Node, step: Step): Node
    requires Enabled(n, step)
  {
    match step
    case Connect(c, room) => n.(clients := n.clients[c := Client(room, Fresh)])
    case IncData(c) =>
      n.(data := Incremented(n.data, n.clients[c].room), clients := n.clients[c := n.clients[c].(phase := HalfIn)])
    case IncTotal(c) => n.(tot := n.tot + 1, clients := n.clients[c := n.clients[c].(phase := In)])
    case DecData(c) =>
      n.(data := Decremented(n.data, n.clients[c].room), clients := n.clients[c := n.clients[c].(phase := HalfOut)])
    case DecTotal(c) => n.(tot := n.tot - 1, clients := n.clients[c := n.clients[c].(phase := Out)])
  }

  ghost predicate Run(ns: seq<Node>, steps: seq<Step>) {
    && |ns| == |steps| + 1
    && ns[0] == Node(map[], 0, map[])
    && forall i {:trigger steps[i]} | 0 <= i < |steps| ::
         Enabled(ns[i], steps[i]) && ns[i + 1] == Apply(ns[i], steps[i])
  }

  predicate InData(p: Phase) { p == HalfIn || p == In }

  predicate InTotal(p: Phase) { p == In || p == HalfOut }

  /** The clients past the map update of inc and not past that of dec. */
  function Inside(clients: map<nat, Client>, room: Text): set<nat> {
    set c | c in clients && clients[c].room == room && InData(clients[c].phase)
  }

  function Totalled(clients: map<nat, Client>): set<nat> {
    set c | c in clients && InTotal(clients[c].phase)
  }

  ghost predicate Inv(n: Node) {
    && (forall r :: CountOf(n.data, r) == |Inside(n.clients, r)|)
    && (forall r | r in n.data :: n.data[r] > 0)
    && n.tot == |Totalled(n.clients)|
  }

  lemma InsideMoved(clients: map<nat, Client>, c: nat, to: Client, room: Text)
    requires c in clients ==> clients[c].room == to.room
    ensures var moved := clients[c := to];
            && (room != to.room ==> Inside(moved, room) == Inside(clients, room))
            && (room == to.room && InData(to.phase) ==> Inside(moved, room) == Inside(clients, room) + {c})
            && (room == to.room && !InData(to.phase) ==> Inside(moved, room) == Inside(clients, room) - {c})
  {
  }

  lemma TotalledMoved(clients: map<nat, Client>, c: nat, to: Client)
    ensures var moved := clients[c := to];
            Totalled(moved) == if InTotal(to.phase) then Totalled(clients) + {c} else Totalled(clients) - {c}
  {
  }

  lemma CountIncremented(n: Node, c: nat, room: Text)
    requires Inv(n) && Enabled(n, IncData(c))
    ensures var n' := Apply(n, IncData(c));
            CountOf(n'.data, room) == |Inside(n'.clients, room)|
  {
    InsideMoved(n.clients, c, Apply(n, IncData(c)).clients[c], room);
    assert CountOf(n.data, room) == |Inside(n.clients, room)|;
    assert c !in Inside(n.clients, room);
  }

  lemma CountDecremented(n: Node, c: nat, room: Text)
    requires Inv(n) && Enabled(n, DecData(c))
    ensures var n' := Apply(n, DecData(c));
            CountOf(n'.data, room) == |Inside(n'.clients, room)|
  {
    InsideMoved(n.clients, c, Apply(n, DecData(c)).clients[c], room);
    var inside := Inside(n.clients, room);
    assert CountOf(n.data, room) == |inside|;
    if room == n.clients[c].room {
      assert c in inside && |inside - {c}| == |inside| - 1;
    }
  }

  lemma CountMoved(n: Node, step: Step, room: Text)
    requires Inv(n) && Enabled(n, step)
    ensures var n' := Apply(n, step);
            CountOf(n'.data, room) == |Inside(n'.clients, room)|
  {
    match step
    case IncData(c) => CountIncremented(n, c, room);
    case DecData(c) => CountDecremented(n, c, room);
    case _ =>
      assert Inside(Apply(n, step).clients, room) == Inside(n.clients, room);
      assert CountOf(n.data, room) == |Inside(n.clients, room)|;
  }

  lemma TotalMoved(n: Node, step: Step)
    requires n.tot == |Totalled(n.clients)| && Enabled(n, step)
    ensures var n' := Apply(n, step);
            n'.tot == |Totalled(n'.clients)|
  {
    var n', c := Apply(n, step), step.c;
    TotalledMoved(n.clients, c, n'.clients[c]);
    var total := Totalled(n.clients);
    match step
    case Connect(_, _) => assert total - {c} == total;
    case IncData(_) => assert total - {c} == total;
    case IncTotal(_) => assert c !in total;
    case DecData(_) => assert total + {c} == total;
    case DecTotal(_) => assert c in total; assert |total - {c}| == |total| - 1;
  }

  lemma InvStep(n: Node, step: Step)
    requires Inv(n) && Enabled(n, step)
    ensures Inv(Apply(n, step))
    ensures step.DecData? ==> n.clients[step.c].room in n.data
  {
    forall r ensures CountOf(Apply(n, step).data, r) == |Inside(Apply(n, step).clients, r)| {
      CountMoved(n, step, r);
    }
    TotalMoved(n, step);
    if step.DecData? {
      assert step.c in Inside(n.clients, n.clients[step.c].room);
      assert CountOf(n.data, n.clients[step.c].room) > 0;
    }
  }

  lemma {:induction false} InvRun(ns: seq<Node>, steps: seq<Step>, i: nat)
    requires Run(ns, steps) && i < |ns|
    ensures Inv(ns[i])
  {
    if i > 0 {
      InvRun(ns, steps, i - 1);
      InvStep(ns[i - 1], steps[i - 1]);
    } else {
      forall r ensures Inside(ns[0].clients, r) == {} {
      }
      assert Totalled(ns[0].clients) == {};
    }
  }

  /** The key of a room exists exactly when somebody is counted, with their number, and no decrement
      ever meets an absent room. */
  lemma CountersConserve(ns: seq<Node>, steps: seq<Step>, i: nat, room: Text)
    requires Run(ns, steps) && i < |ns|
    ensures var n := ns[i];
            && (room in n.data <==> Inside(n.clients, room) != {})
            && (room in n.data ==> n.data[room] == |Inside(n.clients, room)|)
            && (i < |steps| && steps[i].DecData? ==> n.clients[steps[i].c].room in n.data)
  {
    InvRun(ns, steps, i);
    assert CountOf(ns[i].data, room) == |Inside(ns[i].clients, room)|;
    if i < |steps| {
      InvStep(ns[i], steps[i]);
    }
  }

  ghost function Sum(data: map<Text, int>): int {
    if data == map[] then 0 else
      var r :| r in data;
      data[r] + Sum(data - {r})
  }

  function InsideAny(clients: map<nat, Client>, rooms: set<Text>): set<nat> {
    set c | c in clients && clients[c].room in rooms && InData(clients[c].phase)
  }

  lemma {:induction false} SumCounts(data: map<Text, int>, clients: map<nat, Client>)
    requires forall r | r in data :: data[r] == |Inside(clients, r)|
    ensures Sum(data) == |InsideAny(clients, data.Keys)|
  {
    if data == map[] {
      assert InsideAny(clients, data.Keys) == {};
    } else {
      var r :| r in data && Sum(data) == data[r] + Sum(data - {r});
      SumCounts(data - {r}, clients);
      assert InsideAny(clients, data.Keys) == Inside(clients, r) + InsideAny(clients, (data - {r}).Keys);
    }
  }

  function Between(clients: map<nat, Client>, phase: Phase): set<nat> {
    set c | c in clients && clients[c].phase == phase
  }

  /** The total and the sum of the rooms differ exactly by the connections between two updates. */
  lemma TotalMatchesSum(ns: seq<Node>, steps: seq<Step>, i: nat)
    requires Run(ns, steps) && i < |ns|
    ensures ns[i].tot + |Between(ns[i].clients, HalfIn)| == Sum(ns[i].data) + |Between(ns[i].clients, HalfOut)|
  {
    InvRun(ns, steps, i);
    var n := ns[i];
    forall r | r in n.data ensures n.data[r] == |Inside(n.clients, r)| {
      assert CountOf(n.data, r) == n.data[r];
    }
    SumCounts(n.data, n.clients);
    forall c | c in n.clients && InData(n.clients[c].phase) ensures n.clients[c].room in n.data {
      assert c in Inside(n.clients, n.clients[c].room);
      assert CountOf(n.data, n.clients[c].room) > 0;
    }
    var counted := Between(n.clients, In);
    assert InsideAny(n.clients, n.data.Keys) == counted + Between(n.clients, HalfIn);
    assert Totalled(n.clients) == counted + Between(n.clients, HalfOut);
  }
}
