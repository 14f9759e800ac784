/** Names of direct-message rooms and what is read back from them (apps/directory/handlers.go:233-265,
    apps/app/server/handlers.go:22-30 and 848-852, apps/app/server/dmunread.go:21-38). */
module DirectMessages {
  import opened Names

  const COLON: byte := 58            // ':'
  const PREFIX: Text := [100, 109, 58]  // "dm:"

  /** Go's < on strings. */
  predicate Less(a: Text, b: Text) {
    if b == [] then false
    else if a == [] then true
    else a[0] < b[0] || (a[0] == b[0] && Less(a[1..], b[1..]))
  }

  function Lower(u: Text, v: Text): Text {
    if Less(v, u) then v else u
  }

  function Upper(u: Text, v: Text): Text {
    if Less(v, u) then u else v
  }

  /** The name both services derive for a conversation of u and v. */
  function RoomName(u: Text, v: Text): Text {
    PREFIX + Lower(u, v) + [COLON] + Upper(u, v)
  }

  datatype Claims = NoToken | BadToken | User(name: Text)

  datatype Resolution = Room(name: Text) | WithRequired | Unauthorized | InvalidParticipants

  /** resolveDMRoom: `with` is the trimmed query parameter. */
  function ResolveDMRoom(with: Text, claims: Claims): Resolution {
    if with == [] then WithRequired
    else if !claims.User? then Unauthorized
    else if claims.name == [] || claims.name == with then InvalidParticipants
    else Room(RoomName(claims.name, with))
  }

  predicate IsDMRoom(room: Text) {
    PREFIX <= room
  }

  function TrimPrefix(room: Text): Text {
    if PREFIX <= room then room[|PREFIX|..] else room
  }

  /** strings.SplitN(s, ":", 2) */
  function SplitTwo(s: Text): seq<Text> {
    var i := FirstColon(s);
    if i == |s| then [s] else [s[..i], s[i + 1..]]
  }

  function FirstColon(s: Text): (i: nat)
    ensures i <= |s| && COLON !in s[..i]
    ensures i < |s| ==> s[i] == COLON
  {
    if s == [] || s[0] == COLON then 0 else 1 + FirstColon(s[1..])
  }

  function DmPartner(room: Text, user: Text): Text {
    if !IsDMRoom(room) then []
    else
      var parts := SplitTwo(TrimPrefix(room));
      if |parts| != 2 then []
      else if user == parts[0] then parts[1]
      else if user == parts[1] then parts[0]
      else []
  }

  predicate IsDMParticipant(room: Text, user: Text) {
    var parts := SplitTwo(TrimPrefix(room));
    |parts| == 2 && (user == parts[0] || user == parts[1])
  }

  lemma {:induction false} LessTotal(a: Text, b: Text)
    ensures Less(a, b) ==> !Less(b, a)
    ensures a != b ==> Less(a, b) || Less(b, a)
    ensures a <= b && a != b ==> Less(a, b)
  {
    if a != [] && b != [] {
      LessTotal(a[1..], b[1..]);
      assert a == [a[0]] + a[1..] && b == [b[0]] + b[1..];
    }
  }

  /** The first differing byte decides; a proper prefix comes first by LessTotal. */
  lemma {:induction false} FirstDifferenceDecides(p: Text, a: Text, b: Text)
    requires a != [] && b != [] && a[0] != b[0]
    ensures Less(p + a, p + b) <==> a[0] < b[0]
  {
    if p == [] {
      assert p + a == a && p + b == b;
    } else {
      assert (p + a)[1..] == p[1..] + a && (p + b)[1..] == p[1..] + b;
      FirstDifferenceDecides(p[1..], a, b);
    }
  }

  /** Both participants, and both services, arrive at one name. */
  lemma SameNameBothWays(u: Text, v: Text)
    ensures RoomName(u, v) == RoomName(v, u)
  {
    LessTotal(u, v);
  }

  /** The first colon splits a prefix free of colons from the rest, whatever follows. */
  lemma SplitAt(a: Text, rest: Text, i: nat)
    requires i <= |a| && COLON !in a[..i] && (i < |a| ==> a[i] == COLON)
    ensures SplitTwo(a + [COLON] + rest) ==
            if i == |a| then [a, rest] else [a[..i], a[i + 1..] + [COLON] + rest]
  {
    var s := a + [COLON] + rest;
    var k := FirstColon(s);
    assert s[i] == COLON;
    assert forall j | 0 <= j < i :: s[j] == a[..i][j];
    assert forall j | 0 <= j < k :: s[j] == s[..k][j];
    assert k == i;
    assert s[..i] == a[..i];
    assert i < |a| ==> s[i + 1..] == a[i + 1..] + [COLON] + rest;
    assert i == |a| ==> s[i + 1..] == rest && a[..i] == a;
  }

  lemma RoomParts(u: Text, v: Text)
    ensures var room, a, b := RoomName(u, v), Lower(u, v), Upper(u, v);
            var i := FirstColon(a);
            && IsDMRoom(room)
            && SplitTwo(TrimPrefix(room)) == (if i == |a| then [a, b] else [a[..i], a[i + 1..] + [COLON] + b])
            && (i == |a| <==> COLON !in a)
  {
    var room, a, b := RoomName(u, v), Lower(u, v), Upper(u, v);
    assert TrimPrefix(room) == a + [COLON] + b;
    SplitAt(a, b, FirstColon(a));
    assert a[..|a|] == a;
  }

  /** Each participant's partner is the other one exactly when the smaller name has no colon. */
  lemma PartnersRoundTrip(u: Text, v: Text)
    requires u != v && u != [] && v != []
    ensures var room := RoomName(u, v);
            DmPartner(room, u) == v && DmPartner(room, v) == u <==> COLON !in Lower(u, v)
    ensures var room := RoomName(u, v);
            IsDMParticipant(room, u) && IsDMParticipant(room, v) <==> COLON !in Lower(u, v)
  {
    LessTotal(u, v);
    RoomParts(u, v);
    var a, b := Lower(u, v), Upper(u, v);
    var i := FirstColon(a);
    if i < |a| {
      LessTotal(b, a);
      assert a[..i] <= a && |a[..i]| < |a|;
      assert b != a[..i];
      assert |a[i + 1..] + [COLON] + b| > |b|;
    }
  }

  lemma AnnBeforeBob()
    ensures Lower(Ascii("ann"), Ascii("bob")) == Ascii("ann") && Upper(Ascii("ann"), Ascii("bob")) == Ascii("bob")
  {
    var ann, bob := Ascii("ann"), Ascii("bob");
    assert bob[0] == 98 && ann[0] == 97;
    assert [] + ann == ann && [] + bob == bob;
    FirstDifferenceDecides([], bob, ann);
  }

  lemma AnnBobName()
    ensures PREFIX + Ascii("ann") + [COLON] + Ascii("bob") == Ascii("dm:ann:bob")
  {
  }

  /** A known room. */
  lemma AnnAndBob()
    ensures RoomName(Ascii("ann"), Ascii("bob")) == Ascii("dm:ann:bob")
    ensures ResolveDMRoom(Ascii("ann"), User(Ascii("bob"))) == Room(Ascii("dm:ann:bob"))
  {
    AnnBeforeBob();
    AnnBobName();
    SameNameBothWays(Ascii("ann"), Ascii("bob"));
    assert |Ascii("ann")| == 3 && Ascii("ann")[0] == 97 && Ascii("bob")[0] == 98;
  }

  /** The directory derives one DM room for two different users, whoever asks, and the node lets both
      in exactly when the smaller name has no colon. */
  lemma DerivedRoomAdmitsBoth(u: Text, v: Text)
    requires u != v && u != [] && v != []
    ensures ResolveDMRoom(v, User(u)) == ResolveDMRoom(u, User(v)) == Room(RoomName(u, v))
    ensures var room := RoomName(u, v);
            IsDMRoom(room) && (IsDMParticipant(room, u) && IsDMParticipant(room, v) <==> COLON !in Lower(u, v))
  {
    SameNameBothWays(u, v);
    PartnersRoundTrip(u, v);
    RoomParts(u, v);
  }

  /** Exactly two different names get a room; the other requests are told what is missing. */
  lemma OnlyPairsGetRooms(with: Text, claims: Claims)
    ensures ResolveDMRoom(with, claims).Room? <==>
            with != [] && claims.User? && claims.name != [] && claims.name != with
    ensures ResolveDMRoom(with, claims).WithRequired? <==> with == []
    ensures ResolveDMRoom(with, claims).Unauthorized? <==> with != [] && !claims.User?
  {
  }

  /** Any other room name is not a conversation and gives nobody a partner. */
  lemma OrdinaryRooms(room: Text, user: Text)
    requires !(Ascii("dm:") <= room)
    ensures !IsDMRoom(room) && DmPartner(room, user) == []
  {
    assert PREFIX == Ascii("dm:");
  }

  /** A third name is neither a participant nor has a partner. */
  lemma NobodyElse(u: Text, v: Text, x: Text)
    requires u != v && u != [] && v != [] && COLON !in Lower(u, v)
    ensures IsDMParticipant(RoomName(u, v), x) <==> x == u || x == v
    ensures IsDMParticipant(RoomName(u, v), x) <==> DmPartner(RoomName(u, v), x) != []
  {
    RoomParts(u, v);
  }

  /** The room name without its prefix. */
  function Joined(u: Text, v: Text): Text {
    Lower(u, v) + [COLON] + Upper(u, v)
  }

  predicate SplitsAt(s: Text, i: int) {
    0 < i < |s| - 1 && s[i] == COLON && Less(s[..i], s[i + 1..])
  }

  /** The name can also be split, at another colon, into a smaller and a larger name. */
  predicate Ambiguous(u: Text, v: Text) {
    exists i | 0 < i < |u| + |v| :: SplitsAt(Joined(u, v), i) && i != |Lower(u, v)|
  }

  /** Another conversation of two different, nonempty names. */
  ghost predicate SharedBy(u: Text, v: Text, x: Text, y: Text) {
    x != y && x != [] && y != [] && {x, y} != {u, v} && RoomName(x, y) == RoomName(u, v)
  }

  lemma NamesAgreeWhenJoined(u: Text, v: Text, x: Text, y: Text)
    ensures RoomName(u, v) == RoomName(x, y) <==> Joined(u, v) == Joined(x, y)
  {
    assert RoomName(u, v) == PREFIX + Joined(u, v) && RoomName(x, y) == PREFIX + Joined(x, y);
    assert RoomName(u, v)[|PREFIX|..] == Joined(u, v) && RoomName(x, y)[|PREFIX|..] == Joined(x, y);
  }

  lemma LowerUpper(u: Text, v: Text)
    requires u != v && u != [] && v != []
    ensures {Lower(u, v), Upper(u, v)} == {u, v} && Less(Lower(u, v), Upper(u, v))
    ensures SplitsAt(Joined(u, v), |Lower(u, v)|)
  {
    LessTotal(u, v);
    var a, b := Lower(u, v), Upper(u, v);
    assert Joined(u, v)[..|a|] == a && Joined(u, v)[|a| + 1..] == b;
  }

  lemma SplitNames(s: Text, i: nat)
    requires SplitsAt(s, i)
    ensures var x, y := s[..i], s[i + 1..];
            x != y && x != [] && y != [] && Lower(x, y) == x && Joined(x, y) == s
  {
    LessTotal(s[..i], s[i + 1..]);
    LessTotal(s[..i], s[..i]);
    assert s == s[..i] + [COLON] + s[i + 1..];
  }

  lemma SplitGivesPair(u: Text, v: Text, i: nat)
    requires u != v && u != [] && v != []
    requires SplitsAt(Joined(u, v), i) && i != |Lower(u, v)|
    ensures SharedBy(u, v, Joined(u, v)[..i], Joined(u, v)[i + 1..])
  {
    var x, y := Joined(u, v)[..i], Joined(u, v)[i + 1..];
    SplitNames(Joined(u, v), i);
    NamesAgreeWhenJoined(u, v, x, y);
    SameNames(u, v, x, y);
  }

  lemma SameNames(u: Text, v: Text, x: Text, y: Text)
    ensures {x, y} == {u, v} ==> Lower(x, y) == Lower(u, v) && Upper(x, y) == Upper(u, v)
  {
    LessTotal(u, v);
    if {x, y} == {u, v} {
      assert u in {x, y} && v in {x, y} && x in {u, v} && y in {u, v};
    }
  }

  lemma PairGivesSplit(u: Text, v: Text, x: Text, y: Text)
    requires u != v && u != [] && v != [] && SharedBy(u, v, x, y)
    ensures SplitsAt(Joined(u, v), |Lower(x, y)|) && |Lower(x, y)| != |Lower(u, v)|
  {
    LowerUpper(u, v);
    LowerUpper(x, y);
    NamesAgreeWhenJoined(u, v, x, y);
    var a, b, c, d := Lower(u, v), Upper(u, v), Lower(x, y), Upper(x, y);
    var s := Joined(u, v);
    assert s[..|a|] == a && s[|a| + 1..] == b;
    assert s[..|c|] == c && s[|c| + 1..] == d;
  }

  /** A conversation shares its room with another one exactly when its name can be split at a second
      place: names with colons are not always a problem, but a smaller name without one is no
      protection for a larger name with one. */
  lemma SharedExactly(u: Text, v: Text)
    requires u != v && u != [] && v != []
    ensures (exists x, y :: SharedBy(u, v, x, y)) <==> Ambiguous(u, v)
  {
    if x, y :| SharedBy(u, v, x, y) {
      PairGivesSplit(u, v, x, y);
    }
    if i :| SplitsAt(Joined(u, v), i) && i != |Lower(u, v)| {
      SplitGivesPair(u, v, i);
    }
  }

  /** Two names without colons have their room to themselves. */
  lemma ColonFreeNamesAreSafe(u: Text, v: Text)
    requires COLON !in u && COLON !in v
    ensures !Ambiguous(u, v)
  {
    var a, b := Lower(u, v), Upper(u, v);
    forall i: nat | i < |a + [COLON] + b| && i != |a| ensures (a + [COLON] + b)[i] != COLON {
      assert i < |a| ==> (a + [COLON] + b)[i] == a[i];
      assert i > |a| ==> (a + [COLON] + b)[i] == b[i - |a| - 1];
    }
  }

  /** Two conversations whose smaller names have no colon share a room only if they are the same one. */
  lemma RoomsAreDistinct(u: Text, v: Text, x: Text, y: Text)
    requires COLON !in Lower(u, v) && COLON !in Lower(x, y)
    requires RoomName(u, v) == RoomName(x, y)
    ensures (u == x && v == y) || (u == y && v == x)
  {
    RoomParts(u, v);
    RoomParts(x, y);
    assert Lower(u, v) == Lower(x, y) && Upper(u, v) == Upper(x, y);
  }

  /** With a colon in a name they may collide: "a:b" with "c", and "a" with "b:c". */
  lemma ColonNamesCollide() returns (u: Text, v: Text, x: Text, y: Text)
    ensures u != v && x != y && {u, v} != {x, y}
    ensures RoomName(u, v) == RoomName(x, y)
  {
    u, v, x, y := [97, 58, 98], [99], [97], [98, 58, 99];
    assert u != x && u != y;
  }
}
