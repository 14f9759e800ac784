/** The last hundred messages of a room (apps/app/server/main.go:453-458, 544-555 and
    apps/app/server/handlers.go:223-241): pushed and trimmed by the room's subscriber, read reversed. */
module History {
  import opened Names

  const WINDOW: nat := 100

  const CHAT: Text := [99, 104, 97, 116]                // "chat"
  const SYSTEM: Text := [115, 121, 115, 116, 101, 109]  // "system"

  datatype Message = Message(username: Text, message: Text, kind: Text, timestamp: Text)

  predicate IsChatMessage(kind: Text) {
    kind == [] || kind == CHAT
  }

  predicate IsHistoryType(kind: Text) {
    IsChatMessage(kind) || kind == SYSTEM
  }

  /** What belongs in a room's history: what people wrote, typed "chat" or not typed at all, and the
      system's lines about joins, leaves and renames. */
  predicate ForHistory(kind: Text) {
    kind == [] || kind == Ascii("chat") || kind == Ascii("system")
  }

  /** The code's test by kind is that; typing indicators and status updates are not history, and the
      system's lines are history but not chat. */
  lemma HistoryKinds(kind: Text)
    ensures IsHistoryType(kind) <==> ForHistory(kind)
    ensures IsChatMessage(kind) <==> kind == Ascii("") || kind == Ascii("chat")
    ensures kind in {Ascii("typing"), Ascii("status_update"), Ascii("username_update")} ==> !IsHistoryType(kind)
  {
    assert CHAT == Ascii("chat") && SYSTEM == Ascii("system") && Ascii("") == [];
    assert |Ascii("typing")| == 6 && Ascii("typing")[0] == 116;
    assert |Ascii("status_update")| == 13 && |Ascii("username_update")| == 15;
  }

  function Reversed<T>(s: seq<T>): (r: seq<T>)
    ensures |r| == |s|
  {
    if s == [] then [] else Reversed(s[1..]) + [s[0]]
  }

  /** LTRIM 0 99, and what LRANGE 0 99 returns. */
  function Front<T>(list: seq<T>): seq<T> {
    if |list| <= WINDOW then list else list[..WINDOW]
  }

  /** The events for the history among those handled, in handling order. */
  function Kept(events: seq<Message>): seq<Message> {
    if events == [] then []
    else
      var last := events[|events| - 1];
      Kept(events[..|events| - 1]) + (if ForHistory(last.kind) then [last] else [])
  }

  function Recent<T>(s: seq<T>): seq<T> {
    if |s| <= 100 then s else s[|s| - 100..]
  }

  class RoomHistory {
    var list: seq<Message>
    ghost var handled: seq<Message>

    /** The list is the window, newest first. */
    ghost predicate Valid()
      reads this
    {
      list == Reversed(Recent(Kept(handled)))
    }

    /** Between the push and the trim of the newest event. */
    ghost predicate Pushed()
      reads this
    {
      && handled != [] && ForHistory(handled[|handled| - 1].kind)
      && list == [handled[|handled| - 1]] + Reversed(Recent(Kept(handled[..|handled| - 1])))
    }

    constructor ()
      ensures Valid() && handled == []
    {
      list, handled := [], [];
    }

    method Push(m: Message)
      requires Valid() && ForHistory(m.kind)
      modifies this
      ensures Pushed() && handled == old(handled) + [m]
    {
      list := [m] + list;
      handled := handled + [m];
      assert handled[..|handled| - 1] == old(handled);
    }

    method Trim()
      requires Pushed()
      modifies this
      ensures Valid() && handled == old(handled)
    {
      PushedFront(handled);
      list := Front(list);
    }

    /** One event received by the subscriber. */
    method Handle(m: Message)
      requires Valid()
      modifies this
      ensures Valid() && handled == old(handled) + [m]
    {
      HistoryKinds(m.kind);
      if IsHistoryType(m.kind) {
        Push(m);
        Trim();
      } else {
        handled := handled + [m];
        assert handled[..|handled| - 1] == old(handled);
        assert Kept(handled) == Kept(old(handled));
      }
    }

    lemma ListIsWindow()
      requires Valid() || Pushed()
      ensures Front(list) == Reversed(Recent(Kept(handled)))
    {
      if Pushed() {
        PushedFront(handled);
      }
    }

    /** GetChatHistoryHandler, oldest first: the last hundred chat and system events, also when the
        newest is pushed but not trimmed yet. */
    method GetChatHistory() returns (history: seq<Message>)
      requires Valid() || Pushed()
      ensures history == Recent(Kept(handled))
      ensures forall m | m in history :: m.kind in {Ascii(""), Ascii("chat"), Ascii("system")}
    {
      var messages := Front(list);
      ListIsWindow();
      KeptKinds(handled);
      KeptAll(Recent(Kept(handled)));
      ReversedTwice(Recent(Kept(handled)));
      history := OldestFirst(messages);
      assert Ascii("") == [];
    }
  }

  /** The handler's loop over what Redis returned; stored events of other kinds are skipped. */
  method OldestFirst(messages: seq<Message>) returns (history: seq<Message>)
    ensures history == Kept(Reversed(messages))
  {
    history := [];
    var i := |messages| - 1;
    while i >= 0
      invariant -1 <= i < |messages|
      invariant history == Kept(Reversed(messages[i + 1..]))
    {
      ghost var more := Reversed(messages[i..]);
      assert messages[i..][1..] == messages[i + 1..];
      assert more[..|more| - 1] == Reversed(messages[i + 1..]);
      HistoryKinds(messages[i].kind);
      if IsHistoryType(messages[i].kind) {
        history := history + [messages[i]];
      }
      i := i - 1;
    }
  }

  lemma {:induction false} KeptAll(s: seq<Message>)
    requires forall m | m in s :: ForHistory(m.kind)
    ensures Kept(s) == s
  {
    if s != [] {
      KeptAll(s[..|s| - 1]);
    }
  }

  lemma {:induction false} ReversedTwice<T>(s: seq<T>)
    ensures Reversed(Reversed(s)) == s
  {
    if s != [] {
      ReversedSnoc(Reversed(s[1..]), s[0]);
      ReversedTwice(s[1..]);
    }
  }

  lemma {:induction false} KeptKinds(events: seq<Message>)
    ensures forall m | m in Kept(events) :: ForHistory(m.kind)
    ensures forall m | m in Recent(Kept(events)) :: ForHistory(m.kind)
  {
    if events != [] {
      KeptKinds(events[..|events| - 1]);
    }
  }

  /** Pushing one event and cutting at the window is the window of the longer run. */
  lemma PushedFront(events: seq<Message>)
    requires events != [] && ForHistory(events[|events| - 1].kind)
    ensures Front([events[|events| - 1]] + Reversed(Recent(Kept(events[..|events| - 1]))))
            == Reversed(Recent(Kept(events)))
  {
    FrontOfPush(Kept(events[..|events| - 1]), events[|events| - 1]);
  }

  lemma {:induction false} ReversedSnoc<T>(s: seq<T>, x: T)
    ensures Reversed(s + [x]) == [x] + Reversed(s)
    decreases |s|
  {
    if s == [] {
      assert s + [x] == [x];
    } else {
      assert (s + [x])[1..] == s[1..] + [x];
      ReversedSnoc(s[1..], x);
    }
  }

  /** Dropping the oldest of a full window is dropping the last of it reversed. */
  lemma ReversedDrop<T>(window: seq<T>, last: T)
    requires window != []
    ensures ([last] + Reversed(window))[..|window|] == [last] + Reversed(window[1..])
  {
    assert [last] + Reversed(window) == ([last] + Reversed(window[1..])) + [window[0]];
  }

  /** A full window moves on by one. */
  lemma WindowMoves<T>(before: seq<T>, last: T)
    requires |before| >= WINDOW
    ensures Recent(before) != [] && |Recent(before)| == WINDOW
    ensures Recent(before + [last]) == Recent(before)[1..] + [last]
  {
    assert Recent(before) == before[|before| - WINDOW..];
    assert (before + [last])[|before| + 1 - WINDOW..] == before[|before| + 1 - WINDOW..] + [last];
    assert before[|before| - WINDOW..][1..] == before[|before| + 1 - WINDOW..];
  }

  lemma FrontOfPush<T>(before: seq<T>, last: T)
    ensures Front([last] + Reversed(Recent(before))) == Reversed(Recent(before + [last]))
  {
    if |before| < WINDOW {
      ReversedSnoc(before, last);
    } else {
      var window := Recent(before);
      WindowMoves(before, last);
      ReversedDrop(window, last);
      ReversedSnoc(window[1..], last);
    }
  }
}
