// What one client reads of a room: its replay and the live messages are one unbroken
// stretch of everything ever said there.
module ChatStream {
  import opened Text
  import opened Commands
  import opened ChatModel
  import opened ChatInvariants
  import opened Channels

  // The stored messages among the lines sent to a client, replayed or live.
  function Said(lines: seq<Line>): seq<string> {
    if lines == [] then []
    else Said(lines[..|lines| - 1]) + SaidBy(lines[|lines| - 1])
  }

  function SaidBy(l: Line): seq<string> {
    match l
    case Replayed(t) => [t]
    case Stored(t) => [t]
    case _ => []
  }

  // How a stored text reaches a client.
  function Shown(room: string, texts: seq<string>): (r: seq<string>) {
    if texts == [] then []
    else Shown(room, texts[..|texts| - 1]) + [TrimNewlines(Format(room, texts[|texts| - 1]))]
  }

  lemma {:induction false} SaidAppend(a: seq<Line>, b: seq<Line>)
    ensures Said(a + b) == Said(a) + Said(b)
  {
    if b == [] {
      assert a + b == a;
    } else {
      assert (a + b)[..|a + b| - 1] == a + b[..|b| - 1];
      SaidAppend(a, b[..|b| - 1]);
    }
  }

  lemma {:induction false} ShownAppend(room: string, a: seq<string>, b: seq<string>)
    ensures Shown(room, a + b) == Shown(room, a) + Shown(room, b)
  {
    hide TrimNewlines, Format;
    if b == [] {
      assert a + b == a;
    } else {
      assert (a + b)[..|a + b| - 1] == a + b[..|b| - 1];
      ShownAppend(room, a, b[..|b| - 1]);
    }
  }

  lemma SaidOne(l: Line)
    ensures Said([l]) == SaidBy(l)
  {
    assert [l][..0] == [] && Said([]) == [];
  }

  lemma ShownOne(room: string, text: string)
    ensures Shown(room, [text]) == [TrimNewlines(Format(room, text))]
  {
    hide TrimNewlines, Format;
    assert [text][..0] == [] && Shown(room, []) == [];
  }

  // Trimming line breaks off a formatted clean text does nothing.
  lemma {:induction false} ShownClean(room: string, texts: seq<string>)
    requires forall i :: 0 <= i < |texts| ==> Clean(texts[i])
    ensures |Shown(room, texts)| == |texts|
    ensures forall i :: 0 <= i < |texts| ==> Shown(room, texts)[i] == Format(room, texts[i])
  {
    if texts != [] {
      ShownClean(room, texts[..|texts| - 1]);
      var last := texts[|texts| - 1];
      assert Clean(last);
      assert Format(room, last)[|Format(room, last)| - 1] == last[|last| - 1];
    }
  }

  // ---- One operation, seen by client c sitting in room k

  ghost predicate Present(s: State, c: string, k: string) {
    HasSeat(s.sessions, k, c) && InRoom(s.rooms, k, c) && c in s.boxes
  }

  // From s to t, c was sent exactly what was added to the log of room k.
  ghost predicate Streams(s: State, t: State, c: string, k: string) {
    && Present(s, c, k) && Present(t, c, k)
    && t.rooms[k].name == s.rooms[k].name
    && exists lines, texts :: Grew(s, t, c, k, lines, texts)
  }

  ghost predicate Grew(s: State, t: State, c: string, k: string, lines: seq<Line>, texts: seq<string>)
    requires c in s.boxes && c in t.boxes && k in s.rooms && k in t.rooms
  {
    && t.boxes[c].calls == s.boxes[c].calls + lines
    && t.rooms[k].log == s.rooms[k].log + texts
    && Said(lines) == Shown(s.rooms[k].name, texts)
  }

  lemma StreamsBoth(s: State, t: State, u: State, c: string, k: string)
    requires Streams(s, t, c, k) && Streams(t, u, c, k)
    ensures Streams(s, u, c, k)
  {
    hide Said, Shown;
    var l1, x1 :| Grew(s, t, c, k, l1, x1);
    var l2, x2 :| Grew(t, u, c, k, l2, x2);
    SaidAppend(l1, l2);
    ShownAppend(s.rooms[k].name, x1, x2);
    assert Grew(s, u, c, k, l1 + l2, x1 + x2);
  }

  // Nothing was said in k and nothing said was sent to c.
  ghost predicate Still(s: State, t: State, c: string, k: string) {
    && Present(s, c, k) && Present(t, c, k)
    && t.rooms[k].name == s.rooms[k].name && t.rooms[k].log == s.rooms[k].log
    && t.boxes[c].calls == s.boxes[c].calls
  }

  lemma StillStreams(s: State, t: State, c: string, k: string)
    requires Still(s, t, c, k)
    ensures Streams(s, t, c, k)
  {
    assert Grew(s, t, c, k, [], []);
  }

  predicate Silent(l: Line) {
    !l.Replayed? && !l.Stored?
  }

  lemma SilentSend(cfg: Settings, s: State, to: set<string>, l: Line, c: string, k: string)
    requires Present(s, c, k) && Silent(l)
    ensures Streams(s, Deliver(cfg, s, to, l), c, k)
  {
    hide TrimNewlines;
    var t := Deliver(cfg, s, to, l);
    var lines := if c in to then [Sanitized(l)] else [];
    assert Said(lines) == [] by {
      assert c in to ==> lines[..0] == [];
    }
    assert Grew(s, t, c, k, lines, []);
  }

  lemma {:induction false} SilentSends(cfg: Settings, s: State, id: string, lines: seq<Line>, c: string, k: string)
    requires Present(s, c, k) && (id != c || forall i :: 0 <= i < |lines| ==> Silent(lines[i]))
    ensures Streams(s, DeliverAll(cfg, s, id, lines), c, k)
  {
    hide Streams, HasSeat, InRoom;
    if lines == [] {
      StillStreams(s, s, c, k);
    } else {
      var front, last := lines[..|lines| - 1], lines[|lines| - 1];
      SilentSends(cfg, s, id, front, c, k);
      var m := DeliverAll(cfg, s, id, front);
      GreetingKeepsRooms(cfg, s, id, front);
      if id == c {
        assert Silent(last);
        SilentSend(cfg, m, {id}, last, c, k);
      } else {
        StillStreams(m, Deliver(cfg, m, {id}, last), c, k);
      }
      StreamsBoth(s, m, DeliverAll(cfg, s, id, lines), c, k);
    }
  }

  // ---- Each command

  lemma PublishStreams(cfg: Settings, s: State, key: string, text: string, c: string, k: string)
    requires Present(s, c, k) && SeatsOk(s.rooms, s.sessions) && key in s.rooms
    ensures Streams(s, Publish(cfg, s, key, text), c, k)
  {
    hide LastN, Format, TrimNewlines, Said, Shown;
    var t := Publish(cfg, s, key, text);
    assert InRoom(s.rooms, key, c) <==> HasSeat(s.sessions, key, c);
    if key == k {
      var shown := TrimNewlines(Format(s.rooms[k].name, text));
      SaidOne(Stored(shown));
      ShownOne(s.rooms[k].name, text);
      assert Grew(s, t, c, k, [Stored(shown)], [text]);
    } else {
      StillStreams(s, t, c, k);
    }
  }

  lemma SpeakStreams(cfg: Settings, s: State, id: string, text: string, c: string, k: string)
    requires Present(s, c, k) && SeatsOk(s.rooms, s.sessions) && id in s.sessions
    ensures Streams(s, Speak(cfg, s, id, text), c, k)
  {
    hide Streams, Publish, Present;
    var room := RoomOf(s, id);
    if room.None? {
      SilentSend(cfg, s, {id}, Notice, c, k);
    } else {
      PublishStreams(cfg, s, room.value, text, c, k);
    }
  }

  lemma MoveStill(s: State, id: string, name: string, c: string, k: string)
    requires Present(s, c, k) && id in s.sessions && id != c && RoomsOk(s.rooms) && CleanName(name)
    ensures Still(s, MoveClientRoom(s, id, name).state, c, k)
  {
    MoveShape(s, id, name);
    hide MoveClientRoom, Lower, Trim, Tight, RoomsOk, CleanName;
  }

  lemma LeaveStreams(cfg: Settings, s: State, id: string, previous: Option<string>, c: string, k: string)
    requires Present(s, c, k) && RoomsOk(s.rooms)
    ensures Streams(s, Leave(cfg, s, id, previous), c, k)
  {
    hide Streams, IsLobby, Lower, Tight;
    if previous.Some? && previous.value in s.rooms {
      var p := previous.value;
      assert WellNamed(p, s.rooms[p]);
      SilentSend(cfg, s, s.rooms[p].members - {id}, Announcement(s.rooms[p].name), c, k);
      var a := Announce(cfg, s, p, {id});
      StillStreams(a, CleanupRoom(cfg, a, p), c, k);
      StreamsBoth(s, a, Leave(cfg, s, id, previous), c, k);
    } else {
      StillStreams(s, s, c, k);
    }
  }

  lemma GreetAndLeaveStreams(cfg: Settings, s: State, id: string, key: string, previous: Option<string>, c: string,
    k: string)
    requires Present(s, c, k) && RoomsOk(s.rooms) && key in s.rooms && id != c
    ensures DeliverAll(cfg, s, id, Greeting(cfg, s.rooms[key])).rooms == s.rooms
    ensures var greeted := DeliverAll(cfg, s, id, Greeting(cfg, s.rooms[key]));
      Streams(s, Leave(cfg, Announce(cfg, greeted, key, {id}), id, previous), c, k)
  {
    hide Streams, Leave, Greeting, RoomsOk;
    var lines := Greeting(cfg, s.rooms[key]);
    GreetingKeepsRooms(cfg, s, id, lines);
    SilentSends(cfg, s, id, lines, c, k);
    var greeted := DeliverAll(cfg, s, id, lines);
    SilentSend(cfg, greeted, greeted.rooms[key].members - {id}, Announcement(greeted.rooms[key].name), c, k);
    var a := Announce(cfg, greeted, key, {id});
    LeaveStreams(cfg, a, id, previous, c, k);
    StreamsBoth(s, greeted, a, c, k);
    StreamsBoth(s, a, Leave(cfg, a, id, previous), c, k);
  }

  lemma JoinStreams(cfg: Settings, s: State, id: string, desired: string, c: string, k: string)
    requires Coherent(cfg, s, {}) && Present(s, c, k) && id in s.sessions
    requires id == c ==> Wanted(cfg, desired).None? || NormalizeRoomKey(Wanted(cfg, desired).value) == k
    ensures Streams(s, JoinRoom(cfg, s, id, desired), c, k)
  {
    hide Streams, Leave, Announce, Greeting, SanitizeRoomName, Trim, NormalizeRoomKey, Lower,
         SeatsOk, NamesOk, BoxesOk, RoomsOk, HistoryOk, Collected, CleanName;
    var name := Wanted(cfg, desired);
    SilentSend(cfg, s, {id}, Notice, c, k);
    if name.Some? {
      SanitizedKey(if Trim(desired) == "" then cfg.lobbyName else desired);
      MoveSeats(s, id, name.value);
      MoveShapeBrief(s, id, name.value);
      var m := MoveClientRoom(s, id, name.value);
      if !m.already {
        MoveKeeps(cfg, s, id, name.value);
        MoveStill(s, id, name.value, c, k);
        StillStreams(s, m.state, c, k);
        CleanKey(name.value);
        GreetAndLeaveStreams(cfg, m.state, id, Lower(name.value), m.previous, c, k);
        StreamsBoth(s, m.state, JoinRoom(cfg, s, id, desired), c, k);
      }
    }
  }

  lemma CleanKey(name: string)
    requires CleanName(name)
    ensures NormalizeRoomKey(name) == Lower(name)
  {}

  lemma MoveShapeBrief(s: State, id: string, name: string)
    requires id in s.sessions && RoomsOk(s.rooms) && CleanName(name)
    ensures MoveClientRoom(s, id, name).already <==> s.sessions[id].roomKey == NormalizeRoomKey(name)
  {
    MoveShape(s, id, name);
  }

  lemma RemoveStreams(cfg: Settings, s: State, id: string, c: string, k: string)
    requires Present(s, c, k) && id in s.sessions && id != c
    ensures Streams(s, RemoveClient(cfg, s, id), c, k)
  {
    RemovedShape(cfg, s, id);
    hide Streams, RemoveClient, IsLobby, Lower;
    var r, key := Removed(cfg, s, id), s.sessions[id].roomKey;
    assert Still(s, r, c, k);
    StillStreams(s, r, c, k);
    if key != "" && key in r.rooms {
      SilentSend(cfg, r, r.rooms[key].members - {id}, Announcement(r.rooms[key].name), c, k);
      StreamsBoth(s, r, RemoveClient(cfg, s, id), c, k);
    }
  }

  lemma NickStreams(cfg: Settings, s: State, id: string, args: string, c: string, k: string)
    requires Present(s, c, k) && id in s.sessions
    ensures Streams(s, Nick(cfg, s, id, args), c, k)
  {
    hide Streams, Lower, Trim, SanitizeUserName;
    var name := SanitizeUserName(args);
    if Trim(args) == "" || name.None? || Lower(name.value) in s.names {
      SilentSend(cfg, s, {id}, Notice, c, k);
    } else {
      var s0 := Rename(s, id, name.value);
      StillStreams(s, s0, c, k);
      SilentSend(cfg, s0, {id}, Notice, c, k);
      var s1 := Notify(cfg, s0, id);
      StreamsBoth(s, s0, s1, c, k);
      var room := RoomOf(s1, id);
      if room.Some? {
        SilentSend(cfg, s1, s1.rooms[room.value].members - {id}, Announcement(s1.rooms[room.value].name), c, k);
        StreamsBoth(s, s1, Nick(cfg, s, id, args), c, k);
      }
    }
  }

  lemma MsgStreams(cfg: Settings, s: State, id: string, args: string, c: string, k: string)
    requires Present(s, c, k) && id in s.sessions
    ensures Streams(s, Msg(cfg, s, id, args), c, k)
  {
    hide Streams, Lower, Trim, SplitMsg;
    match SplitMsg(args)
    case Send(target, text) =>
      var key, body := Lower(target), Trim(text);
      if key !in s.names || body == "" {
        SilentSend(cfg, s, {id}, Notice, c, k);
      } else {
        var to := s.names[key];
        var toName := if to in s.sessions then s.sessions[to].name else target;
        SilentSend(cfg, s, {to}, Direct(true, s.sessions[id].name, body), c, k);
        var s1 := Deliver(cfg, s, {to}, Direct(true, s.sessions[id].name, body));
        SilentSend(cfg, s1, {id}, Direct(false, toName, body), c, k);
        StreamsBoth(s, s1, DirectMessage(cfg, s, id, target, text), c, k);
      }
    case _ => SilentSend(cfg, s, {id}, Notice, c, k);
  }

  lemma TopicStreams(cfg: Settings, s: State, id: string, args: string, c: string, k: string)
    requires Present(s, c, k) && id in s.sessions
    ensures Streams(s, Topic(cfg, s, id, args), c, k)
  {
    hide Streams, Trim;
    var room := RoomOf(s, id);
    if room.None? || Trim(args) == "" {
      SilentSend(cfg, s, {id}, Notice, c, k);
    } else {
      var s1 := s.(rooms := s.rooms[room.value := s.rooms[room.value].(topic := Trim(args))]);
      StillStreams(s, s1, c, k);
      SilentSend(cfg, s1, s1.rooms[room.value].members - {}, Announcement(s1.rooms[room.value].name), c, k);
      StreamsBoth(s, s1, Topic(cfg, s, id, args), c, k);
    }
  }

  lemma HistoryStreams(cfg: Settings, s: State, id: string, args: string, c: string, k: string)
    requires Present(s, c, k) && id in s.sessions
    ensures Streams(s, History(cfg, s, id, args), c, k)
  {
    hide Streams, Recent, ParseOptionalInt, Format, HasSeat, InRoom;
    SilentSend(cfg, s, {id}, Notice, c, k);
    var room, limit := RoomOf(s, id), ParseOptionalInt(args, 10);
    if room.Some? && limit.Some? {
      var r := s.rooms[room.value];
      var lines := Recent(r.history, if limit.value <= 0 then 10 else limit.value);
      if lines != [] {
        SilentSends(cfg, Notify(cfg, s, id), id, Recalls(r.name, lines), c, k);
        StreamsBoth(s, Notify(cfg, s, id), History(cfg, s, id, args), c, k);
      }
    }
  }

  // ---- One event

  // c did not ask to move or quit: what the caller can read off the command.
  predicate Stays(cfg: Settings, cmd: string, args: string, k: string) {
    && (cmd == "join" ==> Wanted(cfg, args).None? || NormalizeRoomKey(Wanted(cfg, args).value) == k)
    && (cmd == "leave" ==> Wanted(cfg, cfg.lobbyName).None? || NormalizeRoomKey(Wanted(cfg, cfg.lobbyName).value) == k)
    && cmd != "quit" && cmd != "exit"
  }

  predicate StaysPut(cfg: Settings, e: Event, c: string, k: string) {
    match e
    case Disconnected(id) => id != c
    case Input(id, line) =>
      var t := Trim(line);
      id == c && t != "" && t[0] == '/' ==> Stays(cfg, ParseCommand(t).cmd, ParseCommand(t).args, k)
    case _ => true
  }

  lemma ExecuteStreams(cfg: Settings, s: State, id: string, cmd: string, args: string, c: string, k: string)
    requires Coherent(cfg, s, {}) && Present(s, c, k) && id in s.sessions
    requires id == c ==> Stays(cfg, cmd, args, k)
    ensures Streams(s, Execute(cfg, s, id, cmd, args), c, k)
  {
    hide Streams, NamesOk, BoxesOk, Furnished, Nick, JoinRoom, Msg, Topic, History, Speak, RemoveClient, Trim, Wanted,
         NormalizeRoomKey;
    if cmd == "nick" { NickStreams(cfg, s, id, args, c, k); }
    else if cmd == "join" { JoinStreams(cfg, s, id, args, c, k); }
    else if cmd == "leave" { JoinStreams(cfg, s, id, cfg.lobbyName, c, k); }
    else if cmd == "msg" { MsgStreams(cfg, s, id, args, c, k); }
    else if cmd == "topic" { TopicStreams(cfg, s, id, args, c, k); }
    else if cmd == "history" { HistoryStreams(cfg, s, id, args, c, k); }
    else {
      SilentSend(cfg, s, {id}, Notice, c, k);
      if cmd == "me" { SpeakStreams(cfg, s, id, "* " + s.sessions[id].name + " " + args, c, k); }
      if cmd == "quit" || cmd == "exit" {
        var n := Notify(cfg, s, id);
        RemoveStreams(cfg, n, id, c, k);
        StreamsBoth(s, n, RemoveClient(cfg, n, id), c, k);
      }
    }
  }

  lemma ConnectStreams(cfg: Settings, s: State, c: string, k: string)
    requires Coherent(cfg, s, {}) && Present(s, c, k) && ClientId(NextSeq(s.nextID)) !in s.sessions
    ensures Streams(s, Connect(cfg, s), c, k)
  {
    RegisterKeeps(cfg, s);
    hide Streams, Coherent, Lower, ClientId, GuestName, NextSeq, JoinRoom;
    var s1 := Register(s);
    var id := ClientId(s1.nextID);
    StillStreams(s, s1, c, k);
    if Lower(GuestName(s1.nextID)) !in s.names {
      SilentSend(cfg, s1, {id}, Notice, c, k);
      var s2 := Notify(cfg, s1, id);
      SendKeeps(cfg, s1, {id}, Notice, {});
      JoinStreams(cfg, s2, id, cfg.lobbyName, c, k);
      StreamsBoth(s, s1, s2, c, k);
      StreamsBoth(s, s2, JoinRoom(cfg, s2, id, cfg.lobbyName), c, k);
    }
  }

  // One event by anyone: what c is sent is what was added to its room's log.
  lemma StepStreams(cfg: Settings, s: State, e: Event, c: string, k: string)
    requires Coherent(cfg, s, {}) && Present(s, c, k) && StaysPut(cfg, e, c, k)
    requires e.Connected? ==> ClientId(NextSeq(s.nextID)) !in s.sessions
    ensures Streams(s, Step(cfg, s, e), c, k)
  {
    hide Streams, NamesOk, BoxesOk, Furnished, Connect, Execute, Speak, RemoveClient, Trim, ParseCommand, Stays,
         ClientId, NextSeq;
    match e
    case Connected => ConnectStreams(cfg, s, c, k);
    case Input(id, line) =>
      StillStreams(s, s, c, k);
      var t := Trim(line);
      if id in s.sessions && t != "" && t[0] == '/' {
        var p := ParseCommand(t);
        if p.cmd != "" { ExecuteStreams(cfg, s, id, p.cmd, p.args, c, k); }
      } else if id in s.sessions && t != "" {
        SpeakStreams(cfg, s, id, s.sessions[id].name + ": " + t, c, k);
      }
    case Disconnected(id) =>
      StillStreams(s, s, c, k);
      if id in s.sessions { RemoveStreams(cfg, s, id, c, k); }
    case Taken(id) => StillStreams(s, Step(cfg, s, e), c, k);
  }

  // ---- A whole visit

  // Since its n0-th line, c was sent exactly the room's log from position lo on.
  ghost predicate Visit(t: State, c: string, k: string, n0: nat, lo: nat) {
    && Present(t, c, k) && n0 <= |t.boxes[c].calls| && lo <= |t.rooms[k].log|
    && Said(t.boxes[c].calls[n0..]) == Shown(t.rooms[k].name, t.rooms[k].log[lo..])
  }

  lemma VisitGoesOn(s: State, t: State, c: string, k: string, n0: nat, lo: nat)
    requires Visit(s, c, k, n0, lo) && Streams(s, t, c, k)
    ensures Visit(t, c, k, n0, lo)
  {
    hide Said, Shown;
    var lines, texts :| Grew(s, t, c, k, lines, texts);
    SaidAppend(s.boxes[c].calls[n0..], lines);
    ShownAppend(s.rooms[k].name, s.rooms[k].log[lo..], texts);
    assert t.boxes[c].calls[n0..] == s.boxes[c].calls[n0..] + lines;
    assert t.rooms[k].log[lo..] == s.rooms[k].log[lo..] + texts;
  }

  lemma {:induction false} SaidReplays(room: string, texts: seq<string>)
    ensures Said(SanitizedAll(Replays(room, texts))) == Shown(room, texts)
  {
    hide TrimNewlines, Format;
    if texts != [] {
      var front, last := texts[..|texts| - 1], texts[|texts| - 1];
      SaidReplays(room, front);
      var all := SanitizedAll(Replays(room, texts));
      assert all[..|all| - 1] == SanitizedAll(Replays(room, front));
      assert all[|all| - 1] == Replayed(TrimNewlines(Format(room, last)));
    }
  }

  function SanitizedAll(lines: seq<Line>): seq<Line> {
    seq(|lines|, i requires 0 <= i < |lines| => Sanitized(lines[i]))
  }

  lemma {:induction false} SendsTo(cfg: Settings, s: State, id: string, lines: seq<Line>)
    requires id in s.boxes
    ensures var t := DeliverAll(cfg, s, id, lines);
      id in t.boxes && t.boxes[id].calls == s.boxes[id].calls + SanitizedAll(lines)
  {
    hide Sanitized;
    if lines != [] {
      var front, last := lines[..|lines| - 1], lines[|lines| - 1];
      SendsTo(cfg, s, id, front);
      assert SanitizedAll(lines) == SanitizedAll(front) + [Sanitized(last)];
    }
  }

  lemma SanitizedAppend(a: seq<Line>, b: seq<Line>)
    ensures SanitizedAll(a + b) == SanitizedAll(a) + SanitizedAll(b)
  {
    hide Sanitized;
  }

  lemma NoticeIsSilent()
    ensures Said(SanitizedAll([Notice])) == [] && Said(SanitizedAll([])) == []
  {
    assert SanitizedAll([Notice]) == [Notice] && [Notice][..0] == [];
  }

  lemma ShowsNothing(room: string)
    ensures Shown(room, []) == []
  {}

  // The notice of the join and the topic say nothing of what is stored.
  lemma HeadSays(topic: seq<Line>)
    requires topic == [] || topic == [Notice]
    ensures Said(SanitizedAll([Notice] + topic)) == []
  {
    hide Sanitized, Said;
    NoticeIsSilent();
    SanitizedAppend([Notice], topic);
    SaidAppend(SanitizedAll([Notice]), SanitizedAll(topic));
  }

  lemma TailSays(room: string, replay: seq<string>)
    ensures Said(SanitizedAll([Notice] + Replays(room, replay))) == Shown(room, replay)
  {
    hide Sanitized, Said, Shown, Replays;
    NoticeIsSilent();
    SaidReplays(room, replay);
    SanitizedAppend([Notice], Replays(room, replay));
    SaidAppend(SanitizedAll([Notice]), SanitizedAll(Replays(room, replay)));
  }

  // The greeting says exactly the window of the log.
  lemma GreetingSays(cfg: Settings, r: RoomView)
    requires LogOk(cfg, r)
    ensures Said(SanitizedAll(Greeting(cfg, r))) == Shown(r.name, r.log[Start(cfg, r.log)..])
  {
    var replay := Recent(r.history, cfg.historyLimit);
    assert replay == r.log[Start(cfg, r.log)..];
    var topic := if r.topic != "" then [Notice] else [];
    var tail := if replay != [] then [Notice] + Replays(r.name, replay) else [];
    assert Greeting(cfg, r) == [Notice] + topic + tail;
    hide Sanitized, SanitizedAll, Said, Shown, Replays, Recent, LastN, Greeting, LogOk, Start;
    HeadSays(topic);
    TailSays(r.name, replay);
    ShowsNothing(r.name);
    NoticeIsSilent();
    SanitizedAppend([Notice] + topic, tail);
    SaidAppend(SanitizedAll([Notice] + topic), SanitizedAll(tail));
  }

  // Where the replay of a log of this length begins.
  function Start(cfg: Settings, log: seq<string>): nat {
    if |log| > cfg.historyLimit then |log| - cfg.historyLimit else 0
  }

  function LogOf(s: State, k: string): seq<string> {
    if k in s.rooms then s.rooms[k].log else []
  }

  lemma JoinArrives(cfg: Settings, s: State, c: string, desired: string)
    requires Coherent(cfg, s, {}) && c in s.sessions && c in s.boxes && Wanted(cfg, desired).Some?
    requires s.sessions[c].roomKey != NormalizeRoomKey(Wanted(cfg, desired).value)
    ensures var k := NormalizeRoomKey(Wanted(cfg, desired).value);
      Visit(JoinRoom(cfg, s, c, desired), c, k, |s.boxes[c].calls|, Start(cfg, LogOf(s, k)))
  {
    var name := Wanted(cfg, desired).value;
    SanitizedKey(if Trim(desired) == "" then cfg.lobbyName else desired);
    CleanKey(name);
    MoveShapeBrief(s, c, name);
    MoveLog(s, c, name);
    MoveKeeps(cfg, s, c, name);
    hide MoveClientRoom, Lower, Trim, Wanted, NormalizeRoomKey, SanitizeRoomName, Leave, Greeting, Visit;
    var m, k := MoveClientRoom(s, c, name), Lower(name);
    CoherentAbout(cfg, m.state, Pending(m.previous), k, c);
    GreetVisit(cfg, m.state, c, k);
    var lines := Greeting(cfg, m.state.rooms[k]);
    GreetingKeepsRooms(cfg, m.state, c, lines);
    var greeted := DeliverAll(cfg, m.state, c, lines);
    var n0, lo := |s.boxes[c].calls|, Start(cfg, LogOf(s, k));
    VisitLeave(cfg, greeted, c, k, m.previous, n0, lo);
    assert JoinRoom(cfg, s, c, desired) == Leave(cfg, Announce(cfg, greeted, k, {c}), c, m.previous);
  }

  // The move itself sends nothing and keeps the log of the room it enters.
  lemma MoveLog(s: State, c: string, name: string)
    requires c in s.sessions && RoomsOk(s.rooms) && CleanName(name)
    ensures var t := MoveClientRoom(s, c, name).state;
      t.boxes == s.boxes && LogOf(t, Lower(name)) == LogOf(s, Lower(name))
  {
    MoveShape(s, c, name);
    assert NewRoom(name).log == [];
    hide MoveClientRoom, Lower, NewRoom;
  }

  lemma CoherentAbout(cfg: Settings, s: State, pending: set<string>, k: string, c: string)
    requires Coherent(cfg, s, pending) && k in s.rooms && c in s.sessions && s.sessions[c].roomKey == k
    ensures LogOk(cfg, s.rooms[k]) && Present(s, c, k) && RoomsOk(s.rooms)
  {
    hide LogOk, Collected, NamesOk, BoxesOk, WellNamed;
    assert InRoom(s.rooms, k, c) <==> HasSeat(s.sessions, k, c);
  }

  lemma GreetVisit(cfg: Settings, s: State, c: string, k: string)
    requires Present(s, c, k) && LogOk(cfg, s.rooms[k])
    ensures var t := DeliverAll(cfg, s, c, Greeting(cfg, s.rooms[k]));
      Visit(t, c, k, |s.boxes[c].calls|, Start(cfg, s.rooms[k].log)) && t.rooms == s.rooms
  {
    hide Greeting, LastN, Clean, Said, Shown;
    var r := s.rooms[k];
    var lines := Greeting(cfg, r);
    var t := DeliverAll(cfg, s, c, lines);
    GreetingKeepsRooms(cfg, s, c, lines);
    SendsTo(cfg, s, c, lines);
    GreetingSays(cfg, r);
    assert t.boxes[c].calls[|s.boxes[c].calls|..] == SanitizedAll(lines);
  }

  lemma VisitLeave(cfg: Settings, s: State, c: string, k: string, previous: Option<string>, n0: nat, lo: nat)
    requires Visit(s, c, k, n0, lo) && Present(s, c, k) && RoomsOk(s.rooms)
    ensures Visit(Leave(cfg, Announce(cfg, s, k, {c}), c, previous), c, k, n0, lo)
  {
    hide Visit, Streams, RoomsOk, Leave;
    SilentSend(cfg, s, s.rooms[k].members - {c}, Announcement(s.rooms[k].name), c, k);
    var a := Announce(cfg, s, k, {c});
    VisitGoesOn(s, a, c, k, n0, lo);
    VisitPresent(a, c, k, n0, lo);
    LeaveStreams(cfg, a, c, previous, c, k);
    VisitGoesOn(a, Leave(cfg, a, c, previous), c, k, n0, lo);
  }

  lemma VisitPresent(s: State, c: string, k: string, n0: nat, lo: nat)
    requires Visit(s, c, k, n0, lo)
    ensures Present(s, c, k)
  {}

  // ---- Every run

  // The event with which c enters room k: a first connection into the lobby, or a /join or /leave.
  predicate Enters(cfg: Settings, s: State, e: Event, c: string, k: string) {
    match e
    case Connected =>
      && c == ClientId(NextSeq(s.nextID)) && Lower(GuestName(NextSeq(s.nextID))) !in s.names
      && Wanted(cfg, cfg.lobbyName).Some? && k == NormalizeRoomKey(Wanted(cfg, cfg.lobbyName).value)
    case Input(id, line) =>
      var p := ParseCommand(Trim(line));
      var desired := if p.cmd == "join" then p.args else cfg.lobbyName;
      && id == c && c in s.sessions && s.sessions[c].roomKey != k
      && Trim(line) != "" && Trim(line)[0] == '/' && (p.cmd == "join" || p.cmd == "leave")
      && Wanted(cfg, desired).Some? && k == NormalizeRoomKey(Wanted(cfg, desired).value)
    case _ => false
  }

  // The very first client enters the lobby, if the lobby has an acceptable name.
  lemma FirstClientEnters(cfg: Settings)
    requires Wanted(cfg, cfg.lobbyName).Some?
    ensures Enters(cfg, Initial, Connected, ClientId(1), NormalizeRoomKey(Wanted(cfg, cfg.lobbyName).value))
  {
    hide Wanted, ClientId, GuestName, NormalizeRoomKey, Lower;
  }

  // Lines sent to c before it enters: a new client has had its welcome.
  function CallsBefore(s: State, e: Event, c: string): nat {
    if e.Connected? || c !in s.boxes then 1 else |s.boxes[c].calls|
  }

  lemma ConnectArrives(cfg: Settings, s: State, c: string, k: string)
    requires Coherent(cfg, s, {}) && Enters(cfg, s, Connected, c, k) && c !in s.sessions
    ensures Visit(Connect(cfg, s), c, k, 1, Start(cfg, LogOf(s, k)))
  {
    RegisterKeeps(cfg, s);
    NewBox(s);
    hide Coherent, Lower, ClientId, GuestName, NextSeq, JoinRoom, Wanted, Register, NormalizeRoomKey, Visit;
    var s1 := Register(s);
    SendKeeps(cfg, s1, {c}, Notice, {});
    JoinArrives(cfg, Notify(cfg, s1, c), c, cfg.lobbyName);
  }

  lemma NewBox(s: State)
    requires Lower(GuestName(NextSeq(s.nextID))) !in s.names
    ensures var t, id := Register(s), ClientId(NextSeq(s.nextID));
      && t.nextID == NextSeq(s.nextID) && t.rooms == s.rooms
      && id in t.boxes && t.boxes[id] == EmptyBox && id in t.sessions && t.sessions[id].roomKey == ""
  {
    hide Lower, ClientId, GuestName, NextSeq;
  }

  lemma EntryIsJoin(cfg: Settings, s: State, line: string, c: string, k: string)
    requires Enters(cfg, s, Input(c, line), c, k)
    ensures var p := ParseCommand(Trim(line));
      Step(cfg, s, Input(c, line)) == JoinRoom(cfg, s, c, if p.cmd == "join" then p.args else cfg.lobbyName)
  {
    hide Trim, ParseCommand, Wanted, NormalizeRoomKey, JoinRoom;
  }

  lemma EnterVisits(cfg: Settings, s: State, e: Event, c: string, k: string)
    requires Coherent(cfg, s, {}) && Enters(cfg, s, e, c, k)
    requires e.Connected? ==> ClientId(NextSeq(s.nextID)) !in s.sessions
    ensures Visit(Step(cfg, s, e), c, k, CallsBefore(s, e, c), Start(cfg, LogOf(s, k)))
  {
    match e
    case Connected =>
      ConnectArrives(cfg, s, c, k);
    case Input(id, line) =>
      hide Furnished, SeatsOk, NamesOk, BoxesOk, Trim, ParseCommand, Wanted, NormalizeRoomKey, JoinRoom, Visit, Step;
      var p := ParseCommand(Trim(line));
      EntryIsJoin(cfg, s, line, c, k);
      JoinArrives(cfg, s, c, if p.cmd == "join" then p.args else cfg.lobbyName);
    case _ =>
  }

  lemma {:induction false} VisitRun(cfg: Settings, s: State, after: seq<Event>, c: string, k: string, n0: nat, lo: nat)
    requires Good(cfg, s) && s.nextID + Connects(after) < SEQ_LIMIT && Visit(s, c, k, n0, lo)
    requires forall i :: 0 <= i < |after| ==> StaysPut(cfg, after[i], c, k)
    ensures Good(cfg, Run(cfg, s, after)) && Run(cfg, s, after).nextID == s.nextID + Connects(after)
    ensures Visit(Run(cfg, s, after), c, k, n0, lo)
  {
    hide Good, Visit, Step, StaysPut;
    if after != [] {
      var front, last := after[..|after| - 1], after[|after| - 1];
      VisitRun(cfg, s, front, c, k, n0, lo);
      var m := Run(cfg, s, front);
      GoodStep(cfg, m, last);
      VisitStep(cfg, m, last, c, k, n0, lo);
    }
  }

  lemma VisitStep(cfg: Settings, s: State, e: Event, c: string, k: string, n0: nat, lo: nat)
    requires Good(cfg, s) && Visit(s, c, k, n0, lo) && StaysPut(cfg, e, c, k)
    requires e.Connected? ==> s.nextID + 1 < SEQ_LIMIT
    ensures Visit(Step(cfg, s, e), c, k, n0, lo)
  {
    hide Coherent, IdsOk, EveryoneJoined, Wanted, Visit, Streams, Step, StaysPut, ClientId;
    if e.Connected? { FreshId(s.sessions.Keys, s.nextID); }
    VisitPresent(s, c, k, n0, lo);
    StepStreams(cfg, s, e, c, k);
    VisitGoesOn(s, Step(cfg, s, e), c, k, n0, lo);
  }

  // The exact stream. After any run, c enters room k and stays while anything else happens.
  // Then the stored messages c was sent since are, in order and formatted alike whether
  // replayed or live, the room's whole log from at most HistoryLimit entries before the entry:
  // no gap, no duplicate, no reordering.
  lemma ExactStream(cfg: Settings, before: seq<Event>, entry: Event, after: seq<Event>, c: string, k: string)
    requires Connects(before) + Connects([entry]) + Connects(after) < SEQ_LIMIT
    requires Enters(cfg, Run(cfg, Initial, before), entry, c, k)
    requires forall i :: 0 <= i < |after| ==> StaysPut(cfg, after[i], c, k)
    ensures var s0 := Run(cfg, Initial, before);
      var t := Run(cfg, Step(cfg, s0, entry), after);
      && Present(t, c, k) && CallsBefore(s0, entry, c) <= |t.boxes[c].calls|
      && IsLogFrom(Said(t.boxes[c].calls[CallsBefore(s0, entry, c)..]), t.rooms[k], Start(cfg, LogOf(s0, k)))
      && (t.boxes[c].Lossless() ==> t.boxes[c].accepted == t.boxes[c].calls)
  {
    hide Good, Visit, Step, StaysPut, Enters, IsLogFrom, Present, Said, CallsBefore;
    var s0 := Run(cfg, Initial, before);
    RunKeeps(cfg, before);
    OneConnect(entry);
    GoodStep(cfg, s0, entry);
    EntryVisit(cfg, s0, entry, c, k);
    var n0, lo := CallsBefore(s0, entry, c), Start(cfg, LogOf(s0, k));
    VisitRun(cfg, Step(cfg, s0, entry), after, c, k, n0, lo);
    VisitMeans(cfg, Run(cfg, Step(cfg, s0, entry), after), c, k, n0, lo);
  }

  lemma OneConnect(e: Event)
    ensures Connects([e]) == if e.Connected? then 1 else 0
  {
    assert [e][..0] == [];
  }

  lemma EntryVisit(cfg: Settings, s: State, e: Event, c: string, k: string)
    requires Good(cfg, s) && Enters(cfg, s, e, c, k) && (e.Connected? ==> s.nextID + 1 < SEQ_LIMIT)
    ensures Visit(Step(cfg, s, e), c, k, CallsBefore(s, e, c), Start(cfg, LogOf(s, k)))
  {
    hide Coherent, IdsOk, EveryoneJoined, Wanted, Visit, Step, Enters, ClientId, CallsBefore, Start;
    if e.Connected? { FreshId(s.sessions.Keys, s.nextID); }
    EnterVisits(cfg, s, e, c, k);
  }

  // said is the room's log from position lo to its end, formatted.
  ghost predicate IsLogFrom(said: seq<string>, r: RoomView, lo: nat) {
    && lo <= |r.log| && |said| == |r.log| - lo
    && forall i :: 0 <= i < |said| ==> said[i] == Format(r.name, r.log[lo + i])
  }

  lemma VisitMeans(cfg: Settings, t: State, c: string, k: string, n0: nat, lo: nat)
    requires Good(cfg, t) && Visit(t, c, k, n0, lo)
    ensures Present(t, c, k) && n0 <= |t.boxes[c].calls|
    ensures IsLogFrom(Said(t.boxes[c].calls[n0..]), t.rooms[k], lo)
    ensures t.boxes[c].Lossless() ==> t.boxes[c].accepted == t.boxes[c].calls
  {
    hide IdsOk, EveryoneJoined, RoomsOk, SeatsOk, NamesOk, Collected, Clean, LastN, Said, Shown, Format;
    var r := t.rooms[k];
    assert LogOk(cfg, r);
    forall i | 0 <= i < |r.log| - lo ensures Clean(r.log[lo..][i]) { assert Clean(r.log[lo + i]); }
    ShownClean(r.name, r.log[lo..]);
    if t.boxes[c].Lossless() {
      LosslessIsExact(t.boxes[c], cfg.sendBufferSize);
    }
  }
}
