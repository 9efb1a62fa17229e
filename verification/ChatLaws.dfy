// Consequences of the invariant: counts, the lobby, re-joining, names and ids.
module ChatLaws {
  import opened Text
  import opened Commands
  import opened ChatModel
  import opened ChatInvariants

  // ---- Conservation: what /rooms prints adds up

  // The counts printed for the rooms, visited in any order.
  function TotalMembers(rooms: Rooms, order: seq<string>): nat
    requires forall k :: k in order ==> k in rooms
  {
    if order == [] then 0
    else TotalMembers(rooms, order[..|order| - 1]) + |rooms[order[|order| - 1]].members|
  }

  ghost predicate Enumerates(order: seq<string>, keys: set<string>) {
    && (forall k :: k in order <==> k in keys)
    && forall i, j :: 0 <= i < j < |order| ==> order[i] != order[j]
  }

  function SeatedIn(sessions: Sessions, keys: seq<string>): set<string> {
    set id | id in sessions && sessions[id].roomKey != "" && sessions[id].roomKey in keys
  }

  lemma {:induction false} CountsAddUp(s: State, order: seq<string>)
    requires SeatsOk(s.rooms, s.sessions)
    requires forall k :: k in order ==> k in s.rooms && k != ""
    requires forall i, j :: 0 <= i < j < |order| ==> order[i] != order[j]
    ensures TotalMembers(s.rooms, order) == |SeatedIn(s.sessions, order)|
  {
    if order != [] {
      var front, last := order[..|order| - 1], order[|order| - 1];
      assert forall k :: k in front ==> k in order;
      CountsAddUp(s, front);
      SeatedAppend(s, front, last);
      assert order == front + [last];
    }
  }

  lemma SeatedAppend(s: State, front: seq<string>, last: string)
    requires SeatsOk(s.rooms, s.sessions) && last in s.rooms && last != "" && last !in front
    ensures |SeatedIn(s.sessions, front + [last])| == |SeatedIn(s.sessions, front)| + |s.rooms[last].members|
  {
    var here := s.rooms[last].members;
    forall id ensures id in here <==> HasSeat(s.sessions, last, id) {
      assert InRoom(s.rooms, last, id) <==> HasSeat(s.sessions, last, id);
    }
    assert SeatedIn(s.sessions, front + [last]) == SeatedIn(s.sessions, front) + here;
    assert SeatedIn(s.sessions, front) !! here;
  }

  // After every run, in whatever order the room map is visited, the member counts sum to
  // the number of registered clients that have a room; with a usable lobby name that is
  // everyone /who all lists.
  lemma Conservation(cfg: Settings, events: seq<Event>, order: seq<string>)
    requires Connects(events) < SEQ_LIMIT
    requires Enumerates(order, Run(cfg, Initial, events).rooms.Keys)
    ensures var s := Run(cfg, Initial, events);
      TotalMembers(s.rooms, order) == |set id | id in s.sessions && s.sessions[id].roomKey != ""|
    ensures Wanted(cfg, cfg.lobbyName).Some? ==>
      TotalMembers(Run(cfg, Initial, events).rooms, order) == |Run(cfg, Initial, events).sessions|
  {
    var s := Run(cfg, Initial, events);
    RunKeeps(cfg, events);
    hide Run, Connects, NamesOk, BoxesOk, HistoryOk, Collected, IdsOk, WellNamed, Wanted;
    CountsAddUp(s, order);
    var placed := set id | id in s.sessions && s.sessions[id].roomKey != "";
    forall id | id in placed ensures id in SeatedIn(s.sessions, order) {
      assert InRoom(s.rooms, s.sessions[id].roomKey, id) <==> HasSeat(s.sessions, s.sessions[id].roomKey, id);
    }
    assert SeatedIn(s.sessions, order) == placed;
    if Wanted(cfg, cfg.lobbyName).Some? {
      assert placed == s.sessions.Keys;
    }
  }

  // ---- The lobby

  // The lobby's room is protected from collection exactly when the configured name has no
  // white space at its ends: cleanup compares the raw name, rooms carry the trimmed one.
  lemma LobbyProtected(cfg: Settings, rooms: Rooms)
    requires RoomsOk(rooms) && NormalizeRoomKey(cfg.lobbyName) in rooms
    ensures IsLobby(cfg, rooms[NormalizeRoomKey(cfg.lobbyName)]) <==> Tight(cfg.lobbyName)
  {
    var r := rooms[NormalizeRoomKey(cfg.lobbyName)];
    assert WellNamed(NormalizeRoomKey(cfg.lobbyName), r);
    if Tight(cfg.lobbyName) {
      TrimTight(cfg.lobbyName);
    } else if IsLobby(cfg, r) {
      LowerTight(r.name);
      LowerTight(cfg.lobbyName);
    }
  }

  // The last member leaving the lobby deletes it exactly when the configured name is untrimmed.
  lemma LastOneOutOfTheLobby(cfg: Settings, s: State, id: string)
    requires Coherent(cfg, s, {}) && id in s.sessions
    requires var lobby := NormalizeRoomKey(cfg.lobbyName);
      s.sessions[id].roomKey == lobby != "" && lobby in s.rooms && s.rooms[lobby].members == {id}
    ensures NormalizeRoomKey(cfg.lobbyName) in RemoveClient(cfg, s, id).rooms <==> Tight(cfg.lobbyName)
  {
    LobbyProtected(cfg, s.rooms);
    hide Lower, Tight, Coherent, NormalizeRoomKey, IsLobby;
    var lobby := NormalizeRoomKey(cfg.lobbyName);
    RemovedShape(cfg, s, id);
    assert Without(s.rooms[lobby], id).members == {};
  }

  // No event deletes the lobby once it exists, when its name is trimmed.
  lemma LobbyStays(cfg: Settings, s: State, e: Event)
    requires Good(cfg, s) && Tight(cfg.lobbyName) && (e.Connected? ==> s.nextID + 1 < SEQ_LIMIT)
    requires NormalizeRoomKey(cfg.lobbyName) in s.rooms
    ensures NormalizeRoomKey(cfg.lobbyName) in Step(cfg, s, e).rooms
  {
    hide Coherent, IdsOk, EveryoneJoined, Wanted, Tight, NormalizeRoomKey, HandleInput, RemoveClient, Connect, ClientId;
    match e
    case Connected =>
      FreshId(s.sessions.Keys, s.nextID);
      ConnectKeepsLobby(cfg, s);
    case Input(id, line) => if id in s.sessions { InputKeepsLobby(cfg, s, id, line); }
    case Disconnected(id) => if id in s.sessions { RemoveKeepsLobby(cfg, s, id); }
    case Taken(id) =>
  }

  lemma RemoveKeepsLobby(cfg: Settings, s: State, id: string)
    requires Coherent(cfg, s, {}) && Tight(cfg.lobbyName) && NormalizeRoomKey(cfg.lobbyName) in s.rooms
    requires id in s.sessions
    ensures NormalizeRoomKey(cfg.lobbyName) in RemoveClient(cfg, s, id).rooms
  {
    LobbyProtected(cfg, s.rooms);
    hide Lower, Tight, Coherent, NormalizeRoomKey, IsLobby;
    RemovedShape(cfg, s, id);
  }

  lemma LeaveKeepsLobby(cfg: Settings, s: State, id: string, previous: Option<string>)
    requires Coherent(cfg, s, Pending(previous)) && Tight(cfg.lobbyName) && NormalizeRoomKey(cfg.lobbyName) in s.rooms
    ensures NormalizeRoomKey(cfg.lobbyName) in Leave(cfg, s, id, previous).rooms
  {
    LobbyProtected(cfg, s.rooms);
    if previous.Some? && previous.value in s.rooms {
      assert WellNamed(previous.value, s.rooms[previous.value]);
    }
    hide Lower, Tight, Coherent, NormalizeRoomKey, IsLobby;
  }

  lemma JoinKeepsLobby(cfg: Settings, s: State, id: string, desired: string)
    requires Coherent(cfg, s, {}) && Tight(cfg.lobbyName) && NormalizeRoomKey(cfg.lobbyName) in s.rooms
    requires id in s.sessions
    ensures NormalizeRoomKey(cfg.lobbyName) in JoinRoom(cfg, s, id, desired).rooms
  {
    hide Coherent, Tight, NormalizeRoomKey, Leave, Greeting, Lower, SanitizeRoomName, Trim;
    var name := Wanted(cfg, desired);
    if name.Some? {
      SanitizedKey(if Trim(desired) == "" then cfg.lobbyName else desired);
      MoveKeeps(cfg, s, id, name.value);
      var m := MoveClientRoom(s, id, name.value);
      if !m.already {
        var key := Lower(name.value);
        SendAllKeeps(cfg, m.state, id, Greeting(cfg, m.state.rooms[key]), Pending(m.previous));
        var greeted := DeliverAll(cfg, m.state, id, Greeting(cfg, m.state.rooms[key]));
        SendKeeps(cfg, greeted, greeted.rooms[key].members - {id}, Announcement(greeted.rooms[key].name),
          Pending(m.previous));
        LeaveKeepsLobby(cfg, Announce(cfg, greeted, key, {id}), id, m.previous);
      }
    }
  }

  lemma ConnectKeepsLobby(cfg: Settings, s: State)
    requires Coherent(cfg, s, {}) && Tight(cfg.lobbyName) && NormalizeRoomKey(cfg.lobbyName) in s.rooms
    requires ClientId(NextSeq(s.nextID)) !in s.sessions
    ensures NormalizeRoomKey(cfg.lobbyName) in Connect(cfg, s).rooms
  {
    RegisterKeeps(cfg, s);
    hide Coherent, Tight, NormalizeRoomKey, JoinRoom, Lower, ClientId, GuestName, NextSeq;
    var s1 := Register(s);
    var id := ClientId(s1.nextID);
    if Lower(GuestName(s1.nextID)) !in s.names {
      SendKeeps(cfg, s1, {id}, Notice, {});
      JoinKeepsLobby(cfg, Notify(cfg, s1, id), id, cfg.lobbyName);
    }
  }

  lemma InputKeepsLobby(cfg: Settings, s: State, id: string, line: string)
    requires Coherent(cfg, s, {}) && Tight(cfg.lobbyName) && NormalizeRoomKey(cfg.lobbyName) in s.rooms
    requires id in s.sessions
    ensures NormalizeRoomKey(cfg.lobbyName) in HandleInput(cfg, s, id, line).rooms
  {
    hide Coherent, Tight, NormalizeRoomKey, JoinRoom, RemoveClient, Trim, ParseCommand, Lower, SanitizeUserName,
         SplitMsg, ParseOptionalInt, Recent, Recalls, LastN, Format;
    var t := Trim(line);
    if t != "" && t[0] == '/' {
      var c := ParseCommand(t);
      match c.cmd
      case "join" => JoinKeepsLobby(cfg, s, id, c.args);
      case "leave" => JoinKeepsLobby(cfg, s, id, cfg.lobbyName);
      case "history" => HistoryKeeps(cfg, s, id, c.args);
      case _ =>
        if c.cmd == "quit" || c.cmd == "exit" {
          SendKeeps(cfg, s, {id}, Notice, {});
          RemoveKeepsLobby(cfg, Notify(cfg, s, id), id);
        }
    }
  }

  // Once there, the lobby survives every run.
  lemma {:induction false} LobbySurvives(cfg: Settings, first: seq<Event>, events: seq<Event>)
    requires Connects(first + events) < SEQ_LIMIT && Tight(cfg.lobbyName)
    requires NormalizeRoomKey(cfg.lobbyName) in Run(cfg, Initial, first).rooms
    ensures NormalizeRoomKey(cfg.lobbyName) in Run(cfg, Initial, first + events).rooms
  {
    hide Good, Step, Tight, NormalizeRoomKey;
    if events == [] {
      assert first + events == first;
    } else {
      var all := first + events;
      var before := first + events[..|events| - 1];
      assert all[..|all| - 1] == before;
      LobbySurvives(cfg, first, events[..|events| - 1]);
      RunKeeps(cfg, before);
      LobbyStays(cfg, Run(cfg, Initial, before), all[|all| - 1]);
    }
  }

  lemma JoinSeats(cfg: Settings, s: State, id: string, desired: string)
    requires Coherent(cfg, s, {}) && id in s.sessions && Wanted(cfg, desired).Some?
    ensures var t := JoinRoom(cfg, s, id, desired);
      id in t.sessions && t.sessions[id].roomKey == NormalizeRoomKey(Wanted(cfg, desired).value)
  {
    hide Coherent, MoveClientRoom, Leave, Announce, Greeting, SanitizeRoomName, Trim, NormalizeRoomKey, Lower;
    var name := Wanted(cfg, desired).value;
    SanitizedKey(if Trim(desired) == "" then cfg.lobbyName else desired);
    var m := MoveClientRoom(s, id, name);
    MoveKeeps(cfg, s, id, name);
    if !m.already {
      GreetAndLeaveKeeps(cfg, m.state, id, Lower(name), m.previous);
    }
  }

  lemma LobbyKey(cfg: Settings)
    requires Wanted(cfg, cfg.lobbyName).Some?
    ensures NormalizeRoomKey(Wanted(cfg, cfg.lobbyName).value) == NormalizeRoomKey(cfg.lobbyName) != ""
  {
    TrimTight(Trim(cfg.lobbyName));
    hide Trim;
  }

  // The first client, alone in the lobby.
  lemma FirstInTheLobby(cfg: Settings)
    requires Wanted(cfg, cfg.lobbyName).Some?
    ensures var s, id := Connect(cfg, Initial), ClientId(1);
      && Coherent(cfg, s, {}) && s.sessions.Keys == {id}
      && s.sessions[id].roomKey == NormalizeRoomKey(cfg.lobbyName)
  {
    GoodInitially(cfg);
    hide Coherent, JoinRoom, Wanted, NormalizeRoomKey, Lower, ClientId, GuestName;
    var s1, id := Register(Initial), ClientId(1);
    ConnectKeeps(cfg, Initial);
    RegisterKeeps(cfg, Initial);
    assert NextSeq(0) == 1 && s1.sessions == map[id := Session(GuestName(1), "", "")];
    SendKeeps(cfg, s1, {id}, Notice, {});
    JoinSeats(cfg, Notify(cfg, s1, id), id, cfg.lobbyName);
    LobbyKey(cfg);
  }

  // One client comes and goes: the lobby is still there exactly when its configured name is trimmed.
  // With LobbySurvives this is when the lobby outlives every run.
  lemma LobbyOutlivesItsMembers(cfg: Settings)
    requires Wanted(cfg, cfg.lobbyName).Some?
    ensures NormalizeRoomKey(cfg.lobbyName) in Run(cfg, Initial, [Connected, Disconnected(ClientId(1))]).rooms
      <==> Tight(cfg.lobbyName)
  {
    var s, id, lobby := Connect(cfg, Initial), ClientId(1), NormalizeRoomKey(cfg.lobbyName);
    TwoEvents(cfg, id);
    hide Run, Connect, ClientId, NormalizeRoomKey, Wanted, Tight, RemoveClient;
    FirstInTheLobby(cfg);
    LobbyKey(cfg);
    AloneInTheLobby(cfg, s, id, lobby);
    LastOneOutOfTheLobby(cfg, s, id);
  }

  lemma TwoEvents(cfg: Settings, id: string)
    ensures Run(cfg, Initial, [Connected, Disconnected(id)]) ==
      if id in Connect(cfg, Initial).sessions then RemoveClient(cfg, Connect(cfg, Initial), id)
        else Connect(cfg, Initial)
  {
    hide Connect, RemoveClient;
    var events := [Connected, Disconnected(id)];
    assert events[..1] == [Connected] && [Connected][..0] == [];
    assert Run(cfg, Initial, []) == Initial && Run(cfg, Initial, [Connected]) == Connect(cfg, Initial);
  }

  lemma AloneInTheLobby(cfg: Settings, s: State, id: string, lobby: string)
    requires Coherent(cfg, s, {}) && s.sessions.Keys == {id} && s.sessions[id].roomKey == lobby != ""
    ensures lobby in s.rooms && s.rooms[lobby].members == {id}
  {
    hide Furnished, NamesOk, BoxesOk;
    assert InRoom(s.rooms, lobby, id) <==> HasSeat(s.sessions, lobby, id);
    forall x | x in s.rooms[lobby].members ensures x == id {
      assert InRoom(s.rooms, lobby, x) <==> HasSeat(s.sessions, lobby, x);
    }
  }

  // ---- Joining the room one is already in

  // Re-joining the current room changes no index and sends one line back.
  lemma RejoinChangesNothing(cfg: Settings, s: State, id: string, desired: string)
    requires Coherent(cfg, s, {}) && id in s.sessions
    requires Wanted(cfg, desired).Some? && s.sessions[id].roomKey == NormalizeRoomKey(Wanted(cfg, desired).value)
    ensures JoinRoom(cfg, s, id, desired) == Notify(cfg, s, id)
  {
    var name := Wanted(cfg, desired);
    SanitizedKey(if Trim(desired) == "" then cfg.lobbyName else desired);
    MoveSeats(s, id, name.value);
    MoveShape(s, id, name.value);
    hide Coherent, MoveClientRoom, Lower, Trim, SanitizeRoomName;
  }

  // ---- Names and ids

  // A name resolves to the one registered client that bears it, whatever its case.
  lemma NameResolves(cfg: Settings, s: State, name: string)
    requires Coherent(cfg, s, {})
    ensures Lower(name) in s.names <==> exists id :: id in s.sessions && EqualFold(s.sessions[id].name, name)
    ensures forall id, other | id in s.sessions && other in s.sessions ::
              EqualFold(s.sessions[id].name, s.sessions[other].name) ==> id == other
    ensures Lower(name) in s.names ==>
      var id := s.names[Lower(name)]; id in s.sessions && EqualFold(s.sessions[id].name, name)
  {
    hide Furnished, SeatsOk, BoxesOk, Lower;
    var n := Lower(name);
    if n in s.names {
      assert Owns(s.names, n, s.names[n]) <==> Bears(s.sessions, n, s.names[n]);
    }
    forall id | id in s.sessions && EqualFold(s.sessions[id].name, name) ensures n in s.names {
      assert Owns(s.names, n, id) <==> Bears(s.sessions, n, id);
    }
    forall id, other | id in s.sessions && other in s.sessions && EqualFold(s.sessions[id].name, s.sessions[other].name)
      ensures id == other
    {
      var m := Lower(s.sessions[id].name);
      assert Owns(s.names, m, id) <==> Bears(s.sessions, m, id);
      assert Owns(s.names, m, other) <==> Bears(s.sessions, m, other);
    }
  }

  // /msg reaches the client that bears the name, and only the two ends of it. Who writes to
  // oneself gets both lines.
  lemma MsgReachesItsTarget(cfg: Settings, s: State, id: string, target: string, text: string, to: string)
    requires Coherent(cfg, s, {}) && id in s.sessions && to in s.sessions
    requires EqualFold(s.sessions[to].name, target) && Trim(text) != ""
    ensures var t := DirectMessage(cfg, s, id, target, text);
      var received := Direct(true, s.sessions[id].name, Trim(text));
      var sent := Direct(false, s.sessions[to].name, Trim(text));
      && t.boxes[to].calls == s.boxes[to].calls + [received] + (if to == id then [sent] else [])
      && t.boxes[id].calls == s.boxes[id].calls + (if to == id then [received] else []) + [sent]
      && forall x :: x in s.boxes && x != id && x != to ==> t.boxes[x] == s.boxes[x]
  {
    hide Furnished, SeatsOk, BoxesOk, Lower, Trim;
    assert Owns(s.names, Lower(target), to) <==> Bears(s.sessions, Lower(target), to);
  }

  // A connection is refused, and only uses up a number, exactly when its guest name is taken.
  lemma RefusedWhen(cfg: Settings, s: State)
    requires Coherent(cfg, s, {}) && ClientId(NextSeq(s.nextID)) !in s.sessions
    ensures Lower(GuestName(NextSeq(s.nextID))) in s.names <==> Connect(cfg, s) == s.(nextID := NextSeq(s.nextID))
  {
    hide Coherent, Lower, ClientId, GuestName, NextSeq, JoinRoom, Register, Notify, Connect, Wanted;
    ConnectIs(cfg, s);
    if Lower(GuestName(NextSeq(s.nextID))) !in s.names {
      RegisterKeeps(cfg, s);
      WelcomeKeeps(cfg, Register(s), ClientId(NextSeq(s.nextID)));
      assert ClientId(NextSeq(s.nextID)) in Connect(cfg, s).sessions;
    }
  }

  // A /nick changes an index exactly when the name is acceptable and free.
  lemma NickChanges(cfg: Settings, s: State, id: string, args: string)
    requires id in s.sessions
    ensures var t, name := Nick(cfg, s, id, args), SanitizeUserName(args);
      name.None? || Lower(name.value) in s.names <==>
        t.sessions == s.sessions && t.names == s.names && t.rooms == s.rooms
  {
    hide Lower, Trim;
    var name := SanitizeUserName(args);
    assert Trim(args) == "" ==> name.None?;
    if name.Some? && Lower(name.value) !in s.names {
      assert Lower(name.value) in Nick(cfg, s, id, args).names;
    }
  }

  lemma {:induction false} SequenceNumber(cfg: Settings, events: seq<Event>)
    ensures Run(cfg, Initial, events).nextID == Connects(events) % SEQ_LIMIT
  {
    hide Step, NextSeq;
    if events != [] {
      var before := events[..|events| - 1];
      SequenceNumber(cfg, before);
      StepSequence(cfg, Run(cfg, Initial, before), events[|events| - 1]);
      NextSeqCounts(Connects(before));
    }
  }

  lemma NextSeqCounts(n: nat)
    ensures NextSeq(n % SEQ_LIMIT) == (n + 1) % SEQ_LIMIT
  {}

  // Two connections get the same id exactly when a multiple of 2^64 connections lies between them.
  lemma IdsRepeatOnlyAfterWrap(cfg: Settings, first: seq<Event>, second: seq<Event>)
    ensures ClientId(NextSeq(Run(cfg, Initial, first).nextID)) == ClientId(NextSeq(Run(cfg, Initial, second).nextID))
      <==> (Connects(first) + 1) % SEQ_LIMIT == (Connects(second) + 1) % SEQ_LIMIT
  {
    SequenceNumber(cfg, first);
    SequenceNumber(cfg, second);
    NextSeqCounts(Connects(first));
    NextSeqCounts(Connects(second));
    hide Run, ClientId, NextSeq;
    var a, b := NextSeq(Run(cfg, Initial, first).nextID), NextSeq(Run(cfg, Initial, second).nextID);
    if ClientId(a) == ClientId(b) {
      ClientIdInjective(a, b);
    }
  }

  // ---- The sequence counter moves only on connections, in any state

  lemma JoinSequence(cfg: Settings, s: State, id: string, desired: string)
    requires id in s.sessions
    ensures JoinRoom(cfg, s, id, desired).nextID == s.nextID
  {
    hide Trim, SanitizeRoomName, NormalizeRoomKey, Greeting, IsLobby, NewRoom;
    var name := Wanted(cfg, desired);
    if name.Some? {
      var m := MoveClientRoom(s, id, name.value);
      if !m.already {
        var key := NormalizeRoomKey(name.value);
        GreetingKeepsRooms(cfg, m.state, id, Greeting(cfg, m.state.rooms[key]));
      }
    }
  }

  lemma StepSequence(cfg: Settings, s: State, e: Event)
    ensures Step(cfg, s, e).nextID == if e.Connected? then NextSeq(s.nextID) else s.nextID
  {
    hide Trim, ParseCommand, JoinRoom, NextSeq, Lower, ClientId, GuestName, SanitizeUserName, SplitMsg,
         ParseOptionalInt, Recent, Recalls, LastN, Format, IsLobby;
    match e
    case Connected =>
      var s1 := Register(s);
      if Lower(GuestName(s1.nextID)) !in s.names {
        JoinSequence(cfg, Notify(cfg, s1, ClientId(s1.nextID)), ClientId(s1.nextID), cfg.lobbyName);
      }
    case Input(id, line) =>
      if id in s.sessions {
        InputSequence(cfg, s, id, line);
      }
    case _ =>
  }

  lemma InputSequence(cfg: Settings, s: State, id: string, line: string)
    requires id in s.sessions
    ensures HandleInput(cfg, s, id, line).nextID == s.nextID
  {
    hide Trim, ParseCommand, JoinRoom, Lower, SanitizeUserName, SplitMsg, ParseOptionalInt, Recent, Recalls, LastN,
         Format, IsLobby;
    var t := Trim(line);
    if t != "" && t[0] == '/' {
      var c := ParseCommand(t);
      JoinSequence(cfg, s, id, c.args);
      JoinSequence(cfg, s, id, cfg.lobbyName);
      var room, limit := RoomOf(s, id), ParseOptionalInt(c.args, 10);
      if room.Some? && limit.Some? {
        var r := s.rooms[room.value];
        var lines := Recent(r.history, if limit.value <= 0 then 10 else limit.value);
        GreetingKeepsRooms(cfg, Notify(cfg, s, id), id, Recalls(r.name, lines));
      }
    }
  }
}
