// What every event keeps, for every run of the TCP chat server.
module ChatInvariants {
  import opened Text
  import opened Commands
  import opened ChatModel
  import opened Channels

  type Rooms = map<string, RoomView>
  type Sessions = map<string, Session>

  // ---- The invariant, one index at a time

  predicate WellNamed(key: string, r: RoomView) {
    r.name != "" && Tight(r.name) && key == r.key == Lower(r.name)
  }

  ghost predicate RoomsOk(rooms: Rooms) {
    forall k :: k in rooms ==> k != "" && WellNamed(k, rooms[k])
  }

  predicate InRoom(rooms: Rooms, k: string, id: string) {
    k in rooms && id in rooms[k].members
  }

  predicate HasSeat(sessions: Sessions, k: string, id: string) {
    id in sessions && k != "" && sessions[id].roomKey == k
  }

  // Membership of a registered room and the cached room key of a registered client are the same thing.
  ghost predicate SeatsOk(rooms: Rooms, sessions: Sessions) {
    forall k, id :: InRoom(rooms, k, id) <==> HasSeat(sessions, k, id)
  }

  predicate Owns(names: map<string, string>, n: string, id: string) {
    n in names && names[n] == id
  }

  predicate Bears(sessions: Sessions, n: string, id: string) {
    id in sessions && Lower(sessions[id].name) == n
  }

  // names and sessions are mutual inverses through the lower-cased name.
  ghost predicate NamesOk(sessions: Sessions, names: map<string, string>) {
    forall n, id :: Owns(names, n, id) <==> Bears(sessions, n, id)
  }

  ghost predicate BoxesOk(cfg: Settings, boxes: map<string, Box>) {
    forall id :: id in boxes ==> boxes[id].Valid(cfg.sendBufferSize) && !boxes[id].closed
  }

  // Stored texts never end in a line break, so trimming on the way out changes nothing.
  predicate Clean(text: string) {
    text != "" && text[|text| - 1] != '\r' && text[|text| - 1] != '\n'
  }

  // The kept window is the end of everything ever appended.
  ghost predicate LogOk(cfg: Settings, r: RoomView) {
    && r.history == LastN(r.log, cfg.historyLimit)
    && forall i :: 0 <= i < |r.log| ==> Clean(r.log[i])
  }

  ghost predicate HistoryOk(cfg: Settings, rooms: Rooms) {
    forall k :: k in rooms ==> LogOk(cfg, rooms[k])
  }

  // Every empty room is the lobby, or one still waiting for its cleanup.
  ghost predicate Collected(cfg: Settings, rooms: Rooms, pending: set<string>) {
    forall k :: k in rooms && k !in pending && rooms[k].members == {} ==> IsLobby(cfg, rooms[k])
  }

  ghost predicate Furnished(cfg: Settings, rooms: Rooms, pending: set<string>) {
    RoomsOk(rooms) && HistoryOk(cfg, rooms) && Collected(cfg, rooms, pending)
  }

  ghost predicate Coherent(cfg: Settings, s: State, pending: set<string>) {
    && Furnished(cfg, s.rooms, pending)
    && SeatsOk(s.rooms, s.sessions)
    && NamesOk(s.sessions, s.names)
    && s.boxes.Keys == s.sessions.Keys && BoxesOk(cfg, s.boxes)
  }

  ghost predicate Issued(id: string, n: nat) {
    exists m: nat :: 1 <= m <= n && id == ClientId(m)
  }

  ghost predicate IdsOk(ids: set<string>, n: nat) {
    forall id :: id in ids ==> Issued(id, n)
  }

  ghost predicate EveryoneJoined(sessions: Sessions) {
    forall id :: id in sessions ==> sessions[id].roomKey != ""
  }

  // ---- Sending touches only the queues

  lemma DeliverKeeps(cfg: Settings, s: State, to: set<string>, l: Line)
    requires BoxesOk(cfg, s.boxes)
    ensures BoxesOk(cfg, Deliver(cfg, s, to, l).boxes)
  {
    hide Subseq, Sanitized;
    forall id | id in s.boxes ensures s.boxes[id].Push(Sanitized(l), cfg.sendBufferSize).Valid(cfg.sendBufferSize) {
      PushValid(s.boxes[id], Sanitized(l), cfg.sendBufferSize);
    }
  }

  lemma SendKeeps(cfg: Settings, s: State, to: set<string>, l: Line, pending: set<string>)
    requires Coherent(cfg, s, pending)
    ensures Coherent(cfg, Deliver(cfg, s, to, l), pending)
  {
    DeliverKeeps(cfg, s, to, l);
    hide Furnished, SeatsOk, NamesOk, BoxesOk;
  }

  lemma {:induction false} SendAllKeeps(cfg: Settings, s: State, id: string, lines: seq<Line>, pending: set<string>)
    requires Coherent(cfg, s, pending)
    ensures var t := DeliverAll(cfg, s, id, lines); t == s.(boxes := t.boxes) && Coherent(cfg, t, pending)
  {
    hide Coherent;
    if lines != [] {
      var front := lines[..|lines| - 1];
      SendAllKeeps(cfg, s, id, front, pending);
      SendKeeps(cfg, DeliverAll(cfg, s, id, front), {id}, lines[|lines| - 1], pending);
    }
  }

  // ---- Moving between rooms

  // What sanitizing gives: the key is the lower-cased name.
  ghost predicate CleanName(name: string) {
    name != "" && Trim(name) == name && NormalizeRoomKey(name) == Lower(name) != ""
    && WellNamed(Lower(name), NewRoom(name))
  }

  lemma SanitizedKey(desired: string)
    requires SanitizeRoomName(desired).Some?
    ensures CleanName(SanitizeRoomName(desired).value)
  {
    hide Trim;
    TrimTight(SanitizeRoomName(desired).value);
  }

  function Pending(previous: Option<string>): set<string> {
    if previous.Some? then {previous.value} else {}
  }

  // The shape of a move, without the strings.
  lemma MoveShape(s: State, id: string, name: string)
    requires id in s.sessions && RoomsOk(s.rooms) && CleanName(name)
    ensures var m := MoveClientRoom(s, id, name);
      var key, current := Lower(name), s.sessions[id].roomKey;
      var listed := if key in s.rooms then s.rooms else s.rooms[key := NewRoom(name)];
      && m.already == (current == key)
      && m.previous == (if current != key && current in s.rooms then Some(current) else None)
      && m.state.names == s.names && m.state.boxes == s.boxes && m.state.nextID == s.nextID
      && listed[key].key == key
      && (if current == key then m.state.sessions == s.sessions && m.state.rooms == listed
          else
            && m.state.sessions == s.sessions[id := Session(s.sessions[id].name, key, listed[key].name)]
            && m.state.rooms ==
               (if current in s.rooms then listed[current := Without(listed[current], id)] else listed)
               [key := With(listed[key], id)])
  {
    hide Lower, Tight, Trim;
    assert "" !in s.rooms;
  }

  lemma MoveFurnished(cfg: Settings, s: State, id: string, name: string)
    requires id in s.sessions && Furnished(cfg, s.rooms, {}) && CleanName(name)
    ensures var m := MoveClientRoom(s, id, name);
      !m.already || Lower(name) in s.rooms ==> Furnished(cfg, m.state.rooms, Pending(m.previous))
  {
    assert LogOk(cfg, NewRoom(name));
    MoveShape(s, id, name);
    hide Lower, Tight, Trim, LastN, Clean, MoveClientRoom, NewRoom, IsLobby;
    var m := MoveClientRoom(s, id, name);
    var key, current := Lower(name), s.sessions[id].roomKey;
    var listed := if key in s.rooms then s.rooms else s.rooms[key := NewRoom(name)];
    if !m.already {
      var left := if current in s.rooms then listed[current := Without(listed[current], id)] else listed;
      SwapFurnished(cfg, listed, current, id, key);
      assert m.state.rooms == left[key := With(left[key], id)];
    }
  }

  // Taking a member out of one room and putting it into another.
  lemma SwapFurnished(cfg: Settings, rooms: Rooms, current: string, id: string, key: string)
    requires key in rooms && RoomsOk(rooms) && HistoryOk(cfg, rooms) && Collected(cfg, rooms, {key}) && current != key
    ensures var left := if current in rooms then rooms[current := Without(rooms[current], id)] else rooms;
      Furnished(cfg, left[key := With(left[key], id)], {current})
    ensures current !in rooms ==> Furnished(cfg, rooms[key := With(rooms[key], id)], {})
  {
    hide Lower, Tight, LastN, Clean, IsLobby;
  }

  lemma MoveSeats(s: State, id: string, name: string)
    requires id in s.sessions && RoomsOk(s.rooms) && SeatsOk(s.rooms, s.sessions) && CleanName(name)
    ensures var m := MoveClientRoom(s, id, name);
      m.already ==> m.state == s && Lower(name) in s.rooms
    ensures var t := MoveClientRoom(s, id, name).state; SeatsOk(t.rooms, t.sessions)
  {
    var m := MoveClientRoom(s, id, name);
    MoveShape(s, id, name);
    assert InRoom(s.rooms, s.sessions[id].roomKey, id) <==> HasSeat(s.sessions, s.sessions[id].roomKey, id);
    if !m.already {
      var t := m.state;
      forall k, x ensures InRoom(t.rooms, k, x) <==> HasSeat(t.sessions, k, x) {
        hide RoomsOk, Lower, Trim, Tight, MoveClientRoom;
        assert InRoom(s.rooms, k, x) <==> HasSeat(s.sessions, k, x);
      }
    }
  }

  lemma MoveKeeps(cfg: Settings, s: State, id: string, name: string)
    requires id in s.sessions && Coherent(cfg, s, {}) && CleanName(name)
    ensures var m := MoveClientRoom(s, id, name);
      && Coherent(cfg, m.state, Pending(m.previous))
      && m.state.sessions.Keys == s.sessions.Keys && m.state.nextID == s.nextID
      && (forall x :: x in s.sessions && x != id ==> m.state.sessions[x] == s.sessions[x])
      && m.state.sessions[id].roomKey == Lower(name) && Lower(name) in m.state.rooms
  {
    MoveSeats(s, id, name);
    MoveFurnished(cfg, s, id, name);
    MoveShape(s, id, name);
    NamesKept(s, MoveClientRoom(s, id, name).state);
    hide RoomsOk, HistoryOk, Collected, SeatsOk, NamesOk, BoxesOk, MoveClientRoom, CleanName, Lower;
  }

  lemma NamesKept(s: State, t: State)
    requires s.names == t.names && s.sessions.Keys == t.sessions.Keys
    requires forall x :: x in s.sessions ==> t.sessions[x].name == s.sessions[x].name
    ensures NamesOk(s.sessions, s.names) ==> NamesOk(t.sessions, t.names)
  {
    hide Lower;
    if NamesOk(s.sessions, s.names) {
      forall n, id ensures Owns(t.names, n, id) <==> Bears(t.sessions, n, id) {
        assert Owns(s.names, n, id) <==> Bears(s.sessions, n, id);
      }
    }
  }

  lemma CleanupKeeps(cfg: Settings, s: State, key: string)
    requires key in s.rooms && Coherent(cfg, s, {key})
    ensures var t := CleanupRoom(cfg, s, key); t == s.(rooms := t.rooms) && Coherent(cfg, t, {})
    ensures CleanupRoom(cfg, s, key).rooms.Keys >= s.rooms.Keys - {key}
  {
    hide Lower, Tight, LastN, Clean, NamesOk, BoxesOk, IsLobby;
    var t := CleanupRoom(cfg, s, key);
    forall k, x ensures InRoom(t.rooms, k, x) <==> HasSeat(t.sessions, k, x) {
      assert InRoom(s.rooms, k, x) <==> HasSeat(s.sessions, k, x);
    }
  }

  lemma LeaveKeeps(cfg: Settings, s: State, id: string, previous: Option<string>)
    requires Coherent(cfg, s, Pending(previous))
    ensures var t := Leave(cfg, s, id, previous);
      t == s.(rooms := t.rooms, boxes := t.boxes) && Coherent(cfg, t, {})
  {
    hide Furnished, SeatsOk, NamesOk, BoxesOk, CleanupRoom;
    if previous.Some? && previous.value in s.rooms {
      var k := previous.value;
      SendKeeps(cfg, s, s.rooms[k].members - {id}, Announcement(s.rooms[k].name), {k});
      CleanupKeeps(cfg, Announce(cfg, s, k, {id}), k);
    } else if previous.Some? {
      NothingPending(cfg, s.rooms, previous.value);
    }
  }

  lemma NothingPending(cfg: Settings, rooms: Rooms, key: string)
    requires key !in rooms && Furnished(cfg, rooms, {key})
    ensures Furnished(cfg, rooms, {})
  {
    hide RoomsOk, HistoryOk, IsLobby;
  }

  lemma GreetAndLeaveKeeps(cfg: Settings, s: State, id: string, key: string, previous: Option<string>)
    requires Coherent(cfg, s, Pending(previous)) && key in s.rooms
    ensures DeliverAll(cfg, s, id, Greeting(cfg, s.rooms[key])).rooms == s.rooms
    ensures var greeted := DeliverAll(cfg, s, id, Greeting(cfg, s.rooms[key]));
      var t := Leave(cfg, Announce(cfg, greeted, key, {id}), id, previous);
      t == s.(rooms := t.rooms, boxes := t.boxes) && Coherent(cfg, t, {})
  {
    hide Coherent, Greeting, Leave, Pending;
    SendAllKeeps(cfg, s, id, Greeting(cfg, s.rooms[key]), Pending(previous));
    var greeted := DeliverAll(cfg, s, id, Greeting(cfg, s.rooms[key]));
    SendKeeps(cfg, greeted, greeted.rooms[key].members - {id}, Announcement(greeted.rooms[key].name),
      Pending(previous));
    LeaveKeeps(cfg, Announce(cfg, greeted, key, {id}), id, previous);
  }

  // The room a join asks for; None when its name is refused.
  function Wanted(cfg: Settings, desired: string): Option<string> {
    SanitizeRoomName(if Trim(desired) == "" then cfg.lobbyName else desired)
  }

  lemma JoinKeeps(cfg: Settings, s: State, id: string, desired: string)
    requires Coherent(cfg, s, {}) && id in s.sessions
    ensures var t := JoinRoom(cfg, s, id, desired);
      && Coherent(cfg, t, {}) && t.nextID == s.nextID
      && t.sessions.Keys == s.sessions.Keys
      && (forall x :: x in s.sessions && x != id ==> t.sessions[x] == s.sessions[x])
      && (Wanted(cfg, desired).Some? ==> t.sessions[id].roomKey != "")
      && (Wanted(cfg, desired).None? ==> t.sessions == s.sessions)
  {
    hide Coherent, MoveClientRoom, Leave, Announce, Greeting, SanitizeRoomName, Trim, NormalizeRoomKey, Lower;
    var name := Wanted(cfg, desired);
    if name.None? {
      SendKeeps(cfg, s, {id}, Notice, {});
    } else {
      SanitizedKey(if Trim(desired) == "" then cfg.lobbyName else desired);
      var m := MoveClientRoom(s, id, name.value);
      MoveKeeps(cfg, s, id, name.value);
      if m.already {
        AlreadyHasNoPrevious(s, id, name.value);
        SendKeeps(cfg, m.state, {id}, Notice, {});
      } else {
        GreetAndLeaveKeeps(cfg, m.state, id, Lower(name.value), m.previous);
      }
    }
  }

  lemma AlreadyHasNoPrevious(s: State, id: string, name: string)
    requires id in s.sessions && MoveClientRoom(s, id, name).already
    ensures Pending(MoveClientRoom(s, id, name).previous) == {}
  {}

  // ---- Removing, connecting, renaming

  // removeClient before its announcement
  function Removed(cfg: Settings, s: State, id: string): State
    requires id in s.sessions
  {
    var me := s.sessions[id];
    s.(sessions := s.sessions - {id}, names := s.names - {Lower(me.name)}, boxes := s.boxes - {id},
       rooms :=
         if me.roomKey == "" || me.roomKey !in s.rooms then s.rooms
         else if Without(s.rooms[me.roomKey], id).members == {} && !IsLobby(cfg, s.rooms[me.roomKey])
         then s.rooms - {me.roomKey}
         else s.rooms[me.roomKey := Without(s.rooms[me.roomKey], id)])
  }

  lemma RemovedShape(cfg: Settings, s: State, id: string)
    requires id in s.sessions
    ensures var r, key := Removed(cfg, s, id), s.sessions[id].roomKey;
      RemoveClient(cfg, s, id) == if key != "" && key in r.rooms then Announce(cfg, r, key, {id}) else r
  {
    hide Lower;
  }

  lemma RemovedRooms(cfg: Settings, s: State, id: string)
    requires Furnished(cfg, s.rooms, {}) && SeatsOk(s.rooms, s.sessions) && id in s.sessions
    ensures var t := Removed(cfg, s, id); Furnished(cfg, t.rooms, {}) && SeatsOk(t.rooms, t.sessions)
  {
    hide Lower, Tight, LastN, Clean;
    var t, key := Removed(cfg, s, id), s.sessions[id].roomKey;
    forall k, x ensures InRoom(t.rooms, k, x) <==> HasSeat(t.sessions, k, x) {
      assert InRoom(s.rooms, k, x) <==> HasSeat(s.sessions, k, x);
      assert InRoom(s.rooms, k, id) <==> HasSeat(s.sessions, k, id);
      assert InRoom(s.rooms, key, id) <==> HasSeat(s.sessions, key, id);
    }
  }

  lemma RemovedNames(cfg: Settings, s: State, id: string)
    requires NamesOk(s.sessions, s.names) && id in s.sessions
    ensures var t := Removed(cfg, s, id); NamesOk(t.sessions, t.names)
  {
    hide Lower, IsLobby;
    var t := Removed(cfg, s, id);
    forall n, x ensures Owns(t.names, n, x) <==> Bears(t.sessions, n, x) {
      assert Owns(s.names, n, x) <==> Bears(s.sessions, n, x);
      assert Owns(s.names, Lower(s.sessions[id].name), id) <==> Bears(s.sessions, Lower(s.sessions[id].name), id);
    }
  }

  lemma RemoveKeeps(cfg: Settings, s: State, id: string)
    requires Coherent(cfg, s, {}) && id in s.sessions
    ensures var t := RemoveClient(cfg, s, id);
      Coherent(cfg, t, {}) && t.nextID == s.nextID && t.sessions == s.sessions - {id}
  {
    RemovedShape(cfg, s, id);
    RemovedRooms(cfg, s, id);
    RemovedNames(cfg, s, id);
    hide Furnished, SeatsOk, NamesOk, RemoveClient;
    var t, key := Removed(cfg, s, id), s.sessions[id].roomKey;
    assert BoxesOk(cfg, t.boxes);
    if key != "" && key in t.rooms {
      SendKeeps(cfg, t, t.rooms[key].members - {id}, Announcement(t.rooms[key].name), {});
    }
  }

  lemma RegisterKeeps(cfg: Settings, s: State)
    requires Coherent(cfg, s, {}) && ClientId(NextSeq(s.nextID)) !in s.sessions
    ensures Coherent(cfg, Register(s), {})
  {
    hide Furnished, Lower, ClientId, GuestName, NextSeq;
    var t := Register(s);
    forall k, x ensures InRoom(t.rooms, k, x) <==> HasSeat(t.sessions, k, x) {
      assert InRoom(s.rooms, k, x) <==> HasSeat(s.sessions, k, x);
    }
    forall n, x ensures Owns(t.names, n, x) <==> Bears(t.sessions, n, x) {
      assert Owns(s.names, n, x) <==> Bears(s.sessions, n, x);
    }
  }

  // A refused connection, or one that is registered, welcomed and sent to the lobby.
  lemma ConnectIs(cfg: Settings, s: State)
    ensures var n := NextSeq(s.nextID);
      if Lower(GuestName(n)) in s.names then Connect(cfg, s) == Register(s) == s.(nextID := n)
      else
        && Connect(cfg, s) == JoinRoom(cfg, Notify(cfg, Register(s), ClientId(n)), ClientId(n), cfg.lobbyName)
        && Register(s).sessions == s.sessions[ClientId(n) := Session(GuestName(n), "", "")] && Register(s).nextID == n
  {
    hide Lower, ClientId, GuestName, NextSeq, JoinRoom, Notify;
  }

  // The welcome, then the lobby.
  lemma WelcomeKeeps(cfg: Settings, s: State, id: string)
    requires Coherent(cfg, s, {}) && id in s.sessions
    ensures var t := JoinRoom(cfg, Notify(cfg, s, id), id, cfg.lobbyName);
      && Coherent(cfg, t, {}) && t.nextID == s.nextID && t.sessions.Keys == s.sessions.Keys
      && (forall x :: x in s.sessions && x != id ==> t.sessions[x] == s.sessions[x])
      && (Wanted(cfg, cfg.lobbyName).Some? ==> t.sessions[id].roomKey != "")
  {
    hide Coherent, JoinRoom, Wanted, Deliver;
    SendKeeps(cfg, s, {id}, Notice, {});
    SendIsOutside(cfg, s, {id}, Notice);
    JoinKeeps(cfg, Notify(cfg, s, id), id, cfg.lobbyName);
  }

  lemma SendIsOutside(cfg: Settings, s: State, to: set<string>, l: Line)
    ensures Deliver(cfg, s, to, l).sessions == s.sessions && Deliver(cfg, s, to, l).nextID == s.nextID
  {}

  lemma ConnectKeeps(cfg: Settings, s: State)
    requires Coherent(cfg, s, {}) && ClientId(NextSeq(s.nextID)) !in s.sessions
    ensures var t := Connect(cfg, s);
      && Coherent(cfg, t, {}) && t.nextID == NextSeq(s.nextID)
      && t.sessions.Keys <= s.sessions.Keys + {ClientId(t.nextID)}
      && (forall x :: x in s.sessions ==> x in t.sessions && t.sessions[x] == s.sessions[x])
      && (Wanted(cfg, cfg.lobbyName).Some? && ClientId(t.nextID) in t.sessions ==>
           t.sessions[ClientId(t.nextID)].roomKey != "")
  {
    hide Coherent, Lower, ClientId, GuestName, NextSeq, JoinRoom, Wanted, Register, Notify, Connect;
    RegisterKeeps(cfg, s);
    ConnectIs(cfg, s);
    if Lower(GuestName(NextSeq(s.nextID))) !in s.names {
      WelcomeKeeps(cfg, Register(s), ClientId(NextSeq(s.nextID)));
    }
  }

  lemma RenameKeeps(cfg: Settings, s: State, id: string, name: string)
    requires Coherent(cfg, s, {}) && id in s.sessions && Lower(name) !in s.names
    ensures Coherent(cfg, Rename(s, id, name), {})
  {
    hide Furnished, Lower, BoxesOk;
    var t := Rename(s, id, name);
    forall k, x ensures InRoom(t.rooms, k, x) <==> HasSeat(t.sessions, k, x) {
      assert InRoom(s.rooms, k, x) <==> HasSeat(s.sessions, k, x);
    }
    forall n, x ensures Owns(t.names, n, x) <==> Bears(t.sessions, n, x) {
      assert Owns(s.names, n, x) <==> Bears(s.sessions, n, x);
      assert Owns(s.names, n, id) <==> Bears(s.sessions, n, id);
      assert Owns(s.names, Lower(s.sessions[id].name), x) <==> Bears(s.sessions, Lower(s.sessions[id].name), x);
      assert Owns(s.names, Lower(s.sessions[id].name), id) <==> Bears(s.sessions, Lower(s.sessions[id].name), id);
    }
  }

  // ---- One command

  // What a command that neither joins nor quits leaves alone.
  ghost predicate SameSeats(s: State, t: State) {
    && t.sessions.Keys == s.sessions.Keys && t.nextID == s.nextID
    && forall x :: x in s.sessions ==> t.sessions[x].roomKey == s.sessions[x].roomKey
  }

  lemma NickKeeps(cfg: Settings, s: State, id: string, args: string)
    requires Coherent(cfg, s, {}) && id in s.sessions
    ensures var t := Nick(cfg, s, id, args); Coherent(cfg, t, {}) && SameSeats(s, t)
  {
    hide Coherent, Lower, Trim, SanitizeUserName;
    var name := SanitizeUserName(args);
    if Trim(args) == "" || name.None? || Lower(name.value) in s.names {
      SendKeeps(cfg, s, {id}, Notice, {});
    } else {
      RenameKeeps(cfg, s, id, name.value);
      var s0 := Rename(s, id, name.value);
      SendKeeps(cfg, s0, {id}, Notice, {});
      var s1 := Notify(cfg, s0, id);
      var room := RoomOf(s1, id);
      if room.Some? {
        SendKeeps(cfg, s1, s1.rooms[room.value].members - {id}, Announcement(s1.rooms[room.value].name), {});
      }
    }
  }

  lemma DirectMessageKeeps(cfg: Settings, s: State, id: string, target: string, text: string)
    requires Coherent(cfg, s, {}) && id in s.sessions
    ensures var t := DirectMessage(cfg, s, id, target, text); Coherent(cfg, t, {}) && t == s.(boxes := t.boxes)
  {
    hide Coherent, Lower, Trim;
    var key, body := Lower(target), Trim(text);
    if key !in s.names || body == "" {
      SendKeeps(cfg, s, {id}, Notice, {});
    } else {
      var to := s.names[key];
      var toName := if to in s.sessions then s.sessions[to].name else target;
      SendKeeps(cfg, s, {to}, Direct(true, s.sessions[id].name, body), {});
      SendKeeps(cfg, Deliver(cfg, s, {to}, Direct(true, s.sessions[id].name, body)), {id},
        Direct(false, toName, body), {});
    }
  }

  lemma MsgKeeps(cfg: Settings, s: State, id: string, args: string)
    requires Coherent(cfg, s, {}) && id in s.sessions
    ensures var t := Msg(cfg, s, id, args); Coherent(cfg, t, {}) && t == s.(boxes := t.boxes)
  {
    hide Coherent, SplitMsg, DirectMessage;
    match SplitMsg(args)
    case Send(target, text) => DirectMessageKeeps(cfg, s, id, target, text);
    case _ => SendKeeps(cfg, s, {id}, Notice, {});
  }

  // Replacing one room by one with the same identity and members keeps the invariant.
  lemma RoomUpdateKeeps(cfg: Settings, s: State, key: string, r: RoomView)
    requires Coherent(cfg, s, {}) && key in s.rooms
    requires r.key == s.rooms[key].key && r.name == s.rooms[key].name && r.members == s.rooms[key].members
    requires LogOk(cfg, r)
    ensures Coherent(cfg, s.(rooms := s.rooms[key := r]), {})
  {
    hide Lower, Tight, LastN, Clean, NamesOk, BoxesOk;
    var t := s.(rooms := s.rooms[key := r]);
    forall k, x ensures InRoom(t.rooms, k, x) <==> HasSeat(t.sessions, k, x) {
      assert InRoom(s.rooms, k, x) <==> HasSeat(s.sessions, k, x);
    }
  }

  lemma WindowOf(cfg: Settings, s: State, key: string)
    requires Coherent(cfg, s, {}) && key in s.rooms
    ensures LogOk(cfg, s.rooms[key])
  {
    hide RoomsOk, Collected, SeatsOk, NamesOk, BoxesOk, LastN, Clean;
  }

  lemma TopicKeeps(cfg: Settings, s: State, id: string, args: string)
    requires Coherent(cfg, s, {}) && id in s.sessions
    ensures var t := Topic(cfg, s, id, args); Coherent(cfg, t, {}) && SameSeats(s, t)
  {
    hide Coherent, Trim, LastN, Clean;
    var room := RoomOf(s, id);
    if room.None? || Trim(args) == "" {
      SendKeeps(cfg, s, {id}, Notice, {});
    } else {
      var r := s.rooms[room.value].(topic := Trim(args));
      WindowOf(cfg, s, room.value);
      RoomUpdateKeeps(cfg, s, room.value, r);
      SendKeeps(cfg, s.(rooms := s.rooms[room.value := r]), r.members - {}, Announcement(r.name), {});
    }
  }

  lemma HistoryKeeps(cfg: Settings, s: State, id: string, args: string)
    requires Coherent(cfg, s, {}) && id in s.sessions
    ensures var t := History(cfg, s, id, args); Coherent(cfg, t, {}) && t == s.(boxes := t.boxes)
  {
    hide Coherent, Recent, ParseOptionalInt, Recalls;
    SendKeeps(cfg, s, {id}, Notice, {});
    var room, limit := RoomOf(s, id), ParseOptionalInt(args, 10);
    if room.Some? && limit.Some? {
      var r := s.rooms[room.value];
      var lines := Recent(r.history, if limit.value <= 0 then 10 else limit.value);
      SendAllKeeps(cfg, Notify(cfg, s, id), id, Recalls(r.name, lines), {});
    }
  }

  lemma AppendKeepsLog(cfg: Settings, r: RoomView, text: string)
    requires LogOk(cfg, r) && Clean(text)
    ensures LogOk(cfg, AppendHistory(cfg, r, text))
  {
    WindowAppend(r.log, text, cfg.historyLimit);
    hide Clean, LastN;
  }

  lemma AppendKeepsRoom(cfg: Settings, r: RoomView, text: string)
    ensures var t := AppendHistory(cfg, r, text);
      t.key == r.key && t.name == r.name && t.topic == r.topic && t.members == r.members && t.log == r.log + [text]
  {}

  // What handleInput stores: the text ends with the end of tight, non-empty input.
  lemma SpokenIsClean(prefix: string, text: string)
    requires text != "" && Tight(text)
    ensures Clean(prefix + text)
  {}

  lemma SpeakKeeps(cfg: Settings, s: State, id: string, text: string)
    requires Coherent(cfg, s, {}) && id in s.sessions && Clean(text)
    ensures var t := Speak(cfg, s, id, text); Coherent(cfg, t, {}) && SameSeats(s, t)
  {
    hide Coherent, LogOk, Format, Clean, AppendHistory;
    var room := RoomOf(s, id);
    if room.None? {
      SendKeeps(cfg, s, {id}, Notice, {});
    } else {
      var r := s.rooms[room.value];
      WindowOf(cfg, s, room.value);
      AppendKeepsLog(cfg, r, text);
      AppendKeepsRoom(cfg, r, text);
      RoomUpdateKeeps(cfg, s, room.value, AppendHistory(cfg, r, text));
      SendKeeps(cfg, s.(rooms := s.rooms[room.value := AppendHistory(cfg, r, text)]), r.members,
        Stored(Format(r.name, text)), {});
    }
  }

  // What one event may do to the set of clients: nobody else leaves or moves.
  ghost predicate Bounded(cfg: Settings, s: State, t: State) {
    && t.sessions.Keys <= s.sessions.Keys && t.nextID == s.nextID
    && (Wanted(cfg, cfg.lobbyName).Some? && EveryoneJoined(s.sessions) ==> EveryoneJoined(t.sessions))
  }

  lemma ExecuteKeeps(cfg: Settings, s: State, id: string, cmd: string, args: string)
    requires Coherent(cfg, s, {}) && id in s.sessions && Tight(args)
    ensures var t := Execute(cfg, s, id, cmd, args); Coherent(cfg, t, {}) && Bounded(cfg, s, t)
  {
    hide Coherent, Clean, Tight, Nick, JoinRoom, Msg, Topic, History, Speak, RemoveClient, Trim, Wanted;
    if cmd == "nick" { NickKeeps(cfg, s, id, args); }
    else if cmd == "join" { JoinKeeps(cfg, s, id, args); }
    else if cmd == "leave" { JoinKeeps(cfg, s, id, cfg.lobbyName); }
    else if cmd == "msg" { MsgKeeps(cfg, s, id, args); }
    else if cmd == "topic" { TopicKeeps(cfg, s, id, args); }
    else if cmd == "history" { HistoryKeeps(cfg, s, id, args); }
    else {
      SendKeeps(cfg, s, {id}, Notice, {});
      if cmd == "me" && Trim(args) != "" {
        assert args != "" by { TrimTight(args); }
        SpokenIsClean("* " + s.sessions[id].name + " ", args);
        SpeakKeeps(cfg, s, id, "* " + s.sessions[id].name + " " + args);
      }
      if cmd == "quit" || cmd == "exit" { RemoveKeeps(cfg, Notify(cfg, s, id), id); }
    }
  }

  lemma InputKeeps(cfg: Settings, s: State, id: string, line: string)
    requires Coherent(cfg, s, {}) && id in s.sessions
    ensures var t := HandleInput(cfg, s, id, line); Coherent(cfg, t, {}) && Bounded(cfg, s, t)
  {
    hide Coherent, Clean, Tight, Execute, Speak, Trim, ParseCommand, Wanted;
    var t := Trim(line);
    if t != "" && t[0] == '/' {
      var c := ParseCommand(t);
      ParseIsTypable(t);
      ExecuteKeeps(cfg, s, id, c.cmd, c.args);
    } else if t != "" {
      SpokenIsClean(s.sessions[id].name + ": ", t);
      SpeakKeeps(cfg, s, id, s.sessions[id].name + ": " + t);
    }
  }

  // ---- One event, every run

  // An event keeps the invariant; a connection needs an id that is not in use.
  lemma StepKeeps(cfg: Settings, s: State, e: Event)
    requires Coherent(cfg, s, {})
    requires e.Connected? ==> ClientId(NextSeq(s.nextID)) !in s.sessions
    ensures Coherent(cfg, Step(cfg, s, e), {})
    ensures Wanted(cfg, cfg.lobbyName).Some? && EveryoneJoined(s.sessions) ==> EveryoneJoined(Step(cfg, s, e).sessions)
    ensures Step(cfg, s, e).nextID == if e.Connected? then NextSeq(s.nextID) else s.nextID
    ensures Step(cfg, s, e).sessions.Keys <= s.sessions.Keys +
      if e.Connected? then {ClientId(NextSeq(s.nextID))} else {}
  {
    hide Furnished, SeatsOk, NamesOk, Connect, HandleInput, RemoveClient, Wanted, ClientId, NextSeq;
    match e
    case Connected => ConnectKeeps(cfg, s);
    case Input(id, line) => if id in s.sessions { InputKeeps(cfg, s, id, line); }
    case Disconnected(id) => if id in s.sessions { RemoveKeeps(cfg, s, id); }
    case Taken(id) =>
  }

  lemma ClientIdInjective(a: nat, b: nat)
    requires ClientId(a) == ClientId(b)
    ensures a == b
  {
    assert ClientId(a)[7..] == Decimal(a) && ClientId(b)[7..] == Decimal(b);
    DecimalInjective(a, b);
  }

  lemma FreshId(ids: set<string>, n: nat)
    requires IdsOk(ids, n) && n + 1 < SEQ_LIMIT
    ensures ClientId(NextSeq(n)) !in ids
  {
    hide ClientId;
    if ClientId(NextSeq(n)) in ids {
      var m: nat :| 1 <= m <= n && ClientId(NextSeq(n)) == ClientId(m);
      ClientIdInjective(NextSeq(n), m);
    }
  }

  lemma IdsGrow(ids: set<string>, n: nat, more: set<string>)
    requires IdsOk(ids, n) && more <= ids + {ClientId(n + 1)}
    ensures IdsOk(more, n + 1)
  {
    hide ClientId;
    forall id | id in more ensures Issued(id, n + 1) {
      if id in ids {
        var k: nat :| 1 <= k <= n && id == ClientId(k);
      } else {
        assert id == ClientId(n + 1);
      }
    }
  }

  lemma IdsShrink(ids: set<string>, n: nat, fewer: set<string>)
    requires IdsOk(ids, n) && fewer <= ids
    ensures IdsOk(fewer, n)
  {}

  // Everything that holds between events.
  ghost predicate Good(cfg: Settings, s: State) {
    && Coherent(cfg, s, {}) && IdsOk(s.sessions.Keys, s.nextID)
    && (Wanted(cfg, cfg.lobbyName).Some? ==> EveryoneJoined(s.sessions))
  }

  lemma GoodStep(cfg: Settings, s: State, e: Event)
    requires Good(cfg, s) && (e.Connected? ==> s.nextID + 1 < SEQ_LIMIT)
    ensures Good(cfg, Step(cfg, s, e))
    ensures Step(cfg, s, e).nextID == s.nextID + if e.Connected? then 1 else 0
  {
    hide Coherent, IdsOk, EveryoneJoined, Step, Wanted, ClientId;
    var t := Step(cfg, s, e);
    if e.Connected? {
      FreshId(s.sessions.Keys, s.nextID);
      StepKeeps(cfg, s, e);
      IdsGrow(s.sessions.Keys, s.nextID, t.sessions.Keys);
    } else {
      StepKeeps(cfg, s, e);
      IdsShrink(s.sessions.Keys, s.nextID, t.sessions.Keys);
    }
  }

  lemma GoodInitially(cfg: Settings)
    ensures Good(cfg, Initial)
  {}

  // Room coherence, the name index, the history windows and room collection hold after
  // every run with fewer than 2^64 connections.
  lemma {:induction false} RunKeeps(cfg: Settings, events: seq<Event>)
    requires Connects(events) < SEQ_LIMIT
    ensures Good(cfg, Run(cfg, Initial, events)) && Run(cfg, Initial, events).nextID == Connects(events)
  {
    hide Good, Step;
    if events == [] {
      GoodInitially(cfg);
    } else {
      var before := events[..|events| - 1];
      RunKeeps(cfg, before);
      GoodStep(cfg, Run(cfg, Initial, before), events[|events| - 1]);
    }
  }
}
