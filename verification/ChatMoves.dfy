// Joining, leaving, coming and going: what each does to the whole server.
module ChatMoves {
  import opened Text
  import opened Commands
  import opened Channels
  import opened ChatModel
  import opened ChatInvariants
  import opened ChatEffects
  import opened ChatTyped

  // ---- What a move is

  ghost predicate GoodRoom(n: string) {
    Tight(n) && 1 <= |n| <= 32 && forall i :: 0 <= i < |n| ==> Letter(n[i]) || n[i] == ' '
  }

  // The room at the key of n, or the one opened for it.
  function Opened(s: State, n: string): RoomView {
    if Lower(n) in s.rooms then s.rooms[Lower(n)] else RoomView(Lower(n), n, "", {}, [], [])
  }

  // What a newcomer is sent: the room joined, its topic if it has one, and what its log keeps.
  function Greets(cfg: Settings, r: RoomView): seq<Line> {
    var kept := Tail(r.log, cfg.historyLimit);
    [Notice] + (if r.topic == "" then [] else [Notice]) + (if kept == [] then [] else [Notice] + Repeats(r.name, kept))
  }

  function Repeats(room: string, entries: seq<string>): seq<Line> {
    seq(|entries|, i requires 0 <= i < |entries| => Replayed("[" + room + "] " + entries[i]))
  }

  // Without id the room at key is empty, and it is not the lobby.
  predicate Vanishes(cfg: Settings, s: State, key: string, id: string) {
    key in s.rooms && s.rooms[key].members - {id} == {} && Lower(s.rooms[key].name) != Lower(cfg.lobbyName)
  }

  function Told(s: State, key: string, x: string): seq<Line> {
    if key in s.rooms && x in s.rooms[key].members then [Announcement(s.rooms[key].name)] else []
  }

  // id sits in the room of that name and nowhere else; the room it left is gone if that emptied it.
  ghost predicate Seats(cfg: Settings, s: State, t: State, id: string, n: string)
    requires id in s.sessions
  {
    var me, k, room := s.sessions[id], Lower(n), Opened(s, n);
    && t.sessions == s.sessions[id := Session(me.name, k, room.name)] && t.names == s.names && t.nextID == s.nextID
    && (forall j :: j in t.rooms <==> j == k || (j in s.rooms && !(j == me.roomKey && Vanishes(cfg, s, j, id))))
    && t.rooms[k] == room.(members := room.members + {id})
    && (forall j :: j in t.rooms && j != k ==> t.rooms[j] == s.rooms[j].(members := s.rooms[j].members - {id}))
    && t.boxes.Keys == s.boxes.Keys
    && forall x :: x in s.boxes ==>
         Queues(cfg.sendBufferSize, s.boxes[x], t.boxes[x],
                if x == id then Greets(cfg, room) else Told(s, k, x) + Told(s, me.roomKey, x))
  }

  lemma GoodRooms(desired: string)
    ensures SanitizeRoomName(desired) == if GoodRoom(Trim(desired)) then Some(Trim(desired)) else None
  {
    hide Trim;
    assert forall c :: RoomNameChar(c) <==> Letter(c) || c == ' ';
  }

  // ---- The move itself

  // The seats are changed, nothing is sent yet, and the room left is not yet looked at.
  ghost predicate Reseated(s: State, t: State, id: string, n: string)
    requires id in s.sessions
  {
    var me, k, room := s.sessions[id], Lower(n), Opened(s, n);
    && t.sessions == s.sessions[id := Session(me.name, k, room.name)] && t.names == s.names && t.nextID == s.nextID
    && t.rooms.Keys == s.rooms.Keys + {k} && t.rooms[k] == room.(members := room.members + {id})
    && (forall j :: j in t.rooms && j != k ==> t.rooms[j] == s.rooms[j].(members := s.rooms[j].members - {id}))
    && t.boxes == s.boxes
  }

  lemma NewRoomIs(n: string)
    requires CleanName(n)
    ensures NewRoom(n) == RoomView(Lower(n), n, "", {}, [], [])
  {}

  // Whoever has a seat has it in one room only.
  lemma OnlyThere(cfg: Settings, s: State, id: string)
    requires Coherent(cfg, s, {}) && id in s.sessions
    ensures forall j :: j in s.rooms && j != s.sessions[id].roomKey ==>
      s.rooms[j].(members := s.rooms[j].members - {id}) == s.rooms[j]
  {
    hide Furnished, NamesOk, BoxesOk;
    forall j | j in s.rooms && j != s.sessions[id].roomKey ensures s.rooms[j].members - {id} == s.rooms[j].members {
      assert InRoom(s.rooms, j, id) <==> HasSeat(s.sessions, j, id);
    }
  }

  lemma MoveReseats(cfg: Settings, s: State, id: string, n: string)
    requires Coherent(cfg, s, {}) && id in s.sessions && CleanName(n) && s.sessions[id].roomKey != Lower(n)
    ensures var m := MoveClientRoom(s, id, n);
      && !m.already && Reseated(s, m.state, id, n)
      && m.previous == (if s.sessions[id].roomKey in s.rooms then Some(s.sessions[id].roomKey) else None)
  {
    hide Coherent, MoveClientRoom, CleanName, Lower, NewRoom, Without, With;
    RoomsAre(cfg, s);
    MoveShape(s, id, n);
    NewRoomIs(n);
    OnlyThere(cfg, s, id);
    RoomsMoved(s.rooms, s.sessions[id].roomKey, Lower(n), NewRoom(n), id);
  }

  lemma RoomsMoved(rooms: Rooms, from: string, k: string, made: RoomView, id: string)
    requires from != k
    requires forall j :: j in rooms && j != from ==> rooms[j].(members := rooms[j].members - {id}) == rooms[j]
    ensures var listed := if k in rooms then rooms else rooms[k := made];
      var t := (if from in rooms then listed[from := Without(listed[from], id)] else listed)[k := With(listed[k], id)];
      && t.Keys == rooms.Keys + {k} && t[k] == listed[k].(members := listed[k].members + {id})
      && (forall j :: j in t && j != k ==> t[j] == rooms[j].(members := rooms[j].members - {id}))
  {}

  // ---- What is sent, one client at a time

  lemma RepeatsIs(room: string, entries: seq<string>)
    requires forall i :: 0 <= i < |entries| ==> Clean(entries[i])
    ensures Replays(room, entries) == Repeats(room, entries)
    ensures var lines := Repeats(room, entries); forall i :: 0 <= i < |lines| ==> Sanitized(lines[i]) == lines[i]
  {
    forall i | 0 <= i < |entries| ensures Sanitized(Replays(room, entries)[i]) == Repeats(room, entries)[i] {
      CleanLine(room, entries[i]);
    }
  }

  lemma GreetingIs(cfg: Settings, r: RoomView)
    requires LogOk(cfg, r)
    ensures Greeting(cfg, r) == Greets(cfg, r)
    ensures var lines := Greets(cfg, r); forall i :: 0 <= i < |lines| ==> Sanitized(lines[i]) == lines[i]
  {
    TailIs(r.log, cfg.historyLimit);
    var kept := Tail(r.log, cfg.historyLimit);
    assert forall i :: 0 <= i < |kept| ==> Clean(kept[i]);
    assert Recent(r.history, cfg.historyLimit) == kept;
    hide LogOk, LastN, Tail, Clean, Recent, Replays, Repeats, TrimNewlines;
    RepeatsIs(r.name, kept);
  }

  // The greeting of id, word to the others in room k, and word to those in the room id left.
  function Spread(cfg: Settings, s: State, id: string, k: string, previous: Option<string>): State
    requires k in s.rooms
  {
    var greeted := DeliverAll(cfg, s, id, Greeting(cfg, s.rooms[k]));
    GreetingKeepsRooms(cfg, s, id, Greeting(cfg, s.rooms[k]));
    Leave(cfg, Announce(cfg, greeted, k, {id}), id, previous)
  }

  lemma JoinIs(cfg: Settings, s: State, id: string, desired: string)
    requires id in s.sessions && RoomsOk(s.rooms)
    ensures var n := Trim(if Trim(desired) == "" then cfg.lobbyName else desired);
      if !GoodRoom(n) then JoinRoom(cfg, s, id, desired) == Notify(cfg, s, id)
      else
        CleanName(n)
        && var m := MoveClientRoom(s, id, n);
           && (m.already <==> s.sessions[id].roomKey == Lower(n))
           && Lower(n) in m.state.rooms
           && JoinRoom(cfg, s, id, desired) ==
              if m.already then Notify(cfg, m.state, id) else Spread(cfg, m.state, id, Lower(n), m.previous)
  {
    var wanted := if Trim(desired) == "" then cfg.lobbyName else desired;
    GoodRooms(wanted);
    if GoodRoom(Trim(wanted)) {
      SanitizedKey(wanted);
      MoveShape(s, id, Trim(wanted));
      KeyOf(Trim(wanted));
    }
    hide Trim, Lower, GoodRoom, SanitizeRoomName, MoveClientRoom, Greeting, Leave, Announce, Notify, CleanName,
         DeliverAll, NormalizeRoomKey;
  }

  lemma KeyOf(n: string)
    requires CleanName(n)
    ensures NormalizeRoomKey(n) == Lower(n)
  {}

  lemma AnnounceTells(cfg: Settings, s: State, k: string, id: string, x: string)
    requires k in s.rooms && x in s.boxes
    ensures var t := Announce(cfg, s, k, {id});
      OnlySent(s, t) && Queues(cfg.sendBufferSize, s.boxes[x], t.boxes[x], if x == id then [] else Told(s, k, x))
  {
    hide Queues, Deliver;
    Delivers(cfg, s, s.rooms[k].members - {id}, Announcement(s.rooms[k].name), x);
    Outside(cfg, s, s.rooms[k].members - {id}, Announcement(s.rooms[k].name));
  }

  lemma LeaveTells(cfg: Settings, s: State, id: string, previous: Option<string>, x: string)
    requires x in s.boxes && RoomsOk(s.rooms)
    ensures var t := Leave(cfg, s, id, previous);
      && t == s.(boxes := t.boxes, rooms := t.rooms) && t.boxes.Keys == s.boxes.Keys
      && Queues(cfg.sendBufferSize, s.boxes[x], t.boxes[x],
                if x != id && previous.Some? then Told(s, previous.value, x) else [])
      && t.rooms == (if previous.Some? && Vanishes(cfg, s, previous.value, id) && s.rooms[previous.value].members == {}
                     then s.rooms - {previous.value} else s.rooms)
  {
    hide Queues, Deliver, Lower, Tight;
    QueuesNothing(cfg.sendBufferSize, s.boxes[x]);
    if previous.Some? && previous.value in s.rooms {
      var p := previous.value;
      assert WellNamed(p, s.rooms[p]);
      AnnounceTells(cfg, s, p, id, x);
      hide Announce;
      assert s.rooms[p].members == {} ==> s.rooms[p].members - {id} == {};
    }
  }

  lemma SpreadTells(cfg: Settings, s: State, id: string, k: string, previous: Option<string>, x: string)
    requires k in s.rooms && x in s.boxes && RoomsOk(s.rooms) && LogOk(cfg, s.rooms[k])
    ensures var t := Spread(cfg, s, id, k, previous);
      && t == s.(boxes := t.boxes, rooms := t.rooms) && t.boxes.Keys == s.boxes.Keys
      && Queues(cfg.sendBufferSize, s.boxes[x], t.boxes[x],
                if x == id then Greets(cfg, s.rooms[k])
                else Told(s, k, x) + (if previous.Some? then Told(s, previous.value, x) else []))
      && t.rooms == (if previous.Some? && Vanishes(cfg, s, previous.value, id) && s.rooms[previous.value].members == {}
                     then s.rooms - {previous.value} else s.rooms)
  {
    hide Queues, Leave, Announce, Greeting, Greets, DeliverAll, RoomsOk, LogOk, Told, Vanishes;
    GreetingIs(cfg, s.rooms[k]);
    var lines := Greeting(cfg, s.rooms[k]);
    var g := DeliverAll(cfg, s, id, lines);
    GreetingKeepsRooms(cfg, s, id, lines);
    DeliversAll(cfg, s, id, lines, x);
    AnnounceTells(cfg, g, k, id, x);
    var a := Announce(cfg, g, k, {id});
    SameTold(s, g, k, x);
    var t := Leave(cfg, a, id, previous);
    LeaveTells(cfg, a, id, previous, x);
    if previous.Some? {
      SameTold(s, a, previous.value, x);
      SameVanishes(cfg, s, a, previous.value, id);
    }
    var l1 := if x == id then lines else [];
    var l2 := if x == id then [] else Told(s, k, x);
    var l3 := if x != id && previous.Some? then Told(s, previous.value, x) else [];
    QueuesBoth(cfg.sendBufferSize, s.boxes[x], g.boxes[x], a.boxes[x], l1, l2);
    QueuesBoth(cfg.sendBufferSize, s.boxes[x], a.boxes[x], t.boxes[x], l1 + l2, l3);
    assert l1 + l2 + l3 == if x == id then lines else l2 + l3;
  }

  lemma SameTold(s: State, t: State, k: string, x: string)
    requires t.rooms == s.rooms
    ensures Told(t, k, x) == Told(s, k, x)
  {}

  lemma SameVanishes(cfg: Settings, s: State, t: State, k: string, id: string)
    requires t.rooms == s.rooms
    ensures Vanishes(cfg, t, k, id) == Vanishes(cfg, s, k, id)
  {}

  // ---- A join

  // Between the move and what follows it.
  lemma SeatsBy(cfg: Settings, s: State, m: State, t: State, id: string, n: string)
    requires id in s.sessions && "" !in s.rooms && Lower(n) != "" && s.sessions[id].roomKey != Lower(n)
    requires Reseated(s, m, id, n) && t == m.(boxes := t.boxes, rooms := t.rooms) && t.boxes.Keys == m.boxes.Keys
    requires var from := s.sessions[id].roomKey;
      && t.rooms == (if from in s.rooms && Vanishes(cfg, m, from, id) && m.rooms[from].members == {}
                     then m.rooms - {from} else m.rooms)
      && forall x :: x in s.boxes ==>
           Queues(cfg.sendBufferSize, s.boxes[x], t.boxes[x],
                  if x == id then Greets(cfg, m.rooms[Lower(n)])
                  else Told(m, Lower(n), x) + (if from in s.rooms then Told(m, from, x) else []))
    ensures Seats(cfg, s, t, id, n)
  {
    hide Queues, Lower, Told, Greets;
    VanishesAlike(cfg, s, m, id, n);
    forall x | x in s.boxes
      ensures Queues(cfg.sendBufferSize, s.boxes[x], t.boxes[x],
        if x == id then Greets(cfg, Opened(s, n)) else Told(s, Lower(n), x) + Told(s, s.sessions[id].roomKey, x))
    {
      HearsAlike(cfg, s, m, id, n, x);
    }
  }

  lemma VanishesAlike(cfg: Settings, s: State, m: State, id: string, n: string)
    requires id in s.sessions && s.sessions[id].roomKey != Lower(n) && Reseated(s, m, id, n)
    ensures var from := s.sessions[id].roomKey;
      (from in s.rooms && Vanishes(cfg, m, from, id) && m.rooms[from].members == {}) <==> Vanishes(cfg, s, from, id)
  {
    hide Lower;
    var from := s.sessions[id].roomKey;
    if from in s.rooms {
      assert m.rooms[from] == s.rooms[from].(members := s.rooms[from].members - {id});
      assert m.rooms[from].members - {id} == m.rooms[from].members;
    }
  }

  lemma HearsAlike(cfg: Settings, s: State, m: State, id: string, n: string, x: string)
    requires id in s.sessions && s.sessions[id].roomKey != Lower(n) && Reseated(s, m, id, n)
    ensures Greets(cfg, m.rooms[Lower(n)]) == Greets(cfg, Opened(s, n))
    ensures x != id ==>
      Told(m, Lower(n), x) + (if s.sessions[id].roomKey in s.rooms then Told(m, s.sessions[id].roomKey, x) else [])
      == Told(s, Lower(n), x) + Told(s, s.sessions[id].roomKey, x)
  {
    hide Lower;
  }

  lemma JoinSeatsAs(cfg: Settings, s: State, id: string, n: string)
    requires Coherent(cfg, s, {}) && id in s.sessions && CleanName(n) && s.sessions[id].roomKey != Lower(n)
    ensures var m := MoveClientRoom(s, id, n);
      Lower(n) in m.state.rooms && Seats(cfg, s, Spread(cfg, m.state, id, Lower(n), m.previous), id, n)
  {
    MoveReseats(cfg, s, id, n);
    MoveKeeps(cfg, s, id, n);
    NoEmptyKey(cfg, s);
    var m, k := MoveClientRoom(s, id, n), Lower(n);
    AllOk(cfg, m.state, Pending(m.previous), k);
    KeyThere(n);
    hide Coherent, MoveClientRoom, Lower, Spread, Seats, Queues, CleanName, Greets, Told, Vanishes;
    var t := Spread(cfg, m.state, id, k, m.previous);
    BoxesThere(cfg, s);
    SpreadTells(cfg, m.state, id, k, m.previous, id);
    forall x | x in s.boxes
      ensures Queues(cfg.sendBufferSize, s.boxes[x], t.boxes[x],
        if x == id then Greets(cfg, m.state.rooms[k])
        else Told(m.state, k, x)
             + (if s.sessions[id].roomKey in s.rooms then Told(m.state, s.sessions[id].roomKey, x) else []))
    {
      SpreadTells(cfg, m.state, id, k, m.previous, x);
    }
    SeatsBy(cfg, s, m.state, t, id, n);
  }

  lemma KeyThere(n: string)
    requires CleanName(n)
    ensures Lower(n) != ""
  {}

  lemma AllOk(cfg: Settings, s: State, pending: set<string>, k: string)
    requires Coherent(cfg, s, pending) && k in s.rooms
    ensures RoomsOk(s.rooms) && LogOk(cfg, s.rooms[k])
  {}

  // What a wish for a room comes to.
  ghost predicate Joins(cfg: Settings, s: State, t: State, id: string, desired: string)
    requires id in s.sessions
  {
    var n := Trim(if Trim(desired) == "" then cfg.lobbyName else desired);
    if GoodRoom(n) && s.sessions[id].roomKey != Lower(n) then Seats(cfg, s, t, id, n) else Notified(cfg, s, t, id)
  }

  lemma JoinRoomJoins(cfg: Settings, s: State, id: string, desired: string)
    requires Coherent(cfg, s, {}) && id in s.sessions
    ensures Joins(cfg, s, JoinRoom(cfg, s, id, desired), id, desired)
  {
    var n := Trim(if Trim(desired) == "" then cfg.lobbyName else desired);
    RoomsAre(cfg, s);
    hide Coherent, Trim, Lower, GoodRoom, JoinRoom, Seats, Notified, Notify, Spread, MoveClientRoom, CleanName;
    JoinIs(cfg, s, id, desired);
    NotifyIs(cfg, s, id);
    if GoodRoom(n) {
      if s.sessions[id].roomKey == Lower(n) {
        StaysThere(cfg, s, id, n);
      } else {
        JoinSeatsAs(cfg, s, id, n);
      }
    }
  }

  lemma StaysThere(cfg: Settings, s: State, id: string, n: string)
    requires Coherent(cfg, s, {}) && id in s.sessions && CleanName(n) && s.sessions[id].roomKey == Lower(n)
    ensures MoveClientRoom(s, id, n).state == s
  {
    MoveSeats(s, id, n);
    MoveShape(s, id, n);
    hide Coherent, CleanName, Lower;
  }

  lemma RoomsAre(cfg: Settings, s: State)
    requires Coherent(cfg, s, {})
    ensures RoomsOk(s.rooms)
  {}

  // /join: the room asked for, or the lobby for a blank name.
  lemma JoinTakesSeat(cfg: Settings, s: State, id: string, line: string, desired: string)
    requires Coherent(cfg, s, {}) && id in s.sessions && Asks(line, "join", desired)
    ensures Joins(cfg, s, Step(cfg, s, Input(id, line)), id, desired)
  {
    hide Coherent, Trim, Asks, Step, Joins, JoinRoom;
    InputIs(cfg, s, id, line);
    JoinRoomJoins(cfg, s, id, desired);
  }

  // /leave: back to the lobby, whatever else is typed.
  lemma LeaveTakesSeat(cfg: Settings, s: State, id: string, line: string, args: string)
    requires Coherent(cfg, s, {}) && id in s.sessions && Asks(line, "leave", args)
    ensures Joins(cfg, s, Step(cfg, s, Input(id, line)), id, cfg.lobbyName)
  {
    hide Coherent, Trim, Asks, Step, Joins, JoinRoom;
    InputIs(cfg, s, id, line);
    JoinRoomJoins(cfg, s, id, cfg.lobbyName);
  }

  // ---- Going

  // id is in no index any more, its room is gone if that emptied it, and the others there are told.
  ghost predicate Goes(cfg: Settings, s: State, t: State, id: string)
    requires id in s.sessions
  {
    var me := s.sessions[id];
    && t.sessions == s.sessions - {id} && t.names == s.names - {Lower(me.name)} && t.nextID == s.nextID
    && (forall j :: j in t.rooms <==> j in s.rooms && !(j == me.roomKey && Vanishes(cfg, s, j, id)))
    && (forall j :: j in t.rooms ==> t.rooms[j] == s.rooms[j].(members := s.rooms[j].members - {id}))
    && t.boxes.Keys == s.boxes.Keys - {id}
    && forall x :: x in t.boxes ==>
         Queues(cfg.sendBufferSize, s.boxes[x], t.boxes[x], Told(s, me.roomKey, x))
  }

  lemma RemoveGoes(cfg: Settings, s: State, id: string)
    requires Coherent(cfg, s, {}) && id in s.sessions
    ensures Goes(cfg, s, RemoveClient(cfg, s, id), id)
  {
    hide Coherent, RemoveClient, Removed, Lower, Queues, Told, Vanishes;
    RemovedIs(cfg, s, id);
    RemovedSends(cfg, s, id);
    forall x | x in RemoveClient(cfg, s, id).boxes
      ensures Queues(cfg.sendBufferSize, s.boxes[x], RemoveClient(cfg, s, id).boxes[x],
        Told(s, s.sessions[id].roomKey, x))
    {
      RemovedTells(cfg, s, id, x);
    }
  }

  lemma RemovedIs(cfg: Settings, s: State, id: string)
    requires Coherent(cfg, s, {}) && id in s.sessions
    ensures var me, r := s.sessions[id], Removed(cfg, s, id);
      && r.sessions == s.sessions - {id} && r.names == s.names - {Lower(me.name)} && r.nextID == s.nextID
      && (forall j :: j in r.rooms <==> j in s.rooms && !(j == me.roomKey && Vanishes(cfg, s, j, id)))
      && (forall j :: j in r.rooms ==> r.rooms[j] == s.rooms[j].(members := s.rooms[j].members - {id}))
      && r.boxes == s.boxes - {id}
  {
    hide Coherent, Lower;
    NoEmptyKey(cfg, s);
    OnlyThere(cfg, s, id);
  }

  lemma RemovedTells(cfg: Settings, s: State, id: string, x: string)
    requires Coherent(cfg, s, {}) && id in s.sessions && x in s.boxes && x != id
    ensures x in RemoveClient(cfg, s, id).boxes
    ensures Queues(cfg.sendBufferSize, s.boxes[x], RemoveClient(cfg, s, id).boxes[x],
      Told(s, s.sessions[id].roomKey, x))
  {
    hide Coherent, RemoveClient, Lower, Queues, Announce, Removed;
    RemovedShape(cfg, s, id);
    RemovedIs(cfg, s, id);
    NoEmptyKey(cfg, s);
    var r, from := Removed(cfg, s, id), s.sessions[id].roomKey;
    if from in r.rooms {
      AnnounceTells(cfg, r, from, id, x);
      assert Told(r, from, x) == Told(s, from, x);
    } else {
      QueuesNothing(cfg.sendBufferSize, s.boxes[x]);
      assert from in s.rooms ==> x !in s.rooms[from].members - {id};
    }
  }

  lemma RemovedSends(cfg: Settings, s: State, id: string)
    requires id in s.sessions
    ensures var r, t := Removed(cfg, s, id), RemoveClient(cfg, s, id);
      t == r.(boxes := t.boxes) && t.boxes.Keys == r.boxes.Keys
  {
    RemovedShape(cfg, s, id);
    hide RemoveClient, Removed;
  }

  // A disconnect, /quit and /exit.
  lemma DisconnectGoes(cfg: Settings, s: State, id: string)
    requires Coherent(cfg, s, {})
    ensures var t := Step(cfg, s, Disconnected(id)); if id in s.sessions then Goes(cfg, s, t, id) else t == s
  {
    hide Coherent, Goes, RemoveClient;
    if id in s.sessions { RemoveGoes(cfg, s, id); }
  }

  lemma QuitGoes(cfg: Settings, s: State, id: string, line: string, args: string)
    requires Coherent(cfg, s, {}) && id in s.sessions && (Asks(line, "quit", args) || Asks(line, "exit", args))
    ensures Goes(cfg, s, Step(cfg, s, Input(id, line)), id)
  {
    hide Coherent, Trim, Asks, Step, RemoveClient, Deliver, Queues, Goes;
    InputIs(cfg, s, id, line);
    SendKeeps(cfg, s, {id}, Notice, {});
    NotifyIs(cfg, s, id);
    var s1 := Notify(cfg, s, id);
    RemoveGoes(cfg, s1, id);
    ByeIsLost(cfg, s, s1, RemoveClient(cfg, s1, id), id);
  }

  // What is sent to the one who goes goes with it.
  lemma ByeIsLost(cfg: Settings, s: State, s1: State, t: State, id: string)
    requires id in s.sessions && Notified(cfg, s, s1, id) && Goes(cfg, s1, t, id)
    ensures Goes(cfg, s, t, id)
  {
    hide Queues, Lower;
    forall x | x in t.boxes
      ensures x in s.boxes && Queues(cfg.sendBufferSize, s.boxes[x], t.boxes[x], Told(s, s.sessions[id].roomKey, x))
    {
      assert x in s1.boxes && x in s.boxes && x != id;
      assert Queues(cfg.sendBufferSize, s.boxes[x], s1.boxes[x], []);
      QueuesBoth(cfg.sendBufferSize, s.boxes[x], s1.boxes[x], t.boxes[x], [], Told(s1, s.sessions[id].roomKey, x));
      assert [] + Told(s1, s.sessions[id].roomKey, x) == Told(s, s.sessions[id].roomKey, x);
    }
  }

  // ---- Coming

  // The newcomer with its number's id and guest name, welcomed and without a room.
  function Newcomer(s: State, n: nat): State {
    var id, name := "client-" + Decimal(n), "guest-" + Decimal4(n);
    State(s.rooms, s.sessions[id := Session(name, "", "")], s.names[Lower(name) := id], n,
          s.boxes[id := EmptyBox.(calls := [Notice], accepted := [Notice])])
  }

  // A connection is numbered, registered and sent to the lobby; or, if its guest name is taken, only numbered.
  lemma ConnectComes(cfg: Settings, s: State)
    requires Coherent(cfg, s, {}) && "client-" + Decimal((s.nextID + 1) % SEQ_LIMIT) !in s.sessions
    ensures var t, n := Step(cfg, s, Connected), (s.nextID + 1) % SEQ_LIMIT;
      if !Free(s, "guest-" + Decimal4(n)) then t == s.(nextID := n)
      else Joins(cfg, Newcomer(s, n), t, "client-" + Decimal(n), cfg.lobbyName)
  {
    var n := (s.nextID + 1) % SEQ_LIMIT;
    assert n == NextSeq(s.nextID) && ClientId(n) == "client-" + Decimal(n) && GuestName(n) == "guest-" + Decimal4(n);
    FreeName(cfg, s, GuestName(n));
    RegisterKeeps(cfg, s);
    ConnectIs(cfg, s);
    hide Coherent, Lower, JoinRoom, Joins, Connect, Free, ClientId, GuestName, NextSeq, Decimal, Decimal4;
    if Free(s, GuestName(n)) {
      Welcomes(cfg, s, n);
      SendKeeps(cfg, Register(s), {ClientId(n)}, Notice, {});
      JoinRoomJoins(cfg, Newcomer(s, n), ClientId(n), cfg.lobbyName);
    }
  }

  lemma Welcomes(cfg: Settings, s: State, n: nat)
    requires n == NextSeq(s.nextID) && Lower(GuestName(n)) !in s.names
    ensures Notify(cfg, Register(s), ClientId(n)) == Newcomer(s, n)
  {
    hide Lower, Decimal, Decimal4, NextSeq;
    var id := ClientId(n);
    var b := Notify(cfg, Register(s), id).boxes;
    assert EmptyBox.Push(Notice, cfg.sendBufferSize) == EmptyBox.(calls := [Notice], accepted := [Notice]);
    assert forall x :: x in s.boxes && x != id ==> b[x] == s.boxes[x];
  }
}
