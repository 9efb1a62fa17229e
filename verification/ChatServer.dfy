// The TCP chat server as an object over rooms and clients. Every method does what the Go method of
// that name does, and is proved to take the whole state from one value of
// ChatModel.State to the one the model's function gives.
module ChatServer {
  import opened Text
  import opened Commands
  import opened Channels
  import opened ChatModel
  import opened ChatInvariants
  import opened ChatLaws
  import opened ChatRoom

  // moveClientRoom in two parts: the room is found or created, then the client changes seats.
  function Listed(s: State, name: string): (t: State)
    ensures NormalizeRoomKey(name) in t.rooms && t.sessions == s.sessions
  {
    var key := NormalizeRoomKey(name);
    if key in s.rooms then s else s.(rooms := s.rooms[key := NewRoom(name)])
  }

  function Left(s: State, id: string): Option<string>
    requires id in s.sessions
  {
    var current := s.sessions[id].roomKey;
    if current != "" && current in s.rooms then Some(current) else None
  }

  function Vacated(s: State, id: string): (t: State)
    requires id in s.sessions
    ensures t.sessions == s.sessions && t.names == s.names && t.rooms.Keys == s.rooms.Keys
  {
    if Left(s, id).None? then s
    else s.(rooms := s.rooms[Left(s, id).value := Without(s.rooms[Left(s, id).value], id)])
  }

  function Entered(s: State, id: string, key: string): State
    requires id in s.sessions && key in s.rooms
  {
    var room := With(s.rooms[key], id);
    s.(rooms := s.rooms[key := room], sessions := s.sessions[id := Session(s.sessions[id].name, room.key, room.name)])
  }

  function Relocated(s: State, id: string, name: string): Move
    requires id in s.sessions
  {
    var listed, key := Listed(s, name), NormalizeRoomKey(name);
    if s.sessions[id].roomKey == listed.rooms[key].key then Move(listed, None, true)
    else Move(Entered(Vacated(listed, id), id, key), Left(listed, id), false)
  }

  lemma MoveSplits(s: State, id: string, name: string)
    requires id in s.sessions
    ensures MoveClientRoom(s, id, name) == Relocated(s, id, name)
  {
    hide NormalizeRoomKey, NewRoom;
  }

  // A connection in two parts: the counter moves on, then the client is added under its guest name.
  function Enrolled(s: State): State {
    var id, name := ClientId(s.nextID), GuestName(s.nextID);
    if Lower(name) in s.names then s
    else s.(sessions := s.sessions[id := Session(name, "", "")],
            names := s.names[Lower(name) := id],
            boxes := s.boxes[id := EmptyBox])
  }

  lemma RegisterSplits(s: State)
    ensures Register(s) == Enrolled(s.(nextID := NextSeq(s.nextID)))
  {}

  // removeClient's lock section in three parts: the seat, the room if it is now empty, the indexes.
  function Swept(cfg: Settings, s: State, id: string): (t: State)
    requires id in s.sessions
    ensures t.sessions == s.sessions && t.names == s.names
  {
    if Left(s, id).Some? && s.rooms[Left(s, id).value].members == {} && !IsLobby(cfg, s.rooms[Left(s, id).value])
    then s.(rooms := s.rooms - {Left(s, id).value}) else s
  }

  function Forgotten(s: State, id: string): State
    requires id in s.sessions
  {
    s.(sessions := s.sessions - {id}, names := s.names - {Lower(s.sessions[id].name)}, boxes := s.boxes - {id})
  }

  lemma RemoveSplits(cfg: Settings, s: State, id: string)
    requires id in s.sessions
    ensures Removed(cfg, s, id) == Forgotten(Swept(cfg, Vacated(s, id), id), id)
  {
    hide Lower, IsLobby;
    if Left(s, id).Some? {
      var k := Left(s, id).value;
      assert (s.rooms[k := Without(s.rooms[k], id)]) - {k} == s.rooms - {k};
      assert IsLobby(cfg, Without(s.rooms[k], id)) == IsLobby(cfg, s.rooms[k]) by { LobbyByName(cfg, s.rooms[k], id); }
    }
  }

  lemma LobbyByName(cfg: Settings, r: RoomView, id: string)
    ensures IsLobby(cfg, Without(r, id)) == IsLobby(cfg, r)
  {}

  lemma StillLeft(s: State, id: string)
    requires id in s.sessions
    ensures Left(Vacated(s, id), id) == Left(s, id)
  {}

  // Once its seat is taken away, a client is in no room.
  lemma NotSeated(cfg: Settings, s: State, id: string)
    requires id in s.sessions && SeatsOk(s.rooms, s.sessions)
    ensures var t := Swept(cfg, Vacated(s, id), id); forall k :: k in t.rooms ==> id !in t.rooms[k].members
  {
    hide IsLobby;
    var t := Swept(cfg, Vacated(s, id), id);
    forall k | k in t.rooms ensures id !in t.rooms[k].members {
      assert InRoom(s.rooms, k, id) <==> HasSeat(s.sessions, k, id);
    }
  }

  lemma OnlyName(s: State, id: string, n: string)
    requires id in s.sessions && NamesOk(s.sessions, s.names) && n in s.names && s.names[n] == id
    ensures n == Lower(s.sessions[id].name)
  {
    hide Lower;
    assert Owns(s.names, n, id) <==> Bears(s.sessions, n, id);
  }

  lemma DeliverNobody(cfg: Settings, s: State, l: Line)
    ensures Deliver(cfg, s, {}, l) == s
  {}

  // removeClient's announcement, whether its room is still listed or is empty and gone.
  lemma RemovalAnnounced(cfg: Settings, s: State, id: string, members: set<string>, name: string)
    requires id in s.sessions
    requires var r, key := Removed(cfg, s, id), s.sessions[id].roomKey;
      key != "" &&
      if key in r.rooms then members == r.rooms[key].members && name == r.rooms[key].name else members == {}
    ensures Deliver(cfg, Removed(cfg, s, id), members - {id}, Announcement(name)) == RemoveClient(cfg, s, id)
  {
    RemovedShape(cfg, s, id);
    hide Removed, RemoveClient, Deliver;
    DeliverNobody(cfg, Removed(cfg, s, id), Announcement(name));
    if members == {} { assert members - {id} == {}; }
  }

  lemma DeliverOneMore(cfg: Settings, s: State, id: string, lines: seq<Line>, l: Line)
    ensures DeliverAll(cfg, s, id, lines + [l]) == Deliver(cfg, DeliverAll(cfg, s, id, lines), {id}, l)
  {
    hide Deliver;
    assert (lines + [l])[..|lines|] == lines;
  }

  lemma DeliverFew(cfg: Settings, s: State, id: string, l: Line)
    ensures DeliverAll(cfg, s, id, []) == s && DeliverAll(cfg, s, id, [l]) == Deliver(cfg, s, {id}, l)
  {
    DeliverOneMore(cfg, s, id, [], l);
    assert [] + [l] == [l];
  }

  lemma {:induction false} DeliverInTwo(cfg: Settings, s: State, id: string, first: seq<Line>, second: seq<Line>)
    ensures DeliverAll(cfg, s, id, first + second) == DeliverAll(cfg, DeliverAll(cfg, s, id, first), id, second)
  {
    hide Deliver;
    if second == [] {
      assert first + second == first;
    } else {
      assert (first + second)[..|first + second| - 1] == first + second[..|second| - 1];
      DeliverInTwo(cfg, s, id, first, second[..|second| - 1]);
    }
  }

  function Top(topic: string): seq<Line> {
    [Notice] + if topic != "" then [Notice] else []
  }

  function Bottom(name: string, replay: seq<string>): seq<Line> {
    if replay != [] then [Notice] + Replays(name, replay) else []
  }

  lemma GreetingSplits(cfg: Settings, r: RoomView)
    ensures Greeting(cfg, r) == Top(r.topic) + Bottom(r.name, Recent(r.history, cfg.historyLimit))
  {
    hide Recent, Replays;
  }

  // joinRoom once the client has changed rooms.
  function Settled(cfg: Settings, s: State, id: string, key: string, previous: Option<string>): State
    requires key in s.rooms
  {
    var greeting := Greeting(cfg, s.rooms[key]);
    GreetingKeepsRooms(cfg, s, id, greeting);
    Leave(cfg, Announce(cfg, DeliverAll(cfg, s, id, greeting), key, {id}), id, previous)
  }

  lemma JoinSplits(cfg: Settings, s: State, id: string, desired: string)
    requires id in s.sessions && Wanted(cfg, desired).Some?
    ensures var name := Wanted(cfg, desired).value;
      var m, key := MoveClientRoom(s, id, name), NormalizeRoomKey(name);
      && (m.already ==> JoinRoom(cfg, s, id, desired) == Notify(cfg, m.state, id))
      && (!m.already ==>
           key in m.state.rooms && JoinRoom(cfg, s, id, desired) == Settled(cfg, m.state, id, key, m.previous))
  {
    hide SanitizeRoomName, Leave, Announce, Greeting, DeliverAll, Notify, NormalizeRoomKey, NewRoom;
  }

  lemma RefusedJoin(cfg: Settings, s: State, id: string, desired: string)
    requires id in s.sessions && Wanted(cfg, desired).None?
    ensures JoinRoom(cfg, s, id, desired) == Notify(cfg, s, id)
  {
    hide SanitizeRoomName, Notify;
  }

  // In a coherent state the room a client moves out of is not the one it moves into.
  lemma MovesElsewhere(cfg: Settings, s: State, id: string, desired: string)
    requires id in s.sessions && Wanted(cfg, desired).Some? && RoomsOk(s.rooms)
    ensures var m := MoveClientRoom(s, id, Wanted(cfg, desired).value);
      var key := NormalizeRoomKey(Wanted(cfg, desired).value);
      && key in m.state.rooms
      && (m.previous.Some? ==> m.previous.value != key && m.previous.value in m.state.rooms)
  {
    SanitizedKey(if Trim(desired) == "" then cfg.lobbyName else desired);
    MoveShape(s, id, Wanted(cfg, desired).value);
    hide SanitizeRoomName, MoveClientRoom, RoomsOk, NormalizeRoomKey, NewRoom, Lower;
  }

  function IdsOf(names: map<string, Client>): map<string, string> {
    map n | n in names :: names[n].id
  }

  lemma IdsRenamed(names: map<string, Client>, gone: string, n: string, c: Client)
    ensures IdsOf((names - {gone})[n := c]) == (IdsOf(names) - {gone})[n := c.id]
  {}

  // What a join with an accepted name comes to.
  lemma JoinPlan(cfg: Settings, s: State, id: string, desired: string, name: string)
    requires id in s.sessions && Wanted(cfg, desired) == Some(name) && RoomsOk(s.rooms)
    ensures var m, key := MoveClientRoom(s, id, name), NormalizeRoomKey(name);
      && key in m.state.rooms && m.previous != Some(key)
      && JoinRoom(cfg, s, id, desired) ==
         if m.already then Notify(cfg, m.state, id) else Settled(cfg, m.state, id, key, m.previous)
  {
    hide Wanted, MoveClientRoom, RoomsOk, NormalizeRoomKey, Settled, Notify, JoinRoom;
    JoinSplits(cfg, s, id, desired);
    MovesElsewhere(cfg, s, id, desired);
  }

  lemma CoherentParts(cfg: Settings, s: State)
    requires Coherent(cfg, s, {})
    ensures RoomsOk(s.rooms) && SeatsOk(s.rooms, s.sessions) && NamesOk(s.sessions, s.names)
    ensures s.boxes.Keys == s.sessions.Keys && forall id :: id in s.boxes ==> !s.boxes[id].closed
  {
    hide RoomsOk, SeatsOk, NamesOk, HistoryOk, Collected, Subseq;
  }

  lemma CoherentRooms(cfg: Settings, s: State)
    requires Coherent(cfg, s, {})
    ensures RoomsOk(s.rooms)
  {
    CoherentParts(cfg, s);
  }

  lemma ConnectSteps(cfg: Settings, s: State)
    ensures var r := Register(s); var id := ClientId(r.nextID);
      && r.rooms == s.rooms && Notify(cfg, r, id).rooms == s.rooms
      && (Lower(GuestName(r.nextID)) in s.names ==> Connect(cfg, s) == r)
      && (Lower(GuestName(r.nextID)) !in s.names ==>
            id in Notify(cfg, r, id).sessions &&
            Connect(cfg, s) == JoinRoom(cfg, Notify(cfg, r, id), id, cfg.lobbyName))
  {
    hide ClientId, GuestName, NextSeq, Lower, JoinRoom;
  }

  lemma ExecuteCases(cfg: Settings, s: State, id: string, cmd: string, args: string)
    requires id in s.sessions
    ensures cmd == "join" ==> Execute(cfg, s, id, cmd, args) == JoinRoom(cfg, s, id, args)
    ensures cmd == "leave" ==> Execute(cfg, s, id, cmd, args) == JoinRoom(cfg, s, id, cfg.lobbyName)
    ensures cmd == "me" && Trim(args) == "" ==> Execute(cfg, s, id, cmd, args) == Notify(cfg, s, id)
    ensures cmd == "me" && Trim(args) != "" ==>
      Execute(cfg, s, id, cmd, args) == Speak(cfg, s, id, "* " + s.sessions[id].name + " " + args)
    ensures cmd == "quit" || cmd == "exit" ==>
      Execute(cfg, s, id, cmd, args) == RemoveClient(cfg, Notify(cfg, s, id), id)
  {
    hide JoinRoom, Notify, Speak, RemoveClient, Nick, Msg, Topic, History, Trim;
  }

  // removeClient does not look at the leaving client's queue.
  lemma RemoveAnyBox(cfg: Settings, s: State, id: string, b: Box)
    requires id in s.sessions
    ensures RemoveClient(cfg, s.(boxes := s.boxes[id := b]), id) == RemoveClient(cfg, s, id)
  {
    hide IsLobby, Lower, Deliver;
    assert s.boxes[id := b] - {id} == s.boxes - {id};
  }

  // One line of /rooms.
  datatype Summary = Summary(name: string, count: nat, topic: string)

  function Summarize(r: RoomView): Summary {
    Summary(r.name, |r.members|, r.topic)
  }

  function Printed(summaries: seq<Summary>): nat {
    if summaries == [] then 0 else Printed(summaries[..|summaries| - 1]) + summaries[|summaries| - 1].count
  }

  // The counts printed, whatever the order, add up to the members of all rooms.
  lemma {:induction false} PrintedIsTotal(rooms: Rooms, order: seq<string>, summaries: seq<Summary>)
    requires |summaries| == |order| && forall k :: k in order ==> k in rooms
    requires forall i :: 0 <= i < |order| ==> summaries[i] == Summarize(rooms[order[i]])
    ensures Printed(summaries) == TotalMembers(rooms, order)
  {
    if order != [] {
      PrintedIsTotal(rooms, order[..|order| - 1], summaries[..|order| - 1]);
    }
  }

  // After every run, what /rooms prints adds up to the clients that have a room.
  lemma RoomsAddUp(cfg: Settings, events: seq<Event>, order: seq<string>, summaries: seq<Summary>)
    requires Connects(events) < SEQ_LIMIT && |summaries| == |order|
    requires Enumerates(order, Run(cfg, Initial, events).rooms.Keys)
    requires forall i :: 0 <= i < |order| ==> summaries[i] == Summarize(Run(cfg, Initial, events).rooms[order[i]])
    ensures var s := Run(cfg, Initial, events);
      Printed(summaries) == |set id | id in s.sessions && s.sessions[id].roomKey != ""|
  {
    hide Run, Connects, Summarize;
    Conservation(cfg, events, order);
    PrintedIsTotal(Run(cfg, Initial, events).rooms, order, summaries);
  }

  class Server {
    const cfg: Settings
    var rooms: map<string, Room>
    var clients: map<string, Client>
    var names: map<string, Client>
    var nextID: nat
    ghost var places: set<Room>            // every room there has been
    ghost var buffers: set<array<string>>  // every history array there has been

    // ---- The state as a value

    ghost function RoomViews(): map<string, RoomView>
      reads `rooms, rooms.Values
    {
      map k | k in rooms :: rooms[k].View()
    }

    ghost function SessionViews(): map<string, Session>
      reads `clients, clients.Values`name, clients.Values`roomKey, clients.Values`roomDisplay
    {
      map id | id in clients :: clients[id].View()
    }

    ghost function Boxes(): map<string, Box>
      reads `clients, clients.Values`box
    {
      map id | id in clients :: clients[id].box
    }

    ghost function NameIds(): map<string, string>
      reads `names
    {
      IdsOf(names)
    }

    ghost function Abs(): (s: State)
      reads this, rooms.Values, clients.Values
      ensures s.rooms.Keys == rooms.Keys && s.sessions.Keys == clients.Keys
    {
      State(RoomViews(), SessionViews(), NameIds(), nextID, Boxes())
    }

    // ---- The objects hang together

    ghost predicate IsRoom(room: Room?, key: Option<string>)
      reads `rooms
    {
      match key case Some(k) => k in rooms && room == rooms[k] case None => room == null
    }

    ghost predicate Registered(c: Client)
      reads `clients
    {
      c.id in clients && clients[c.id] == c
    }

    ghost predicate ClientsOk()
      reads `clients, clients.Values`queue, clients.Values`closed, clients.Values`box
    {
      forall id :: id in clients ==>
        clients[id].id == id && clients[id].capacity == cfg.sendBufferSize && clients[id].Valid()
    }

    ghost predicate NamesRegistered()
      reads `names, `clients
    {
      forall n :: n in names ==> Registered(names[n])
    }

    ghost predicate RoomsValid()
      reads `rooms, `places, `buffers, rooms.Values, buffers
    {
      forall k :: k in rooms ==>
        rooms[k] in places && rooms[k].buf in buffers && rooms[k].limit == cfg.historyLimit && rooms[k].Valid()
    }

    ghost predicate RoomsApart()
      reads `rooms, rooms.Values`buf
    {
      forall j, k :: j in rooms && k in rooms && j != k ==> rooms[j] != rooms[k] && rooms[j].buf != rooms[k].buf
    }

    ghost predicate MembersRegistered()
      reads `rooms, `clients, rooms.Values`members
    {
      forall k, id :: k in rooms && id in rooms[k].members ==> Registered(rooms[k].members[id])
    }

    // Only new rooms and arrays join the footprint.
    twostate predicate Grown()
      reads `places, `buffers
    {
      fresh(places - old(places)) && fresh(buffers - old(buffers))
    }

    // Nobody new but a freshly connected client.
    twostate predicate OnlyFresh()
      reads `clients
    {
      fresh(clients.Values - old(clients.Values))
    }

    ghost predicate Linked()
      reads this, rooms.Values, clients.Values, buffers
    {
      ClientsOk() && NamesRegistered() && RoomsValid() && RoomsApart() && MembersRegistered()
    }

    constructor (config: Config)
      ensures Linked() && Abs() == Initial
      ensures cfg.historyLimit == if config.historyLimit > 0 then config.historyLimit else 50
      ensures cfg.lobbyName == if config.lobbyName != "" then config.lobbyName else "lobby"
      ensures cfg.sendBufferSize == if config.sendBufferSize > 0 then config.sendBufferSize else 64
      ensures clients == map[] && places == {} && buffers == {}
    {
      cfg := WithDefaults(config);
      rooms, clients, names, nextID, places, buffers := map[], map[], map[], 0, {}, {};
    }

    // ---- Sending

    // The boxes once a line has been sent to these clients.
    ghost function Sent(before: map<string, Box>, to: set<string>, l: Line): map<string, Box> {
      map id | id in before :: if id in to then before[id].Push(Sanitized(l), cfg.sendBufferSize) else before[id]
    }

    method SendEach(list: seq<Client>, l: Line, ghost to: set<string>)
      requires ClientsOk()
      requires forall i :: 0 <= i < |list| ==> Registered(list[i])
      requires forall i, j :: 0 <= i < j < |list| ==> list[i] != list[j]
      requires forall id :: id in to <==> id in clients && clients[id] in list
      modifies clients.Values`queue, clients.Values`box
      ensures ClientsOk() && Boxes() == Sent(old(Boxes()), to, l)
    {
      hide Sanitized, Client.Valid;
      for i := 0 to |list|
        invariant ClientsOk()
        invariant forall id :: id in clients ==>
          clients[id].box ==
            (if clients[id] in list[..i] then old(clients[id].box).Push(Sanitized(l), cfg.sendBufferSize)
             else old(clients[id].box))
      {
        list[i].Send(l);
      }
      assert list[..|list|] == list;
    }

    // Each of these clients is sent the line once.
    method Fanout(list: seq<Client>, l: Line, ghost to: set<string>)
      requires Linked()
      requires forall i :: 0 <= i < |list| ==> Registered(list[i])
      requires forall i, j :: 0 <= i < j < |list| ==> list[i] != list[j]
      requires forall id :: id in to <==> id in clients && clients[id] in list
      modifies clients.Values`queue, clients.Values`box
      ensures Linked() && Abs() == Deliver(cfg, old(Abs()), to, l)
    {
      hide ClientsOk, Boxes, RoomViews, SessionViews, NameIds, NamesRegistered, RoomsValid, RoomsApart,
           MembersRegistered, Sanitized;
      SendEach(list, l, to);
    }

    // c.Send
    method Tell(c: Client, l: Line)
      requires Linked() && Registered(c)
      modifies clients.Values`queue, clients.Values`box
      ensures Linked() && Abs() == Deliver(cfg, old(Abs()), {c.id}, l)
    {
      hide Boxes, RoomViews, SessionViews, NameIds, NamesRegistered, RoomsValid, RoomsApart, MembersRegistered,
           Sanitized;
      Fanout([c], l, {c.id});
    }

    // ---- Rooms

    lemma RoomSeen(k: string)
      requires k in rooms
      ensures Abs().rooms[k] == rooms[k].View()
    {}

    lemma ClientSeen(c: Client)
      requires Registered(c)
      ensures Abs().sessions[c.id] == c.View()
    {}

    function RoomForClient(c: Client): Room?
      reads `rooms, c`roomKey
    {
      if c.roomKey != "" && c.roomKey in rooms then rooms[c.roomKey] else null
    }

    lemma RoomFound(c: Client)
      requires Linked() && Registered(c)
      ensures IsRoom(RoomForClient(c), RoomOf(Abs(), c.id))
    {
      ClientSeen(c);
    }

    lemma OneRoomChanged(before: map<string, RoomView>, key: string)
      requires rooms.Keys == before.Keys + {key}
      requires forall k :: k in rooms && k != key ==> rooms[k].View() == before[k]
      ensures RoomViews() == before[key := rooms[key].View()]
    {
      hide Room.View;
    }

    method StoreIn(room: Room, text: string, spare: nat, ghost key: string)
      requires RoomsValid() && RoomsApart() && key in rooms && rooms[key] == room
      modifies `buffers, room`buf, room`off, room`len, room`log, room.buf
      ensures RoomsValid() && RoomsApart() && room.Valid()
      ensures buffers == old(buffers) + {room.buf} && fresh(buffers - old(buffers))
      ensures room.View() == AppendHistory(cfg, old(room.View()), text)
      ensures forall k :: k in rooms && k != key ==> rooms[k].View() == old(rooms[k].View())
    {
      hide LastN, Room.Bounded, Room.Window, Room.Keyed;
      room.AppendHistory(text, spare);
      buffers := buffers + {room.buf};
    }

    method AppendView(room: Room, text: string, spare: nat, ghost key: string)
      requires RoomsValid() && RoomsApart() && key in rooms && rooms[key] == room
      modifies `buffers, room`buf, room`off, room`len, room`log, room.buf
      ensures RoomsValid() && RoomsApart() && room.Valid() && Grown() && room.buf in buffers
      ensures RoomViews() == old(RoomViews())[key := AppendHistory(cfg, old(RoomViews())[key], text)]
      ensures RoomViews()[key] == room.View()
    {
      ghost var before := RoomViews();
      hide RoomsApart, RoomsValid, AppendHistory, Room.View, Room.Valid;
      StoreIn(room, text, spare, key);
      OneRoomChanged(before, key);
    }

    // The storing half of broadcastRoom.
    method AppendTo(room: Room, text: string, spare: nat, ghost key: string)
      requires Linked() && key in rooms && rooms[key] == room
      modifies `buffers, room`buf, room`off, room`len, room`log, room.buf
      ensures Linked() && Grown() && room.buf in buffers && room.Valid()
      ensures Abs().rooms[key] == room.View()
      ensures Abs() == old(Abs()).(rooms := old(RoomViews())[key := AppendHistory(cfg, old(RoomViews())[key], text)])
    {
      hide NamesRegistered, SessionViews, Boxes, ClientsOk, NameIds, MembersRegistered, RoomsApart, RoomsValid,
           RoomViews, AppendHistory, Room.View, Room.Valid, Grown;
      AppendView(room, text, spare, key);
    }

    ghost function Ids(c: Client?): set<string> {
      if c == null then {} else {c.id}
    }

    // Every member is the registered client with its id, and so is the one left out, if it is a member.
    ghost predicate Addressable(room: Room, exclude: Client?)
      reads `clients, room`members
    {
      && (forall id :: id in room.members ==> room.members[id].id == id && Registered(room.members[id]))
      && (exclude != null && exclude.id in room.members ==> room.members[exclude.id] == exclude)
    }

    method Tellees(room: Room, exclude: Client?) returns (list: seq<Client>)
      requires room.Valid() && Addressable(room, exclude) && ClientsOk()
      ensures forall i :: 0 <= i < |list| ==> Registered(list[i])
      ensures forall i, j :: 0 <= i < j < |list| ==> list[i] != list[j]
      ensures forall id :: id in room.members.Keys - Ids(exclude) <==> id in clients && clients[id] in list
    {
      hide Client.Valid;
      list := room.MembersSnapshot(exclude);
      forall i | 0 <= i < |list| ensures Registered(list[i]) {
        assert list[i] in list;
        var at :| at in room.members && room.members[at] == list[i];
      }
      forall id ensures id in room.members.Keys - Ids(exclude) <==> id in clients && clients[id] in list {
        if id in clients && clients[id] in list {
          var at :| at in room.members && room.members[at] == clients[id];
        }
        if id in room.members {
          assert room.members[id] in room.members.Values;
        }
      }
    }

    // broadcastRoom with store = false
    method BroadcastRoom(room: Room, exclude: Client?, l: Line)
      requires Linked() && room.Valid() && Addressable(room, exclude)
      modifies clients.Values`queue, clients.Values`box
      ensures Linked() && Abs() == Deliver(cfg, old(Abs()), room.members.Keys - Ids(exclude), l)
    {
      hide Abs, RoomsValid, RoomsApart, NamesRegistered, MembersRegistered, Addressable;
      var list := Tellees(room, exclude);
      hide Linked;
      Fanout(list, l, room.members.Keys - Ids(exclude));
    }

    // broadcastRoom with store = true
    method StoreAndBroadcast(room: Room, text: string, spare: nat, ghost key: string)
      requires Linked() && room.Valid() && Addressable(room, null) && key in rooms && rooms[key] == room
      modifies `buffers, room`buf, room`off, room`len, room`log, room.buf, clients.Values`queue, clients.Values`box
      ensures Linked() && Grown()
      ensures Abs() == Publish(cfg, old(Abs()), key, text)
    {
      hide Linked, Addressable, RoomViews, SessionViews, NameIds, Boxes, AppendHistory, Room.Valid, Grown;
      AppendTo(room, text, spare, key);
      BroadcastRoom(room, null, Stored(Format(room.name, text)));
    }

    lemma OneClientChanged(before: map<string, Session>, c: Client)
      requires Registered(c) && clients.Keys == before.Keys + {c.id}
      requires forall id :: id in clients && id != c.id ==> id in before && clients[id].View() == before[id]
      ensures SessionViews() == before[c.id := c.View()]
    {
      hide Client.View;
    }

    lemma OneBoxChanged(before: map<string, Box>, c: Client)
      requires Registered(c) && clients.Keys == before.Keys + {c.id}
      requires forall id :: id in clients && id != c.id ==> clients[id].box == before[id]
      ensures Boxes() == before[c.id := c.box]
    {}

    // ---- The indexes

    lemma OneNameChanged(before: map<string, string>, n: string, c: Client)
      requires n in names && names[n] == c && names.Keys == before.Keys + {n}
      requires forall x :: x in names && x != n ==> names[x].id == before[x]
      ensures NameIds() == before[n := c.id]
    {}

    // Registering one more client leaves the others registered.
    twostate lemma StillRegistered(new c: Client)
      requires clients == old(clients)[c.id := c] && c.id !in old(clients)
      requires rooms == old(rooms) && forall k :: k in rooms ==> rooms[k].members == old(rooms[k].members)
      requires old(NamesRegistered()) && old(MembersRegistered())
      requires forall n :: n in names ==> names[n] == c || (n in old(names) && names[n] == old(names)[n])
      ensures NamesRegistered() && MembersRegistered()
    {}

    method Enroll(c: Client, key: string)
      requires Linked() && c.Valid() && c.id !in clients && c.capacity == cfg.sendBufferSize
      modifies `clients, `names
      ensures clients == old(clients)[c.id := c] && names == old(names)[key := c]
      ensures ClientsOk() && NamesRegistered() && MembersRegistered()
    {
      hide RoomsApart, RoomsValid;
      clients, names := clients[c.id := c], names[key := c];
      StillRegistered(c);
      hide NamesRegistered, MembersRegistered;
    }

    method AddViews(c: Client, key: string)
      requires Linked() && c.Valid() && c.id !in clients && c.capacity == cfg.sendBufferSize
      modifies `clients, `names
      ensures clients == old(clients)[c.id := c] && names == old(names)[key := c]
      ensures ClientsOk() && NamesRegistered() && MembersRegistered()
      ensures SessionViews() == old(SessionViews())[c.id := c.View()]
      ensures NameIds() == old(NameIds())[key := c.id]
      ensures Boxes() == old(Boxes())[c.id := c.box]
    {
      ghost var sessionsThen, boxesThen, namesThen := SessionViews(), Boxes(), NameIds();
      hide RoomsApart, RoomsValid, NamesRegistered, MembersRegistered, ClientsOk, Client.View, Client.Valid;
      Enroll(c, key);
      OneClientChanged(sessionsThen, c);
      OneBoxChanged(boxesThen, c);
      OneNameChanged(namesThen, key, c);
    }

    method AddClient(c: Client) returns (ok: bool)
      requires Linked() && c.Valid() && c.id !in clients && c.capacity == cfg.sendBufferSize
      modifies `clients, `names
      ensures Linked() && ok == (Lower(c.name) !in old(names))
      ensures Abs() == if !ok then old(Abs())
                       else old(Abs()).(sessions := old(Abs()).sessions[c.id := c.View()],
                                        names := old(Abs()).names[Lower(c.name) := c.id],
                                        boxes := old(Abs()).boxes[c.id := c.box])
      ensures if ok then clients == old(clients)[c.id := c] && names == old(names)[Lower(c.name) := c]
              else clients == old(clients) && names == old(names)
    {
      hide RoomViews, SessionViews, Boxes, NameIds, RoomsApart, RoomsValid, NamesRegistered, MembersRegistered,
           ClientsOk, Lower, Client.View, Client.Valid;
      ok := Lower(c.name) !in names;
      if ok {
        AddViews(c, Lower(c.name));
      }
    }

    method CreateRoom(name: string) returns (room: Room)
      requires RoomsValid() && RoomsApart() && MembersRegistered() && NormalizeRoomKey(name) !in rooms
      modifies `rooms, `places, `buffers
      ensures fresh(room) && places == old(places) + {room} && room.View() == NewRoom(name)
      ensures rooms == old(rooms)[NormalizeRoomKey(name) := room]
      ensures RoomsValid() && RoomsApart() && MembersRegistered() && fresh(buffers - old(buffers))
    {
      hide NewRoom, NormalizeRoomKey, Room.Valid, Registered;
      room := new Room(name, cfg.historyLimit);
      rooms, places, buffers := rooms[NormalizeRoomKey(name) := room], places + {room}, buffers + {room.buf};
    }

    method CreateView(name: string) returns (room: Room)
      requires RoomsValid() && RoomsApart() && MembersRegistered() && NormalizeRoomKey(name) !in rooms
      modifies `rooms, `places, `buffers
      ensures IsRoom(room, Some(NormalizeRoomKey(name))) && room in places
      ensures RoomsValid() && RoomsApart() && MembersRegistered() && Grown()
      ensures RoomViews() == old(RoomViews())[NormalizeRoomKey(name) := NewRoom(name)]
    {
      ghost var before := RoomViews();
      hide NewRoom, NormalizeRoomKey, RoomsValid, RoomsApart, MembersRegistered, Room.View;
      room := CreateRoom(name);
      OneRoomChanged(before, NormalizeRoomKey(name));
    }

    method Create(name: string) returns (room: Room)
      requires Linked() && NormalizeRoomKey(name) !in rooms
      modifies `rooms, `places, `buffers
      ensures IsRoom(room, Some(NormalizeRoomKey(name))) && room in places
      ensures Linked() && Grown()
      ensures Abs() == old(Abs()).(rooms := old(Abs()).rooms[NormalizeRoomKey(name) := NewRoom(name)])
    {
      hide SessionViews, Boxes, NameIds, RoomViews, NewRoom, NormalizeRoomKey, RoomsValid, RoomsApart,
           MembersRegistered, ClientsOk, NamesRegistered, Grown, IsRoom;
      room := CreateView(name);
    }

    // The room with the name's key, created if there is none.
    method FindOrCreate(name: string) returns (room: Room)
      requires Linked()
      modifies `rooms, `places, `buffers
      ensures IsRoom(room, Some(NormalizeRoomKey(name))) && room in places
      ensures Linked() && Grown()
      ensures Abs() == Listed(old(Abs()), name)
    {
      hide Abs, NewRoom, NormalizeRoomKey, RoomsApart, MembersRegistered, ClientsOk, NamesRegistered, Room.Valid;
      if NormalizeRoomKey(name) in rooms {
        room := rooms[NormalizeRoomKey(name)];
      } else {
        room := Create(name);
      }
    }

    method DropIn(room: Room, key: string, id: string)
      requires RoomsValid() && RoomsApart() && MembersRegistered() && key in rooms && rooms[key] == room
      modifies room`members
      ensures RoomsValid() && MembersRegistered()
      ensures room.members == old(room.members) - {id} && room.View() == Without(old(room.View()), id)
      ensures forall k :: k in rooms && k != key ==> rooms[k].View() == old(rooms[k].View())
    {
      hide Registered, Room.Window, LastN;
      room.RemoveMember(id);
      assert room.members.Keys == old(room.members.Keys) - {id};
    }

    method SeatIn(room: Room, key: string, c: Client)
      requires RoomsValid() && RoomsApart() && MembersRegistered()
      requires key in rooms && rooms[key] == room && Registered(c)
      modifies room`members
      ensures RoomsValid() && MembersRegistered()
      ensures room.members == old(room.members)[c.id := c] && room.View() == With(old(room.View()), c.id)
      ensures forall k :: k in rooms && k != key ==> rooms[k].View() == old(rooms[k].View())
    {
      hide Registered, Room.Window, LastN;
      room.AddMember(c);
      assert room.members.Keys == old(room.members.Keys) + {c.id};
    }

    method DropMember(room: Room, key: string, id: string)
      requires Linked() && key in rooms && rooms[key] == room
      modifies room`members
      ensures Linked() && room.members == old(room.members) - {id}
      ensures Abs() == old(Abs()).(rooms := old(RoomViews())[key := Without(old(RoomViews())[key], id)])
    {
      ghost var before := RoomViews();
      hide SessionViews, Boxes, NameIds, ClientsOk, NamesRegistered, RoomsValid, RoomsApart, MembersRegistered,
           Room.View;
      DropIn(room, key, id);
      OneRoomChanged(before, key);
    }

    method SeatMember(room: Room, key: string, c: Client)
      requires Linked() && key in rooms && rooms[key] == room && Registered(c)
      modifies room`members
      ensures Linked() && Abs() == old(Abs()).(rooms := old(Abs()).rooms[key := With(old(Abs()).rooms[key], c.id)])
    {
      ghost var before := RoomViews();
      hide SessionViews, Boxes, NameIds, ClientsOk, NamesRegistered, RoomsValid, RoomsApart, MembersRegistered,
           Room.View;
      SeatIn(room, key, c);
      OneRoomChanged(before, key);
    }

    method PlaceIn(c: Client, room: Room)
      requires ClientsOk() && Registered(c)
      modifies c`roomKey, c`roomDisplay
      ensures c.View() == Session(c.name, room.key, room.name)
      ensures forall id :: id in clients && id != c.id ==> clients[id].View() == old(clients[id].View())
    {
      hide Client.Valid;
      c.SetRoom(room);
    }

    method Place(c: Client, room: Room)
      requires Linked() && Registered(c)
      modifies c`roomKey, c`roomDisplay
      ensures Linked()
      ensures Abs() == old(Abs()).(sessions := old(Abs()).sessions[c.id := Session(c.name, room.key, room.name)])
    {
      ghost var before := SessionViews();
      hide RoomViews, Boxes, NameIds, NamesRegistered, RoomsValid, RoomsApart, MembersRegistered, ClientsOk,
           Client.View;
      PlaceIn(c, room);
      OneClientChanged(before, c);
    }

    method Vacate(c: Client) returns (previous: Room?)
      requires Linked() && Registered(c)
      modifies places`members
      ensures Linked() && Abs() == Vacated(old(Abs()), c.id) && IsRoom(previous, Left(old(Abs()), c.id))
    {
      ClientSeen(c);
      if c.roomKey in rooms { RoomSeen(c.roomKey); }
      hide RoomViews, SessionViews, Boxes, NameIds, Linked;
      previous := null;
      if c.roomKey != "" && c.roomKey in rooms {
        previous := rooms[c.roomKey];
        DropMember(previous, c.roomKey, c.id);
      }
    }

    lemma BothSeen(c: Client, key: string)
      requires Registered(c) && key in rooms
      ensures c.id in Abs().sessions && Abs().sessions[c.id].name == c.name
      ensures key in Abs().rooms && Abs().rooms[key].key == rooms[key].key && Abs().rooms[key].name == rooms[key].name
    {}

    method Enter(c: Client, room: Room, key: string)
      requires Linked() && Registered(c) && key in rooms && rooms[key] == room
      modifies room`members, c`roomKey, c`roomDisplay
      ensures Linked() && c.id in old(Abs()).sessions && key in old(Abs()).rooms
      ensures Abs() == Entered(old(Abs()), c.id, key)
    {
      hide Abs, RoomViews, SessionViews, Boxes, NameIds, Linked, Registered, Room.View, Client.View;
      BothSeen(c, key);
      SeatMember(room, key, c);
      Place(c, room);
    }

    method Reseat(c: Client, room: Room, key: string) returns (previous: Room?)
      requires Linked() && Registered(c) && key in rooms && rooms[key] == room && room in places
      modifies places`members, c`roomKey, c`roomDisplay
      ensures Linked() && IsRoom(previous, Left(old(Abs()), c.id))
      ensures Abs() == Entered(Vacated(old(Abs()), c.id), c.id, key)
    {
      hide Abs, Linked, Vacated, Entered, Left;
      previous := Vacate(c);
      Enter(c, room, key);
    }

    lemma SameKeys(c: Client, key: string)
      requires Registered(c) && key in rooms
      ensures Abs().sessions[c.id].roomKey == c.roomKey && Abs().rooms[key].key == rooms[key].key
    {}

    lemma IsAt(room: Room, key: string)
      requires IsRoom(room, Some(key))
      ensures key in rooms && rooms[key] == room
    {}

    method Relocate(c: Client, name: string) returns (room: Room, previous: Room?, already: bool)
      requires Linked() && Registered(c)
      modifies `rooms, `places, `buffers, places`members, c`roomKey, c`roomDisplay
      ensures Linked() && Grown()
      ensures IsRoom(room, Some(NormalizeRoomKey(name)))
      ensures var m := Relocated(old(Abs()), c.id, name);
        Abs() == m.state && already == m.already && (!already ==> IsRoom(previous, m.previous))
    {
      hide Abs, Linked, NormalizeRoomKey, Listed, Vacated, Entered, Left, IsRoom, Registered;
      room := FindOrCreate(name);
      IsAt(room, NormalizeRoomKey(name));
      SameKeys(c, NormalizeRoomKey(name));
      already := c.roomKey == room.key;
      if already {
        previous := room;
      } else {
        previous := Reseat(c, room, NormalizeRoomKey(name));
      }
    }

    // For a name that is not blank, which is all joinRoom passes.
    method MoveClientRoom(c: Client, name: string) returns (room: Room, previous: Room?, already: bool)
      requires Linked() && Registered(c)
      modifies `rooms, `places, `buffers, places`members, c`roomKey, c`roomDisplay
      ensures Linked() && Grown()
      ensures IsRoom(room, Some(NormalizeRoomKey(name)))
      ensures var m := ChatModel.MoveClientRoom(old(Abs()), c.id, name);
        Abs() == m.state && already == m.already && (!already ==> IsRoom(previous, m.previous))
    {
      hide Abs, Linked, NormalizeRoomKey, Relocated, IsRoom, Grown, ChatModel.MoveClientRoom;
      room, previous, already := Relocate(c, name);
      MoveSplits(old(Abs()), c.id, name);
    }

    lemma OneRoomLess(before: map<string, RoomView>, key: string)
      requires rooms.Keys == before.Keys - {key}
      requires forall k :: k in rooms ==> rooms[k].View() == before[k]
      ensures RoomViews() == before - {key}
    {
      hide Room.View;
    }

    method DeleteView(key: string)
      requires RoomsValid() && RoomsApart() && MembersRegistered()
      modifies `rooms
      ensures RoomsValid() && RoomsApart() && MembersRegistered() && rooms == old(rooms) - {key}
      ensures RoomViews() == old(RoomViews()) - {key}
    {
      ghost var before := RoomViews();
      hide Room.View, Room.Valid, Registered;
      rooms := rooms - {key};
      OneRoomLess(before, key);
    }

    method DeleteRoom(key: string)
      requires Linked()
      modifies `rooms
      ensures Linked() && rooms == old(rooms) - {key}
      ensures Abs() == old(Abs()).(rooms := old(Abs()).rooms - {key})
    {
      hide RoomViews, SessionViews, Boxes, NameIds, ClientsOk, NamesRegistered, RoomsValid, RoomsApart,
           MembersRegistered;
      DeleteView(key);
    }

    lemma OneClientLess(sessionsThen: map<string, Session>, boxesThen: map<string, Box>, id: string)
      requires ClientsOk() && clients.Keys == sessionsThen.Keys - {id} && clients.Keys == boxesThen.Keys - {id}
      requires forall x :: x in clients ==> clients[x].View() == sessionsThen[x] && clients[x].box == boxesThen[x]
      ensures SessionViews() == sessionsThen - {id} && Boxes() == boxesThen - {id}
    {
      hide Client.View, Client.Valid;
    }

    // Indexed nowhere but under its id and its name.
    ghost predicate Loose(c: Client)
      reads `rooms, `names, rooms.Values`members, c`name
    {
      && (forall k :: k in rooms ==> c.id !in rooms[k].members)
      && (forall n :: n in names && names[n] == c ==> n == Lower(c.name))
    }

    method ForgetIn(c: Client)
      requires ClientsOk() && NamesRegistered() && MembersRegistered() && RoomsValid() && Registered(c) && Loose(c)
      modifies `clients, `names
      ensures clients == old(clients) - {c.id} && names == old(names) - {Lower(c.name)}
      ensures ClientsOk() && NamesRegistered() && MembersRegistered()
    {
      hide Client.Valid, Lower;
      clients, names := clients - {c.id}, names - {Lower(c.name)};
    }

    method Forget(c: Client)
      requires Linked() && Registered(c) && Loose(c)
      modifies `clients, `names
      ensures Linked() && clients == old(clients) - {c.id}
      ensures Abs() == Forgotten(old(Abs()), c.id)
    {
      ghost var sessionsThen, boxesThen, namesThen := SessionViews(), Boxes(), NameIds();
      hide ClientsOk, NamesRegistered, MembersRegistered, RoomsValid, RoomsApart, RoomViews, Loose, Lower;
      ForgetIn(c);
      OneClientLess(sessionsThen, boxesThen, c.id);
      hide SessionViews, Boxes;
      assert NameIds() == namesThen - {Lower(c.name)};
    }

    // What is left of c's seat: the room it was in, still listed or empty.
    ghost predicate Seatless(c: Client, room: Room?)
      reads `rooms, c, room, if room == null then {} else {room.buf}
    {
      if room == null then c.roomKey == "" || c.roomKey !in rooms
      else
        c.roomKey != "" && room.Valid() &&
        if c.roomKey in rooms then rooms[c.roomKey] == room else room.members.Keys == {}
    }

    method Sweep(c: Client, room: Room?)
      requires Linked() && Registered(c) && IsRoom(room, Left(Abs(), c.id)) && Seatless(c, room)
      modifies `rooms
      ensures Linked() && Abs() == Swept(cfg, old(Abs()), c.id)
      ensures Seatless(c, room)
    {
      hide Abs, Linked, EqualFold, Room.Valid;
      if room != null {
        ClientSeen(c);
        RoomSeen(c.roomKey);
        if room.MemberCount() == 0 && !EqualFold(room.name, cfg.lobbyName) {
          DeleteRoom(c.roomKey);
        }
      }
    }

    lemma IsLoose(c: Client, before: State)
      requires Linked() && Registered(c) && before.sessions == Abs().sessions && before.names == Abs().names
      requires SeatsOk(before.rooms, before.sessions)
      requires NamesOk(before.sessions, before.names) && c.id in before.sessions
      requires Abs() == Swept(cfg, Vacated(before, c.id), c.id)
      ensures Loose(c)
    {
      NotSeated(cfg, before, c.id);
      hide SeatsOk, NamesOk, Swept, Vacated, Lower;
      forall n | n in names && names[n] == c ensures n == Lower(c.name) {
        OnlyName(before, c.id, n);
      }
      forall k | k in rooms ensures c.id !in rooms[k].members {
        assert RoomViews()[k] == rooms[k].View();
      }
    }

    lemma SeatIsLeft(c: Client, room: Room?)
      requires Linked() && Registered(c) && IsRoom(room, Left(Abs(), c.id))
      ensures Seatless(c, room)
    {
      ClientSeen(c);
      hide Abs, Room.Valid;
    }

    method LeaveSeat(c: Client) returns (room: Room?)
      requires Linked() && Registered(c)
      modifies `rooms, places`members
      ensures Linked() && Seatless(c, room) && Abs() == Swept(cfg, Vacated(old(Abs()), c.id), c.id)
    {
      hide Abs, Linked, Vacated, Swept, Seatless, Left, IsRoom;
      StillLeft(Abs(), c.id);
      room := Vacate(c);
      SeatIsLeft(c, room);
      Sweep(c, room);
    }

    // removeClient's lock section. The order of the three parts inside it cannot be observed.
    method Unregister(c: Client) returns (room: Room?)
      requires Linked() && Registered(c)
      requires SeatsOk(Abs().rooms, Abs().sessions) && NamesOk(Abs().sessions, Abs().names)
      modifies `rooms, `clients, `names, places`members
      ensures Linked() && clients == old(clients) - {c.id} && Seatless(c, room)
      ensures Abs() == Removed(cfg, old(Abs()), c.id)
    {
      hide Abs, Linked, SeatsOk, NamesOk, Vacated, Swept, Forgotten, Removed, Loose, Seatless;
      room := LeaveSeat(c);
      IsLoose(c, old(Abs()));
      RemoveSplits(cfg, old(Abs()), c.id);
      Forget(c);
    }

    lemma SeatlessAddressable(c: Client, room: Room)
      requires Linked() && Seatless(c, room) && c.id !in clients
      ensures room.Valid() && Addressable(room, c)
      ensures if c.roomKey in Abs().rooms
              then Abs().rooms[c.roomKey].members == room.members.Keys && Abs().rooms[c.roomKey].name == room.name
              else room.members.Keys == {}
    {
      hide Room.Window, LastN;
    }

    method RemoveClient(c: Client)
      requires Linked() && Registered(c)
      requires SeatsOk(Abs().rooms, Abs().sessions) && NamesOk(Abs().sessions, Abs().names)
      modifies `rooms, `clients, `names, places`members, clients.Values`queue, clients.Values`box
      ensures Linked() && Abs() == ChatModel.RemoveClient(cfg, old(Abs()), c.id)
      ensures clients == old(clients) - {c.id}
    {
      hide Abs, Linked, SeatsOk, NamesOk, Removed, ChatModel.RemoveClient, Room.Valid, Addressable;
      ClientSeen(c);
      RemovedShape(cfg, Abs(), c.id);
      var room := Unregister(c);
      if room != null {
        SeatlessAddressable(c, room);
        RemovalAnnounced(cfg, old(Abs()), c.id, room.members.Keys, room.name);
        BroadcastRoom(room, c, Announcement(room.name));
      }
    }

    method CleanupRoom(room: Room, ghost key: string)
      requires Linked() && key in rooms && rooms[key] == room
      modifies `rooms
      ensures Linked() && Abs() == ChatModel.CleanupRoom(cfg, old(Abs()), key)
    {
      hide Abs, Linked, EqualFold;
      RoomSeen(key);
      if !EqualFold(room.name, cfg.lobbyName) && room.MemberCount() == 0 {
        DeleteRoom(room.key);
      }
    }

    // ---- Joining

    // One formatted history line after another.
    method Replay(c: Client, name: string, texts: array<string>, recall: bool)
      requires Linked() && Registered(c)
      modifies clients.Values`queue, clients.Values`box
      ensures Linked()
      ensures Abs() == DeliverAll(cfg, old(Abs()), c.id,
        if recall then Recalls(name, texts[..]) else Replays(name, texts[..]))
    {
      hide Abs, Linked, Registered, Deliver, DeliverAll, Format;
      DeliverFew(cfg, Abs(), c.id, Notice);
      ghost var lines := if recall then Recalls(name, texts[..]) else Replays(name, texts[..]);
      for i := 0 to texts.Length
        invariant Linked() && Abs() == DeliverAll(cfg, old(Abs()), c.id, lines[..i])
      {
        var text := Format(name, texts[i]);
        var l := if recall then Recalled(text) else Replayed(text);
        DeliverOneMore(cfg, old(Abs()), c.id, lines[..i], l);
        assert lines[..i + 1] == lines[..i] + [l];
        Tell(c, l);
      }
      assert lines[..texts.Length] == lines;
    }

    method Introduce(c: Client, topic: string)
      requires Linked() && Registered(c)
      modifies clients.Values`queue, clients.Values`box
      ensures Linked() && Abs() == DeliverAll(cfg, old(Abs()), c.id, Top(topic))
    {
      hide Abs, Linked, Registered, Deliver, DeliverAll;
      DeliverFew(cfg, Abs(), c.id, Notice);
      DeliverOneMore(cfg, Abs(), c.id, [Notice], Notice);
      assert [Notice] + [] == [Notice];
      Tell(c, Notice);
      if topic != "" {
        Tell(c, Notice);
      }
    }

    method ShowHistory(c: Client, name: string, history: array<string>)
      requires Linked() && Registered(c)
      modifies clients.Values`queue, clients.Values`box
      ensures Linked() && Abs() == DeliverAll(cfg, old(Abs()), c.id, Bottom(name, history[..]))
    {
      hide Abs, Linked, Registered, Deliver, DeliverAll, Replays;
      ghost var lines := Replays(name, history[..]);
      DeliverFew(cfg, Abs(), c.id, Notice);
      if history.Length > 0 {
        DeliverInTwo(cfg, Abs(), c.id, [Notice], lines);
        Tell(c, Notice);
        Replay(c, name, history, false);
      }
    }

    // What a client is sent on entering a room.
    method Greet(c: Client, room: Room)
      requires Linked() && Registered(c) && room.Valid()
      modifies clients.Values`queue, clients.Values`box
      ensures Linked() && Abs() == DeliverAll(cfg, old(Abs()), c.id, Greeting(cfg, room.View()))
    {
      hide Abs, Linked, Registered, DeliverAll, Room.Valid, Recent, Greeting, Top, Bottom;
      ghost var replay := Recent(room.View().history, cfg.historyLimit);
      GreetingSplits(cfg, room.View());
      DeliverInTwo(cfg, Abs(), c.id, Top(room.topic), Bottom(room.name, replay));
      Introduce(c, room.topic);
      var history := room.RecentHistory(cfg.historyLimit);
      ShowHistory(c, room.name, history);
    }

    lemma ListedAddressable(room: Room, key: string, exclude: Client?)
      requires Linked() && key in rooms && rooms[key] == room && (exclude == null || Registered(exclude))
      ensures room.Valid() && Addressable(room, exclude)
    {
      hide Room.Window, LastN;
    }

    method AnnounceIn(room: Room, exclude: Client?, ghost key: string)
      requires Linked() && key in rooms && rooms[key] == room && (exclude == null || Registered(exclude))
      modifies clients.Values`queue, clients.Values`box
      ensures Linked() && Abs() == Announce(cfg, old(Abs()), key, Ids(exclude))
    {
      hide Abs, Linked, Registered, Deliver, Addressable, Room.Valid;
      ListedAddressable(room, key, exclude);
      RoomSeen(key);
      BroadcastRoom(room, exclude, Announcement(room.name));
    }

    method PartWith(c: Client, previous: Room?, ghost key: Option<string>)
      requires Linked() && Registered(c) && IsRoom(previous, key)
      modifies `rooms, clients.Values`queue, clients.Values`box
      ensures Linked() && Abs() == Leave(cfg, old(Abs()), c.id, key)
    {
      hide Abs, Linked, Registered, Announce, ChatModel.CleanupRoom;
      if previous != null {
        AnnounceIn(previous, c, key.value);
        CleanupRoom(previous, key.value);
      }
    }

    method Settle(c: Client, room: Room, previous: Room?, ghost key: string, ghost previousKey: Option<string>)
      requires Linked() && Registered(c) && IsRoom(room, Some(key)) && IsRoom(previous, previousKey) && previous != room
      modifies `rooms, clients.Values`queue, clients.Values`box
      ensures Linked() && Abs() == Settled(cfg, old(Abs()), c.id, key, previousKey)
    {
      hide Abs, Linked, Registered, Announce, DeliverAll, Greeting, Leave, Room.Valid, Addressable, Room.View;
      ListedAddressable(room, key, c);
      RoomSeen(key);
      GreetingKeepsRooms(cfg, Abs(), c.id, Greeting(cfg, room.View()));
      Greet(c, room);
      AnnounceIn(room, c, key);
      if previous != room {
        PartWith(c, previous, previousKey);
      }
    }

    lemma OtherRoom(room: Room, previous: Room?, key: string, previousKey: Option<string>)
      requires Linked() && IsRoom(room, Some(key)) && IsRoom(previous, previousKey) && previousKey != Some(key)
      ensures previous != room
    {}

    method Welcome(c: Client, room: Room, previous: Room?, already: bool, ghost key: string,
      ghost previousKey: Option<string>)
      requires Linked() && Registered(c) && IsRoom(room, Some(key))
      requires !already ==> IsRoom(previous, previousKey) && previousKey != Some(key)
      modifies `rooms, clients.Values`queue, clients.Values`box
      ensures Linked()
      ensures Abs() == if already then Notify(cfg, old(Abs()), c.id)
        else Settled(cfg, old(Abs()), c.id, key, previousKey)
    {
      hide Abs, Linked, Registered, Deliver, Settled;
      if already {
        Tell(c, Notice);
      } else {
        OtherRoom(room, previous, key, previousKey);
        Settle(c, room, previous, key, previousKey);
      }
    }

    method JoinNamed(c: Client, ghost desired: string, name: string)
      requires Linked() && Registered(c) && RoomsOk(Abs().rooms) && Wanted(cfg, desired) == Some(name)
      modifies `rooms, `places, `buffers, places`members, c`roomKey, c`roomDisplay, clients.Values`queue,
               clients.Values`box
      ensures Linked() && Grown()
      ensures Abs() == ChatModel.JoinRoom(cfg, old(Abs()), c.id, desired)
    {
      hide Abs, Linked, RoomsOk, Notify, Settled, Wanted, NormalizeRoomKey, ChatModel.JoinRoom,
           ChatModel.MoveClientRoom, IsRoom, Grown;
      ghost var m := ChatModel.MoveClientRoom(Abs(), c.id, name);
      JoinPlan(cfg, Abs(), c.id, desired, name);
      var room, previous, already := MoveClientRoom(c, name);
      Welcome(c, room, previous, already, NormalizeRoomKey(name), m.previous);
    }

    method JoinRoom(c: Client, desired: string)
      requires Linked() && Registered(c) && RoomsOk(Abs().rooms)
      modifies `rooms, `places, `buffers, places`members, c`roomKey, c`roomDisplay, clients.Values`queue,
               clients.Values`box
      ensures Linked() && Grown()
      ensures Abs() == ChatModel.JoinRoom(cfg, old(Abs()), c.id, desired)
    {
      hide Abs, Linked, RoomsOk, Deliver, SanitizeRoomName, Trim, ChatModel.JoinRoom;
      var name := SanitizeRoomName(if Trim(desired) == "" then cfg.lobbyName else desired);
      if name.None? {
        RefusedJoin(cfg, Abs(), c.id, desired);
        Tell(c, Notice);
      } else {
        JoinNamed(c, desired, name.value);
      }
    }

    // ---- Commands

    method RenameIn(c: Client, name: string)
      requires ClientsOk() && NamesRegistered() && Registered(c)
      modifies `names, c`name
      ensures names == (old(names) - {Lower(old(c.name))})[Lower(name) := c] && NamesRegistered()
      ensures c.View() == old(c.View()).(name := name)
      ensures forall id :: id in clients && id != c.id ==> clients[id].View() == old(clients[id].View())
    {
      assert forall id :: id in clients && id != c.id ==> clients[id] != c;
      hide Lower, ClientsOk;
      names := (names - {Lower(c.name)})[Lower(name) := c];
      c.name := name;
    }

    method RenameSeen(c: Client, name: string)
      requires ClientsOk() && NamesRegistered() && Registered(c)
      modifies `names, c`name
      ensures names == (old(names) - {Lower(old(c.name))})[Lower(name) := c] && NamesRegistered() && c.name == name
      ensures SessionViews() == old(SessionViews())[c.id := Session(name, c.roomKey, c.roomDisplay)]
    {
      ghost var sessionsThen := SessionViews();
      assert clients.Keys == sessionsThen.Keys + {c.id};
      hide ClientsOk, NamesRegistered, Lower;
      RenameIn(c, name);
      OneClientChanged(sessionsThen, c);
      hide SessionViews;
    }

    method Rename(c: Client, name: string)
      requires Linked() && Registered(c)
      modifies `names, c`name
      ensures Linked() && Abs() == ChatModel.Rename(old(Abs()), c.id, name) && c.name == name
    {
      hide RoomViews, Boxes, ClientsOk, NamesRegistered, RoomsValid, RoomsApart, MembersRegistered, Lower, IdsOf,
           SessionViews;
      ClientSeen(c);
      IdsRenamed(names, Lower(c.name), Lower(name), c);
      RenameSeen(c, name);
    }

    lemma NameSeen(n: string)
      ensures n in Abs().names <==> n in names
      ensures n in names ==> Abs().names[n] == names[n].id
    {}

    method CmdNick(c: Client, args: string)
      requires Linked() && Registered(c)
      modifies `names, c`name, clients.Values`queue, clients.Values`box
      ensures Linked() && Abs() == Nick(cfg, old(Abs()), c.id, args)
    {
      hide Abs, Linked, Notify, Announce, ChatModel.Rename, RoomOf, Lower, Trim, SanitizeUserName;
      var name := SanitizeUserName(args);
      if Trim(args) == "" || name.None? {
        Inform(c);
        return;
      }
      NameSeen(Lower(name.value));
      if Lower(name.value) in names {
        Inform(c);
        return;
      }
      Rename(c, name.value);
      Inform(c);
      RoomFound(c);
      var room := RoomForClient(c);
      if room != null {
        AnnounceIn(room, c, RoomOf(Abs(), c.id).value);
      }
    }

    // c.sendSystem
    method Inform(c: Client)
      requires Linked() && Registered(c)
      modifies clients.Values`queue, clients.Values`box
      ensures Linked() && Abs() == Notify(cfg, old(Abs()), c.id)
    {
      hide Abs, Linked, Registered;
      Tell(c, Notice);
    }

    method DirectMessage(from: Client, target: string, text: string)
      requires Linked() && Registered(from)
      modifies clients.Values`queue, clients.Values`box
      ensures Linked() && Abs() == ChatModel.DirectMessage(cfg, old(Abs()), from.id, target, text)
    {
      hide Abs, Linked, Notify, Deliver, Lower, Trim;
      var key, payload := Lower(target), Trim(text);
      NameSeen(key);
      if key !in names || payload == "" {
        Inform(from);
        return;
      }
      var to := names[key];
      NameRegistered(key);
      ClientSeen(from);
      ClientSeen(to);
      Tell(to, Direct(true, from.name, payload));
      Tell(from, Direct(false, to.name, payload));
    }

    lemma NameRegistered(n: string)
      requires Linked() && n in names
      ensures Registered(names[n])
    {}

    method CmdMsg(c: Client, args: string)
      requires Linked() && Registered(c)
      modifies clients.Values`queue, clients.Values`box
      ensures Linked() && Abs() == Msg(cfg, old(Abs()), c.id, args)
    {
      hide Abs, Linked, Notify, SplitMsg, ChatModel.DirectMessage;
      match SplitMsg(args)
      case Send(target, body) => DirectMessage(c, target, body);
      case _ => Inform(c);
    }

    method SetTopicIn(room: Room, ghost key: string, text: string)
      requires RoomsValid() && RoomsApart() && key in rooms && rooms[key] == room
      modifies room`topic
      ensures RoomsValid() && room.View() == old(room.View()).(topic := Trim(text))
      ensures forall k :: k in rooms && k != key ==> rooms[k].View() == old(rooms[k].View())
    {
      hide Room.Window, LastN, Trim;
      room.SetTopic(text);
    }

    method SetTopic(room: Room, ghost key: string, text: string)
      requires Linked() && key in rooms && rooms[key] == room
      modifies room`topic
      ensures Linked()
      ensures Abs() == old(Abs()).(rooms := old(Abs()).rooms[key := old(Abs()).rooms[key].(topic := Trim(text))])
    {
      ghost var before := RoomViews();
      hide SessionViews, Boxes, NameIds, ClientsOk, NamesRegistered, RoomsValid, RoomsApart, MembersRegistered,
           Room.View, Trim;
      SetTopicIn(room, key, text);
      OneRoomChanged(before, key);
    }

    method CmdTopic(c: Client, args: string)
      requires Linked() && Registered(c)
      modifies places`topic, clients.Values`queue, clients.Values`box
      ensures Linked() && Abs() == Topic(cfg, old(Abs()), c.id, args)
    {
      hide Abs, Linked, Notify, Announce, Trim, RoomOf, RoomsValid;
      RoomFound(c);
      var room := RoomForClient(c);
      if room == null || Trim(args) == "" {
        Inform(c);
        return;
      }
      ghost var key := RoomOf(Abs(), c.id).value;
      InPlaces(key);
      SetTopic(room, key, args);
      AnnounceIn(room, null, key);
    }

    lemma InPlaces(k: string)
      requires Linked() && k in rooms
      ensures rooms[k] in places && rooms[k].buf in buffers && rooms[k].Valid()
    {
      hide Room.Valid;
    }

    method Recollect(c: Client, room: Room, count: int)
      requires Linked() && Registered(c) && room.Valid()
      modifies clients.Values`queue, clients.Values`box
      ensures Linked()
      ensures var lines := Recent(room.View().history, count);
        Abs() == if lines == [] then Notify(cfg, old(Abs()), c.id)
                 else DeliverAll(cfg, Notify(cfg, old(Abs()), c.id), c.id, Recalls(room.name, lines))
    {
      hide Abs, Linked, Registered, Notify, Recalls, Recent, Room.Valid, LastN, DeliverAll;
      var history := room.RecentHistory(count);
      Inform(c);
      if history.Length > 0 {
        Replay(c, room.name, history, true);
      }
    }

    method CmdHistory(c: Client, args: string)
      requires Linked() && Registered(c)
      modifies clients.Values`queue, clients.Values`box
      ensures Linked() && Abs() == History(cfg, old(Abs()), c.id, args)
    {
      hide Abs, Linked, Notify, RoomOf, ParseOptionalInt, Recalls, Recent, Room.Valid, DeliverAll, LastN;
      RoomFound(c);
      var room := RoomForClient(c);
      var limit := ParseOptionalInt(args, 10);
      if room == null || limit.None? {
        Inform(c);
      } else {
        ghost var key := RoomOf(Abs(), c.id).value;
        InPlaces(key);
        RoomSeen(key);
        Recollect(c, room, if limit.value <= 0 then 10 else limit.value);
      }
    }

    twostate lemma NoGrowth()
      requires places == old(places) && buffers == old(buffers)
      ensures Grown()
    {}

    // postMessage, and the last step of cmdAction
    method Speak(c: Client, text: string, spare: nat)
      requires Linked() && Registered(c)
      modifies `buffers, places`buf, places`off, places`len, places`log, buffers, clients.Values`queue,
               clients.Values`box
      ensures Linked() && Grown()
      ensures Abs() == ChatModel.Speak(cfg, old(Abs()), c.id, text)
    {
      hide Abs, Linked, Notify, RoomOf, Publish, Room.Valid, Grown, Addressable;
      RoomFound(c);
      var room := RoomForClient(c);
      if room == null {
        Inform(c);
        NoGrowth();
      } else {
        ghost var key := RoomOf(Abs(), c.id).value;
        InPlaces(key);
        ListedAddressable(room, key, null);
        StoreAndBroadcast(room, text, spare, key);
      }
    }

    method CmdAction(c: Client, args: string, spare: nat)
      requires Linked() && Registered(c)
      modifies `buffers, places`buf, places`off, places`len, places`log, buffers, clients.Values`queue,
               clients.Values`box
      ensures Linked() && Grown()
      ensures Abs() == if Trim(args) == "" then Notify(cfg, old(Abs()), c.id)
                       else ChatModel.Speak(cfg, old(Abs()), c.id, "* " + c.name + " " + args)
    {
      hide Abs, Linked, Grown, Registered, Notify, ChatModel.Speak, Trim;
      if Trim(args) == "" {
        Inform(c);
        NoGrowth();
      } else {
        Speak(c, "* " + c.name + " " + args, spare);
      }
    }

    // ---- Leaving

    method CloseIn(c: Client)
      requires ClientsOk() && Registered(c)
      modifies c`closed, c`box
      ensures ClientsOk() && Boxes() == old(Boxes())[c.id := c.box]
    {
      ghost var boxesThen := Boxes();
      c.Close();
      OneBoxChanged(boxesThen, c);
      hide Boxes;
    }

    method CloseChannel(c: Client)
      requires Linked() && Registered(c)
      modifies c`closed, c`box
      ensures Linked() && Abs() == old(Abs()).(boxes := old(Abs()).boxes[c.id := c.box])
    {
      hide ClientsOk, Boxes, RoomViews, SessionViews, NameIds, NamesRegistered, RoomsValid, RoomsApart,
           MembersRegistered;
      CloseIn(c);
    }

    // client.shutdown, which runs once.
    method Shutdown(c: Client)
      requires Linked() && Registered(c) && Coherent(cfg, Abs(), {})
      modifies `rooms, `clients, `names, places`members, clients.Values`queue, clients.Values`closed, clients.Values`box
      ensures Linked() && Abs() == ChatModel.RemoveClient(cfg, old(Abs()), c.id)
      ensures clients == old(clients) - {c.id}
    {
      hide Abs, Linked, Coherent, SeatsOk, NamesOk, RoomsOk, ChatModel.RemoveClient;
      CoherentParts(cfg, Abs());
      BoxSeen(c);
      if !c.closed {
        CloseChannel(c);
        RemoveAnyBox(cfg, old(Abs()), c.id, c.box);
        RemoveClient(c);
      }
    }

    lemma BoxSeen(c: Client)
      requires Linked() && Registered(c)
      ensures c.id in Abs().boxes && Abs().boxes[c.id].closed == c.closed
    {}

    // ---- One line of input

    method Quit(c: Client)
      requires Linked() && Registered(c) && Coherent(cfg, Abs(), {})
      modifies `rooms, `clients, `names, places`members, clients.Values`queue, clients.Values`closed, clients.Values`box
      ensures Linked() && Abs() == ChatModel.RemoveClient(cfg, Notify(cfg, old(Abs()), c.id), c.id)
      ensures clients == old(clients) - {c.id}
    {
      hide Abs, Linked, Coherent, Deliver, ChatModel.RemoveClient;
      SendKeeps(cfg, Abs(), {c.id}, Notice, {});
      Inform(c);
      Shutdown(c);
    }

    method Summaries() returns (summaries: seq<Summary>, ghost order: seq<string>)
      requires Linked()
      ensures Enumerates(order, rooms.Keys) && |summaries| == |order|
      ensures forall i :: 0 <= i < |order| ==> summaries[i] == Summarize(rooms[order[i]].View())
    {
      hide Linked;
      summaries, order := [], [];
      var todo := rooms.Keys;
      while todo != {}
        invariant todo <= rooms.Keys && Enumerates(order, rooms.Keys - todo) && |summaries| == |order|
        invariant forall i :: 0 <= i < |order| ==>
          order[i] in rooms && summaries[i] == Summarize(rooms[order[i]].View())
        decreases |todo|
      {
        var k :| k in todo;
        todo := todo - {k};
        var room := rooms[k];
        summaries, order := summaries + [Summary(room.name, room.MemberCount(), room.topic)], order + [k];
      }
    }

    // What /rooms prints, apart from its sorting.
    method CmdRooms(c: Client) returns (summaries: seq<Summary>, ghost order: seq<string>)
      requires Linked() && Registered(c)
      modifies clients.Values`queue, clients.Values`box
      ensures Linked() && Abs() == Notify(cfg, old(Abs()), c.id)
      ensures Enumerates(order, Abs().rooms.Keys) && |summaries| == |order|
      ensures forall i :: 0 <= i < |order| ==> summaries[i] == Summarize(Abs().rooms[order[i]])
    {
      hide Abs, Linked, Registered, Notify, Summarize, Room.View;
      summaries, order := Summaries();
      Inform(c);
      forall i | 0 <= i < |order| ensures summaries[i] == Summarize(Abs().rooms[order[i]]) {
        RoomSeen(order[i]);
      }
    }

    // Commands that change no membership.
    method ExecuteQuietly(c: Client, cmd: string, args: string)
      requires Linked() && Registered(c) && cmd !in ["join", "leave", "me", "quit", "exit"]
      modifies `names, c`name, places`topic, clients.Values`queue, clients.Values`box
      ensures Linked() && Abs() == Execute(cfg, old(Abs()), c.id, cmd, args)
    {
      hide Abs, Linked, Registered, Notify, Nick, ChatModel.JoinRoom, Msg, Topic, History, ChatModel.Speak,
           ChatModel.RemoveClient, Trim;
      if cmd == "nick" {
        CmdNick(c, args);
      } else if cmd == "rooms" {
        var summaries, order := CmdRooms(c);
      } else if cmd == "msg" {
        CmdMsg(c, args);
      } else if cmd == "topic" {
        CmdTopic(c, args);
      } else if cmd == "history" {
        CmdHistory(c, args);
      } else {
        Inform(c);
      }
    }

    method ExecuteCommand(c: Client, cmd: string, args: string, spare: nat)
      requires Linked() && Registered(c) && Coherent(cfg, Abs(), {})
      modifies this, places, buffers, clients.Values
      ensures Linked() && Grown() && (clients == old(clients) || clients == old(clients) - {c.id})
      ensures Abs() == Execute(cfg, old(Abs()), c.id, cmd, args)
    {
      hide Abs, Linked, Grown, Coherent, RoomsOk, Notify, Execute, ChatModel.JoinRoom, ChatModel.Speak,
           ChatModel.RemoveClient, Trim;
      CoherentRooms(cfg, Abs());
      ClientSeen(c);
      ExecuteCases(cfg, Abs(), c.id, cmd, args);
      if cmd == "join" {
        JoinRoom(c, args);
      } else if cmd == "leave" {
        JoinRoom(c, cfg.lobbyName);
      } else if cmd == "me" {
        CmdAction(c, args, spare);
      } else if cmd == "quit" || cmd == "exit" {
        Quit(c);
        NoGrowth();
      } else {
        ExecuteQuietly(c, cmd, args);
        NoGrowth();
      }
    }

    method HandleInput(c: Client, line: string, spare: nat)
      requires Linked() && Registered(c) && Coherent(cfg, Abs(), {})
      modifies this, places, buffers, clients.Values
      ensures Linked() && Grown() && (clients == old(clients) || clients == old(clients) - {c.id})
      ensures Abs() == ChatModel.HandleInput(cfg, old(Abs()), c.id, line)
    {
      hide Abs, Linked, Registered, Grown, Coherent, Execute, ChatModel.Speak, Trim, ParseCommand;
      ClientSeen(c);
      var trimmed := Trim(line);
      if trimmed == "" {
        NoGrowth();
      } else if trimmed[0] == '/' {
        var parsed := ParseCommand(trimmed);
        if parsed.cmd == "" {
          NoGrowth();
        } else {
          ExecuteCommand(c, parsed.cmd, parsed.args, spare);
        }
      } else {
        Speak(c, c.name + ": " + trimmed, spare);
      }
    }

    // ---- Connecting

    method TakeNumber()
      requires Linked()
      modifies `nextID
      ensures Linked() && Abs() == old(Abs()).(nextID := NextSeq(old(nextID))) && nextID == NextSeq(old(nextID))
    {
      hide RoomViews, SessionViews, NameIds, Boxes, ClientsOk, NamesRegistered, RoomsValid, RoomsApart,
           MembersRegistered, NextSeq;
      nextID := NextSeq(nextID);
    }

    method NewGuest() returns (c: Client?)
      requires Linked() && ClientId(nextID) !in clients
      modifies `clients, `names
      ensures Linked() && Abs() == Enrolled(old(Abs()))
      ensures if Lower(GuestName(nextID)) in old(Abs()).names then c == null && clients == old(clients)
              else c != null && fresh(c) && c.id == ClientId(nextID) && clients == old(clients)[c.id := c]
    {
      hide Abs, Linked, ClientId, GuestName, Lower, Client.Valid;
      NameSeen(Lower(GuestName(nextID)));
      NumberSeen();
      c := new Client(ClientId(nextID), GuestName(nextID), cfg.sendBufferSize);
      var ok := AddClient(c);
      if !ok {
        c := null;
      }
    }

    // The new client; null when its guest name is taken.
    method RegisterNew() returns (c: Client?)
      requires Linked() && ClientId(NextSeq(nextID)) !in clients
      modifies `nextID, `clients, `names
      ensures Linked() && Abs() == Register(old(Abs()))
      ensures if Lower(GuestName(Abs().nextID)) in old(Abs()).names then c == null && clients == old(clients)
              else
                c != null && fresh(c) && Registered(c) && c.id == ClientId(Abs().nextID) &&
                clients == old(clients)[c.id := c]
    {
      hide Abs, Linked, ClientId, GuestName, NextSeq, Lower, Client.Valid, Enrolled, Register;
      NumberSeen();
      RegisterSplits(Abs());
      TakeNumber();
      c := NewGuest();
      NumberSeen();
    }

    twostate lemma FreshOne(new c: Client?)
      requires if c == null then clients == old(clients) else fresh(c) && clients == old(clients)[c.id := c]
      ensures OnlyFresh()
    {}

    method Accept() returns (c: Client?)
      requires Linked() && ClientId(NextSeq(nextID)) !in clients
      modifies `nextID, `clients, `names
      ensures Linked() && OnlyFresh() && Abs() == Register(old(Abs()))
      ensures (c == null) == (Lower(GuestName(Abs().nextID)) in old(Abs()).names)
      ensures c != null ==>
        fresh(c) && Registered(c) && c.id == ClientId(Abs().nextID) && clients == old(clients)[c.id := c]
    {
      hide Abs, Linked, Register, ClientId, GuestName, NextSeq, Lower, Registered, OnlyFresh;
      c := RegisterNew();
      FreshOne(c);
    }

    // client.start up to the read loop
    method Start(c: Client)
      requires Linked() && Registered(c) && RoomsOk(Notify(cfg, Abs(), c.id).rooms)
      modifies `rooms, `places, `buffers, places`members, c`roomKey, c`roomDisplay, clients.Values`queue,
               clients.Values`box
      ensures Linked() && fresh(places - old(places)) && fresh(buffers - old(buffers))
      ensures Abs() == ChatModel.JoinRoom(cfg, Notify(cfg, old(Abs()), c.id), c.id, cfg.lobbyName)
    {
      hide Abs, Linked, RoomsOk, ChatModel.JoinRoom, Notify;
      Inform(c);
      JoinRoom(c, cfg.lobbyName);
    }

    method HandleConn()
      requires Linked() && Coherent(cfg, Abs(), {}) && ClientId(NextSeq(nextID)) !in clients
      modifies this, places, clients.Values
      ensures Linked() && Grown() && OnlyFresh()
      ensures Abs() == Connect(cfg, old(Abs()))
    {
      hide Abs, Linked, Coherent, RoomsOk, ChatModel.JoinRoom, Notify, ClientId, GuestName, NextSeq, Lower, Register,
           Connect, OnlyFresh;
      CoherentRooms(cfg, Abs());
      ConnectSteps(cfg, Abs());
      var c := Accept();
      if c != null {
        Start(c);
      }
    }

    // ---- Runs

    lemma KnownId(id: string)
      requires Linked()
      ensures id in Abs().boxes <==> id in clients
      ensures id in clients ==> Registered(clients[id]) && clients[id].id == id && Abs().boxes[id] == clients[id].box
    {}

    method TakeIn(c: Client)
      requires ClientsOk() && Registered(c)
      modifies c`queue, c`box
      ensures ClientsOk() && Boxes() == old(Boxes())[c.id := old(c.box).Take()]
    {
      ghost var boxesThen := Boxes();
      var l := c.Receive();
      OneBoxChanged(boxesThen, c);
      hide Boxes;
    }

    lemma NumberSeen()
      ensures Abs().nextID == nextID && Abs().sessions.Keys == clients.Keys
    {}

    // The write loop takes one line.
    method WriteOne(c: Client)
      requires Linked() && Registered(c)
      modifies c`queue, c`box
      ensures Linked() && Abs() == old(Abs()).(boxes := old(Abs()).boxes[c.id := old(c.box).Take()])
    {
      hide ClientsOk, Boxes, RoomViews, SessionViews, NameIds, NamesRegistered, RoomsValid, RoomsApart,
           MembersRegistered;
      TakeIn(c);
    }

    method HandleNext(e: Event, spare: nat)
      requires Linked() && Good(cfg, Abs()) && (e.Connected? ==> nextID + 1 < SEQ_LIMIT)
      modifies this, places, buffers, clients.Values
      ensures Linked() && Grown() && OnlyFresh()
      ensures Abs() == Step(cfg, old(Abs()), e)
    {
      hide Abs, Linked, Coherent, Grown, IdsOk, EveryoneJoined, Wanted, Connect, ChatModel.HandleInput,
           ChatModel.RemoveClient, ClientId, NextSeq;
      NumberSeen();
      match e
      case Connected =>
        FreshId(Abs().sessions.Keys, Abs().nextID);
        HandleConn();
      case Input(id, line) =>
        KnownId(id);
        NoGrowth();
        if id in clients {
          HandleInput(clients[id], line, spare);
        }
      case Disconnected(id) =>
        KnownId(id);
        if id in clients {
          Shutdown(clients[id]);
        }
        NoGrowth();
      case Taken(id) =>
        KnownId(id);
        if id in clients {
          WriteOne(clients[id]);
        }
        NoGrowth();
    }
  }

  lemma {:induction false} ConnectsPrefix(events: seq<Event>, i: nat)
    requires i <= |events|
    ensures Connects(events[..i]) <= Connects(events)
  {
    if i < |events| {
      var front := events[..|events| - 1];
      assert front[..i] == events[..i];
      ConnectsPrefix(front, i);
    } else {
      assert events[..i] == events;
    }
  }

  lemma NextRun(cfg: Settings, events: seq<Event>, i: nat)
    requires i < |events|
    ensures Run(cfg, Initial, events[..i + 1]) == Step(cfg, Run(cfg, Initial, events[..i]), events[i])
    ensures Connects(events[..i + 1]) == Connects(events[..i]) + if events[i].Connected? then 1 else 0
    ensures Connects(events[..i + 1]) <= Connects(events)
  {
    hide Step;
    assert events[..i + 1][..i] == events[..i];
    ConnectsPrefix(events, i + 1);
  }

  // Any run: the server's objects go through exactly the states of the model.
  method Serve(config: Config, events: seq<Event>, spares: seq<nat>) returns (server: Server)
    requires Connects(events) < SEQ_LIMIT && |spares| == |events|
    ensures fresh(server) && server.cfg == WithDefaults(config) && server.Linked()
    ensures server.Abs() == Run(WithDefaults(config), Initial, events)
  {
    hide Server.Linked, Server.Abs, Good, Step;
    var cfg := WithDefaults(config);
    server := new Server(config);
    GoodInitially(cfg);
    for i := 0 to |events|
      invariant fresh(server) && server.cfg == cfg && server.Linked()
      invariant fresh(server.places) && fresh(server.buffers) && fresh(server.clients.Values)
      invariant server.Abs() == Run(cfg, Initial, events[..i]) && Good(cfg, server.Abs())
      invariant server.Abs().nextID == Connects(events[..i])
    {
      NextRun(cfg, events, i);
      GoodStep(cfg, server.Abs(), events[i]);
      server.NumberSeen();
      server.HandleNext(events[i], spares[i]);
    }
    assert events[..|events|] == events;
  }
}
