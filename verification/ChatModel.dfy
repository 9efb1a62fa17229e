// The TCP chat server on values: what one connect, one input line, one disconnect
// or one queue read does to the whole server. The classes in ChatServer.dfy are
// proved against these functions; ChatInvariants.dfy and ChatStream.dfy prove
// properties of every run of them.
module ChatModel {
  import opened Text
  import opened Commands
  import opened Channels

  // ---- Configuration

  datatype Config = Config(historyLimit: int, lobbyName: string, sendBufferSize: int)

  type Settings = c: Config | c.historyLimit > 0 && c.lobbyName != "" && c.sendBufferSize > 0
    witness Config(50, "lobby", 64)

  function WithDefaults(c: Config): Settings {
    Config(if c.historyLimit <= 0 then 50 else c.historyLimit,
           if c.lobbyName == "" then "lobby" else c.lobbyName,
           if c.sendBufferSize <= 0 then 64 else c.sendBufferSize)
  }

  // ---- Lines and outgoing queues

  // What is put on a client's send channel. The constructor says why a line was sent;
  // no branch of the server looks at it. The wording of notices and announcements is not modelled.
  datatype Line =
    | Notice
    | Announcement(room: string)
    | Direct(incoming: bool, peer: string, body: string)
    | Replayed(text: string)
    | Stored(text: string)
    | Recalled(text: string)

  function Sanitized(l: Line): Line {
    match l
    case Replayed(t) => Replayed(TrimNewlines(t))
    case Stored(t) => Stored(TrimNewlines(t))
    case Recalled(t) => Recalled(TrimNewlines(t))
    case _ => l
  }

  type Box = Outbox<Line>

  const EmptyBox: Box := Outbox([], [], 0, false)

  // ---- Room history

  function LastN<T>(s: seq<T>, n: nat): seq<T> {
    if |s| > n then s[|s| - n..] else s
  }

  // Trimming at every append keeps the same window as trimming the whole log once.
  lemma WindowAppend<T>(log: seq<T>, entry: T, limit: nat)
    requires limit > 0
    ensures LastN(LastN(log, limit) + [entry], limit) == LastN(log + [entry], limit)
  {}

  function Recent(history: seq<string>, limit: int): seq<string> {
    if limit <= 0 || limit > |history| then history else LastN(history, limit)
  }

  // ---- The server state

  // log is the unbounded list of everything ever appended; history is the trimmed window.
  datatype RoomView = RoomView(key: string, name: string, topic: string, members: set<string>,
                               history: seq<string>, log: seq<string>)

  datatype Session = Session(name: string, roomKey: string, roomDisplay: string)

  datatype State = State(rooms: map<string, RoomView>, sessions: map<string, Session>,
                         names: map<string, string>, nextID: nat, boxes: map<string, Box>)

  const Initial := State(map[], map[], map[], 0, map[])

  const SEQ_LIMIT := 0x1_0000_0000_0000_0000

  function NextSeq(n: nat): nat { (n + 1) % SEQ_LIMIT }

  function ClientId(n: nat): string { "client-" + Decimal(n) }

  function GuestName(n: nat): string { "guest-" + Decimal4(n) }

  // ---- Sending

  function Deliver(cfg: Settings, s: State, to: set<string>, l: Line): State {
    s.(boxes := map id | id in s.boxes ::
         if id in to then s.boxes[id].Push(Sanitized(l), cfg.sendBufferSize) else s.boxes[id])
  }

  function DeliverAll(cfg: Settings, s: State, id: string, lines: seq<Line>): State {
    if lines == [] then s
    else Deliver(cfg, DeliverAll(cfg, s, id, lines[..|lines| - 1]), {id}, lines[|lines| - 1])
  }

  function Notify(cfg: Settings, s: State, id: string): State {
    Deliver(cfg, s, {id}, Notice)
  }

  function Format(room: string, text: string): string {
    "[" + room + "] " + text
  }

  function Replays(room: string, history: seq<string>): seq<Line> {
    seq(|history|, i requires 0 <= i < |history| => Replayed(Format(room, history[i])))
  }

  function Recalls(room: string, history: seq<string>): seq<Line> {
    seq(|history|, i requires 0 <= i < |history| => Recalled(Format(room, history[i])))
  }

  // ---- Rooms

  // roomForClient, as the key of the room found.
  function RoomOf(s: State, id: string): Option<string>
    requires id in s.sessions
  {
    var key := s.sessions[id].roomKey;
    if key != "" && key in s.rooms then Some(key) else None
  }

  // broadcastRoom with store = false
  function Announce(cfg: Settings, s: State, key: string, exclude: set<string>): State
    requires key in s.rooms
  {
    Deliver(cfg, s, s.rooms[key].members - exclude, Announcement(s.rooms[key].name))
  }

  function AppendHistory(cfg: Settings, r: RoomView, text: string): RoomView {
    r.(history := LastN(r.history + [text], cfg.historyLimit), log := r.log + [text])
  }

  // broadcastRoom with store = true
  function Publish(cfg: Settings, s: State, key: string, text: string): State
    requires key in s.rooms
  {
    var s1 := s.(rooms := s.rooms[key := AppendHistory(cfg, s.rooms[key], text)]);
    Deliver(cfg, s1, s1.rooms[key].members, Stored(Format(s1.rooms[key].name, text)))
  }

  function NewRoom(name: string): RoomView {
    var trimmed := if Trim(name) == "" then "lobby" else Trim(name);
    RoomView(NormalizeRoomKey(trimmed), trimmed, "", {}, [], [])
  }

  function Without(r: RoomView, id: string): RoomView { r.(members := r.members - {id}) }

  function With(r: RoomView, id: string): RoomView { r.(members := r.members + {id}) }

  datatype Move = Move(state: State, previous: Option<string>, already: bool)

  // moveClientRoom for a sanitized, hence non-blank, name
  function MoveClientRoom(s: State, id: string, name: string): Move
    requires id in s.sessions
  {
    var key := NormalizeRoomKey(name);
    var listed := if key in s.rooms then s.rooms else s.rooms[key := NewRoom(name)];
    var current := s.sessions[id].roomKey;
    if current == listed[key].key then Move(s.(rooms := listed), None, true)
    else
      var previous := if current != "" && current in listed then Some(current) else None;
      var left := if previous.Some? then listed[current := Without(listed[current], id)] else listed;
      Move(s.(rooms := left[key := With(left[key], id)],
              sessions := s.sessions[id := s.sessions[id].(roomKey := left[key].key, roomDisplay := left[key].name)]),
           previous, false)
  }

  predicate IsLobby(cfg: Settings, r: RoomView) {
    EqualFold(r.name, cfg.lobbyName)
  }

  // The room at key disappears once it is empty, unless it is the lobby.
  function CleanupRoom(cfg: Settings, s: State, key: string): State
    requires key in s.rooms
  {
    var r := s.rooms[key];
    if IsLobby(cfg, r) || r.members != {} then s else s.(rooms := s.rooms - {r.key})
  }

  function Greeting(cfg: Settings, r: RoomView): seq<Line> {
    var replay := Recent(r.history, cfg.historyLimit);
    [Notice] + (if r.topic != "" then [Notice] else [])
    + (if replay != [] then [Notice] + Replays(r.name, replay) else [])
  }

  function Leave(cfg: Settings, s: State, id: string, previous: Option<string>): State {
    if previous.Some? && previous.value in s.rooms
    then CleanupRoom(cfg, Announce(cfg, s, previous.value, {id}), previous.value)
    else s
  }

  function JoinRoom(cfg: Settings, s: State, id: string, desired: string): State
    requires id in s.sessions
  {
    var name := SanitizeRoomName(if Trim(desired) == "" then cfg.lobbyName else desired);
    if name.None? then Notify(cfg, s, id)
    else
      var m := MoveClientRoom(s, id, name.value);
      if m.already then Notify(cfg, m.state, id)
      else
        var key := NormalizeRoomKey(name.value);
        var greeted := DeliverAll(cfg, m.state, id, Greeting(cfg, m.state.rooms[key]));
        GreetingKeepsRooms(cfg, m.state, id, Greeting(cfg, m.state.rooms[key]));
        Leave(cfg, Announce(cfg, greeted, key, {id}), id, m.previous)
  }

  lemma {:induction false} GreetingKeepsRooms(cfg: Settings, s: State, id: string, lines: seq<Line>)
    ensures var t := DeliverAll(cfg, s, id, lines); s.(boxes := t.boxes) == t && t.boxes.Keys == s.boxes.Keys
  {
    if lines != [] {
      GreetingKeepsRooms(cfg, s, id, lines[..|lines| - 1]);
    }
  }

  // ---- Clients

  // removeClient, followed by the client's queue leaving the picture
  function RemoveClient(cfg: Settings, s: State, id: string): State
    requires id in s.sessions
  {
    var me := s.sessions[id];
    var s1 := s.(sessions := s.sessions - {id}, names := s.names - {Lower(me.name)}, boxes := s.boxes - {id});
    if me.roomKey == "" || me.roomKey !in s.rooms then s1
    else
      var r := Without(s.rooms[me.roomKey], id);
      if r.members == {} && !IsLobby(cfg, r) then s1.(rooms := s.rooms - {me.roomKey})
      else Announce(cfg, s1.(rooms := s.rooms[me.roomKey := r]), me.roomKey, {id})
  }

  // handleConn: refused when the generated guest name is taken.
  function Register(s: State): State {
    var n := NextSeq(s.nextID);
    var key := Lower(GuestName(n));
    var s1 := s.(nextID := n);
    if key in s.names then s1
    else s1.(sessions := s.sessions[ClientId(n) := Session(GuestName(n), "", "")],
             names := s.names[key := ClientId(n)],
             boxes := s.boxes[ClientId(n) := EmptyBox])
  }

  function Connect(cfg: Settings, s: State): State {
    var s1 := Register(s);
    var id := ClientId(s1.nextID);
    if Lower(GuestName(s1.nextID)) in s.names then s1
    else JoinRoom(cfg, Notify(cfg, s1, id), id, cfg.lobbyName)
  }

  // The index part of cmdNick.
  function Rename(s: State, id: string, name: string): State
    requires id in s.sessions
  {
    var oldName := s.sessions[id].name;
    s.(names := (s.names - {Lower(oldName)})[Lower(name) := id],
       sessions := s.sessions[id := s.sessions[id].(name := name)])
  }

  // ---- Commands

  function Nick(cfg: Settings, s: State, id: string, args: string): State
    requires id in s.sessions
  {
    if Trim(args) == "" then Notify(cfg, s, id)
    else
      var name := SanitizeUserName(args);
      if name.None? || Lower(name.value) in s.names then Notify(cfg, s, id)
      else
        var s1 := Notify(cfg, Rename(s, id, name.value), id);
        var room := RoomOf(s1, id);
        if room.Some? then Announce(cfg, s1, room.value, {id}) else s1
  }

  function DirectMessage(cfg: Settings, s: State, id: string, target: string, text: string): State
    requires id in s.sessions
  {
    var key := Lower(target);
    var body := Trim(text);
    if key !in s.names || body == "" then Notify(cfg, s, id)
    else
      var to := s.names[key];
      var toName := if to in s.sessions then s.sessions[to].name else target;
      Deliver(cfg, Deliver(cfg, s, {to}, Direct(true, s.sessions[id].name, body)),
              {id}, Direct(false, toName, body))
  }

  function Msg(cfg: Settings, s: State, id: string, args: string): State
    requires id in s.sessions
  {
    match SplitMsg(args)
    case Send(target, body) => DirectMessage(cfg, s, id, target, body)
    case _ => Notify(cfg, s, id)
  }

  function Topic(cfg: Settings, s: State, id: string, args: string): State
    requires id in s.sessions
  {
    var room := RoomOf(s, id);
    if room.None? || Trim(args) == "" then Notify(cfg, s, id)
    else
      var r := s.rooms[room.value].(topic := Trim(args));
      Announce(cfg, s.(rooms := s.rooms[room.value := r]), room.value, {})
  }

  function History(cfg: Settings, s: State, id: string, args: string): State
    requires id in s.sessions
  {
    var room := RoomOf(s, id);
    var limit := ParseOptionalInt(args, 10);
    if room.None? || limit.None? then Notify(cfg, s, id)
    else
      var r := s.rooms[room.value];
      var lines := Recent(r.history, if limit.value <= 0 then 10 else limit.value);
      if lines == [] then Notify(cfg, s, id)
      else DeliverAll(cfg, Notify(cfg, s, id), id, Recalls(r.name, lines))
  }

  function Speak(cfg: Settings, s: State, id: string, text: string): State
    requires id in s.sessions
  {
    var room := RoomOf(s, id);
    if room.None? then Notify(cfg, s, id) else Publish(cfg, s, room.value, text)
  }

  function Execute(cfg: Settings, s: State, id: string, cmd: string, args: string): State
    requires id in s.sessions
  {
    if cmd == "nick" then Nick(cfg, s, id, args)
    else if cmd == "join" then JoinRoom(cfg, s, id, args)
    else if cmd == "leave" then JoinRoom(cfg, s, id, cfg.lobbyName)
    else if cmd == "msg" then Msg(cfg, s, id, args)
    else if cmd == "topic" then Topic(cfg, s, id, args)
    else if cmd == "history" then History(cfg, s, id, args)
    else if cmd == "me" then
      if Trim(args) == "" then Notify(cfg, s, id)
      else Speak(cfg, s, id, "* " + s.sessions[id].name + " " + args)
    else if cmd == "quit" || cmd == "exit" then RemoveClient(cfg, Notify(cfg, s, id), id)
    else Notify(cfg, s, id) // help, who, rooms, whoami, ping and unknown commands: one line to the caller
  }

  function HandleInput(cfg: Settings, s: State, id: string, line: string): State
    requires id in s.sessions
  {
    var t := Trim(line);
    if t == "" then s
    else if t[0] == '/' then
      var c := ParseCommand(t);
      if c.cmd == "" then s else Execute(cfg, s, id, c.cmd, c.args)
    else Speak(cfg, s, id, s.sessions[id].name + ": " + t)
  }

  // ---- Runs

  datatype Event = Connected | Input(id: string, line: string) | Disconnected(id: string) | Taken(id: string)

  // One event. Only registered clients issue input; a client is shut down once.
  function Step(cfg: Settings, s: State, e: Event): State {
    match e
    case Connected => Connect(cfg, s)
    case Input(id, line) => if id in s.sessions then HandleInput(cfg, s, id, line) else s
    case Disconnected(id) => if id in s.sessions then RemoveClient(cfg, s, id) else s
    case Taken(id) => if id in s.boxes then s.(boxes := s.boxes[id := s.boxes[id].Take()]) else s
  }

  function Run(cfg: Settings, s: State, events: seq<Event>): State {
    if events == [] then s else Step(cfg, Run(cfg, s, events[..|events| - 1]), events[|events| - 1])
  }

  function Connects(events: seq<Event>): (n: nat)
    ensures n <= |events|
  {
    if events == [] then 0
    else Connects(events[..|events| - 1]) + if events[|events| - 1].Connected? then 1 else 0
  }
}
