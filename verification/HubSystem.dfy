// The WebSocket gateway as a transition system: one hub goroutine draining three channels,
// one read loop per connection, and the hub's mutex. Any interleaving of the steps is a run.
module HubSystem {
  import opened Text
  import opened Channels
  import opened HubModel

  // An event in a connection's channel. hub is its position in the hub's emission log;
  // None for events the connection's own read loop puts there.
  datatype Stamped = Stamped(hub: Option<nat>, event: Event)

  // An outbound message and the connection whose read loop pushed it.
  datatype Tagged = Tagged(from: nat, out: Outbound<nat>)

  function Tags(x: nat, outs: seq<Outbound<nat>>): seq<Tagged> {
    seq(|outs|, i requires 0 <= i < |outs| => Tagged(x, outs[i]))
  }

  // One fan-out of the hub: presence (no tag) or a relayed message, with its recipients.
  datatype Emission = Emission(tag: Option<Tagged>, event: Event, to: set<nat>)

  datatype HubPc = Idle | Adding(conn: nat) | Removing(conn: nat) | Relaying(tagged: Tagged)

  datatype ConnPc =
    | Registering                            // blocked on h.register <- conn
    | Reading
    | Subscribing(room: RoomId)              // before SubscribeRoom
    | Subscribed(room: RoomId)               // after SubscribeRoom, before c.rooms[room] = true
    | Unsubscribing(room: RoomId)            // after delete(c.rooms, room), before UnsubscribeRoom
    | Sending(todo: seq<Outbound<nat>>)      // pushing these into the broadcast channel, in order
    | Unregistering                          // blocked on h.unregister <- c
    | Gone

  // What the hub has done with the connection.
  datatype Status = Fresh | Live | Dead

  // start and onlineThen: the emission log's length and the users online when addConn was done with it.
  datatype Conn = Conn(user: UserId, pc: ConnPc, rooms: set<RoomId>, box: Outbox<Stamped>,
                       status: Status, start: nat, onlineThen: set<UserId>)

  datatype Holder = TheHub | AConn(conn: nat)

  datatype State = State(users: Buckets<nat>, rooms: Buckets<nat>, hub: HubPc, lock: Option<Holder>,
                         queue: seq<Tagged>, conns: map<nat, Conn>, nextMessage: nat,
                         enqueued: seq<Tagged>, emissions: seq<Emission>)

  const Initial := State(map[], map[], Idle, None, [], map[], 0, [], [])

  // ---- Client events; a room or user of None stands for an id that does not parse

  datatype ClientEvent =
    | JoinRoom(room: Option<RoomId>)
    | LeaveRoom(room: Option<RoomId>)
    | RoomMessage(room: Option<RoomId>, body: string, attachment: bool)
    | DirectMessage(to: Option<UserId>, body: string, attachment: bool)
    | TypingIn(room: Option<RoomId>, isTyping: bool)
    | TypingTo(to: Option<UserId>, isTyping: bool)
    | Other

  // The store's answers while one client event is handled.
  datatype StoreReply = StoreReply(member: bool, created: bool)

  datatype Action =
    | Connect(c: nat, user: UserId)
    | TakeRegister(c: nat)
    | TakeUnregister(c: nat)
    | TakeBroadcast
    | HubLock
    | HubWork
    | Receive(c: nat, event: ClientEvent, reply: StoreReply)
    | ConnLock(c: nat)
    | ConnWork(c: nat)
    | Joined(c: nat)
    | Push(c: nat)
    | HangUp(c: nat)
    | Written(c: nat)

  // ---- The steps

  function SetConn(s: State, c: nat, conn: Conn): State {
    s.(conns := s.conns[c := conn])
  }

  // conn.enqueue for every recipient
  function Post(conns: map<nat, Conn>, to: set<nat>, e: Stamped): map<nat, Conn> {
    map c | c in conns :: if c in to then conns[c].(box := conns[c].box.Push(e, SEND_CAPACITY)) else conns[c]
  }

  function Emit(s: State, tag: Option<Tagged>, event: Event, to: set<nat>): State {
    s.(conns := Post(s.conns, to, Stamped(Some(|s.emissions|), event)),
       emissions := s.emissions + [Emission(tag, event, to)])
  }

  // addConn's lock section
  function AddSection(s: State, c: nat): State
    requires c in s.conns
  {
    var conn := s.conns[c];
    var users := Put(s.users, conn.user, c);
    var s1 := s.(users := users,
                 conns := s.conns[c := conn.(status := Live, start := |s.emissions|, onlineThen := users.Keys)]);
    Emit(s1, None, Presence(conn.user, true), All(users))
  }

  // removeConn's lock section
  function RemoveSection(s: State, c: nat): State
    requires c in s.conns
  {
    var conn := s.conns[c];
    var users := Drop(s.users, conn.user, c);
    var s1 := s.(users := users, conns := s.conns[c := conn.(status := Dead)]);
    var s2 := if conn.user in s.users && conn.user !in users
              then Emit(s1, None, Presence(conn.user, false), All(users)) else s1;
    s2.(rooms := Purge(s2.rooms, c))
  }

  // send's lock section
  function RelaySection(s: State, t: Tagged): State {
    Emit(s, Some(t), t.out.event, Recipients(s.users, s.rooms, t.out))
  }

  function WorkOf(s: State): State
    requires s.hub.Adding? || s.hub.Removing? ==> s.hub.conn in s.conns
  {
    match s.hub
    case Idle => s
    case Adding(c) => AddSection(s, c)
    case Removing(c) => RemoveSection(s, c)
    case Relaying(t) => RelaySection(s, t)
  }

  function Own(conn: Conn, e: Event): Conn {
    conn.(box := conn.box.Push(Stamped(None, e), SEND_CAPACITY))
  }

  function Send(conn: Conn, outs: seq<Outbound<nat>>): Conn { conn.(pc := Sending(outs)) }

  // handleClientEvent up to its first blocking point
  function Handle(s: State, c: nat, e: ClientEvent, reply: StoreReply): State
    requires c in s.conns
  {
    var conn := s.conns[c];
    match e
    case JoinRoom(None) => SetConn(s, c, Own(conn, Failure))
    case JoinRoom(Some(r)) => SetConn(s, c, conn.(pc := Subscribing(r)))
    case LeaveRoom(None) => s
    case LeaveRoom(Some(r)) => SetConn(s, c, conn.(pc := Unsubscribing(r), rooms := conn.rooms - {r}))
    case RoomMessage(room, body, attachment) =>
      if (Trim(body) == "" && !attachment) || room.None? then s
      else if !reply.member then SetConn(s, c, Own(conn, Failure))
      else if !reply.created then s
      else
        var m := Message(s.nextMessage, room, conn.user, None, Trim(body));
        SetConn(s.(nextMessage := s.nextMessage + 1), c,
                Send(conn, [Outbound(ToRoom(room.value), MessageEvent(m), None)]))
    case DirectMessage(to, body, attachment) =>
      if (Trim(body) == "" && !attachment) || to.None? || !reply.created then s
      else
        var m := Message(s.nextMessage, None, conn.user, to, Trim(body));
        SetConn(s.(nextMessage := s.nextMessage + 1), c, Send(conn, DirectBatch(conn.user, m)))
    case TypingIn(room, typing) =>
      if room.None? then s
      else SetConn(s, c, Send(conn, [Outbound(ToRoom(room.value), Typing(room, None, conn.user, typing), Some(c))]))
    case TypingTo(to, typing) =>
      if to.None? then s
      else SetConn(s, c, Send(conn, [Outbound(ToUser(to.value), Typing(None, to, conn.user, typing), Some(c))]))
    case Other => s
  }

  // A direct message goes to the recipient's connections, then to the sender's.
  function DirectBatch(sender: UserId, m: Message): seq<Outbound<nat>> {
    if m.recipient.None? then []
    else [Outbound(ToUser(m.recipient.value), MessageEvent(m), None), Outbound(ToUser(sender), MessageEvent(m), None)]
  }

  // A disabled action does nothing.
  function Step(s: State, a: Action): State {
    match a
    case Connect(c, user) =>
      if c in s.conns then s
      else SetConn(s, c, Conn(user, Registering, {}, Outbox([], [], 0, false), Fresh, 0, {}))
    case TakeRegister(c) =>
      if s.hub.Idle? && c in s.conns && s.conns[c].pc.Registering?
      then SetConn(s.(hub := Adding(c)), c, s.conns[c].(pc := Reading)) else s
    case TakeUnregister(c) =>
      if s.hub.Idle? && c in s.conns && s.conns[c].pc.Unregistering?
      then SetConn(s.(hub := Removing(c)), c, s.conns[c].(pc := Gone)) else s
    case TakeBroadcast =>
      if s.hub.Idle? && s.queue != [] then s.(hub := Relaying(s.queue[0]), queue := s.queue[1..]) else s
    case HubLock =>
      if !s.hub.Idle? && s.lock.None? then s.(lock := Some(TheHub)) else s
    case HubWork =>
      if s.lock == Some(TheHub) && (s.hub.Adding? || s.hub.Removing? ==> s.hub.conn in s.conns)
      then WorkOf(s).(hub := Idle, lock := None) else s
    case Receive(c, e, reply) =>
      if c in s.conns && s.conns[c].pc.Reading? then Handle(s, c, e, reply) else s
    case ConnLock(c) =>
      if c in s.conns && (s.conns[c].pc.Subscribing? || s.conns[c].pc.Unsubscribing?) && s.lock.None?
      then s.(lock := Some(AConn(c))) else s
    case ConnWork(c) =>
      if c in s.conns && s.lock == Some(AConn(c)) then
        var conn := s.conns[c];
        match conn.pc
        case Subscribing(r) => SetConn(s.(lock := None, rooms := Put(s.rooms, r, c)), c, conn.(pc := Subscribed(r)))
        case Unsubscribing(r) => SetConn(s.(lock := None, rooms := Drop(s.rooms, r, c)), c, conn.(pc := Reading))
        case _ => s
      else s
    case Joined(c) =>
      if c in s.conns && s.conns[c].pc.Subscribed? then
        var conn := s.conns[c];
        var r := conn.pc.room;
        SetConn(s, c, Own(conn.(pc := Reading, rooms := conn.rooms + {r}), RoomJoined(r, conn.user)))
      else s
    case Push(c) =>
      if c in s.conns && s.conns[c].pc.Sending? && |s.queue| < BROADCAST_CAPACITY then
        var todo := s.conns[c].pc.todo;
        if todo == [] then SetConn(s, c, s.conns[c].(pc := Reading))
        else
          var t := Tagged(c, todo[0]);
          SetConn(s.(queue := s.queue + [t], enqueued := s.enqueued + [t]), c,
                  s.conns[c].(pc := if |todo| == 1 then Reading else Sending(todo[1..])))
      else s
    case HangUp(c) =>
      if c in s.conns && s.conns[c].pc.Reading? then SetConn(s, c, s.conns[c].(pc := Unregistering)) else s
    case Written(c) =>
      if c in s.conns then SetConn(s, c, s.conns[c].(box := s.conns[c].box.Take())) else s
  }

  function Run(s: State, actions: seq<Action>): State {
    if actions == [] then s else Step(Run(s, actions[..|actions| - 1]), actions[|actions| - 1])
  }

  lemma {:induction false} RunAppend(s: State, first: seq<Action>, second: seq<Action>)
    ensures Run(s, first + second) == Run(Run(s, first), second)
  {
    hide Step;
    if second == [] {
      assert first + second == first;
    } else {
      assert (first + second)[..|first + second| - 1] == first + second[..|second| - 1];
      RunAppend(s, first, second[..|second| - 1]);
    }
  }
}
