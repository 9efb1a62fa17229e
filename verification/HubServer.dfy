// The WebSocket hub and its connections as objects. The hub's methods walk its nested maps the way the
// source does; each is proved to leave the indexes and the queues exactly as HubModel's functions say.
module HubServer {
  import opened Text
  import opened Channels
  import opened HubModel
  import System = HubSystem

  // ---- What one client event makes a read loop do

  // What it pushes into the broadcast channel, in order.
  function Outs<C>(self: C, user: UserId, e: System.ClientEvent, reply: System.StoreReply, id: nat): seq<Outbound<C>> {
    match e
    case RoomMessage(room, body, attachment) =>
      if (Trim(body) == "" && !attachment) || room.None? || !reply.member || !reply.created then []
      else [Outbound(ToRoom(room.value), MessageEvent(Message(id, room, user, None, Trim(body))), None)]
    case DirectMessage(to, body, attachment) =>
      if (Trim(body) == "" && !attachment) || to.None? || !reply.created then []
      else
        var m := MessageEvent(Message(id, None, user, to, Trim(body)));
        [Outbound(ToUser(to.value), m, None), Outbound(ToUser(user), m, None)]
    case TypingIn(room, typing) =>
      if room.None? then [] else [Outbound(ToRoom(room.value), Typing(room, None, user, typing), Some(self))]
    case TypingTo(to, typing) =>
      if to.None? then [] else [Outbound(ToUser(to.value), Typing(None, to, user, typing), Some(self))]
    case _ => []
  }

  // What it puts into its own channel.
  function Answer(user: UserId, e: System.ClientEvent, reply: System.StoreReply): Option<Event> {
    match e
    case JoinRoom(None) => Some(Failure)
    case JoinRoom(Some(r)) => Some(RoomJoined(r, user))
    case RoomMessage(room, body, attachment) =>
      if (Trim(body) == "" && !attachment) || room.None? || reply.member then None else Some(Failure)
    case _ => None
  }

  // What it does to the room index and to its own set of rooms.
  function RoomsAfter<C>(rooms: Buckets<C>, self: C, e: System.ClientEvent): Buckets<C> {
    match e
    case JoinRoom(Some(r)) => Put(rooms, r, self)
    case LeaveRoom(Some(r)) => Drop(rooms, r, self)
    case _ => rooms
  }

  function OwnRooms(rooms: set<RoomId>, e: System.ClientEvent): set<RoomId> {
    match e
    case JoinRoom(Some(r)) => rooms + {r}
    case LeaveRoom(Some(r)) => rooms - {r}
    case _ => rooms
  }

  // ---- What a client event means, outright

  function Bucket<C>(m: Buckets<C>, k: nat): set<C> {
    if k in m then m[k] else {}
  }

  // How one client event changes the connection's own rooms and the hub's room index, what it pushes into
  // the broadcast channel, and what it answers. Every event that does not parse, or is refused, is here.
  ghost predicate Means<C>(self: C, user: UserId, e: System.ClientEvent, reply: System.StoreReply, id: nat,
    own: set<RoomId>, own': set<RoomId>, rooms: Buckets<C>, rooms': Buckets<C>,
    pushed: seq<Outbound<C>>, answers: seq<Event>)
  {
    match e
    case JoinRoom(Some(r)) =>
      && own' == own + {r} && (forall j :: Bucket(rooms', j) == Bucket(rooms, j) + if j == r then {self} else {})
      && pushed == [] && answers == [RoomJoined(r, user)]
    case LeaveRoom(Some(r)) =>
      && own' == own - {r} && (forall j :: Bucket(rooms', j) == Bucket(rooms, j) - if j == r then {self} else {})
      && pushed == [] && answers == []
    case JoinRoom(None) => own' == own && rooms' == rooms && pushed == [] && answers == [Failure]
    case RoomMessage(room, body, attachment) =>
      && own' == own && rooms' == rooms
      && (if room.None? || (Trim(body) == "" && !attachment) then pushed == [] && answers == []
          else if !reply.member then pushed == [] && answers == [Failure]
          else
            && answers == []
            && pushed == if !reply.created then []
                         else [Outbound(ToRoom(room.value),
                                        MessageEvent(Message(id, room, user, None, Trim(body))), None)])
    case DirectMessage(to, body, attachment) =>
      && own' == own && rooms' == rooms && answers == []
      && (if to.None? || (Trim(body) == "" && !attachment) || !reply.created then pushed == []
          else
            var m := MessageEvent(Message(id, None, user, to, Trim(body)));
            pushed == [Outbound(ToUser(to.value), m, None), Outbound(ToUser(user), m, None)])
    case TypingIn(Some(r), typing) =>
      && own' == own && rooms' == rooms && answers == []
      && pushed == [Outbound(ToRoom(r), Typing(Some(r), None, user, typing), Some(self))]
    case TypingTo(Some(u), typing) =>
      && own' == own && rooms' == rooms && answers == []
      && pushed == [Outbound(ToUser(u), Typing(None, Some(u), user, typing), Some(self))]
    case _ => own' == own && rooms' == rooms && pushed == [] && answers == []
  }

  function Answers(user: UserId, e: System.ClientEvent, reply: System.StoreReply): seq<Event> {
    match Answer(user, e, reply) case Some(a) => [a] case None => []
  }

  lemma EventMeans<C>(self: C, user: UserId, e: System.ClientEvent, reply: System.StoreReply, id: nat,
    own: set<RoomId>, rooms: Buckets<C>)
    ensures Means(self, user, e, reply, id, own, OwnRooms(own, e), rooms, RoomsAfter(rooms, self, e),
                  Outs(self, user, e, reply, id), Answers(user, e, reply))
  {
    hide Trim;
  }

  lemma HandledAs<C>(self: C, user: UserId, e: System.ClientEvent, reply: System.StoreReply, id: nat,
    own: set<RoomId>, rooms: Buckets<C>, queue: seq<Outbound<C>>, box: Outbox<Event>)
    ensures var queue' := queue + Outs(self, user, e, reply, id);
      var box' := match Answer(user, e, reply) case Some(a) => box.Push(a, SEND_CAPACITY) case None => box;
      && queue'[..|queue|] == queue && |box'.calls| >= |box.calls|
      && Queues(SEND_CAPACITY, box, box', box'.calls[|box.calls|..])
      && Means(self, user, e, reply, id, own, OwnRooms(own, e), rooms, RoomsAfter(rooms, self, e),
               queue'[|queue|..], box'.calls[|box.calls|..])
  {
    hide Means, Queues, Outs, OwnRooms, RoomsAfter, Answer;
    EventMeans(self, user, e, reply, id, own, rooms);
    var outs := Outs(self, user, e, reply, id);
    assert (queue + outs)[|queue|..] == outs;
    match Answer(user, e, reply)
    case Some(a) =>
      QueuesOne(SEND_CAPACITY, box, a);
      assert (box.calls + [a])[|box.calls|..] == [a];
    case None =>
      QueuesNothing(SEND_CAPACITY, box);
      assert box.calls[|box.calls|..] == [];
  }

  // In the transition system the read loop then stands before exactly these pushes.
  lemma HandleSends(s: System.State, c: nat, e: System.ClientEvent, reply: System.StoreReply)
    requires c in s.conns && s.conns[c].pc.Reading?
    ensures var t, outs := System.Handle(s, c, e, reply), Outs(c, s.conns[c].user, e, reply, s.nextMessage);
      && c in t.conns && t.queue == s.queue
      && (outs != [] ==> t.conns[c].pc == System.Sending(outs))
      && (outs == [] && !e.JoinRoom? && !e.LeaveRoom? ==> t.conns[c].pc.Reading?)
  {
    hide Trim;
  }

  class Conn {
    const user: UserId
    var send: seq<Event>        // what waits in the channel
    var rooms: set<RoomId>
    ghost var box: Outbox<Event>

    ghost predicate Valid()
      reads `send, `box
    {
      box.taken <= |box.accepted| <= box.taken + SEND_CAPACITY && !box.closed && send == box.Queue()
    }

    constructor (user: UserId)
      ensures Valid() && this.user == user && rooms == {} && box == Outbox([], [], 0, false)
    {
      this.user, send, rooms, box := user, [], {}, Outbox([], [], 0, false);
    }

    // Dropped when the channel is full.
    method Enqueue(e: Event)
      requires Valid()
      modifies `send, `box
      ensures Valid() && box == old(box).Push(e, SEND_CAPACITY)
      ensures send == if |old(send)| < SEND_CAPACITY then old(send) + [e] else old(send)
    {
      if |send| < SEND_CAPACITY {
        send := send + [e];
      }
      box := box.Push(e, SEND_CAPACITY);
    }

    // The write loop takes the oldest event, if there is one.
    method TakeNext() returns (e: Option<Event>)
      requires Valid()
      modifies `send, `box
      ensures Valid() && box == old(box).Take()
      ensures if old(send) == [] then e == None && send == [] else e.Some? && old(send) == [e.value] + send
    {
      if send == [] {
        return None;
      }
      e := Some(send[0]);
      send := send[1..];
      box := box.Take();
    }

    method JoinRoom(hub: Hub, room: Option<RoomId>)
      requires hub.Valid() && Valid()
      modifies `rooms, `send, `box, hub`rooms
      ensures hub.Valid() && Valid()
      ensures match room
        case None => rooms == old(rooms) && hub.rooms == old(hub.rooms) && box == old(box).Push(Failure, SEND_CAPACITY)
        case Some(r) =>
          && rooms == old(rooms) + {r} && hub.rooms == Put(old(hub.rooms), r, this)
          && box == old(box).Push(RoomJoined(r, user), SEND_CAPACITY)
    {
      match room {
        case None => Enqueue(Failure);
        case Some(r) =>
          hub.SubscribeRoom(r, this);
          rooms := rooms + {r};
          Enqueue(RoomJoined(r, user));
      }
    }

    method LeaveRoom(hub: Hub, room: Option<RoomId>)
      requires hub.Valid()
      modifies `rooms, hub`rooms
      ensures hub.Valid()
      ensures match room
        case None => rooms == old(rooms) && hub.rooms == old(hub.rooms)
        case Some(r) => rooms == old(rooms) - {r} && hub.rooms == Drop(old(hub.rooms), r, this)
    {
      match room {
        case None =>
        case Some(r) =>
          rooms := rooms - {r};
          hub.UnsubscribeRoom(r, this);
      }
    }

    // While the broadcast channel has room; HubSystem models the waiting.
    method HandleMessage(hub: Hub, e: System.ClientEvent, reply: System.StoreReply, id: nat)
      requires hub.Valid() && Valid() && |hub.queue| + 2 <= BROADCAST_CAPACITY && (e.RoomMessage? || e.DirectMessage?)
      modifies `send, `box, hub`queue
      ensures hub.Valid() && Valid()
      ensures hub.queue == old(hub.queue) + Outs(this, user, e, reply, id)
      ensures box == match Answer(user, e, reply) case Some(a) => old(box).Push(a, SEND_CAPACITY) case None => old(box)
    {
      hide Trim;
      var text := Trim(e.body);
      if text == "" && !e.attachment {
        return;
      }
      if e.RoomMessage? {
        if e.room.None? {
          return;
        }
        if !reply.member {
          Enqueue(Failure);
          return;
        }
        if reply.created {
          hub.Broadcast(Outbound(ToRoom(e.room.value), MessageEvent(Message(id, e.room, user, None, text)), None));
        }
      } else if e.to.Some? && reply.created {
        var m := MessageEvent(Message(id, None, user, e.to, text));
        hub.Broadcast(Outbound(ToUser(e.to.value), m, None));
        hub.Broadcast(Outbound(ToUser(user), m, None));
      }
    }

    method HandleTyping(hub: Hub, e: System.ClientEvent, reply: System.StoreReply, id: nat)
      requires hub.Valid() && |hub.queue| + 2 <= BROADCAST_CAPACITY && (e.TypingIn? || e.TypingTo?)
      modifies hub`queue
      ensures hub.Valid() && hub.queue == old(hub.queue) + Outs(this, user, e, reply, id)
    {
      if e.TypingIn? && e.room.Some? {
        hub.Broadcast(Outbound(ToRoom(e.room.value), Typing(e.room, None, user, e.isTyping), Some(this)));
      }
      if e.TypingTo? && e.to.Some? {
        hub.Broadcast(Outbound(ToUser(e.to.value), Typing(None, e.to, user, e.isTyping), Some(this)));
      }
    }

    method HandleClientEvent(hub: Hub, e: System.ClientEvent, reply: System.StoreReply, id: nat)
      requires hub.Valid() && Valid() && |hub.queue| + 2 <= BROADCAST_CAPACITY
      modifies `rooms, `send, `box, hub`rooms, hub`queue
      ensures hub.Valid() && Valid()
      ensures rooms == OwnRooms(old(rooms), e) && hub.rooms == RoomsAfter(old(hub.rooms), this, e)
      ensures hub.queue == old(hub.queue) + Outs(this, user, e, reply, id)
      ensures box == match Answer(user, e, reply) case Some(a) => old(box).Push(a, SEND_CAPACITY) case None => old(box)
      ensures |hub.queue| >= |old(hub.queue)| && hub.queue[..|old(hub.queue)|] == old(hub.queue)
      ensures |box.calls| >= |old(box.calls)|
      ensures Queues(SEND_CAPACITY, old(box), box, box.calls[|old(box.calls)|..])
      ensures Means(this, user, e, reply, id, old(rooms), rooms, old(hub.rooms), hub.rooms,
                    hub.queue[|old(hub.queue)|..], box.calls[|old(box.calls)|..])
    {
      hide Trim, Put, Drop, Valid, Hub.Valid, Means, Queues;
      HandledAs(this, user, e, reply, id, rooms, hub.rooms, hub.queue, box);
      match e {
        case JoinRoom(room) => JoinRoom(hub, room);
        case LeaveRoom(room) => LeaveRoom(hub, room);
        case RoomMessage(_, _, _) => HandleMessage(hub, e, reply, id);
        case DirectMessage(_, _, _) => HandleMessage(hub, e, reply, id);
        case TypingIn(_, _) => HandleTyping(hub, e, reply, id);
        case TypingTo(_, _) => HandleTyping(hub, e, reply, id);
        case Other =>
      }
    }
  }

  lemma AllPut(m: Buckets<Conn>, k: nat, c: Conn)
    ensures All(Put(m, k, c)) == All(m) + {c}
  {
    var n := Put(m, k, c);
    forall x ensures x in All(n) <==> x in All(m) + {c} {
      if x in All(m) {
        var j :| j in m && x in m[j];
        assert j in n && x in n[j];
      }
      assert k in n && c in n[k];
    }
  }

  lemma AllDrop(m: Buckets<Conn>, k: nat, c: Conn)
    ensures All(Drop(m, k, c)) <= All(m)
  {
    var n := Drop(m, k, c);
    forall x | x in All(n) ensures x in All(m) {
      var j :| j in n && x in n[j];
      assert j in m && x in m[j];
    }
  }

  lemma AllPurge(m: Buckets<Conn>, c: Conn)
    ensures All(Purge(m, c)) <= All(m)
  {
    var n := Purge(m, c);
    forall x | x in All(n) ensures x in All(m) {
      var j :| j in n && x in n[j];
      assert j in m && x in m[j];
    }
  }

  lemma PurgeNone(m: Buckets<Conn>, c: Conn)
    ensures PurgeOnly(m, c, {}) == m
  {}

  // Scanning one more room.
  lemma PurgeOneMore(m: Buckets<Conn>, c: Conn, keys: set<nat>, k: nat)
    requires k in m && k !in keys
    ensures var n := PurgeOnly(m, c, keys);
      k in n && PurgeOnly(m, c, keys + {k}) == if c in n[k] then Drop(n, k, c) else n
  {
    if c !in m[k] { assert m[k] - {c} == m[k]; }
  }

  lemma RecipientsHeld(users: Buckets<Conn>, rooms: Buckets<Conn>, o: Outbound<Conn>)
    ensures Recipients(users, rooms, o) <= All(users) + All(rooms)
  {}

  class Hub {
    var users: Buckets<Conn>
    var rooms: Buckets<Conn>
    var queue: seq<Outbound<Conn>>  // the broadcast channel

    ghost predicate Valid()
      reads this, All(users)`send, All(users)`box, All(rooms)`send, All(rooms)`box
    {
      && NoEmptyBucket(users) && NoEmptyBucket(rooms) && |queue| <= BROADCAST_CAPACITY
      && (forall c :: c in All(users) ==> c.Valid()) && (forall c :: c in All(rooms) ==> c.Valid())
    }

    constructor ()
      ensures Valid() && users == map[] && rooms == map[] && queue == []
    {
      users, rooms, queue := map[], map[], [];
    }

    // ---- Fan-out

    // conn.enqueue for each of these connections, in whatever order the map is iterated.
    method EnqueueAll(to: set<Conn>, e: Event)
      requires forall c :: c in to ==> c.Valid()
      modifies to`send, to`box
      ensures forall c :: c in to ==> c.Valid() && c.box == old(c.box).Push(e, SEND_CAPACITY)
    {
      var todo := to;
      while todo != {}
        invariant todo <= to
        invariant forall c :: c in to ==>
          c.Valid() && c.box == if c in todo then old(c.box) else old(c.box).Push(e, SEND_CAPACITY)
        decreases |todo|
      {
        var c :| c in todo;
        c.Enqueue(e);
        todo := todo - {c};
      }
    }

    method AllConnectionsLocked() returns (all: set<Conn>)
      ensures all == All(users)
    {
      all := {};
      var todo := users.Keys;
      while todo != {}
        invariant todo <= users.Keys
        invariant all == set k, c | k in users.Keys - todo && c in users[k] :: c
        decreases |todo|
      {
        var k :| k in todo;
        todo := todo - {k};
        all := all + users[k];
      }
    }

    method BroadcastPresenceLocked(user: UserId, online: bool)
      requires forall c :: c in All(users) ==> c.Valid()
      modifies All(users)`send, All(users)`box
      ensures forall c :: c in All(users) ==>
        c.Valid() && c.box == old(c.box).Push(Presence(user, online), SEND_CAPACITY)
    {
      var all := AllConnectionsLocked();
      EnqueueAll(all, Presence(user, online));
    }

    // ---- The three channels' handlers

    method Insert(conn: Conn)
      modifies `users
      ensures users == Put(old(users), conn.user, conn)
    {
      if conn.user !in users {
        users := users[conn.user := {}];
      }
      users := users[conn.user := users[conn.user] + {conn}];
    }

    method AddConn(conn: Conn)
      requires Valid() && conn.Valid()
      modifies `users, conn`send, conn`box, All(users)`send, All(users)`box
      ensures Valid() && users == Put(old(users), conn.user, conn)
      ensures forall c :: c in All(users) ==> c.box == old(c.box).Push(Presence(conn.user, true), SEND_CAPACITY)
    {
      PutIs(users, conn.user, conn);
      AllPut(users, conn.user, conn);
      hide Conn.Valid, Put, All, NoEmptyBucket;
      Insert(conn);
      BroadcastPresenceLocked(conn.user, true);
    }

    // The first half of removeConn: the user's bucket, and word that the user went if it is now gone.
    method DropUser(conn: Conn)
      requires Valid()
      modifies `users, All(users)`send, All(users)`box
      ensures Valid() && users == Drop(old(users), conn.user, conn)
      ensures forall c :: c in old(All(users)) ==>
        c.Valid() && c.box == HeardLeaving(c, old(c.box), conn.user, old(users))
    {
      DropIs(users, conn.user, conn);
      AllDrop(users, conn.user, conn);
      hide Conn.Valid, NoEmptyBucket;
      if conn.user in users {
        users := users[conn.user := users[conn.user] - {conn}];
        if users[conn.user] == {} {
          users := users - {conn.user};
          assert users == Drop(old(users), conn.user, conn);
          BroadcastPresenceLocked(conn.user, false);
        }
      }
    }

    // Only the departure of a user's last connection is announced, to those still there.
    ghost function HeardLeaving(c: Conn, box: Outbox<Event>, user: UserId, before: Buckets<Conn>): Outbox<Event>
      reads `users
    {
      if user in before && user !in users && c in All(users)
      then box.Push(Presence(user, false), SEND_CAPACITY) else box
    }

    method RemoveConn(conn: Conn)
      requires Valid()
      modifies `users, `rooms, All(users)`send, All(users)`box
      ensures Valid() && users == Drop(old(users), conn.user, conn) && rooms == Purge(old(rooms), conn)
      ensures forall c :: c in old(All(users)) ==>
        c.Valid() && c.box == HeardLeaving(c, old(c.box), conn.user, old(users))
    {
      hide Conn.Valid, Valid, Drop, Purge, NoEmptyBucket, HeardLeaving;
      DropUser(conn);
      LeaveRooms(conn);
    }

    method LeaveRooms(conn: Conn)
      requires Valid()
      modifies `rooms
      ensures Valid() && rooms == Purge(old(rooms), conn)
    {
      PurgeIs(rooms, conn);
      AllPurge(rooms, conn);
      hide Conn.Valid, Purge, NoEmptyBucket;
      LeaveAllRooms(conn);
    }

    // The scan over every room at the end of removeConn.
    method LeaveAllRooms(conn: Conn)
      requires NoEmptyBucket(rooms)
      modifies `rooms
      ensures rooms == Purge(old(rooms), conn)
    {
      ghost var before := rooms;
      PurgeNone(before, conn);
      PurgeOnlyIs(before, conn, before.Keys);
      hide Purge, PurgeOnly, NoEmptyBucket;
      var todo := rooms.Keys;
      assert before.Keys - todo == {};
      while todo != {}
        invariant todo <= before.Keys && rooms == PurgeOnly(before, conn, before.Keys - todo)
        decreases |todo|
      {
        var k :| k in todo;
        ScanOne(k, conn, before, before.Keys - todo);
        assert before.Keys - (todo - {k}) == (before.Keys - todo) + {k};
        todo := todo - {k};
      }
      assert before.Keys - todo == before.Keys;
    }

    method ScanOne(k: RoomId, conn: Conn, ghost before: Buckets<Conn>, ghost done: set<RoomId>)
      requires rooms == PurgeOnly(before, conn, done) && k in before && k !in done
      modifies `rooms
      ensures rooms == PurgeOnly(before, conn, done + {k})
    {
      hide PurgeOnly;
      PurgeOneMore(before, conn, done, k);
      if conn in rooms[k] {
        rooms := rooms[k := rooms[k] - {conn}];
        if rooms[k] == {} {
          rooms := rooms - {k};
        }
      }
    }

    method Send(msg: Outbound<Conn>)
      requires Valid()
      modifies All(users)`send, All(users)`box, All(rooms)`send, All(rooms)`box
      ensures Valid()
      ensures forall c :: c in All(users) + All(rooms) ==>
        c.box == (if c in Recipients(users, rooms, msg) then old(c.box).Push(msg.event, SEND_CAPACITY) else old(c.box))
    {
      RecipientsHeld(users, rooms, msg);
      var bucket: set<Conn> := {};
      match msg.target {
        case ToRoom(r) => if r in rooms { bucket := rooms[r]; }
        case ToUser(u) => if u in users { bucket := users[u]; }
      }
      var to := bucket - (if msg.exclude.Some? then {msg.exclude.value} else {});
      assert to == Recipients(users, rooms, msg);
      hide Conn.Valid, Recipients, All, NoEmptyBucket;
      EnqueueAll(to, msg.event);
    }

    // broadcastRoom and broadcastUser: one entry at the end of the channel.
    method Broadcast(o: Outbound<Conn>)
      requires Valid() && |queue| < BROADCAST_CAPACITY
      modifies `queue
      ensures Valid() && queue == old(queue) + [o]
    {
      queue := queue + [o];
    }

    // Run's third case: the oldest entry is taken and sent.
    method RelayNext() returns (o: Outbound<Conn>)
      requires Valid() && queue != []
      modifies `queue, All(users)`send, All(users)`box, All(rooms)`send, All(rooms)`box
      ensures Valid() && old(queue) == [o] + queue
      ensures forall c :: c in All(users) + All(rooms) ==>
        c.box == (if c in Recipients(users, rooms, o) then old(c.box).Push(o.event, SEND_CAPACITY) else old(c.box))
    {
      hide Conn.Valid, Recipients, NoEmptyBucket;
      o := queue[0];
      queue := queue[1..];
      Send(o);
    }

    // ---- Subscriptions

    method SubscribeRoom(r: RoomId, conn: Conn)
      requires Valid() && conn.Valid()
      modifies `rooms
      ensures Valid() && rooms == Put(old(rooms), r, conn)
    {
      if r !in rooms {
        rooms := rooms[r := {}];
      }
      rooms := rooms[r := rooms[r] + {conn}];
    }

    method UnsubscribeRoom(r: RoomId, conn: Conn)
      requires Valid()
      modifies `rooms
      ensures Valid() && rooms == Drop(old(rooms), r, conn)
    {
      if r !in rooms {
        return;
      }
      rooms := rooms[r := rooms[r] - {conn}];
      if rooms[r] == {} {
        rooms := rooms - {r};
      }
    }
  }
}
