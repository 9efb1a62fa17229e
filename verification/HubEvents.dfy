// What each client event, arrival and departure comes to, step by step through the transition system: who is
// subscribed afterwards, and who is handed what.
module HubEvents {
  import opened Text
  import opened Channels
  import opened HubModel
  import opened HubSystem
  import Server = HubServer
  import Turns = HubTurns

  function ServeSteps(c: nat, e: ClientEvent, reply: StoreReply): seq<Action> {
    [Receive(c, e, reply), ConnLock(c), ConnWork(c), Joined(c), Push(c), Push(c)]
  }

  const RelaySteps := [TakeBroadcast, HubLock, HubWork]

  predicate Listens(s: State, c: nat) {
    c in s.conns && s.conns[c].pc.Reading?
  }

  function Unstamped(answers: seq<Event>): seq<Stamped> {
    seq(|answers|, i requires 0 <= i < |answers| => Stamped(None, answers[i]))
  }

  // ---- One client event

  // The event did exactly this and changed nothing else.
  ghost predicate Did(s: State, t: State, c: nat, e: ClientEvent, reply: StoreReply,
    pushed: seq<Outbound<nat>>, answers: seq<Event>)
    requires c in s.conns
  {
    && c in t.conns
    && Server.Means(c, s.conns[c].user, e, reply, s.nextMessage, s.conns[c].rooms, t.conns[c].rooms, s.rooms, t.rooms,
                    pushed, answers)
    && t == s.(rooms := t.rooms, conns := s.conns[c := t.conns[c]], queue := s.queue + Tags(c, pushed),
               enqueued := s.enqueued + Tags(c, pushed),
               nextMessage := s.nextMessage + if pushed != [] && pushed[0].event.MessageEvent? then 1 else 0)
    && t.conns[c] == s.conns[c].(rooms := t.conns[c].rooms, box := t.conns[c].box)
    && Queues(SEND_CAPACITY, s.conns[c].box, t.conns[c].box, Unstamped(answers))
  }

  // A handled event does what it means, from any state in which nobody is in the middle of anything and
  // the broadcast channel has room.
  lemma EventDoes(s: State, c: nat, e: ClientEvent, reply: StoreReply)
    requires Turns.Quiet(s) && Listens(s, c) && |s.queue| + 2 <= BROADCAST_CAPACITY
    ensures var t := Run(s, ServeSteps(c, e, reply));
      Turns.Quiet(t) && exists pushed, answers :: Did(s, t, c, e, reply, pushed, answers)
  {
    hide Run, Turns.Quiet, Server.Means, Queues, Turns.After, Server.Outs, Server.Answer, Server.RoomsAfter,
         Turns.Creates, Server.OwnRooms;
    Turns.TurnRuns(s, Turns.Serve(c, e, reply));
    HandledDoes(s, c, e, reply);
    ServeIs(s, c, e, reply);
  }

  lemma ServeIs(s: State, c: nat, e: ClientEvent, reply: StoreReply)
    requires |s.queue| + 2 <= BROADCAST_CAPACITY
    ensures Turns.Steps(s, Turns.Serve(c, e, reply)) == ServeSteps(c, e, reply)
    ensures Turns.TurnEnd(s, Turns.Serve(c, e, reply)) == Turns.Handled(s, c, e, reply)
  {}

  lemma HandledDoes(s: State, c: nat, e: ClientEvent, reply: StoreReply)
    requires Listens(s, c) && |s.queue| + 2 <= BROADCAST_CAPACITY
    ensures Did(s, Turns.Handled(s, c, e, reply), c, e, reply,
                Server.Outs(c, s.conns[c].user, e, reply, s.nextMessage), Server.Answers(s.conns[c].user, e, reply))
  {
    hide Server.Means, Queues, Server.Outs, Server.Answer, Server.RoomsAfter, Turns.Creates, Server.OwnRooms;
    var k := s.conns[c];
    Numbers(s, c, e, reply);
    Server.EventMeans(c, k.user, e, reply, s.nextMessage, k.rooms, s.rooms);
    match Server.Answer(k.user, e, reply)
    case Some(a) =>
      QueuesOne(SEND_CAPACITY, k.box, Stamped(None, a));
      assert Unstamped([a]) == [Stamped(None, a)];
    case None =>
      QueuesNothing(SEND_CAPACITY, k.box);
      assert Unstamped([]) == [];
  }

  // Only a message that goes out uses up a number.
  lemma Numbers(s: State, c: nat, e: ClientEvent, reply: StoreReply)
    requires c in s.conns
    ensures var outs := Server.Outs(c, s.conns[c].user, e, reply, s.nextMessage);
      Turns.Creates(e, reply) <==> outs != [] && outs[0].event.MessageEvent?
  {
    hide Trim;
  }

  function JoinSteps(c: nat, r: RoomId, reply: StoreReply): seq<Action> {
    [Receive(c, JoinRoom(Some(r)), reply), ConnLock(c), ConnWork(c), Joined(c)]
  }

  function LeaveSteps(c: nat, r: RoomId, reply: StoreReply): seq<Action> {
    [Receive(c, LeaveRoom(Some(r)), reply), ConnLock(c), ConnWork(c)]
  }

  lemma JoinRuns(s: State, c: nat, r: RoomId, reply: StoreReply)
    requires Turns.Quiet(s) && Listens(s, c)
    ensures var k := s.conns[c];
      Run(s, JoinSteps(c, r, reply)) ==
      SetConn(s.(rooms := Put(s.rooms, r, c)), c,
              k.(rooms := k.rooms + {r}, box := k.box.Push(Stamped(None, RoomJoined(r, k.user)), SEND_CAPACITY)))
  {
    hide Run, Put, Step;
    Turns.Run4(s, Receive(c, JoinRoom(Some(r)), reply), ConnLock(c), ConnWork(c), Joined(c));
    Turns.JoiningRuns(s, c, r, reply);
  }

  // From taking the lock on, wherever the read loop got it from.
  lemma LeaveLocked(s: State, c: nat, r: RoomId)
    requires s.lock.None? && c in s.conns && s.conns[c].pc == Unsubscribing(r)
    ensures Step(Step(s, ConnLock(c)), ConnWork(c)) ==
      SetConn(s.(rooms := Drop(s.rooms, r, c)), c, s.conns[c].(pc := Reading))
  {
    hide Drop;
  }

  lemma LeaveReceived(s: State, c: nat, r: RoomId, reply: StoreReply)
    requires Listens(s, c)
    ensures Step(s, Receive(c, LeaveRoom(Some(r)), reply)) ==
      SetConn(s, c, s.conns[c].(pc := Unsubscribing(r), rooms := s.conns[c].rooms - {r}))
  {}

  lemma LeaveRuns(s: State, c: nat, r: RoomId, reply: StoreReply)
    requires Turns.Quiet(s) && Listens(s, c)
    ensures var k := s.conns[c];
      Run(s, LeaveSteps(c, r, reply)) == SetConn(s.(rooms := Drop(s.rooms, r, c)), c, k.(rooms := k.rooms - {r}))
  {
    hide Run, Drop, Step;
    Turns.Run3(s, Receive(c, LeaveRoom(Some(r)), reply), ConnLock(c), ConnWork(c));
    LeaveReceived(s, c, r, reply);
    var k := s.conns[c].(pc := Unsubscribing(r), rooms := s.conns[c].rooms - {r});
    LeaveLocked(SetConn(s, c, k), c, r);
    Turns.SetTwice(s.(rooms := Drop(s.rooms, r, c)), c, k, k.(pc := Reading));
  }

  // A join: the connection is in that room's bucket and has the room on its own list, every other
  // subscription is as before, and it is told so.
  lemma JoinSubscribes(s: State, c: nat, r: RoomId, reply: StoreReply)
    requires Turns.Quiet(s) && Listens(s, c)
    ensures var k, t := s.conns[c], Run(s, JoinSteps(c, r, reply));
      && Turns.Quiet(t) && (forall j, x :: In(t.rooms, j, x) <==> In(s.rooms, j, x) || (j == r && x == c))
      && c in t.conns && t == s.(rooms := t.rooms, conns := s.conns[c := t.conns[c]])
      && t.conns[c] == k.(rooms := k.rooms + {r}, box := t.conns[c].box)
      && Queues(SEND_CAPACITY, k.box, t.conns[c].box, [Stamped(None, RoomJoined(r, k.user))])
  {
    hide Run, Put, Queues, In, JoinSteps;
    JoinRuns(s, c, r, reply);
    PutIs(s.rooms, r, c);
    QueuesOne(SEND_CAPACITY, s.conns[c].box, Stamped(None, RoomJoined(r, s.conns[c].user)));
  }

  // A leave is the converse, without a word.
  lemma LeaveUnsubscribes(s: State, c: nat, r: RoomId, reply: StoreReply)
    requires Turns.Quiet(s) && Listens(s, c)
    ensures var k, t := s.conns[c], Run(s, LeaveSteps(c, r, reply));
      && Turns.Quiet(t) && (forall j, x :: In(t.rooms, j, x) <==> In(s.rooms, j, x) && !(j == r && x == c))
      && t == s.(rooms := t.rooms, conns := s.conns[c := k.(rooms := k.rooms - {r})])
  {
    hide Run, Drop, In, LeaveSteps;
    LeaveRuns(s, c, r, reply);
    DropIs(s.rooms, r, c);
  }

  // ---- One relayed entry

  // The connection is one of those the entry is for.
  predicate For(s: State, o: Outbound<nat>, x: nat) {
    && o.exclude != Some(x)
    && match o.target case ToRoom(r) => In(s.rooms, r, x) case ToUser(u) => In(s.users, u, x)
  }

  // Everyone is handed this and nothing else changes, but for the hub's own books.
  ghost predicate OnlyHanded(s: State, t: State) {
    && t.users == s.users && t.rooms == s.rooms && t.conns.Keys == s.conns.Keys
    && forall x :: x in s.conns ==> t.conns[x] == s.conns[x].(box := t.conns[x].box)
  }

  lemma RelayHands(s: State)
    requires Turns.Quiet(s) && s.queue != []
    ensures var t, o := Run(s, RelaySteps), s.queue[0].out;
      && Turns.Quiet(t) && OnlyHanded(s, t) && t.queue == s.queue[1..] && t.nextMessage == s.nextMessage
      && |t.emissions| == |s.emissions| + 1
      && forall x :: x in s.conns ==>
           Queues(SEND_CAPACITY, s.conns[x].box, t.conns[x].box,
                  if For(s, o, x) then [Stamped(Some(|s.emissions|), o.event)] else [])
  {
    hide Run, Queues, For, Turns.Quiet, Recipients;
    Turns.TurnRuns(s, Turns.Relay);
    RelayIs(s);
    var o, e := s.queue[0].out, Stamped(Some(|s.emissions|), s.queue[0].out.event);
    forall x | x in s.conns
      ensures Queues(SEND_CAPACITY, s.conns[x].box, Turns.Relayed(s).conns[x].box, if For(s, o, x) then [e] else [])
    {
      RecipientsAre(s, o, x);
      QueuesOne(SEND_CAPACITY, s.conns[x].box, e);
      QueuesNothing(SEND_CAPACITY, s.conns[x].box);
    }
  }

  lemma RelayIs(s: State)
    requires s.queue != []
    ensures Turns.Steps(s, Turns.Relay) == RelaySteps && Turns.TurnEnd(s, Turns.Relay) == Turns.Relayed(s)
    ensures var t, o := Turns.Relayed(s), s.queue[0].out;
      && t.users == s.users && t.rooms == s.rooms && t.queue == s.queue[1..] && t.nextMessage == s.nextMessage
      && |t.emissions| == |s.emissions| + 1
      && t.conns == Post(s.conns, Recipients(s.users, s.rooms, o), Stamped(Some(|s.emissions|), o.event))
  {
    hide Recipients, Post;
  }

  lemma RecipientsAre(s: State, o: Outbound<nat>, x: nat)
    ensures x in Recipients(s.users, s.rooms, o) <==> For(s, o, x)
  {}

  // ---- From a client event to everyone who is handed something

  ghost predicate Reaches(s: State, t: State, o: Outbound<nat>) {
    && Turns.Quiet(t) && OnlyHanded(s, t) && t.queue == []
    && forall x :: x in s.conns ==>
         Queues(SEND_CAPACITY, s.conns[x].box, t.conns[x].box,
                if For(s, o, x) then [Stamped(Some(|s.emissions|), o.event)] else [])
  }

  // An event with which nothing changes but what is pushed.
  lemma Pushes(s: State, t: State, c: nat, e: ClientEvent, reply: StoreReply,
    pushed: seq<Outbound<nat>>, answers: seq<Event>)
    requires c in s.conns && Did(s, t, c, e, reply, pushed, answers) && answers == []
    requires t.rooms == s.rooms && t.conns[c].rooms == s.conns[c].rooms
    ensures t == s.(queue := t.queue, enqueued := t.enqueued, nextMessage := t.nextMessage)
    ensures t.queue == s.queue + Tags(c, pushed)
    ensures pushed != [] && pushed[0].event.MessageEvent? ==> t.nextMessage == s.nextMessage + 1
  {
    hide Server.Means;
    assert Unstamped(answers) == [];
    var b, b' := s.conns[c].box, t.conns[c].box;
    assert b.calls + [] == b.calls && b.accepted + [] == b.accepted;
    assert b' == b;
    assert s.conns[c := s.conns[c]] == s.conns;
  }

  lemma OneReaches(s: State, m: State, c: nat, o: Outbound<nat>)
    requires Turns.Quiet(m) && s.queue == [] && m.queue == [Tagged(c, o)]
    requires m == s.(queue := m.queue, enqueued := m.enqueued, nextMessage := m.nextMessage)
    ensures Reaches(s, Run(m, RelaySteps), o) && Run(m, RelaySteps).nextMessage == m.nextMessage
  {
    hide Run, Queues, For;
    RelayHands(m);
    forall x | x in s.conns ensures For(m, o, x) == For(s, o, x) { SameFor(s, m, o, x); }
  }

  lemma SameFor(s: State, t: State, o: Outbound<nat>, x: nat)
    requires t.users == s.users && t.rooms == s.rooms
    ensures For(t, o, x) == For(s, o, x)
  {}

  // A message that the store took reaches every subscriber of the room, sender or not, once, as it was
  // trimmed and numbered, and nobody else.
  lemma RoomMessageReaches(s: State, c: nat, r: RoomId, body: string, attachment: bool)
    requires Turns.Quiet(s) && Listens(s, c) && s.queue == [] && (Trim(body) != "" || attachment)
    ensures var m := Message(s.nextMessage, Some(r), s.conns[c].user, None, Trim(body));
      var t := Run(s, ServeSteps(c, RoomMessage(Some(r), body, attachment), StoreReply(true, true)) + RelaySteps);
      t.nextMessage == s.nextMessage + 1 && Reaches(s, t, Outbound(ToRoom(r), MessageEvent(m), None))
  {
    hide Run, Queues, Trim, Reaches, Turns.Quiet;
    var e, reply := RoomMessage(Some(r), body, attachment), StoreReply(true, true);
    EventDoes(s, c, e, reply);
    RunAppend(s, ServeSteps(c, e, reply), RelaySteps);
    var t := Run(s, ServeSteps(c, e, reply));
    var pushed, answers :| Did(s, t, c, e, reply, pushed, answers);
    Pushes(s, t, c, e, reply, pushed, answers);
    assert s.queue + Tags(c, pushed) == [Tagged(c, pushed[0])];
    OneReaches(s, t, c, pushed[0]);
  }

  // Typing in a room reaches every other connection subscribed to it.
  lemma TypingReaches(s: State, c: nat, r: RoomId, isTyping: bool, reply: StoreReply)
    requires Turns.Quiet(s) && Listens(s, c) && s.queue == []
    ensures Reaches(s, Run(s, ServeSteps(c, TypingIn(Some(r), isTyping), reply) + RelaySteps),
                    Outbound(ToRoom(r), Typing(Some(r), None, s.conns[c].user, isTyping), Some(c)))
  {
    hide Run, Queues, Reaches, Turns.Quiet;
    var e := TypingIn(Some(r), isTyping);
    EventDoes(s, c, e, reply);
    RunAppend(s, ServeSteps(c, e, reply), RelaySteps);
    var t := Run(s, ServeSteps(c, e, reply));
    var pushed, answers :| Did(s, t, c, e, reply, pushed, answers);
    Pushes(s, t, c, e, reply, pushed, answers);
    assert s.queue + Tags(c, pushed) == [Tagged(c, pushed[0])];
    OneReaches(s, t, c, pushed[0]);
  }

  // Typing to a user reaches that user's connections.
  lemma DirectTypingReaches(s: State, c: nat, u: UserId, isTyping: bool, reply: StoreReply)
    requires Turns.Quiet(s) && Listens(s, c) && s.queue == []
    ensures Reaches(s, Run(s, ServeSteps(c, TypingTo(Some(u), isTyping), reply) + RelaySteps),
                    Outbound(ToUser(u), Typing(None, Some(u), s.conns[c].user, isTyping), Some(c)))
  {
    hide Run, Queues, Reaches, Turns.Quiet;
    var e := TypingTo(Some(u), isTyping);
    EventDoes(s, c, e, reply);
    RunAppend(s, ServeSteps(c, e, reply), RelaySteps);
    var t := Run(s, ServeSteps(c, e, reply));
    var pushed, answers :| Did(s, t, c, e, reply, pushed, answers);
    Pushes(s, t, c, e, reply, pushed, answers);
    assert s.queue + Tags(c, pushed) == [Tagged(c, pushed[0])];
    OneReaches(s, t, c, pushed[0]);
  }

  // A direct message reaches every connection of the recipient, then every connection of the sender; who
  // writes to oneself is handed it twice.
  lemma DirectMessageReaches(s: State, c: nat, u: UserId, body: string, attachment: bool)
    requires Turns.Quiet(s) && Listens(s, c) && s.queue == [] && (Trim(body) != "" || attachment)
    ensures var user := s.conns[c].user; var n := |s.emissions|;
      var m := MessageEvent(Message(s.nextMessage, None, user, Some(u), Trim(body)));
      var t := Run(s, ServeSteps(c, DirectMessage(Some(u), body, attachment), StoreReply(true, true))
                      + RelaySteps + RelaySteps);
      && Turns.Quiet(t) && OnlyHanded(s, t) && t.queue == [] && t.nextMessage == s.nextMessage + 1
      && forall x :: x in s.conns ==>
           Queues(SEND_CAPACITY, s.conns[x].box, t.conns[x].box,
                  (if In(s.users, u, x) then [Stamped(Some(n), m)] else [])
                  + (if In(s.users, user, x) then [Stamped(Some(n + 1), m)] else []))
  {
    hide Run, Queues, Trim, Turns.Quiet;
    var e, reply := DirectMessage(Some(u), body, attachment), StoreReply(true, true);
    EventDoes(s, c, e, reply);
    RunAppend(s, ServeSteps(c, e, reply), RelaySteps);
    RunAppend(s, ServeSteps(c, e, reply) + RelaySteps, RelaySteps);
    var t := Run(s, ServeSteps(c, e, reply));
    var pushed, answers :| Did(s, t, c, e, reply, pushed, answers);
    Pushes(s, t, c, e, reply, pushed, answers);
    assert s.queue + Tags(c, pushed) == [Tagged(c, pushed[0])] + [Tagged(c, pushed[1])];
    TwoReach(s, t, c, pushed[0], pushed[1]);
  }

  lemma TwoReach(s: State, m: State, c: nat, o: Outbound<nat>, o': Outbound<nat>)
    requires Turns.Quiet(m) && s.queue == [] && m.queue == [Tagged(c, o)] + [Tagged(c, o')]
    requires m == s.(queue := m.queue, enqueued := m.enqueued, nextMessage := m.nextMessage)
    ensures var t := Run(Run(m, RelaySteps), RelaySteps);
      && Turns.Quiet(t) && OnlyHanded(s, t) && t.queue == [] && t.nextMessage == m.nextMessage
      && forall x :: x in s.conns ==>
           Queues(SEND_CAPACITY, s.conns[x].box, t.conns[x].box,
                  (if For(s, o, x) then [Stamped(Some(|s.emissions|), o.event)] else [])
                  + (if For(s, o', x) then [Stamped(Some(|s.emissions| + 1), o'.event)] else []))
  {
    hide Run, Queues, For, Turns.Quiet;
    RelayHands(m);
    var m1 := Run(m, RelaySteps);
    RelayHands(m1);
    var t := Run(m1, RelaySteps);
    forall x | x in s.conns
      ensures Queues(SEND_CAPACITY, s.conns[x].box, t.conns[x].box,
        (if For(s, o, x) then [Stamped(Some(|s.emissions|), o.event)] else [])
        + (if For(s, o', x) then [Stamped(Some(|s.emissions| + 1), o'.event)] else []))
    {
      SameFor(s, m, o, x);
      SameFor(s, m1, o', x);
      QueuesBoth(SEND_CAPACITY, s.conns[x].box, m1.conns[x].box, t.conns[x].box,
                 if For(s, o, x) then [Stamped(Some(|s.emissions|), o.event)] else [],
                 if For(s, o', x) then [Stamped(Some(|s.emissions| + 1), o'.event)] else []);
    }
  }

  // ---- Coming and going

  ghost predicate Online(s: State, x: nat) {
    exists u :: In(s.users, u, x)
  }

  lemma AllOnline(s: State, x: nat)
    ensures x in All(s.users) <==> Online(s, x)
  {
    if x in All(s.users) {
      var u :| u in s.users && x in s.users[u];
      assert In(s.users, u, x);
    }
  }

  // Each of these connections is handed the event.
  lemma PostHands(conns: map<nat, Conn>, to: set<nat>, e: Stamped, x: nat)
    requires x in conns
    ensures var k := Post(conns, to, e)[x];
      && k == conns[x].(box := k.box)
      && Queues(SEND_CAPACITY, conns[x].box, k.box, if x in to then [e] else [])
  {
    hide Queues;
    QueuesOne(SEND_CAPACITY, conns[x].box, e);
    QueuesNothing(SEND_CAPACITY, conns[x].box);
  }

  function ArriveSteps(c: nat, user: UserId): seq<Action> {
    [Connect(c, user), TakeRegister(c), HubLock, HubWork]
  }

  function LeaveHubSteps(c: nat): seq<Action> {
    [HangUp(c), TakeUnregister(c), HubLock, HubWork]
  }

  lemma ArrivedIs(s: State, c: nat, user: UserId)
    requires c !in s.conns
    ensures Turns.Steps(s, Turns.Arrive(c, user)) == ArriveSteps(c, user)
    ensures var t, n := Turns.TurnEnd(s, Turns.Arrive(c, user)), |s.emissions|;
      var users := Put(s.users, user, c);
      var k := Conn(user, Reading, {}, Outbox([], [], 0, false), Live, n, users.Keys);
      && t.users == users && t.rooms == s.rooms && t.queue == s.queue && t.nextMessage == s.nextMessage
      && t.conns == Post(s.conns[c := k], All(users), Stamped(Some(n), Presence(user, true)))
  {
    hide Put, All, Post;
    var k := Conn(user, Reading, {}, Outbox([], [], 0, false), Fresh, 0, {});
    var k' := k.(status := Live, start := |s.emissions|, onlineThen := Put(s.users, user, c).Keys);
    assert s.conns[c := k][c := k'] == s.conns[c := k'];
  }

  // Whoever is online, the newcomer included, is told of an arrival, and the newcomer is in its user's bucket.
  lemma ArrivalShows(s: State, c: nat, user: UserId)
    requires Turns.Quiet(s) && c !in s.conns && !Online(s, c)
    ensures var t := Run(s, ArriveSteps(c, user)); var e := Stamped(Some(|s.emissions|), Presence(user, true));
      && Turns.Quiet(t) && (forall u, x :: In(t.users, u, x) <==> In(s.users, u, x) || (u == user && x == c))
      && t.rooms == s.rooms && t.queue == s.queue && t.conns.Keys == s.conns.Keys + {c}
      && t.conns[c].user == user && t.conns[c].pc.Reading? && t.conns[c].status.Live? && t.conns[c].rooms == {}
      && t.conns[c].box == Outbox([e], [e], 0, false)
      && forall x :: x in s.conns ==>
           && t.conns[x] == s.conns[x].(box := t.conns[x].box)
           && Queues(SEND_CAPACITY, s.conns[x].box, t.conns[x].box, if Online(s, x) then [e] else [])
  {
    hide Run, Put, All, Post, Queues, Turns.Quiet, In, Online, ArriveSteps;
    Turns.TurnRuns(s, Turns.Arrive(c, user));
    ArrivedIs(s, c, user);
    PutIs(s.users, user, c);
    var t, n := Run(s, ArriveSteps(c, user)), |s.emissions|;
    var users, e := Put(s.users, user, c), Stamped(Some(n), Presence(user, true));
    var k := Conn(user, Reading, {}, Outbox([], [], 0, false), Live, n, users.Keys);
    PostKeys(s.conns[c := k], All(users), e);
    Newcomer(s, t, c, user);
    PostHands(s.conns[c := k], All(users), e, c);
    FirstHeard(k.box, t.conns[c].box, e);
    forall x | x in s.conns
      ensures t.conns[x] == s.conns[x].(box := t.conns[x].box)
      ensures Queues(SEND_CAPACITY, s.conns[x].box, t.conns[x].box, if Online(s, x) then [e] else [])
    {
      PostHands(s.conns[c := k], All(users), e, x);
      OnlineAlike(s, t, c, user, x);
    }
  }

  lemma PostKeys(conns: map<nat, Conn>, to: set<nat>, e: Stamped)
    ensures Post(conns, to, e).Keys == conns.Keys
  {}

  lemma FirstHeard(b: Outbox<Stamped>, b': Outbox<Stamped>, e: Stamped)
    requires b == Outbox([], [], 0, false) && Queues(SEND_CAPACITY, b, b', [e])
    ensures b' == Outbox([e], [e], 0, false)
  {
    assert [e][..1] == [e];
  }

  lemma Newcomer(s: State, t: State, c: nat, user: UserId)
    requires t.users == Put(s.users, user, c)
    ensures c in All(t.users)
  {
    AllOnline(t, c);
    PutIs(s.users, user, c);
    assert In(t.users, user, c);
    hide Put, All;
  }

  lemma OnlineAlike(s: State, t: State, c: nat, user: UserId, x: nat)
    requires forall u, x :: In(t.users, u, x) <==> In(s.users, u, x) || (u == user && x == c)
    requires x != c
    ensures x in All(t.users) <==> Online(s, x)
  {
    AllOnline(t, x);
    hide All, In;
    if Online(s, x) {
      var u :| In(s.users, u, x);
      assert In(t.users, u, x);
    }
    if Online(t, x) {
      var u :| In(t.users, u, x);
      assert In(s.users, u, x);
    }
  }

  // The user has no other connection online.
  ghost predicate LastOne(s: State, c: nat, user: UserId) {
    forall x :: In(s.users, user, x) ==> x == c
  }

  lemma LeftIs(s: State, c: nat)
    requires Listens(s, c)
    ensures Turns.Steps(s, Turns.Leave(c)) == LeaveHubSteps(c)
    ensures var k, t := s.conns[c], Turns.TurnEnd(s, Turns.Leave(c));
      var users := Drop(s.users, k.user, c);
      var conns := s.conns[c := k.(pc := Gone, status := Dead)];
      && t.users == users && t.rooms == Purge(s.rooms, c) && t.queue == s.queue && t.nextMessage == s.nextMessage
      && t.conns == if k.user in s.users && k.user !in users
                    then Post(conns, All(users), Stamped(Some(|s.emissions|), Presence(k.user, false))) else conns
  {
    hide Drop, Purge, All, Post;
    var k := s.conns[c];
    var gone := k.(pc := Gone, status := Dead);
    assert s.conns[c := k.(pc := Gone)][c := gone] == s.conns[c := gone];
  }

  lemma WentWhen(s: State, c: nat, user: UserId)
    requires In(s.users, user, c)
    ensures user in s.users && (user !in Drop(s.users, user, c) <==> LastOne(s, c, user))
  {
    if LastOne(s, c, user) {
      forall x | x in s.users[user] ensures x == c { assert In(s.users, user, x); }
      assert s.users[user] - {c} == {};
    } else {
      var x :| In(s.users, user, x) && x != c;
      assert x in s.users[user] - {c};
    }
  }

  // A departure takes the connection out of its user's bucket and out of every room; those still online are
  // told that the user went exactly when that was its last connection.
  lemma DepartureShows(s: State, c: nat)
    requires Turns.Quiet(s) && Listens(s, c) && In(s.users, s.conns[c].user, c)
    requires NoEmptyBucket(s.rooms) && forall u :: In(s.users, u, c) ==> u == s.conns[c].user
    ensures var k, t := s.conns[c], Run(s, LeaveHubSteps(c));
      var e := Stamped(Some(|s.emissions|), Presence(k.user, false));
      && Turns.Quiet(t) && (forall u, x :: In(t.users, u, x) <==> In(s.users, u, x) && x != c)
      && (forall j, x :: In(t.rooms, j, x) <==> In(s.rooms, j, x) && x != c)
      && t.queue == s.queue && t.conns.Keys == s.conns.Keys && t.conns[c].pc.Gone? && t.conns[c].status.Dead?
      && t.conns[c].box == k.box
      && forall x :: x in s.conns && x != c ==>
           && t.conns[x] == s.conns[x].(box := t.conns[x].box)
           && Queues(SEND_CAPACITY, s.conns[x].box, t.conns[x].box,
                     if Online(s, x) && LastOne(s, c, k.user) then [e] else [])
  {
    hide Run, Drop, Purge, All, Post, Queues, Turns.Quiet, In, Online, LeaveHubSteps, NoEmptyBucket, LastOne;
    Turns.TurnRuns(s, Turns.Leave(c));
    LeftIs(s, c);
    var k, t := s.conns[c], Run(s, LeaveHubSteps(c));
    DropIs(s.users, k.user, c);
    PurgeIs(s.rooms, c);
    WentWhen(s, c, k.user);
    var conns := s.conns[c := k.(pc := Gone, status := Dead)];
    var e := Stamped(Some(|s.emissions|), Presence(k.user, false));
    PostKeys(conns, All(t.users), e);
    StillOnline(s, t, c, c);
    PostHands(conns, All(t.users), e, c);
    NothingHeard(k.box, Post(conns, All(t.users), e)[c].box);
    forall x | x in s.conns && x != c
      ensures t.conns[x] == s.conns[x].(box := t.conns[x].box)
      ensures Queues(SEND_CAPACITY, s.conns[x].box, t.conns[x].box,
        if Online(s, x) && LastOne(s, c, k.user) then [e] else [])
    {
      PostHands(conns, All(t.users), e, x);
      QueuesNothing(SEND_CAPACITY, s.conns[x].box);
      StillOnline(s, t, c, x);
    }
  }

  lemma NothingHeard(b: Outbox<Stamped>, b': Outbox<Stamped>)
    requires Queues(SEND_CAPACITY, b, b', [])
    ensures b' == b
  {
    assert b.calls + [] == b.calls && b.accepted + [] == b.accepted;
  }

  lemma StillOnline(s: State, t: State, c: nat, x: nat)
    requires forall u, y :: In(t.users, u, y) <==> In(s.users, u, y) && y != c
    ensures x in All(t.users) <==> Online(s, x) && x != c
  {
    AllOnline(t, x);
    hide All, In;
    if Online(s, x) && x != c {
      var u :| In(s.users, u, x);
      assert In(t.users, u, x);
    }
    if Online(t, x) {
      var u :| In(t.users, u, x);
      assert In(s.users, u, x);
    }
  }
}
