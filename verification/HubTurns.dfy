// Runs of the transition system in which whoever starts something finishes it before anyone else goes on:
// the runs that the hub and the connections can make as objects, one method call after another.
module HubTurns {
  import opened Text
  import opened Channels
  import opened HubModel
  import opened HubSystem
  import HubServer

  datatype Turn =
    | Arrive(c: nat, user: UserId)                             // a connection is registered
    | Serve(c: nat, event: ClientEvent, reply: StoreReply)    // a read loop handles one event
    | Relay                                                    // the hub sends one broadcast entry
    | Leave(c: nat)                                            // a read loop ends and is unregistered
    | Write(c: nat)                                            // a write loop takes one event

  // The steps of a turn; those of an event only when the channel can take what its handler may push.
  function Steps(s: State, t: Turn): seq<Action> {
    match t
    case Arrive(c, user) => [Connect(c, user), TakeRegister(c), HubLock, HubWork]
    case Serve(c, e, reply) =>
      if |s.queue| + 2 > BROADCAST_CAPACITY then []
      else [Receive(c, e, reply), ConnLock(c), ConnWork(c), Joined(c), Push(c), Push(c)]
    case Relay => [TakeBroadcast, HubLock, HubWork]
    case Leave(c) => [HangUp(c), TakeUnregister(c), HubLock, HubWork]
    case Write(c) => [Written(c)]
  }

  // The handler of the event would have to wait for the hub to take something from the channel.
  predicate Waits(s: State, t: Turn) {
    t.Serve? && t.c in s.conns && s.conns[t.c].pc.Reading? && |s.queue| + 2 > BROADCAST_CAPACITY
  }

  // Until there is room the hub relays.
  function AllSteps(s: State, t: Turn): seq<Action>
    decreases |s.queue|
  {
    if Waits(s, t) then Steps(s, Relay) + AllSteps(Relayed(s), t) else Steps(s, t)
  }

  function Schedule(turns: seq<Turn>): seq<Action> {
    if turns == [] then []
    else
      var front := Schedule(turns[..|turns| - 1]);
      front + AllSteps(Run(Initial, front), turns[|turns| - 1])
  }

  // Nobody is in the middle of anything.
  predicate Quiet(s: State) {
    && s.hub.Idle? && s.lock.None?
    && forall c :: c in s.conns ==> s.conns[c].pc.Reading? || s.conns[c].pc.Gone?
  }

  // ---- What a turn comes to

  function Arrived(s: State, c: nat, user: UserId): State {
    if c in s.conns then s
    else AddSection(SetConn(s, c, Conn(user, Reading, {}, Outbox([], [], 0, false), Fresh, 0, {})), c)
  }

  // Whether the store issued a message.
  predicate Creates(e: ClientEvent, reply: StoreReply) {
    match e
    case RoomMessage(room, body, attachment) =>
      (Trim(body) != "" || attachment) && room.Some? && reply.member && reply.created
    case DirectMessage(to, body, attachment) => (Trim(body) != "" || attachment) && to.Some? && reply.created
    case _ => false
  }

  function After(conn: Conn, e: ClientEvent, reply: StoreReply): Conn {
    var answer := HubServer.Answer(conn.user, e, reply);
    conn.(rooms := HubServer.OwnRooms(conn.rooms, e),
          box := if answer.Some? then conn.box.Push(Stamped(None, answer.value), SEND_CAPACITY) else conn.box)
  }

  function Handled(s: State, c: nat, e: ClientEvent, reply: StoreReply): State {
    if c !in s.conns || !s.conns[c].pc.Reading? || |s.queue| + 2 > BROADCAST_CAPACITY then s
    else
      var pushed := Tags(c, HubServer.Outs(c, s.conns[c].user, e, reply, s.nextMessage));
      s.(rooms := HubServer.RoomsAfter(s.rooms, c, e), queue := s.queue + pushed, enqueued := s.enqueued + pushed,
         conns := s.conns[c := After(s.conns[c], e, reply)],
         nextMessage := s.nextMessage + if Creates(e, reply) then 1 else 0)
  }

  function Relayed(s: State): (t: State)
    ensures s.queue != [] ==> t.queue == s.queue[1..]
  {
    if s.queue == [] then s else RelaySection(s.(queue := s.queue[1..]), s.queue[0])
  }

  function Left(s: State, c: nat): State {
    if c !in s.conns || !s.conns[c].pc.Reading? then s
    else RemoveSection(SetConn(s, c, s.conns[c].(pc := Gone)), c)
  }

  function TurnEnd(s: State, t: Turn): State {
    match t
    case Arrive(c, user) => Arrived(s, c, user)
    case Serve(c, e, reply) => Handled(s, c, e, reply)
    case Relay => Relayed(s)
    case Leave(c) => Left(s, c)
    case Write(c) => Step(s, Written(c))
  }

  function TurnDone(s: State, t: Turn): State
    decreases |s.queue|
  {
    if Waits(s, t) then TurnDone(Relayed(s), t) else TurnEnd(s, t)
  }

  // ---- Running the steps

  lemma Run1(s: State, a: Action)
    ensures Run(s, [a]) == Step(s, a)
  {
    hide Step;
    assert [a][..0] == [];
  }

  lemma Run3(s: State, a: Action, b: Action, c: Action)
    ensures Run(s, [a, b, c]) == Step(Step(Step(s, a), b), c)
  {
    hide Step, Run;
    Run1(s, a);
    Run1(Step(s, a), b);
    Run1(Step(Step(s, a), b), c);
    RunAppend(s, [a], [b]);
    RunAppend(s, [a] + [b], [c]);
    assert [a] + [b] + [c] == [a, b, c];
  }

  lemma Run4(s: State, a: Action, b: Action, c: Action, d: Action)
    ensures Run(s, [a, b, c, d]) == Step(Step(Step(Step(s, a), b), c), d)
  {
    hide Step, Run;
    Run3(s, a, b, c);
    Run1(Step(Step(Step(s, a), b), c), d);
    RunAppend(s, [a, b, c], [d]);
    assert [a, b, c] + [d] == [a, b, c, d];
  }

  lemma Run6(s: State, a: Action, b: Action, c: Action, d: Action, e: Action, f: Action)
    ensures Run(s, [a, b, c, d, e, f]) == Step(Step(Step(Step(Step(Step(s, a), b), c), d), e), f)
  {
    hide Step, Run;
    Run3(s, a, b, c);
    Run3(Step(Step(Step(s, a), b), c), d, e, f);
    RunAppend(s, [a, b, c], [d, e, f]);
    assert [a, b, c] + [d, e, f] == [a, b, c, d, e, f];
  }

  // ---- Each turn

  lemma SetTwice(s: State, c: nat, k: Conn, k': Conn)
    ensures SetConn(SetConn(s, c, k), c, k') == SetConn(s, c, k')
  {
    assert s.conns[c := k][c := k'] == s.conns[c := k'];
  }

  lemma ArriveRuns(s: State, c: nat, user: UserId)
    requires Quiet(s)
    ensures Run(s, Steps(s, Arrive(c, user))) == Arrived(s, c, user)
  {
    hide Run, Put, All, Post;
    Run4(s, Connect(c, user), TakeRegister(c), HubLock, HubWork);
    if c !in s.conns {
      var k := Conn(user, Registering, {}, Outbox([], [], 0, false), Fresh, 0, {});
      SetTwice(s, c, k, k.(pc := Reading));
    }
  }

  // What is relayed does not depend on who holds the lock.
  lemma RelayInHub(s: State, t: State, x: Tagged)
    requires t == s.(hub := t.hub, lock := t.lock)
    ensures RelaySection(t, x) == RelaySection(s, x).(hub := t.hub, lock := t.lock)
    ensures RelaySection(s, x).hub == s.hub && RelaySection(s, x).lock == s.lock
  {
    hide Recipients, Post;
  }

  lemma RelayRuns(s: State)
    requires Quiet(s)
    ensures Run(s, Steps(s, Relay)) == Relayed(s)
  {
    hide Run, RelaySection;
    Run3(s, TakeBroadcast, HubLock, HubWork);
    if s.queue != [] {
      var t := s.(queue := s.queue[1..]);
      RelayInHub(t, t.(hub := Relaying(s.queue[0]), lock := Some(TheHub)), s.queue[0]);
    }
  }

  lemma LeaveRuns(s: State, c: nat)
    requires Quiet(s)
    ensures Run(s, Steps(s, Leave(c))) == Left(s, c)
  {
    hide Run, Drop, Purge, All, Post;
    Run4(s, HangUp(c), TakeUnregister(c), HubLock, HubWork);
    if c in s.conns && s.conns[c].pc.Reading? {
      SetTwice(s, c, s.conns[c].(pc := Unregistering), s.conns[c].(pc := Gone));
    }
  }

  // What Receive, the lock section and what follows it leave, before the pushes.
  function Answered(s: State, c: nat, e: ClientEvent, reply: StoreReply): State {
    Step(Step(Step(Step(s, Receive(c, e, reply)), ConnLock(c)), ConnWork(c)), Joined(c))
  }

  function Standing(s: State, c: nat, e: ClientEvent, reply: StoreReply): State
    requires c in s.conns
  {
    var outs := HubServer.Outs(c, s.conns[c].user, e, reply, s.nextMessage);
    var k := After(s.conns[c], e, reply);
    s.(rooms := HubServer.RoomsAfter(s.rooms, c, e),
       conns := s.conns[c := if outs == [] then k else k.(pc := Sending(outs))],
       nextMessage := s.nextMessage + if Creates(e, reply) then 1 else 0)
  }

  lemma NoLockNeeded(s: State, c: nat)
    requires s.hub.Idle? && s.lock.None? && c in s.conns && (s.conns[c].pc.Reading? || s.conns[c].pc.Sending?)
    ensures Step(Step(Step(s, ConnLock(c)), ConnWork(c)), Joined(c)) == s
  {}

  lemma SetSame(s: State, c: nat)
    requires c in s.conns
    ensures SetConn(s, c, s.conns[c]) == s
  {
    assert s.conns[c := s.conns[c]] == s.conns;
  }

  lemma SendingRuns(s: State, c: nat, e: ClientEvent, reply: StoreReply)
    requires Quiet(s) && c in s.conns && s.conns[c].pc.Reading? && !e.JoinRoom? && !e.LeaveRoom?
    ensures Answered(s, c, e, reply) == Standing(s, c, e, reply)
  {
    var t := Handle(s, c, e, reply);
    assert t == Standing(s, c, e, reply) by { HandleStands(s, c, e, reply); }
    assert t.hub.Idle? && t.lock.None? && c in t.conns && (t.conns[c].pc.Reading? || t.conns[c].pc.Sending?);
    hide Standing, Handle, Quiet;
    NoLockNeeded(t, c);
  }

  lemma HandleStands(s: State, c: nat, e: ClientEvent, reply: StoreReply)
    requires c in s.conns && s.conns[c].pc.Reading? && !e.JoinRoom? && !e.LeaveRoom?
    ensures Handle(s, c, e, reply) == Standing(s, c, e, reply)
  {
    hide Trim;
    SetSame(s, c);
  }

  lemma JoiningRuns(s: State, c: nat, r: RoomId, reply: StoreReply)
    requires Quiet(s) && c in s.conns && s.conns[c].pc.Reading?
    ensures Answered(s, c, JoinRoom(Some(r)), reply) == Standing(s, c, JoinRoom(Some(r)), reply)
  {
    hide Put;
    var k := s.conns[c];
    SetTwice(s, c, k.(pc := Subscribing(r)), k.(pc := Subscribed(r)));
    SetTwice(s, c, k.(pc := Subscribed(r)), After(k, JoinRoom(Some(r)), reply));
  }

  lemma LeavingRuns(s: State, c: nat, r: RoomId, reply: StoreReply)
    requires Quiet(s) && c in s.conns && s.conns[c].pc.Reading?
    ensures Answered(s, c, LeaveRoom(Some(r)), reply) == Standing(s, c, LeaveRoom(Some(r)), reply)
  {
    hide Drop;
    var k := s.conns[c].(pc := Unsubscribing(r), rooms := s.conns[c].rooms - {r});
    SetTwice(s, c, k, k.(pc := Reading));
  }

  lemma UnparsedRuns(s: State, c: nat, e: ClientEvent, reply: StoreReply)
    requires Quiet(s) && c in s.conns && s.conns[c].pc.Reading? && (e == JoinRoom(None) || e == LeaveRoom(None))
    ensures Answered(s, c, e, reply) == Standing(s, c, e, reply)
  {
    SetSame(s, c);
  }

  lemma ReceiveRuns(s: State, c: nat, e: ClientEvent, reply: StoreReply)
    requires Quiet(s) && c in s.conns && s.conns[c].pc.Reading?
    ensures Answered(s, c, e, reply) == Standing(s, c, e, reply)
  {
    hide Answered, Standing, Quiet;
    match e
    case JoinRoom(Some(r)) => JoiningRuns(s, c, r, reply);
    case LeaveRoom(Some(r)) => LeavingRuns(s, c, r, reply);
    case JoinRoom(None) => UnparsedRuns(s, c, e, reply);
    case LeaveRoom(None) => UnparsedRuns(s, c, e, reply);
    case _ => SendingRuns(s, c, e, reply);
  }

  lemma PushesRun(s: State, c: nat, k: Conn, outs: seq<Outbound<nat>>)
    requires c in s.conns && k.pc.Reading? && s.conns[c] == if outs == [] then k else k.(pc := Sending(outs))
    requires |outs| <= 2 && |s.queue| + 2 <= BROADCAST_CAPACITY
    ensures Step(Step(s, Push(c)), Push(c)) ==
      s.(queue := s.queue + Tags(c, outs), enqueued := s.enqueued + Tags(c, outs), conns := s.conns[c := k])
  {
    if |outs| == 2 {
      assert Tags(c, outs) == [Tagged(c, outs[0])] + [Tagged(c, outs[1])];
    }
  }

  lemma IgnoredRuns(s: State, c: nat, e: ClientEvent, reply: StoreReply)
    requires Quiet(s) && (c !in s.conns || s.conns[c].pc.Gone?)
    ensures Answered(s, c, e, reply) == s && Step(Step(s, Push(c)), Push(c)) == s
  {
    hide Handle;
  }

  lemma HandleRuns(s: State, c: nat, e: ClientEvent, reply: StoreReply)
    requires Quiet(s)
    ensures Run(s, Steps(s, Serve(c, e, reply))) == Handled(s, c, e, reply)
  {
    if |s.queue| + 2 <= BROADCAST_CAPACITY {
      Run6(s, Receive(c, e, reply), ConnLock(c), ConnWork(c), Joined(c), Push(c), Push(c));
      var t := Answered(s, c, e, reply);
      assert Run(s, Steps(s, Serve(c, e, reply))) == Step(Step(t, Push(c)), Push(c));
      hide Step, Run, Steps, After, HubServer.Outs, HubServer.RoomsAfter, Creates, Answered;
      if c in s.conns && s.conns[c].pc.Reading? {
        ReceiveRuns(s, c, e, reply);
        AfterReads(s.conns[c], e, reply);
        FewOuts(s, c, e, reply);
        PushesRun(t, c, After(s.conns[c], e, reply), HubServer.Outs(c, s.conns[c].user, e, reply, s.nextMessage));
        assert s.conns[c := t.conns[c]][c := After(s.conns[c], e, reply)] == s.conns[c := After(s.conns[c], e, reply)];
      } else {
        IgnoredRuns(s, c, e, reply);
      }
    }
  }

  lemma AfterReads(k: Conn, e: ClientEvent, reply: StoreReply)
    ensures After(k, e, reply).pc == k.pc
  {}

  lemma FewOuts(s: State, c: nat, e: ClientEvent, reply: StoreReply)
    requires c in s.conns
    ensures |HubServer.Outs(c, s.conns[c].user, e, reply, s.nextMessage)| <= 2
  {
    hide Trim;
  }

  // Every turn, step by step, comes to its end, and leaves nobody in the middle of anything.
  lemma TurnRuns(s: State, t: Turn)
    requires Quiet(s)
    ensures Run(s, Steps(s, t)) == TurnEnd(s, t) && Quiet(TurnEnd(s, t))
  {
    hide Run, Trim, Put, Drop, Purge, All, Recipients;
    match t
    case Arrive(c, user) => ArriveRuns(s, c, user);
    case Serve(c, e, reply) => HandleRuns(s, c, e, reply);
    case Relay => RelayRuns(s);
    case Leave(c) => LeaveRuns(s, c);
    case Write(c) => Run1(s, Written(c));
  }

  // So does a turn that first waits for room.
  lemma {:induction false} DoneRuns(s: State, t: Turn)
    requires Quiet(s)
    ensures Run(s, AllSteps(s, t)) == TurnDone(s, t) && Quiet(TurnDone(s, t))
    decreases |s.queue|
  {
    hide Run, Steps, TurnEnd, Relayed, Quiet;
    if Waits(s, t) {
      TurnRuns(s, Relay);
      RelayEnds(s);
      DoneRuns(Relayed(s), t);
      RunAppend(s, Steps(s, Relay), AllSteps(Relayed(s), t));
    } else {
      TurnRuns(s, t);
    }
  }

  lemma RelayEnds(s: State)
    ensures TurnEnd(s, Relay) == Relayed(s)
  {}

  lemma NextTurn(turns: seq<Turn>, i: nat)
    requires i < |turns| && Quiet(Run(Initial, Schedule(turns[..i])))
    ensures Run(Initial, Schedule(turns[..i + 1])) == TurnDone(Run(Initial, Schedule(turns[..i])), turns[i])
  {
    hide Run, AllSteps, TurnDone, Quiet;
    var front := Schedule(turns[..i]);
    var s := Run(Initial, front);
    assert turns[..i + 1][..i] == turns[..i];
    RunAppend(Initial, front, AllSteps(s, turns[i]));
    DoneRuns(s, turns[i]);
  }
}
