// A run from the start in which two connections subscribe to a room and both are shown what one of them says.
module HubMeeting {
  import opened Text
  import opened Channels
  import opened HubModel
  import opened HubSystem
  import opened HubIndex
  import opened HubDms
  import opened HubRooms
  import opened HubEvents
  import Turns = HubTurns

  const NoReply := StoreReply(false, false)
  const Stored := StoreReply(true, true)

  // Connections 0 and 1 arrive and join the room.
  function Gather(u: UserId, v: UserId, r: RoomId): seq<Action> {
    ArriveSteps(0, u) + ArriveSteps(1, v) + JoinSteps(0, r, NoReply) + JoinSteps(1, r, NoReply)
  }

  // Connection 0 says something there.
  function Say(r: RoomId, body: string): seq<Action> {
    ServeSteps(0, RoomMessage(Some(r), body, true), Stored) + RelaySteps
  }

  // ---- Nothing lost so far

  predicate Roomy(b: Outbox<Stamped>, n: nat) {
    b.accepted == b.calls && b.taken == 0 && !b.closed && |b.calls| <= n
  }

  lemma StaysRoomy(b: Outbox<Stamped>, b': Outbox<Stamped>, xs: seq<Stamped>, n: nat)
    requires Roomy(b, n) && n + |xs| <= SEND_CAPACITY && Queues(SEND_CAPACITY, b, b', xs)
    ensures Roomy(b', n + |xs|)
  {
    assert xs[..|xs|] == xs;
  }

  lemma NobodyYet()
    ensures Run(Initial, []) == Initial && Turns.Quiet(Initial)
    ensures forall u, x :: !In(Initial.users, u, x) && !In(Initial.rooms, u, x)
  {}

  // ---- The gathering, one arrival or join at a time

  ghost predicate Arrived(s: State, c: nat, u: UserId, n: nat) {
    c in s.conns && s.conns[c].user == u && s.conns[c].pc.Reading? && Roomy(s.conns[c].box, n)
  }

  lemma FirstArrives(u: UserId)
    ensures var s := Run(Initial, ArriveSteps(0, u));
      && Turns.Quiet(s) && s.queue == [] && s.conns.Keys == {0} && Arrived(s, 0, u, 1)
      && forall j, x :: In(s.users, j, x) ==> x == 0
  {
    hide Run, Turns.Quiet, ArriveSteps, Queues, In;
    NobodyYet();
    ArrivalShows(Initial, 0, u);
  }

  lemma SecondArrives(u: UserId, v: UserId)
    ensures var s := Run(Initial, ArriveSteps(0, u) + ArriveSteps(1, v));
      Turns.Quiet(s) && s.queue == [] && s.conns.Keys == {0, 1} && Arrived(s, 0, u, 2) && Arrived(s, 1, v, 1)
  {
    hide Run, Turns.Quiet, ArriveSteps, Queues, In, Roomy;
    FirstArrives(u);
    RunAppend(Initial, ArriveSteps(0, u), ArriveSteps(1, v));
    var s := Run(Initial, ArriveSteps(0, u));
    ArrivalShows(s, 1, v);
    var t := Run(s, ArriveSteps(1, v));
    Heard(s.conns[0].box, t.conns[0].box, Stamped(Some(|s.emissions|), Presence(v, true)), 1);
    One(t.conns[1].box, Stamped(Some(|s.emissions|), Presence(v, true)));
  }

  lemma Heard(b: Outbox<Stamped>, b': Outbox<Stamped>, x: Stamped, n: nat)
    requires Roomy(b, n) && n < SEND_CAPACITY
    requires Queues(SEND_CAPACITY, b, b', []) || Queues(SEND_CAPACITY, b, b', [x])
    ensures Roomy(b', n + 1)
  {
    if Queues(SEND_CAPACITY, b, b', [x]) {
      StaysRoomy(b, b', [x], n);
    } else {
      StaysRoomy(b, b', [], n);
    }
  }

  lemma One(b: Outbox<Stamped>, x: Stamped)
    requires b.calls == [x] && b.accepted == [x] && b.taken == 0 && !b.closed
    ensures Roomy(b, 1)
  {}

  lemma Joins(before: seq<Action>, c: nat, u: UserId, r: RoomId, n: nat)
    requires var s := Run(Initial, before); Turns.Quiet(s) && Arrived(s, c, u, n) && n < SEND_CAPACITY
    ensures var s, t := Run(Initial, before), Run(Initial, before + JoinSteps(c, r, NoReply));
      && Turns.Quiet(t) && Arrived(t, c, u, n + 1) && t == s.(rooms := t.rooms, conns := s.conns[c := t.conns[c]])
      && In(t.rooms, r, c) && forall j, x :: In(s.rooms, j, x) ==> In(t.rooms, j, x)
  {
    hide Run, Turns.Quiet, JoinSteps, Queues, In, Roomy;
    var s := Run(Initial, before);
    RunAppend(Initial, before, JoinSteps(c, r, NoReply));
    JoinSubscribes(s, c, r, NoReply);
    StaysRoomy(s.conns[c].box, Run(s, JoinSteps(c, r, NoReply)).conns[c].box, [Stamped(None, RoomJoined(r, u))], n);
  }

  lemma Gathers(u: UserId, v: UserId, r: RoomId)
    ensures var s := Run(Initial, Gather(u, v, r));
      && Turns.Quiet(s) && s.queue == [] && Arrived(s, 0, u, 3) && Arrived(s, 1, v, 2)
      && In(s.rooms, r, 0) && In(s.rooms, r, 1)
  {
    hide Run, Turns.Quiet, ArriveSteps, JoinSteps, Arrived, In;
    SecondArrives(u, v);
    var before := ArriveSteps(0, u) + ArriveSteps(1, v);
    Joins(before, 0, u, r, 2);
    OtherStays(Run(Initial, before), Run(Initial, before + JoinSteps(0, r, NoReply)), 1, 0, v, 1);
    Joins(before + JoinSteps(0, r, NoReply), 1, v, r, 1);
    OtherStays(Run(Initial, before + JoinSteps(0, r, NoReply)), Run(Initial, Gather(u, v, r)), 0, 1, u, 3);
  }

  lemma OtherStays(s: State, t: State, x: nat, c: nat, u: UserId, n: nat)
    requires Arrived(s, x, u, n) && x != c && c in t.conns && t.conns == s.conns[c := t.conns[c]]
    ensures Arrived(t, x, u, n)
  {}

  // ---- The room index while connection 0 speaks

  predicate Calm(s: State, rooms: Buckets<nat>) {
    s.rooms == rooms && 0 in s.conns && !Locking(s.conns[0].pc)
  }

  predicate Mild(a: Action) {
    match a
    case Receive(c, e, _) => c == 0 && e.RoomMessage?
    case ConnLock(c) => c == 0
    case ConnWork(c) => c == 0
    case Joined(c) => c == 0
    case Push(c) => c == 0
    case TakeBroadcast => true
    case HubLock => true
    case _ => false
  }

  lemma CalmStep(s: State, rooms: Buckets<nat>, a: Action)
    requires Calm(s, rooms) && Mild(a)
    ensures Calm(Step(s, a), rooms)
  {
    hide Trim;
  }

  lemma {:induction false} CalmRun(s: State, rooms: Buckets<nat>, actions: seq<Action>)
    requires Calm(s, rooms) && forall i :: 0 <= i < |actions| ==> Mild(actions[i])
    ensures Calm(Run(s, actions), rooms)
  {
    hide Step, Calm, Mild;
    if actions != [] {
      CalmRun(s, rooms, actions[..|actions| - 1]);
      CalmStep(Run(s, actions[..|actions| - 1]), rooms, actions[|actions| - 1]);
    }
  }

  lemma SayIsMild(r: RoomId, body: string)
    ensures |Say(r, body)| == 9 && forall i :: 0 <= i < 8 ==> Mild(Say(r, body)[i])
  {}

  lemma BothSubscribed(u: UserId, v: UserId, r: RoomId, body: string, c: nat)
    requires c == 0 || c == 1
    ensures HubRooms.Subscribed(Gather(u, v, r), Say(r, body), r, c)
  {
    hide Run, Gather, Say, Mild, Turns.Quiet, In;
    var first, later := Gather(u, v, r), Say(r, body);
    Gathers(u, v, r);
    SayIsMild(r, body);
    forall n: nat | n < |later| ensures In(Run(Initial, first + later[..n]).rooms, r, c) {
      RunAppend(Initial, first, later[..n]);
      CalmRun(Run(Initial, first), Run(Initial, first).rooms, later[..n]);
    }
  }

  // ---- Both are shown it

  lemma HeardOne(k: Conn, k': Conn, e: Stamped, m: Message, r: RoomId)
    requires e.event == MessageEvent(m) && m.room == Some(r) && k'.user == k.user
    requires Queues(SEND_CAPACITY, k.box, k'.box, [e])
    ensures RoomThread(k', r) == RoomThread(k, r) + [m]
  {
    ThreadAppend(k.box.calls, e, k.user, BrowserStore.RoomKey(r));
  }

  // Two connections of any users arrive, join any room, and the one says something there. Throughout the
  // saying both are subscribed, and in the end both browsers show that one message more.
  lemma RoomIsHeard(u: UserId, v: UserId, r: RoomId, body: string)
    ensures var first, later := Gather(u, v, r), Say(r, body);
      var s, t := Run(Initial, first), Run(Initial, first + later);
      && (forall c :: c == 0 || c == 1 ==>
            && HubRooms.Subscribed(first, later, r, c)
            && c in s.conns && s.conns[c].box.Lossless() && c in t.conns && t.conns[c].box.Lossless()
            && RoomShown(t.conns[c], r) ==
               RoomShown(s.conns[c], r) + [Message(s.nextMessage, Some(r), u, None, Trim(body))])
  {
    hide Run, Gather, Say, Turns.Quiet, Queues, Trim, In, RoomShown, RoomThread, HubRooms.Subscribed;
    var first, later := Gather(u, v, r), Say(r, body);
    Gathers(u, v, r);
    var s := Run(Initial, first);
    SayReaches(s, u, r, body);
    RunAppend(Initial, first, later);
    var t := Run(Initial, first + later);
    var m := Message(s.nextMessage, Some(r), u, None, Trim(body));
    var e := Stamped(Some(|s.emissions|), MessageEvent(m));
    forall c | c == 0 || c == 1
      ensures HubRooms.Subscribed(first, later, r, c)
      ensures c in t.conns && s.conns[c].box.Lossless() && t.conns[c].box.Lossless()
      ensures RoomShown(t.conns[c], r) == RoomShown(s.conns[c], r) + [m]
    {
      BothSubscribed(u, v, r, body, c);
      StaysRoomy(s.conns[c].box, t.conns[c].box, [e], 3);
      HeardOne(s.conns[c], t.conns[c], e, m, r);
      RoomShownIsThread(first, c, r);
      RoomShownIsThread(first + later, c, r);
    }
  }

  lemma SayReaches(s: State, u: UserId, r: RoomId, body: string)
    requires Turns.Quiet(s) && Arrived(s, 0, u, 3) && s.queue == []
    ensures var t, m := Run(s, Say(r, body)), Message(s.nextMessage, Some(r), u, None, Trim(body));
      forall x :: x in s.conns && In(s.rooms, r, x) ==>
        && x in t.conns && t.conns[x].user == s.conns[x].user
        && Queues(SEND_CAPACITY, s.conns[x].box, t.conns[x].box, [Stamped(Some(|s.emissions|), MessageEvent(m))])
  {
    hide Run, Turns.Quiet, Queues, Trim, In;
    RoomMessageReaches(s, 0, r, body, true);
  }
}
