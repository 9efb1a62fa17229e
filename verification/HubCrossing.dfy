// A run, from the start, after which the two sides of a conversation show opposite orders.
module HubCrossing {
  import opened Text
  import opened HubModel
  import opened HubSystem
  import opened HubOrder
  import opened HubDms
  import opened HubTurns
  import opened HubConversation

  // ---- A short run loses nothing

  predicate Roomy(k: Conn, n: nat) {
    |k.box.calls| <= n && !k.box.closed && (n <= SEND_CAPACITY ==> k.box.Lossless())
  }

  lemma RoomyStep(s: State, a: Action, c: nat, n: nat)
    requires c in Step(s, a).conns && (c in s.conns ==> Roomy(s.conns[c], n))
    ensures Roomy(Step(s, a).conns[c], n + 1)
  {
    EmissionStep(s, a);
    hide Step, NewEmission;
  }

  // No channel can overflow in fewer steps than it has places.
  lemma {:induction false} ShortRunLosesNothing(actions: seq<Action>, c: nat)
    requires c in Run(Initial, actions).conns
    ensures Roomy(Run(Initial, actions).conns[c], |actions|)
  {
    hide Step, Roomy;
    if actions != [] {
      var front, a := actions[..|actions| - 1], actions[|actions| - 1];
      if c in Run(Initial, front).conns { ShortRunLosesNothing(front, c); }
      RoomyStep(Run(Initial, front), a, c, |front|);
    }
  }

  // ---- The pieces of the run

  // Nobody is in the middle of anything, and everyone connected so far is live.
  ghost predicate Open(s: State, users: map<nat, UserId>) {
    && Quiet(s) && s.conns.Keys == users.Keys
    && forall c :: c in s.conns ==> s.conns[c].pc.Reading? && s.conns[c].status.Live? && s.conns[c].user == users[c]
  }

  lemma OpensFor(s: State, users: map<nat, UserId>, c: nat, user: UserId)
    requires Open(s, users) && c !in users
    ensures var t := Arrived(s, c, user);
      Open(t, users[c := user]) && t.queue == s.queue && t.enqueued == s.enqueued && t.nextMessage == s.nextMessage
  {
    hide Put, All;
  }

  function Guests(user: UserId, other: UserId): seq<Turn> {
    [Arrive(0, user), Arrive(1, user), Arrive(2, other)]
  }

  function Who(user: UserId, other: UserId): map<nat, UserId> {
    map[0 := user, 1 := user, 2 := other]
  }

  lemma GuestsArrive(user: UserId, other: UserId)
    ensures var s := Run(Initial, Schedule(Guests(user, other)));
      Open(s, Who(user, other)) && s.queue == [] && s.enqueued == [] && s.nextMessage == 0
    ensures |Schedule(Guests(user, other))| == 12
  {
    hide Run, Arrived, Open, Steps;
    var g := Guests(user, other);
    assert g[..0] == [] && Schedule([]) == [] && Run(Initial, []) == Initial by { RunNone(); }
    OpenInitially();
    ArriveNext(g, 0, map[], 0, user);
    ArriveNext(g, 1, map[0 := user], 1, user);
    ArriveNext(g, 2, map[0 := user, 1 := user], 2, other);
    assert g[..3] == g;
    assert map[0 := user, 1 := user][2 := other] == Who(user, other);
  }

  lemma RunNone()
    ensures Run(Initial, []) == Initial
  {}

  lemma OpenInitially()
    ensures Open(Initial, map[])
  {}

  lemma ArriveNext(g: seq<Turn>, i: nat, users: map<nat, UserId>, c: nat, user: UserId)
    requires i < |g| && g[i] == Arrive(c, user) && c !in users && Open(Run(Initial, Schedule(g[..i])), users)
    ensures var s, t := Run(Initial, Schedule(g[..i])), Run(Initial, Schedule(g[..i + 1]));
      Open(t, users[c := user]) && t.queue == s.queue && t.enqueued == s.enqueued && t.nextMessage == s.nextMessage
    ensures |Schedule(g[..i + 1])| == |Schedule(g[..i])| + 4
  {
    hide Run, Arrived;
    NextTurn(g, i);
    OpensFor(Run(Initial, Schedule(g[..i])), users, c, user);
    assert g[..i + 1][..i] == g[..i];
  }

  // Where the read loops of connections 0, 1, ... stand, what waits in the channel and what was put there.
  ghost predicate At(s: State, users: seq<UserId>, pcs: seq<ConnPc>, queue: seq<Tagged>, log: seq<Tagged>, next: nat)
    requires |users| == |pcs|
  {
    && s.hub.Idle? && s.lock.None? && s.queue == queue && s.enqueued == log && s.nextMessage == next
    && (forall c: nat :: c in s.conns <==> c < |users|)
    && (forall c: nat :: c < |users| ==>
          s.conns[c].status.Live? && s.conns[c].user == users[c] && s.conns[c].pc == pcs[c])
  }

  function TextFrom(id: nat, user: UserId, other: UserId, text: string): Message {
    Message(id, None, user, Some(other), Trim(text))
  }

  function Writes(c: nat, other: UserId, text: string): Action {
    Receive(c, ClientEvent.DirectMessage(Some(other), text, false), StoreReply(true, true))
  }

  lemma WriteAt(s: State, users: seq<UserId>, pcs: seq<ConnPc>, log: seq<Tagged>, next: nat,
    c: nat, other: UserId, text: string)
    requires |users| == |pcs| && At(s, users, pcs, log, log, next) && c < |users| && pcs[c].Reading? && Trim(text) != ""
    ensures At(Step(s, Writes(c, other, text)), users,
      pcs[c := Sending(DirectBatch(users[c], TextFrom(next, users[c], other, text)))], log, log, next + 1)
  {
    hide Trim, DirectBatch;
  }

  lemma PushAt(s: State, users: seq<UserId>, pcs: seq<ConnPc>, log: seq<Tagged>, next: nat, c: nat)
    requires |users| == |pcs| && At(s, users, pcs, log, log, next) && c < |users| && pcs[c].Sending?
    requires pcs[c].todo != [] && |log| < BROADCAST_CAPACITY
    ensures var todo := pcs[c].todo; var more := log + [Tagged(c, todo[0])];
      At(Step(s, Push(c)), users, pcs[c := if |todo| == 1 then Reading else Sending(todo[1..])], more, more, next)
  {}

  const RELAYS := [TakeBroadcast, HubLock, HubWork]

  lemma RelayAt(s: State, users: seq<UserId>, pcs: seq<ConnPc>, queue: seq<Tagged>, log: seq<Tagged>, next: nat)
    requires |users| == |pcs| && At(s, users, pcs, queue, log, next) && queue != []
    requires forall c :: 0 <= c < |pcs| ==> pcs[c].Reading?
    ensures At(Run(s, RELAYS), users, pcs, queue[1..], log, next)
  {
    assert Quiet(s);
    RelayRuns(s);
    hide Run, Recipients;
  }

  // Two messages of one user over connections 0 and 1, the second batch inside the first, then relayed.
  function Nested(other: UserId, first: string, second: string): seq<Action> {
    [Writes(0, other, first), Writes(1, other, second)] + [Push(0), Push(1), Push(1), Push(0)]
    + RELAYS + RELAYS + RELAYS + RELAYS
  }

  function NestedLog(m: Message, n: Message): seq<Tagged>
    requires IsDm(m) && IsDm(n)
  {
    var a, b := DirectBatch(m.sender, m), DirectBatch(n.sender, n);
    [Tagged(0, a[0])] + [Tagged(1, b[0])] + [Tagged(1, b[1])] + [Tagged(0, a[1])]
  }

  lemma NestedWrites(s: State, user: UserId, other: UserId, first: string, second: string)
    requires user != other && Trim(first) != "" && Trim(second) != ""
    requires At(s, [user, user, other], [Reading, Reading, Reading], [], [], 0)
    ensures var m, n := TextFrom(0, user, other, first), TextFrom(1, user, other, second);
      At(Run(s, [Writes(0, other, first), Writes(1, other, second)]), [user, user, other],
         [Sending(DirectBatch(user, m)), Sending(DirectBatch(user, n)), Reading], [], [], 2)
  {
    hide Step, Trim, DirectBatch, At, Writes;
    var users, p := [user, user, other], [Reading, Reading, Reading];
    var m, n := TextFrom(0, user, other, first), TextFrom(1, user, other, second);
    var p1 := p[0 := Sending(DirectBatch(user, m))];
    WriteAt(s, users, p, [], 0, 0, other, first);
    WriteAt(Step(s, Writes(0, other, first)), users, p1, [], 1, 1, other, second);
    assert p1[1 := Sending(DirectBatch(user, n))] ==
      [Sending(DirectBatch(user, m)), Sending(DirectBatch(user, n)), Reading];
    TwoSteps(s, Writes(0, other, first), Writes(1, other, second));
  }

  lemma TwoSteps(s: State, a: Action, b: Action)
    ensures Run(s, [a, b]) == Step(Step(s, a), b)
  {
    hide Step;
    assert [a, b][..1] == [a] && [a][..0] == [];
    assert Run(s, [a]) == Step(s, a);
  }

  lemma NestedPushes(s: State, users: seq<UserId>, m: Message, n: Message)
    requires |users| == 3 && IsDm(m) && IsDm(n)
    requires At(s, users, [Sending(DirectBatch(m.sender, m)), Sending(DirectBatch(n.sender, n)), Reading], [], [], 2)
    ensures var log := NestedLog(m, n);
      At(Run(s, [Push(0), Push(1), Push(1), Push(0)]), users, [Reading, Reading, Reading], log, log, 2)
  {
    hide Step, At;
    var a, b := DirectBatch(m.sender, m), DirectBatch(n.sender, n);
    assert |a| == 2 && |b| == 2;
    var l1 := [Tagged(0, a[0])];
    var l2 := l1 + [Tagged(1, b[0])];
    var l3 := l2 + [Tagged(1, b[1])];
    var p := [Sending(a), Sending(b), Reading];
    var p1 := p[0 := Sending(a[1..])];
    var p2 := p1[1 := Sending(b[1..])];
    var p3 := p2[1 := Reading];
    PushAt(s, users, p, [], 2, 0);
    assert [] + l1 == l1;
    var s1 := Step(s, Push(0));
    PushAt(s1, users, p1, l1, 2, 1);
    var s2 := Step(s1, Push(1));
    PushAt(s2, users, p2, l2, 2, 1);
    PushAt(Step(s2, Push(1)), users, p3, l3, 2, 0);
    assert p3[0 := Reading] == [Reading, Reading, Reading];
    Run4(s, Push(0), Push(1), Push(1), Push(0));
  }

  lemma NestedRelays(s: State, users: seq<UserId>, log: seq<Tagged>)
    requires |users| == 3 && |log| == 4 && At(s, users, [Reading, Reading, Reading], log, log, 2)
    ensures At(Run(s, RELAYS + RELAYS + RELAYS + RELAYS), users, [Reading, Reading, Reading], [], log, 2)
  {
    hide Run, At;
    var r, pcs := RELAYS, [Reading, Reading, Reading];
    RelayAt(s, users, pcs, log, log, 2);
    RelayAt(Run(s, r), users, pcs, log[1..], log, 2);
    RelayAt(Run(Run(s, r), r), users, pcs, log[2..], log, 2);
    RelayAt(Run(Run(Run(s, r), r), r), users, pcs, log[3..], log, 2);
    assert log[1..][1..] == log[2..] && log[2..][1..] == log[3..] && log[3..][1..] == [];
    RunAppend(s, r, r);
    RunAppend(s, r + r, r);
    RunAppend(s, r + r + r, r);
  }

  lemma NestedRuns(s: State, user: UserId, other: UserId, first: string, second: string)
    requires user != other && Trim(first) != "" && Trim(second) != ""
    requires At(s, [user, user, other], [Reading, Reading, Reading], [], [], 0)
    ensures var m, n := TextFrom(0, user, other, first), TextFrom(1, user, other, second);
      At(Run(s, Nested(other, first, second)), [user, user, other], [Reading, Reading, Reading], [], NestedLog(m, n), 2)
  {
    hide Run, At, Trim, Writes;
    var m, n := TextFrom(0, user, other, first), TextFrom(1, user, other, second);
    var w, p := [Writes(0, other, first), Writes(1, other, second)], [Push(0), Push(1), Push(1), Push(0)];
    var r := RELAYS + RELAYS + RELAYS + RELAYS;
    NestedWrites(s, user, other, first, second);
    NestedPushes(Run(s, w), [user, user, other], m, n);
    NestedRelays(Run(Run(s, w), p), [user, user, other], NestedLog(m, n));
    RunAppend(s, w, p);
    RunAppend(s, w + p, r);
    assert Nested(other, first, second) == w + p + r;
  }

  // ---- What the two sides show

  // Of the two entries of a direct message the first is for the recipient, the second for the sender.
  lemma SentAndEchoed(x: nat, m: Message)
    requires IsDm(m)
    ensures var batch, user, other := DirectBatch(m.sender, m), m.sender, m.recipient.value;
      && |batch| == 2 && batch[0].event == MessageEvent(m) && batch[1].event == MessageEvent(m)
      && ForThread(Tagged(x, batch[0]), other, user) && !ForThread(Tagged(x, batch[0]), user, other)
      && ForThread(Tagged(x, batch[1]), user, other) && !ForThread(Tagged(x, batch[1]), other, user)
  {}

  lemma NestedTexts(m: Message, n: Message)
    requires IsDm(m) && IsDm(n) && m.sender == n.sender && m.recipient == n.recipient
    ensures TextOf(NestedLog(m, n), m.sender, m.recipient.value) == [n, m]
    ensures TextOf(NestedLog(m, n), m.recipient.value, m.sender) == [m, n]
  {
    hide Dms, ForThread, DirectBatch, TextOf;
    SentAndEchoed(0, m);
    SentAndEchoed(1, n);
    var a, b := DirectBatch(m.sender, m), DirectBatch(n.sender, n);
    var p, q, r, t := Tagged(0, a[0]), Tagged(1, b[0]), Tagged(1, b[1]), Tagged(0, a[1]);
    DmsFour(p, q, r, t, m.sender, m.recipient.value);
    DmsFour(p, q, r, t, m.recipient.value, m.sender);
    TwoTexts(NestedLog(m, n), m.sender, m.recipient.value, (1, n), (0, m));
    TwoTexts(NestedLog(m, n), m.recipient.value, m.sender, (0, m), (1, n));
  }

  lemma TwoTexts(log: seq<Tagged>, a: UserId, b: UserId, x: (nat, Message), y: (nat, Message))
    requires Dms(log, a, b) == [x] + [y]
    ensures TextOf(log, a, b) == [x.1, y.1]
  {}

  lemma DmsFour(p: Tagged, q: Tagged, r: Tagged, t: Tagged, a: UserId, b: UserId)
    ensures Dms([p] + [q] + [r] + [t], a, b) == Dms([p], a, b) + Dms([q], a, b) + Dms([r], a, b) + Dms([t], a, b)
    ensures Dms([p], a, b) == if ForThread(p, a, b) then [(p.from, p.out.event.message)] else []
    ensures Dms([q], a, b) == if ForThread(q, a, b) then [(q.from, q.out.event.message)] else []
    ensures Dms([r], a, b) == if ForThread(r, a, b) then [(r.from, r.out.event.message)] else []
    ensures Dms([t], a, b) == if ForThread(t, a, b) then [(t.from, t.out.event.message)] else []
  {
    SingleDm(p, a, b); SingleDm(q, a, b); SingleDm(r, a, b); SingleDm(t, a, b);
    hide Dms, ForThread;
    DmsAppend([p] + [q] + [r], [t], a, b);
    DmsAppend([p] + [q], [r], a, b);
    DmsAppend([p], [q], a, b);
  }

  // From the start: one user on connections 0 and 1, another on connection 2, all live, nothing lost,
  // everything relayed. Connection 0 shows the second message first, connection 2 the first.
  lemma OppositeOrders(user: UserId, other: UserId, first: string, second: string)
    requires user != other && Trim(first) != "" && Trim(second) != ""
    ensures var before, later := Schedule(Guests(user, other)), Nested(other, first, second);
      var s, t := Run(Initial, before), Run(Initial, before + later);
      var m, n := TextFrom(0, user, other, first), TextFrom(1, user, other, second);
      && BothThroughout(s, t, 0, 2) && t.conns[0].user == user && t.conns[2].user == other
      && Shown(t.conns[0], other) == Shown(s.conns[0], other) + [n, m]
      && Shown(t.conns[2], user) == Shown(s.conns[2], user) + [m, n]
  {
    hide Run, Trim, Shown, TextOf, NoneCross, Schedule;
    var before, later := Schedule(Guests(user, other)), Nested(other, first, second);
    var m, n := TextFrom(0, user, other, first), TextFrom(1, user, other, second);
    var s, t := Run(Initial, before), Run(Initial, before + later);
    GuestsArrive(user, other);
    OpenIsAt(s, user, other);
    NestedRuns(s, user, other, first, second);
    RunAppend(Initial, before, later);
    SeenBy(s, t, before, later, user, other, NestedLog(m, n));
    ConversationOrder(before, later, 0, 2);
    assert t.enqueued[|s.enqueued|..] == NestedLog(m, n);
    NestedTexts(m, n);
  }

  lemma OpenIsAt(s: State, user: UserId, other: UserId)
    requires Open(s, Who(user, other)) && s.queue == [] && s.enqueued == [] && s.nextMessage == 0
    ensures At(s, [user, user, other], [Reading, Reading, Reading], [], [], 0)
  {}

  lemma SeenBy(s: State, t: State, before: seq<Action>, later: seq<Action>, user: UserId, other: UserId,
    log: seq<Tagged>)
    requires s == Run(Initial, before) && t == Run(Initial, before + later) && |before + later| <= SEND_CAPACITY
    requires At(s, [user, user, other], [Reading, Reading, Reading], [], [], 0)
    requires At(t, [user, user, other], [Reading, Reading, Reading], [], log, 2)
    ensures BothThroughout(s, t, 0, 2)
  {
    hide Run;
    SeenAt(s, before, [user, user, other], [], 0);
    SeenAt(t, before + later, [user, user, other], log, 2);
  }

  lemma SeenAt(s: State, actions: seq<Action>, users: seq<UserId>, log: seq<Tagged>, next: nat)
    requires s == Run(Initial, actions) && |actions| <= SEND_CAPACITY && |users| == 3
    requires At(s, users, [Reading, Reading, Reading], [], log, next)
    ensures Settled(s) && Sees(s, 0) && Sees(s, 2)
  {
    hide Run, Settled, Sees, At;
    SettledAt(s, users, log, next);
    SeesAt(s, actions, users, log, next, 0);
    SeesAt(s, actions, users, log, next, 2);
  }

  lemma SettledAt(s: State, users: seq<UserId>, log: seq<Tagged>, next: nat)
    requires |users| == 3 && At(s, users, [Reading, Reading, Reading], [], log, next)
    ensures Settled(s)
  {
    forall x: nat ensures Pending(s, x) == [] {
      if x in s.conns { assert x < 3; }
    }
  }

  lemma SeesAt(s: State, actions: seq<Action>, users: seq<UserId>, log: seq<Tagged>, next: nat, c: nat)
    requires s == Run(Initial, actions) && |actions| <= SEND_CAPACITY && |users| == 3 && c < 3
    requires At(s, users, [Reading, Reading, Reading], [], log, next)
    ensures Sees(s, c)
  {
    hide Run;
    ShortRunLosesNothing(actions, c);
  }
}
