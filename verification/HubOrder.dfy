// Delivery: every connection's channel is fed from one global emission log, and the broadcast
// channel is first in, first out.
module HubOrder {
  import opened Text
  import opened Channels
  import opened HubModel
  import opened HubSystem
  import opened HubIndex

  // ---- What one step emits and puts into the channels

  function NewEmission(s: State, a: Action): Option<Emission> {
    if !a.HubWork? || s.lock != Some(TheHub) then None
    else if (s.hub.Adding? || s.hub.Removing?) && s.hub.conn !in s.conns then None
    else
      match s.hub
      case Idle => None
      case Adding(c) =>
        Some(Emission(None, Presence(s.conns[c].user, true), All(Put(s.users, s.conns[c].user, c))))
      case Removing(c) =>
        var users := Drop(s.users, s.conns[c].user, c);
        if s.conns[c].user in s.users && s.conns[c].user !in users
        then Some(Emission(None, Presence(s.conns[c].user, false), All(users))) else None
      case Relaying(t) => Some(Emission(Some(t), t.out.event, Recipients(s.users, s.rooms, t.out)))
  }

  // Without an emission a channel changes only by its own read loop's replies and its writer.
  predicate OwnChange(b: Outbox<Stamped>, b': Outbox<Stamped>) {
    || b' == b || b' == b.Take()
    || b' == b.Push(Stamped(None, Failure), SEND_CAPACITY)
    || (b'.calls != [] && b'.calls[|b'.calls| - 1].event.RoomJoined?
        && b' == b.Push(Stamped(None, b'.calls[|b'.calls| - 1].event), SEND_CAPACITY))
  }

  predicate BoxChange(s: State, e: Option<Emission>, c: nat, b: Outbox<Stamped>, b': Outbox<Stamped>) {
    match e
    case Some(e) => b' == if c in e.to then b.Push(Stamped(Some(|s.emissions|), e.event), SEND_CAPACITY) else b
    case None => OwnChange(b, b')
  }

  lemma EmissionStep(s: State, a: Action)
    ensures var t, e := Step(s, a), NewEmission(s, a);
      && t.emissions == s.emissions + (if e.Some? then [e.value] else [])
      && (forall c :: c in s.conns ==> c in t.conns && BoxChange(s, e, c, s.conns[c].box, t.conns[c].box))
      && (forall c :: c in t.conns && c !in s.conns ==>
           t.conns[c].box == Outbox([], [], 0, false) && t.conns[c].status.Fresh?)
  {
    if a.Receive? && a.c in s.conns && s.conns[a.c].pc.Reading? {
      HandleShape(s, a.c, a.event, a.reply);
      HandleBox(s, a.c, a.event, a.reply);
      hide Handle, Compatible, Must, May;
    } else if a.HubWork? {
      WorkBox(s, a);
      hide Step, NewEmission, BoxChange;
    } else {
      OtherBox(s, a);
      hide Step, NewEmission, BoxChange;
    }
  }

  lemma OtherBox(s: State, a: Action)
    requires !a.HubWork? && !(a.Receive? && a.c in s.conns && s.conns[a.c].pc.Reading?)
    ensures var t := Step(s, a);
      && NewEmission(s, a).None? && t.emissions == s.emissions
      && (forall c :: c in s.conns ==> c in t.conns && BoxChange(s, None, c, s.conns[c].box, t.conns[c].box))
      && (forall c :: c in t.conns && c !in s.conns ==>
           t.conns[c].box == Outbox([], [], 0, false) && t.conns[c].status.Fresh?)
  {
    hide Handle, WorkOf, Put, Drop, OwnChange;
    SameBox(Outbox([], [], 0, false));
    forall c | c in s.conns ensures OwnChange(s.conns[c].box, s.conns[c].box) { SameBox(s.conns[c].box); }
    if !a.HubLock? && !a.TakeBroadcast? && a.c in s.conns {
      ActorBox(s, a);
      hide Step;
    }
  }

  lemma SameBox(b: Outbox<Stamped>)
    ensures OwnChange(b, b)
  {}

  // The connection that acts, and nobody else.
  lemma ActorBox(s: State, a: Action)
    requires !a.HubWork? && !a.HubLock? && !a.TakeBroadcast? && a.c in s.conns
    requires !(a.Receive? && s.conns[a.c].pc.Reading?)
    ensures var t := Step(s, a);
      && a.c in t.conns && t.conns == s.conns[a.c := t.conns[a.c]] && t.emissions == s.emissions
      && OwnChange(s.conns[a.c].box, t.conns[a.c].box)
  {
    hide Handle, WorkOf, Put, Drop;
    if a.Joined? && s.conns[a.c].pc.Subscribed? {
      var b, e := s.conns[a.c].box, RoomJoined(s.conns[a.c].pc.room, s.conns[a.c].user);
      assert b.Push(Stamped(None, e), SEND_CAPACITY).calls[|b.calls|].event == e;
    }
  }

  lemma HandleBox(s: State, c: nat, e: ClientEvent, reply: StoreReply)
    requires c in s.conns
    ensures var t := Handle(s, c, e, reply);
      c in t.conns && OwnChange(s.conns[c].box, t.conns[c].box)
  {
    hide Trim;
  }

  // An emission reaches exactly its recipients' channels.
  lemma EmitBox(s: State, tag: Option<Tagged>, event: Event, to: set<nat>)
    ensures var t, e := Emit(s, tag, event, to), Emission(tag, event, to);
      && t.emissions == s.emissions + [e] && t.conns.Keys == s.conns.Keys
      && (forall c :: c in s.conns ==> BoxChange(s, Some(e), c, s.conns[c].box, t.conns[c].box))
  {}

  lemma WorkBox(s: State, a: Action)
    requires a.HubWork?
    ensures var t, e := Step(s, a), NewEmission(s, a);
      && t.emissions == s.emissions + (if e.Some? then [e.value] else [])
      && t.conns.Keys == s.conns.Keys
      && (forall c :: c in s.conns ==> BoxChange(s, e, c, s.conns[c].box, t.conns[c].box))
  {
    hide Put, Drop, Purge, All, Recipients, Emit;
    var t, e := Step(s, a), NewEmission(s, a);
    if s.lock == Some(TheHub) && (s.hub.Adding? || s.hub.Removing? ==> s.hub.conn in s.conns) && e.Some? {
      match s.hub
      case Adding(c) =>
        var users := Put(s.users, s.conns[c].user, c);
        EmitBox(s.(users := users,
          conns := s.conns[c := s.conns[c].(status := Live, start := |s.emissions|, onlineThen := users.Keys)]),
                None, e.value.event, e.value.to);
      case Removing(c) =>
        EmitBox(s.(users := Drop(s.users, s.conns[c].user, c), conns := s.conns[c := s.conns[c].(status := Dead)]),
                None, e.value.event, e.value.to);
      case Relaying(m) => EmitBox(s, Some(m), m.out.event, e.value.to);
      case Idle =>
    }
  }

  // Only the hub's lock section changes who is indexed, and a connection's standing with it.
  predicate SameStanding(k: Conn, k': Conn) {
    k'.user == k.user && k'.status == k.status && k'.start == k.start && k'.onlineThen == k.onlineThen
  }

  lemma OnlyTheHub(s: State, a: Action)
    requires !a.HubWork?
    ensures var t := Step(s, a);
      && t.users == s.users
      && (forall c :: c in s.conns ==> c in t.conns && SameStanding(s.conns[c], t.conns[c]))
  {
    if a.Receive? && a.c in s.conns && s.conns[a.c].pc.Reading? {
      HandleShape(s, a.c, a.event, a.reply);
      hide Handle, Must, May;
    } else {
      hide Handle, WorkOf, Put, Drop;
    }
  }

  // ---- One global order

  // The hub-emitted part of a channel's calls.
  function HubPart(calls: seq<Stamped>): seq<Stamped> {
    if calls == [] then []
    else HubPart(calls[..|calls| - 1]) + if calls[|calls| - 1].hub.Some? then [calls[|calls| - 1]] else []
  }

  // The emissions addressed to c, with their positions.
  function Mine(emissions: seq<Emission>, c: nat): seq<Stamped> {
    if emissions == [] then []
    else
      var i := |emissions| - 1;
      Mine(emissions[..i], c) + if c in emissions[i].to then [Stamped(Some(i), emissions[i].event)] else []
  }

  ghost predicate CallsOk(s: State) {
    && (forall c :: c in s.conns ==>
         s.conns[c].box.Valid(SEND_CAPACITY) && HubPart(s.conns[c].box.calls) == Mine(s.emissions, c))
    && (forall i, c :: 0 <= i < |s.emissions| && c in s.emissions[i].to ==> c in s.conns)
  }

  lemma HubPartAppend(calls: seq<Stamped>, e: Stamped)
    ensures HubPart(calls + [e]) == HubPart(calls) + if e.hub.Some? then [e] else []
  {
    assert (calls + [e])[..|calls|] == calls;
  }

  lemma MineAppend(emissions: seq<Emission>, e: Emission, c: nat)
    ensures Mine(emissions + [e], c) == Mine(emissions, c) +
      if c in e.to then [Stamped(Some(|emissions|), e.event)] else []
  {
    assert (emissions + [e])[..|emissions|] == emissions;
  }

  lemma BoxStepOk(s: State, e: Option<Emission>, c: nat, b: Outbox<Stamped>, b': Outbox<Stamped>)
    requires b.Valid(SEND_CAPACITY) && HubPart(b.calls) == Mine(s.emissions, c) && BoxChange(s, e, c, b, b')
    ensures b'.Valid(SEND_CAPACITY)
    ensures HubPart(b'.calls) == Mine(s.emissions + (if e.Some? then [e.value] else []), c)
  {
    hide HubPart, Mine, Subseq;
    if e.Some? {
      MineAppend(s.emissions, e.value, c);
      if c in e.value.to {
        HubPartAppend(b.calls, Stamped(Some(|s.emissions|), e.value.event));
        PushValid(b, Stamped(Some(|s.emissions|), e.value.event), SEND_CAPACITY);
      }
    } else {
      assert s.emissions + [] == s.emissions;
      if b' != b && b' != b.Take() {
        var x := b'.calls[|b'.calls| - 1];
        HubPartAppend(b.calls, x);
        PushValid(b, x, SEND_CAPACITY);
      }
    }
  }

  // Nothing is emitted to a connection that does not exist.
  lemma RecipientsExist(s: State, a: Action)
    requires Coherent(s) && NewEmission(s, a).Some?
    ensures forall c :: c in NewEmission(s, a).value.to ==> c in s.conns
  {
    hide NoEmptyBucket;
    var e := NewEmission(s, a).value;
    match s.hub
    case Adding(x) =>
      PutIs(s.users, s.conns[x].user, x);
      forall c | c in e.to ensures c in s.conns { AllIn(Put(s.users, s.conns[x].user, x), c); }
    case Removing(x) =>
      DropIs(s.users, s.conns[x].user, x);
      forall c | c in e.to ensures c in s.conns { AllIn(Drop(s.users, s.conns[x].user, x), c); }
    case Relaying(t) =>
      forall c | c in e.to ensures c in s.conns {
        match t.out.target
        case ToRoom(r) => assert In(s.rooms, r, c);
        case ToUser(u) => assert In(s.users, u, c);
      }
    case Idle =>
  }

  lemma AllIn(m: Buckets<nat>, c: nat)
    ensures c in All(m) <==> exists k :: In(m, k, c)
  {
    if c in All(m) {
      var k :| k in m && c in m[k];
      assert In(m, k, c);
    }
  }

  lemma CallsStep(s: State, a: Action)
    requires Coherent(s) && CallsOk(s)
    ensures CallsOk(Step(s, a))
  {
    EmissionStep(s, a);
    var t, e := Step(s, a), NewEmission(s, a);
    if e.Some? { RecipientsExist(s, a); }
    hide Coherent, Step, NewEmission, BoxChange, HubPart, Mine, Subseq, CallsOk;
    CallsGrow(s, t, e);
  }

  lemma CallsGrow(s: State, t: State, e: Option<Emission>)
    requires CallsOk(s) && t.emissions == s.emissions + (if e.Some? then [e.value] else [])
    requires e.Some? ==> forall c :: c in e.value.to ==> c in s.conns
    requires forall c :: c in s.conns ==> c in t.conns && BoxChange(s, e, c, s.conns[c].box, t.conns[c].box)
    requires forall c :: c in t.conns && c !in s.conns ==> t.conns[c].box == Outbox([], [], 0, false)
    ensures CallsOk(t)
  {
    hide BoxChange, HubPart, Mine, Subseq;
    forall c | c in t.conns
      ensures t.conns[c].box.Valid(SEND_CAPACITY) && HubPart(t.conns[c].box.calls) == Mine(t.emissions, c)
    {
      if c in s.conns {
        BoxStepOk(s, e, c, s.conns[c].box, t.conns[c].box);
      } else {
        NewConnHeardNothing(s, e, c);
      }
    }
    forall i, c | 0 <= i < |t.emissions| && c in t.emissions[i].to ensures c in t.conns {
      if i < |s.emissions| { assert c in s.emissions[i].to; }
    }
  }

  lemma NewConnHeardNothing(s: State, e: Option<Emission>, c: nat)
    requires CallsOk(s) && c !in s.conns && (e.Some? ==> c !in e.value.to)
    ensures HubPart([]) == Mine(s.emissions + (if e.Some? then [e.value] else []), c)
    ensures Outbox<Stamped>.Outbox([], [], 0, false).Valid(SEND_CAPACITY)
  {
    forall i | 0 <= i < |s.emissions| ensures c !in s.emissions[i].to {}
    Unaddressed(s.emissions, c);
    if e.Some? { MineAppend(s.emissions, e.value, c); } else { assert s.emissions + [] == s.emissions; }
  }

  lemma {:induction false} Unaddressed(emissions: seq<Emission>, c: nat)
    requires forall i :: 0 <= i < |emissions| ==> c !in emissions[i].to
    ensures Mine(emissions, c) == []
  {
    if emissions != [] { Unaddressed(emissions[..|emissions| - 1], c); }
  }

  lemma {:induction false} CallsRun(actions: seq<Action>)
    ensures CallsOk(Run(Initial, actions))
  {
    if actions != [] {
      hide CallsOk, Coherent, Step;
      CallsRun(actions[..|actions| - 1]);
      RunKeeps(actions[..|actions| - 1]);
      CallsStep(Run(Initial, actions[..|actions| - 1]), actions[|actions| - 1]);
    }
  }

  // ---- What that means for a receiver

  // Hub positions strictly increase.
  predicate Increasing(log: seq<Stamped>) {
    forall i, j :: 0 <= i < j < |log| ==> log[i].hub.Some? && log[j].hub.Some? && log[i].hub.value < log[j].hub.value
  }

  // The stamps point into the log.
  predicate PointsInto(m: seq<Stamped>, emissions: seq<Emission>) {
    forall i :: 0 <= i < |m| ==>
      m[i].hub.Some? && m[i].hub.value < |emissions| && emissions[m[i].hub.value].event == m[i].event
  }

  lemma {:induction false} MineIncreases(emissions: seq<Emission>, c: nat)
    ensures Increasing(Mine(emissions, c)) && PointsInto(Mine(emissions, c), emissions)
  {
    if emissions != [] {
      var front := emissions[..|emissions| - 1];
      MineIncreases(front, c);
      var m := Mine(front, c);
      assert PointsInto(m, emissions) by {
        forall i | 0 <= i < |m| ensures emissions[m[i].hub.value] == front[m[i].hub.value] {}
      }
    }
  }

  lemma EmptySubseq(log: seq<Stamped>)
    ensures Subseq([], log)
  {}

  lemma {:induction false} HubPartSubseq(a: seq<Stamped>, b: seq<Stamped>)
    requires Subseq(a, b)
    ensures Subseq(HubPart(a), HubPart(b))
    decreases |b|
  {
    if a == [] {
      assert HubPart(a) == [];
      EmptySubseq(HubPart(b));
    } else {
      assert b != [];
      var a', b' := a[..|a| - 1], b[..|b| - 1];
      var x := b[|b| - 1];
      assert HubPart(b') + [] == HubPart(b') && HubPart(a') + [] == HubPart(a');
      if Subseq(a, b') {
        HubPartSubseq(a, b');
        SubseqDrop(HubPart(a), HubPart(b'), x);
      } else {
        HubPartSubseq(a', b');
        SubseqKeep(HubPart(a'), HubPart(b'), x);
      }
    }
  }

  lemma {:induction false} SubseqIncreases(a: seq<Stamped>, b: seq<Stamped>)
    requires Subseq(a, b) && Increasing(b) && (forall i :: 0 <= i < |b| ==> b[i].hub.Some?)
    ensures Increasing(a) && forall i :: 0 <= i < |a| ==> a[i] in b
    decreases |b|
  {
    if a != [] {
      var a', b' := a[..|a| - 1], b[..|b| - 1];
      assert Increasing(b') && b == b' + [b[|b| - 1]];
      if Subseq(a, b') {
        SubseqIncreases(a, b');
      } else {
        SubseqIncreases(a', b');
        AppendIncreases(a', b', b[|b| - 1]);
        assert a == a' + [b[|b| - 1]];
      }
    }
  }

  lemma AppendIncreases(a: seq<Stamped>, b: seq<Stamped>, x: Stamped)
    requires Increasing(a) && Increasing(b + [x]) && x.hub.Some?
    requires forall i :: 0 <= i < |a| ==> a[i] in b
    ensures Increasing(a + [x])
    ensures forall i :: 0 <= i < |a| + 1 ==> (a + [x])[i] in b + [x]
  {
    forall i | 0 <= i < |a| ensures a[i].hub.Some? && a[i].hub.value < x.hub.value {
      var j :| 0 <= j < |b| && b[j] == a[i];
      assert (b + [x])[j] == a[i] && (b + [x])[|b|] == x;
    }
  }

  // What a connection was actually handed, drops and all: its hub-emitted events are a strictly
  // increasing subsequence of the one emission log.
  lemma ReceivedInOrder(actions: seq<Action>, c: nat)
    requires c in Run(Initial, actions).conns
    ensures var s := Run(Initial, actions);
      var got := HubPart(s.conns[c].box.accepted);
      Increasing(got) && PointsInto(got, s.emissions) && Subseq(got, Mine(s.emissions, c))
  {
    CallsRun(actions);
    hide Run, Mine, HubPart;
    var s := Run(Initial, actions);
    var b := s.conns[c].box;
    MineIncreases(s.emissions, c);
    HubPartSubseq(b.accepted, b.calls);
    SubseqIncreases(HubPart(b.accepted), Mine(s.emissions, c));
  }

  // Any two connections see the events they both receive in the same order.
  lemma SameRelativeOrder(actions: seq<Action>, a: nat, b: nat, i: nat, j: nat, i': nat, j': nat)
    requires var s := Run(Initial, actions); a in s.conns && b in s.conns
    requires var s := Run(Initial, actions);
      var x, y := HubPart(s.conns[a].box.accepted), HubPart(s.conns[b].box.accepted);
      && i < j < |x| && i' < |y| && j' < |y|
      && x[i].hub == y[i'].hub && x[j].hub == y[j'].hub
    ensures i' < j'
  {
    ReceivedInOrder(actions, a);
    ReceivedInOrder(actions, b);
    hide Run, HubPart, Mine, Subseq;
  }

  // ---- The broadcast channel is first in, first out

  function Relayed(emissions: seq<Emission>): seq<Tagged> {
    if emissions == [] then []
    else
      var e := emissions[|emissions| - 1];
      Relayed(emissions[..|emissions| - 1]) + if e.tag.Some? then [e.tag.value] else []
  }

  function InHand(hub: HubPc): seq<Tagged> {
    if hub.Relaying? then [hub.tagged] else []
  }

  predicate FifoOk(s: State) {
    s.enqueued == Relayed(s.emissions) + InHand(s.hub) + s.queue
  }

  lemma RelayedAppend(emissions: seq<Emission>, e: Emission)
    ensures Relayed(emissions + [e]) == Relayed(emissions) + if e.tag.Some? then [e.tag.value] else []
  {
    assert (emissions + [e])[..|emissions|] == emissions;
  }

  // The channel: what a step adds at the end, and what the hub takes from the front.
  lemma QueueStep(s: State, a: Action)
    ensures var t := Step(s, a);
      || (t.queue == s.queue && t.enqueued == s.enqueued && (InHand(t.hub) == InHand(s.hub) || a.HubWork?))
      || (s.queue != [] && t.queue == s.queue[1..] && t.enqueued == s.enqueued && s.hub.Idle? &&
           t.hub == Relaying(s.queue[0]))
      || (t.hub == s.hub && |t.queue| == |s.queue| + 1 && t.queue[..|s.queue|] == s.queue
          && t.enqueued == s.enqueued + [t.queue[|s.queue|]])
    ensures a.HubWork? && Step(s, a) != s ==> Step(s, a).hub.Idle?
    ensures a.TakeBroadcast? && Step(s, a) == s ==> InHand(Step(s, a).hub) == InHand(s.hub)
  {
    if a.HubWork? && (s.hub.Adding? || s.hub.Removing? ==> s.hub.conn in s.conns) { WorkQueue(s); WorkEnqueued(s); }
    hide Handle, WorkOf, Put, Drop;
    if a.Receive? && a.c in s.conns && s.conns[a.c].pc.Reading? { HandleShape(s, a.c, a.event, a.reply); }
  }

  // A relayed emission is what the hub had in hand; presence is not in the channel's history.
  lemma InHandStep(s: State, a: Action)
    ensures a.HubWork? && Step(s, a) != s && !s.hub.Idle? &&
            (s.hub.Adding? || s.hub.Removing? ==> s.hub.conn in s.conns) ==>
      InHand(s.hub) ==
      (if NewEmission(s, a).Some? && NewEmission(s, a).value.tag.Some? then [NewEmission(s, a).value.tag.value]
       else [])
  {
    hide WorkOf, Put, Drop, Recipients, All;
  }

  lemma FifoStep(s: State, a: Action)
    requires Coherent(s) && FifoOk(s)
    ensures FifoOk(Step(s, a))
  {
    EmissionStep(s, a);
    QueueStep(s, a);
    NoEmission(s, a);
    var t, e := Step(s, a), NewEmission(s, a);
    if a.HubWork? && t != s {
      InHandStep(s, a);
      hide Coherent, Relayed, BoxChange, Step, NewEmission;
      FifoRelay(s, t, e);
    } else {
      hide Coherent, Relayed, BoxChange, Step, NewEmission;
      assert t.emissions == s.emissions;
      FifoQueue(s, t);
    }
  }

  lemma FifoRelay(s: State, t: State, e: Option<Emission>)
    requires FifoOk(s) && t.hub.Idle? && t.queue == s.queue && t.enqueued == s.enqueued
    requires t.emissions == s.emissions + (if e.Some? then [e.value] else [])
    requires InHand(s.hub) == if e.Some? && e.value.tag.Some? then [e.value.tag.value] else []
    ensures FifoOk(t)
  {
    if e.Some? { RelayedAppend(s.emissions, e.value); } else { assert t.emissions == s.emissions; }
    hide Relayed;
    assert Relayed(t.emissions) == Relayed(s.emissions) + InHand(s.hub);
  }

  lemma FifoQueue(s: State, t: State)
    requires FifoOk(s) && t.emissions == s.emissions
    requires
      || (t.queue == s.queue && t.enqueued == s.enqueued && InHand(t.hub) == InHand(s.hub))
      || (s.queue != [] && t.queue == s.queue[1..] && t.enqueued == s.enqueued && s.hub.Idle? &&
           t.hub == Relaying(s.queue[0]))
      || (t.hub == s.hub && |t.queue| == |s.queue| + 1 && t.queue[..|s.queue|] == s.queue
          && t.enqueued == s.enqueued + [t.queue[|s.queue|]])
    ensures FifoOk(t)
  {
    hide Relayed;
    if |t.queue| == |s.queue| + 1 {
      assert t.queue == s.queue + [t.queue[|s.queue|]];
    } else if s.queue != [] && t.queue == s.queue[1..] {
      assert s.queue == [s.queue[0]] + s.queue[1..];
    }
  }

  lemma NoEmission(s: State, a: Action)
    requires Coherent(s)
    ensures !a.HubWork? || Step(s, a) == s ==> NewEmission(s, a).None?
    ensures a.HubWork? && Step(s, a) != s ==>
      s.lock == Some(TheHub) && !s.hub.Idle? && (s.hub.Adding? || s.hub.Removing? ==> s.hub.conn in s.conns)
  {
    hide UsersOk, RoomsOk, NoEmptyBucket, WorkOf, Put, Drop, Recipients, All;
  }

  lemma WorkEnqueued(s: State)
    requires s.hub.Adding? || s.hub.Removing? ==> s.hub.conn in s.conns
    ensures WorkOf(s).enqueued == s.enqueued
  {
    hide Put, Drop, Purge, All, Recipients;
  }

  lemma {:induction false} FifoRun(actions: seq<Action>)
    ensures FifoOk(Run(Initial, actions))
  {
    if actions != [] {
      hide FifoOk, Coherent, Step;
      FifoRun(actions[..|actions| - 1]);
      RunKeeps(actions[..|actions| - 1]);
      FifoStep(Run(Initial, actions[..|actions| - 1]), actions[|actions| - 1]);
    }
  }

  // What connection x pushed, in the order it pushed it.
  function From(log: seq<Tagged>, x: nat): seq<Tagged> {
    if log == [] then []
    else From(log[..|log| - 1], x) + if log[|log| - 1].from == x then [log[|log| - 1]] else []
  }

  lemma {:induction false} FromAppend(a: seq<Tagged>, b: seq<Tagged>, x: nat)
    ensures From(a + b, x) == From(a, x) + From(b, x)
  {
    if b == [] {
      assert a + b == a;
    } else {
      assert (a + b)[..|a + b| - 1] == a + b[..|b| - 1];
      FromAppend(a, b[..|b| - 1], x);
    }
  }

  // Events broadcast by one connection are emitted in the order it sent them, none skipped.
  lemma EmittedInSendingOrder(actions: seq<Action>, x: nat)
    ensures var s := Run(Initial, actions);
      Relayed(s.emissions) <= s.enqueued && From(Relayed(s.emissions), x) <= From(s.enqueued, x)
  {
    FifoRun(actions);
    hide Run, Relayed, From;
    var s := Run(Initial, actions);
    FromAppend(Relayed(s.emissions), InHand(s.hub) + s.queue, x);
    assert s.enqueued == Relayed(s.emissions) + (InHand(s.hub) + s.queue);
  }

  // ---- What goes into the broadcast channel

  // Room messages go to their room; direct messages to one of their two ends; never presence.
  predicate OutOk(o: Outbound<nat>) {
    match o.event
    case MessageEvent(m) =>
      o.exclude.None? &&
      (if m.room.Some? then o.target == ToRoom(m.room.value)
       else o.target.ToUser? && (o.target.user == m.sender || m.recipient == Some(o.target.user)))
    case Typing(room, recipient, _, _) =>
      if room.Some? then o.target == ToRoom(room.value)
      else o.target.ToUser? && recipient == Some(o.target.user)
    case _ => false
  }

  predicate TodoOk(pc: ConnPc) {
    pc.Sending? ==> forall i :: 0 <= i < |pc.todo| ==> OutOk(pc.todo[i])
  }

  ghost predicate OutsOk(s: State) {
    && (forall i :: 0 <= i < |s.enqueued| ==> OutOk(s.enqueued[i].out))
    && (forall c :: c in s.conns ==> TodoOk(s.conns[c].pc))
  }

  lemma OutsStep(s: State, a: Action)
    requires OutsOk(s)
    ensures OutsOk(Step(s, a))
  {
    var t := Step(s, a);
    if a.HubWork? {
      if s.hub.Adding? || s.hub.Removing? ==> s.hub.conn in s.conns {
        WorkEnqueued(s);
        WorkPcs(s);
      }
      hide WorkOf, OutOk;
    } else if a.Receive? {
      if a.c in s.conns && s.conns[a.c].pc.Reading? {
        HandleShape(s, a.c, a.event, a.reply);
        HandleOuts(s, a.c, a.event, a.reply);
        hide Handle, Compatible, Must, May, TodoOk;
      }
    } else {
      hide OutOk, WorkOf, Handle, Put, Drop;
    }
  }

  lemma WorkPcs(s: State)
    requires s.hub.Adding? || s.hub.Removing? ==> s.hub.conn in s.conns
    ensures WorkOf(s).conns.Keys == s.conns.Keys
    ensures forall c :: c in s.conns ==> WorkOf(s).conns[c].pc == s.conns[c].pc
  {
    hide Put, Drop, Purge, All, Recipients;
  }

  lemma HandleOuts(s: State, c: nat, e: ClientEvent, reply: StoreReply)
    requires c in s.conns && TodoOk(s.conns[c].pc)
    ensures c in Handle(s, c, e, reply).conns && TodoOk(Handle(s, c, e, reply).conns[c].pc)
  {
    hide Trim;
  }

  lemma {:induction false} OutsRun(actions: seq<Action>)
    ensures OutsOk(Run(Initial, actions))
  {
    if actions != [] {
      hide OutsOk, Step;
      OutsRun(actions[..|actions| - 1]);
      OutsStep(Run(Initial, actions[..|actions| - 1]), actions[|actions| - 1]);
    }
  }

  // What the hub has in hand came through the channel.
  lemma InHandOk(s: State)
    requires FifoOk(s) && OutsOk(s) && s.hub.Relaying?
    ensures OutOk(s.hub.tagged.out)
  {
    assert s.enqueued[|Relayed(s.emissions)|] == s.hub.tagged;
  }
}
