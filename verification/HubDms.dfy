// Direct messages, end to end: what the two parties' browsers show of their conversation.
module HubDms {
  import opened Text
  import opened Channels
  import opened HubModel
  import opened HubSystem
  import opened HubIndex
  import opened HubOrder
  import opened HubPresence
  import opened BrowserStore

  // The entry puts its message into user a's thread with user b.
  predicate ForThread(t: Tagged, a: UserId, b: UserId) {
    && t.out.target == ToUser(a) && t.out.event.MessageEvent?
    && ThreadKey(a, t.out.event.message) == Some(DmKey(b))
  }

  // What a log of outbound entries puts into a's thread with b, each message with the connection that sent it.
  function Dms(log: seq<Tagged>, a: UserId, b: UserId): seq<(nat, Message)> {
    if log == [] then []
    else
      var t := log[|log| - 1];
      Dms(log[..|log| - 1], a, b) + if ForThread(t, a, b) then [(t.from, t.out.event.message)] else []
  }

  function Texts(dms: seq<(nat, Message)>): seq<Message> {
    seq(|dms|, i requires 0 <= i < |dms| => dms[i].1)
  }

  function By(dms: seq<(nat, Message)>, x: nat): seq<Message> {
    if dms == [] then []
    else By(dms[..|dms| - 1], x) + if dms[|dms| - 1].0 == x then [dms[|dms| - 1].1] else []
  }

  lemma {:induction false} DmsAppend(p: seq<Tagged>, q: seq<Tagged>, a: UserId, b: UserId)
    ensures Dms(p + q, a, b) == Dms(p, a, b) + Dms(q, a, b)
  {
    hide ForThread;
    if q == [] {
      assert p + q == p;
    } else {
      assert (p + q)[..|p + q| - 1] == p + q[..|q| - 1];
      DmsAppend(p, q[..|q| - 1], a, b);
    }
  }

  lemma {:induction false} ByAppend(p: seq<(nat, Message)>, q: seq<(nat, Message)>, x: nat)
    ensures By(p + q, x) == By(p, x) + By(q, x)
  {
    if q == [] {
      assert p + q == p;
    } else {
      assert (p + q)[..|p + q| - 1] == p + q[..|q| - 1];
      ByAppend(p, q[..|q| - 1], x);
    }
  }

  // ---- Each connection's direct messages reach both threads, in the same order

  // Of what x sent, a's thread with b and b's thread with a get the same messages in the same order.
  ghost predicate Balanced(log: seq<Tagged>, x: nat) {
    forall a, b :: a != b ==> By(Dms(log, a, b), x) == By(Dms(log, b, a), x)
  }

  lemma BalancedAppend(p: seq<Tagged>, q: seq<Tagged>, x: nat)
    requires Balanced(p, x) && Balanced(q, x)
    ensures Balanced(p + q, x)
  {
    hide By, Dms;
    forall a: UserId, b: UserId | a != b ensures By(Dms(p + q, a, b), x) == By(Dms(p + q, b, a), x) {
      DmsAppend(p, q, a, b);
      DmsAppend(p, q, b, a);
      ByAppend(Dms(p, a, b), Dms(q, a, b), x);
      ByAppend(Dms(p, b, a), Dms(q, b, a), x);
    }
  }

  // A stretch between two balanced points is balanced.
  lemma BalancedRest(p: seq<Tagged>, q: seq<Tagged>, x: nat)
    requires Balanced(p, x) && Balanced(p + q, x)
    ensures Balanced(q, x)
  {
    hide By, Dms;
    forall a: UserId, b: UserId | a != b ensures By(Dms(q, a, b), x) == By(Dms(q, b, a), x) {
      DmsAppend(p, q, a, b);
      DmsAppend(p, q, b, a);
      ByAppend(Dms(p, a, b), Dms(q, a, b), x);
      ByAppend(Dms(p, b, a), Dms(q, b, a), x);
      var head, tail, tail' := By(Dms(p, a, b), x), By(Dms(q, a, b), x), By(Dms(q, b, a), x);
      assert head + tail == head + tail';
      assert (head + tail)[|head|..] == tail && (head + tail')[|head|..] == tail';
    }
  }

  // Entries by others do not matter.
  lemma {:induction false} ByOthers(log: seq<Tagged>, x: nat, a: UserId, b: UserId)
    requires forall i :: 0 <= i < |log| ==> log[i].from != x
    ensures By(Dms(log, a, b), x) == []
  {
    hide ThreadKey;
    if log != [] {
      var front, t := log[..|log| - 1], log[|log| - 1];
      ByOthers(front, x, a, b);
      var d := if ForThread(t, a, b) then [(t.from, t.out.event.message)] else [];
      ByAppend(Dms(front, a, b), d, x);
      assert d != [] ==> d[..0] == [];
    }
  }

  // What x's read loop still has to push.
  function Pending(s: State, x: nat): seq<Tagged> {
    if x in s.conns && s.conns[x].pc.Sending? then Tags(x, s.conns[x].pc.todo) else []
  }

  ghost predicate BalancedOk(s: State) {
    forall x :: Balanced(s.enqueued + Pending(s, x), x)
  }

  lemma SingleDm(t: Tagged, a: UserId, b: UserId)
    ensures Dms([t], a, b) == if ForThread(t, a, b) then [(t.from, t.out.event.message)] else []
  {
    assert [t][..0] == [];
  }

  // A whole batch, as one client event produces it, is balanced.
  lemma BatchBalanced(x: nat, user: UserId, m: Message)
    requires m.room == None && m.sender == user && m.recipient.Some?
    ensures Balanced(Tags(x, DirectBatch(user, m)), x)
  {
    var tags := Tags(x, DirectBatch(user, m));
    var t1, t2 := tags[0], tags[1];
    assert tags == [t1] + [t2];
    forall a: UserId, b: UserId | a != b ensures By(Dms(tags, a, b), x) == By(Dms(tags, b, a), x) {
      hide By, Dms;
      DmsAppend([t1], [t2], a, b);
      DmsAppend([t1], [t2], b, a);
      SingleDm(t1, a, b); SingleDm(t2, a, b);
      SingleDm(t1, b, a); SingleDm(t2, b, a);
      assert [] + [(x, m)] == [(x, m)] + [];
    }
  }

  // Entries that are not direct messages weigh nothing.
  lemma OtherBalanced(x: nat, o: Outbound<nat>)
    requires !(o.event.MessageEvent? && o.event.message.room.None?)
    ensures Balanced(Tags(x, [o]), x)
  {
    var t := Tagged(x, o);
    assert Tags(x, [o]) == [t];
    forall a: UserId, b: UserId | a != b ensures By(Dms([t], a, b), x) == By(Dms([t], b, a), x) {
      SingleDm(t, a, b);
      SingleDm(t, b, a);
    }
  }

  lemma NothingBalanced(x: nat)
    ensures Balanced([], x)
  {}

  // What a client event leaves to push is a whole batch.
  lemma HandlePending(s: State, c: nat, e: ClientEvent, reply: StoreReply)
    requires c in s.conns && s.conns[c].pc.Reading?
    ensures Balanced(Pending(Handle(s, c, e, reply), c), c)
  {
    var t := Handle(s, c, e, reply);
    hide Trim, Tags, Balanced, DirectBatch;
    NothingBalanced(c);
    match e
    case RoomMessage(room, body, attachment) =>
      if t.conns[c].pc.Sending? {
        var m := Message(s.nextMessage, room, s.conns[c].user, None, Trim(body));
        OtherBalanced(c, Outbound(ToRoom(room.value), MessageEvent(m), None));
      }
    case DirectMessage(to, body, attachment) =>
      if t.conns[c].pc.Sending? {
        BatchBalanced(c, s.conns[c].user, Message(s.nextMessage, None, s.conns[c].user, to, Trim(body)));
      }
    case TypingIn(room, typing) =>
      if room.Some? {
        OtherBalanced(c, Outbound(ToRoom(room.value), Typing(room, None, s.conns[c].user, typing), Some(c)));
      }
    case TypingTo(to, typing) =>
      if to.Some? { OtherBalanced(c, Outbound(ToUser(to.value), Typing(None, to, s.conns[c].user, typing), Some(c))); }
    case _ =>
  }

  // How the channel's history and what is left to push move together.
  lemma PendingStep(s: State, a: Action, x: nat)
    ensures var t := Step(s, a);
      || (t.enqueued + Pending(t, x) == s.enqueued + Pending(s, x))
      || (a.Receive? && a.c == x && t.enqueued == s.enqueued && Pending(s, x) == [] && Balanced(Pending(t, x), x))
      || (a.Push? && a.c != x && Pending(t, x) == Pending(s, x) && |t.enqueued| == |s.enqueued| + 1
          && t.enqueued[..|s.enqueued|] == s.enqueued && t.enqueued[|s.enqueued|].from == a.c)
  {
    hide Balanced, Handle, WorkOf, Put, Drop, DirectBatch;
    if a.Receive? {
      if a.c in s.conns && s.conns[a.c].pc.Reading? {
        HandleShape(s, a.c, a.event, a.reply);
        if a.c == x { HandlePending(s, a.c, a.event, a.reply); }
      }
    } else if a.HubWork? {
      if s.hub.Adding? || s.hub.Removing? ==> s.hub.conn in s.conns {
        WorkEnqueued(s);
        WorkPcs(s);
      }
    } else if a.Push? {
      if a.c in s.conns && s.conns[a.c].pc.Sending? { PushPending(s, a.c); }
    }
  }

  lemma PushPending(s: State, c: nat)
    requires c in s.conns && s.conns[c].pc.Sending?
    ensures var t := Step(s, Push(c)); t.enqueued + Pending(t, c) == s.enqueued + Pending(s, c)
  {
    var t, todo := Step(s, Push(c)), s.conns[c].pc.todo;
    if |s.queue| < BROADCAST_CAPACITY && todo != [] {
      assert Tags(c, todo) == [Tagged(c, todo[0])] + Tags(c, todo[1..]);
    }
  }

  lemma BalancedStep(s: State, a: Action)
    requires BalancedOk(s)
    ensures BalancedOk(Step(s, a))
  {
    hide Balanced, Step, Pending;
    var t := Step(s, a);
    forall x ensures Balanced(t.enqueued + Pending(t, x), x) {
      PendingStep(s, a, x);
      assert Balanced(s.enqueued + Pending(s, x), x);
      if t.enqueued + Pending(t, x) != s.enqueued + Pending(s, x) {
        if a.Receive? {
          assert s.enqueued + [] == s.enqueued;
          BalancedAppend(s.enqueued, Pending(t, x), x);
        } else {
          InsertOther(s.enqueued, t.enqueued[|s.enqueued|], Pending(s, x), x);
          assert t.enqueued == s.enqueued + [t.enqueued[|s.enqueued|]];
        }
      }
    }
  }

  lemma InsertOther(p: seq<Tagged>, t: Tagged, q: seq<Tagged>, x: nat)
    requires Balanced(p + q, x) && t.from != x
    ensures Balanced(p + [t] + q, x)
  {
    hide By, Dms;
    forall a: UserId, b: UserId | a != b ensures By(Dms(p + [t] + q, a, b), x) == By(Dms(p + [t] + q, b, a), x) {
      InsertBy(p, t, q, x, a, b);
      InsertBy(p, t, q, x, b, a);
    }
  }

  lemma InsertBy(p: seq<Tagged>, t: Tagged, q: seq<Tagged>, x: nat, a: UserId, b: UserId)
    requires t.from != x
    ensures By(Dms(p + [t] + q, a, b), x) == By(Dms(p + q, a, b), x)
  {
    hide By, Dms;
    DmsAppend(p + [t], q, a, b);
    DmsAppend(p, [t], a, b);
    DmsAppend(p, q, a, b);
    ByAppend(Dms(p + [t], a, b), Dms(q, a, b), x);
    ByAppend(Dms(p, a, b), Dms([t], a, b), x);
    ByAppend(Dms(p, a, b), Dms(q, a, b), x);
    ByOthers([t], x, a, b);
  }

  lemma {:induction false} BalancedRun(actions: seq<Action>)
    ensures BalancedOk(Run(Initial, actions))
  {
    if actions != [] {
      hide BalancedOk, Step;
      BalancedRun(actions[..|actions| - 1]);
      BalancedStep(Run(Initial, actions[..|actions| - 1]), actions[|actions| - 1]);
    } else {
      forall x ensures Balanced(Initial.enqueued + Pending(Initial, x), x) { NothingBalanced(x); }
    }
  }

  // ---- A live connection's thread is what was relayed for it since its registration

  function ThreadOf(k: Conn, b: UserId): seq<Message> {
    MessagesFor(k.user, EventsOf(k.box.calls), DmKey(b))
  }

  predicate ThreadOk(emissions: seq<Emission>, k: Conn, b: UserId) {
    match k.status
    case Fresh => ThreadOf(k, b) == []
    case Live => k.start <= |emissions| && ThreadOf(k, b) == Texts(Dms(Relayed(emissions[k.start..]), k.user, b))
    case Dead => true
  }

  ghost predicate ThreadsOk(s: State) {
    forall c, b :: c in s.conns ==> ThreadOk(s.emissions, s.conns[c], b)
  }

  lemma ThreadAppend(calls: seq<Stamped>, x: Stamped, self: UserId, key: Key)
    ensures MessagesFor(self, EventsOf(calls + [x]), key) == MessagesFor(self, EventsOf(calls), key)
      + if x.event.MessageEvent? && ThreadKey(self, x.event.message) == Some(key) then [x.event.message] else []
  {
    hide ThreadKey;
    assert (calls + [x])[..|calls|] == calls;
    var events := EventsOf(calls);
    assert EventsOf(calls + [x]) == events + [x.event];
    assert (events + [x.event])[..|events|] == events;
  }

  lemma QuietThread(k: Conn, k': Conn, emissions: seq<Emission>, b: UserId)
    requires ThreadOk(emissions, k, b) && OwnChange(k.box, k'.box) && SameStanding(k, k')
    ensures ThreadOk(emissions, k', b)
  {
    hide Relayed, Dms, Texts, MessagesFor, EventsOf;
    if k'.box != k.box && k'.box != k.box.Take() {
      ThreadAppend(k.box.calls, k'.box.calls[|k'.box.calls| - 1], k.user, DmKey(b));
    }
  }

  lemma TextsAppend(p: seq<(nat, Message)>, q: seq<(nat, Message)>)
    ensures Texts(p + q) == Texts(p) + Texts(q)
  {}

  // How an emission reaches a live connection: by user exactly when the target is its user.
  predicate Addressed(e: Emission, i: nat, user: UserId) {
    match e.tag
    case None => !e.event.MessageEvent?
    case Some(t) =>
      && OutOk(t.out) && e.event == t.out.event
      && (t.out.target.ToUser? && t.out.exclude.None? ==> (i in e.to <==> t.out.target.user == user))
  }

  // A connection is handed a relayed entry for its thread with b exactly when the entry is for that thread.
  lemma Landing(e: Emission, i: nat, user: UserId, b: UserId)
    requires Addressed(e, i, user)
    ensures (i in e.to && e.event.MessageEvent? && ThreadKey(user, e.event.message) == Some(DmKey(b)))
      <==> (e.tag.Some? && ForThread(e.tag.value, user, b))
    ensures e.tag.Some? ==> e.event == e.tag.value.out.event
  {}

  // One emission, one live connection.
  lemma HearThread(k: Conn, emissions: seq<Emission>, e: Emission, i: nat, b: UserId)
    requires k.status.Live? && ThreadOk(emissions, k, b) && Addressed(e, i, k.user)
    ensures ThreadOk(emissions + [e],
                     k.(box := if i in e.to then k.box.Push(Stamped(Some(|emissions|), e.event), SEND_CAPACITY)
                       else k.box), b)
  {
    assert (emissions + [e])[k.start..] == emissions[k.start..] + [e];
    RelayedAppend(emissions[k.start..], e);
    ThreadAppend(k.box.calls, Stamped(Some(|emissions|), e.event), k.user, DmKey(b));
    Landing(e, i, k.user, b);
    var r := Relayed(emissions[k.start..]);
    if e.tag.Some? {
      var t := e.tag.value;
      DmsAppend(r, [t], k.user, b);
      SingleDm(t, k.user, b);
      TextsAppend(Dms(r, k.user, b), Dms([t], k.user, b));
      OneText(Dms([t], k.user, b));
      hide Relayed, Dms, Texts, MessagesFor, EventsOf, ThreadKey, ForThread, Addressed;
    } else {
      assert r + [] == r;
      hide Relayed, Dms, Texts, MessagesFor, EventsOf, ThreadKey, ForThread, Addressed;
    }
  }

  // A fresh connection is in no user bucket, so no direct message reaches it.
  lemma FreshThread(k: Conn, emissions: seq<Emission>, e: Emission, i: nat, b: UserId)
    requires k.status.Fresh? && ThreadOk(emissions, k, b)
    requires i in e.to && e.event.MessageEvent? ==> e.event.message.room.Some?
    ensures ThreadOk(emissions + [e],
                     k.(box := if i in e.to then k.box.Push(Stamped(Some(|emissions|), e.event), SEND_CAPACITY)
                       else k.box), b)
  {
    ThreadAppend(k.box.calls, Stamped(Some(|emissions|), e.event), k.user, DmKey(b));
    hide MessagesFor, EventsOf;
  }

  // addConn starts the account at the emission that announces it.
  lemma StartThread(k: Conn, k': Conn, emissions: seq<Emission>, e: Emission, b: UserId)
    requires k.status.Fresh? && ThreadOk(emissions, k, b) && e.tag.None? && !e.event.MessageEvent?
    requires k'.status.Live? && k'.start == |emissions| && k'.user == k.user
    requires k'.box == k.box.Push(Stamped(Some(|emissions|), e.event), SEND_CAPACITY)
    ensures ThreadOk(emissions + [e], k', b)
  {
    ThreadAppend(k.box.calls, Stamped(Some(|emissions|), e.event), k.user, DmKey(b));
    assert (emissions + [e])[k'.start..] == [e];
    assert [e][..0] == [];
  }

  lemma OneText(d: seq<(nat, Message)>)
    ensures d == [] ==> Texts(d) == []
    ensures |d| == 1 ==> Texts(d) == [d[0].1]
  {}

  lemma WhoHears(s: State, a: Action, c: nat)
    requires Coherent(s) && FifoOk(s) && OutsOk(s) && NewEmission(s, a).Some? && c in s.conns
    ensures var e := NewEmission(s, a).value;
      && (s.conns[c].status.Live? ==> Addressed(e, c, s.conns[c].user))
      && (!s.conns[c].status.Live? && c in e.to && e.event.MessageEvent? ==> e.event.message.room.Some?)
      && (e.tag.None? ==> !e.event.MessageEvent?)
      && (s.hub.Relaying? <==> e.tag.Some?)
      && (c in e.to && e.event.MessageEvent? && e.event.message.room.None? ==>
            s.conns[c].user == e.event.message.sender || e.event.message.recipient == Some(s.conns[c].user))
  {
    var e := NewEmission(s, a).value;
    if s.hub.Relaying? {
      InHandOk(s);
      var t := s.hub.tagged;
      if t.out.target.ToUser? {
        assert In(s.users, t.out.target.user, c) <==> LiveAs(s.conns, t.out.target.user, c);
      }
    }
    hide PhasesOk, UsersOk, RoomsOk, FifoOk, OutsOk, Put, Drop, All;
  }

  lemma QuietThreads(s: State, a: Action)
    requires ThreadsOk(s) && NewEmission(s, a).None?
    ensures ThreadsOk(Step(s, a))
  {
    var t := Step(s, a);
    EmissionStep(s, a);
    QuietStanding(s, a);
    assert t.emissions == s.emissions;
    hide Step, NewEmission, OwnChange, ThreadOk;
    forall c, b | c in t.conns ensures ThreadOk(t.emissions, t.conns[c], b) {
      if c in s.conns {
        assert ThreadOk(s.emissions, s.conns[c], b);
        if t.conns[c].status.Dead? { DeadThread(t.emissions, t.conns[c], b); }
        else { QuietThread(s.conns[c], t.conns[c], s.emissions, b); }
      } else {
        NewThread(t.emissions, t.conns[c], b);
      }
    }
  }

  lemma QuietStanding(s: State, a: Action)
    requires NewEmission(s, a).None?
    ensures var t := Step(s, a);
      forall c :: c in s.conns ==> c in t.conns && (SameStanding(s.conns[c], t.conns[c]) || t.conns[c].status.Dead?)
  {
    if a.HubWork? {
      hide Recipients, All, Purge, Put;
    } else {
      OnlyTheHub(s, a);
      hide Step;
    }
  }

  lemma DeadThread(emissions: seq<Emission>, k: Conn, b: UserId)
    requires k.status.Dead?
    ensures ThreadOk(emissions, k, b)
  {}

  lemma NewThread(emissions: seq<Emission>, k: Conn, b: UserId)
    requires k.box == Outbox([], [], 0, false) && k.status.Fresh?
    ensures ThreadOk(emissions, k, b)
  {}

  lemma EmittingThreads(s: State, a: Action)
    requires Coherent(s) && FifoOk(s) && OutsOk(s) && ThreadsOk(s) && NewEmission(s, a).Some?
    ensures ThreadsOk(Step(s, a))
  {
    var t, e := Step(s, a), NewEmission(s, a).value;
    EmissionStep(s, a);
    assert a.HubWork?;
    EmittingStanding(s, a);
    forall c, b | c in t.conns ensures ThreadOk(t.emissions, t.conns[c], b) {
      hide Step, NewEmission, Coherent, FifoOk, OutsOk;
      assert ThreadOk(s.emissions, s.conns[c], b);
      WhoHears(s, a, c);
      EmittingThread(s, t, e, c, b);
    }
  }

  // What the emitting section does to each connection's standing.
  predicate Standing(s: State, k: Conn, k': Conn, c: nat, e: Emission) {
    || (k' == k.(box := k'.box))
    || (k'.status.Dead?)
    || (k.status.Fresh? && k'.status.Live? && k'.user == k.user && k'.start == |s.emissions| && e.tag.None? &&
         c in e.to)
  }

  lemma EmittingStanding(s: State, a: Action)
    requires Coherent(s) && a.HubWork? && NewEmission(s, a).Some?
    ensures var t, e := Step(s, a), NewEmission(s, a).value;
      t.conns.Keys == s.conns.Keys && forall c :: c in s.conns ==> Standing(s, s.conns[c], t.conns[c], c, e)
  {
    if s.hub.Adding? {
      var c := s.hub.conn;
      assert PhaseOk(s.hub, c, s.conns[c]);
      PutIs(s.users, s.conns[c].user, c);
      AllIn(Put(s.users, s.conns[c].user, c), c);
      assert In(Put(s.users, s.conns[c].user, c), s.conns[c].user, c);
    }
    hide UsersOk, RoomsOk, NoEmptyBucket, Put, Drop, All, Purge, Recipients;
  }

  lemma EmittingThread(s: State, t: State, e: Emission, c: nat, b: UserId)
    requires c in s.conns && c in t.conns && ThreadOk(s.emissions, s.conns[c], b) && t.emissions == s.emissions + [e]
    requires BoxChange(s, Some(e), c, s.conns[c].box, t.conns[c].box) && Standing(s, s.conns[c], t.conns[c], c, e)
    requires s.conns[c].status.Live? ==> Addressed(e, c, s.conns[c].user)
    requires !s.conns[c].status.Live? && c in e.to && e.event.MessageEvent? ==> e.event.message.room.Some?
    requires e.tag.None? ==> !e.event.MessageEvent?
    ensures ThreadOk(t.emissions, t.conns[c], b)
  {
    hide ThreadOk, Addressed;
    var k, k' := s.conns[c], t.conns[c];
    if k'.status.Dead? {
      DeadThread(t.emissions, k', b);
    } else if k' != k.(box := k'.box) {
      StartThread(k, k', s.emissions, e, b);
    } else if k.status.Live? {
      HearThread(k, s.emissions, e, c, b);
    } else {
      FreshThread(k, s.emissions, e, c, b);
    }
  }

  lemma {:induction false} ThreadsRun(actions: seq<Action>)
    ensures ThreadsOk(Run(Initial, actions))
  {
    if actions != [] {
      hide ThreadsOk, Coherent, FifoOk, OutsOk, Step, NewEmission;
      var front, a := actions[..|actions| - 1], actions[|actions| - 1];
      var s := Run(Initial, front);
      ThreadsRun(front);
      RunKeeps(front);
      FifoRun(front);
      OutsRun(front);
      if NewEmission(s, a).None? { QuietThreads(s, a); } else { EmittingThreads(s, a); }
    }
  }

  // ---- Privacy

  // Direct messages handed to a connection have its user as sender or recipient.
  predicate PrivateBox(k: Conn) {
    forall i :: 0 <= i < |k.box.calls| &&
                k.box.calls[i].event.MessageEvent? && k.box.calls[i].event.message.room.None? ==>
      k.user == k.box.calls[i].event.message.sender || k.box.calls[i].event.message.recipient == Some(k.user)
  }

  ghost predicate PrivateOk(s: State) {
    forall c :: c in s.conns ==> PrivateBox(s.conns[c])
  }

  lemma PrivateStep(s: State, a: Action)
    requires Coherent(s) && FifoOk(s) && OutsOk(s) && PrivateOk(s)
    ensures PrivateOk(Step(s, a))
  {
    hide Step, NewEmission, Coherent, FifoOk, OutsOk, PrivateBox;
    EmissionStep(s, a);
    forall c | c in Step(s, a).conns ensures PrivateBox(Step(s, a).conns[c]) {
      if c in s.conns {
        PrivateConn(s, a, c);
      } else {
        FreshIsPrivate(Step(s, a).conns[c]);
      }
    }
  }

  lemma FreshIsPrivate(k: Conn)
    requires k.box.calls == []
    ensures PrivateBox(k)
  {}

  lemma PrivateConn(s: State, a: Action, c: nat)
    requires Coherent(s) && FifoOk(s) && OutsOk(s) && c in s.conns && PrivateBox(s.conns[c])
    requires c in Step(s, a).conns && BoxChange(s, NewEmission(s, a), c, s.conns[c].box, Step(s, a).conns[c].box)
    ensures PrivateBox(Step(s, a).conns[c])
  {
    hide Step, NewEmission, Coherent, FifoOk, OutsOk;
    var e := NewEmission(s, a);
    if e.Some? { WhoHears(s, a, c); }
    SameUser(s, a, c);
    assert e.Some? || OwnChange(s.conns[c].box, Step(s, a).conns[c].box);
  }

  lemma SameUser(s: State, a: Action, c: nat)
    requires Coherent(s) && c in s.conns
    ensures c in Step(s, a).conns && Step(s, a).conns[c].user == s.conns[c].user
  {
    StatusStep(s, a, c);
  }

  lemma {:induction false} PrivateRun(actions: seq<Action>)
    ensures PrivateOk(Run(Initial, actions))
  {
    if actions != [] {
      hide PrivateOk, Coherent, FifoOk, OutsOk, Step;
      var front := actions[..|actions| - 1];
      PrivateRun(front);
      RunKeeps(front);
      FifoRun(front);
      OutsRun(front);
      PrivateStep(Run(Initial, front), actions[|actions| - 1]);
    }
  }

  // ---- Agreement of the two threads

  // No direct message is under way: the channel is drained and no read loop is mid-batch.
  ghost predicate Settled(s: State) {
    && s.queue == [] && !s.hub.Relaying?
    && forall x :: Pending(s, x) == []
  }

  // What time may do: the logs grow, and a live connection keeps its account.
  ghost predicate Later(s: State, t: State) {
    && s.emissions <= t.emissions && s.enqueued <= t.enqueued
    && forall c :: c in s.conns && s.conns[c].status.Live? ==>
         c in t.conns && t.conns[c].user == s.conns[c].user
         && (t.conns[c].status.Live? ==> t.conns[c].start == s.conns[c].start)
         && !t.conns[c].status.Fresh?
  }

  lemma LaterStep(s: State, a: Action, c: nat)
    requires Coherent(s) && c in s.conns && !s.conns[c].status.Fresh?
    ensures var t := Step(s, a);
      && c in t.conns && t.conns[c].user == s.conns[c].user && !t.conns[c].status.Fresh?
      && (t.conns[c].status.Live? ==> s.conns[c].status.Live? && t.conns[c].start == s.conns[c].start)
  {
    StatusStep(s, a, c);
    if a.HubWork? {
      assert PhaseOk(s.hub, c, s.conns[c]);
      WorkStart(s, a, c);
    } else {
      OnlyTheHub(s, a);
    }
    hide Step, Coherent;
  }

  lemma WorkStart(s: State, a: Action, c: nat)
    requires a.HubWork? && c in s.conns && s.hub != Adding(c)
    ensures c in Step(s, a).conns && Step(s, a).conns[c].start == s.conns[c].start
  {
    hide Recipients, All, Purge, Put, Drop;
  }

  lemma LogsGrow(s: State, a: Action)
    ensures s.emissions <= Step(s, a).emissions && s.enqueued <= Step(s, a).enqueued
  {
    EmissionStep(s, a);
    QueueStep(s, a);
    hide Step, NewEmission, BoxChange;
  }

  lemma {:induction false} LaterRun(first: seq<Action>, later: seq<Action>)
    ensures Later(Run(Initial, first), Run(Initial, first + later))
  {
    hide Step, Coherent;
    if later == [] {
      assert first + later == first;
    } else {
      var before, a := first + later[..|later| - 1], later[|later| - 1];
      assert (first + later)[..|first + later| - 1] == before;
      LaterRun(first, later[..|later| - 1]);
      RunKeeps(before);
      hide Run;
      assert Run(Initial, first + later) == Step(Run(Initial, before), a) by { RunLast(first + later); }
      LaterOne(Run(Initial, first), Run(Initial, before), a);
    }
  }

  lemma RunLast(actions: seq<Action>)
    requires actions != []
    ensures Run(Initial, actions) == Step(Run(Initial, actions[..|actions| - 1]), actions[|actions| - 1])
  {}

  lemma LaterOne(s: State, m: State, a: Action)
    requires Later(s, m) && Coherent(m)
    ensures Later(s, Step(m, a))
  {
    hide Step, Coherent;
    LogsGrow(m, a);
    forall c | c in s.conns && s.conns[c].status.Live?
      ensures c in Step(m, a).conns && Step(m, a).conns[c].user == s.conns[c].user
      ensures Step(m, a).conns[c].status.Live? ==> Step(m, a).conns[c].start == s.conns[c].start
      ensures !Step(m, a).conns[c].status.Fresh?
    {
      LaterStep(m, a, c);
    }
  }

  // Between two settled states, a live connection's thread gains exactly what was relayed for it.
  lemma Gain(s: State, t: State, c: nat, b: UserId)
    requires ThreadsOk(s) && ThreadsOk(t) && FifoOk(s) && FifoOk(t) && Settled(s) && Settled(t) && Later(s, t)
    requires c in s.conns && c in t.conns && s.conns[c].status.Live? && t.conns[c].status.Live?
    ensures |s.enqueued| <= |t.enqueued|
    ensures ThreadOf(t.conns[c], b) ==
      ThreadOf(s.conns[c], b) + Texts(Dms(t.enqueued[|s.enqueued|..], s.conns[c].user, b))
  {
    hide Relayed, Dms, Texts, ThreadOf, Pending;
    var k := s.conns[c];
    assert ThreadOk(s.emissions, k, b) && ThreadOk(t.emissions, t.conns[c], b);
    var i, n := k.start, |s.emissions|;
    RelayedSplit(s.emissions, t.emissions[n..]);
    assert t.emissions == s.emissions + t.emissions[n..];
    assert s.enqueued == Relayed(s.emissions) && t.enqueued == Relayed(t.emissions);
    assert t.enqueued[|s.enqueued|..] == Relayed(t.emissions[n..]);
    assert t.emissions[i..] == s.emissions[i..] + t.emissions[n..];
    RelayedSplit(s.emissions[i..], t.emissions[n..]);
    DmsAppend(Relayed(s.emissions[i..]), Relayed(t.emissions[n..]), k.user, b);
    TextsAppend(Dms(Relayed(s.emissions[i..]), k.user, b), Dms(Relayed(t.emissions[n..]), k.user, b));
  }

  lemma {:induction false} RelayedSplit(p: seq<Emission>, q: seq<Emission>)
    ensures Relayed(p + q) == Relayed(p) + Relayed(q)
  {
    if q == [] {
      assert p + q == p;
    } else {
      assert (p + q)[..|p + q| - 1] == p + q[..|q| - 1];
      RelayedSplit(p, q[..|q| - 1]);
    }
  }

  lemma SettledBalanced(s: State, t: State, x: nat)
    requires BalancedOk(s) && BalancedOk(t) && Settled(s) && Settled(t) && s.enqueued <= t.enqueued
    ensures Balanced(t.enqueued[|s.enqueued|..], x)
  {
    hide Balanced, Pending;
    assert Balanced(s.enqueued + Pending(s, x), x) && Balanced(t.enqueued + Pending(t, x), x);
    assert s.enqueued + Pending(s, x) == s.enqueued && t.enqueued + Pending(t, x) == t.enqueued;
    assert t.enqueued == s.enqueued + t.enqueued[|s.enqueued|..];
    BalancedRest(s.enqueued, t.enqueued[|s.enqueued|..], x);
  }

  // The multiplicity of a pair is that of its message among the sender's.
  lemma {:induction false} CountBy(d: seq<(nat, Message)>, x: nat, m: Message)
    ensures multiset(d)[(x, m)] == multiset(By(d, x))[m]
  {
    if d != [] {
      var front, last := d[..|d| - 1], d[|d| - 1];
      CountBy(front, x, m);
      assert d == front + [last];
    }
  }

  lemma SameMultiset(d: seq<(nat, Message)>, d': seq<(nat, Message)>)
    requires forall x :: By(d, x) == By(d', x)
    ensures multiset(d) == multiset(d')
  {
    forall p: (nat, Message) ensures multiset(d)[p] == multiset(d')[p] {
      CountBy(d, p.0, p.1);
      CountBy(d', p.0, p.1);
    }
  }

  // What connection c's browser shows of the conversation with b.
  function Shown(k: Conn, b: UserId): seq<Message> {
    Thread(Fold(k.user, Empty, EventsOf(k.box.accepted)), DmKey(b))
  }

  lemma ShownIsThread(s: State, c: nat, b: UserId)
    requires CallsOk(s) && c in s.conns && s.conns[c].box.Lossless()
    ensures Shown(s.conns[c], b) == ThreadOf(s.conns[c], b)
  {
    hide HubPart, Mine, Fold, EventsOf, MessagesFor;
    var k := s.conns[c];
    LosslessIsExact(k.box, SEND_CAPACITY);
    ThreadIs(k.user, Empty, EventsOf(k.box.calls), DmKey(b));
  }

  // Live, and nothing was dropped.
  ghost predicate Sees(s: State, c: nat) {
    c in s.conns && s.conns[c].status.Live? && s.conns[c].box.Lossless()
  }

  ghost predicate BothThroughout(s: State, t: State, a: nat, b: nat) {
    Settled(s) && Settled(t) && Sees(s, a) && Sees(s, b) && Sees(t, a) && Sees(t, b)
  }

  // What a live connection that lost nothing shows of the conversation with b gains, between two
  // settled states of any run, exactly what was put into the channel for that thread.
  lemma ThreadGain(first: seq<Action>, later: seq<Action>, c: nat, b: UserId)
    requires var s, t := Run(Initial, first), Run(Initial, first + later);
      Settled(s) && Settled(t) && Sees(s, c) && Sees(t, c)
    ensures var s, t := Run(Initial, first), Run(Initial, first + later);
      && |s.enqueued| <= |t.enqueued|
      && Shown(t.conns[c], b) ==
         Shown(s.conns[c], b) + Texts(Dms(t.enqueued[|s.enqueued|..], s.conns[c].user, b))
  {
    var s, t := Run(Initial, first), Run(Initial, first + later);
    CallsRun(first); FifoRun(first); ThreadsRun(first);
    CallsRun(first + later); FifoRun(first + later); ThreadsRun(first + later);
    LaterRun(first, later);
    hide Run, CallsOk, FifoOk, ThreadsOk, Settled, Shown, ThreadOf, Texts, Dms;
    ShownIsThread(s, c, b);
    ShownIsThread(t, c, b);
    Gain(s, t, c, b);
  }

  // The two sides of a conversation. Connections a and b of different users are live throughout a
  // stretch of any run that starts and ends settled, and lost nothing. Then a's thread with b's user
  // and b's thread with a's user gain the same messages: the same multiset, and those sent by any one
  // connection in the same order on both sides.
  lemma DmAgreement(first: seq<Action>, later: seq<Action>, a: nat, b: nat)
    requires BothThroughout(Run(Initial, first), Run(Initial, first + later), a, b)
    requires Run(Initial, first).conns[a].user != Run(Initial, first).conns[b].user
    ensures var s, t := Run(Initial, first), Run(Initial, first + later);
      var userA, userB := s.conns[a].user, s.conns[b].user;
      && |s.enqueued| <= |t.enqueued|
      && var sent := t.enqueued[|s.enqueued|..];
         var forA, forB := Dms(sent, userA, userB), Dms(sent, userB, userA);
         && Shown(t.conns[a], userB) == Shown(s.conns[a], userB) + Texts(forA)
         && Shown(t.conns[b], userA) == Shown(s.conns[b], userA) + Texts(forB)
         && multiset(forA) == multiset(forB)
         && forall x :: By(forA, x) == By(forB, x)
  {
    BalancedRun(first);
    BalancedRun(first + later);
    LaterRun(first, later);
    hide Run, BalancedOk, Settled, Shown, Texts, Dms, By;
    var s, t := Run(Initial, first), Run(Initial, first + later);
    var userA, userB := s.conns[a].user, s.conns[b].user;
    ThreadGain(first, later, a, userB);
    ThreadGain(first, later, b, userA);
    var sent := t.enqueued[|s.enqueued|..];
    forall x ensures By(Dms(sent, userA, userB), x) == By(Dms(sent, userB, userA), x) {
      SettledBalanced(s, t, x);
    }
    SameMultiset(Dms(sent, userA, userB), Dms(sent, userB, userA));
  }

  // Nobody else sees any of it: a direct message handed to a connection has that connection's user at one end.
  lemma OnlyTheTwoEnds(actions: seq<Action>, c: nat, i: nat)
    requires var s := Run(Initial, actions);
      && c in s.conns && i < |s.conns[c].box.calls|
      && s.conns[c].box.calls[i].event.MessageEvent? && s.conns[c].box.calls[i].event.message.room.None?
    ensures var s := Run(Initial, actions);
      var m := s.conns[c].box.calls[i].event.message;
      m.sender == s.conns[c].user || m.recipient == Some(s.conns[c].user)
  {
    PrivateRun(actions);
    hide Run;
    assert PrivateBox(Run(Initial, actions).conns[c]);
  }
}
