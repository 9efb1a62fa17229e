// Room threads, end to end: what the browsers of a room's subscribers show.
module HubRooms {
  import opened Text
  import opened Channels
  import opened HubModel
  import opened HubSystem
  import opened HubIndex
  import opened HubOrder
  import opened HubPresence
  import opened HubDms
  import opened BrowserStore

  // The messages a log of outbound entries sends to room r.
  function RoomTexts(log: seq<Tagged>, r: RoomId): seq<Message> {
    if log == [] then []
    else
      var o := log[|log| - 1].out;
      RoomTexts(log[..|log| - 1], r)
      + if o.target == ToRoom(r) && o.event.MessageEvent? then [o.event.message] else []
  }

  lemma {:induction false} RoomTextsAppend(p: seq<Tagged>, q: seq<Tagged>, r: RoomId)
    ensures RoomTexts(p + q, r) == RoomTexts(p, r) + RoomTexts(q, r)
  {
    if q == [] {
      assert p + q == p;
    } else {
      assert (p + q)[..|p + q| - 1] == p + q[..|q| - 1];
      RoomTextsAppend(p, q[..|q| - 1], r);
    }
  }

  function RoomThread(k: Conn, r: RoomId): seq<Message> {
    MessagesFor(k.user, EventsOf(k.box.calls), RoomKey(r))
  }

  // What the step relays to the room.
  function NewTexts(s: State, a: Action, r: RoomId): seq<Message> {
    var e := NewEmission(s, a);
    if e.Some? && e.value.tag.Some? then RoomTexts([e.value.tag.value], r) else []
  }

  lemma OneRoomText(t: Tagged, r: RoomId)
    ensures RoomTexts([t], r) ==
      if t.out.target == ToRoom(r) && t.out.event.MessageEvent? then [t.out.event.message] else []
  {
    assert [t][..0] == [];
  }

  // What the emission of a step is, for a subscriber of r.
  lemma RoomHears(s: State, a: Action, c: nat, r: RoomId)
    requires Coherent(s) && FifoOk(s) && OutsOk(s) && In(s.rooms, r, c) && NewEmission(s, a).Some?
    ensures var e := NewEmission(s, a).value;
      && (e.tag.None? ==> !e.event.MessageEvent?)
      && (e.tag.Some? ==> e.event == e.tag.value.out.event && OutOk(e.tag.value.out))
      && (e.tag.Some? && e.tag.value.out.exclude.None? && e.tag.value.out.target == ToRoom(r) ==> c in e.to)
  {
    if s.hub.Relaying? { InHandOk(s); }
    hide Coherent, FifoOk, OutsOk, Put, Drop, All;
  }

  // A connection that is handed e, as every subscriber of r is when e is for r.
  lemma HearRoom(k: Conn, n: nat, e: Emission, c: nat, r: RoomId)
    requires e.tag.None? ==> !e.event.MessageEvent?
    requires e.tag.Some? ==> e.event == e.tag.value.out.event && OutOk(e.tag.value.out)
    requires e.tag.Some? && e.tag.value.out.exclude.None? && e.tag.value.out.target == ToRoom(r) ==> c in e.to
    ensures RoomThread(k.(box := if c in e.to then k.box.Push(Stamped(Some(n), e.event), SEND_CAPACITY) else k.box), r)
      == RoomThread(k, r) + if e.tag.Some? then RoomTexts([e.tag.value], r) else []
  {
    hide MessagesFor, EventsOf, RoomTexts;
    if e.tag.Some? { OneRoomText(e.tag.value, r); }
    ThreadAppend(k.box.calls, Stamped(Some(n), e.event), k.user, RoomKey(r));
  }

  lemma QuietRoom(k: Conn, k': Conn, r: RoomId)
    requires OwnChange(k.box, k'.box) && k'.user == k.user
    ensures RoomThread(k', r) == RoomThread(k, r)
  {
    hide MessagesFor, EventsOf;
    if k'.box != k.box && k'.box != k.box.Take() {
      ThreadAppend(k.box.calls, k'.box.calls[|k'.box.calls| - 1], k.user, RoomKey(r));
    }
  }

  lemma RoomStep(s: State, a: Action, c: nat, r: RoomId)
    requires Coherent(s) && FifoOk(s) && OutsOk(s) && In(s.rooms, r, c) && c in s.conns
    ensures c in Step(s, a).conns && RoomThread(Step(s, a).conns[c], r) == RoomThread(s.conns[c], r) + NewTexts(s, a, r)
  {
    hide Step, NewEmission, Coherent, FifoOk, OutsOk, MessagesFor, EventsOf, RoomTexts, In, OwnChange, OutOk;
    EmissionStep(s, a);
    SameUser(s, a, c);
    var e := NewEmission(s, a);
    if e.Some? {
      RoomHears(s, a, c, r);
      HearRoom(s.conns[c], |s.emissions|, e.value, c, r);
    } else {
      QuietRoom(s.conns[c], Step(s, a).conns[c], r);
    }
  }

  // c is subscribed to r whenever one of the later actions is taken.
  ghost predicate Subscribed(first: seq<Action>, later: seq<Action>, r: RoomId, c: nat) {
    forall n: nat :: n < |later| ==> In(Run(Initial, first + later[..n]).rooms, r, c)
  }

  // What a subscriber is handed for the room over any stretch is what was relayed to the room in it.
  lemma {:induction false} RoomGain(first: seq<Action>, later: seq<Action>, r: RoomId, c: nat)
    requires c in Run(Initial, first).conns && Subscribed(first, later, r, c)
    ensures var s, t := Run(Initial, first), Run(Initial, first + later);
      && c in t.conns && t.conns[c].user == s.conns[c].user && |s.emissions| <= |t.emissions|
      && RoomThread(t.conns[c], r) == RoomThread(s.conns[c], r) + RoomTexts(Relayed(t.emissions[|s.emissions|..]), r)
  {
    hide Step, RoomThread, RoomTexts, Relayed;
    var s := Run(Initial, first);
    if later == [] {
      assert first + later == first;
      assert s.emissions[|s.emissions|..] == [];
      NothingRelayed(r);
    } else {
      var n, a := |later| - 1, later[|later| - 1];
      var before := first + later[..n];
      assert forall m: nat :: m < n ==> later[..n][..m] == later[..m];
      RoomGain(first, later[..n], r, c);
      assert (first + later)[..|first + later| - 1] == before;
      hide Run;
      RunLast(first + later);
      RoomGainStep(first, before, a, r, c);
    }
  }

  lemma NothingRelayed(r: RoomId)
    ensures RoomTexts(Relayed([]), r) == []
  {}

  lemma RoomGainStep(first: seq<Action>, before: seq<Action>, a: Action, r: RoomId, c: nat)
    requires var s, m := Run(Initial, first), Run(Initial, before);
      && c in s.conns && c in m.conns && m.conns[c].user == s.conns[c].user && |s.emissions| <= |m.emissions|
      && RoomThread(m.conns[c], r) == RoomThread(s.conns[c], r) + RoomTexts(Relayed(m.emissions[|s.emissions|..]), r)
      && In(m.rooms, r, c)
    ensures var s, t := Run(Initial, first), Step(Run(Initial, before), a);
      && c in t.conns && t.conns[c].user == s.conns[c].user && |s.emissions| <= |t.emissions|
      && RoomThread(t.conns[c], r) == RoomThread(s.conns[c], r) + RoomTexts(Relayed(t.emissions[|s.emissions|..]), r)
  {
    hide Run, Step, RoomThread, RoomTexts, Relayed, Coherent, FifoOk, OutsOk, NewEmission, In, BoxChange;
    var s, m := Run(Initial, first), Run(Initial, before);
    RunKeeps(before);
    FifoRun(before);
    OutsRun(before);
    EmissionStep(m, a);
    SameUser(m, a, c);
    RoomStep(m, a, c, r);
    var t, e, i := Step(m, a), NewEmission(m, a), |s.emissions|;
    if e.Some? {
      assert t.emissions[i..] == m.emissions[i..] + [e.value];
      RelayedAppend(m.emissions[i..], e.value);
      if e.value.tag.Some? {
        RoomTextsAppend(Relayed(m.emissions[i..]), [e.value.tag.value], r);
      } else {
        assert Relayed(m.emissions[i..]) + [] == Relayed(m.emissions[i..]);
      }
    } else {
      assert t.emissions[i..] == m.emissions[i..];
    }
  }

  // What connection c's browser shows of room r.
  function RoomShown(k: Conn, r: RoomId): seq<Message> {
    Thread(Fold(k.user, Empty, EventsOf(k.box.accepted)), RoomKey(r))
  }

  lemma RoomShownIsThread(actions: seq<Action>, c: nat, r: RoomId)
    requires c in Run(Initial, actions).conns && Run(Initial, actions).conns[c].box.Lossless()
    ensures RoomShown(Run(Initial, actions).conns[c], r) == RoomThread(Run(Initial, actions).conns[c], r)
  {
    CallsRun(actions);
    hide Run, HubPart, Mine, Fold, EventsOf, MessagesFor;
    var k := Run(Initial, actions).conns[c];
    LosslessIsExact(k.box, SEND_CAPACITY);
    ThreadIs(k.user, Empty, EventsOf(k.box.calls), RoomKey(r));
  }

  // A room, end to end. Two connections that lost nothing are subscribed to the room throughout any
  // stretch of any run. Under the room's key both browsers gain the same sequence, sender or not: the
  // messages relayed to the room in that stretch, in the order they were relayed.
  lemma RoomAgreement(first: seq<Action>, later: seq<Action>, r: RoomId, a: nat, b: nat)
    requires var s, t := Run(Initial, first), Run(Initial, first + later);
      && a in s.conns && b in s.conns && s.conns[a].box.Lossless() && s.conns[b].box.Lossless()
      && (a in t.conns ==> t.conns[a].box.Lossless()) && (b in t.conns ==> t.conns[b].box.Lossless())
    requires Subscribed(first, later, r, a) && Subscribed(first, later, r, b)
    ensures var s, t := Run(Initial, first), Run(Initial, first + later);
      && a in t.conns && b in t.conns && |s.emissions| <= |t.emissions|
      && var gain := RoomTexts(Relayed(t.emissions[|s.emissions|..]), r);
         && RoomShown(t.conns[a], r) == RoomShown(s.conns[a], r) + gain
         && RoomShown(t.conns[b], r) == RoomShown(s.conns[b], r) + gain
  {
    hide Run, Subscribed, RoomShown, RoomThread, RoomTexts, Relayed;
    RoomGain(first, later, r, a);
    RoomGain(first, later, r, b);
    RoomShownIsThread(first, a, r);
    RoomShownIsThread(first, b, r);
    RoomShownIsThread(first + later, a, r);
    RoomShownIsThread(first + later, b, r);
  }
}
