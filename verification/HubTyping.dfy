// Typing in a room, end to end: whom the browsers of a room's subscribers show as typing.
module HubTyping {
  import opened Text
  import opened Channels
  import opened HubModel
  import opened HubSystem
  import opened HubIndex
  import opened HubOrder
  import opened HubPresence
  import opened HubDms
  import opened HubRooms
  import opened BrowserStore

  // The typing events among these that the store files under key.
  function TypingOf(events: seq<Event>, key: Key): seq<Event> {
    if events == [] then []
    else
      var e := events[|events| - 1];
      TypingOf(events[..|events| - 1], key) + if e.Typing? && TypingKey(e) == key then [e] else []
  }

  // One typing event changes a list of typing users.
  function Typed(users: seq<UserId>, e: Event): seq<UserId> {
    if !e.Typing? then users else if e.isTyping then AddUser(users, e.user) else DeleteUser(users, e.user)
  }

  // What typing events make of a list of typing users.
  function Typists(users: seq<UserId>, events: seq<Event>): seq<UserId> {
    if events == [] then users else Typed(Typists(users, events[..|events| - 1]), events[|events| - 1])
  }

  lemma OneTyped(self: UserId, s: Store, e: Event, key: Key)
    ensures TypingUsers(Reduce(self, s, e), key) ==
      if e.Typing? && TypingKey(e) == key then Typed(TypingUsers(s, key), e) else TypingUsers(s, key)
  {
    hide ThreadKey, AddUser, DeleteUser;
  }

  // Of all events only those matter to the list under a key.
  lemma {:induction false} TypistsIs(self: UserId, s: Store, events: seq<Event>, key: Key)
    ensures TypingUsers(Fold(self, s, events), key) == Typists(TypingUsers(s, key), TypingOf(events, key))
  {
    hide TypingUsers, Reduce, Typed, TypingKey;
    if events != [] {
      var front, e := events[..|events| - 1], events[|events| - 1];
      TypistsIs(self, s, front, key);
      OneTyped(self, Fold(self, s, front), e, key);
      if e.Typing? && TypingKey(e) == key {
        var all := TypingOf(front, key) + [e];
        assert all[..|all| - 1] == TypingOf(front, key);
      } else {
        assert TypingOf(front, key) + [] == TypingOf(front, key);
      }
    }
  }

  lemma {:induction false} TypistsAppend(users: seq<UserId>, p: seq<Event>, q: seq<Event>)
    ensures Typists(users, p + q) == Typists(Typists(users, p), q)
  {
    hide Typed;
    if q == [] {
      assert p + q == p;
    } else {
      assert (p + q)[..|p + q| - 1] == p + q[..|q| - 1];
      TypistsAppend(users, p, q[..|q| - 1]);
    }
  }

  // A list of who is typing: in a room, or, in the browser of me, to me in the thread with user.
  datatype Corner = InRoom(room: RoomId) | From(user: UserId, me: UserId)

  function KeyOf(w: Corner): Key {
    match w case InRoom(r) => RoomKey(r) case From(u, _) => DmKey(u)
  }

  // The entry is a typing event for the list.
  predicate Meant(o: Outbound<nat>, w: Corner) {
    o.event.Typing? &&
    match w
    case InRoom(r) => o.target == ToRoom(r)
    case From(u, me) => o.target == ToUser(me) && o.event.user == u
  }

  // The typing events of a log of outbound entries that are meant for the list, less those that leave out c.
  function TypingFor(log: seq<Tagged>, w: Corner, c: nat): seq<Event> {
    if log == [] then []
    else
      var o := log[|log| - 1].out;
      TypingFor(log[..|log| - 1], w, c) + if Meant(o, w) && o.exclude != Some(c) then [o.event] else []
  }

  lemma {:induction false} TypingForAppend(p: seq<Tagged>, q: seq<Tagged>, w: Corner, c: nat)
    ensures TypingFor(p + q, w, c) == TypingFor(p, w, c) + TypingFor(q, w, c)
  {
    hide Meant;
    if q == [] {
      assert p + q == p;
    } else {
      assert (p + q)[..|p + q| - 1] == p + q[..|q| - 1];
      TypingForAppend(p, q[..|q| - 1], w, c);
    }
  }

  lemma OneTyping(t: Tagged, w: Corner, c: nat)
    ensures TypingFor([t], w, c) == if Meant(t.out, w) && t.out.exclude != Some(c) then [t.out.event] else []
  {
    assert [t][..0] == [];
  }

  // ---- What a connection is handed

  function TypingHeard(k: Conn, w: Corner): seq<Event> {
    TypingOf(EventsOf(k.box.calls), KeyOf(w))
  }

  lemma HeardAppend(calls: seq<Stamped>, x: Stamped, key: Key)
    ensures TypingOf(EventsOf(calls + [x]), key) == TypingOf(EventsOf(calls), key)
      + if x.event.Typing? && TypingKey(x.event) == key then [x.event] else []
  {
    assert (calls + [x])[..|calls|] == calls;
    var events := EventsOf(calls);
    assert EventsOf(calls + [x]) == events + [x.event];
    assert (events + [x.event])[..|events|] == events;
  }

  // What the step relays to the list.
  function NewTyping(s: State, a: Action, w: Corner, c: nat): seq<Event> {
    var e := NewEmission(s, a);
    if e.Some? && e.value.tag.Some? then TypingFor([e.value.tag.value], w, c) else []
  }

  // c is subscribed to the room, or is a registered connection of the user.
  predicate Attends(s: State, w: Corner, c: nat) {
    c in s.conns &&
    match w
    case InRoom(r) => In(s.rooms, r, c)
    case From(_, me) => s.conns[c].status.Live? && s.conns[c].user == me
  }

  // Who attends is handed, of all typing, exactly what is meant for the list and does not leave it out.
  ghost predicate HearsFor(e: Emission, w: Corner, c: nat) {
    match e.tag
    case None => !e.event.Typing?
    case Some(t) =>
      && e.event == t.out.event
      && (c in e.to && e.event.Typing? && TypingKey(e.event) == KeyOf(w) <==>
            Meant(t.out, w) && t.out.exclude != Some(c))
  }

  lemma WhoAttendsHears(s: State, a: Action, c: nat, w: Corner)
    requires Coherent(s) && FifoOk(s) && OutsOk(s) && Attends(s, w, c) && NewEmission(s, a).Some?
    ensures HearsFor(NewEmission(s, a).value, w, c)
  {
    if s.hub.Relaying? {
      InHandOk(s);
      var t := s.hub.tagged;
      if t.out.target.ToUser? {
        assert In(s.users, t.out.target.user, c) <==> LiveAs(s.conns, t.out.target.user, c);
      }
    }
    hide PhasesOk, UsersOk, RoomsOk, FifoOk, OutsOk, Put, Drop, All;
  }

  lemma HearTyping(k: Conn, n: nat, e: Emission, c: nat, w: Corner)
    requires HearsFor(e, w, c)
    ensures TypingHeard(k.(box := if c in e.to then k.box.Push(Stamped(Some(n), e.event), SEND_CAPACITY) else k.box), w)
      == TypingHeard(k, w) + if e.tag.Some? then TypingFor([e.tag.value], w, c) else []
  {
    hide TypingOf, EventsOf, TypingFor, Meant, TypingKey, KeyOf;
    if e.tag.Some? { OneTyping(e.tag.value, w, c); }
    HeardAppend(k.box.calls, Stamped(Some(n), e.event), KeyOf(w));
  }

  lemma QuietTyping(k: Conn, k': Conn, w: Corner)
    requires OwnChange(k.box, k'.box)
    ensures TypingHeard(k', w) == TypingHeard(k, w)
  {
    hide TypingOf, EventsOf;
    if k'.box != k.box && k'.box != k.box.Take() {
      HeardAppend(k.box.calls, k'.box.calls[|k'.box.calls| - 1], KeyOf(w));
    }
  }

  lemma TypingStep(s: State, a: Action, c: nat, w: Corner)
    requires Coherent(s) && FifoOk(s) && OutsOk(s) && Attends(s, w, c) && c in s.conns
    ensures c in Step(s, a).conns
    ensures TypingHeard(Step(s, a).conns[c], w) == TypingHeard(s.conns[c], w) + NewTyping(s, a, w, c)
  {
    hide Step, NewEmission, Coherent, FifoOk, OutsOk, TypingOf, EventsOf, TypingFor, Attends, HearsFor, OwnChange,
         KeyOf;
    EmissionStep(s, a);
    var e := NewEmission(s, a);
    if e.Some? {
      WhoAttendsHears(s, a, c, w);
      HearTyping(s.conns[c], |s.emissions|, e.value, c, w);
    } else {
      QuietTyping(s.conns[c], Step(s, a).conns[c], w);
    }
  }

  // ---- Over any stretch

  // c attends whenever one of the later actions is taken.
  ghost predicate Throughout(first: seq<Action>, later: seq<Action>, w: Corner, c: nat) {
    forall n: nat :: n < |later| ==> Attends(Run(Initial, first + later[..n]), w, c)
  }

  // What it is handed about typing there is what was relayed for it without leaving it out.
  lemma {:induction false} TypingGain(first: seq<Action>, later: seq<Action>, w: Corner, c: nat)
    requires c in Run(Initial, first).conns && Throughout(first, later, w, c)
    ensures var s, t := Run(Initial, first), Run(Initial, first + later);
      && c in t.conns && t.conns[c].user == s.conns[c].user && |s.emissions| <= |t.emissions|
      && TypingHeard(t.conns[c], w) ==
         TypingHeard(s.conns[c], w) + TypingFor(Relayed(t.emissions[|s.emissions|..]), w, c)
  {
    hide Step, TypingHeard, TypingFor, Relayed, Attends;
    var s := Run(Initial, first);
    if later == [] {
      assert first + later == first;
      assert s.emissions[|s.emissions|..] == [];
      NoTyping(w, c);
    } else {
      var n, a := |later| - 1, later[|later| - 1];
      var before := first + later[..n];
      assert forall m: nat :: m < n ==> later[..n][..m] == later[..m];
      TypingGain(first, later[..n], w, c);
      assert (first + later)[..|first + later| - 1] == before;
      hide Run;
      RunLast(first + later);
      TypingGainStep(first, before, a, w, c);
    }
  }

  lemma NoTyping(w: Corner, c: nat)
    ensures TypingFor(Relayed([]), w, c) == []
  {}

  lemma TypingGainStep(first: seq<Action>, before: seq<Action>, a: Action, w: Corner, c: nat)
    requires var s, m := Run(Initial, first), Run(Initial, before);
      && c in s.conns && c in m.conns && m.conns[c].user == s.conns[c].user && |s.emissions| <= |m.emissions|
      && TypingHeard(m.conns[c], w) ==
         TypingHeard(s.conns[c], w) + TypingFor(Relayed(m.emissions[|s.emissions|..]), w, c)
      && Attends(m, w, c)
    ensures var s, t := Run(Initial, first), Step(Run(Initial, before), a);
      && c in t.conns && t.conns[c].user == s.conns[c].user && |s.emissions| <= |t.emissions|
      && TypingHeard(t.conns[c], w) ==
         TypingHeard(s.conns[c], w) + TypingFor(Relayed(t.emissions[|s.emissions|..]), w, c)
  {
    hide Run, Step, TypingHeard, TypingFor, Relayed, Coherent, FifoOk, OutsOk, NewEmission, Attends, BoxChange;
    var s, m := Run(Initial, first), Run(Initial, before);
    RunKeeps(before);
    FifoRun(before);
    OutsRun(before);
    EmissionStep(m, a);
    SameUser(m, a, c);
    TypingStep(m, a, c, w);
    var t, e, i := Step(m, a), NewEmission(m, a), |s.emissions|;
    if e.Some? {
      assert t.emissions[i..] == m.emissions[i..] + [e.value];
      RelayedAppend(m.emissions[i..], e.value);
      if e.value.tag.Some? {
        TypingForAppend(Relayed(m.emissions[i..]), [e.value.tag.value], w, c);
      } else {
        assert Relayed(m.emissions[i..]) + [] == Relayed(m.emissions[i..]);
      }
    } else {
      assert t.emissions[i..] == m.emissions[i..];
    }
  }

  // Whom connection c's browser shows as typing there.
  function TypingShown(k: Conn, key: Key): seq<UserId> {
    TypingUsers(Fold(k.user, Empty, EventsOf(k.box.accepted)), key)
  }

  lemma TypingShownIs(actions: seq<Action>, c: nat, w: Corner)
    requires c in Run(Initial, actions).conns && Run(Initial, actions).conns[c].box.Lossless()
    ensures var k := Run(Initial, actions).conns[c];
      TypingShown(k, KeyOf(w)) == Typists([], TypingHeard(k, w))
  {
    CallsRun(actions);
    hide Run, HubPart, Mine, Fold, EventsOf, TypingOf, Typists, KeyOf;
    var k := Run(Initial, actions).conns[c];
    LosslessIsExact(k.box, SEND_CAPACITY);
    TypistsIs(k.user, Empty, EventsOf(k.box.calls), KeyOf(w));
  }

  lemma CornerAgreement(first: seq<Action>, later: seq<Action>, w: Corner, c: nat)
    requires var s, t := Run(Initial, first), Run(Initial, first + later);
      && c in s.conns && s.conns[c].box.Lossless() && (c in t.conns ==> t.conns[c].box.Lossless())
    requires Throughout(first, later, w, c)
    ensures var s, t := Run(Initial, first), Run(Initial, first + later);
      && c in t.conns && |s.emissions| <= |t.emissions|
      && TypingShown(t.conns[c], KeyOf(w)) ==
         Typists(TypingShown(s.conns[c], KeyOf(w)), TypingFor(Relayed(t.emissions[|s.emissions|..]), w, c))
  {
    hide Run, Throughout, TypingShown, TypingHeard, TypingFor, Relayed, Typists, KeyOf;
    TypingGain(first, later, w, c);
    TypingShownIs(first, c, w);
    TypingShownIs(first + later, c, w);
    var s, t := Run(Initial, first), Run(Initial, first + later);
    TypistsAppend([], TypingHeard(s.conns[c], w), TypingFor(Relayed(t.emissions[|s.emissions|..]), w, c));
  }

  // ---- End to end

  // Typing in a room. A connection that lost nothing is subscribed to the room throughout any stretch of
  // any run. Its list under the room's key is the list it had, changed by the typing events relayed to the
  // room in that stretch, in the order they were relayed, less those sent over itself.
  lemma TypingAgreement(first: seq<Action>, later: seq<Action>, r: RoomId, c: nat)
    requires var s, t := Run(Initial, first), Run(Initial, first + later);
      && c in s.conns && s.conns[c].box.Lossless() && (c in t.conns ==> t.conns[c].box.Lossless())
    requires HubRooms.Subscribed(first, later, r, c)
    ensures var s, t := Run(Initial, first), Run(Initial, first + later);
      && c in t.conns && |s.emissions| <= |t.emissions|
      && TypingShown(t.conns[c], RoomKey(r)) ==
         Typists(TypingShown(s.conns[c], RoomKey(r)),
                 TypingFor(Relayed(t.emissions[|s.emissions|..]), InRoom(r), c))
  {
    forall n: nat | n < |later| ensures Attends(Run(Initial, first + later[..n]), InRoom(r), c) {
      StillThere(first, later[..n], c);
    }
    hide Run, TypingShown, TypingFor, Relayed, Typists;
    CornerAgreement(first, later, InRoom(r), c);
  }

  lemma {:induction false} StillThere(first: seq<Action>, later: seq<Action>, c: nat)
    requires c in Run(Initial, first).conns
    ensures c in Run(Initial, first + later).conns
  {
    hide Step, Coherent;
    if later == [] {
      assert first + later == first;
    } else {
      var before := first + later[..|later| - 1];
      assert (first + later)[..|first + later| - 1] == before;
      StillThere(first, later[..|later| - 1], c);
      RunKeeps(before);
      SameUser(Run(Initial, before), later[|later| - 1], c);
    }
  }

  // Who is registered at both ends of a stretch was so throughout.
  lemma LiveBetween(first: seq<Action>, later: seq<Action>, n: nat, c: nat)
    requires var s, t := Run(Initial, first), Run(Initial, first + later);
      && n < |later| && c in s.conns && s.conns[c].status.Live? && c in t.conns && t.conns[c].status.Live?
    ensures var m := Run(Initial, first + later[..n]);
      c in m.conns && m.conns[c].status.Live? && m.conns[c].user == Run(Initial, first).conns[c].user
  {
    hide Run;
    LaterRun(first, later[..n]);
    var m := Run(Initial, first + later[..n]);
    if m.conns[c].status.Dead? {
      assert first + later[..n] + later[n..] == first + later;
      DeadForever(first + later[..n], later[n..], c);
    }
  }

  // Typing to a user. A connection that lost nothing is registered throughout any stretch of any run. Its
  // list under the thread with u is the list it had, changed by the typing events relayed in that stretch
  // from u to its own user, in the order they were relayed, less those sent over itself.
  lemma DirectTypingAgreement(first: seq<Action>, later: seq<Action>, u: UserId, c: nat)
    requires var s, t := Run(Initial, first), Run(Initial, first + later);
      && c in s.conns && s.conns[c].status.Live? && s.conns[c].box.Lossless()
      && c in t.conns && t.conns[c].status.Live? && t.conns[c].box.Lossless()
    ensures var s, t := Run(Initial, first), Run(Initial, first + later);
      && |s.emissions| <= |t.emissions|
      && TypingShown(t.conns[c], DmKey(u)) ==
         Typists(TypingShown(s.conns[c], DmKey(u)),
                 TypingFor(Relayed(t.emissions[|s.emissions|..]), From(u, s.conns[c].user), c))
  {
    hide Run, TypingShown, TypingFor, Relayed, Typists;
    var w := From(u, Run(Initial, first).conns[c].user);
    forall n: nat | n < |later| ensures Attends(Run(Initial, first + later[..n]), w, c) {
      LiveBetween(first, later, n, c);
    }
    CornerAgreement(first, later, w, c);
  }
}
