// What a browser shows about who is online is what the hub knows.
module HubPresence {
  import opened Text
  import opened Channels
  import opened HubModel
  import opened HubSystem
  import opened HubIndex
  import opened HubOrder
  import opened BrowserStore

  function EventsOf(calls: seq<Stamped>): seq<Event> {
    if calls == [] then [] else EventsOf(calls[..|calls| - 1]) + [calls[|calls| - 1].event]
  }

  // What the events sent on a channel last said about u.
  function Says(calls: seq<Stamped>, u: UserId): Option<bool> {
    SaysOnline(EventsOf(calls), u)
  }

  lemma SaysAppend(calls: seq<Stamped>, x: Stamped, u: UserId)
    ensures Says(calls + [x], u) ==
      if x.event.Presence? && x.event.user == u then Some(x.event.online) else Says(calls, u)
  {
    assert (calls + [x])[..|calls|] == calls;
    var events := EventsOf(calls);
    assert EventsOf(calls + [x]) == events + [x.event];
    assert (events + [x.event])[..|events|] == events;
  }

  // One connection's view of one user, against the hub's index.
  predicate Agrees(k: Conn, users: Buckets<nat>, u: UserId) {
    match k.status
    case Fresh => Says(k.box.calls, u) == None
    case Live =>
      (match Says(k.box.calls, u)
       case Some(online) => online == (u in users)
       case None => u in users <==> u in k.onlineThen)
    case Dead => true
  }

  ghost predicate PresenceOk(s: State) {
    forall c, u :: c in s.conns ==> Agrees(s.conns[c], s.users, u)
  }

  lemma QuietBox(k: Conn, k': Conn, users: Buckets<nat>, u: UserId)
    requires Agrees(k, users, u) && OwnChange(k.box, k'.box) && k'.status == k.status && k'.onlineThen == k.onlineThen
    ensures Agrees(k', users, u)
  {
    hide Says;
    if k'.box != k.box && k'.box != k.box.Take() {
      SaysAppend(k.box.calls, k'.box.calls[|k'.box.calls| - 1], u);
    }
  }

  // A step without an emission: nobody comes online or goes offline.
  lemma QuietStep(s: State, a: Action)
    requires Coherent(s) && PresenceOk(s) && NewEmission(s, a).None?
    ensures PresenceOk(Step(s, a))
  {
    var t := Step(s, a);
    EmissionStep(s, a);
    QuietUsers(s, a);
    hide Coherent, Step, NewEmission, Says, OwnChange, Agrees;
    forall c, u | c in t.conns ensures Agrees(t.conns[c], t.users, u) {
      if c in s.conns {
        SameKeys(s.conns[c], s.users, t.users, u);
        if t.conns[c].status.Dead? {
          DeadAgrees(t.conns[c], t.users, u);
        } else {
          QuietBox(s.conns[c], t.conns[c], t.users, u);
        }
      } else {
        NewAgrees(t.conns[c], t.users, u);
      }
    }
  }

  lemma SameKeys(k: Conn, users: Buckets<nat>, users': Buckets<nat>, u: UserId)
    requires Agrees(k, users, u) && users.Keys == users'.Keys
    ensures Agrees(k, users', u)
  {
    hide Says;
  }

  lemma DeadAgrees(k: Conn, users: Buckets<nat>, u: UserId)
    requires k.status.Dead?
    ensures Agrees(k, users, u)
  {}

  lemma NewAgrees(k: Conn, users: Buckets<nat>, u: UserId)
    requires k.box == Outbox([], [], 0, false) && k.status.Fresh?
    ensures Agrees(k, users, u)
  {}

  lemma QuietUsers(s: State, a: Action)
    requires Coherent(s) && NewEmission(s, a).None?
    ensures var t := Step(s, a);
      && t.users.Keys == s.users.Keys
      && (forall c :: c in s.conns ==>
            c in t.conns && t.conns[c].onlineThen == s.conns[c].onlineThen
            && (t.conns[c].status == s.conns[c].status || t.conns[c].status.Dead?))
  {
    if a.HubWork? {
      QuietWork(s, a);
    } else {
      OnlyTheHub(s, a);
    }
    hide Coherent, Step, NewEmission;
  }

  lemma QuietWork(s: State, a: Action)
    requires a.HubWork? && NewEmission(s, a).None?
    ensures var t := Step(s, a);
      && t.users.Keys == s.users.Keys && t.conns.Keys == s.conns.Keys
      && (forall c :: c in s.conns ==>
            && t.conns[c].onlineThen == s.conns[c].onlineThen
            && (t.conns[c].status == s.conns[c].status || t.conns[c].status.Dead?))
  {
    hide Recipients, All, Purge, Put;
  }

  // A presence emission goes to every connection that is live after it.
  lemma LiveHear(s: State, a: Action, c: nat)
    requires Coherent(s) && a.HubWork? && NewEmission(s, a).Some?
    requires NewEmission(s, a).value.event.Presence? && !s.hub.Relaying?
    ensures var t, e := Step(s, a), NewEmission(s, a).value;
      Coherent(t) && (c in e.to <==> c in t.conns && t.conns[c].status.Live?)
  {
    StepKeeps(s, a);
    var t, e := Step(s, a), NewEmission(s, a).value;
    WorkUsers(s, a);
    hide PhasesOk, RoomsOk, NoEmptyBucket, Step, NewEmission;
    AllIn(t.users, c);
    if c in e.to {
      var u :| In(t.users, u, c);
      assert LiveAs(t.conns, u, c);
    } else if c in t.conns {
      assert In(t.users, t.conns[c].user, c) <==> LiveAs(t.conns, t.conns[c].user, c);
    }
  }

  lemma WorkUsers(s: State, a: Action)
    requires a.HubWork? && NewEmission(s, a).Some? && !s.hub.Relaying?
    ensures var t, e := Step(s, a), NewEmission(s, a).value;
      && e.to == All(t.users) && e.event.Presence? && s.hub.conn in s.conns && e.event.user == s.conns[s.hub.conn].user
      && t.users.Keys == (if e.event.online then s.users.Keys + {e.event.user} else s.users.Keys - {e.event.user})
      && t.conns.Keys == s.conns.Keys
      && (forall c :: c in s.conns ==>
            if c == s.hub.conn
            then
              if e.event.online then t.conns[c].status.Live? && t.conns[c].onlineThen == t.users.Keys
              else t.conns[c].status.Dead?
            else t.conns[c].status == s.conns[c].status && t.conns[c].onlineThen == s.conns[c].onlineThen)
  {
    hide All, Purge, Recipients;
  }

  // addConn or removeConn announces a change: every live connection hears it as it happens.
  lemma AnnounceStep(s: State, a: Action)
    requires Coherent(s) && PresenceOk(s) && NewEmission(s, a).Some? && !s.hub.Relaying?
    ensures PresenceOk(Step(s, a))
  {
    var t, e := Step(s, a), NewEmission(s, a).value;
    assert a.HubWork?;
    EmissionStep(s, a);
    WorkUsers(s, a);
    if e.event.online { AddingIsFresh(s, a); }
    hide PhasesOk, UsersOk, RoomsOk, NoEmptyBucket, Step, NewEmission, Says, Agrees;
    forall c, u | c in t.conns ensures Agrees(t.conns[c], t.users, u) {
      LiveHear(s, a, c);
      assert Agrees(s.conns[c], s.users, u);
      HearOne(s, t, e, c, u);
    }
  }

  lemma AddingIsFresh(s: State, a: Action)
    requires Coherent(s) && NewEmission(s, a).Some? && !s.hub.Relaying? && NewEmission(s, a).value.event.Presence?
    requires NewEmission(s, a).value.event.online
    ensures s.hub.Adding? && s.hub.conn in s.conns && s.conns[s.hub.conn].status.Fresh?
  {
    hide UsersOk, RoomsOk, NoEmptyBucket, All, Put, Drop;
    assert PhaseOk(s.hub, s.hub.conn, s.conns[s.hub.conn]);
  }

  lemma HearOne(s: State, t: State, e: Emission, c: nat, u: UserId)
    requires c in s.conns && c in t.conns && e.event.Presence? && (s.hub.Adding? || s.hub.Removing?)
    requires Agrees(s.conns[c], s.users, u)
    requires t.conns[c].box ==
      if c in e.to then s.conns[c].box.Push(Stamped(Some(|s.emissions|), e.event), SEND_CAPACITY) else s.conns[c].box
    requires c in e.to <==> t.conns[c].status.Live?
    requires t.users.Keys == if e.event.online then s.users.Keys + {e.event.user} else s.users.Keys - {e.event.user}
    requires if c == s.hub.conn
             then if e.event.online
                  then s.conns[c].status.Fresh? && t.conns[c].status.Live? && t.conns[c].onlineThen == t.users.Keys
                  else t.conns[c].status.Dead?
             else t.conns[c].status == s.conns[c].status && t.conns[c].onlineThen == s.conns[c].onlineThen
    ensures Agrees(t.conns[c], t.users, u)
  {
    hide Says;
    if c in e.to {
      SaysAppend(s.conns[c].box.calls, Stamped(Some(|s.emissions|), e.event), u);
    }
  }

  // A relayed message says nothing about presence.
  lemma RelayStep(s: State, a: Action)
    requires Coherent(s) && PresenceOk(s) && FifoOk(s) && OutsOk(s) && NewEmission(s, a).Some? && s.hub.Relaying?
    ensures PresenceOk(Step(s, a))
  {
    var t, e := Step(s, a), NewEmission(s, a).value;
    assert a.HubWork?;
    EmissionStep(s, a);
    InHandOk(s);
    assert !e.event.Presence?;
    RelayUsers(s, a);
    hide Coherent, Step, NewEmission, Says, FifoOk, OutsOk;
    forall c, u | c in t.conns ensures Agrees(t.conns[c], t.users, u) {
      assert Agrees(s.conns[c], s.users, u);
      if c in e.to { SaysAppend(s.conns[c].box.calls, Stamped(Some(|s.emissions|), e.event), u); }
    }
  }

  lemma RelayUsers(s: State, a: Action)
    requires a.HubWork? && s.hub.Relaying?
    ensures var t := Step(s, a);
      && t.users == s.users && t.conns.Keys == s.conns.Keys
      && forall c :: c in s.conns ==> t.conns[c].(box := s.conns[c].box) == s.conns[c]
  {
    hide Recipients;
  }

  lemma {:induction false} PresenceRun(actions: seq<Action>)
    ensures PresenceOk(Run(Initial, actions))
  {
    if actions != [] {
      hide PresenceOk, Coherent, FifoOk, OutsOk, Step, NewEmission;
      var front, a := actions[..|actions| - 1], actions[|actions| - 1];
      var s := Run(Initial, front);
      PresenceRun(front);
      RunKeeps(front);
      FifoRun(front);
      OutsRun(front);
      if NewEmission(s, a).None? { QuietStep(s, a); }
      else if s.hub.Relaying? { RelayStep(s, a); }
      else { AnnounceStep(s, a); }
    }
  }

  // Presence agreement, end to end. For a connection that is live and lost nothing, the browser's
  // presence map shows for each user it mentions whether that user is in the hub's index; a user
  // it does not mention is online exactly if it was when the connection was registered.
  lemma PresenceAgreement(actions: seq<Action>, c: nat, u: UserId)
    requires var s := Run(Initial, actions); c in s.conns && s.conns[c].status.Live? && s.conns[c].box.Lossless()
    ensures var s := Run(Initial, actions);
      var shown := Fold(s.conns[c].user, Empty, EventsOf(s.conns[c].box.accepted)).presence;
      if u in shown then shown[u] == (u in s.users)
      else u in s.users <==> u in s.conns[c].onlineThen
  {
    PresenceRun(actions);
    CallsRun(actions);
    hide Run, Fold, SaysOnline, EventsOf, HubPart, Mine;
    var s := Run(Initial, actions);
    var k := s.conns[c];
    LosslessIsExact(k.box, SEND_CAPACITY);
    PresenceIs(k.user, EventsOf(k.box.accepted), u);
    assert Agrees(k, s.users, u);
  }
}
