// The hub's two indexes agree with the connections under every interleaving, the hub never
// gets stuck, and a lock holder never waits.
module HubIndex {
  import opened Text
  import opened HubModel
  import opened HubSystem

  // ---- The invariant

  // The hub's goroutine, the read loop and the status tell one story about c.
  predicate PhaseOk(hub: HubPc, c: nat, k: Conn) {
    && (hub == Adding(c) <==> k.status.Fresh? && !k.pc.Registering?)
    && (hub == Removing(c) <==> k.status.Live? && k.pc.Gone?)
    && (k.pc.Registering? ==> k.status.Fresh? && k.rooms == {})
    && (k.status.Dead? ==> k.pc.Gone?) && (k.pc.Gone? ==> !k.status.Fresh?)
    && (k.pc.Unsubscribing? ==> k.pc.room !in k.rooms)
  }

  predicate Locking(pc: ConnPc) {
    pc.Subscribing? || pc.Unsubscribing?
  }

  ghost predicate PhasesOk(s: State) {
    && (forall c :: c in s.conns ==> PhaseOk(s.hub, c, s.conns[c]))
    && (s.hub.Adding? || s.hub.Removing? ==> s.hub.conn in s.conns)
    && (s.lock == Some(TheHub) ==> !s.hub.Idle?)
    && (forall c :: s.lock == Some(AConn(c)) ==> c in s.conns && Locking(s.conns[c].pc))
  }

  predicate LiveAs(conns: map<nat, Conn>, u: UserId, c: nat) {
    c in conns && conns[c].user == u && conns[c].status.Live?
  }

  // users holds exactly the connections between addConn and removeConn.
  ghost predicate UsersOk(s: State) {
    forall u, c :: In(s.users, u, c) <==> LiveAs(s.conns, u, c)
  }

  // Rooms c must be subscribed to, and rooms it may be: they differ by the one in flight.
  predicate Must(conns: map<nat, Conn>, r: RoomId, c: nat) {
    c in conns && !conns[c].status.Dead? && (r in conns[c].rooms || conns[c].pc == Subscribed(r))
  }

  predicate May(conns: map<nat, Conn>, r: RoomId, c: nat) {
    c in conns && !conns[c].status.Dead?
    && (r in conns[c].rooms || conns[c].pc == Subscribed(r) || conns[c].pc == Unsubscribing(r))
  }

  ghost predicate RoomsOk(s: State) {
    forall r, c :: (Must(s.conns, r, c) ==> In(s.rooms, r, c)) && (In(s.rooms, r, c) ==> May(s.conns, r, c))
  }

  ghost predicate Coherent(s: State) {
    PhasesOk(s) && UsersOk(s) && RoomsOk(s) && NoEmptyBucket(s.users) && NoEmptyBucket(s.rooms)
  }

  // ---- Steps of one connection that touch no index

  predicate Compatible(k: Conn, k': Conn) {
    && k'.user == k.user && k'.status == k.status
    && (k'.pc.Gone? <==> k.pc.Gone?) && (k'.pc.Registering? <==> k.pc.Registering?)
    && (k.pc.Registering? ==> k'.rooms == k.rooms)
    && (k'.pc.Unsubscribing? ==> k'.pc.room !in k'.rooms)
  }

  lemma ConnStep(s: State, t: State, c: nat, k': Conn)
    requires Coherent(s) && c in s.conns && Compatible(s.conns[c], k')
    requires t.users == s.users && t.rooms == s.rooms && t.hub == s.hub && t.lock == s.lock
    requires t.conns == s.conns[c := k']
    requires s.lock == Some(AConn(c)) ==> Locking(k'.pc)
    requires forall r :: (Must(t.conns, r, c) ==> Must(s.conns, r, c)) && (May(s.conns, r, c) ==> May(t.conns, r, c))
    ensures Coherent(t)
  {
    hide In;
    assert PhaseOk(s.hub, c, s.conns[c]);
    forall u, x ensures In(t.users, u, x) <==> LiveAs(t.conns, u, x) {
      assert In(s.users, u, x) <==> LiveAs(s.conns, u, x);
    }
    forall r, x ensures (Must(t.conns, r, x) ==> In(t.rooms, r, x)) && (In(t.rooms, r, x) ==> May(t.conns, r, x)) {
      assert (Must(s.conns, r, x) ==> In(s.rooms, r, x)) && (In(s.rooms, r, x) ==> May(s.conns, r, x));
    }
  }

  lemma HandleKeeps(s: State, c: nat, e: ClientEvent, reply: StoreReply)
    requires Coherent(s) && c in s.conns && s.conns[c].pc.Reading?
    ensures Coherent(Handle(s, c, e, reply))
  {
    var t := Handle(s, c, e, reply);
    HandleShape(s, c, e, reply);
    hide Handle, Trim, UsersOk, RoomsOk, NoEmptyBucket;
    ConnStep(s, t, c, t.conns[c]);
  }

  lemma HandleShape(s: State, c: nat, e: ClientEvent, reply: StoreReply)
    requires c in s.conns && s.conns[c].pc.Reading?
    ensures var t := Handle(s, c, e, reply);
      && t.users == s.users && t.rooms == s.rooms && t.hub == s.hub && t.lock == s.lock && t.queue == s.queue
      && t.enqueued == s.enqueued && t.emissions == s.emissions
      && c in t.conns && t.conns == s.conns[c := t.conns[c]]
      && Compatible(s.conns[c], t.conns[c])
      && t.conns[c].start == s.conns[c].start && t.conns[c].onlineThen == s.conns[c].onlineThen
      && (forall r :: (Must(t.conns, r, c) ==> Must(s.conns, r, c)) && (May(s.conns, r, c) ==> May(t.conns, r, c)))
  {
    hide Trim;
  }

  // ---- Steps that touch the room index

  lemma ConnWorkKeeps(s: State, c: nat)
    requires Coherent(s)
    ensures Coherent(Step(s, ConnWork(c)))
  {
    if c in s.conns && s.lock == Some(AConn(c)) {
      var k := s.conns[c];
      assert PhaseOk(s.hub, c, k);
      match k.pc
      case Subscribing(r) =>
        PutIs(s.rooms, r, c);
        RoomStep(s, Step(s, ConnWork(c)), c, r, k.(pc := Subscribed(r)));
      case Unsubscribing(r) =>
        DropIs(s.rooms, r, c);
        RoomStep(s, Step(s, ConnWork(c)), c, r, k.(pc := Reading));
      case _ =>
    }
  }

  lemma RoomStep(s: State, t: State, c: nat, r: RoomId, k': Conn)
    requires Coherent(s) && c in s.conns && Compatible(s.conns[c], k') && k'.rooms == s.conns[c].rooms
    requires t.users == s.users && t.hub == s.hub && t.lock == None && t.conns == s.conns[c := k']
    requires NoEmptyBucket(t.rooms)
    requires
      || (s.conns[c].pc == Subscribing(r) && k'.pc == Subscribed(r)
          && forall j, x :: In(t.rooms, j, x) <==> In(s.rooms, j, x) || (j == r && x == c))
      || (s.conns[c].pc == Unsubscribing(r) && k'.pc == Reading && r !in k'.rooms
          && forall j, x :: In(t.rooms, j, x) <==> In(s.rooms, j, x) && !(j == r && x == c))
    ensures Coherent(t)
  {
    hide In, NoEmptyBucket;
    assert PhaseOk(s.hub, c, s.conns[c]);
    forall u, x ensures In(t.users, u, x) <==> LiveAs(t.conns, u, x) {
      assert In(s.users, u, x) <==> LiveAs(s.conns, u, x);
    }
    forall j, x ensures (Must(t.conns, j, x) ==> In(t.rooms, j, x)) && (In(t.rooms, j, x) ==> May(t.conns, j, x)) {
      assert (Must(s.conns, j, x) ==> In(s.rooms, j, x)) && (In(s.rooms, j, x) ==> May(s.conns, j, x));
    }
  }

  // ---- Steps of the hub

  // Posting to the channels leaves everything but the boxes alone.
  predicate OnlyBoxes(conns: map<nat, Conn>, conns': map<nat, Conn>) {
    && conns'.Keys == conns.Keys
    && forall c :: c in conns ==> conns'[c].(box := conns[c].box) == conns[c]
  }

  lemma BoxesDoNotMatter(s: State, t: State)
    requires Coherent(s) && t.users == s.users && t.rooms == s.rooms && t.hub == s.hub && t.lock == s.lock
    requires OnlyBoxes(s.conns, t.conns)
    ensures Coherent(t)
  {
    hide In, NoEmptyBucket;
    forall c | c in t.conns ensures PhaseOk(t.hub, c, t.conns[c]) {
      assert PhaseOk(s.hub, c, s.conns[c]);
    }
    forall u, x ensures In(t.users, u, x) <==> LiveAs(t.conns, u, x) {
      assert In(s.users, u, x) <==> LiveAs(s.conns, u, x);
    }
    forall r, x ensures (Must(t.conns, r, x) ==> In(t.rooms, r, x)) && (In(t.rooms, r, x) ==> May(t.conns, r, x)) {
      assert (Must(s.conns, r, x) ==> In(s.rooms, r, x)) && (In(s.rooms, r, x) ==> May(s.conns, r, x));
    }
  }

  // The hub moves between its channels and its lock section.
  lemma HubStep(s: State, t: State, c: nat, k': Conn)
    requires Coherent(s) && c in s.conns
    requires t.users == s.users && t.rooms == s.rooms && t.lock == s.lock && t.conns == s.conns[c := k']
    requires s.hub.Idle?
    requires
      || (s.conns[c].pc.Registering? && t.hub == Adding(c) && k' == s.conns[c].(pc := Reading))
      || (s.conns[c].pc.Unregistering? && t.hub == Removing(c) && k' == s.conns[c].(pc := Gone))
    ensures Coherent(t)
  {
    hide In, NoEmptyBucket;
    forall x | x in t.conns ensures PhaseOk(t.hub, x, t.conns[x]) {
      assert PhaseOk(s.hub, x, s.conns[x]);
    }
    forall u, x ensures In(t.users, u, x) <==> LiveAs(t.conns, u, x) {
      assert In(s.users, u, x) <==> LiveAs(s.conns, u, x);
    }
    forall r, x ensures (Must(t.conns, r, x) ==> In(t.rooms, r, x)) && (In(t.rooms, r, x) ==> May(t.conns, r, x)) {
      assert (Must(s.conns, r, x) ==> In(s.rooms, r, x)) && (In(s.rooms, r, x) ==> May(s.conns, r, x));
    }
  }

  // Only the hub's program counter, not about any connection, or the lock changes.
  lemma IdleStep(s: State, t: State)
    requires Coherent(s) && t.users == s.users && t.rooms == s.rooms && t.conns == s.conns
    requires t.hub == s.hub || (!s.hub.Adding? && !s.hub.Removing? && !t.hub.Adding? && !t.hub.Removing?)
    requires t.lock == Some(TheHub) ==> !t.hub.Idle?
    requires forall c :: t.lock == Some(AConn(c)) ==> c in s.conns && Locking(s.conns[c].pc)
    ensures Coherent(t)
  {
    hide In, NoEmptyBucket;
    forall x | x in t.conns ensures PhaseOk(t.hub, x, t.conns[x]) {
      assert PhaseOk(s.hub, x, s.conns[x]);
    }
  }

  lemma AddIndexKeeps(s: State, c: nat, k': Conn, users: Buckets<nat>)
    requires Coherent(s) && s.hub == Adding(c) && s.lock == Some(TheHub) && users == Put(s.users, s.conns[c].user, c)
    requires k'.(status := Fresh) == s.conns[c].(start := k'.start, onlineThen := k'.onlineThen) && k'.status.Live?
    ensures Coherent(s.(users := users, conns := s.conns[c := k'], hub := Idle, lock := None))
  {
    PutIs(s.users, s.conns[c].user, c);
    hide In, NoEmptyBucket, Put;
    var t := s.(users := users, conns := s.conns[c := k'], hub := Idle, lock := None);
    forall x | x in t.conns ensures PhaseOk(t.hub, x, t.conns[x]) {
      assert PhaseOk(s.hub, x, s.conns[x]);
    }
    forall u, x ensures In(t.users, u, x) <==> LiveAs(t.conns, u, x) {
      assert In(s.users, u, x) <==> LiveAs(s.conns, u, x);
    }
    forall r, x ensures (Must(t.conns, r, x) ==> In(t.rooms, r, x)) && (In(t.rooms, r, x) ==> May(t.conns, r, x)) {
      assert (Must(s.conns, r, x) ==> In(s.rooms, r, x)) && (In(s.rooms, r, x) ==> May(s.conns, r, x));
    }
  }

  lemma RemoveIndexKeeps(s: State, c: nat)
    requires Coherent(s) && s.hub == Removing(c) && s.lock == Some(TheHub)
    ensures Coherent(s.(users := Drop(s.users, s.conns[c].user, c), rooms := Purge(s.rooms, c),
                        conns := s.conns[c := s.conns[c].(status := Dead)], hub := Idle, lock := None))
  {
    DropIs(s.users, s.conns[c].user, c);
    PurgeIs(s.rooms, c);
    hide In, NoEmptyBucket, Drop, Purge;
    var t := s.(users := Drop(s.users, s.conns[c].user, c), rooms := Purge(s.rooms, c),
                conns := s.conns[c := s.conns[c].(status := Dead)], hub := Idle, lock := None);
    forall x | x in t.conns ensures PhaseOk(t.hub, x, t.conns[x]) {
      assert PhaseOk(s.hub, x, s.conns[x]);
    }
    forall u, x ensures In(t.users, u, x) <==> LiveAs(t.conns, u, x) {
      assert In(s.users, u, x) <==> LiveAs(s.conns, u, x);
    }
    forall r, x ensures (Must(t.conns, r, x) ==> In(t.rooms, r, x)) && (In(t.rooms, r, x) ==> May(t.conns, r, x)) {
      assert (Must(s.conns, r, x) ==> In(s.rooms, r, x)) && (In(s.rooms, r, x) ==> May(s.conns, r, x));
    }
  }

  lemma HubWorkKeeps(s: State)
    requires Coherent(s) && s.lock == Some(TheHub)
    ensures Coherent(WorkOf(s).(hub := Idle, lock := None))
  {
    var t := WorkOf(s).(hub := Idle, lock := None);
    hide In, NoEmptyBucket, Put, Drop, Purge, All, UsersOk, RoomsOk, Post;
    match s.hub
    case Idle =>
    case Adding(c) =>
      var k' := s.conns[c].(status := Live, start := |s.emissions|,
        onlineThen := Put(s.users, s.conns[c].user, c).Keys);
      AddIndexKeeps(s, c, k', Put(s.users, s.conns[c].user, c));
      SectionIsEmit(s.(users := Put(s.users, s.conns[c].user, c), conns := s.conns[c := k'], hub := Idle,
        lock := None), t);
    case Removing(c) =>
      RemoveIndexKeeps(s, c);
      SectionIsEmit(s.(users := Drop(s.users, s.conns[c].user, c), rooms := Purge(s.rooms, c),
                       conns := s.conns[c := s.conns[c].(status := Dead)], hub := Idle, lock := None), t);
    case Relaying(m) =>
      IdleStep(s, s.(hub := Idle, lock := None));
      SectionIsEmit(s.(hub := Idle, lock := None), t);
  }

  lemma SectionIsEmit(s: State, t: State)
    requires Coherent(s) && t.users == s.users && t.rooms == s.rooms && t.hub == s.hub && t.lock == s.lock
    requires t.conns == s.conns || exists to, e :: t.conns == Post(s.conns, to, e)
    ensures Coherent(t)
  {
    if t.conns != s.conns {
      var to, e :| t.conns == Post(s.conns, to, e);
      PostOnlyBoxes(s.conns, to, e);
    }
    BoxesDoNotMatter(s, t);
  }

  lemma PostOnlyBoxes(conns: map<nat, Conn>, to: set<nat>, e: Stamped)
    ensures OnlyBoxes(conns, Post(conns, to, e))
  {}

  // ---- Every step, every run

  lemma ConnectKeeps(s: State, c: nat, user: UserId)
    requires Coherent(s) && c !in s.conns
    ensures Coherent(Step(s, Connect(c, user)))
  {
    hide In, NoEmptyBucket;
    var t := Step(s, Connect(c, user));
    forall x | x in t.conns ensures PhaseOk(t.hub, x, t.conns[x]) {
      if x != c { assert PhaseOk(s.hub, x, s.conns[x]); }
    }
    forall u, x ensures In(t.users, u, x) <==> LiveAs(t.conns, u, x) {
      assert In(s.users, u, x) <==> LiveAs(s.conns, u, x);
    }
    forall r, x ensures (Must(t.conns, r, x) ==> In(t.rooms, r, x)) && (In(t.rooms, r, x) ==> May(t.conns, r, x)) {
      assert (Must(s.conns, r, x) ==> In(s.rooms, r, x)) && (In(s.rooms, r, x) ==> May(s.conns, r, x));
    }
  }

  // The steps a read loop or a write loop takes without the lock.
  lemma ReadLoopKeeps(s: State, a: Action)
    requires Coherent(s) && (a.Receive? || a.Joined? || a.Push? || a.HangUp? || a.Written?) && a.c in s.conns
    ensures Coherent(Step(s, a))
  {
    var t, c := Step(s, a), a.c;
    if a.Receive? {
      hide Coherent, Handle;
      if s.conns[c].pc.Reading? { HandleKeeps(s, c, a.event, a.reply); }
    } else {
      assert PhaseOk(s.hub, c, s.conns[c]);
      hide UsersOk, RoomsOk, NoEmptyBucket, Handle;
      if t != s {
        ReadLoopShape(s, a);
        ConnStep(s, t, c, t.conns[c]);
      }
    }
  }

  lemma ReadLoopShape(s: State, a: Action)
    requires (a.Joined? || a.Push? || a.HangUp? || a.Written?) && a.c in s.conns && Step(s, a) != s
    requires PhaseOk(s.hub, a.c, s.conns[a.c])
    ensures var t, c := Step(s, a), a.c;
      && t.users == s.users && t.rooms == s.rooms && t.hub == s.hub && t.lock == s.lock && t.emissions == s.emissions
      && c in t.conns && t.conns == s.conns[c := t.conns[c]] && Compatible(s.conns[c], t.conns[c])
      && t.conns[c].start == s.conns[c].start && t.conns[c].onlineThen == s.conns[c].onlineThen
      && (forall r :: (Must(t.conns, r, c) ==> Must(s.conns, r, c)) && (May(s.conns, r, c) ==> May(t.conns, r, c)))
      && (Locking(s.conns[c].pc) ==> Locking(t.conns[c].pc))
  {}

  lemma StepKeeps(s: State, a: Action)
    requires Coherent(s)
    ensures Coherent(Step(s, a))
  {
    match a
    case Connect(c, user) => if c !in s.conns { ConnectKeeps(s, c, user); }
    case TakeRegister(c) =>
      if s.hub.Idle? && c in s.conns && s.conns[c].pc.Registering? {
        HubStep(s, Step(s, a), c, s.conns[c].(pc := Reading));
      }
    case TakeUnregister(c) =>
      if s.hub.Idle? && c in s.conns && s.conns[c].pc.Unregistering? {
        HubStep(s, Step(s, a), c, s.conns[c].(pc := Gone));
      }
    case TakeBroadcast => hide UsersOk, RoomsOk; IdleStep(s, Step(s, a));
    case HubLock => hide UsersOk, RoomsOk; IdleStep(s, Step(s, a));
    case ConnLock(c) => hide UsersOk, RoomsOk; IdleStep(s, Step(s, a));
    case HubWork =>
      hide UsersOk, RoomsOk, WorkOf;
      if s.lock == Some(TheHub) { HubWorkKeeps(s); }
    case ConnWork(c) => hide Coherent, Step; ConnWorkKeeps(s, c);
    case _ => hide Coherent; if a.c in s.conns { ReadLoopKeeps(s, a); }
  }

  // The indexes are coherent after every run.
  lemma {:induction false} RunKeeps(actions: seq<Action>)
    ensures Coherent(Run(Initial, actions))
  {
    if actions != [] {
      hide Coherent, Step;
      RunKeeps(actions[..|actions| - 1]);
      StepKeeps(Run(Initial, actions[..|actions| - 1]), actions[|actions| - 1]);
    }
  }

  // What coherence says about one connection: no empty bucket is stored; while it is not removed,
  // its own room set and the rooms it is subscribed to differ at most by the one in flight;
  // once removed it is in no bucket.
  lemma IndexOf(actions: seq<Action>, c: nat)
    requires c in Run(Initial, actions).conns
    ensures var s := Run(Initial, actions);
      && NoEmptyBucket(s.users) && NoEmptyBucket(s.rooms)
      && (forall u :: In(s.users, u, c) <==> s.conns[c].user == u && s.conns[c].status.Live?)
      && (!s.conns[c].status.Dead? ==>
            forall r :: (r in s.conns[c].rooms ==> In(s.rooms, r, c))
                     && (In(s.rooms, r, c) ==> r in s.conns[c].rooms || InFlight(s.conns[c].pc, r)))
      && (s.conns[c].status.Dead? ==> forall r :: !In(s.rooms, r, c))
  {
    RunKeeps(actions);
    hide Run, In, NoEmptyBucket, PhasesOk;
    var s := Run(Initial, actions);
    forall u ensures In(s.users, u, c) <==> s.conns[c].user == u && s.conns[c].status.Live? {
      assert In(s.users, u, c) <==> LiveAs(s.conns, u, c);
    }
    forall r ensures (Must(s.conns, r, c) ==> In(s.rooms, r, c)) && (In(s.rooms, r, c) ==> May(s.conns, r, c)) {}
  }

  predicate InFlight(pc: ConnPc, r: RoomId) {
    pc == Subscribed(r) || pc == Unsubscribing(r)
  }

  // When the hub gets to removing c, scanning all rooms and dropping c from just its own rooms agree.
  lemma FullScanIsLocal(actions: seq<Action>)
    requires Run(Initial, actions).hub.Removing?
    ensures var s := Run(Initial, actions);
      && s.hub.conn in s.conns
      && Purge(s.rooms, s.hub.conn) == PurgeOnly(s.rooms, s.hub.conn, s.conns[s.hub.conn].rooms)
  {
    RunKeeps(actions);
    hide Run, UsersOk, NoEmptyBucket;
    var s := Run(Initial, actions);
    var c := s.hub.conn;
    assert PhaseOk(s.hub, c, s.conns[c]);
    forall r | In(s.rooms, r, c) ensures r in s.conns[c].rooms {
      assert May(s.conns, r, c);
    }
    PurgeOnlyIs(s.rooms, c, s.conns[c].rooms);
  }

  // A removed connection stays removed: no later step of anyone brings it back.
  lemma {:induction false} DeadForever(actions: seq<Action>, later: seq<Action>, c: nat)
    requires c in Run(Initial, actions).conns && Run(Initial, actions).conns[c].status.Dead?
    ensures c in Run(Initial, actions + later).conns && Run(Initial, actions + later).conns[c].status.Dead?
  {
    hide Step, Coherent;
    if later == [] {
      assert actions + later == actions;
    } else {
      var all := actions + later;
      var before := actions + later[..|later| - 1];
      assert all[..|all| - 1] == before;
      DeadForever(actions, later[..|later| - 1], c);
      RunKeeps(before);
      StatusStep(Run(Initial, before), all[|all| - 1], c);
    }
  }

  // A connection keeps its user, and its status only moves on: by addConn, then by removeConn.
  lemma StatusStep(s: State, a: Action, c: nat)
    requires Coherent(s) && c in s.conns
    ensures var t := Step(s, a);
      && c in t.conns && t.conns[c].user == s.conns[c].user
      && (t.conns[c].status == s.conns[c].status
          || (a.HubWork? && s.hub == Adding(c) && s.conns[c].status.Fresh? && t.conns[c].status.Live?)
          || (a.HubWork? && s.hub == Removing(c) && s.conns[c].status.Live? && t.conns[c].status.Dead?))
  {
    hide UsersOk, RoomsOk, NoEmptyBucket, Put, Drop, Purge, All, Recipients;
    assert PhaseOk(s.hub, c, s.conns[c]);
    if a.Receive? {
      if a.c in s.conns && s.conns[a.c].pc.Reading? {
        HandleShape(s, a.c, a.event, a.reply);
        hide Handle;
      }
    } else if a.HubWork? {
      WorkStatus(s, c);
    }
  }

  lemma WorkStatus(s: State, c: nat)
    requires c in s.conns && (s.hub.Adding? || s.hub.Removing? ==> s.hub.conn in s.conns)
    ensures var t := WorkOf(s);
      && c in t.conns && t.conns[c].user == s.conns[c].user
      && t.conns[c].status ==
           if s.hub == Adding(c) then Live else if s.hub == Removing(c) then Dead else s.conns[c].status
  {
    hide Put, Drop, Purge, All, Recipients;
  }

  // ---- Progress

  // A connection that waits for the hub.
  predicate Blocked(s: State, c: nat) {
    && c in s.conns
    && (s.conns[c].pc.Registering? || s.conns[c].pc.Unregistering?
        || (s.conns[c].pc.Sending? && |s.queue| >= BROADCAST_CAPACITY))
  }

  // The step the hub, or whoever holds its lock, can take next. None when the hub waits on
  // its channels and the broadcast channel is empty.
  function NextStep(s: State): Option<Action> {
    match s.lock
    case Some(AConn(c)) => Some(ConnWork(c))
    case Some(TheHub) => Some(HubWork)
    case None =>
      if !s.hub.Idle? then Some(HubLock)
      else if s.queue != [] then Some(TakeBroadcast)
      else None
  }

  // How many such steps are left.
  function Work(s: State): nat {
    3 * |s.queue|
    + (if s.hub.Idle? then 0 else if s.lock == Some(TheHub) then 1 else 2)
    + (if s.lock.Some? && s.lock.value.AConn? then 1 else 0)
  }

  // That step is enabled and uses up one unit of work: no lock holder waits on a channel.
  lemma NextStepWorks(s: State)
    requires Coherent(s) && NextStep(s).Some?
    ensures Work(Step(s, NextStep(s).value)) == Work(s) - 1
  {
    hide UsersOk, RoomsOk, NoEmptyBucket, Put, Drop, Purge, All, Recipients, Handle;
    if s.lock == Some(TheHub) { WorkQueue(s); }
  }

  lemma WorkQueue(s: State)
    requires s.hub.Adding? || s.hub.Removing? ==> s.hub.conn in s.conns
    ensures WorkOf(s).queue == s.queue
  {
    hide Put, Drop, Purge, All, Recipients;
  }

  // Connections that are not in a lock section stay where they are.
  ghost predicate OthersWait(s: State, t: State) {
    forall c :: c in s.conns && !Locking(s.conns[c].pc) ==> c in t.conns && t.conns[c].pc == s.conns[c].pc
  }

  lemma NextStepWaits(s: State)
    requires Coherent(s) && NextStep(s).Some?
    ensures OthersWait(s, Step(s, NextStep(s).value))
  {
    hide UsersOk, RoomsOk, NoEmptyBucket, Put, Drop, Purge, All, Recipients, Handle, WorkOf;
    if s.lock == Some(TheHub) { WorkWaits(s); }
  }

  lemma WorkWaits(s: State)
    requires s.hub.Adding? || s.hub.Removing? ==> s.hub.conn in s.conns
    ensures OthersWait(s, WorkOf(s))
  {
    hide Put, Drop, Purge, All, Recipients;
  }

  // Letting only the hub and lock holders run.
  function Drain(s: State): (actions: seq<Action>)
    requires Coherent(s)
    ensures |actions| == Work(s)
    ensures var t := Run(s, actions); Coherent(t) && t.hub.Idle? && t.lock.None? && t.queue == []
    ensures OthersWait(s, Run(s, actions))
    decreases Work(s)
  {
    var next := NextStep(s);
    if next.None? then []
    else
      NextStepWorks(s);
      NextStepWaits(s);
      StepKeeps(s, next.value);
      var t := Step(s, next.value);
      var rest := Drain(t);
      RunOne(s, next.value);
      RunAppend(s, [next.value], rest);
      [next.value] + rest
  }

  lemma RunOne(s: State, a: Action)
    ensures Run(s, [a]) == Step(s, a)
  {
    assert [a][..0] == [];
  }

  // In every reachable state a blocked connection is not stuck: the hub or a lock holder can take
  // a step, or the hub is ready to receive from that very connection.
  lemma NobodyIsStuck(actions: seq<Action>, c: nat)
    requires Blocked(Run(Initial, actions), c)
    ensures var s := Run(Initial, actions);
      || (NextStep(s).Some? && Work(Step(s, NextStep(s).value)) < Work(s))
      || (s.conns[c].pc.Registering? && Step(s, TakeRegister(c)).hub == Adding(c))
      || (s.conns[c].pc.Unregistering? && Step(s, TakeUnregister(c)).hub == Removing(c))
  {
    RunKeeps(actions);
    hide Run, Coherent, Work;
    var s := Run(Initial, actions);
    if NextStep(s).Some? {
      NextStepWorks(s);
    }
  }

  // After at most Work(s) steps of the hub and lock holders alone, whoever was blocked can go on:
  // a sender finds room in the channel, the others find the hub ready to receive.
  lemma BlockedIsServed(actions: seq<Action>, c: nat)
    requires Blocked(Run(Initial, actions), c)
    ensures Coherent(Run(Initial, actions))
    ensures var s := Run(Initial, actions);
      var t := Run(s, Drain(s));
      && |Drain(s)| <= 3 * |s.queue| + 3
      && c in t.conns && t.conns[c].pc == s.conns[c].pc
      && match s.conns[c].pc
         case Registering => Step(t, TakeRegister(c)).hub == Adding(c)
         case Unregistering => Step(t, TakeUnregister(c)).hub == Removing(c)
         case _ => !Blocked(t, c)
  {
    RunKeeps(actions);
    hide Run, Coherent, Drain;
  }
}
