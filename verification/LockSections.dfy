// The TCP chat server under every interleaving. One step is one region between taking and
// releasing a lock; each client's read loop has a program counter, and its removal may strike
// at any time from another goroutine. Rooms are objects with an identity of their own:
// a key can be registered, deleted and registered again with a different object.
module LockSections {
  import opened Text

  // The room every client enters first, and whether cleanup spares it, which it does if the
  // configured name is trimmed. NoLobby when that name is refused.
  datatype Lobby = NoLobby | Lobby(key: string, kept: bool)

  datatype Config = Config(limit: nat, lobby: Lobby) {
    predicate Spares(key: string) {
      lobby.Lobby? && lobby.kept && key == lobby.key
    }
  }

  // Steps are numbered; a stamp is the number of the step that made it.
  datatype LookUp = LookUp(at: nat, to: set<nat>)

  // A stored message: who posted it, when it was appended, and the recipients its poster saw, once they
  // were looked up.
  datatype Post = Post(from: nat, appended: nat, lookUp: Option<LookUp>)

  datatype Room = Room(key: string, members: set<nat>, log: seq<Post>)

  // Where a client's read loop stands.
  datatype Pc =
    | Starting                                     // about to join the lobby
    | Ready
    | Moved(room: nat, previous: Option<nat>)      // moveClientRoom done, history not yet read
    | Greeted(previous: Option<nat>)               // replay sent, cleanup not yet considered
    | Cleaning(room: nat)                          // saw the room empty, without the server's lock
    | Speaking(room: nat)                          // roomForClient done
    | Posted(room: nat, index: nat)                // AppendHistory done, recipients not yet looked up

  // What a member was replayed of the room's log: entries lo to hi, which ended there at that step.
  datatype Replay = Pending | Read(at: nat, lo: nat, hi: nat)

  datatype Visit = Visit(joined: nat, replay: Replay)

  // visits holds an entry for every room object the client is a member of.
  datatype Thread = Thread(cached: string, pc: Pc, visits: map<nat, Visit>, removed: bool)

  datatype State = State(registered: map<string, nat>, rooms: seq<Room>, threads: map<nat, Thread>, clock: nat)

  const Initial := State(map[], [], map[], 0)

  datatype Action =
    | Start(c: nat)
    | Move(c: nat, key: string)
    | Replayed(c: nat)
    | CheckCleanup(c: nat)
    | Cleanup(c: nat)
    | Find(c: nat)
    | Append(c: nat)
    | Snapshot(c: nat)
    | Remove(c: nat)

  // ---- The steps

  ghost predicate Indexed(s: State) {
    forall k :: k in s.registered ==> s.registered[k] < |s.rooms| && s.rooms[s.registered[k]].key == k
  }

  ghost predicate Wf(s: State) {
    Indexed(s) && forall c :: c in s.threads ==> PcOk(s, s.threads[c].pc)
  }

  predicate PcOk(s: State, pc: Pc) {
    match pc
    case Moved(r, p) => r < |s.rooms| && (p.Some? ==> p.value < |s.rooms|)
    case Greeted(p) => p.Some? ==> p.value < |s.rooms|
    case Cleaning(r) => r < |s.rooms|
    case Speaking(r) => r < |s.rooms|
    case Posted(r, i) => r < |s.rooms| && i < |s.rooms[r].log|
    case _ => true
  }

  // The room registered under key, created if there is none.
  function OpenRoom(s: State, key: string): State {
    if key in s.registered then s
    else s.(registered := s.registered[key := |s.rooms|], rooms := s.rooms + [Room(key, {}, [])])
  }

  // The registered room that c's cached key names, if any.
  function Current(s: State, c: nat): Option<nat>
    requires c in s.threads
  {
    var k := s.threads[c].cached;
    if k != "" && k in s.registered then Some(s.registered[k]) else None
  }

  // c is taken out of the room its cached key names.
  function LeaveCurrent(s: State, c: nat): State
    requires Indexed(s) && c in s.threads
  {
    var current := Current(s, c);
    if current.None? then s
    else
      var r := current.value;
      s.(rooms := s.rooms[r := s.rooms[r].(members := s.rooms[r].members - {c})],
         threads := s.threads[c := s.threads[c].(visits := s.threads[c].visits - {r})])
  }

  function EnterRoom(s: State, c: nat, key: string, previous: Option<nat>): State
    requires Indexed(s) && c in s.threads && key in s.registered
  {
    var r := s.registered[key];
    var me := s.threads[c];
    s.(rooms := s.rooms[r := s.rooms[r].(members := s.rooms[r].members + {c})],
        threads := s.threads[c := me.(cached := key, pc := Moved(r, previous),
                                      visits := me.visits[r := Visit(s.clock, Pending)])])
  }

  // The section of moveClientRoom. The room is created before the already-there test.
  function MoveSection(s: State, c: nat, key: string): State
    requires Indexed(s) && c in s.threads
  {
    var s1 := OpenRoom(s, key);
    if s.threads[c].cached == key then s1
    else EnterRoom(LeaveCurrent(s1, c), c, key, Current(s1, c))
  }

  // The section of removeClient: the cached key stays behind.
  function RemoveSection(cfg: Config, s: State, c: nat): State
    requires Indexed(s) && c in s.threads
  {
    var current := Current(s, c);
    var s1 := LeaveCurrent(s, c);
    var s2 := if current.Some? && s1.rooms[current.value].members == {} && !cfg.Spares(s1.rooms[current.value].key)
              then s1.(registered := s1.registered - {s.threads[c].cached}) else s1;
    s2.(threads := s2.threads[c := s2.threads[c].(removed := true)])
  }

  function SetPc(s: State, c: nat, pc: Pc): State
    requires c in s.threads
  {
    s.(threads := s.threads[c := s.threads[c].(pc := pc)])
  }

  function Begin(cfg: Config): Thread {
    Thread("", if cfg.lobby.Lobby? then Starting else Ready, map[], false)
  }

  // The history that survived the limit when the log had length hi.
  function Kept(cfg: Config, hi: nat): nat {
    if hi > cfg.limit then hi - cfg.limit else 0
  }

  // A client that starts can only go to the lobby; afterwards its input leads anywhere.
  predicate MayMove(cfg: Config, pc: Pc, key: string) {
    key != "" && (pc.Ready? || (pc.Starting? && cfg.lobby.Lobby? && key == cfg.lobby.key))
  }

  // A disabled action does nothing.
  function Act(cfg: Config, s: State, a: Action): State
    requires Wf(s)
  {
    if a.Start? then
      if a.c in s.threads then s else s.(threads := s.threads[a.c := Begin(cfg)])
    else if a.c !in s.threads then s
    else
      var me := s.threads[a.c];
      match a
      case Move(c, key) => if MayMove(cfg, me.pc, key) then MoveSection(s, c, key) else s
      case Replayed(c) =>
        if !me.pc.Moved? then s
        else
          var r, hi := me.pc.room, |s.rooms[me.pc.room].log|;
          var seen := Read(s.clock, Kept(cfg, hi), hi);
          var visits := if r in me.visits then me.visits[r := me.visits[r].(replay := seen)] else me.visits;
          s.(threads := s.threads[c := me.(pc := Greeted(me.pc.previous), visits := visits)])
      case CheckCleanup(c) =>
        if !me.pc.Greeted? then s
        else if me.pc.previous.None? || cfg.Spares(s.rooms[me.pc.previous.value].key) ||
                s.rooms[me.pc.previous.value].members != {}
        then SetPc(s, c, Ready)
        else SetPc(s, c, Cleaning(me.pc.previous.value))
      case Cleanup(c) =>
        if !me.pc.Cleaning? then s
        else
          var r := s.rooms[me.pc.room];
          SetPc(if r.members == {} then s.(registered := s.registered - {r.key}) else s, c, Ready)
      case Find(c) =>
        if me.pc.Ready? && me.cached != "" && me.cached in s.registered
        then SetPc(s, c, Speaking(s.registered[me.cached])) else s
      case Append(c) =>
        if !me.pc.Speaking? then s
        else
          var r := me.pc.room;
          var log := s.rooms[r].log;
          SetPc(s.(rooms := s.rooms[r := s.rooms[r].(log := log + [Post(c, s.clock, None)])]), c, Posted(r, |log|))
      case Snapshot(c) =>
        if !me.pc.Posted? then s
        else
          var r, i := me.pc.room, me.pc.index;
          var room := s.rooms[r];
          var seen := room.log[i].(lookUp := Some(LookUp(s.clock, room.members)));
          SetPc(s.(rooms := s.rooms[r := room.(log := room.log[i := seen])]), c, Ready)
      case Remove(c) => if me.removed then s else RemoveSection(cfg, s, c)
  }

  function Step(cfg: Config, s: State, a: Action): State
    requires Wf(s)
  {
    Act(cfg, s, a).(clock := s.clock + 1)
  }

  // ---- The invariant

  predicate Member(s: State, r: nat, c: nat) {
    r < |s.rooms| && c in s.rooms[r].members
  }

  predicate Visiting(s: State, r: nat, c: nat) {
    c in s.threads && r in s.threads[c].visits
  }

  ghost predicate VisitsOk(s: State) {
    forall r: nat, c: nat :: Member(s, r, c) <==> Visiting(s, r, c)
  }

  predicate Listed(s: State, k: string, c: nat)
    requires Indexed(s)
  {
    k in s.registered && c in s.rooms[s.registered[k]].members
  }

  // Every member of a registered room has that room's key cached.
  ghost predicate Safe(s: State)
    requires Indexed(s)
  {
    forall k, c :: Listed(s, k, c) ==> c in s.threads && s.threads[c].cached == k != ""
  }

  predicate PostOk(p: Post, now: nat) {
    p.appended < now && (p.lookUp.Some? ==> p.appended < p.lookUp.value.at < now)
  }

  ghost predicate PostsOk(s: State, now: nat) {
    forall r: nat, i: nat :: r < |s.rooms| && i < |s.rooms[r].log| ==> PostOk(s.rooms[r].log[i], now)
  }

  // A look-up during the visit found the visitor.
  predicate Found(p: Post, v: Visit, c: nat) {
    p.lookUp.Some? && v.joined < p.lookUp.value.at ==> c in p.lookUp.value.to
  }

  // The replay was cut from exactly the messages appended before it was read.
  ghost predicate ReplayOk(cfg: Config, log: seq<Post>, v: Visit, now: nat) {
    match v.replay
    case Pending => true
    case Read(at, lo, hi) =>
      && v.joined < at < now && hi <= |log| && lo == Kept(cfg, hi)
      && forall i: nat :: i < |log| ==> (i < hi <==> log[i].appended < at)
  }

  ghost predicate VisitOk(cfg: Config, log: seq<Post>, v: Visit, c: nat, now: nat) {
    && v.joined < now && ReplayOk(cfg, log, v, now)
    && forall i: nat :: i < |log| ==> Found(log[i], v, c)
  }

  ghost predicate HeardOk(cfg: Config, s: State, now: nat) {
    forall r: nat, c: nat :: Visiting(s, r, c) ==>
      r < |s.rooms| && VisitOk(cfg, s.rooms[r].log, s.threads[c].visits[r], c, now)
  }

  predicate Posting(s: State, x: nat, r: nat, i: nat) {
    x in s.threads && s.threads[x].pc == Posted(r, i)
  }

  // Each message whose recipients are still to be looked up has one poster, so none is sent twice.
  ghost predicate PostersOk(s: State) {
    forall x: nat, r: nat, i: nat :: Posting(s, x, r, i) ==>
      && r < |s.rooms| && i < |s.rooms[r].log| && s.rooms[r].log[i].lookUp.None?
      && forall y: nat :: Posting(s, y, r, i) ==> y == x
  }

  // Membership, cached keys and the index.
  ghost predicate Places(s: State) {
    Indexed(s) && VisitsOk(s) && Safe(s)
  }

  // Every stamp was made before now.
  ghost predicate InvAt(cfg: Config, s: State, now: nat) {
    Wf(s) && Places(s) && PostsOk(s, now) && HeardOk(cfg, s, now) && PostersOk(s)
  }

  ghost predicate Inv(cfg: Config, s: State) {
    InvAt(cfg, s, s.clock)
  }

  // ---- Time passes

  lemma TickPlaces(s: State, now: nat)
    requires Places(s) && Wf(s) && PostersOk(s)
    ensures var t := s.(clock := now); Places(t) && Wf(t) && PostersOk(t)
  {
    var t := s.(clock := now);
    forall r: nat, x: nat ensures Member(t, r, x) == Member(s, r, x) && Visiting(t, r, x) == Visiting(s, r, x) {}
    forall k, x ensures Listed(t, k, x) == Listed(s, k, x) {}
    forall x | x in t.threads ensures PcOk(t, t.threads[x].pc) { assert PcOk(s, s.threads[x].pc); }
    forall x: nat, r: nat, i: nat ensures Posting(t, x, r, i) == Posting(s, x, r, i) {}
  }

  lemma TickInv(cfg: Config, s: State)
    requires InvAt(cfg, s, s.clock + 1)
    ensures Inv(cfg, s.(clock := s.clock + 1))
  {
    TickPlaces(s, s.clock + 1);
    hide Places, Wf, PostersOk, VisitOk, PostOk;
    var t := s.(clock := s.clock + 1);
    forall r: nat, x: nat | Visiting(t, r, x)
      ensures r < |t.rooms| && VisitOk(cfg, t.rooms[r].log, t.threads[x].visits[r], x, t.clock)
    {
      assert Visiting(s, r, x);
    }
  }

  // ---- Each section keeps the invariant

  // Rooms and logs only grow.
  ghost predicate LogsGrow(s: State, t: State) {
    |s.rooms| <= |t.rooms| && forall r :: 0 <= r < |s.rooms| ==> |s.rooms[r].log| <= |t.rooms[r].log|
  }

  ghost predicate SamePcs(s: State, t: State, c: nat) {
    t.threads.Keys == s.threads.Keys + {c}
    && forall x :: x in s.threads && x != c ==> t.threads[x].pc == s.threads[x].pc
  }

  // So program counters stay meaningful.
  lemma PcsKept(s: State, t: State, c: nat)
    requires Wf(s) && Indexed(t) && LogsGrow(s, t) && c in t.threads && PcOk(t, t.threads[c].pc)
    requires SamePcs(s, t, c)
    ensures Wf(t)
  {
    forall x | x in t.threads ensures PcOk(t, t.threads[x].pc) {
      if x != c { assert PcOk(s, s.threads[x].pc); }
    }
  }

  // No log and no key changed, except that new rooms have empty logs.
  ghost predicate SameLogs(s: State, t: State) {
    && |s.rooms| <= |t.rooms|
    && (forall r :: 0 <= r < |s.rooms| ==> t.rooms[r].log == s.rooms[r].log && t.rooms[r].key == s.rooms[r].key)
    && (forall r :: |s.rooms| <= r < |t.rooms| ==> t.rooms[r].log == [])
  }

  // c is not a poster, or stands where it stood.
  lemma PostersKept(s: State, t: State, c: nat)
    requires PostersOk(s) && SameLogs(s, t) && SamePcs(s, t, c) && c in t.threads
    requires !t.threads[c].pc.Posted? || (c in s.threads && t.threads[c].pc == s.threads[c].pc)
    ensures PostersOk(t)
  {
    forall x: nat, r: nat, i: nat | Posting(t, x, r, i)
      ensures Posting(s, x, r, i)
    {}
    forall x: nat, r: nat, i: nat | Posting(t, x, r, i)
      ensures r < |t.rooms| && i < |t.rooms[r].log| && t.rooms[r].log[i].lookUp.None?
      ensures forall y: nat :: Posting(t, y, r, i) ==> y == x
    {
      assert Posting(s, x, r, i);
    }
  }

  // A visit was carried over unchanged, is new, or has ended.
  ghost predicate Carried(s: State, t: State) {
    && SameLogs(s, t)
    && forall r: nat, x: nat :: Visiting(t, r, x) ==>
         || (Visiting(s, r, x) && t.threads[x].visits[r] == s.threads[x].visits[r])
         || (r < |t.rooms| && t.threads[x].visits[r] == Visit(s.clock, Pending))
  }

  lemma CarryOver(cfg: Config, s: State, t: State)
    requires PostsOk(s, s.clock) && HeardOk(cfg, s, s.clock) && Carried(s, t)
    ensures PostsOk(t, s.clock) && HeardOk(cfg, t, s.clock + 1)
  {
    hide PostOk, ReplayOk;
    forall r: nat, i: nat | r < |t.rooms| && i < |t.rooms[r].log| ensures PostOk(t.rooms[r].log[i], s.clock) {
      assert r < |s.rooms| && PostOk(s.rooms[r].log[i], s.clock);
    }
    forall r: nat, x: nat | Visiting(t, r, x)
      ensures r < |t.rooms| && VisitOk(cfg, t.rooms[r].log, t.threads[x].visits[r], x, s.clock + 1)
    {
      if Visiting(s, r, x) && t.threads[x].visits[r] == s.threads[x].visits[r] {
        assert VisitOk(cfg, s.rooms[r].log, s.threads[x].visits[r], x, s.clock);
        ReplayLater(cfg, s.rooms[r].log, s.threads[x].visits[r], s.clock);
      } else {
        NewVisit(cfg, t.rooms[r].log, s.clock, x);
      }
    }
  }

  lemma ReplayLater(cfg: Config, log: seq<Post>, v: Visit, now: nat)
    requires ReplayOk(cfg, log, v, now)
    ensures ReplayOk(cfg, log, v, now + 1)
  {}

  // At the moment of joining no look-up lies ahead.
  lemma NewVisit(cfg: Config, log: seq<Post>, now: nat, x: nat)
    requires forall i: nat :: i < |log| ==> PostOk(log[i], now)
    ensures VisitOk(cfg, log, Visit(now, Pending), x, now + 1)
  {
    forall i: nat | i < |log| ensures Found(log[i], Visit(now, Pending), x) {
      assert PostOk(log[i], now);
    }
  }

  lemma OpenPlaces(s: State, key: string)
    requires Places(s)
    ensures Places(OpenRoom(s, key)) && Carried(s, OpenRoom(s, key))
    ensures OpenRoom(s, key).threads == s.threads
    ensures key in OpenRoom(s, key).registered && OpenRoom(s, key).clock == s.clock
  {
    var t := OpenRoom(s, key);
    forall k, x | Listed(t, k, x) ensures x in t.threads && t.threads[x].cached == k != "" {
      assert Listed(s, k, x);
    }
    forall r: nat, x: nat ensures Member(t, r, x) <==> Visiting(t, r, x) {
      assert Member(s, r, x) <==> Visiting(s, r, x);
    }
    forall r: nat, x: nat | Visiting(t, r, x) ensures Visiting(s, r, x) {}
  }

  lemma LeavePlaces(s: State, c: nat)
    requires Places(s) && c in s.threads
    ensures Places(LeaveCurrent(s, c)) && Carried(s, LeaveCurrent(s, c))
    ensures forall k :: !Listed(LeaveCurrent(s, c), k, c)
    ensures SamePcs(s, LeaveCurrent(s, c), c) && LeaveCurrent(s, c).registered == s.registered
    ensures LeaveCurrent(s, c).threads[c].pc == s.threads[c].pc && LeaveCurrent(s, c).clock == s.clock
    ensures LeaveCurrent(s, c).threads[c].cached == s.threads[c].cached
  {
    var t := LeaveCurrent(s, c);
    forall k, x | Listed(t, k, x) ensures x in t.threads && t.threads[x].cached == k != "" && x != c {
      assert Listed(s, k, x);
    }
    forall r: nat, x: nat ensures Member(t, r, x) <==> Visiting(t, r, x) {
      assert Member(s, r, x) <==> Visiting(s, r, x);
    }
    forall r: nat, x: nat | Visiting(t, r, x)
      ensures Visiting(s, r, x) && t.threads[x].visits[r] == s.threads[x].visits[r] {}
  }

  lemma EnterPlaces(s: State, c: nat, key: string, previous: Option<nat>)
    requires Places(s) && c in s.threads && key in s.registered && key != ""
    requires forall k :: !Listed(s, k, c)
    ensures Places(EnterRoom(s, c, key, previous)) && Carried(s, EnterRoom(s, c, key, previous))
    ensures var t := EnterRoom(s, c, key, previous);
      SamePcs(s, t, c) && t.threads[c].pc == Moved(s.registered[key], previous) && t.clock == s.clock
  {
    var t := EnterRoom(s, c, key, previous);
    forall k, x | Listed(t, k, x) ensures x in t.threads && t.threads[x].cached == k != "" {
      assert Listed(s, k, x) || (k == key && x == c);
    }
    forall r: nat, x: nat ensures Member(t, r, x) <==> Visiting(t, r, x) {
      assert Member(s, r, x) <==> Visiting(s, r, x);
    }
    forall r: nat, x: nat | Visiting(t, r, x)
      ensures (Visiting(s, r, x) && t.threads[x].visits[r] == s.threads[x].visits[r])
           || (r < |t.rooms| && t.threads[x].visits[r] == Visit(s.clock, Pending)) {}
  }

  lemma CarriedBoth(s: State, t: State, u: State)
    requires Carried(s, t) && Carried(t, u) && t.clock == s.clock
    ensures Carried(s, u)
  {
    forall r: nat, x: nat | Visiting(u, r, x)
      ensures (Visiting(s, r, x) && u.threads[x].visits[r] == s.threads[x].visits[r])
           || (r < |u.rooms| && u.threads[x].visits[r] == Visit(s.clock, Pending))
    {
      if Visiting(t, r, x) && u.threads[x].visits[r] == t.threads[x].visits[r] {
        assert (Visiting(s, r, x) && t.threads[x].visits[r] == s.threads[x].visits[r])
            || (r < |t.rooms| && t.threads[x].visits[r] == Visit(s.clock, Pending));
      }
    }
  }

  lemma CarriedGrows(s: State, t: State)
    requires Carried(s, t)
    ensures LogsGrow(s, t)
  {}

  // Sections that change no log.
  lemma SectionInv(cfg: Config, s: State, t: State, c: nat)
    requires Inv(cfg, s) && Places(t) && Carried(s, t) && SamePcs(s, t, c)
    requires c in t.threads && PcOk(t, t.threads[c].pc)
    requires !t.threads[c].pc.Posted? || (c in s.threads && t.threads[c].pc == s.threads[c].pc)
    ensures InvAt(cfg, t, s.clock + 1)
  {
    CarriedGrows(s, t);
    hide VisitsOk, Safe, PcOk, Posting, VisitOk, LogsGrow, Carried, PostersOk, HeardOk;
    PcsKept(s, t, c);
    CarryOver(cfg, s, t);
    assert SameLogs(s, t) by { CarriedLogs(s, t); }
    PostersKept(s, t, c);
  }

  lemma CarriedLogs(s: State, t: State)
    requires Carried(s, t)
    ensures SameLogs(s, t)
  {}

  // A move as a whole: c stands where it stood, or has moved.
  lemma MovePlaces(s: State, c: nat, key: string)
    requires Wf(s) && Places(s) && c in s.threads && key != ""
    ensures var t := MoveSection(s, c, key);
      && Places(t) && Carried(s, t) && SamePcs(s, t, c) && c in t.threads && PcOk(t, t.threads[c].pc)
      && (t.threads[c].pc == s.threads[c].pc || t.threads[c].pc.Moved?)
  {
    hide VisitsOk, Safe, OpenRoom, LeaveCurrent, EnterRoom, Carried, Current, PcOk, Places;
    OpenPlaces(s, key);
    var s1 := OpenRoom(s, key);
    if s.threads[c].cached == key {
      StandsStill(s, s1, c);
    } else {
      LeavePlaces(s1, c);
      var s2 := LeaveCurrent(s1, c);
      CurrentExists(s1, c);
      EnterPlaces(s2, c, key, Current(s1, c));
      var t := EnterRoom(s2, c, key, Current(s1, c));
      MovedOk(s1, s2, t, s2.registered[key], Current(s1, c));
      CarriedBoth(s, s1, s2);
      CarriedBoth(s, s2, t);
    }
  }

  lemma MoveInv(cfg: Config, s: State, c: nat, key: string)
    requires Inv(cfg, s) && c in s.threads && MayMove(cfg, s.threads[c].pc, key)
    ensures InvAt(cfg, MoveSection(s, c, key), s.clock + 1)
  {
    hide VisitsOk, Safe, HeardOk, PostersOk, PostsOk, MoveSection, Carried, PcOk, Places;
    MovePlaces(s, c, key);
    SectionInv(cfg, s, MoveSection(s, c, key), c);
  }

  lemma StandsStill(s: State, t: State, c: nat)
    requires Wf(s) && Carried(s, t) && c in s.threads && t.threads == s.threads
    ensures PcOk(t, t.threads[c].pc)
  {
    assert PcOk(s, s.threads[c].pc);
  }

  lemma CurrentExists(s: State, c: nat)
    requires Places(s) && c in s.threads
    ensures Current(s, c).Some? ==> Current(s, c).value < |s.rooms|
  {}

  lemma MovedOk(s1: State, s2: State, t: State, r: nat, previous: Option<nat>)
    requires Carried(s1, s2) && Carried(s2, t) && Places(s2) && (previous.Some? ==> previous.value < |s1.rooms|)
    requires exists k :: k in s2.registered && s2.registered[k] == r
    ensures PcOk(t, Moved(r, previous))
  {}

  // Members, cached keys and the rooms visited stay; keys may be unregistered.
  ghost predicate Quiet(s: State, t: State) {
    && |t.rooms| == |s.rooms| && t.threads.Keys == s.threads.Keys
    && (forall r :: 0 <= r < |s.rooms| ==> t.rooms[r].members == s.rooms[r].members && t.rooms[r].key == s.rooms[r].key)
    && (forall k :: k in t.registered ==> k in s.registered && t.registered[k] == s.registered[k])
    && (forall x :: x in s.threads ==>
          t.threads[x].cached == s.threads[x].cached && t.threads[x].visits.Keys == s.threads[x].visits.Keys)
  }

  lemma QuietKeeps(s: State, t: State)
    requires Places(s) && Quiet(s, t)
    ensures Places(t)
  {
    forall k, x | Listed(t, k, x) ensures x in t.threads && t.threads[x].cached == k != "" {
      assert Listed(s, k, x);
    }
    forall r: nat, x: nat ensures Member(t, r, x) <==> Visiting(t, r, x) {
      assert Member(s, r, x) <==> Visiting(s, r, x);
    }
  }

  lemma RemovePlaces(cfg: Config, s: State, c: nat)
    requires Wf(s) && Places(s) && c in s.threads
    ensures var t := RemoveSection(cfg, s, c);
      && Places(t) && Carried(s, t) && SamePcs(s, t, c) && c in t.threads && PcOk(t, t.threads[c].pc)
      && t.threads[c].pc == s.threads[c].pc
  {
    LeavePlaces(s, c);
    UnregisterShape(cfg, s, c);
    hide VisitsOk, Safe, LeaveCurrent, RemoveSection, Carried, PcOk, Places, Quiet;
    var s1, t := LeaveCurrent(s, c), RemoveSection(cfg, s, c);
    QuietKeeps(s1, t);
    CarriedBoth(s, s1, t);
    PcStays(s, t, c);
  }

  lemma RemoveInv(cfg: Config, s: State, c: nat)
    requires Inv(cfg, s) && c in s.threads
    ensures InvAt(cfg, RemoveSection(cfg, s, c), s.clock + 1)
  {
    hide VisitsOk, Safe, HeardOk, PostersOk, PostsOk, RemoveSection, Carried, PcOk, Places;
    RemovePlaces(cfg, s, c);
    SectionInv(cfg, s, RemoveSection(cfg, s, c), c);
  }

  lemma UnregisterShape(cfg: Config, s: State, c: nat)
    requires Indexed(s) && c in s.threads
    ensures var s1, t := LeaveCurrent(s, c), RemoveSection(cfg, s, c);
      && Quiet(s1, t) && Carried(s1, t) && SamePcs(s, t, c) && c in t.threads
      && t.threads[c].pc == s.threads[c].pc && s1.clock == s.clock
  {}

  lemma PcStays(s: State, t: State, c: nat)
    requires Wf(s) && Carried(s, t) && c in s.threads
    ensures PcOk(t, s.threads[c].pc)
  {
    assert PcOk(s, s.threads[c].pc);
  }

  lemma StartInv(cfg: Config, s: State, c: nat)
    requires Inv(cfg, s) && c !in s.threads
    ensures InvAt(cfg, s.(threads := s.threads[c := Begin(cfg)]), s.clock + 1)
  {
    var t := s.(threads := s.threads[c := Begin(cfg)]);
    forall k, x | Listed(t, k, x) ensures x in t.threads && t.threads[x].cached == k != "" {
      assert Listed(s, k, x);
    }
    forall r: nat, x: nat ensures Member(t, r, x) <==> Visiting(t, r, x) {
      assert Member(s, r, x) <==> Visiting(s, r, x);
    }
    hide VisitsOk, Safe, HeardOk, PostersOk, PostsOk;
    SectionInv(cfg, s, t, c);
  }

  // Only the program counter of c, and possibly a registration, changes.
  lemma PcInv(cfg: Config, s: State, c: nat, registered: map<string, nat>, pc: Pc)
    requires Inv(cfg, s) && c in s.threads && PcOk(s, pc) && !pc.Posted?
    requires forall k :: k in registered ==> k in s.registered && registered[k] == s.registered[k]
    ensures InvAt(cfg, SetPc(s.(registered := registered), c, pc), s.clock + 1)
  {
    var t := SetPc(s.(registered := registered), c, pc);
    assert PcOk(t, pc) == PcOk(s, pc);
    hide VisitsOk, Safe, HeardOk, PostersOk, PostsOk, PcOk, Places;
    QuietKeeps(s, t);
    SectionInv(cfg, s, t, c);
  }

  // Reading the history moves nobody, stores nothing and fills in one visit.
  lemma ReplayedShape(cfg: Config, s: State, c: nat)
    requires Wf(s) && c in s.threads && s.threads[c].pc.Moved?
    ensures var t := Act(cfg, s, Replayed(c));
      && Quiet(s, t) && SameLogs(s, t) && SamePcs(s, t, c) && c in t.threads && t.threads[c].pc.Greeted?
      && PcOk(t, t.threads[c].pc) && t.clock == s.clock
      && forall r: nat, x: nat :: Visiting(t, r, x) ==>
           && Visiting(s, r, x)
           && t.threads[x].visits[r] == if x == c && r == s.threads[c].pc.room
                                        then AtReading(cfg, s, r, s.threads[x].visits[r])
                                        else s.threads[x].visits[r]
  {
    assert PcOk(s, s.threads[c].pc);
  }

  // A visit at the moment of the reading.
  function AtReading(cfg: Config, s: State, r: nat, v: Visit): Visit {
    if r < |s.rooms| then v.(replay := Read(s.clock, Kept(cfg, |s.rooms[r].log|), |s.rooms[r].log|)) else v
  }

  // Reading the history: the log holds exactly what was appended before this step.
  lemma ReplayedInv(cfg: Config, s: State, c: nat)
    requires Inv(cfg, s) && c in s.threads && s.threads[c].pc.Moved?
    ensures InvAt(cfg, Act(cfg, s, Replayed(c)), s.clock + 1)
  {
    hide Act, Places, Quiet, PostersOk, PcOk, PostOk, VisitOk, ReplayOk, SamePcs;
    var t := Act(cfg, s, Replayed(c));
    ReplayedShape(cfg, s, c);
    QuietKeeps(s, t);
    PcsKept(s, t, c);
    PostersKept(s, t, c);
    forall r: nat, i: nat | r < |t.rooms| && i < |t.rooms[r].log| ensures PostOk(t.rooms[r].log[i], s.clock + 1) {
      PostLater(s.rooms[r].log[i], s.clock);
    }
    forall r: nat, x: nat | Visiting(t, r, x)
      ensures r < |t.rooms| && VisitOk(cfg, t.rooms[r].log, t.threads[x].visits[r], x, s.clock + 1)
    {
      ReadingKeepsVisit(cfg, s, c, r, x);
    }
  }

  lemma ReadingKeepsVisit(cfg: Config, s: State, c: nat, r: nat, x: nat)
    requires Inv(cfg, s) && c in s.threads && s.threads[c].pc.Moved? && Visiting(s, r, x)
    ensures r < |s.rooms|
    ensures VisitOk(cfg, s.rooms[r].log, s.threads[x].visits[r], x, s.clock + 1)
    ensures VisitOk(cfg, s.rooms[r].log, AtReading(cfg, s, r, s.threads[x].visits[r]), x, s.clock + 1)
  {
    hide Wf, Places, PostersOk, Found, PostOk;
    var log, v := s.rooms[r].log, s.threads[x].visits[r];
    assert VisitOk(cfg, log, v, x, s.clock);
    ReplayLater(cfg, log, v, s.clock);
    ReadNow(cfg, log, v, x, s.clock);
  }

  lemma PostLater(p: Post, now: nat)
    requires PostOk(p, now)
    ensures PostOk(p, now + 1)
  {}

  lemma ReadNow(cfg: Config, log: seq<Post>, v: Visit, x: nat, now: nat)
    requires VisitOk(cfg, log, v, x, now) && forall i: nat :: i < |log| ==> PostOk(log[i], now)
    ensures VisitOk(cfg, log, v.(replay := Read(now, Kept(cfg, |log|), |log|)), x, now + 1)
  {
    var v' := v.(replay := Read(now, Kept(cfg, |log|), |log|));
    forall i: nat | i < |log| ensures Found(log[i], v', x) { assert Found(log[i], v, x); }
    forall i: nat | i < |log| ensures i < |log| <==> log[i].appended < now { assert PostOk(log[i], now); }
  }

  // Room r's log becomes log.
  function Logged(s: State, c: nat, r: nat, log: seq<Post>, pc: Pc): State
    requires c in s.threads && r < |s.rooms|
  {
    SetPc(s.(rooms := s.rooms[r := s.rooms[r].(log := log)]), c, pc)
  }

  lemma LoggedPlaces(s: State, c: nat, r: nat, log: seq<Post>, pc: Pc)
    requires Places(s) && Wf(s) && c in s.threads && r < |s.rooms| && |log| >= |s.rooms[r].log|
    requires PcOk(Logged(s, c, r, log, pc), pc)
    ensures Places(Logged(s, c, r, log, pc)) && Wf(Logged(s, c, r, log, pc))
  {
    var t := Logged(s, c, r, log, pc);
    QuietKeeps(s, t);
    assert LogsGrow(s, t) && SamePcs(s, t, c);
    hide PcOk, Places, LogsGrow;
    assert Indexed(t) by { PlacesIndexed(t); }
    PcsKept(s, t, c);
  }

  lemma PlacesIndexed(s: State)
    requires Places(s)
    ensures Indexed(s)
  {}

  // The index part after a change of one log, from what happens to each visit of that room.
  lemma LoggedHeard(cfg: Config, s: State, c: nat, r: nat, log: seq<Post>, pc: Pc)
    requires PostsOk(s, s.clock) && HeardOk(cfg, s, s.clock) && c in s.threads && r < |s.rooms|
    requires forall i: nat :: i < |log| ==> PostOk(log[i], s.clock + 1)
    requires forall x: nat :: Visiting(s, r, x) ==> VisitOk(cfg, log, s.threads[x].visits[r], x, s.clock + 1)
    ensures var t := Logged(s, c, r, log, pc); PostsOk(t, s.clock + 1) && HeardOk(cfg, t, s.clock + 1)
  {
    var t := Logged(s, c, r, log, pc);
    hide PostOk, ReplayOk;
    forall q: nat, i: nat | q < |t.rooms| && i < |t.rooms[q].log| ensures PostOk(t.rooms[q].log[i], s.clock + 1) {
      if q != r { PostLater(s.rooms[q].log[i], s.clock); }
    }
    forall q: nat, x: nat | Visiting(t, q, x)
      ensures q < |t.rooms| && VisitOk(cfg, t.rooms[q].log, t.threads[x].visits[q], x, s.clock + 1)
    {
      assert Visiting(s, q, x);
      if q != r { ReplayLater(cfg, s.rooms[q].log, s.threads[x].visits[q], s.clock); }
    }
  }

  lemma AppendInv(cfg: Config, s: State, c: nat)
    requires Inv(cfg, s) && c in s.threads && s.threads[c].pc.Speaking?
    ensures InvAt(cfg, Act(cfg, s, Append(c)), s.clock + 1)
  {
    assert PcOk(s, s.threads[c].pc);
    var r := s.threads[c].pc.room;
    var old', p := s.rooms[r].log, Post(c, s.clock, None);
    var log, pc := old' + [p], Posted(r, |old'|);
    assert Act(cfg, s, Append(c)) == Logged(s, c, r, log, pc);
    assert PcOk(Logged(s, c, r, log, pc), pc);
    hide VisitsOk, Safe, PcOk, PostOk, ReplayOk, Act;
    LoggedPlaces(s, c, r, log, pc);
    forall i: nat | i < |log| ensures PostOk(log[i], s.clock + 1) {
      if i < |old'| { assert PostOk(old'[i], s.clock); PostLater(old'[i], s.clock); } else { NewPost(c, s.clock); }
    }
    forall x: nat | Visiting(s, r, x) ensures VisitOk(cfg, log, s.threads[x].visits[r], x, s.clock + 1) {
      VisitAppend(cfg, old', s.threads[x].visits[r], x, c, s.clock);
    }
    LoggedHeard(cfg, s, c, r, log, pc);
    AppendPosters(s, c, r);
  }

  lemma NewPost(c: nat, now: nat)
    ensures PostOk(Post(c, now, None), now + 1)
  {}

  lemma VisitAppend(cfg: Config, log: seq<Post>, v: Visit, x: nat, c: nat, now: nat)
    requires VisitOk(cfg, log, v, x, now)
    ensures VisitOk(cfg, log + [Post(c, now, None)], v, x, now + 1)
  {
    var log' := log + [Post(c, now, None)];
    forall i: nat | i < |log'| ensures Found(log'[i], v, x) {
      if i < |log| { assert Found(log[i], v, x); }
    }
  }

  lemma AppendPosters(s: State, c: nat, r: nat)
    requires PostersOk(s) && c in s.threads && s.threads[c].pc == Speaking(r) && r < |s.rooms|
    ensures PostersOk(Logged(s, c, r, s.rooms[r].log + [Post(c, s.clock, None)], Posted(r, |s.rooms[r].log|)))
  {
    var t := Logged(s, c, r, s.rooms[r].log + [Post(c, s.clock, None)], Posted(r, |s.rooms[r].log|));
    forall x: nat, q: nat, i: nat | Posting(t, x, q, i)
      ensures q < |t.rooms| && i < |t.rooms[q].log| && t.rooms[q].log[i].lookUp.None?
      ensures forall y: nat :: Posting(t, y, q, i) ==> y == x
    {
      if x != c { assert Posting(s, x, q, i); }
      forall y: nat | Posting(t, y, q, i) ensures y == x {
        if y != c { assert Posting(s, y, q, i); }
      }
    }
  }

  // Looking up the recipients: every member of the room at this moment is among them.
  lemma SnapshotInv(cfg: Config, s: State, c: nat)
    requires Inv(cfg, s) && c in s.threads && s.threads[c].pc.Posted?
    ensures InvAt(cfg, Act(cfg, s, Snapshot(c)), s.clock + 1)
  {
    assert PcOk(s, s.threads[c].pc);
    var r, i := s.threads[c].pc.room, s.threads[c].pc.index;
    var old', members := s.rooms[r].log, s.rooms[r].members;
    var log := old'[i := old'[i].(lookUp := Some(LookUp(s.clock, members)))];
    assert Act(cfg, s, Snapshot(c)) == Logged(s, c, r, log, Ready);
    assert PcOk(Logged(s, c, r, log, Ready), Ready);
    hide Safe, PcOk, PostOk, ReplayOk, Act;
    LoggedPlaces(s, c, r, log, Ready);
    forall j: nat | j < |log| ensures PostOk(log[j], s.clock + 1) {
      assert PostOk(old'[j], s.clock);
      if j == i { LookedUp(old'[j], members, s.clock); } else { PostLater(old'[j], s.clock); }
    }
    forall x: nat | Visiting(s, r, x) ensures VisitOk(cfg, log, s.threads[x].visits[r], x, s.clock + 1) {
      assert Member(s, r, x) <==> Visiting(s, r, x);
      VisitLookUp(cfg, old', s.threads[x].visits[r], x, s.clock, i, members);
    }
    LoggedHeard(cfg, s, c, r, log, Ready);
    SnapshotPosters(s, c, r, i);
  }

  lemma LookedUp(p: Post, to: set<nat>, now: nat)
    requires PostOk(p, now)
    ensures PostOk(p.(lookUp := Some(LookUp(now, to))), now + 1)
  {}

  lemma VisitLookUp(cfg: Config, log: seq<Post>, v: Visit, x: nat, now: nat, i: nat, to: set<nat>)
    requires VisitOk(cfg, log, v, x, now) && i < |log| && x in to
    ensures VisitOk(cfg, log[i := log[i].(lookUp := Some(LookUp(now, to)))], v, x, now + 1)
  {
    var log' := log[i := log[i].(lookUp := Some(LookUp(now, to)))];
    forall j: nat | j < |log'| ensures Found(log'[j], v, x) {
      assert Found(log[j], v, x);
    }
  }

  lemma SnapshotPosters(s: State, c: nat, r: nat, i: nat)
    requires PostersOk(s) && c in s.threads && s.threads[c].pc == Posted(r, i) && r < |s.rooms| && i < |s.rooms[r].log|
    ensures var log := s.rooms[r].log;
      PostersOk(Logged(s, c, r, log[i := log[i].(lookUp := Some(LookUp(s.clock, s.rooms[r].members)))], Ready))
  {
    var log := s.rooms[r].log;
    var t := Logged(s, c, r, log[i := log[i].(lookUp := Some(LookUp(s.clock, s.rooms[r].members)))], Ready);
    assert Posting(s, c, r, i);
    forall x: nat, q: nat, j: nat | Posting(t, x, q, j)
      ensures q < |t.rooms| && j < |t.rooms[q].log| && t.rooms[q].log[j].lookUp.None?
      ensures forall y: nat :: Posting(t, y, q, j) ==> y == x
    {
      assert x != c && Posting(s, x, q, j);
      forall y: nat | Posting(t, y, q, j) ensures y == x {
        assert Posting(s, y, q, j);
      }
    }
  }

  lemma StepInv(cfg: Config, s: State, a: Action)
    requires Inv(cfg, s)
    ensures Inv(cfg, Step(cfg, s, a))
  {
    ActInv(cfg, s, a);
    ActClock(cfg, s, a);
    hide InvAt, Act;
    TickInv(cfg, Act(cfg, s, a));
  }

  lemma ActClock(cfg: Config, s: State, a: Action)
    requires Wf(s)
    ensures Act(cfg, s, a).clock == s.clock
  {}

  lemma NothingInv(cfg: Config, s: State)
    requires Inv(cfg, s)
    ensures InvAt(cfg, s, s.clock + 1)
  {
    hide Places, Wf, PostersOk;
    assert Carried(s, s);
    CarryOver(cfg, s, s);
  }

  lemma ActInv(cfg: Config, s: State, a: Action)
    requires Inv(cfg, s)
    ensures InvAt(cfg, Act(cfg, s, a), s.clock + 1)
  {
    NothingInv(cfg, s);
    hide Safe, VisitsOk, HeardOk, PostsOk, PostersOk;
    if a.Start? {
      if a.c !in s.threads { StartInv(cfg, s, a.c); }
    } else if a.c in s.threads {
      var me := s.threads[a.c];
      assert PcOk(s, me.pc);
      match a
      case Move(c, key) => if MayMove(cfg, me.pc, key) { MoveInv(cfg, s, c, key); }
      case Replayed(c) => if me.pc.Moved? { ReplayedInv(cfg, s, c); }
      case CheckCleanup(c) =>
        if me.pc.Greeted? {
          PcInv(cfg, s, c, s.registered, Ready);
          if me.pc.previous.Some? { PcInv(cfg, s, c, s.registered, Cleaning(me.pc.previous.value)); }
        }
      case Cleanup(c) =>
        if me.pc.Cleaning? {
          PcInv(cfg, s, c, s.registered, Ready);
          PcInv(cfg, s, c, s.registered - {s.rooms[me.pc.room].key}, Ready);
        }
      case Find(c) =>
        if me.cached in s.registered { PcInv(cfg, s, c, s.registered, Speaking(s.registered[me.cached])); }
      case Append(c) => if me.pc.Speaking? { AppendInv(cfg, s, c); }
      case Snapshot(c) => if me.pc.Posted? { SnapshotInv(cfg, s, c); }
      case Remove(c) => if !me.removed { RemoveInv(cfg, s, c); }
    }
  }

  // ---- Every interleaving

  // The state after any sequence of steps by any clients; the invariant holds throughout.
  function Run(cfg: Config, actions: seq<Action>): (s: State)
    ensures Inv(cfg, s) && s.clock == |actions|
  {
    if actions == [] then Initial
    else
      var before := Run(cfg, actions[..|actions| - 1]);
      StepInv(cfg, before, actions[|actions| - 1]);
      Step(cfg, before, actions[|actions| - 1])
  }

  // No gap between replay and live delivery. For every stored message and every client that
  // finished joining that room object and has not left it, under any interleaving: the message
  // was replayed, or it was already cut off by the limit when the history was read, or its
  // poster has not looked up the recipients yet, or the client is among them.
  lemma NoGap(cfg: Config, actions: seq<Action>, r: nat, c: nat, i: nat)
    requires var s := Run(cfg, actions);
      r < |s.rooms| && c in s.rooms[r].members && i < |s.rooms[r].log|
    ensures var s := Run(cfg, actions);
      && c in s.threads && r in s.threads[c].visits
      && match s.threads[c].visits[r].replay
         case Pending => true
         case Read(_, lo, hi) =>
           || lo <= i < hi
           || (i < lo && i + cfg.limit < hi <= |s.rooms[r].log|)
           || s.rooms[r].log[i].lookUp.None?
           || c in s.rooms[r].log[i].lookUp.value.to
  {
    var s := Run(cfg, actions);
    hide Run, Wf, Safe, PcOk, PostersOk;
    assert Member(s, r, c) <==> Visiting(s, r, c);
    assert VisitOk(cfg, s.rooms[r].log, s.threads[c].visits[r], c, s.clock);
    assert PostOk(s.rooms[r].log[i], s.clock) && Found(s.rooms[r].log[i], s.threads[c].visits[r], c);
  }

  // Under any interleaving, stale cleanups and input after removal included, every member of a
  // registered room caches that room's key; so no client is ever in two registered rooms.
  lemma AtMostOneRoom(cfg: Config, actions: seq<Action>, k1: string, k2: string, c: nat)
    requires var s := Run(cfg, actions);
      && k1 in s.registered && k2 in s.registered
      && c in s.rooms[s.registered[k1]].members && c in s.rooms[s.registered[k2]].members
    ensures k1 == k2 && c in Run(cfg, actions).threads && Run(cfg, actions).threads[c].cached == k1
  {
    var s := Run(cfg, actions);
    hide Run, VisitsOk, HeardOk, PcOk, PostersOk, PostsOk;
    assert Listed(s, k1, c) && Listed(s, k2, c);
  }

  // ---- Runs step by step

  lemma RunStep(cfg: Config, actions: seq<Action>, a: Action)
    ensures Run(cfg, actions + [a]) == Step(cfg, Run(cfg, actions), a)
  {
    hide Step;
    assert (actions + [a])[..|actions|] == actions;
  }

  // c has started, and next goes to the lobby if there is one.
  lemma Starts(cfg: Config, s: State, c: nat)
    requires Wf(s) && c !in s.threads
    ensures Step(cfg, s, Start(c)) == s.(threads := s.threads[c := Begin(cfg)], clock := s.clock + 1)
  {}

  // The index of the room a client moves to.
  function Goal(s: State, key: string): nat {
    if key in s.registered then s.registered[key] else |s.rooms|
  }

  function MembersAt(s: State, r: nat): set<nat> {
    if r < |s.rooms| then s.rooms[r].members else {}
  }

  function LogAt(s: State, r: nat): seq<Post> {
    if r < |s.rooms| then s.rooms[r].log else []
  }

  // c changes seats from the room its key names to the room under key.
  lemma Moves(cfg: Config, s: State, c: nat, key: string)
    requires Wf(s) && c in s.threads && MayMove(cfg, s.threads[c].pc, key) && s.threads[c].cached != key
    ensures var t, r, from := Step(cfg, s, Move(c, key)), Goal(s, key), Current(s, c);
      && t.registered == s.registered[key := r] && t.clock == s.clock + 1
      && |t.rooms| == (if r < |s.rooms| then |s.rooms| else r + 1) && r < |t.rooms| && from != Some(r)
      && t.rooms[r] == Room(key, MembersAt(s, r) + {c}, LogAt(s, r))
      && (forall q :: 0 <= q < |s.rooms| && q != r && Some(q) != from ==> t.rooms[q] == s.rooms[q])
      && (from.Some? ==>
           from.value < |s.rooms| &&
           t.rooms[from.value] == s.rooms[from.value].(members := s.rooms[from.value].members - {c}))
      && t.threads.Keys == s.threads.Keys && (forall x :: x in s.threads && x != c ==> t.threads[x] == s.threads[x])
      && t.threads[c].cached == key && t.threads[c].pc == Moved(r, from) && t.threads[c].removed == s.threads[c].removed
      && r in t.threads[c].visits && t.threads[c].visits[r] == Visit(s.clock, Pending)
  {
    hide PcOk;
    var s1 := OpenRoom(s, key);
    assert Current(s1, c) == Current(s, c);
    assert s1.registered[key] == Goal(s, key) && s1.rooms[Goal(s, key)].key == key;
  }

  lemma Reads(cfg: Config, s: State, c: nat)
    requires Wf(s) && c in s.threads && s.threads[c].pc.Moved?
    ensures var t, pc := Step(cfg, s, Replayed(c)), s.threads[c].pc;
      && t.registered == s.registered && t.rooms == s.rooms && t.clock == s.clock + 1 && pc.room < |s.rooms|
      && t.threads.Keys == s.threads.Keys && (forall x :: x in s.threads && x != c ==> t.threads[x] == s.threads[x])
      && t.threads[c].cached == s.threads[c].cached && t.threads[c].removed == s.threads[c].removed
      && t.threads[c].pc == Greeted(pc.previous) && t.threads[c].visits.Keys == s.threads[c].visits.Keys
      && (pc.room in s.threads[c].visits ==>
            t.threads[c].visits[pc.room] ==
            s.threads[c].visits[pc.room].(replay :=
              Read(s.clock, Kept(cfg, |s.rooms[pc.room].log|), |s.rooms[pc.room].log|)))
  {
    assert PcOk(s, s.threads[c].pc);
    hide PcOk;
  }

  // Where a client that starts may go first: the lobby, or anywhere if there is none.
  predicate Home(cfg: Config, home: string) {
    home != "" && (cfg.lobby.Lobby? ==> home == cfg.lobby.key)
  }

  // A client starts, enters its first room and has been replayed the history.
  function Entry(c: nat, home: string): seq<Action> {
    [Start(c)] + [Move(c, home)] + [Replayed(c)] + [CheckCleanup(c)]
  }

  // What such an entry leaves behind.
  ghost predicate HasEntered(cfg: Config, s: State, t: State, c: nat, home: string) {
    var r, n := Goal(s, home), |LogAt(s, Goal(s, home))|;
    && t.registered == s.registered[home := r] && t.clock == s.clock + 4
    && |t.rooms| == (if r < |s.rooms| then |s.rooms| else r + 1) && r < |t.rooms|
    && t.rooms[r] == Room(home, MembersAt(s, r) + {c}, LogAt(s, r))
    && (forall q :: 0 <= q < |s.rooms| && q != r ==> t.rooms[q] == s.rooms[q])
    && t.threads.Keys == s.threads.Keys + {c} && (forall x :: x in s.threads ==> t.threads[x] == s.threads[x])
    && t.threads[c].cached == home && t.threads[c].pc == Ready && !t.threads[c].removed
    && r in t.threads[c].visits && t.threads[c].visits[r] == Visit(s.clock + 1, Read(s.clock + 2, Kept(cfg, n), n))
  }

  lemma StartsAndMoves(cfg: Config, before: seq<Action>, c: nat, home: string)
    requires c !in Run(cfg, before).threads && Home(cfg, home)
    ensures var s, t := Run(cfg, before), Run(cfg, before + [Start(c)] + [Move(c, home)]);
      var r := Goal(Run(cfg, before), home);
      && t.registered == s.registered[home := r] && t.clock == s.clock + 2
      && |t.rooms| == (if r < |s.rooms| then |s.rooms| else r + 1) && r < |t.rooms|
      && t.rooms[r] == Room(home, MembersAt(s, r) + {c}, LogAt(s, r))
      && (forall q :: 0 <= q < |s.rooms| && q != r ==> t.rooms[q] == s.rooms[q])
      && t.threads.Keys == s.threads.Keys + {c} && (forall x :: x in s.threads ==> t.threads[x] == s.threads[x])
      && t.threads[c].cached == home && t.threads[c].pc == Moved(r, None) && !t.threads[c].removed
      && r in t.threads[c].visits && t.threads[c].visits[r] == Visit(s.clock + 1, Pending)
  {
    hide Run, Step, Wf, Places, PostsOk, HeardOk, PostersOk;
    var s := Run(cfg, before);
    RunStep(cfg, before, Start(c));
    var a1 := before + [Start(c)];
    Starts(cfg, s, c);
    RunStep(cfg, a1, Move(c, home));
    Moves(cfg, Run(cfg, a1), c, home);
  }

  lemma Enters(cfg: Config, before: seq<Action>, c: nat, home: string)
    requires c !in Run(cfg, before).threads && Home(cfg, home)
    ensures HasEntered(cfg, Run(cfg, before), Run(cfg, before + Entry(c, home)), c, home)
  {
    hide Run, Step, Wf, Places, PostsOk, HeardOk, PostersOk;
    StartsAndMoves(cfg, before, c, home);
    var a2 := before + [Start(c)] + [Move(c, home)];
    RunStep(cfg, a2, Replayed(c));
    var a3 := a2 + [Replayed(c)];
    Reads(cfg, Run(cfg, a2), c);
    RunStep(cfg, a3, CheckCleanup(c));
    Checks(cfg, Run(cfg, a3), c);
    assert a3 + [CheckCleanup(c)] == before + Entry(c, home);
  }

  lemma Checks(cfg: Config, s: State, c: nat)
    requires Wf(s) && c in s.threads && s.threads[c].pc.Greeted?
    ensures var t, p := Step(cfg, s, CheckCleanup(c)), s.threads[c].pc.previous;
      && (p.Some? ==> p.value < |s.rooms|)
      && t == SetPc(s, c, if p.None? || cfg.Spares(s.rooms[p.value].key) || s.rooms[p.value].members != {} then Ready
                          else Cleaning(p.value)).(clock := s.clock + 1)
  {
    assert PcOk(s, s.threads[c].pc);
    hide PcOk;
  }
}
