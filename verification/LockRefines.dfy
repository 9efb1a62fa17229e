// The two models of the TCP chat server agree: every run of the sequential server is a run of its lock
// sections in which each client is served without interruption, with the same seats, rooms and logs.
module LockRefines {
  import opened Text
  import opened Commands
  import opened Channels
  import opened ChatModel
  import opened ChatInvariants
  import opened ChatLaws
  import opened ChatEffects
  import opened ChatTyped
  import opened ChatMoves
  import L = LockSections
  import Alone = LockAlone

  function Lobbied(cfg: Settings): L.Config {
    var name := Trim(cfg.lobbyName);
    L.Config(cfg.historyLimit,
             if SanitizeRoomName(cfg.lobbyName).Some? then L.Lobby(Lower(name), Tight(cfg.lobbyName)) else L.NoLobby)
  }

  predicate Live(ls: L.State, n: nat) {
    n in ls.threads && !ls.threads[n].removed
  }

  // The n-th connection's client is one thread.
  ghost predicate ThreadsAlike(ls: L.State, s: State) {
    && (forall n :: n in ls.threads ==> n <= s.nextID && ls.threads[n].pc == L.Ready)
    && (forall n: nat :: Live(ls, n) <==> ClientId(n) in s.sessions)
    && (forall n: nat :: Live(ls, n) ==> ls.threads[n].cached == s.sessions[ClientId(n)].roomKey)
  }

  // The room of this key has the same members and as long a log.
  ghost predicate RoomAlike(ls: L.State, s: State, k: string)
    requires L.Wf(ls) && k in s.rooms
  {
    && (forall n: nat :: n in Alone.MembersOf(ls, k) <==> ClientId(n) in s.rooms[k].members)
    && Alone.LengthOf(ls, k) == |s.rooms[k].log|
  }

  ghost predicate Alike(ls: L.State, s: State) {
    && L.Wf(ls) && ls.registered.Keys == s.rooms.Keys
    && ThreadsAlike(ls, s) && forall k :: k in s.rooms ==> RoomAlike(ls, s, k)
  }

  // Without an acceptable lobby name no room has the lobby's key.
  ghost predicate NoFalseLobby(cfg: Settings, s: State) {
    Lobbied(cfg).lobby.NoLobby? ==> Lower(cfg.lobbyName) !in s.rooms
  }

  // ---- The lobby in both models

  lemma GoodUpToCase(a: string, b: string)
    requires GoodRoom(a) && Lower(a) == Lower(b)
    ensures GoodRoom(b)
  {
    LowerTight(a);
    LowerTight(b);
    assert |Lower(a)| == |a| && |Lower(b)| == |b|;
    forall i | 0 <= i < |b| ensures Letter(b[i]) || b[i] == ' ' {
      assert Lower(a)[i] == Lower(b)[i] && (Letter(a[i]) || a[i] == ' ');
      assert LowerChar(a[i]) == LowerChar(b[i]);
    }
  }

  lemma SparesAlike(cfg: Settings, s: State, k: string)
    requires RoomsOk(s.rooms) && NoFalseLobby(cfg, s) && k in s.rooms
    ensures Lobbied(cfg).Spares(k) <==> Lower(s.rooms[k].name) == Lower(cfg.lobbyName)
  {
    assert WellNamed(k, s.rooms[k]);
    LowerTight(s.rooms[k].name);
    LowerTight(cfg.lobbyName);
    if Tight(cfg.lobbyName) { TrimTight(cfg.lobbyName); }
    hide Trim, Lower, Tight, SanitizeRoomName;
  }

  // ---- One operation in both

  // Seats, rooms and the lengths of the logs are as before.
  ghost predicate Quietly(s: State, t: State) {
    && t.nextID == s.nextID && t.sessions.Keys == s.sessions.Keys && t.rooms.Keys == s.rooms.Keys
    && (forall id :: id in s.sessions ==> t.sessions[id].roomKey == s.sessions[id].roomKey)
    && forall k :: k in s.rooms ==> t.rooms[k].members == s.rooms[k].members && |t.rooms[k].log| == |s.rooms[k].log|
  }

  lemma QuietlyAlike(ls: L.State, s: State, t: State)
    requires Alike(ls, s) && Quietly(s, t)
    ensures Alike(ls, t)
  {
    hide L.Wf, ClientId, Alone.MembersOf, Alone.LengthOf;
    forall k | k in t.rooms ensures RoomAlike(ls, t, k) { assert RoomAlike(ls, s, k); }
  }

  lemma PostedAlike(cfg: Settings, ls: L.State, ls': L.State, s: State, t: State, n: nat, k: string, text: string)
    requires Alike(ls, s) && L.Wf(ls') && k in s.rooms
    requires Posted(cfg, s, t, k, text) && Alone.Speaks(ls, ls', n, k)
    ensures Alike(ls', t)
  {
    hide L.Wf, ClientId, Alone.MembersOf, Alone.LengthOf, Queues, Tail, ThreadsAlike, RoomAlike;
    SameThreads(ls, ls', s, t, n);
    forall j | j in t.rooms ensures RoomAlike(ls', t, j) { LongerAlike(ls, ls', s, t, j); }
  }

  lemma SameThreads(ls: L.State, ls': L.State, s: State, t: State, n: nat)
    requires ThreadsAlike(ls, s) && t.sessions == s.sessions && t.nextID == s.nextID
    requires n in ls.threads && n in ls'.threads && ls'.threads == ls.threads[n := ls'.threads[n]]
    requires ls'.threads[n].pc == L.Ready && ls'.threads[n].cached == ls.threads[n].cached
    requires ls'.threads[n].removed == ls.threads[n].removed
    ensures ThreadsAlike(ls', t)
  {
    hide ClientId;
    forall m: nat ensures Live(ls', m) == Live(ls, m) {}
  }

  lemma LongerAlike(ls: L.State, ls': L.State, s: State, t: State, j: string)
    requires L.Wf(ls) && L.Wf(ls') && j in s.rooms && j in t.rooms && RoomAlike(ls, s, j)
    requires t.rooms[j].members == s.rooms[j].members && Alone.MembersOf(ls', j) == Alone.MembersOf(ls, j)
    requires Alone.LengthOf(ls', j) - Alone.LengthOf(ls, j) == |t.rooms[j].log| - |s.rooms[j].log|
    ensures RoomAlike(ls', t, j)
  {
    hide L.Wf, ClientId, Alone.MembersOf, Alone.LengthOf;
  }

  lemma NotifiedQuietly(cfg: Settings, s: State, t: State, id: string)
    requires Notified(cfg, s, t, id) || OnlySent(s, t)
    ensures Quietly(s, t)
  {}

  // What there is to know of the sequential state.
  ghost predicate Sound(cfg: Settings, s: State) {
    && RoomsOk(s.rooms) && NoFalseLobby(cfg, s) && SeatsOk(s.rooms, s.sessions)
    && IdsOk(s.sessions.Keys, s.nextID)
  }

  // The same room is emptied in both.
  lemma EmptiesAlike(cfg: Settings, ls: L.State, s: State, n: nat, k: string)
    requires Alike(ls, s) && Sound(cfg, s) && Live(ls, n) && k in s.rooms
    ensures Alone.Empties(Lobbied(cfg), ls, n, k) <==>
      k == s.sessions[ClientId(n)].roomKey && Vanishes(cfg, s, k, ClientId(n))
  {
    SparesAlike(cfg, s, k);
    MembersAlike(cfg, ls, s, n, k);
    assert WellNamed(k, s.rooms[k]) && k != "";
    hide L.Wf, ClientId, Alone.MembersOf, Alone.LengthOf, Lower, Lobbied, SeatsOk, IdsOk, RoomAlike;
  }

  lemma MembersAlike(cfg: Settings, ls: L.State, s: State, n: nat, k: string)
    requires Alike(ls, s) && Sound(cfg, s) && k in s.rooms
    ensures Alone.MembersOf(ls, k) - {n} == {} <==> s.rooms[k].members - {ClientId(n)} == {}
  {
    hide L.Wf, ClientId, Alone.MembersOf, Alone.LengthOf, RoomsOk, NoFalseLobby;
    assert RoomAlike(ls, s, k);
    if x :| x in s.rooms[k].members - {ClientId(n)} {
      assert InRoom(s.rooms, k, x) <==> HasSeat(s.sessions, k, x);
      assert Issued(x, s.nextID);
      var m: nat :| 1 <= m <= s.nextID && x == ClientId(m);
      assert m in Alone.MembersOf(ls, k) - {n};
    }
    if m :| m in Alone.MembersOf(ls, k) - {n} {
      SameNumber(m, n);
      assert ClientId(m) in s.rooms[k].members - {ClientId(n)};
    }
  }

  lemma SameNumber(m: nat, n: nat)
    ensures ClientId(m) == ClientId(n) ==> m == n
  {
    if ClientId(m) == ClientId(n) { ClientIdInjective(m, n); }
  }

  lemma NewKey(ls: L.State, k: string)
    requires L.Wf(ls) && k !in ls.registered
    ensures Alone.MembersOf(ls, k) == {} && Alone.LengthOf(ls, k) == 0
  {}

  // One thread, one session.
  lemma ThreadMoves(ls: L.State, ls': L.State, s: State, t: State, n: nat)
    requires ThreadsAlike(ls, s) && Live(ls, n) && n in ls'.threads && ls'.threads == ls.threads[n := ls'.threads[n]]
    requires ls'.threads[n].pc == L.Ready && t.nextID == s.nextID
    requires forall id :: id != ClientId(n) ==> (id in t.sessions <==> id in s.sessions)
    requires forall id :: id != ClientId(n) && id in s.sessions ==> t.sessions[id] == s.sessions[id]
    requires ls'.threads[n].removed <==> ClientId(n) !in t.sessions
    requires ClientId(n) in t.sessions ==> ls'.threads[n].cached == t.sessions[ClientId(n)].roomKey
    ensures ThreadsAlike(ls', t)
  {
    hide ClientId;
    forall m: nat
      ensures Live(ls', m) <==> ClientId(m) in t.sessions
      ensures Live(ls', m) ==> ls'.threads[m].cached == t.sessions[ClientId(m)].roomKey
    {
      SameNumber(m, n);
      assert Live(ls, m) <==> ClientId(m) in s.sessions;
    }
  }

  lemma SeatsAlike(cfg: Settings, ls: L.State, ls': L.State, s: State, t: State, n: nat, name: string)
    requires Alike(ls, s) && Live(ls, n) && L.Wf(ls') && Sound(cfg, s)
    requires Seats(cfg, s, t, ClientId(n), name) && Alone.Resits(Lobbied(cfg), ls, ls', n, Lower(name))
    ensures Alike(ls', t)
  {
    hide L.Wf, ClientId, Alone.MembersOf, Alone.LengthOf, Alone.Empties, Vanishes, Queues, Lower, Greets, Told,
         Sound, Lobbied, RoomAlike, ThreadsAlike;
    ThreadThere(ls, s, n);
    forall k | k in s.rooms
      ensures Alone.Empties(Lobbied(cfg), ls, n, k) <==>
        k == s.sessions[ClientId(n)].roomKey && Vanishes(cfg, s, k, ClientId(n))
    {
      EmptiesAlike(cfg, ls, s, n, k);
    }
    ThreadMoves(ls, ls', s, t, n);
    forall k | k in t.rooms ensures RoomAlike(ls', t, k) {
      SeatsRoom(ls, ls', s, t, n, name, k);
    }
  }

  lemma ThreadThere(ls: L.State, s: State, n: nat)
    requires ThreadsAlike(ls, s) && Live(ls, n)
    ensures ClientId(n) in s.sessions && ls.threads[n].pc == L.Ready
    ensures ls.threads[n].cached == s.sessions[ClientId(n)].roomKey
  {}

  lemma SeatsRoom(ls: L.State, ls': L.State, s: State, t: State, n: nat, name: string, k: string)
    requires Alike(ls, s) && L.Wf(ls') && k in t.rooms && k in ls'.registered
    requires k in s.rooms || k == Lower(name)
    requires Alone.MembersOf(ls', k) == (Alone.MembersOf(ls, k) - {n}) + (if k == Lower(name) then {n} else {})
    requires Alone.LengthOf(ls', k) == Alone.LengthOf(ls, k)
    requires if k == Lower(name) then t.rooms[k] == Opened(s, name).(members := Opened(s, name).members + {ClientId(n)})
             else t.rooms[k] == s.rooms[k].(members := s.rooms[k].members - {ClientId(n)})
    ensures RoomAlike(ls', t, k)
  {
    if k in s.rooms { assert RoomAlike(ls, s, k); } else { NewKey(ls, k); }
    hide L.Wf, ClientId, Alone.MembersOf, Alone.LengthOf, Lower, ThreadsAlike;
    forall m: nat ensures m in Alone.MembersOf(ls', k) <==> ClientId(m) in t.rooms[k].members {
      SameNumber(m, n);
    }
  }

  lemma GoesAlike(cfg: Settings, ls: L.State, ls': L.State, s: State, t: State, n: nat)
    requires Alike(ls, s) && Live(ls, n) && L.Wf(ls') && Sound(cfg, s)
    requires Goes(cfg, s, t, ClientId(n)) && Alone.Departs(Lobbied(cfg), ls, ls', n)
    ensures Alike(ls', t)
  {
    hide L.Wf, ClientId, Alone.MembersOf, Alone.LengthOf, Alone.Empties, Vanishes, Queues, Lower, Told,
         Sound, Lobbied, RoomAlike, ThreadsAlike;
    ThreadThere(ls, s, n);
    forall k | k in s.rooms
      ensures Alone.Empties(Lobbied(cfg), ls, n, k) <==>
        k == s.sessions[ClientId(n)].roomKey && Vanishes(cfg, s, k, ClientId(n))
    {
      EmptiesAlike(cfg, ls, s, n, k);
    }
    ThreadMoves(ls, ls', s, t, n);
    forall k | k in t.rooms ensures RoomAlike(ls', t, k) {
      GoesRoom(ls, ls', s, t, n, k);
    }
  }

  lemma GoesRoom(ls: L.State, ls': L.State, s: State, t: State, n: nat, k: string)
    requires Alike(ls, s) && L.Wf(ls') && k in t.rooms && k in s.rooms
    requires Alone.MembersOf(ls', k) == Alone.MembersOf(ls, k) - {n}
    requires Alone.LengthOf(ls', k) == Alone.LengthOf(ls, k)
    requires t.rooms[k] == s.rooms[k].(members := s.rooms[k].members - {ClientId(n)})
    ensures RoomAlike(ls', t, k)
  {
    assert RoomAlike(ls, s, k);
    hide L.Wf, ClientId, Alone.MembersOf, Alone.LengthOf, ThreadsAlike;
    forall m: nat ensures m in Alone.MembersOf(ls', k) <==> ClientId(m) in t.rooms[k].members {
      SameNumber(m, n);
    }
  }

  // A new client, and the thread started for it.
  lemma ThreadComes(ls: L.State, ls': L.State, s: State, t: State, n: nat)
    requires ThreadsAlike(ls, s) && n !in ls.threads
    requires n in ls'.threads && ls'.threads == ls.threads[n := ls'.threads[n]]
    requires Live(ls', n) && ls'.threads[n].pc == L.Ready && t.nextID == n == s.nextID + 1
    requires ClientId(n) in t.sessions && t.sessions == s.sessions[ClientId(n) := t.sessions[ClientId(n)]]
    requires ls'.threads[n].cached == t.sessions[ClientId(n)].roomKey
    ensures ThreadsAlike(ls', t)
  {
    hide ClientId;
    forall m: nat
      ensures Live(ls', m) <==> ClientId(m) in t.sessions
      ensures Live(ls', m) ==> ls'.threads[m].cached == t.sessions[ClientId(m)].roomKey
    {
      SameNumber(m, n);
      assert Live(ls, m) <==> ClientId(m) in s.sessions;
    }
  }

  lemma LobbyIs(cfg: Settings)
    ensures var lobby := Trim(cfg.lobbyName);
      if GoodRoom(lobby) then Lobbied(cfg).lobby == L.Lobby(Lower(lobby), Tight(cfg.lobbyName)) && Lower(lobby) != ""
      else Lobbied(cfg).lobby.NoLobby?
    ensures Trim(if Trim(cfg.lobbyName) == "" then cfg.lobbyName else cfg.lobbyName) == Trim(cfg.lobbyName)
  {
    GoodRooms(cfg.lobbyName);
    LowerTight(Trim(cfg.lobbyName));
    hide Trim, Lower, SanitizeRoomName;
  }

  lemma ComesRoom(ls: L.State, ls': L.State, s: State, t: State, n: nat, name: string, k: string)
    requires Alike(ls, s) && L.Wf(ls') && k in t.rooms && k in ls'.registered && (k in s.rooms || k == Lower(name))
    requires forall j :: j in s.rooms ==> ClientId(n) !in s.rooms[j].members
    requires Alone.MembersOf(ls', k) == Alone.MembersOf(ls, k) + (if k == Lower(name) then {n} else {})
    requires Alone.LengthOf(ls', k) == Alone.LengthOf(ls, k)
    requires if k == Lower(name) then t.rooms[k] == Opened(s, name).(members := Opened(s, name).members + {ClientId(n)})
             else t.rooms[k] == s.rooms[k].(members := s.rooms[k].members - {ClientId(n)})
    ensures RoomAlike(ls', t, k)
  {
    if k in s.rooms { assert RoomAlike(ls, s, k); } else { NewKey(ls, k); }
    hide L.Wf, ClientId, Alone.MembersOf, Alone.LengthOf, Lower, ThreadsAlike;
    forall m: nat ensures m in Alone.MembersOf(ls', k) <==> ClientId(m) in t.rooms[k].members {
      SameNumber(m, n);
    }
  }

  lemma NotInside(cfg: Settings, s: State, id: string)
    requires Sound(cfg, s) && id !in s.sessions
    ensures (forall j :: j in s.rooms ==> id !in s.rooms[j].members) && "" !in s.rooms
  {
    forall j | j in s.rooms ensures id !in s.rooms[j].members {
      assert InRoom(s.rooms, j, id) <==> HasSeat(s.sessions, j, id);
    }
  }

  lemma Resession(a: Sessions, b: Sessions, c: Sessions, id: string)
    requires id in b && b == a[id := b[id]] && id in c && c == b[id := c[id]]
    ensures c == a[id := c[id]]
  {}

  // A first seat leaves no room behind.
  lemma FirstSeat(cfg: Settings, s: State, t: State, id: string, name: string)
    requires id in s.sessions && s.sessions[id].roomKey == "" && "" !in s.rooms && Seats(cfg, s, t, id, name)
    ensures t.nextID == s.nextID && id in t.sessions && t.sessions[id].roomKey == Lower(name)
    ensures t.sessions == s.sessions[id := t.sessions[id]]
    ensures t.rooms.Keys == s.rooms.Keys + {Lower(name)}
    ensures t.rooms[Lower(name)] == Opened(s, name).(members := Opened(s, name).members + {id})
    ensures forall j :: j in t.rooms && j != Lower(name) ==>
      t.rooms[j] == s.rooms[j].(members := s.rooms[j].members - {id})
  {
    hide Lower, Queues, Vanishes;
  }

  // With a lobby to go to.
  lemma ComesToLobby(cfg: Settings, ls: L.State, ls': L.State, s: State, t: State, n: nat)
    requires Alike(ls, s) && L.Wf(ls') && Sound(cfg, s) && n == s.nextID + 1 && ClientId(n) !in s.sessions
    requires Alone.Comes(Lobbied(cfg), ls, ls', n) && GoodRoom(Trim(cfg.lobbyName))
    requires ClientId(n) in Newcomer(s, n).sessions && Seats(cfg, Newcomer(s, n), t, ClientId(n), Trim(cfg.lobbyName))
    ensures Alike(ls', t)
  {
    LobbyIs(cfg);
    NotInside(cfg, s, ClientId(n));
    NewcomerIs(s, n);
    hide L.Wf, ClientId, Alone.MembersOf, Alone.LengthOf, Lower, Sound, Lobbied, RoomAlike, ThreadsAlike, Trim,
         GoodRoom, Newcomer, Seats;
    FirstSeat(cfg, Newcomer(s, n), t, ClientId(n), Trim(cfg.lobbyName));
    Resession(s.sessions, Newcomer(s, n).sessions, t.sessions, ClientId(n));
    ThreadComes(ls, ls', s, t, n);
    forall k | k in t.rooms ensures RoomAlike(ls', t, k) {
      ComesRoom(ls, ls', s, t, n, Trim(cfg.lobbyName), k);
    }
  }

  lemma NewcomerIs(s: State, n: nat)
    ensures var t := Newcomer(s, n);
      && t.rooms == s.rooms && t.nextID == n && ClientId(n) in t.sessions && t.sessions[ClientId(n)].roomKey == ""
      && t.sessions == s.sessions[ClientId(n) := t.sessions[ClientId(n)]]
    ensures ClientId(n) == "client-" + Decimal(n) && GuestName(n) == "guest-" + Decimal4(n)
  {
    hide Decimal, Decimal4, Lower;
  }

  lemma ComesNowhere(cfg: Settings, ls: L.State, ls': L.State, s: State, t: State, n: nat)
    requires Alike(ls, s) && L.Wf(ls') && n == s.nextID + 1 && ClientId(n) !in s.sessions
    requires Alone.Comes(Lobbied(cfg), ls, ls', n) && !GoodRoom(Trim(cfg.lobbyName))
    requires Notified(cfg, Newcomer(s, n), t, ClientId(n))
    ensures Alike(ls', t)
  {
    LobbyIs(cfg);
    NewcomerIs(s, n);
    hide L.Wf, ClientId, Alone.MembersOf, Alone.LengthOf, Queues, Lower, Lobbied, ThreadsAlike, Trim, GoodRoom,
         Newcomer;
    ThreadComes(ls, ls', s, t, n);
    forall k | k in t.rooms ensures RoomAlike(ls', t, k) {
      assert RoomAlike(ls, s, k);
      assert Alone.MembersOf(ls', k) == Alone.MembersOf(ls, k);
    }
  }

  // ---- Rooms with the lobby's key

  lemma StaysTrue(cfg: Settings, s: State, t: State)
    requires NoFalseLobby(cfg, s) && t.rooms.Keys <= s.rooms.Keys
    ensures NoFalseLobby(cfg, t)
  {}

  lemma OpensTrue(cfg: Settings, s: State, t: State, name: string)
    requires NoFalseLobby(cfg, s) && t.rooms.Keys <= s.rooms.Keys + {Lower(name)} && GoodRoom(name)
    ensures NoFalseLobby(cfg, t)
  {
    LobbyIs(cfg);
    if Lower(name) == Lower(cfg.lobbyName) {
      GoodUpToCase(name, cfg.lobbyName);
      TrimTight(cfg.lobbyName);
    }
    hide Trim, Lower, GoodRoom, Lobbied;
  }

  // ---- One event

  ghost predicate Stands(cfg: Settings, actions: seq<L.Action>, s: State) {
    Alike(L.Run(Lobbied(cfg), actions), s) && NoFalseLobby(cfg, s)
  }

  lemma SaysStands(cfg: Settings, before: seq<L.Action>, s: State, t: State, n: nat, text: string)
    returns (more: seq<L.Action>)
    requires Coherent(cfg, s, {}) && Stands(cfg, before, s) && ClientId(n) in s.sessions
    requires Says(cfg, s, t, ClientId(n), text)
    ensures Stands(cfg, before + more, t)
  {
    hide L.Run, L.Wf, L.Places, L.PostsOk, L.HeardOk, L.PostersOk, ClientId, RoomAlike, Queues, Coherent, Lobbied,
         NoFalseLobby, Posted;
    var ls := L.Run(Lobbied(cfg), before);
    var k := s.sessions[ClientId(n)].roomKey;
    if k == "" {
      more := [];
      assert before + [] == before;
      QuietlyAlike(ls, s, t);
      StaysTrue(cfg, s, t);
    } else {
      more := Alone.SpeechSteps(n);
      Alone.SpeaksOnce(Lobbied(cfg), before, n, k);
      PostedAlike(cfg, ls, L.Run(Lobbied(cfg), before + more), s, t, n, k, text);
      PostedKeys(cfg, s, t, k, text);
      StaysTrue(cfg, s, t);
    }
  }

  lemma PostedKeys(cfg: Settings, s: State, t: State, k: string, text: string)
    requires k in s.rooms && Posted(cfg, s, t, k, text)
    ensures t.rooms.Keys == s.rooms.Keys
  {}

  lemma QuietStands(cfg: Settings, before: seq<L.Action>, s: State, t: State)
    requires Stands(cfg, before, s) && Quietly(s, t)
    ensures Stands(cfg, before, t)
  {
    hide L.Run, Alike, NoFalseLobby;
    QuietlyAlike(L.Run(Lobbied(cfg), before), s, t);
    StaysTrue(cfg, s, t);
  }

  lemma GoodIsSound(cfg: Settings, s: State)
    requires Good(cfg, s) && NoFalseLobby(cfg, s)
    ensures Sound(cfg, s) && Coherent(cfg, s, {})
  {}

  lemma JoinsStands(cfg: Settings, before: seq<L.Action>, s: State, t: State, n: nat, desired: string)
    returns (more: seq<L.Action>)
    requires Good(cfg, s) && Stands(cfg, before, s) && ClientId(n) in s.sessions
    requires Joins(cfg, s, t, ClientId(n), desired)
    ensures Stands(cfg, before + more, t)
  {
    hide Stands, ClientId, Good, Sound, NoFalseLobby, Trim, Lower, GoodRoom, Seats, Notified, Coherent, L.Run,
         Alone.SeatSteps;
    StandsTrue(cfg, before, s);
    GoodIsSound(cfg, s);
    var name := Trim(if Trim(desired) == "" then cfg.lobbyName else desired);
    if GoodRoom(name) && s.sessions[ClientId(n)].roomKey != Lower(name) {
      more := Alone.SeatSteps(n, Lower(name));
      SeatStands(cfg, before, s, t, n, name);
    } else {
      more := [];
      assert before + [] == before;
      NotifiedQuietly(cfg, s, t, ClientId(n));
      QuietStands(cfg, before, s, t);
    }
  }

  lemma SeatStands(cfg: Settings, before: seq<L.Action>, s: State, t: State, n: nat, name: string)
    requires Sound(cfg, s) && Stands(cfg, before, s) && ClientId(n) in s.sessions && GoodRoom(name)
    requires s.sessions[ClientId(n)].roomKey != Lower(name) && Seats(cfg, s, t, ClientId(n), name)
    ensures Stands(cfg, before + Alone.SeatSteps(n, Lower(name)), t)
  {
    hide L.Run, L.Wf, L.Places, L.PostsOk, L.HeardOk, L.PostersOk, ClientId, RoomAlike, Sound, Lobbied, Lower, GoodRoom,
         Seats, Alone.Resits, Alone.SeatSteps, NoFalseLobby;
    NotBlankKey(name);
    var more := Alone.SeatSteps(n, Lower(name));
    Alone.TakesSeat(Lobbied(cfg), before, n, Lower(name));
    SeatsAlike(cfg, L.Run(Lobbied(cfg), before), L.Run(Lobbied(cfg), before + more), s, t, n, name);
    SeatsKeys(cfg, s, t, ClientId(n), name);
    OpensTrue(cfg, s, t, name);
  }

  lemma NotBlankKey(name: string)
    requires GoodRoom(name)
    ensures Lower(name) != ""
  {}

  lemma SeatsKeys(cfg: Settings, s: State, t: State, id: string, name: string)
    requires id in s.sessions && Seats(cfg, s, t, id, name)
    ensures t.rooms.Keys <= s.rooms.Keys + {Lower(name)}
  {
    hide Lower, Queues;
  }

  lemma GoesStands(cfg: Settings, before: seq<L.Action>, s: State, t: State, n: nat)
    requires Good(cfg, s) && Stands(cfg, before, s) && ClientId(n) in s.sessions && Goes(cfg, s, t, ClientId(n))
    ensures Stands(cfg, before + [L.Remove(n)], t)
  {
    GoodIsSound(cfg, s);
    hide L.Run, L.Wf, L.Places, L.PostsOk, L.HeardOk, L.PostersOk, ClientId, RoomAlike, Good, Sound, Lobbied,
         NoFalseLobby, Goes, Coherent;
    var ls := L.Run(Lobbied(cfg), before);
    Alone.Goes(Lobbied(cfg), before, n);
    GoesAlike(cfg, ls, L.Run(Lobbied(cfg), before + [L.Remove(n)]), s, t, n);
    GoesKeys(cfg, s, t, ClientId(n));
    StaysTrue(cfg, s, t);
  }

  lemma GoesKeys(cfg: Settings, s: State, t: State, id: string)
    requires id in s.sessions && Goes(cfg, s, t, id)
    ensures t.rooms.Keys <= s.rooms.Keys
  {
    hide Lower, Queues;
  }

  // ---- Every run

  lemma NumberOf(cfg: Settings, s: State, id: string) returns (n: nat)
    requires Good(cfg, s) && id in s.sessions
    ensures id == ClientId(n) && n <= s.nextID
  {
    hide Coherent, ClientId;
    assert Issued(id, s.nextID);
    n :| 1 <= n <= s.nextID && id == ClientId(n);
  }

  lemma RenamedQuietly(cfg: Settings, s: State, t: State, id: string, n: string)
    requires id in s.sessions && Renamed(cfg, s, t, id, n)
    ensures Quietly(s, t)
  {
    hide Queues, Lower;
  }

  lemma RememberedQuietly(cfg: Settings, s: State, t: State, id: string, args: string)
    requires id in s.sessions && Remembers(cfg, s, t, id, args)
    ensures Quietly(s, t)
  {
    hide Queues, ParseOptionalInt, Recollection, Tail;
  }

  lemma TopicQuietly(cfg: Settings, s: State, id: string, line: string, topic: string)
    requires Coherent(cfg, s, {}) && id in s.sessions && Asks(line, "topic", topic)
    ensures Quietly(s, Step(cfg, s, Input(id, line)))
  {
    hide Step, Asks, Coherent, Queues;
    TopicSets(cfg, s, id, line, topic);
  }

  // Commands that touch neither seats nor logs.
  lemma CommandQuietly(cfg: Settings, s: State, id: string, line: string, cmd: string, args: string)
    requires Coherent(cfg, s, {}) && id in s.sessions && Asks(line, cmd, args) && cmd != ""
    requires cmd !in ["join", "leave", "me", "quit", "exit"]
    ensures Quietly(s, Step(cfg, s, Input(id, line)))
  {
    hide Step, Asks, Coherent, Quietly, Trim, Free, GoodName, Msg, Remembers, Renamed, Notified, OnlySent;
    var t := Step(cfg, s, Input(id, line));
    if Notified(cfg, s, t, id) || OnlySent(s, t) { NotifiedQuietly(cfg, s, t, id); }
    if cmd == "nick" {
      NickGives(cfg, s, id, line, args);
      if Renamed(cfg, s, t, id, args) { RenamedQuietly(cfg, s, t, id, args); }
    } else if cmd == "msg" {
      InputIs(cfg, s, id, line);
      MsgOnlySends(cfg, s, id, args);
    } else if cmd == "topic" {
      TopicQuietly(cfg, s, id, line, args);
    } else if cmd == "history" {
      HistoryRecalls(cfg, s, id, line, args);
      RememberedQuietly(cfg, s, t, id, args);
    } else {
      OthersAreAnswered(cfg, s, id, line, cmd, args);
    }
  }

  lemma MsgOnlySends(cfg: Settings, s: State, id: string, args: string)
    requires id in s.sessions
    ensures OnlySent(s, Msg(cfg, s, id, args))
  {
    hide Lower, Trim, SplitMsg;
  }

  lemma InputStands(cfg: Settings, before: seq<L.Action>, s: State, id: string, line: string)
    returns (more: seq<L.Action>)
    requires Good(cfg, s) && Stands(cfg, before, s) && id in s.sessions
    ensures Stands(cfg, before + more, Step(cfg, s, Input(id, line)))
  {
    hide Good, Coherent, Stands, Step, Trim, Asks, Says, Joins, Goes, Quietly, ClientId, Posted, Notified;
    more := [];
    assert before + [] == before;
    SoundGood(cfg, s);
    var n := NumberOf(cfg, s, id);
    var t := Step(cfg, s, Input(id, line));
    if Trim(line) == "" {
      NothingTyped(cfg, s, id, line, "");
    } else if Trim(line)[0] != '/' {
      LinePosts(cfg, s, id, line);
      more := SaysStands(cfg, before, s, t, n, s.sessions[id].name + ": " + Trim(line));
    } else {
      more := CommandStands(cfg, before, s, n, line);
    }
  }

  lemma SoundGood(cfg: Settings, s: State)
    requires Good(cfg, s)
    ensures Coherent(cfg, s, {})
  {}

  lemma CommandStands(cfg: Settings, before: seq<L.Action>, s: State, n: nat, line: string)
    returns (more: seq<L.Action>)
    requires Good(cfg, s) && Stands(cfg, before, s) && ClientId(n) in s.sessions
    requires Trim(line) != "" && Trim(line)[0] == '/'
    ensures Stands(cfg, before + more, Step(cfg, s, Input(ClientId(n), line)))
  {
    hide Good, Coherent, Stands, Step, Trim, Lower, Says, Joins, Goes, Quietly, ClientId, Posted, Notified;
    more := [];
    assert before + [] == before;
    SoundGood(cfg, s);
    EveryCommandIsTyped(line);
    var word, gap, args :| Typed(line, word, gap, args);
    var cmd, id := Lower(word), ClientId(n);
    var t := Step(cfg, s, Input(id, line));
    assert Asks(line, cmd, args);
    hide Asks, Typed;
    if cmd == "" {
      NothingTyped(cfg, s, id, line, args);
    } else if cmd == "join" {
      JoinTakesSeat(cfg, s, id, line, args);
      more := JoinsStands(cfg, before, s, t, n, args);
    } else if cmd == "leave" {
      LeaveTakesSeat(cfg, s, id, line, args);
      more := JoinsStands(cfg, before, s, t, n, cfg.lobbyName);
    } else if cmd == "quit" || cmd == "exit" {
      QuitGoes(cfg, s, id, line, args);
      GoesStands(cfg, before, s, t, n);
      more := [L.Remove(n)];
    } else if cmd == "me" {
      ActionPosts(cfg, s, id, line, args);
      if args == "" {
        NotifiedQuietly(cfg, s, t, id);
        QuietStands(cfg, before, s, t);
      } else {
        more := SaysStands(cfg, before, s, t, n, "* " + s.sessions[id].name + " " + args);
      }
    } else {
      CommandQuietly(cfg, s, id, line, cmd, args);
      QuietStands(cfg, before, s, t);
    }
  }

  // A connection, said with the model's names.
  lemma ConnectIsNumbered(cfg: Settings, s: State, n: nat)
    requires Good(cfg, s) && n == s.nextID + 1 < SEQ_LIMIT
    ensures var t := Step(cfg, s, Connected);
      && ClientId(n) !in s.sessions && ClientId(n) in Newcomer(s, n).sessions
      && if !Free(s, GuestName(n)) then t == s.(nextID := n)
         else Joins(cfg, Newcomer(s, n), t, ClientId(n), cfg.lobbyName)
  {
    FreshId(s.sessions.Keys, s.nextID);
    assert n == (s.nextID + 1) % SEQ_LIMIT == NextSeq(s.nextID);
    NewcomerIs(s, n);
    hide Coherent, Step, Free, ClientId, Newcomer, GuestName, Decimal, Decimal4, NextSeq, Joins;
    ConnectComes(cfg, s);
  }

  lemma ConnectStands(cfg: Settings, before: seq<L.Action>, s: State) returns (more: seq<L.Action>)
    requires Good(cfg, s) && Stands(cfg, before, s) && s.nextID + 1 < SEQ_LIMIT
    ensures Stands(cfg, before + more, Step(cfg, s, Connected))
  {
    hide Good, Coherent, Sound, Stands, Step, Free, ClientId, Newcomer, GuestName, Joins, Lobbied, NoFalseLobby, L.Run;
    StandsTrue(cfg, before, s);
    GoodIsSound(cfg, s);
    var n := s.nextID + 1;
    ConnectIsNumbered(cfg, s, n);
    if Free(s, GuestName(n)) {
      more := Alone.ComeSteps(Lobbied(cfg), n);
      NewcomerStands(cfg, before, s, Step(cfg, s, Connected), n);
    } else {
      more := [];
      assert before + [] == before;
      RefusedStands(cfg, before, s, n);
    }
  }

  lemma StandsTrue(cfg: Settings, before: seq<L.Action>, s: State)
    requires Stands(cfg, before, s)
    ensures NoFalseLobby(cfg, s)
  {
    hide L.Run, Alike, NoFalseLobby;
  }

  // A refused connection only uses up a number.
  lemma RefusedStands(cfg: Settings, before: seq<L.Action>, s: State, n: nat)
    requires Stands(cfg, before, s) && n == s.nextID + 1
    ensures Stands(cfg, before, s.(nextID := n))
  {
    hide L.Run, L.Wf, ClientId, Lobbied;
    var ls := L.Run(Lobbied(cfg), before);
    forall k | k in s.rooms ensures RoomAlike(ls, s.(nextID := n), k) { assert RoomAlike(ls, s, k); }
  }

  lemma NewcomerStands(cfg: Settings, before: seq<L.Action>, s: State, t: State, n: nat)
    requires Sound(cfg, s) && Stands(cfg, before, s) && n == s.nextID + 1 && ClientId(n) !in s.sessions
    requires ClientId(n) in Newcomer(s, n).sessions && Joins(cfg, Newcomer(s, n), t, ClientId(n), cfg.lobbyName)
    ensures Stands(cfg, before + Alone.ComeSteps(Lobbied(cfg), n), t)
  {
    LobbyIs(cfg);
    NewcomerIs(s, n);
    NotThere(cfg, before, s, n);
    hide L.Run, Sound, NoFalseLobby, Alike, ClientId, Newcomer, Lobbied, Trim, Lower, GoodRoom, Seats, Notified, L.Wf,
         L.Places, L.PostsOk, L.HeardOk, L.PostersOk, Alone.Comes, Alone.ComeSteps;
    var ls, lobby := L.Run(Lobbied(cfg), before), Trim(cfg.lobbyName);
    Alone.ComesOnce(Lobbied(cfg), before, n);
    var ls' := L.Run(Lobbied(cfg), before + Alone.ComeSteps(Lobbied(cfg), n));
    if GoodRoom(lobby) {
      NotBlankKey(lobby);
      ComesToLobby(cfg, ls, ls', s, t, n);
      SeatsKeys(cfg, Newcomer(s, n), t, ClientId(n), lobby);
      OpensTrue(cfg, s, t, lobby);
    } else {
      ComesNowhere(cfg, ls, ls', s, t, n);
      SentKeys(cfg, Newcomer(s, n), t, ClientId(n));
      StaysTrue(cfg, s, t);
    }
  }

  lemma SentKeys(cfg: Settings, s: State, t: State, id: string)
    requires Notified(cfg, s, t, id)
    ensures t.rooms == s.rooms
  {}

  lemma NotThere(cfg: Settings, before: seq<L.Action>, s: State, n: nat)
    requires Stands(cfg, before, s) && n == s.nextID + 1
    ensures n !in L.Run(Lobbied(cfg), before).threads
  {
    hide L.Run, L.Wf, ClientId, Lobbied, RoomAlike;
  }

  lemma StepStands(cfg: Settings, before: seq<L.Action>, s: State, e: Event) returns (more: seq<L.Action>)
    requires Good(cfg, s) && Stands(cfg, before, s) && (e.Connected? ==> s.nextID + 1 < SEQ_LIMIT)
    ensures Stands(cfg, before + more, Step(cfg, s, e))
  {
    hide Good, Stands, Coherent, HandleInput, Connect, RemoveClient, Goes, ClientId;
    more := [];
    assert before + [] == before;
    match e
    case Connected => more := ConnectStands(cfg, before, s);
    case Input(id, line) => if id in s.sessions { more := InputStands(cfg, before, s, id, line); }
    case Disconnected(id) =>
      if id in s.sessions {
        SoundGood(cfg, s);
        var n := NumberOf(cfg, s, id);
        DisconnectGoes(cfg, s, id);
        GoesStands(cfg, before, s, Step(cfg, s, e), n);
        more := [L.Remove(n)];
      }
    case Taken(id) => QuietStands(cfg, before, s, Step(cfg, s, e));
  }

  // Any sequence of connections, input lines, disconnects and queue reads, below the wrap of the counter, is
  // matched by lock sections: same rooms under the same keys, same members, logs of the same lengths, the
  // same clients with the same keys.
  lemma {:induction false} SequentialRun(cfg: Settings, events: seq<Event>) returns (actions: seq<L.Action>)
    requires Connects(events) < SEQ_LIMIT
    ensures Alike(L.Run(Lobbied(cfg), actions), Run(cfg, Initial, events))
    ensures Stands(cfg, actions, Run(cfg, Initial, events))
  {
    hide Good, Step, L.Step, Alike;
    if events == [] {
      actions := [];
      StartsAlike(cfg);
    } else {
      var front, last := events[..|events| - 1], events[|events| - 1];
      var before := SequentialRun(cfg, front);
      RunKeeps(cfg, front);
      SequenceNumber(cfg, front);
      hide Stands, L.Run;
      var more := StepStands(cfg, before, Run(cfg, Initial, front), last);
      actions := before + more;
      StandsAlike(cfg, actions, Run(cfg, Initial, events));
    }
  }

  lemma StandsAlike(cfg: Settings, actions: seq<L.Action>, s: State)
    requires Stands(cfg, actions, s)
    ensures Alike(L.Run(Lobbied(cfg), actions), s)
  {
    hide L.Run, Alike;
  }

  lemma StartsAlike(cfg: Settings)
    ensures Stands(cfg, [], Initial)
  {
    assert L.Run(Lobbied(cfg), []) == L.Initial;
    hide L.Run, ClientId, Lobbied;
  }
}
