// The hub and its connections as objects go through the states of the transition system.
module HubServing {
  import opened Text
  import opened Channels
  import opened HubModel
  import opened HubNames
  import opened HubTurns
  import System = HubSystem
  import Server = HubServer
  import Index = HubIndex

  // ---- The numbers in the indexes stay numbers of connections

  lemma WithinGrows(m: Buckets<nat>, ids: set<nat>, more: set<nat>)
    requires Within(m, ids) && ids <= more
    ensures Within(m, more)
  {}

  lemma WithinPut(m: Buckets<nat>, k: nat, c: nat, ids: set<nat>)
    requires Within(m, ids) && c in ids
    ensures Within(Put(m, k, c), ids)
  {
    PutIs(m, k, c);
    hide Put;
  }

  lemma WithinDrop(m: Buckets<nat>, k: nat, c: nat, ids: set<nat>)
    requires Within(m, ids)
    ensures Within(Drop(m, k, c), ids)
  {
    DropIs(m, k, c);
    hide Drop;
  }

  lemma WithinPurge(m: Buckets<nat>, c: nat, ids: set<nat>)
    requires Within(m, ids)
    ensures Within(Purge(m, c), ids)
  {
    forall k, n | In(Purge(m, c), k, n) ensures n in ids { assert In(m, k, n); }
  }

  lemma OutsWithin(s: System.State, c: nat, e: System.ClientEvent, reply: System.StoreReply, i: nat)
    requires c in s.conns
    ensures var outs := Server.Outs(c, s.conns[c].user, e, reply, s.nextMessage);
      i < |outs| && outs[i].exclude.Some? ==> outs[i].exclude.value == c
  {
    hide Trim;
  }

  lemma HandledClosed(s: System.State, c: nat, e: System.ClientEvent, reply: System.StoreReply)
    requires Closed(s)
    ensures Closed(Handled(s, c, e, reply))
  {
    hide Server.Outs, Within, After, Creates, Put, Drop;
    var t := Handled(s, c, e, reply);
    if t != s {
      assert t.conns.Keys == s.conns.Keys;
      match e {
        case JoinRoom(Some(r)) => WithinPut(s.rooms, r, c, s.conns.Keys);
        case LeaveRoom(Some(r)) => WithinDrop(s.rooms, r, c, s.conns.Keys);
        case _ =>
      }
      forall i | 0 <= i < |t.queue| && t.queue[i].out.exclude.Some? ensures t.queue[i].out.exclude.value in s.conns {
        if i >= |s.queue| { OutsWithin(s, c, e, reply, i - |s.queue|); }
      }
    }
  }

  lemma TurnClosed(s: System.State, t: Turn)
    requires Closed(s)
    ensures Closed(TurnEnd(s, t))
  {
    hide Within, Put, Drop, Purge, All, Recipients, Handled;
    match t
    case Arrive(c, user) =>
      if c !in s.conns {
        var ids := Arrived(s, c, user).conns.Keys;
        assert ids == s.conns.Keys + {c};
        WithinGrows(s.users, s.conns.Keys, ids);
        WithinGrows(s.rooms, s.conns.Keys, ids);
        WithinPut(s.users, user, c, ids);
      }
    case Serve(c, e, reply) => HandledClosed(s, c, e, reply);
    case Relay =>
      assert Relayed(s).conns.Keys == s.conns.Keys;
    case Leave(c) =>
      if c in s.conns {
        assert Left(s, c).conns.Keys == s.conns.Keys;
        WithinDrop(s.users, s.conns[c].user, c, s.conns.Keys);
        WithinPurge(s.rooms, c, s.conns.Keys);
      }
    case Write(c) =>
      assert TurnEnd(s, t).conns.Keys == s.conns.Keys;
  }

  // ---- What the transition system does in a turn

  // Connections keep their room sets; those numbered in ns have been handed e.
  ghost predicate HeardBy(s: System.State, t: System.State, ns: set<nat>, e: Event) {
    forall n :: n in s.conns ==>
      && n in t.conns && t.conns[n].user == s.conns[n].user && t.conns[n].rooms == s.conns[n].rooms
      && t.conns[n].box ==
         if n in ns then s.conns[n].box.Push(System.Stamped(Some(|s.emissions|), e), SEND_CAPACITY)
         else s.conns[n].box
  }

  lemma ArriveNames<C>(f: map<nat, C>, s: System.State, c: nat, user: UserId, x: C)
    requires Closed(s) && f.Keys == s.conns.Keys && c !in f
    ensures var t, g := Arrived(s, c, user), f[c := x];
      && Renamed(g, t.users) == Put(Renamed(f, s.users), user, x)
      && Renamed(g, t.rooms) == Renamed(f, s.rooms) && RenamedQueue(g, t.queue) == RenamedQueue(f, s.queue)
  {
    hide Renamed, RenamedQueue, Put, All, Within, QueueWithin;
    RenamedPut(f[c := x], s.users, user, c);
    RenamedGrow(f, c, x, s.users);
    RenamedGrow(f, c, x, s.rooms);
    QueueGrow(f, c, x, s.queue);
  }

  lemma ArrivedHeard(s: System.State, c: nat, user: UserId)
    requires c !in s.conns
    ensures var t := Arrived(s, c, user);
      && HeardBy(s, t, All(t.users), Presence(user, true))
      && t.conns.Keys == s.conns.Keys + {c} && t.conns[c].user == user && t.conns[c].rooms == {}
      && t.conns[c].box ==
         Outbox([], [], 0, false).Push(System.Stamped(Some(|s.emissions|), Presence(user, true)), SEND_CAPACITY)
      && (forall n :: n in t.conns && n != c ==> t.conns[n].pc == s.conns[n].pc) && t.conns[c].pc.Reading?
      && t.nextMessage == s.nextMessage
  {
    var t := Arrived(s, c, user);
    assert c in All(t.users) by {
      PutIs(s.users, user, c);
      assert In(t.users, user, c);
    }
    hide Put, All;
  }

  lemma EraseNone()
    ensures Erase(Outbox([], [], 0, false)) == Outbox([], [], 0, false)
  {}

  // What can be seen of a connection, and of the transition system's.
  datatype View = View(user: UserId, rooms: set<RoomId>, box: Outbox<Event>)

  function ViewOf(m: System.Conn): View {
    View(m.user, m.rooms, Erase(m.box))
  }

  function ViewsOf(s: System.State): (v: map<nat, View>)
    ensures v.Keys == s.conns.Keys
  {
    map n | n in s.conns :: ViewOf(s.conns[n])
  }

  function Pushed(v: View, e: Event): View {
    v.(box := v.box.Push(e, SEND_CAPACITY))
  }

  // Having handled a client event.
  function ViewAfter(v: View, e: System.ClientEvent, reply: System.StoreReply): View {
    var answer := Server.Answer(v.user, e, reply);
    v.(rooms := Server.OwnRooms(v.rooms, e),
       box := if answer.Some? then v.box.Push(answer.value, SEND_CAPACITY) else v.box)
  }

  lemma HeardViews(s: System.State, t: System.State, ns: set<nat>, e: Event)
    requires HeardBy(s, t, ns, e)
    ensures forall n :: n in s.conns ==>
      ViewsOf(t)[n] == if n in ns then Pushed(ViewsOf(s)[n], e) else ViewsOf(s)[n]
  {
    hide Erase;
    forall n | n in s.conns ensures n in t.conns &&
      ViewsOf(t)[n] == if n in ns then Pushed(ViewsOf(s)[n], e) else ViewsOf(s)[n]
    {
      ErasePush(s.conns[n].box, System.Stamped(Some(|s.emissions|), e), SEND_CAPACITY);
    }
  }

  lemma RelayedHeard(s: System.State)
    requires s.queue != []
    ensures var t, o := Relayed(s), s.queue[0].out;
      && HeardBy(s, t, Recipients(s.users, s.rooms, o), o.event) && t.conns.Keys == s.conns.Keys
      && t.users == s.users && t.rooms == s.rooms && t.queue == s.queue[1..] && t.nextMessage == s.nextMessage
      && (forall n :: n in t.conns ==> t.conns[n].pc == s.conns[n].pc)
  {
    hide Recipients;
  }

  // Only the departure of a user's last connection is heard.
  lemma LeftHeard(s: System.State, c: nat)
    requires c in s.conns && s.conns[c].pc.Reading?
    ensures var t, user := Left(s, c), s.conns[c].user;
      if user in s.users && user !in t.users then HeardBy(s, t, All(t.users), Presence(user, false))
      else forall n :: n in s.conns ==> n in t.conns && ViewOf(t.conns[n]) == ViewOf(s.conns[n])
  {
    hide Drop, Purge, All, Erase;
  }

  lemma LeftLeaves(s: System.State, c: nat)
    requires c in s.conns && s.conns[c].pc.Reading?
    ensures var t := Left(s, c);
      && t.conns.Keys == s.conns.Keys && t.nextMessage == s.nextMessage && t.queue == s.queue
      && t.users == Drop(s.users, s.conns[c].user, c) && t.rooms == Purge(s.rooms, c) && t.conns[c].pc.Gone?
      && (forall n :: n in t.conns && n != c ==> t.conns[n].pc == s.conns[n].pc)
  {
    hide Drop, Purge, All;
  }

  lemma RenamedRooms<C>(f: map<nat, C>, rooms: Buckets<nat>, c: nat, e: System.ClientEvent)
    requires Injective(f) && c in f && Within(rooms, f.Keys)
    ensures Renamed(f, Server.RoomsAfter(rooms, c, e)) == Server.RoomsAfter(Renamed(f, rooms), f[c], e)
  {
    hide Renamed, Put, Drop, Within;
    match e
    case JoinRoom(Some(r)) => RenamedPut(f, rooms, r, c);
    case LeaveRoom(Some(r)) => RenamedDrop(f, rooms, r, c);
    case _ =>
  }

  lemma RenamedOuts<C>(f: map<nat, C>, c: nat, user: UserId, e: System.ClientEvent, reply: System.StoreReply, id: nat)
    requires c in f
    ensures RenamedQueue(f, System.Tags(c, Server.Outs(c, user, e, reply, id))) == Server.Outs(f[c], user, e, reply, id)
  {
    hide Trim;
  }

  lemma RenamedPushes<C>(f: map<nat, C>, q: seq<System.Tagged>, more: seq<System.Tagged>)
    ensures RenamedQueue(f, q + more) == RenamedQueue(f, q) + RenamedQueue(f, more)
  {}

  lemma AnsweredView(k: System.Conn, e: System.ClientEvent, reply: System.StoreReply)
    ensures ViewOf(After(k, e, reply)) == ViewAfter(ViewOf(k), e, reply)
  {
    hide Server.Answer, Server.OwnRooms;
    var answer := Server.Answer(k.user, e, reply);
    if answer.Some? { ErasePush(k.box, System.Stamped(None, answer.value), SEND_CAPACITY); }
    hide Erase;
  }

  // ---- The process: the hub, the connections made so far, and those whose read loop still runs

  class Gateway {
    const hub: Server.Hub
    var conns: map<nat, Server.Conn>
    var reading: set<nat>
    var nextMessage: nat

    constructor ()
      ensures fresh(hub) && Matches(System.Initial) && conns == map[]
    {
      hub := new Server.Hub();
      conns, reading, nextMessage := map[], {}, 0;
    }

    ghost predicate AllValid()
      reads `conns, conns.Values
    {
      forall n :: n in conns ==> conns[n].Valid()
    }

    ghost function Views(): (v: map<nat, View>)
      reads `conns, conns.Values
      ensures v.Keys == conns.Keys
    {
      map n | n in conns :: View(conns[n].user, conns[n].rooms, conns[n].box)
    }

    ghost predicate IndexMatches(s: System.State)
      reads this, hub
    {
      && hub.users == Renamed(conns, s.users) && hub.rooms == Renamed(conns, s.rooms)
      && hub.queue == RenamedQueue(conns, s.queue)
    }

    ghost predicate HubOk()
      reads this, hub, conns.Values
    {
      All(hub.users) <= conns.Values && All(hub.rooms) <= conns.Values && hub.Valid() && AllValid()
    }

    ghost predicate LocalsMatch(s: System.State)
      reads this
    {
      nextMessage == s.nextMessage && forall n :: n in reading <==> n in s.conns && s.conns[n].pc.Reading?
    }

    ghost predicate Matches(s: System.State)
      reads this, hub, conns.Values
    {
      && Injective(conns) && Views() == ViewsOf(s) && IndexMatches(s) && HubOk() && LocalsMatch(s)
      && Closed(s) && Quiet(s)
    }

    // ---- Arriving

    // Those in to have been handed e since v was seen.
    ghost predicate Heard(v: map<nat, View>, to: set<Server.Conn>, e: Event)
      reads `conns, conns.Values
    {
      forall n :: n in v ==> n in conns && Views()[n] == if conns[n] in to then Pushed(v[n], e) else v[n]
    }

    lemma MembersValid()
      requires hub.Valid()
      ensures forall x :: x in All(hub.users) + All(hub.rooms) ==> x.Valid()
    {}

    method AttachBoxes(k: Server.Conn)
      requires HubOk() && k.Valid() && k !in conns.Values
      modifies hub, conns.Values, k`send, k`box
      ensures hub.rooms == old(hub.rooms) && hub.queue == old(hub.queue)
      ensures hub.users == Put(old(hub.users), k.user, k) && hub.Valid() && AllValid()
      ensures k.Valid() && k.box == old(k.box).Push(Presence(k.user, true), SEND_CAPACITY)
      ensures forall n :: n in conns ==>
        && conns[n].rooms == old(conns[n].rooms)
        && conns[n].box == if conns[n] in All(hub.users)
                           then old(conns[n].box).Push(Presence(k.user, true), SEND_CAPACITY)
                           else old(conns[n].box)
    {
      Server.AllPut(hub.users, k.user, k);
      hide Put, All, Server.Hub.Valid, Server.Conn.Valid;
      hub.AddConn(k);
      MembersValid();
    }

    method Attach(k: Server.Conn)
      requires HubOk() && k.Valid() && k !in conns.Values
      modifies hub, conns.Values, k`send, k`box
      ensures hub.rooms == old(hub.rooms) && hub.queue == old(hub.queue)
      ensures hub.users == Put(old(hub.users), k.user, k) && hub.Valid() && AllValid()
      ensures k.Valid() && k.box == old(k.box).Push(Presence(k.user, true), SEND_CAPACITY)
      ensures Heard(old(Views()), All(hub.users), Presence(k.user, true))
    {
      hide Put, All, Server.Hub.Valid, Server.Conn.Valid, AllValid;
      AttachBoxes(k);
    }

    method Record(c: nat, k: Server.Conn)
      requires c !in conns && AllValid() && k.Valid() && hub.Valid()
      modifies `conns, `reading
      ensures conns == old(conns)[c := k] && reading == old(reading) + {c} && AllValid() && hub.Valid()
      ensures Views() == old(Views())[c := View(k.user, k.rooms, k.box)]
    {
      hide Server.Conn.Valid;
      conns := conns[c := k];
      reading := reading + {c};
    }

    method Join(c: nat, k: Server.Conn)
      requires HubOk() && c !in conns && k.Valid() && k !in conns.Values
      modifies this, hub, conns.Values, k`send, k`box
      ensures conns == old(conns)[c := k] && reading == old(reading) + {c}
      ensures nextMessage == old(nextMessage) && hub.rooms == old(hub.rooms) && hub.queue == old(hub.queue)
      ensures hub.users == Put(old(hub.users), k.user, k) && hub.Valid() && AllValid()
      ensures Views()[c] == View(k.user, k.rooms, old(k.box).Push(Presence(k.user, true), SEND_CAPACITY))
      ensures Heard(old(Views()), All(hub.users), Presence(k.user, true))
    {
      hide Put, All, Server.Hub.Valid, Server.Conn.Valid, Views, AllValid;
      Attach(k);
      Record(c, k);
    }

    method Register(c: nat, user: UserId) returns (k: Server.Conn)
      requires HubOk() && c !in conns
      modifies this, hub, conns.Values
      ensures fresh(k) && conns == old(conns)[c := k] && reading == old(reading) + {c}
      ensures nextMessage == old(nextMessage) && hub.rooms == old(hub.rooms) && hub.queue == old(hub.queue)
      ensures hub.users == Put(old(hub.users), user, k) && hub.Valid() && AllValid()
      ensures Views()[c] == Pushed(View(user, {}, Outbox([], [], 0, false)), Presence(user, true))
      ensures Heard(old(Views()), All(hub.users), Presence(user, true))
    {
      hide Put, All, Server.Hub.Valid, Server.Conn.Valid, Views, AllValid, Heard;
      k := new Server.Conn(user);
      Join(c, k);
    }

    // Every connection has heard what its counterpart has.
    lemma HeardAlike(s: System.State, t: System.State, users: Buckets<nat>, e: Event, n: nat)
      requires n in s.conns && n in conns && Heard(ViewsOf(s), All(hub.users), e) && HeardBy(s, t, All(users), e)
      requires Injective(conns) && hub.users == Renamed(conns, users)
      ensures Views()[n] == ViewsOf(t)[n]
    {
      hide All, Injective, Renamed, Erase, HeardBy, ViewsOf;
      RenamedAll(conns, users, n);
      HeardViews(s, t, All(users), e);
    }

    lemma NewcomerViews(s: System.State, c: nat, user: UserId)
      requires c !in s.conns
      ensures ViewsOf(Arrived(s, c, user))[c] == Pushed(View(user, {}, Outbox([], [], 0, false)), Presence(user, true))
    {
      hide Put, All, Erase, HeardBy, Arrived;
      ArrivedHeard(s, c, user);
      ErasePush(Outbox([], [], 0, false), System.Stamped(Some(|s.emissions|), Presence(user, true)), SEND_CAPACITY);
      EraseNone();
    }

    lemma ArriveViews(s: System.State, c: nat, user: UserId)
      requires c !in s.conns && c in conns && conns.Keys == s.conns.Keys + {c} && Injective(conns)
      requires hub.users == Renamed(conns, Arrived(s, c, user).users)
      requires Views()[c] == Pushed(View(user, {}, Outbox([], [], 0, false)), Presence(user, true))
      requires Heard(ViewsOf(s), All(hub.users), Presence(user, true))
      ensures Views() == ViewsOf(Arrived(s, c, user))
    {
      hide Put, All, Injective, Arrived, Renamed, Erase, Heard, HeardBy, Views, ViewsOf;
      var t := Arrived(s, c, user);
      ArrivedHeard(s, c, user);
      NewcomerViews(s, c, user);
      forall n | n in t.conns ensures Views()[n] == ViewsOf(t)[n] {
        if n != c { HeardAlike(s, t, t.users, Presence(user, true), n); }
      }
    }

    lemma ArriveMatches(f: map<nat, Server.Conn>, s: System.State, c: nat, user: UserId, k: Server.Conn)
      requires Injective(f) && Closed(s) && Quiet(s) && f.Keys == s.conns.Keys && c !in f && k !in f.Values
      requires conns == f[c := k] && hub.users == Put(Renamed(f, s.users), user, k)
      requires hub.rooms == Renamed(f, s.rooms) && hub.queue == RenamedQueue(f, s.queue)
      requires nextMessage == s.nextMessage && hub.Valid() && AllValid()
      requires forall n :: n in reading <==> n == c || (n in s.conns && s.conns[n].pc.Reading?)
      requires Views()[c] == Pushed(View(user, {}, Outbox([], [], 0, false)), Presence(user, true))
      requires Heard(ViewsOf(s), All(hub.users), Presence(user, true))
      ensures Matches(Arrived(s, c, user))
    {
      hide Put, All, Server.Hub.Valid, Injective, Closed, Arrived, Quiet, Renamed, RenamedQueue, Heard, Views, ViewsOf,
           AllValid, HeardBy;
      ArrivedHeard(s, c, user);
      TurnClosed(s, Turn.Arrive(c, user));
      TurnRuns(s, Turn.Arrive(c, user));
      ValuesGrow(f, c, k);
      ArriveNames(f, s, c, user, k);
      ArriveViews(s, c, user);
      RenamedAllWithin(conns, Arrived(s, c, user).users);
      RenamedAllWithin(conns, Arrived(s, c, user).rooms);
    }

    method Arrive(c: nat, user: UserId, ghost s: System.State)
      requires Matches(s)
      modifies this, hub, conns.Values
      ensures Matches(Arrived(s, c, user)) && fresh(conns.Values - old(conns.Values))
    {
      hide Put, All, Server.Hub.Valid, Injective, Closed, Quiet, Renamed, RenamedQueue, Heard, Views, ViewsOf, AllValid,
           System.AddSection;
      if c in conns {
        return;
      }
      var k := Register(c, user);
      hide Matches, Arrived;
      ArriveMatches(old(conns), s, c, user, k);
    }

    // ---- The turns that change no table of connections

    lemma Settled(s: System.State, t: Turn)
      requires Injective(conns) && Closed(s) && Quiet(s) && hub.Valid() && AllValid()
      requires Views() == ViewsOf(TurnEnd(s, t)) && IndexMatches(TurnEnd(s, t)) && LocalsMatch(TurnEnd(s, t))
      ensures Matches(TurnEnd(s, t))
    {
      hide Server.Hub.Valid, Injective, Closed, Quiet, TurnEnd, Renamed, RenamedQueue, Views, ViewsOf, AllValid,
           LocalsMatch, All;
      TurnClosed(s, t);
      TurnRuns(s, t);
      RenamedAllWithin(conns, TurnEnd(s, t).users);
      RenamedAllWithin(conns, TurnEnd(s, t).rooms);
    }

    // The store's number for the message, if there is one.
    method IssueId(e: System.ClientEvent, reply: System.StoreReply) returns (id: nat)
      requires hub.Valid()
      modifies `nextMessage
      ensures id == old(nextMessage) && nextMessage == id + (if Creates(e, reply) then 1 else 0) && hub.Valid()
    {
      hide Creates;
      id := nextMessage;
      if Creates(e, reply) {
        nextMessage := nextMessage + 1;
      }
    }

    method HandleOne(c: nat, e: System.ClientEvent, reply: System.StoreReply)
      requires HubOk() && Injective(conns) && c in conns && |hub.queue| + 2 <= BROADCAST_CAPACITY
      modifies `nextMessage, hub, conns[c]
      ensures nextMessage == old(nextMessage) + if Creates(e, reply) then 1 else 0
      ensures hub.users == old(hub.users) && hub.rooms == Server.RoomsAfter(old(hub.rooms), conns[c], e)
      ensures hub.queue == old(hub.queue) + Server.Outs(conns[c], conns[c].user, e, reply, old(nextMessage))
      ensures hub.Valid() && AllValid()
      ensures Views() == old(Views())[c := ViewAfter(old(Views())[c], e, reply)]
    {
      hide Server.Outs, Server.RoomsAfter, Server.Answer, Server.OwnRooms, Creates, Server.Hub.Valid, Server.Conn.Valid,
           All;
      var id := IssueId(e, reply);
      conns[c].HandleClientEvent(hub, e, reply, id);
    }

    lemma HandledIndex(s: System.State, c: nat, e: System.ClientEvent, reply: System.StoreReply)
      requires Injective(conns) && Closed(s) && conns.Keys == s.conns.Keys && c in conns
      requires s.conns[c].pc.Reading? && |s.queue| + 2 <= BROADCAST_CAPACITY && hub.users == Renamed(conns, s.users)
      requires hub.rooms == Server.RoomsAfter(Renamed(conns, s.rooms), conns[c], e)
      requires hub.queue == RenamedQueue(conns, s.queue)
                            + Server.Outs(conns[c], s.conns[c].user, e, reply, s.nextMessage)
      ensures IndexMatches(Handled(s, c, e, reply))
    {
      hide Server.Outs, Server.RoomsAfter, After, Creates, Injective, Renamed, RenamedQueue, System.Tags, Within;
      assert Within(s.rooms, conns.Keys);
      RenamedRooms(conns, s.rooms, c, e);
      RenamedOuts(conns, c, s.conns[c].user, e, reply, s.nextMessage);
      RenamedPushes(conns, s.queue, System.Tags(c, Server.Outs(c, s.conns[c].user, e, reply, s.nextMessage)));
    }

    lemma HandledViews(s: System.State, c: nat, e: System.ClientEvent, reply: System.StoreReply)
      requires c in s.conns && s.conns[c].pc.Reading? && |s.queue| + 2 <= BROADCAST_CAPACITY
      ensures var t := Handled(s, c, e, reply);
        && ViewsOf(t) == ViewsOf(s)[c := ViewAfter(ViewsOf(s)[c], e, reply)]
        && t.conns.Keys == s.conns.Keys && (forall n :: n in t.conns ==> t.conns[n].pc == s.conns[n].pc)
        && t.nextMessage == s.nextMessage + if Creates(e, reply) then 1 else 0
    {
      hide Server.Outs, Server.RoomsAfter, ViewOf, ViewAfter, After, Creates, System.Tags;
      AnsweredView(s.conns[c], e, reply);
      AfterReads(s.conns[c], e, reply);
    }

    lemma HandledMatches(s: System.State, c: nat, e: System.ClientEvent, reply: System.StoreReply)
      requires Injective(conns) && Closed(s) && Quiet(s) && hub.Valid() && AllValid()
      requires conns.Keys == s.conns.Keys && c in conns && s.conns[c].pc.Reading? && |s.queue| + 2 <= BROADCAST_CAPACITY
      requires hub.users == Renamed(conns, s.users)
      requires hub.rooms == Server.RoomsAfter(Renamed(conns, s.rooms), conns[c], e)
      requires hub.queue == RenamedQueue(conns, s.queue)
                            + Server.Outs(conns[c], s.conns[c].user, e, reply, s.nextMessage)
      requires Views() == ViewsOf(s)[c := ViewAfter(ViewsOf(s)[c], e, reply)]
      requires nextMessage == s.nextMessage + if Creates(e, reply) then 1 else 0
      requires forall n :: n in reading <==> n in s.conns && s.conns[n].pc.Reading?
      ensures Matches(Handled(s, c, e, reply))
    {
      hide Server.Outs, Server.RoomsAfter, ViewsOf, ViewAfter, After, Creates, Server.Hub.Valid, Injective, Quiet,
           Closed, Renamed, RenamedQueue, Views, AllValid, All, IndexMatches, Matches, Handled;
      HandledIndex(s, c, e, reply);
      HandledViews(s, c, e, reply);
      Settled(s, Turn.Serve(c, e, reply));
    }

    lemma UserSeen(s: System.State, c: nat)
      requires Views() == ViewsOf(s) && c in conns
      ensures c in s.conns && conns[c].user == s.conns[c].user
    {
      assert Views()[c] == ViewsOf(s)[c];
    }

    method Serve(c: nat, e: System.ClientEvent, reply: System.StoreReply, ghost s: System.State)
      requires Matches(s)
      modifies this, hub, conns.Values
      ensures Matches(Handled(s, c, e, reply)) && conns == old(conns)
    {
      hide Server.Outs, Server.RoomsAfter, ViewAfter, After, Creates, Server.Hub.Valid, Injective, Closed, Quiet,
           Renamed, RenamedQueue, Views, ViewsOf, AllValid, All;
      assert |hub.queue| == |s.queue|;
      if c !in reading || |hub.queue| + 2 > BROADCAST_CAPACITY {
        return;
      }
      UserSeen(s, c);
      HandleOne(c, e, reply);
      hide Matches, Handled;
      HandledMatches(s, c, e, reply);
    }

    // ---- Relaying

    method RelayOne() returns (o: Outbound<Server.Conn>)
      requires HubOk() && hub.queue != []
      modifies hub, conns.Values
      ensures old(hub.queue) == [o] + hub.queue && hub.users == old(hub.users) && hub.rooms == old(hub.rooms)
      ensures hub.Valid() && AllValid()
      ensures Heard(old(Views()), Recipients(hub.users, hub.rooms, o), o.event)
    {
      hide All, Recipients, Server.Hub.Valid, Server.Conn.Valid;
      o := hub.RelayNext();
      Server.RecipientsHeld(hub.users, hub.rooms, o);
      MembersValid();
    }

    // Every connection has heard what its counterpart has.
    lemma RelayedAlike(s: System.State, n: nat)
      requires s.queue != [] && n in conns && conns.Keys == s.conns.Keys && Injective(conns) && Closed(s)
      requires Heard(ViewsOf(s), Recipients(Renamed(conns, s.users), Renamed(conns, s.rooms),
                                            RenamedOut(conns, s.queue[0].out)), s.queue[0].out.event)
      ensures n in Relayed(s).conns && Views()[n] == ViewsOf(Relayed(s))[n]
    {
      var o := s.queue[0].out;
      assert o.exclude.Some? ==> o.exclude.value in conns;
      hide Recipients, Injective, Relayed, Renamed, RenamedOut, Erase, HeardBy, ViewsOf, Closed;
      RelayedHeard(s);
      HeardViews(s, Relayed(s), Recipients(s.users, s.rooms, o), o.event);
      RenamedRecipients(conns, s.users, s.rooms, o, n);
    }

    lemma RelayedViews(s: System.State)
      requires s.queue != [] && conns.Keys == s.conns.Keys && Injective(conns) && Closed(s)
      requires Heard(ViewsOf(s), Recipients(Renamed(conns, s.users), Renamed(conns, s.rooms),
                                            RenamedOut(conns, s.queue[0].out)), s.queue[0].out.event)
      ensures Views() == ViewsOf(Relayed(s))
    {
      hide Recipients, Injective, Relayed, Renamed, RenamedOut, Erase, HeardBy, Views, ViewsOf, Closed, Heard;
      RelayedHeard(s);
      forall n | n in conns ensures Views()[n] == ViewsOf(Relayed(s))[n] {
        RelayedAlike(s, n);
      }
    }

    lemma RelayMatches(s: System.State)
      requires Injective(conns) && Closed(s) && Quiet(s) && hub.Valid() && AllValid()
      requires conns.Keys == s.conns.Keys && s.queue != [] && LocalsMatch(s)
      requires hub.users == Renamed(conns, s.users) && hub.rooms == Renamed(conns, s.rooms)
      requires hub.queue == RenamedQueue(conns, s.queue)[1..]
      requires Heard(ViewsOf(s), Recipients(hub.users, hub.rooms, RenamedOut(conns, s.queue[0].out)),
                     s.queue[0].out.event)
      ensures Matches(Relayed(s))
    {
      hide Recipients, Server.Hub.Valid, Injective, Closed, Quiet, Renamed, RenamedOut, Views, ViewsOf, AllValid, All,
           Heard,
           HeardBy, Matches, Relayed;
      RelayedHeard(s);
      RelayedViews(s);
      QueueHead(conns, s.queue);
      Settled(s, Turn.Relay);
    }

    method Relay(ghost s: System.State)
      requires Matches(s)
      modifies this, hub, conns.Values
      ensures Matches(Relayed(s)) && conns == old(conns)
    {
      hide Recipients, Server.Hub.Valid, Injective, Closed, Quiet, Renamed, RenamedQueue, Views, ViewsOf, AllValid, All,
           Heard;
      if hub.queue == [] {
        assert s.queue == [];
        return;
      }
      QueueHead(conns, s.queue);
      var o := RelayOne();
      assert old(hub.queue)[0] == o && old(hub.queue)[1..] == hub.queue;
      hide Matches, Relayed;
      RelayMatches(s);
    }

    // ---- Leaving

    // Those still there hear of the user's departure exactly if this was the last connection.
    ghost predicate HeardDeparture(v: map<nat, View>, user: UserId, before: Buckets<Server.Conn>)
      reads this, hub, conns.Values
    {
      if user in before && user !in hub.users then Heard(v, All(hub.users), Presence(user, false)) else Views() == v
    }

    method StopReading(c: nat)
      requires HubOk()
      modifies `reading
      ensures reading == old(reading) - {c} && HubOk() && Views() == old(Views())
    {
      reading := reading - {c};
    }

    method RemoveBoxes(k: Server.Conn)
      requires HubOk()
      modifies hub, conns.Values
      ensures hub.users == Drop(old(hub.users), k.user, k) && hub.rooms == Purge(old(hub.rooms), k)
      ensures hub.queue == old(hub.queue) && hub.Valid() && AllValid()
      ensures forall n :: n in conns ==>
        && conns[n].rooms == old(conns[n].rooms)
        && conns[n].box == if conns[n] in old(All(hub.users))
                           then hub.HeardLeaving(conns[n], old(conns[n].box), k.user, old(hub.users))
                           else old(conns[n].box)
    {
      hide All, Drop, Purge, Server.Hub.Valid, Server.Conn.Valid, Server.Hub.HeardLeaving;
      hub.RemoveConn(k);
    }

    method RemoveOne(k: Server.Conn)
      requires HubOk()
      modifies hub, conns.Values
      ensures hub.users == Drop(old(hub.users), k.user, k) && hub.rooms == Purge(old(hub.rooms), k)
      ensures hub.queue == old(hub.queue) && hub.Valid() && AllValid()
      ensures HeardDeparture(old(Views()), k.user, old(hub.users))
    {
      hide All, Drop, Purge, Server.Hub.Valid, AllValid;
      Server.AllDrop(hub.users, k.user, k);
      RemoveBoxes(k);
    }

    lemma AllHeard(s: System.State, t: System.State, e: Event)
      requires conns.Keys == s.conns.Keys == t.conns.Keys && Injective(conns) && hub.users == Renamed(conns, t.users)
      requires Heard(ViewsOf(s), All(hub.users), e) && HeardBy(s, t, All(t.users), e)
      ensures Views() == ViewsOf(t)
    {
      hide Heard, HeardBy, All, Renamed, Views, ViewsOf, Injective;
      forall n | n in t.conns ensures Views()[n] == ViewsOf(t)[n] {
        HeardAlike(s, t, t.users, e, n);
      }
    }

    lemma LeftViews(f: Buckets<Server.Conn>, s: System.State, c: nat)
      requires c in s.conns && s.conns[c].pc.Reading? && conns.Keys == s.conns.Keys && Injective(conns)
      requires f == Renamed(conns, s.users) && hub.users == Renamed(conns, Left(s, c).users)
      requires HeardDeparture(ViewsOf(s), s.conns[c].user, f)
      ensures Views() == ViewsOf(Left(s, c))
    {
      var t, user := Left(s, c), s.conns[c].user;
      assert user in f <==> user in s.users;
      assert user in hub.users <==> user in t.users;
      hide All, Drop, Injective, Left, Erase, HeardBy, Views, ViewOf, Heard, Renamed;
      LeftHeard(s, c);
      LeftLeaves(s, c);
      if user in s.users && user !in t.users {
        AllHeard(s, t, Presence(user, false));
      } else {
        assert ViewsOf(t) == ViewsOf(s);
      }
    }

    lemma LeftIndex(s: System.State, c: nat)
      requires Injective(conns) && Closed(s) && conns.Keys == s.conns.Keys && c in conns && s.conns[c].pc.Reading?
      requires hub.users == Drop(Renamed(conns, s.users), s.conns[c].user, conns[c])
      requires hub.rooms == Purge(Renamed(conns, s.rooms), conns[c]) && hub.queue == RenamedQueue(conns, s.queue)
      ensures IndexMatches(Left(s, c))
    {
      assert Within(s.users, conns.Keys) && Within(s.rooms, conns.Keys);
      hide Injective, Closed, Renamed, RenamedQueue, Left, Drop, Purge, Within;
      LeftLeaves(s, c);
      RenamedDrop(conns, s.users, s.conns[c].user, c);
      RenamedPurge(conns, s.rooms, c);
    }

    lemma LeftLocals(s: System.State, c: nat)
      requires c in s.conns && s.conns[c].pc.Reading? && nextMessage == s.nextMessage
      requires forall n :: n in reading <==> n != c && n in s.conns && s.conns[n].pc.Reading?
      ensures LocalsMatch(Left(s, c))
    {
      hide Left;
      LeftLeaves(s, c);
    }

    lemma LeaveMatches(f: Buckets<Server.Conn>, s: System.State, c: nat)
      requires Injective(conns) && Closed(s) && Quiet(s) && hub.Valid() && AllValid()
      requires conns.Keys == s.conns.Keys && c in conns && s.conns[c].pc.Reading?
      requires f == Renamed(conns, s.users) && hub.users == Drop(f, s.conns[c].user, conns[c])
      requires hub.rooms == Purge(Renamed(conns, s.rooms), conns[c]) && hub.queue == RenamedQueue(conns, s.queue)
      requires HeardDeparture(ViewsOf(s), s.conns[c].user, f)
      requires nextMessage == s.nextMessage
      requires forall n :: n in reading <==> n != c && n in s.conns && s.conns[n].pc.Reading?
      ensures Matches(Left(s, c))
    {
      hide Server.Hub.Valid, Injective, Closed, Quiet, Renamed, RenamedQueue, Views, ViewsOf, AllValid, All, Heard,
           HeardBy,
           HeardDeparture, Matches, Left, Drop, Purge;
      LeftIndex(s, c);
      LeftViews(f, s, c);
      LeftLocals(s, c);
      Settled(s, Turn.Leave(c));
    }

    method Leave(c: nat, ghost s: System.State)
      requires Matches(s)
      modifies this, hub, conns.Values
      ensures Matches(Left(s, c)) && conns == old(conns)
    {
      hide Server.Hub.Valid, Injective, Closed, Quiet, Renamed, RenamedQueue, Views, ViewsOf, AllValid, All,
           HeardDeparture,
           System.RemoveSection, Drop, Purge;
      if c !in reading {
        return;
      }
      UserSeen(s, c);
      StopReading(c);
      RemoveOne(conns[c]);
      hide Matches, Left;
      LeaveMatches(old(hub.users), s, c);
    }

    // ---- Writing

    method WriteOne(c: nat)
      requires HubOk() && Injective(conns) && c in conns
      modifies conns[c]
      ensures hub.Valid() && AllValid()
      ensures Views() == old(Views())[c := old(Views())[c].(box := old(Views())[c].box.Take())]
    {
      var e := conns[c].TakeNext();
    }

    method Write(c: nat, ghost s: System.State)
      requires Matches(s)
      modifies this, hub, conns.Values
      ensures Matches(System.Step(s, System.Written(c))) && conns == old(conns)
    {
      var t := System.Step(s, System.Written(c));
      hide Server.Hub.Valid, Injective, Closed, Quiet, Renamed, RenamedQueue, Views, AllValid, All, Erase;
      if c !in conns {
        return;
      }
      WriteOne(c);
      EraseTake(s.conns[c].box);
      assert Views() == ViewsOf(t);
      hide ViewsOf, System.Step, Matches;
      Settled(s, Turn.Write(c));
    }

    // ---- Any turn

    method TakeNow(t: Turn, ghost s: System.State)
      requires Matches(s)
      modifies this, hub, conns.Values
      ensures Matches(TurnEnd(s, t)) && fresh(conns.Values - old(conns.Values))
    {
      hide Matches, Arrived, Handled, Relayed, Left, System.Step;
      match t {
        case Arrive(c, user) => Arrive(c, user, s);
        case Serve(c, e, reply) => Serve(c, e, reply, s);
        case Relay => Relay(s);
        case Leave(c) => Leave(c, s);
        case Write(c) => Write(c, s);
      }
    }

    // Whether the handler of the event would have to wait.
    predicate MustWait(t: Turn)
      reads this, hub
    {
      t.Serve? && t.c in reading && |hub.queue| + 2 > BROADCAST_CAPACITY
    }

    lemma WaitsAlike(t: Turn, s: System.State)
      requires Matches(s)
      ensures MustWait(t) <==> Waits(s, t)
    {
      hide Injective, Closed, Quiet, Renamed, RenamedQueue, Views, ViewsOf, AllValid, All, Server.Hub.Valid;
    }

    // A full channel is waited for: the hub relays until there is room.
    method Take(t: Turn, ghost s: System.State)
      requires Matches(s)
      modifies this, hub, conns.Values
      ensures Matches(TurnDone(s, t)) && fresh(conns.Values - old(conns.Values))
    {
      hide Matches, TurnEnd, Relayed, Waits, MustWait;
      ghost var now := s;
      WaitsAlike(t, now);
      while MustWait(t)
        invariant Matches(now) && conns == old(conns) && TurnDone(now, t) == TurnDone(s, t)
        invariant MustWait(t) <==> Waits(now, t)
        decreases |now.queue|
      {
        WaitShrinks(now, t);
        Relay(now);
        now := Relayed(now);
        WaitsAlike(t, now);
      }
      TakeNow(t, now);
    }

    lemma WaitShrinks(s: System.State, t: Turn)
      requires Waits(s, t)
      ensures |Relayed(s).queue| < |s.queue|
    {}
  }

  // Any run, turn by turn: the objects stand for exactly the state the transition system reaches.
  method Run(turns: seq<Turn>) returns (g: Gateway)
    ensures g.Matches(System.Run(System.Initial, Schedule(turns)))
  {
    g := new Gateway();
    ghost var s := System.Initial;
    assert turns[..0] == [];
    for i := 0 to |turns|
      invariant fresh(g) && fresh(g.hub) && fresh(g.conns.Values)
      invariant s == System.Run(System.Initial, Schedule(turns[..i])) && g.Matches(s)
    {
      hide Gateway.Matches, AllSteps, TurnDone, System.Run, Schedule;
      NextTurn(turns, i);
      g.Take(turns[i], s);
      s := TurnDone(s, turns[i]);
    }
    assert turns[..|turns|] == turns;
  }

  // Between two turns a connection is live exactly while its read loop runs.
  lemma QuietPhase(s: System.State, c: nat)
    requires Quiet(s) && Index.PhasesOk(s) && c in s.conns
    ensures s.conns[c].status == if s.conns[c].pc.Reading? then System.Live else System.Dead
  {
    assert Index.PhaseOk(s.hub, c, s.conns[c]);
  }

  // So between two turns of any run the hub's two maps hold exactly the connections being read, each
  // under its own user and under the rooms in its own set.
  lemma ObjectIndex(g: Gateway, turns: seq<Turn>, n: nat)
    requires g.Matches(System.Run(System.Initial, Schedule(turns))) && n in g.conns
    ensures forall u :: In(g.hub.users, u, g.conns[n]) <==> n in g.reading && u == g.conns[n].user
    ensures forall r :: In(g.hub.rooms, r, g.conns[n]) <==> n in g.reading && r in g.conns[n].rooms
  {
    hide System.Run, Schedule, Renamed, In, Injective, Closed, Index.PhasesOk, Index.UsersOk, Index.RoomsOk;
    var s := System.Run(System.Initial, Schedule(turns));
    Index.RunKeeps(Schedule(turns));
    Index.IndexOf(Schedule(turns), n);
    QuietPhase(s, n);
    assert g.Views()[n] == ViewsOf(s)[n];
    forall u ensures In(g.hub.users, u, g.conns[n]) <==> In(s.users, u, n) { RenamedIn(g.conns, s.users, u, n); }
    forall r ensures In(g.hub.rooms, r, g.conns[n]) <==> In(s.rooms, r, n) { RenamedIn(g.conns, s.rooms, r, n); }
  }
}
