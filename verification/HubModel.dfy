// The WebSocket hub's indexes and events on values. The type of a connection is left open:
// the classes in HubServer.dfy use objects, the transition system in HubSystem.dfy uses numbers.
module HubModel {
  import opened Text

  // uuids are modelled as numbers; parsing one is the caller's affair.
  type UserId = nat
  type RoomId = nat

  const SEND_CAPACITY := 64
  const BROADCAST_CAPACITY := 128

  datatype Message = Message(id: nat, room: Option<RoomId>, sender: UserId, recipient: Option<UserId>, body: string)

  datatype Event =
    | MessageEvent(message: Message)
    | Presence(user: UserId, online: bool)
    | Typing(room: Option<RoomId>, recipient: Option<UserId>, user: UserId, isTyping: bool)
    | RoomJoined(joined: RoomId, user: UserId)
    | Failure

  datatype Target = ToRoom(room: RoomId) | ToUser(user: UserId)

  datatype Outbound<C> = Outbound(target: Target, event: Event, exclude: Option<C>)

  // map[uuid.UUID]map[*Conn]bool, whose inner values are always true
  type Buckets<C> = map<nat, set<C>>

  // addConn's and SubscribeRoom's index update
  function Put<C>(m: Buckets<C>, k: nat, c: C): Buckets<C> {
    m[k := (if k in m then m[k] else {}) + {c}]
  }

  // UnsubscribeRoom's and removeConn's: a bucket that becomes empty is deleted.
  function Drop<C>(m: Buckets<C>, k: nat, c: C): Buckets<C> {
    if k !in m then m
    else if m[k] - {c} == {} then m - {k}
    else m[k := m[k] - {c}]
  }

  // removeConn's scan over all rooms
  function Purge<C>(m: Buckets<C>, c: C): Buckets<C> {
    map k | k in m && !(c in m[k] && m[k] - {c} == {}) :: m[k] - {c}
  }

  // The same, looking only at the given rooms.
  function PurgeOnly<C>(m: Buckets<C>, c: C, keys: set<nat>): Buckets<C> {
    map k | k in m && !(k in keys && c in m[k] && m[k] - {c} == {}) :: if k in keys then m[k] - {c} else m[k]
  }

  predicate In<C>(m: Buckets<C>, k: nat, c: C) {
    k in m && c in m[k]
  }

  predicate NoEmptyBucket<C>(m: Buckets<C>) {
    forall k :: k in m ==> m[k] != {}
  }

  // allConnectionsLocked
  function All<C>(m: Buckets<C>): set<C> {
    set k, c | k in m && c in m[k] :: c
  }

  function Recipients<C>(users: Buckets<C>, rooms: Buckets<C>, o: Outbound<C>): set<C> {
    var bucket :=
      match o.target
      case ToRoom(r) => if r in rooms then rooms[r] else {}
      case ToUser(u) => if u in users then users[u] else {};
    bucket - (if o.exclude.Some? then {o.exclude.value} else {})
  }

  // ---- Each update is the intended one, seen bucket by bucket

  lemma PutIs<C>(m: Buckets<C>, k: nat, c: C)
    ensures NoEmptyBucket(m) ==> NoEmptyBucket(Put(m, k, c))
    ensures forall j, x :: In(Put(m, k, c), j, x) <==> In(m, j, x) || (j == k && x == c)
  {}

  lemma DropIs<C>(m: Buckets<C>, k: nat, c: C)
    ensures NoEmptyBucket(m) ==> NoEmptyBucket(Drop(m, k, c))
    ensures forall j, x :: In(Drop(m, k, c), j, x) <==> In(m, j, x) && !(j == k && x == c)
  {
    forall j, x ensures In(Drop(m, k, c), j, x) <==> In(m, j, x) && !(j == k && x == c) {
      if k in m && m[k] - {c} == {} && In(m, j, x) && j == k {
        assert x !in m[k] - {c};
      }
    }
  }

  lemma PurgeIs<C>(m: Buckets<C>, c: C)
    requires NoEmptyBucket(m)
    ensures NoEmptyBucket(Purge(m, c))
    ensures forall j, x :: In(Purge(m, c), j, x) <==> In(m, j, x) && x != c
  {
    forall k | k in Purge(m, c) ensures Purge(m, c)[k] != {} {
      if c !in m[k] { assert m[k] - {c} == m[k]; }
    }
    forall j, x ensures In(Purge(m, c), j, x) <==> In(m, j, x) && x != c {
      if In(m, j, x) && x != c { assert x in m[j] - {c}; }
    }
  }

  // Scanning every room and scanning only the rooms the connection is in come to the same.
  lemma PurgeOnlyIs<C>(m: Buckets<C>, c: C, keys: set<nat>)
    requires forall k :: In(m, k, c) ==> k in keys
    ensures PurgeOnly(m, c, keys) == Purge(m, c)
  {
    forall k | k in m && k !in keys ensures m[k] - {c} == m[k] && c !in m[k] {
      assert !In(m, k, c);
    }
  }
}
