// Numbers for objects: how the indexes of the transition system, which names connections by numbers, and
// those of the objects correspond, and that every index update respects it.
module HubNames {
  import opened Text
  import opened Channels
  import opened HubModel
  import System = HubSystem

  ghost predicate Injective<C>(f: map<nat, C>) {
    forall m, n :: m in f && n in f && f[m] == f[n] ==> m == n
  }

  function Objects<C>(f: map<nat, C>, ns: set<nat>): set<C> {
    set n | n in ns && n in f :: f[n]
  }

  function Renamed<C>(f: map<nat, C>, m: Buckets<nat>): Buckets<C> {
    map k | k in m :: Objects(f, m[k])
  }

  function RenamedOut<C>(f: map<nat, C>, o: Outbound<nat>): Outbound<C> {
    Outbound(o.target, o.event,
      if o.exclude.Some? && o.exclude.value in f then Some(f[o.exclude.value]) else None)
  }

  function RenamedQueue<C>(f: map<nat, C>, q: seq<System.Tagged>): (r: seq<Outbound<C>>)
    ensures |r| == |q|
  {
    seq(|q|, i requires 0 <= i < |q| => RenamedOut(f, q[i].out))
  }

  // Every number used is the number of an object.
  ghost predicate Within(m: Buckets<nat>, ids: set<nat>) {
    forall k, n :: In(m, k, n) ==> n in ids
  }

  ghost predicate QueueWithin(q: seq<System.Tagged>, ids: set<nat>) {
    forall i :: 0 <= i < |q| && q[i].out.exclude.Some? ==> q[i].out.exclude.value in ids
  }

  ghost predicate Closed(s: System.State) {
    Within(s.users, s.conns.Keys) && Within(s.rooms, s.conns.Keys) && QueueWithin(s.queue, s.conns.Keys)
  }

  // ---- Sets of connections

  lemma ObjectsHas<C>(f: map<nat, C>, ns: set<nat>, n: nat)
    requires Injective(f) && n in f
    ensures f[n] in Objects(f, ns) <==> n in ns
  {}

  lemma ObjectsLess<C>(f: map<nat, C>, ns: set<nat>, n: nat)
    requires Injective(f) && n in f
    ensures Objects(f, ns - {n}) == Objects(f, ns) - {f[n]}
  {}

  lemma ObjectsMore<C>(f: map<nat, C>, ns: set<nat>, n: nat)
    requires n in f
    ensures Objects(f, ns + {n}) == Objects(f, ns) + {f[n]}
  {}

  lemma ObjectsNone<C>(f: map<nat, C>, ns: set<nat>)
    requires ns <= f.Keys
    ensures Objects(f, ns) == {} <==> ns == {}
  {
    if ns != {} {
      var n :| n in ns;
      assert f[n] in Objects(f, ns);
    }
  }

  // ---- The index updates

  lemma RenamedPut<C>(f: map<nat, C>, m: Buckets<nat>, k: nat, n: nat)
    requires n in f
    ensures Renamed(f, Put(m, k, n)) == Put(Renamed(f, m), k, f[n])
  {
    ObjectsMore(f, if k in m then m[k] else {}, n);
    assert Objects(f, {}) == {};
  }

  lemma RenamedDrop<C>(f: map<nat, C>, m: Buckets<nat>, k: nat, n: nat)
    requires Injective(f) && n in f && Within(m, f.Keys)
    ensures Renamed(f, Drop(m, k, n)) == Drop(Renamed(f, m), k, f[n])
  {
    if k in m {
      ObjectsLess(f, m[k], n);
      assert m[k] <= f.Keys by { forall x | x in m[k] ensures x in f { assert In(m, k, x); } }
      ObjectsNone(f, m[k] - {n});
    }
  }

  lemma RenamedPurge<C>(f: map<nat, C>, m: Buckets<nat>, n: nat)
    requires Injective(f) && n in f && Within(m, f.Keys)
    ensures Renamed(f, Purge(m, n)) == Purge(Renamed(f, m), f[n])
  {
    hide Objects;
    forall k | k in m
      ensures Objects(f, m[k] - {n}) == Objects(f, m[k]) - {f[n]}
      ensures f[n] in Objects(f, m[k]) <==> n in m[k]
      ensures Objects(f, m[k] - {n}) == {} <==> m[k] - {n} == {}
    {
      ObjectsLess(f, m[k], n);
      ObjectsHas(f, m[k], n);
      assert m[k] <= f.Keys by { forall x | x in m[k] ensures x in f { assert In(m, k, x); } }
      ObjectsNone(f, m[k] - {n});
    }
  }

  lemma RenamedIn<C>(f: map<nat, C>, m: Buckets<nat>, k: nat, n: nat)
    requires Injective(f) && n in f
    ensures In(Renamed(f, m), k, f[n]) <==> In(m, k, n)
  {
    if k in m { ObjectsHas(f, m[k], n); }
  }

  lemma RenamedAll<C>(f: map<nat, C>, m: Buckets<nat>, n: nat)
    requires Injective(f) && n in f
    ensures f[n] in All(Renamed(f, m)) <==> n in All(m)
  {
    if n in All(m) {
      var k :| k in m && n in m[k];
      assert f[n] in Objects(f, m[k]) && f[n] in Renamed(f, m)[k];
    }
    if f[n] in All(Renamed(f, m)) {
      var k :| k in Renamed(f, m) && f[n] in Renamed(f, m)[k];
      assert n in m[k];
    }
  }

  lemma RenamedAllWithin<C>(f: map<nat, C>, m: Buckets<nat>)
    ensures All(Renamed(f, m)) <= f.Values
  {
    forall x | x in All(Renamed(f, m)) ensures x in f.Values {
      var k :| k in Renamed(f, m) && x in Renamed(f, m)[k];
    }
  }

  lemma RenamedRecipients<C>(f: map<nat, C>, users: Buckets<nat>, rooms: Buckets<nat>, o: Outbound<nat>, n: nat)
    requires Injective(f) && n in f && (o.exclude.Some? ==> o.exclude.value in f)
    ensures f[n] in Recipients(Renamed(f, users), Renamed(f, rooms), RenamedOut(f, o))
      <==> n in Recipients(users, rooms, o)
  {
    match o.target
    case ToRoom(r) => if r in rooms { ObjectsHas(f, rooms[r], n); }
    case ToUser(u) => if u in users { ObjectsHas(f, users[u], n); }
  }

  // A new connection changes no bucket it is not in.
  lemma RenamedGrow<C>(f: map<nat, C>, n: nat, x: C, m: Buckets<nat>)
    requires n !in f && Within(m, f.Keys)
    ensures Renamed(f[n := x], m) == Renamed(f, m)
  {
    forall k | k in m ensures Objects(f[n := x], m[k]) == Objects(f, m[k]) {
      forall i | i in m[k] ensures i in f { assert In(m, k, i); }
    }
  }

  lemma QueueGrow<C>(f: map<nat, C>, n: nat, x: C, q: seq<System.Tagged>)
    requires n !in f && QueueWithin(q, f.Keys)
    ensures RenamedQueue(f[n := x], q) == RenamedQueue(f, q)
  {}

  lemma QueueHead<C>(f: map<nat, C>, q: seq<System.Tagged>)
    requires q != []
    ensures RenamedQueue(f, q)[0] == RenamedOut(f, q[0].out) && RenamedQueue(f, q)[1..] == RenamedQueue(f, q[1..])
  {}

  lemma ValuesGrow<C>(f: map<nat, C>, n: nat, x: C)
    requires n !in f
    ensures f[n := x].Values == f.Values + {x}
    ensures Injective(f) && x !in f.Values ==> Injective(f[n := x])
  {
    forall y | y in f.Values ensures y in f[n := x].Values {
      var m :| m in f && f[m] == y;
      assert f[n := x][m] == y;
    }
    assert f[n := x][n] == x;
  }

  // ---- Channels

  function Events(xs: seq<System.Stamped>): seq<Event> {
    seq(|xs|, i requires 0 <= i < |xs| => xs[i].event)
  }

  function Erase(o: Outbox<System.Stamped>): Outbox<Event> {
    Outbox(Events(o.calls), Events(o.accepted), o.taken, o.closed)
  }

  lemma EventsMore(xs: seq<System.Stamped>, x: System.Stamped)
    ensures Events(xs + [x]) == Events(xs) + [x.event]
  {}

  lemma ErasePush(o: Outbox<System.Stamped>, x: System.Stamped, cap: nat)
    ensures Erase(o.Push(x, cap)) == Erase(o).Push(x.event, cap)
  {
    EventsMore(o.calls, x);
    EventsMore(o.accepted, x);
  }

  lemma EraseTake(o: Outbox<System.Stamped>)
    ensures Erase(o.Take()) == Erase(o).Take()
  {}
}
