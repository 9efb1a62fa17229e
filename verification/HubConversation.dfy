// The order of a whole conversation: when both browsers show the same sequence, and when they do not.
module HubConversation {
  import opened Text
  import opened HubModel
  import opened HubSystem
  import opened HubDms
  import opened HubBatches

  // ---- Sequences without repetition that hold the same elements

  predicate Distinct<T(==)>(p: seq<T>) {
    forall i, j :: 0 <= i < j < |p| ==> p[i] != p[j]
  }

  // Whatever comes first in one comes first in the other.
  ghost predicate SameOrder<T(!new)>(p: seq<T>, q: seq<T>) {
    forall i, j, k, l ::
      0 <= i < |p| && 0 <= j < |p| && 0 <= k < |q| && 0 <= l < |q| && p[i] == q[k] && p[j] == q[l] ==>
        (i < j <==> k < l)
  }

  lemma {:induction false} OrderDecides<T(!new)>(p: seq<T>, q: seq<T>)
    requires Distinct(p) && Distinct(q) && (forall x :: x in p <==> x in q)
    ensures p == q <==> SameOrder(p, q)
  {
    BothEmpty(p, q);
    if SameOrder(p, q) {
      if p != [] {
        assert p[0] in p && q[0] in q;
        var j :| 0 <= j < |p| && p[j] == q[0];
        var l :| 0 <= l < |q| && q[l] == p[0];
        assert p[0] == q[0];
        TailsAlike(p, q);
        OrderDecides(p[1..], q[1..]);
        assert p == [p[0]] + p[1..] && q == [q[0]] + q[1..];
      }
    }
  }

  lemma BothEmpty<T(!new)>(p: seq<T>, q: seq<T>)
    requires forall x :: x in p <==> x in q
    ensures p == [] <==> q == []
  {
    if p != [] { assert p[0] in p; }
    if q != [] { assert q[0] in q; }
  }

  lemma TailsAlike<T(!new)>(p: seq<T>, q: seq<T>)
    requires p != [] && q != [] && p[0] == q[0] && Distinct(p) && Distinct(q) && (forall x :: x in p <==> x in q)
    requires SameOrder(p, q)
    ensures Distinct(p[1..]) && Distinct(q[1..]) && SameOrder(p[1..], q[1..])
    ensures forall x :: x in p[1..] <==> x in q[1..]
  {
    forall x ensures x in p[1..] <==> x in p && x != p[0] {
      if x in p && x != p[0] {
        var i :| 0 <= i < |p| && p[i] == x;
        assert p[1..][i - 1] == x;
      }
    }
    forall x ensures x in q[1..] <==> x in q && x != q[0] {
      if x in q && x != q[0] {
        var i :| 0 <= i < |q| && q[i] == x;
        assert q[1..][i - 1] == x;
      }
    }
  }

  // ---- Where an entry of the log lands in a thread

  function Place(log: seq<Tagged>, i: nat, a: UserId, b: UserId): nat
    requires i <= |log|
  {
    |Dms(log[..i], a, b)|
  }

  lemma PlaceIs(log: seq<Tagged>, i: nat, a: UserId, b: UserId)
    requires i < |log| && ForThread(log[i], a, b)
    ensures Place(log, i, a, b) < |Dms(log, a, b)|
    ensures Dms(log, a, b)[Place(log, i, a, b)] == (log[i].from, log[i].out.event.message)
  {
    hide Dms, ForThread;
    assert log == log[..i] + ([log[i]] + log[i + 1..]);
    DmsAppend(log[..i], [log[i]] + log[i + 1..], a, b);
    DmsAppend([log[i]], log[i + 1..], a, b);
    SingleDm(log[i], a, b);
  }

  lemma PlaceGrows(log: seq<Tagged>, i: nat, j: nat, a: UserId, b: UserId)
    requires i < j <= |log| && ForThread(log[i], a, b)
    ensures Place(log, i, a, b) < Place(log, j, a, b)
  {
    hide Dms, ForThread;
    assert log[..j] == log[..i] + ([log[i]] + log[i + 1..j]);
    DmsAppend(log[..i], [log[i]] + log[i + 1..j], a, b);
    DmsAppend([log[i]], log[i + 1..j], a, b);
    SingleDm(log[i], a, b);
  }

  lemma {:induction false} PlaceOf(log: seq<Tagged>, n: nat, a: UserId, b: UserId) returns (i: nat)
    requires n < |Dms(log, a, b)|
    ensures i < |log| && ForThread(log[i], a, b) && Place(log, i, a, b) == n
  {
    hide ForThread;
    var front := log[..|log| - 1];
    if n < |Dms(front, a, b)| {
      i := PlaceOf(front, n, a, b);
      assert front[..i] == log[..i];
    } else {
      i := |log| - 1;
    }
  }

  // ---- The two entries of a direct message

  predicate IsDm(m: Message) {
    m.room == None && m.recipient.Some? && m.recipient != Some(m.sender)
  }

  // Positions i and j hold the two entries of one direct message.
  predicate BatchAt(log: seq<Tagged>, i: nat, j: nat) {
    && i < j < |log| && log[i].out.event.MessageEvent?
    && var m := log[i].out.event.message;
       IsDm(m) && Entries(Issue(log[i].from, m)) == [log[i], log[j]]
  }

  function MessageAt(log: seq<Tagged>, i: nat): Message
    requires i < |log| && log[i].out.event.MessageEvent?
  {
    log[i].out.event.message
  }

  predicate Parties(m: Message, a: UserId, b: UserId) {
    (m.sender == a && m.recipient == Some(b)) || (m.sender == b && m.recipient == Some(a))
  }

  // A message of the conversation of a and b.
  predicate Says(log: seq<Tagged>, i: nat, j: nat, a: UserId, b: UserId) {
    BatchAt(log, i, j) && Parties(MessageAt(log, i), a, b)
  }

  // Which of its two entries is the one for user a's thread.
  function Half(log: seq<Tagged>, i: nat, j: nat, a: UserId): nat
    requires BatchAt(log, i, j)
  {
    if MessageAt(log, i).sender == a then j else i
  }

  // The first is for the recipient, the second for the sender.
  lemma BatchIs(log: seq<Tagged>, i: nat, j: nat)
    requires BatchAt(log, i, j)
    ensures var m := MessageAt(log, i);
      && log[i] == Tagged(log[i].from, Outbound(ToUser(m.recipient.value), MessageEvent(m), None))
      && log[j] == Tagged(log[i].from, Outbound(ToUser(m.sender), MessageEvent(m), None))
  {
    var all := Entries(Issue(log[i].from, MessageAt(log, i)));
    assert all[0] == log[i] && all[1] == log[j];
  }

  lemma HalfIsFor(log: seq<Tagged>, i: nat, j: nat, a: UserId, b: UserId)
    requires a != b && Says(log, i, j, a, b)
    ensures var h := Half(log, i, j, a);
      && ForThread(log[h], a, b) && log[h].from == log[i].from
      && log[h].out.event == log[i].out.event
  {
    BatchIs(log, i, j);
  }

  // Entries with a number are found where they are.
  lemma {:induction false} OfIdHas(log: seq<Tagged>, i: nat, k: nat)
    requires i < |log| && Carries(log[i], k)
    ensures log[i] in OfId(log, k)
  {
    assert log == log[..i] + ([log[i]] + log[i + 1..]);
    hide OfId;
    OfIdAppend(log[..i], [log[i]] + log[i + 1..], k);
    OfIdAppend([log[i]], log[i + 1..], k);
    OfIdOne(log[i], k);
  }

  lemma {:induction false} OfIdCount(log: seq<Tagged>, i: nat, j: nat, k: nat)
    requires i < j < |log| && Carries(log[i], k) && Carries(log[j], k)
    ensures |OfId(log, k)| >= 2 && (|OfId(log, k)| == 2 ==> OfId(log, k) == [log[i], log[j]])
  {
    hide OfId;
    assert log == log[..i] + ([log[i]] + (log[i + 1..j] + ([log[j]] + log[j + 1..])));
    OfIdAppend(log[..i], [log[i]] + (log[i + 1..j] + ([log[j]] + log[j + 1..])), k);
    OfIdAppend([log[i]], log[i + 1..j] + ([log[j]] + log[j + 1..]), k);
    OfIdAppend(log[i + 1..j], [log[j]] + log[j + 1..], k);
    OfIdAppend([log[j]], log[j + 1..], k);
    OfIdOne(log[i], k);
    OfIdOne(log[j], k);
  }

  lemma {:induction false} OfIdTwo(log: seq<Tagged>, k: nat) returns (i: nat, j: nat)
    requires |OfId(log, k)| == 2
    ensures i < j < |log| && OfId(log, k) == [log[i], log[j]] && Carries(log[i], k) && Carries(log[j], k)
  {
    hide Carries;
    var front := log[..|log| - 1];
    if Carries(log[|log| - 1], k) {
      j := |log| - 1;
      i := OfIdFirst(front, k);
    } else {
      i, j := OfIdTwo(front, k);
    }
  }

  lemma {:induction false} OfIdFirst(log: seq<Tagged>, k: nat) returns (i: nat)
    requires |OfId(log, k)| == 1
    ensures i < |log| && OfId(log, k) == [log[i]] && Carries(log[i], k)
  {
    hide Carries;
    var front := log[..|log| - 1];
    if Carries(log[|log| - 1], k) {
      i := |log| - 1;
    } else {
      i := OfIdFirst(front, k);
    }
  }

  // In a log of whole messages every entry for a's thread with b is half of a message of theirs.
  lemma HalfOf(log: seq<Tagged>, h: nat, a: UserId, b: UserId) returns (i: nat, j: nat)
    requires Whole(log) && a != b && h < |log| && ForThread(log[h], a, b)
    ensures Says(log, i, j, a, b) && Half(log, i, j, a) == h
  {
    var k := log[h].out.event.message.id;
    OfIdHas(log, h, k);
    var x: Issue :| IsIssue(x, k) && OfId(log, k) == Entries(x);
    EntryOf(x, log[h], a, b);
    i, j := OfIdTwo(log, k);
    assert log[i] == Entries(x)[0] && log[j] == Entries(x)[1];
    assert Issue(log[i].from, MessageAt(log, i)) == x;
    BatchIs(log, i, j);
    hide OfId, Entries;
    TwoOnly(log, k, h, i, j);
    HalfOnly(log, i, j, a, b, h);
  }

  // A third entry would show.
  lemma TwoOnly(log: seq<Tagged>, k: nat, h: nat, i: nat, j: nat)
    requires i < j < |log| && h < |log| && log[i] != log[j]
    requires Carries(log[h], k) && Carries(log[i], k) && Carries(log[j], k) && OfId(log, k) == [log[i], log[j]]
    ensures h == i || h == j
  {
    hide OfId;
    if h < i {
      OfIdCount(log, h, i, k);
      OfIdCount(log, h, j, k);
    } else if i < h {
      OfIdCount(log, i, h, k);
      if h < j { OfIdCount(log, h, j, k); } else if j < h { OfIdCount(log, j, h, k); }
    }
  }

  lemma EntryOf(x: Issue, t: Tagged, a: UserId, b: UserId)
    requires t in Entries(x) && IsIssue(x, x.message.id) && ForThread(t, a, b) && a != b
    ensures |Entries(x)| == 2 && IsDm(x.message) && Parties(x.message, a, b)
    ensures forall e :: e in Entries(x) ==> e.out.event == MessageEvent(x.message) && e.from == x.from
  {}

  lemma HalfOnly(log: seq<Tagged>, i: nat, j: nat, a: UserId, b: UserId, h: nat)
    requires a != b && Says(log, i, j, a, b) && (h == i || h == j) && ForThread(log[h], a, b)
    ensures Half(log, i, j, a) == h
  {
    BatchIs(log, i, j);
    hide Entries;
  }

  // ---- When two messages come in the same order on both sides

  // Of two messages of one user: one batch lies inside the other. Of messages of the two users: the
  // batches overlap.
  predicate Cross(log: seq<Tagged>, i: nat, j: nat, k: nat, l: nat)
    requires BatchAt(log, i, j) && BatchAt(log, k, l)
  {
    if MessageAt(log, i).sender == MessageAt(log, k).sender then !(i < k <==> j < l) else !(j < k || l < i)
  }

  lemma PlaceOrder(log: seq<Tagged>, h: nat, k: nat, a: UserId, b: UserId)
    requires h < |log| && k < |log| && ForThread(log[h], a, b) && ForThread(log[k], a, b)
    ensures Place(log, h, a, b) < Place(log, k, a, b) <==> h < k
  {
    hide Place, ForThread;
    if h < k { PlaceGrows(log, h, k, a, b); } else if k < h { PlaceGrows(log, k, h, a, b); }
  }

  // Where the message whose entries are at i and j lands in the thread of a with b.
  function Landing(log: seq<Tagged>, i: nat, j: nat, a: UserId, b: UserId): nat
    requires BatchAt(log, i, j)
  {
    Place(log, Half(log, i, j, a), a, b)
  }

  // Two messages of a conversation land in the same order in both threads exactly when they do not cross.
  lemma PairAgrees(log: seq<Tagged>, i: nat, j: nat, k: nat, l: nat, a: UserId, b: UserId)
    requires a != b && Says(log, i, j, a, b) && Says(log, k, l, a, b)
    ensures (Landing(log, i, j, a, b) < Landing(log, k, l, a, b) <==>
             Landing(log, i, j, b, a) < Landing(log, k, l, b, a)) <==> !Cross(log, i, j, k, l)
  {
    BatchIs(log, i, j);
    BatchIs(log, k, l);
    HalfIsFor(log, i, j, a, b);
    HalfIsFor(log, i, j, b, a);
    HalfIsFor(log, k, l, a, b);
    HalfIsFor(log, k, l, b, a);
    hide Place, ForThread, Entries;
    PlaceOrder(log, Half(log, i, j, a), Half(log, k, l, a), a, b);
    PlaceOrder(log, Half(log, i, j, b), Half(log, k, l, b), b, a);
  }

  // No two messages of the conversation cross.
  ghost predicate NoneCross(log: seq<Tagged>, a: UserId, b: UserId) {
    forall i, j, k, l :: Says(log, i, j, a, b) && Says(log, k, l, a, b) ==> !Cross(log, i, j, k, l)
  }

  // ---- The two threads as sequences

  function TextOf(log: seq<Tagged>, a: UserId, b: UserId): seq<Message> {
    Texts(Dms(log, a, b))
  }

  lemma LandsAt(log: seq<Tagged>, i: nat, j: nat, a: UserId, b: UserId)
    requires a != b && Says(log, i, j, a, b)
    ensures Landing(log, i, j, a, b) < |TextOf(log, a, b)|
    ensures TextOf(log, a, b)[Landing(log, i, j, a, b)] == MessageAt(log, i)
  {
    HalfIsFor(log, i, j, a, b);
    hide Dms, ForThread, Entries, Place;
    PlaceIs(log, Half(log, i, j, a), a, b);
  }

  lemma LandedFrom(log: seq<Tagged>, n: nat, a: UserId, b: UserId) returns (i: nat, j: nat)
    requires Whole(log) && a != b && n < |TextOf(log, a, b)|
    ensures Says(log, i, j, a, b) && Landing(log, i, j, a, b) == n
  {
    hide Dms, ForThread, Entries, Place, Whole;
    var h := PlaceOf(log, n, a, b);
    i, j := HalfOf(log, h, a, b);
  }

  lemma OneBatch(log: seq<Tagged>, i: nat, j: nat, k: nat, l: nat)
    requires Whole(log) && BatchAt(log, i, j) && BatchAt(log, k, l) && MessageAt(log, i) == MessageAt(log, k)
    ensures i == k && j == l
  {
    BatchIs(log, i, j);
    BatchIs(log, k, l);
    var id := MessageAt(log, i).id;
    OfIdHas(log, i, id);
    var x: Issue :| IsIssue(x, id) && OfId(log, id) == Entries(x);
    OfIdCount(log, i, j, id);
    assert |Entries(x)| <= 2;
    hide OfId, Entries;
    TwoOnly(log, id, k, i, j);
    TwoOnly(log, id, l, i, j);
  }

  lemma TextsDistinct(log: seq<Tagged>, a: UserId, b: UserId)
    requires Whole(log) && a != b
    ensures Distinct(TextOf(log, a, b))
  {
    hide Whole, TextOf, BatchAt, Landing;
    var p := TextOf(log, a, b);
    forall m, n | 0 <= m < n < |p| ensures p[m] != p[n] {
      var i, j := LandedFrom(log, m, a, b);
      var k, l := LandedFrom(log, n, a, b);
      LandsAt(log, i, j, a, b);
      LandsAt(log, k, l, a, b);
      if p[m] == p[n] { OneBatch(log, i, j, k, l); }
    }
  }

  lemma BothHave(log: seq<Tagged>, a: UserId, b: UserId, x: Message)
    requires Whole(log) && a != b && x in TextOf(log, a, b)
    ensures x in TextOf(log, b, a)
  {
    hide Whole, TextOf, BatchAt, Landing;
    var n :| 0 <= n < |TextOf(log, a, b)| && TextOf(log, a, b)[n] == x;
    var i, j := LandedFrom(log, n, a, b);
    LandsAt(log, i, j, a, b);
    LandsAt(log, i, j, b, a);
  }

  // The two sides show one sequence exactly when no two messages cross.
  lemma OrderAgrees(log: seq<Tagged>, a: UserId, b: UserId)
    requires Whole(log) && a != b
    ensures TextOf(log, a, b) == TextOf(log, b, a) <==> NoneCross(log, a, b)
  {
    hide Whole, TextOf, BatchAt, Landing, Says, Cross, SameOrder, Distinct, NoneCross;
    var p, q := TextOf(log, a, b), TextOf(log, b, a);
    TextsDistinct(log, a, b);
    TextsDistinct(log, b, a);
    forall x ensures x in p <==> x in q {
      if x in p { BothHave(log, a, b, x); }
      if x in q { BothHave(log, b, a, x); }
    }
    OrderDecides(p, q);
    if SameOrder(p, q) { OrderedIsUncrossed(log, a, b); }
    if NoneCross(log, a, b) { UncrossedIsOrdered(log, a, b); }
  }

  lemma OrderedIsUncrossed(log: seq<Tagged>, a: UserId, b: UserId)
    requires Whole(log) && a != b && SameOrder(TextOf(log, a, b), TextOf(log, b, a))
    ensures NoneCross(log, a, b)
  {
    hide Whole, TextOf, BatchAt, Landing, Cross;
    forall i, j, k, l | Says(log, i, j, a, b) && Says(log, k, l, a, b) ensures !Cross(log, i, j, k, l) {
      LandsAt(log, i, j, a, b);
      LandsAt(log, i, j, b, a);
      LandsAt(log, k, l, a, b);
      LandsAt(log, k, l, b, a);
      PairAgrees(log, i, j, k, l, a, b);
    }
  }

  lemma UncrossedIsOrdered(log: seq<Tagged>, a: UserId, b: UserId)
    requires Whole(log) && a != b && NoneCross(log, a, b) && Distinct(TextOf(log, b, a))
    ensures SameOrder(TextOf(log, a, b), TextOf(log, b, a))
  {
    hide Whole, TextOf, BatchAt, Landing, Cross;
    var p, q := TextOf(log, a, b), TextOf(log, b, a);
    forall m, n, m', n' |
      0 <= m < |p| && 0 <= n < |p| && 0 <= m' < |q| && 0 <= n' < |q| && p[m] == q[m'] && p[n] == q[n']
      ensures m < n <==> m' < n'
    {
      var i, j := LandedFrom(log, m, a, b);
      var k, l := LandedFrom(log, n, a, b);
      LandsAt(log, i, j, a, b);
      LandsAt(log, i, j, b, a);
      LandsAt(log, k, l, a, b);
      LandsAt(log, k, l, b, a);
      PairAgrees(log, i, j, k, l, a, b);
      assert Landing(log, i, j, b, a) == m' && Landing(log, k, l, b, a) == n';
    }
  }

  // Over any run: connections a and b of different users are live throughout a stretch that starts and
  // ends settled, and lost nothing. What their threads with one another gain is the same sequence if
  // and only if no two messages of the conversation, whoever sent them over whichever connection, crossed
  // in the broadcast channel during the stretch.
  lemma ConversationOrder(first: seq<Action>, later: seq<Action>, a: nat, b: nat)
    requires BothThroughout(Run(Initial, first), Run(Initial, first + later), a, b)
    requires Run(Initial, first).conns[a].user != Run(Initial, first).conns[b].user
    ensures var s, t := Run(Initial, first), Run(Initial, first + later);
      var userA, userB := s.conns[a].user, s.conns[b].user;
      && |s.enqueued| <= |t.enqueued|
      && var sent := t.enqueued[|s.enqueued|..];
         var gainA, gainB := TextOf(sent, userA, userB), TextOf(sent, userB, userA);
         && Shown(t.conns[a], userB) == Shown(s.conns[a], userB) + gainA
         && Shown(t.conns[b], userA) == Shown(s.conns[b], userA) + gainB
         && (gainA == gainB <==> NoneCross(sent, userA, userB))
  {
    hide Run, Shown, TextOf, NoneCross, Whole, Settled, Texts, Dms, By;
    DmAgreement(first, later, a, b);
    WholeBetween(first, later);
    var s, t := Run(Initial, first), Run(Initial, first + later);
    var sent := t.enqueued[|s.enqueued|..];
    OrderAgrees(sent, s.conns[a].user, s.conns[b].user);
    TextIs(sent, s.conns[a].user, s.conns[b].user);
    TextIs(sent, s.conns[b].user, s.conns[a].user);
  }

  lemma TextIs(log: seq<Tagged>, a: UserId, b: UserId)
    ensures TextOf(log, a, b) == Texts(Dms(log, a, b))
  {}

  // ---- Messages to oneself

  lemma {:induction false} SelfCount(log: seq<Tagged>, x: nat, m: Message)
    requires m.room == None && m.recipient == Some(m.sender)
    requires forall t :: t in log && Carries(t, m.id) ==>
      t == Tagged(x, Outbound(ToUser(m.sender), MessageEvent(m), None))
    ensures multiset(Dms(log, m.sender, m.sender))[(x, m)] == |OfId(log, m.id)|
  {
    if log != [] {
      var front, t := log[..|log| - 1], log[|log| - 1];
      SelfCount(front, x, m);
      assert log == front + [t];
      assert t in log;
      hide Dms, OfId;
      DmsAppend(front, [t], m.sender, m.sender);
      OfIdAppend(front, [t], m.id);
      SingleDm(t, m.sender, m.sender);
      OfIdOne(t, m.id);
    }
  }

  // Both entries of a message to oneself fall to the same thread: it shows the message twice.
  lemma SelfTwice(log: seq<Tagged>, u: UserId, x: nat, m: Message)
    requires Whole(log) && (x, m) in Dms(log, u, u)
    ensures multiset(Dms(log, u, u))[(x, m)] == 2
  {
    var n :| 0 <= n < |Dms(log, u, u)| && Dms(log, u, u)[n] == (x, m);
    var h := PlaceOf(log, n, u, u);
    PlaceIs(log, h, u, u);
    var t := log[h];
    OfIdHas(log, h, m.id);
    var i: Issue :| IsIssue(i, m.id) && OfId(log, m.id) == Entries(i);
    assert i == Issue(x, m) && m.sender == u && m.recipient == Some(u);
    var e := Tagged(x, Outbound(ToUser(u), MessageEvent(m), None));
    assert Entries(i) == [e, e];
    hide Dms, OfId, Entries;
    forall t' | t' in log && Carries(t', m.id) ensures t' == e {
      var k :| 0 <= k < |log| && log[k] == t';
      OfIdHas(log, k, m.id);
    }
    SelfCount(log, x, m);
  }

  // In any run, between two settled states, the thread of a user with oneself gains each message twice.
  lemma SelfThread(first: seq<Action>, later: seq<Action>, c: nat, x: nat, m: Message)
    requires BothThroughout(Run(Initial, first), Run(Initial, first + later), c, c)
    ensures var s, t := Run(Initial, first), Run(Initial, first + later);
      var u := s.conns[c].user;
      && |s.enqueued| <= |t.enqueued|
      && var gain := Dms(t.enqueued[|s.enqueued|..], u, u);
         && Shown(t.conns[c], u) == Shown(s.conns[c], u) + Texts(gain)
         && ((x, m) in gain ==> multiset(gain)[(x, m)] == 2)
  {
    hide Run, Shown, Whole, Settled, Texts, Dms;
    ThreadGain(first, later, c, Run(Initial, first).conns[c].user);
    WholeBetween(first, later);
    var s, t := Run(Initial, first), Run(Initial, first + later);
    var sent, u := t.enqueued[|s.enqueued|..], s.conns[c].user;
    if (x, m) in Dms(sent, u, u) { SelfTwice(sent, u, x, m); }
  }
}
