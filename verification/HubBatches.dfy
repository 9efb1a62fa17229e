// What becomes of a message: every message that was ever issued has exactly its entries in the broadcast
// channel's history, those of its connection's read loop that are still to be pushed included.
module HubBatches {
  import opened Text
  import opened HubModel
  import opened HubSystem
  import opened HubIndex
  import opened HubOrder
  import opened HubDms
  import Server = HubServer
  import Turns = HubTurns

  // The entry carries the message of this number.
  predicate Carries(t: Tagged, k: nat) {
    t.out.event.MessageEvent? && t.out.event.message.id == k
  }

  function OfId(log: seq<Tagged>, k: nat): seq<Tagged> {
    if log == [] then []
    else OfId(log[..|log| - 1], k) + if Carries(log[|log| - 1], k) then [log[|log| - 1]] else []
  }

  lemma {:induction false} OfIdAppend(p: seq<Tagged>, q: seq<Tagged>, k: nat)
    ensures OfId(p + q, k) == OfId(p, k) + OfId(q, k)
  {
    if q == [] {
      assert p + q == p;
    } else {
      assert (p + q)[..|p + q| - 1] == p + q[..|q| - 1];
      OfIdAppend(p, q[..|q| - 1], k);
    }
  }

  lemma OfIdOne(t: Tagged, k: nat)
    ensures OfId([t], k) == if Carries(t, k) then [t] else []
  {
    assert [t][..0] == [];
  }

  // ---- Issued messages

  datatype Issue = Issue(from: nat, message: Message)

  // The entries of an issued message, in the order its handler pushes them.
  function Entries(i: Issue): seq<Tagged> {
    Tags(i.from,
         if i.message.room.Some? then [Outbound(ToRoom(i.message.room.value), MessageEvent(i.message), None)]
         else DirectBatch(i.message.sender, i.message))
  }

  function IssuedBy(s: State, a: Action): seq<Issue> {
    if a.Receive? && a.c in s.conns && s.conns[a.c].pc.Reading? && Turns.Creates(a.event, a.reply) then
      match a.event
      case RoomMessage(room, body, _) =>
        [Issue(a.c, Message(s.nextMessage, room, s.conns[a.c].user, None, Trim(body)))]
      case DirectMessage(to, body, _) =>
        [Issue(a.c, Message(s.nextMessage, None, s.conns[a.c].user, to, Trim(body)))]
      case _ => []
    else []
  }

  function Issued(actions: seq<Action>): seq<Issue> {
    if actions == [] then []
    else
      var front := actions[..|actions| - 1];
      Issued(front) + IssuedBy(Run(Initial, front), actions[|actions| - 1])
  }

  // ---- What one step does to the entries

  ghost predicate OthersPending(s: State, t: State, c: nat) {
    forall x :: x != c ==> Pending(t, x) == Pending(s, x)
  }

  ghost predicate Silent(s: State, t: State) {
    t.enqueued == s.enqueued && t.nextMessage == s.nextMessage && forall x :: Pending(t, x) == Pending(s, x)
  }

  ghost predicate Reads(s: State, a: Action, t: State) {
    && a.Receive? && t.enqueued == s.enqueued && OthersPending(s, t, a.c) && Pending(s, a.c) == []
    && t.nextMessage == s.nextMessage + |IssuedBy(s, a)| && |IssuedBy(s, a)| <= 1
    && if IssuedBy(s, a) == [] then forall k :: OfId(Pending(t, a.c), k) == []
       else
         && Pending(t, a.c) == Entries(IssuedBy(s, a)[0]) && IssuedBy(s, a)[0].from == a.c
         && IssuedBy(s, a)[0].message.id == s.nextMessage
         && (IssuedBy(s, a)[0].message.room.None? ==> IssuedBy(s, a)[0].message.recipient.Some?)
  }

  ghost predicate Pushes(s: State, a: Action, t: State, h: Tagged) {
    && a.Push? && t.enqueued == s.enqueued + [h] && t.nextMessage == s.nextMessage && OthersPending(s, t, a.c)
    && Pending(s, a.c) == [h] + Pending(t, a.c)
  }

  lemma EntriesStep(s: State, a: Action)
    ensures var t := Step(s, a);
      || (IssuedBy(s, a) == [] && Silent(s, t))
      || Reads(s, a, t)
      || (IssuedBy(s, a) == [] && exists h :: Pushes(s, a, t, h))
  {
    hide Handle, WorkOf, Put, Drop, DirectBatch, OfId, Entries, Trim;
    if a.Receive? {
      if a.c in s.conns && s.conns[a.c].pc.Reading? { ReadStep(s, a); }
    } else if a.HubWork? {
      if s.hub.Adding? || s.hub.Removing? ==> s.hub.conn in s.conns { WorkSilent(s); }
    } else if a.Push? {
      if a.c in s.conns && s.conns[a.c].pc.Sending? { PushStep(s, a.c); }
    }
  }

  lemma WorkSilent(s: State)
    requires s.hub.Adding? || s.hub.Removing? ==> s.hub.conn in s.conns
    ensures Silent(s, WorkOf(s).(hub := Idle, lock := None))
  {
    WorkEnqueued(s);
    WorkPcs(s);
    hide Put, Drop, Purge, All, Recipients;
    assert WorkOf(s).nextMessage == s.nextMessage;
  }

  lemma PushStep(s: State, c: nat)
    requires c in s.conns && s.conns[c].pc.Sending?
    ensures Silent(s, Step(s, Push(c))) || exists h :: Pushes(s, Push(c), Step(s, Push(c)), h)
  {
    var t, todo := Step(s, Push(c)), s.conns[c].pc.todo;
    if |s.queue| < BROADCAST_CAPACITY && todo != [] {
      assert Tags(c, todo) == [Tagged(c, todo[0])] + Tags(c, todo[1..]);
      assert |todo| == 1 ==> Tags(c, todo[1..]) == [];
      assert Pushes(s, Push(c), t, Tagged(c, todo[0]));
    }
  }

  lemma NoMessage(x: nat, o: Outbound<nat>, k: nat)
    requires !o.event.MessageEvent?
    ensures OfId(Tags(x, [o]), k) == []
  {
    assert Tags(x, [o]) == [Tagged(x, o)];
    OfIdOne(Tagged(x, o), k);
  }

  lemma ReadStep(s: State, a: Action)
    requires a.Receive? && a.c in s.conns && s.conns[a.c].pc.Reading?
    ensures Reads(s, a, Step(s, a))
  {
    var t, c := Step(s, a), a.c;
    HandleShape(s, c, a.event, a.reply);
    if a.event.JoinRoom? || a.event.LeaveRoom? {
      hide OfId;
      NothingPends(s, a);
    } else {
      Turns.HandleStands(s, c, a.event, a.reply);
      hide Handle, Trim, OfId;
      var outs := Server.Outs(c, s.conns[c].user, a.event, a.reply, s.nextMessage);
      assert Pending(t, c) == Tags(c, outs);
      forall k | IssuedBy(s, a) == [] ensures OfId(Tags(c, outs), k) == [] {
        assert a.event.TypingIn? || a.event.TypingTo? || outs == [];
        if outs != [] { NoMessage(c, outs[0], k); } else { NoneOfNone(c, k); }
      }
    }
  }

  lemma NoneOfNone(x: nat, k: nat)
    ensures OfId(Tags(x, []), k) == [] && OfId([], k) == []
  {}

  lemma NothingPends(s: State, a: Action)
    requires a.Receive? && a.c in s.conns && s.conns[a.c].pc.Reading? && (a.event.JoinRoom? || a.event.LeaveRoom?)
    ensures Reads(s, a, Step(s, a))
  {
    hide Trim;
    forall k ensures OfId([], k) == [] { NoneOfNone(a.c, k); }
  }

  // ---- The account

  ghost predicate Accounted(s: State, issued: seq<Issue>, x: nat, k: nat) {
    if k < |issued| && issued[k].from == x then OfId(s.enqueued + Pending(s, x), k) == Entries(issued[k])
    else OfId(Pending(s, x), k) == []
  }

  ghost predicate EntriesOk(s: State, issued: seq<Issue>) {
    && |issued| == s.nextMessage
    && (forall k :: 0 <= k < |issued| ==>
          issued[k].message.id == k && (issued[k].message.room.None? ==> issued[k].message.recipient.Some?))
    && (forall x: nat, k: nat :: Accounted(s, issued, x, k))
    && (forall k: nat :: k >= |issued| ==> OfId(s.enqueued, k) == [])
  }

  // Every entry of an issue carries its number and no other.
  lemma EntriesCarry(i: Issue, k: nat)
    ensures OfId(Entries(i), k) == if k == i.message.id then Entries(i) else []
  {
    var e := Entries(i);
    if |e| == 0 {
      NoneOfNone(i.from, k);
    } else if |e| == 1 {
      assert e == [e[0]];
      OfIdOne(e[0], k);
    } else {
      assert e == [e[0]] + [e[1]];
      OfIdAppend([e[0]], [e[1]], k);
      OfIdOne(e[0], k);
      OfIdOne(e[1], k);
    }
  }

  lemma SilentKeeps(s: State, t: State, issued: seq<Issue>)
    requires EntriesOk(s, issued) && Silent(s, t)
    ensures EntriesOk(t, issued)
  {
    hide OfId, Entries, Pending;
    forall x: nat, k: nat ensures Accounted(t, issued, x, k) { assert Accounted(s, issued, x, k); }
  }

  lemma ReadsKeeps(s: State, a: Action, t: State, issued: seq<Issue>)
    requires EntriesOk(s, issued) && Reads(s, a, t)
    ensures EntriesOk(t, issued + IssuedBy(s, a))
  {
    hide OfId, Entries, Pending, IssuedBy;
    var more := IssuedBy(s, a);
    var all := issued + more;
    forall x: nat, k: nat ensures Accounted(t, all, x, k) {
      assert Accounted(s, issued, x, k);
      if x == a.c {
        if more != [] { EntriesCarry(more[0], k); }
        OfIdAppend(s.enqueued, Pending(t, x), k);
        assert s.enqueued + [] == s.enqueued;
      }
    }
  }

  lemma PushesKeeps(s: State, a: Action, t: State, h: Tagged, issued: seq<Issue>)
    requires EntriesOk(s, issued) && Pushes(s, a, t, h)
    ensures EntriesOk(t, issued)
  {
    hide OfId, Entries, Pending;
    forall k: nat ensures OfId(Pending(s, a.c), k) == OfId([h], k) + OfId(Pending(t, a.c), k) {
      OfIdAppend([h], Pending(t, a.c), k);
    }
    forall x: nat, k: nat ensures Accounted(t, issued, x, k) {
      assert Accounted(s, issued, x, k) && Accounted(s, issued, a.c, k);
      if x == a.c {
        assert s.enqueued + Pending(s, x) == t.enqueued + Pending(t, x);
      } else {
        OfIdAppend(s.enqueued, Pending(s, x), k);
        OfIdAppend(t.enqueued, Pending(t, x), k);
        OfIdAppend(s.enqueued, [h], k);
      }
    }
    forall k: nat | k >= |issued| ensures OfId(t.enqueued, k) == [] {
      assert Accounted(s, issued, a.c, k);
      OfIdAppend(s.enqueued, [h], k);
    }
  }

  // In every reachable state: each issued message has exactly its entries, pushed or still to be
  // pushed by the connection that issued it, in that order; and no entry carries any other number.
  lemma {:induction false} EntriesRun(actions: seq<Action>)
    ensures EntriesOk(Run(Initial, actions), Issued(actions))
  {
    if actions == [] {
      forall x: nat, k: nat ensures Accounted(Initial, [], x, k) { NoneOfNone(x, k); }
    } else {
      hide EntriesOk, Step, IssuedBy, Reads, Silent;
      var front, a := actions[..|actions| - 1], actions[|actions| - 1];
      var s := Run(Initial, front);
      EntriesRun(front);
      EntriesStep(s, a);
      if IssuedBy(s, a) == [] && Silent(s, Step(s, a)) {
        SilentKeeps(s, Step(s, a), Issued(front));
        assert Issued(actions) == Issued(front);
      } else if Reads(s, a, Step(s, a)) {
        ReadsKeeps(s, a, Step(s, a), Issued(front));
      } else {
        var h :| Pushes(s, a, Step(s, a), h);
        PushesKeeps(s, a, Step(s, a), h, Issued(front));
        assert Issued(actions) == Issued(front);
      }
    }
  }

  // ---- Between two settled states

  // Of each message either all entries or none.
  ghost predicate Whole(log: seq<Tagged>) {
    forall k: nat :: OfId(log, k) == [] || exists i: Issue :: IsIssue(i, k) && OfId(log, k) == Entries(i)
  }

  predicate IsIssue(i: Issue, k: nat) {
    i.message.id == k && (i.message.room.None? ==> i.message.recipient.Some?)
  }

  lemma {:induction false} IssuedGrows(first: seq<Action>, later: seq<Action>)
    ensures Issued(first) <= Issued(first + later)
  {
    if later == [] {
      assert first + later == first;
    } else {
      assert (first + later)[..|first + later| - 1] == first + later[..|later| - 1];
      IssuedGrows(first, later[..|later| - 1]);
    }
  }

  lemma SettledEntries(s: State, issued: seq<Issue>, k: nat)
    requires EntriesOk(s, issued) && Settled(s)
    ensures OfId(s.enqueued, k) == if k < |issued| then Entries(issued[k]) else []
  {
    hide OfId, Entries, Pending;
    if k < |issued| {
      assert Accounted(s, issued, issued[k].from, k);
      assert s.enqueued + [] == s.enqueued;
    }
  }

  // What is put into the channel between two settled states are whole messages.
  lemma WholeBetween(first: seq<Action>, later: seq<Action>)
    requires Settled(Run(Initial, first)) && Settled(Run(Initial, first + later))
    ensures var s, t := Run(Initial, first), Run(Initial, first + later);
      |s.enqueued| <= |t.enqueued| && Whole(t.enqueued[|s.enqueued|..])
  {
    hide Run, OfId, Entries, Settled, Issued;
    var s, t := Run(Initial, first), Run(Initial, first + later);
    EntriesRun(first);
    EntriesRun(first + later);
    IssuedGrows(first, later);
    LaterRun(first, later);
    var sent, issued := t.enqueued[|s.enqueued|..], Issued(first + later);
    assert t.enqueued == s.enqueued + sent;
    forall k: nat
      ensures OfId(sent, k) == [] || (k < |issued| && IsIssue(issued[k], k) && OfId(sent, k) == Entries(issued[k]))
    {
      SettledEntries(s, Issued(first), k);
      SettledEntries(t, issued, k);
      OfIdAppend(s.enqueued, sent, k);
      if k < |Issued(first)| {
        assert Entries(issued[k]) + OfId(sent, k) == Entries(issued[k]);
      } else {
        assert [] + OfId(sent, k) == OfId(sent, k);
      }
    }
  }
}
