// When a line reaches a member ahead of an earlier one, and ahead of the history it is replayed.
module LockOvertakes {
  import opened Text
  import opened LockSections
  import opened LockOrder
  import opened LockSends
  import opened LockQueues
  import Delivery = LockDelivery

  // x was put on the channel, and y after it.
  predicate Before(q: seq<Line>, x: Line, y: Line) {
    exists i, j :: 0 <= i < j < |q| && q[i] == x && q[j] == y
  }

  // ---- What always holds

  // In any interleaving of sections and sends the lines of one client reach each member in the order of
  // the log, and no line reaches a member twice.
  lemma OneClientInOrder(cfg: Config, turns: seq<Turn>, m: nat, p: nat, q: nat)
    requires var box := Inbox(Turns(cfg, turns), m);
      p < q < |box| && box[p].Live? && box[q].Live? && box[p].room == box[q].room
    ensures var w := Turns(cfg, turns);
      var x, y := Inbox(w, m)[p], Inbox(w, m)[q];
      && Stored(w.s, x.room, x.index) && Stored(w.s, y.room, y.index) && x.index != y.index
      && (PostAt(w.s, x.room, x.index).from == PostAt(w.s, y.room, y.index).from ==> x.index < y.index)
  {
    WideRun(cfg, turns);
    hide Turns, Inv, OrderOk, OwedOk, AgainOk, RepeatOk;
    var w := Turns(cfg, turns);
    var x, y := Inbox(w, m)[p], Inbox(w, m)[q];
    assert x in Inbox(w, m) && y in Inbox(w, m);
    assert LiveOk(w, x.room, x.index, m) && LiveOk(w, y.room, y.index, m);
    assert InboxOk(w, m);
  }

  // What was put on a channel stays there.
  lemma {:induction false} InboxGrows(cfg: Config, turns: seq<Turn>, more: seq<Turn>, m: nat)
    ensures Inbox(Turns(cfg, turns), m) <= Inbox(Turns(cfg, turns + more), m)
  {
    hide Step, Inv, Owes;
    if more == [] {
      assert turns + more == turns;
    } else {
      assert (turns + more)[..|turns + more| - 1] == turns + more[..|more| - 1];
      InboxGrows(cfg, turns, more[..|more| - 1], m);
    }
  }

  lemma NoneTwice(cfg: Config, turns: seq<Turn>, m: nat, p: nat, q: nat)
    requires p < q < |Inbox(Turns(cfg, turns), m)|
    ensures Inbox(Turns(cfg, turns), m)[p] != Inbox(Turns(cfg, turns), m)[q]
  {
    hide Turns, Inv, OrderOk, OwedOk, AgainOk, RepeatOk;
    WideRun(cfg, turns);
    var w := Turns(cfg, turns);
    var x := Inbox(w, m)[p];
    assert InboxOk(w, m);
    if x.Live? {
      assert x in Inbox(w, m);
      assert LiveOk(w, x.room, x.index, m);
    }
  }

  lemma Latecomer(q: seq<Line>, box: seq<Line>, x: Line, y: Line)
    requires q <= box && y in q && x !in q
    requires forall i, j :: 0 <= i < j < |box| ==> box[i] != box[j]
    ensures !Before(box, x, y)
  {
    var k :| 0 <= k < |q| && q[k] == y;
    forall i, j | 0 <= i < j < |box| && box[j] == y ensures box[i] != x {
      assert box[k] == box[j];
      assert q[i] in q;
    }
  }

  // What is on a channel now is not overtaken by what is not.
  lemma NotOvertaken(cfg: Config, turns: seq<Turn>, more: seq<Turn>, m: nat, x: Line, y: Line)
    requires y in Inbox(Turns(cfg, turns), m) && x !in Inbox(Turns(cfg, turns), m)
    ensures !Before(Inbox(Turns(cfg, turns + more), m), x, y)
  {
    hide Turns, Before;
    InboxGrows(cfg, turns, more, m);
    var box := Inbox(Turns(cfg, turns + more), m);
    forall i, j | 0 <= i < j < |box| ensures box[i] != box[j] { NoneTwice(cfg, turns + more, m, i, j); }
    Latecomer(Inbox(Turns(cfg, turns), m), box, x, y);
  }

  // A line that reached a member before another was stored is never overtaken there by that one.
  lemma SentBeforeStored(cfg: Config, turns: seq<Turn>, more: seq<Turn>, m: nat, r: nat, i: nat, j: nat)
    requires var w := Turns(cfg, turns); Live(r, i) in Inbox(w, m) && !Stored(w.s, r, j)
    ensures !Before(Inbox(Turns(cfg, turns + more), m), Live(r, j), Live(r, i))
  {
    WideRun(cfg, turns);
    hide Turns, Inv, OrderOk, OwedOk, AgainOk, RepeatOk, InboxOk;
    assert LiveOk(Turns(cfg, turns), r, j, m);
    NotOvertaken(cfg, turns, more, m, Live(r, j), Live(r, i));
  }

  // ---- Turns that someone can take

  // Whom a turn of c leaves where they were.
  ghost predicate OnlyMoves(w: Wide, v: Wide, c: nat) {
    && v.s.threads.Keys == w.s.threads.Keys
    && (forall x :: x in w.s.threads && x != c ==> v.s.threads[x] == w.s.threads[x])
    && (forall x :: x != c ==> OwedBy(v, x) == OwedBy(w, x)) && v.inbox == w.inbox
  }

  // c stands before speaking in a room its key names.
  predicate CanSpeak(w: Wide, c: nat, r: nat) {
    && c in w.s.threads && w.s.threads[c].pc.Ready? && OwedBy(w, c) == Nothing
    && var key := w.s.threads[c].cached; key != "" && key in w.s.registered && w.s.registered[key] == r
  }

  lemma FindTurn(cfg: Config, w: Wide, c: nat, r: nat)
    requires Wf(w.s) && CanSpeak(w, c, r)
    ensures var v := Take(cfg, w, Lock(Find(c)));
      && OnlyMoves(w, v, c) && v.s.rooms == w.s.rooms && v.s.threads[c].pc == Speaking(r) && OwedBy(v, c) == Nothing
      && v.s.clock == w.s.clock + 1
  {
    hide PcOk;
  }

  lemma AppendTurn(cfg: Config, w: Wide, c: nat, r: nat)
    requires Wf(w.s) && c in w.s.threads && w.s.threads[c].pc == Speaking(r) && OwedBy(w, c) == Nothing
    requires r < |w.s.rooms|
    ensures var v := Take(cfg, w, Lock(Append(c))); var n := |w.s.rooms[r].log|;
      && OnlyMoves(w, v, c) && v.s.threads[c].pc == Posted(r, n) && OwedBy(v, c) == Nothing
      && v.s.clock == w.s.clock + 1
      && v.s.rooms == w.s.rooms[r := w.s.rooms[r].(log := w.s.rooms[r].log + [Post(c, w.s.clock, None)])]
  {
    hide PcOk;
  }

  lemma LookUpTurn(cfg: Config, w: Wide, c: nat, r: nat, i: nat)
    requires Wf(w.s) && c in w.s.threads && w.s.threads[c].pc == Posted(r, i) && OwedBy(w, c) == Nothing
    requires r < |w.s.rooms| && i < |w.s.rooms[r].log| && w.s.rooms[r].members != {}
    ensures var v := Take(cfg, w, Lock(Snapshot(c))); var room := w.s.rooms[r];
      && OnlyMoves(w, v, c) && OwedBy(v, c) == Out(r, i, room.members)
      && v.s.registered == w.s.registered && v.s.clock == w.s.clock + 1
      && v.s.rooms ==
         w.s.rooms[r := room.(log := room.log[i := room.log[i].(lookUp := Some(LookUp(w.s.clock, room.members)))])]
  {
    hide PcOk;
  }

  // c says something in the room, up to and including the send to m; for the rest nothing changes but the log.
  function Speech(c: nat, m: nat): seq<Turn> {
    [Lock(Find(c))] + [Lock(Append(c))] + [Lock(Snapshot(c))] + [Send(c, m)]
  }

  predicate Later(p: Post, now: nat) {
    p.lookUp.Some? && p.lookUp.value.at >= now
  }

  ghost predicate Spoke(w: Wide, v: Wide, c: nat, r: nat, m: nat) {
    && r < |w.s.rooms| == |v.s.rooms| && v.s.rooms[r].members == w.s.rooms[r].members
    && |v.s.rooms[r].log| == |w.s.rooms[r].log| + 1 && v.s.rooms[r].log[..|w.s.rooms[r].log|] == w.s.rooms[r].log
    && Later(v.s.rooms[r].log[|w.s.rooms[r].log|], w.s.clock)
    && v.s.threads.Keys == w.s.threads.Keys
    && (forall x :: x in w.s.threads && x != c ==> v.s.threads[x] == w.s.threads[x])
    && (forall x :: x != c ==> OwedBy(v, x) == OwedBy(w, x))
    && Inbox(v, m) == Inbox(w, m) + [Live(r, |w.s.rooms[r].log|)]
  }

  lemma MovesOn(u: Wide, v: Wide, w: Wide, c: nat)
    requires OnlyMoves(u, v, c) && OnlyMoves(v, w, c)
    ensures OnlyMoves(u, w, c)
  {}

  // The room's log has one more line, c's, not looked up yet.
  ghost predicate OneMore(s: State, t: State, c: nat, r: nat) {
    && r < |s.rooms| && t.clock >= s.clock
    && exists at: nat :: t.rooms == s.rooms[r := s.rooms[r].(log := s.rooms[r].log + [Post(c, at, None)])]
  }

  // c finds the room and stores its line.
  lemma StoresOne(cfg: Config, turns: seq<Turn>, c: nat, r: nat)
    requires CanSpeak(Turns(cfg, turns), c, r) && r < |Turns(cfg, turns).s.rooms|
    ensures var w, v := Turns(cfg, turns), Turns(cfg, turns + [Lock(Find(c))] + [Lock(Append(c))]);
      && OnlyMoves(w, v, c) && c in v.s.threads && v.s.threads[c].pc == Posted(r, |w.s.rooms[r].log|)
      && OwedBy(v, c) == Nothing && OneMore(w.s, v.s, c, r)
  {
    hide Turns, Take, CanSpeak, OnlyMoves;
    var w, t1 := Turns(cfg, turns), turns + [Lock(Find(c))];
    TurnsWf(cfg, turns);
    TurnsWf(cfg, t1);
    FindTurn(cfg, w, c, r);
    TurnsStep(cfg, turns, Lock(Find(c)));
    StillThere(w, Turns(cfg, t1), c, r);
    AppendTurn(cfg, Turns(cfg, t1), c, r);
    TurnsStep(cfg, t1, Lock(Append(c)));
    var v := Turns(cfg, t1 + [Lock(Append(c))]);
    MovesOn(w, Turns(cfg, t1), v, c);
  }

  lemma StillThere(w: Wide, v: Wide, c: nat, r: nat)
    requires CanSpeak(w, c, r) && OnlyMoves(w, v, c)
    ensures c in w.s.threads && c in v.s.threads
  {}

  // c's line is put on m's channel; for the rest nothing changes but that line's look-up.
  ghost predicate Hands(w: Wide, v: Wide, c: nat, r: nat, i: nat, m: nat) {
    && v.s.threads.Keys == w.s.threads.Keys
    && (forall x :: x in w.s.threads && x != c ==> v.s.threads[x] == w.s.threads[x])
    && (forall x :: x != c ==> OwedBy(v, x) == OwedBy(w, x))
    && r < |v.s.rooms| == |w.s.rooms| && v.s.rooms[r].members == w.s.rooms[r].members
    && |v.s.rooms[r].log| == |w.s.rooms[r].log|
    && (forall j :: 0 <= j < |w.s.rooms[r].log| && j != i ==> v.s.rooms[r].log[j] == w.s.rooms[r].log[j])
    && Inbox(v, m) == Inbox(w, m) + [Live(r, i)]
  }

  // c looks up the members and sends its last line to m.
  lemma HandsOut(cfg: Config, turns: seq<Turn>, c: nat, r: nat, i: nat, m: nat)
    requires var w := Turns(cfg, turns);
      && c in w.s.threads && w.s.threads[c].pc == Posted(r, i) && OwedBy(w, c) == Nothing
      && r < |w.s.rooms| && i < |w.s.rooms[r].log| && m in w.s.rooms[r].members
    ensures var w, v := Turns(cfg, turns), Turns(cfg, turns + [Lock(Snapshot(c))] + [Send(c, m)]);
      && Hands(w, v, c, r, i, m)
      && v.s.rooms[r].log[i] == w.s.rooms[r].log[i].(lookUp := Some(LookUp(w.s.clock, w.s.rooms[r].members)))
  {
    hide Turns, Take, Hands, OnlyMoves;
    var w, t := Turns(cfg, turns), turns + [Lock(Snapshot(c))];
    TurnsWf(cfg, turns);
    LookUpTurn(cfg, w, c, r, i);
    TurnsStep(cfg, turns, Lock(Snapshot(c)));
    SendTurn(cfg, t, c, m);
    HandsIs(w, Turns(cfg, t), Turns(cfg, t + [Send(c, m)]), c, r, i, m, LookUp(w.s.clock, w.s.rooms[r].members));
  }

  lemma HandsIs(w: Wide, u: Wide, v: Wide, c: nat, r: nat, i: nat, m: nat, l: LookUp)
    requires OnlyMoves(w, u, c) && r < |w.s.rooms| && i < |w.s.rooms[r].log|
    requires var room := w.s.rooms[r];
      u.s.rooms == w.s.rooms[r := room.(log := room.log[i := room.log[i].(lookUp := Some(l))])]
    requires v.s == u.s && (forall x :: x != c ==> OwedBy(v, x) == OwedBy(u, x))
    requires Inbox(v, m) == Inbox(u, m) + [Live(r, i)]
    ensures Hands(w, v, c, r, i, m) && v.s.rooms[r].log[i] == w.s.rooms[r].log[i].(lookUp := Some(l))
  {}

  lemma SpokeIs(w: Wide, u: Wide, v: Wide, c: nat, r: nat, m: nat)
    requires OnlyMoves(w, u, c) && OneMore(w.s, u.s, c, r) && Hands(u, v, c, r, |w.s.rooms[r].log|, m)
    requires Later(v.s.rooms[r].log[|w.s.rooms[r].log|], u.s.clock)
    ensures Spoke(w, v, c, r, m)
  {
    var n := |w.s.rooms[r].log|;
    assert u.s.rooms[r].log[..n] == w.s.rooms[r].log;
    assert forall j :: 0 <= j < n ==> v.s.rooms[r].log[j] == u.s.rooms[r].log[j];
    assert v.s.rooms[r].log[..n] == u.s.rooms[r].log[..n];
  }

  lemma Speaks(cfg: Config, turns: seq<Turn>, c: nat, r: nat, m: nat)
    requires var w := Turns(cfg, turns); CanSpeak(w, c, r) && r < |w.s.rooms| && m in w.s.rooms[r].members
    ensures Spoke(Turns(cfg, turns), Turns(cfg, turns + Speech(c, m)), c, r, m)
  {
    hide Turns, Take, CanSpeak, OnlyMoves, Hands, Spoke;
    var w, t2 := Turns(cfg, turns), turns + [Lock(Find(c))] + [Lock(Append(c))];
    StoresOne(cfg, turns, c, r);
    var n := |w.s.rooms[r].log|;
    assert |Turns(cfg, t2).s.rooms[r].log| == n + 1;
    HandsOut(cfg, t2, c, r, n, m);
    var t := t2 + [Lock(Snapshot(c))] + [Send(c, m)];
    HandsKeeps(Turns(cfg, t2), Turns(cfg, t), c, r, n, m);
    SpokeIs(w, Turns(cfg, t2), Turns(cfg, t), c, r, m);
    assert turns + Speech(c, m) == t;
  }

  lemma HandsKeeps(w: Wide, v: Wide, c: nat, r: nat, i: nat, m: nat)
    requires Hands(w, v, c, r, i, m)
    ensures r < |v.s.rooms| == |w.s.rooms| && |v.s.rooms[r].log| == |w.s.rooms[r].log|
  {}

  lemma TurnsWf(cfg: Config, turns: seq<Turn>)
    ensures Wf(Turns(cfg, turns).s)
  {
    hide Turns;
  }

  lemma SendTurn(cfg: Config, turns: seq<Turn>, c: nat, m: nat)
    requires var o := OwedBy(Turns(cfg, turns), c); o.Out? && m in o.to
    ensures var w, v := Turns(cfg, turns), Turns(cfg, turns + [Send(c, m)]);
      && v.s == w.s && (forall x :: x != c ==> OwedBy(v, x) == OwedBy(w, x))
      && Inbox(v, m) == Inbox(w, m) + [Live(OwedBy(w, c).room, OwedBy(w, c).index)]
  {
    hide Turns, Put;
    TurnsStep(cfg, turns, Send(c, m));
    var w := Turns(cfg, turns);
    var o := OwedBy(w, c);
    forall x: nat ensures OwedBy(Put(w, c, Served(o, m), m, Live(o.room, o.index)), x) ==
      if x == c then Served(o, m) else OwedBy(w, x)
    {
      PutIs(w, c, Served(o, m), m, Live(o.room, o.index), x);
    }
    PutIs(w, c, Served(o, m), m, Live(o.room, o.index), m);
  }

  // ---- A line that is on its way

  // m is among the line's recipients, or will be when its poster's look-up comes now.
  predicate Due(w: Wide, r: nat, i: nat, m: nat) {
    && Stored(w.s, r, i)
    && match PostAt(w.s, r, i).lookUp
       case Some(l) => m in l.to
       case None => m in w.s.rooms[r].members
  }

  // Where its poster stands as long as m has not got it.
  lemma OnItsWay(cfg: Config, turns: seq<Turn>, r: nat, i: nat, m: nat)
    requires Due(Turns(cfg, turns), r, i, m) && Live(r, i) !in Inbox(Turns(cfg, turns), m)
    ensures var w := Turns(cfg, turns); var c := PostAt(w.s, r, i).from;
      if PostAt(w.s, r, i).lookUp.None?
      then c in w.s.threads && w.s.threads[c].pc == Posted(r, i) && OwedBy(w, c) == Nothing
      else Pledged(w, c, r, i, m)
  {
    WideRun(cfg, turns);
    hide Turns, Inv, InTurn, LastOf, AgainOk, RepeatOk, InboxOk;
    var w := Turns(cfg, turns);
    var c := PostAt(w.s, r, i).from;
    assert LiveOk(w, r, i, m) && OutOk(w, c) && RestOk(cfg, w, c);
    if PostAt(w.s, r, i).lookUp.None? { assert Posting(w.s, c, r, i); }
  }

  // It can be put on m's channel next.
  lemma Deliver(cfg: Config, turns: seq<Turn>, r: nat, i: nat, m: nat) returns (more: seq<Turn>)
    requires Due(Turns(cfg, turns), r, i, m) && Live(r, i) !in Inbox(Turns(cfg, turns), m)
    ensures var w := Turns(cfg, turns); Hands(w, Turns(cfg, turns + more), PostAt(w.s, r, i).from, r, i, m)
  {
    hide Turns;
    OnItsWay(cfg, turns, r, i, m);
    var w := Turns(cfg, turns);
    var c := PostAt(w.s, r, i).from;
    if PostAt(w.s, r, i).lookUp.None? {
      HandsOut(cfg, turns, c, r, i, m);
      more := [Lock(Snapshot(c))] + [Send(c, m)];
      assert turns + more == turns + [Lock(Snapshot(c))] + [Send(c, m)];
    } else {
      SendTurn(cfg, turns, c, m);
      more := [Send(c, m)];
    }
  }

  lemma LastTwo(q: seq<Line>, x: Line, y: Line)
    ensures Before(q + [x] + [y], x, y)
  {
    var box := q + [x] + [y];
    assert box[|q|] == x && box[|q| + 1] == y;
  }

  // ---- Overtaking

  // After these turns a line that is not stored yet is on m's channel ahead of y.
  ghost predicate Overtakes(cfg: Config, turns: seq<Turn>, more: seq<Turn>, r: nat, j: nat, m: nat, y: Line) {
    !Stored(Turns(cfg, turns).s, r, j) && Before(Inbox(Turns(cfg, turns + more), m), Live(r, j), y)
  }

  ghost predicate CanBeOvertaken(cfg: Config, turns: seq<Turn>, r: nat, m: nat, y: Line) {
    exists more: seq<Turn>, j: nat :: Overtakes(cfg, turns, more, r, j, m, y)
  }

  // In every state that can be reached, with a stored line due to a member and some client able to speak
  // in the room: a line that is yet to be stored can still get to the member first if and only if the
  // earlier one has not been sent to that member.
  lemma OvertakenWhen(cfg: Config, turns: seq<Turn>, r: nat, i: nat, m: nat, y: nat)
    requires var w := Turns(cfg, turns);
      Due(w, r, i, m) && m in w.s.rooms[r].members && CanSpeak(w, y, r)
    ensures CanBeOvertaken(cfg, turns, r, m, Live(r, i)) <==> Live(r, i) !in Inbox(Turns(cfg, turns), m)
  {
    hide Turns, Before;
    var w := Turns(cfg, turns);
    if Live(r, i) in Inbox(w, m) {
      forall more: seq<Turn>, j: nat | !Stored(w.s, r, j) ensures !Overtakes(cfg, turns, more, r, j, m, Live(r, i)) {
        SentBeforeStored(cfg, turns, more, m, r, i, j);
      }
    } else {
      var more := SpeaksFirst(cfg, turns, r, i, m, y);
      assert Overtakes(cfg, turns, more, r, |w.s.rooms[r].log|, m, Live(r, i));
    }
  }

  lemma DueIsStored(w: Wide, r: nat, i: nat, m: nat)
    requires Due(w, r, i, m)
    ensures Stored(w.s, r, i)
  {}

  lemma StillDue(w: Wide, v: Wide, c: nat, r: nat, i: nat, m: nat)
    requires Due(w, r, i, m) && Spoke(w, v, c, r, m) && Live(r, i) !in Inbox(w, m)
    ensures Stored(v.s, r, i) && Due(v, r, i, m) && Live(r, i) !in Inbox(v, m)
    ensures Inbox(v, m) == Inbox(w, m) + [Live(r, |w.s.rooms[r].log|)]
  {
    assert v.s.rooms[r].log[i] == v.s.rooms[r].log[..|w.s.rooms[r].log|][i];
  }

  lemma HandsLast(w: Wide, v: Wide, c: nat, r: nat, i: nat, m: nat)
    requires Hands(w, v, c, r, i, m)
    ensures Inbox(v, m) == Inbox(w, m) + [Live(r, i)]
  {}

  lemma SpeaksFirst(cfg: Config, turns: seq<Turn>, r: nat, i: nat, m: nat, y: nat) returns (more: seq<Turn>)
    requires var w := Turns(cfg, turns);
      Due(w, r, i, m) && m in w.s.rooms[r].members && CanSpeak(w, y, r) && Live(r, i) !in Inbox(w, m)
    ensures var w := Turns(cfg, turns);
      Before(Inbox(Turns(cfg, turns + more), m), Live(r, |w.s.rooms[r].log|), Live(r, i))
  {
    hide Turns, Before, Spoke, Due, Hands;
    var w, t := Turns(cfg, turns), turns + Speech(y, m);
    DueIsStored(w, r, i, m);
    Speaks(cfg, turns, y, r, m);
    var v, n := Turns(cfg, t), |w.s.rooms[r].log|;
    StillDue(w, v, y, r, i, m);
    var last := Deliver(cfg, t, r, i, m);
    HandsLast(v, Turns(cfg, t + last), PostAt(v.s, r, i).from, r, i, m);
    more := Speech(y, m) + last;
    assert t + last == turns + more;
    LastTwo(Inbox(w, m), Live(r, n), Live(r, i));
  }

  ghost predicate CanCross(cfg: Config, turns: seq<Turn>, r: nat, i: nat, j: nat, m: nat) {
    exists more: seq<Turn> :: Before(Inbox(Turns(cfg, turns + more), m), Live(r, j), Live(r, i))
  }

  // Two stored lines of different clients, both due to a member, stored in either order: the one can
  // come to be on the member's channel ahead of the other if and only if it already is or the other
  // has not been sent to that member.
  lemma CrossWhen(cfg: Config, turns: seq<Turn>, r: nat, i: nat, j: nat, m: nat)
    requires var w := Turns(cfg, turns);
      Due(w, r, i, m) && Due(w, r, j, m) && PostAt(w.s, r, i).from != PostAt(w.s, r, j).from
    ensures var q := Inbox(Turns(cfg, turns), m);
      CanCross(cfg, turns, r, i, j, m) <==> Before(q, Live(r, j), Live(r, i)) || Live(r, i) !in q
  {
    hide Turns, Before;
    var w := Turns(cfg, turns);
    var q := Inbox(w, m);
    if Before(q, Live(r, j), Live(r, i)) {
      assert turns + [] == turns;
      assert Before(Inbox(Turns(cfg, turns + []), m), Live(r, j), Live(r, i));
    } else if Live(r, i) !in q {
      var more := CrossNow(cfg, turns, r, i, j, m);
      assert Before(Inbox(Turns(cfg, turns + more), m), Live(r, j), Live(r, i));
    } else {
      forall more: seq<Turn> ensures !Before(Inbox(Turns(cfg, turns + more), m), Live(r, j), Live(r, i)) {
        StaysBehind(cfg, turns, more, m, Live(r, j), Live(r, i));
      }
    }
  }

  lemma CrossNow(cfg: Config, turns: seq<Turn>, r: nat, i: nat, j: nat, m: nat) returns (more: seq<Turn>)
    requires var w := Turns(cfg, turns);
      && Due(w, r, i, m) && Due(w, r, j, m) && PostAt(w.s, r, i).from != PostAt(w.s, r, j).from
      && Live(r, i) !in Inbox(w, m)
    ensures Before(Inbox(Turns(cfg, turns + more), m), Live(r, j), Live(r, i))
  {
    hide Turns, Before;
    var w := Turns(cfg, turns);
    var first: seq<Turn> := [];
    assert turns + [] == turns;
    if Live(r, j) !in Inbox(w, m) {
      first := Deliver(cfg, turns, r, j, m);
    }
    var t := turns + first;
    var q := Inbox(Turns(cfg, t), m);
    assert Due(Turns(cfg, t), r, i, m) && Live(r, i) !in q && Live(r, j) in q;
    var last := Deliver(cfg, t, r, i, m);
    more := first + last;
    assert t + last == turns + more;
    EndsBehind(q, Live(r, j), Live(r, i));
  }

  lemma EndsBehind(q: seq<Line>, x: Line, y: Line)
    requires x in q
    ensures Before(q + [y], x, y)
  {
    var i :| 0 <= i < |q| && q[i] == x;
    assert (q + [y])[i] == x && (q + [y])[|q|] == y;
  }

  // What is behind on a channel stays behind.
  lemma StaysBehind(cfg: Config, turns: seq<Turn>, more: seq<Turn>, m: nat, x: Line, y: Line)
    requires y in Inbox(Turns(cfg, turns), m) && !Before(Inbox(Turns(cfg, turns), m), x, y)
    ensures !Before(Inbox(Turns(cfg, turns + more), m), x, y)
  {
    hide Turns, Before;
    InboxGrows(cfg, turns, more, m);
    var box := Inbox(Turns(cfg, turns + more), m);
    forall i, j | 0 <= i < j < |box| ensures box[i] != box[j] { NoneTwice(cfg, turns + more, m, i, j); }
    BehindStays(Inbox(Turns(cfg, turns), m), box, x, y);
  }

  lemma BehindStays(q: seq<Line>, box: seq<Line>, x: Line, y: Line)
    requires q <= box && y in q && !Before(q, x, y)
    requires forall i, j :: 0 <= i < j < |box| ==> box[i] != box[j]
    ensures !Before(box, x, y)
  {
    var k :| 0 <= k < |q| && q[k] == y;
    forall i, j | 0 <= i < j < |box| && box[j] == y ensures box[i] != x {
      assert box[k] == box[j];
      assert q[i] == box[i] && q[j] == box[j];
    }
  }

  // ---- Overtaking the history

  // m's next repeats, up to the k-th line of the history.
  lemma RepeatsTo(cfg: Config, turns: seq<Turn>, m: nat, k: nat) returns (more: seq<Turn>)
    requires var o := OwedBy(Turns(cfg, turns), m); o.Rest? && o.next <= k < o.hi
    ensures var o := OwedBy(Turns(cfg, turns), m);
      Again(o.at, o.room, k) in Inbox(Turns(cfg, turns + more), m)
    decreases k - OwedBy(Turns(cfg, turns), m).next
  {
    hide Turns, Put;
    var w, t := Turns(cfg, turns), turns + [Repeat(m)];
    var o := OwedBy(w, m);
    TurnsStep(cfg, turns, Repeat(m));
    RepeatedIs(w, m, m);
    assert Turns(cfg, t) == Repeated(w, m);
    if o.next == k {
      more := [Repeat(m)];
    } else {
      var rest := RepeatsTo(cfg, t, m, k);
      more := [Repeat(m)] + rest;
      assert t + rest == turns + more;
    }
  }

  // In every state that can be reached, with a member that has read the history and some client able to
  // speak in the room: a line that is yet to be stored can get to the member ahead of a replayed one if
  // and only if the latter has not been sent yet.
  lemma HistoryOvertakenWhen(cfg: Config, turns: seq<Turn>, r: nat, m: nat, k: nat, y: nat)
    requires var w := Turns(cfg, turns);
      && Visiting(w.s, r, m) && w.s.threads[m].visits[r].replay.Read? && CanSpeak(w, y, r)
      && w.s.threads[m].visits[r].replay.lo <= k < w.s.threads[m].visits[r].replay.hi
    ensures var w := Turns(cfg, turns); var x := Again(w.s.threads[m].visits[r].replay.at, r, k);
      CanBeOvertaken(cfg, turns, r, m, x) <==> x !in Inbox(w, m)
  {
    hide Turns, Before, CanSpeak;
    var w := Turns(cfg, turns);
    var x := Again(w.s.threads[m].visits[r].replay.at, r, k);
    if x in Inbox(w, m) {
      forall more: seq<Turn>, j: nat | !Stored(w.s, r, j) ensures !Overtakes(cfg, turns, more, r, j, m, x) {
        NotStoredNotSent(cfg, turns, r, j, m);
        NotOvertaken(cfg, turns, more, m, Live(r, j), x);
      }
    } else {
      var more := SpeaksBetween(cfg, turns, r, m, k, y);
      NoneAtTheEnd(w.s, r);
      assert Overtakes(cfg, turns, more, r, |w.s.rooms[r].log|, m, x);
    }
  }

  lemma NoneAtTheEnd(s: State, r: nat)
    requires r < |s.rooms|
    ensures !Stored(s, r, |s.rooms[r].log|)
  {}

  lemma NotStoredNotSent(cfg: Config, turns: seq<Turn>, r: nat, j: nat, m: nat)
    requires !Stored(Turns(cfg, turns).s, r, j)
    ensures Live(r, j) !in Inbox(Turns(cfg, turns), m)
  {
    hide Turns, Inv, OrderOk, OwedOk, AgainOk, RepeatOk, InboxOk;
    WideRun(cfg, turns);
    assert LiveOk(Turns(cfg, turns), r, j, m);
  }

  // Whose history is not all sent is still sending it.
  lemma StillRepeating(cfg: Config, turns: seq<Turn>, r: nat, m: nat, k: nat)
    requires var w := Turns(cfg, turns);
      && Visiting(w.s, r, m) && w.s.threads[m].visits[r].replay.Read?
      && w.s.threads[m].visits[r].replay.lo <= k < w.s.threads[m].visits[r].replay.hi
      && Again(w.s.threads[m].visits[r].replay.at, r, k) !in Inbox(w, m)
    ensures var w := Turns(cfg, turns); var o := OwedBy(w, m);
      && r < |w.s.rooms| && m in w.s.rooms[r].members
      && o.Rest? && o.at == w.s.threads[m].visits[r].replay.at && o.room == r && o.next <= k < o.hi
  {
    hide Turns, Wf, Safe, PostsOk, HeardOk, PostersOk, OrderOk, OutOk, AgainOk, LiveOk, InboxOk;
    WideRun(cfg, turns);
    var w := Turns(cfg, turns);
    assert Member(w.s, r, m) <==> Visiting(w.s, r, m);
    assert RepeatOk(w, r, m, k) && RestOk(cfg, w, m);
  }

  lemma SpeaksBetween(cfg: Config, turns: seq<Turn>, r: nat, m: nat, k: nat, y: nat) returns (more: seq<Turn>)
    requires var w := Turns(cfg, turns);
      && Visiting(w.s, r, m) && w.s.threads[m].visits[r].replay.Read? && CanSpeak(w, y, r)
      && w.s.threads[m].visits[r].replay.lo <= k < w.s.threads[m].visits[r].replay.hi
      && Again(w.s.threads[m].visits[r].replay.at, r, k) !in Inbox(w, m)
    ensures var w := Turns(cfg, turns);
      && r < |w.s.rooms|
      && Before(Inbox(Turns(cfg, turns + more), m), Live(r, |w.s.rooms[r].log|),
                Again(w.s.threads[m].visits[r].replay.at, r, k))
  {
    hide Turns, Before;
    var w, t := Turns(cfg, turns), turns + Speech(y, m);
    StillRepeating(cfg, turns, r, m, k);
    var o := OwedBy(w, m);
    Speaks(cfg, turns, y, r, m);
    assert m != y && OwedBy(Turns(cfg, t), m) == o;
    var last := RepeatsTo(cfg, t, m, k);
    more := Speech(y, m) + last;
    assert t + last == turns + more;
    InboxGrows(cfg, t, last, m);
    ComesLater(Inbox(w, m), Inbox(Turns(cfg, t + last), m), Live(r, |w.s.rooms[r].log|), Again(o.at, r, k));
  }

  lemma ComesLater(q: seq<Line>, box: seq<Line>, x: Line, y: Line)
    requires q + [x] <= box && y in box && y !in q && x != y
    ensures Before(box, x, y)
  {
    var j :| 0 <= j < |box| && box[j] == y;
    assert box[|q|] == x;
    assert forall i :: 0 <= i < |q| ==> box[i] == q[i] && q[i] in q;
  }

  // What a member was sent of the room before it reads the history is repeated by that reading, or cut
  // off by the limit.
  lemma HeardBeforeReading(cfg: Config, turns: seq<Turn>, r: nat, m: nat, i: nat)
    requires var w := Turns(cfg, turns);
      && m in w.s.threads && w.s.threads[m].pc.Moved? && w.s.threads[m].pc.room == r && OwedBy(w, m) == Nothing
      && Live(r, i) in Inbox(w, m)
    ensures var v := Turns(cfg, turns + [Lock(Replayed(m))]);
      Visiting(v.s, r, m) ==>
        var visit := v.s.threads[m].visits[r];
        visit.replay.Read? && (Delivery.ReplayedIn(visit, i) || i < visit.replay.lo)
  {
    hide Turns, Step, Places, PostsOk, HeardOk, PostersOk, OrderOk, OwedOk, AgainOk, InboxOk, RepeatOk;
    WideRun(cfg, turns);
    var w := Turns(cfg, turns);
    assert LiveOk(w, r, i, m);
    ReadingLeaves(cfg, w.s, m, r);
    TurnsStep(cfg, turns, Lock(Replayed(m)));
  }

  // ---- What the counts of copies say of the channels

  // Once the line's poster and the member have nothing left to send, the copies that were counted are on
  // the member's channel, each once: the replayed one, and the live one if it was looked up in the visit.
  lemma CopiesArrive(cfg: Config, turns: seq<Turn>, r: nat, c: nat, i: nat)
    requires var w := Turns(cfg, turns);
      && Stored(w.s, r, i) && PostAt(w.s, r, i).lookUp.Some?
      && Visiting(w.s, r, c) && w.s.threads[c].visits[r].replay.Read?
      && OwedBy(w, c) == Nothing && OwedBy(w, PostAt(w.s, r, i).from) == Nothing
    ensures var w := Turns(cfg, turns);
      var p, v := PostAt(w.s, r, i), w.s.threads[c].visits[r];
      && (Again(v.replay.at, r, i) in Inbox(w, c) <==> Delivery.ReplayedIn(v, i))
      && (Live(r, i) in Inbox(w, c) <==> c in p.lookUp.value.to)
      && Delivery.Copies(p, v, c, i) ==
         (if Again(v.replay.at, r, i) in Inbox(w, c) then 1 else 0)
         + (if Live(r, i) in Inbox(w, c) && v.joined < p.lookUp.value.at then 1 else 0)
  {
    hide Turns, Inv, OrderOk, OwedOk, AgainOk, InboxOk;
    WideRun(cfg, turns);
    var w := Turns(cfg, turns);
    assert RepeatOk(w, r, c, i) && LiveOk(w, r, i, c);
  }

  // ---- A run in which the look-ups come in order and the sends do not

  // Clients 0 and 1 sit in the one room; their read loops stand there and this is its log.
  ghost predicate Both(s: State, home: string, pc0: Pc, pc1: Pc, log: seq<Post>, now: nat) {
    && s.clock == now && s.registered == map[home := 0] && home != ""
    && |s.rooms| == 1 && s.rooms[0] == Room(home, {0, 1}, log)
    && s.threads.Keys == {0, 1} && s.threads[0].cached == home && s.threads[1].cached == home
    && s.threads[0].pc == pc0 && s.threads[1].pc == pc1
  }

  lemma BothEnter(cfg: Config, home: string)
    requires Home(cfg, home)
    ensures Both(Run(cfg, Entry(0, home) + Entry(1, home)), home, Ready, Ready, [], 8)
  {
    hide Run, Step, InvAt, Entry;
    Delivery.RunNothing(cfg);
    Enters(cfg, [], 0, home);
    assert [] + Entry(0, home) == Entry(0, home);
    Enters(cfg, Entry(0, home), 1, home);
    assert Run(cfg, Entry(0, home) + Entry(1, home)).registered == map[home := 0];
  }

  lemma FindBoth(cfg: Config, s: State, home: string)
    requires Wf(s) && Both(s, home, Ready, Ready, [], 8)
    ensures Both(Step(cfg, s, Find(0)), home, Speaking(0), Ready, [], 9)
  {
    hide PcOk;
  }

  lemma AppendBoth(cfg: Config, s: State, home: string)
    requires Wf(s) && Both(s, home, Speaking(0), Ready, [], 9)
    ensures Both(Step(cfg, s, Append(0)), home, Posted(0, 0), Ready, [Post(0, 9, None)], 10)
  {
    hide PcOk;
  }

  function OneStored(home: string): seq<Action> {
    Entry(0, home) + Entry(1, home) + [Find(0)] + [Append(0)]
  }

  lemma StoresFirst(cfg: Config, home: string)
    requires Home(cfg, home)
    ensures Both(Run(cfg, OneStored(home)), home, Posted(0, 0), Ready, [Post(0, 9, None)], 10)
  {
    hide Run, Step, Entry, Both, Places, PostsOk, HeardOk, PostersOk;
    BothEnter(cfg, home);
    var p := Entry(0, home) + Entry(1, home);
    RunStep(cfg, p, Find(0));
    FindBoth(cfg, Run(cfg, p), home);
    RunStep(cfg, p + [Find(0)], Append(0));
    AppendBoth(cfg, Run(cfg, p + [Find(0)]), home);
  }

  // From the start, under every configuration: client 0 stores and looks up, client 1 stores and looks up,
  // and yet client 0 itself is sent the second line first.
  lemma LookedUpInOrder(cfg: Config, home: string) returns (turns: seq<Turn>)
    requires Home(cfg, home)
    ensures var w := Turns(cfg, turns);
      && Stored(w.s, 0, 0) && Stored(w.s, 0, 1)
      && PostAt(w.s, 0, 0).lookUp.Some? && PostAt(w.s, 0, 1).lookUp.Some?
      && PostAt(w.s, 0, 0).lookUp.value.at < PostAt(w.s, 0, 1).lookUp.value.at
      && Before(Inbox(w, 0), Live(0, 1), Live(0, 0))
  {
    hide Turns, Take, Before, Sections, OneStored, Run, Entry;
    StoresFirst(cfg, home);
    var before := Prompt(cfg, OneStored(home));
    var w, t1 := Turns(cfg, before), before + [Lock(Snapshot(0))];
    assert OwedBy(w, 0) == Nothing && OwedBy(w, 1) == Nothing;
    TurnsWf(cfg, before);
    LookUpTurn(cfg, w, 0, 0, 0);
    TurnsStep(cfg, before, Lock(Snapshot(0)));
    turns := SendsSecond(cfg, t1);
  }

  lemma SendsSecond(cfg: Config, t1: seq<Turn>) returns (turns: seq<Turn>)
    requires var u := Turns(cfg, t1);
      && CanSpeak(u, 1, 0) && |u.s.rooms| == 1 && |u.s.rooms[0].log| == 1 && u.s.rooms[0].members == {0, 1}
      && OwedBy(u, 0) == Out(0, 0, {0, 1})
      && u.s.rooms[0].log[0].lookUp.Some? && u.s.rooms[0].log[0].lookUp.value.at < u.s.clock
    ensures var w := Turns(cfg, turns);
      && Stored(w.s, 0, 0) && Stored(w.s, 0, 1)
      && PostAt(w.s, 0, 0).lookUp.Some? && PostAt(w.s, 0, 1).lookUp.Some?
      && PostAt(w.s, 0, 0).lookUp.value.at < PostAt(w.s, 0, 1).lookUp.value.at
      && Before(Inbox(w, 0), Live(0, 1), Live(0, 0))
  {
    hide Turns, Take, Before, CanSpeak;
    var u, t2 := Turns(cfg, t1), t1 + Speech(1, 0);
    Speaks(cfg, t1, 1, 0, 0);
    var v := Turns(cfg, t2);
    assert v.s.rooms[0].log[0] == v.s.rooms[0].log[..1][0] == u.s.rooms[0].log[0];
    SendTurn(cfg, t2, 0, 0);
    turns := t2 + [Send(0, 0)];
    LastTwo(Inbox(u, 0), Live(0, 1), Live(0, 0));
  }
}
