// What is on the channels, in every state that lock sections and sends can reach.
module LockQueues {
  import opened LockSections
  import opened LockOrder
  import opened LockSends
  import Delivery = LockDelivery

  // ---- The account of sent and owed lines

  // Client c has still to send the line to m.
  predicate Pledged(w: Wide, c: nat, r: nat, i: nat, m: nat) {
    var o := OwedBy(w, c);
    o.Out? && o.room == r && o.index == i && m in o.to
  }

  predicate LookedUp(s: State, r: nat, i: nat, m: nat) {
    Stored(s, r, i) && PostAt(s, r, i).lookUp.Some? && m in PostAt(s, r, i).lookUp.value.to
  }

  // c stored nothing in the room after that line.
  ghost predicate LastOf(s: State, c: nat, r: nat, i: nat) {
    forall j: nat :: j > i && Stored(s, r, j) ==> PostAt(s, r, j).from != c
  }

  ghost predicate OutOk(w: Wide, c: nat) {
    var o := OwedBy(w, c);
    o.Out? ==>
      && o.to != {} && Stored(w.s, o.room, o.index) && (forall m :: m in o.to ==> LookedUp(w.s, o.room, o.index, m))
      && PostAt(w.s, o.room, o.index).from == c && LastOf(w.s, c, o.room, o.index)
      && c in w.s.threads && w.s.threads[c].pc == Ready
  }

  predicate RestOk(cfg: Config, w: Wide, c: nat) {
    var o := OwedBy(w, c);
    o.Rest? ==>
      && o.room < |w.s.rooms| && Kept(cfg, o.hi) <= o.next < o.hi <= |w.s.rooms[o.room].log| && o.at < w.s.clock
      && c in w.s.threads && w.s.threads[c].pc.Greeted?
      && (o.room in w.s.threads[c].visits ==>
            w.s.threads[c].visits[o.room].replay == Read(o.at, Kept(cfg, o.hi), o.hi))
  }

  // A line is on m's channel exactly when m was among its recipients and has been served.
  predicate LiveOk(w: Wide, r: nat, i: nat, m: nat) {
    Live(r, i) in Inbox(w, m) <==> LookedUp(w.s, r, i, m) && !Pledged(w, PostAt(w.s, r, i).from, r, i, m)
  }

  // What was replayed belongs to readings of the past, and to the present one only up to where it stands.
  predicate AgainOk(w: Wide, m: nat, at: nat, r: nat, k: nat) {
    Again(at, r, k) in Inbox(w, m) ==>
      && at < w.s.clock
      && (OwedBy(w, m).Rest? && OwedBy(w, m).at == at ==> OwedBy(w, m).room == r && k < OwedBy(w, m).next)
  }

  predicate StillToRepeat(w: Wide, m: nat, at: nat, r: nat, k: nat) {
    var o := OwedBy(w, m);
    o.Rest? && o.at == at && o.room == r && o.next <= k
  }

  // Of the history read in a present visit, all is on the channel but what is still to be repeated.
  predicate RepeatOk(w: Wide, r: nat, m: nat, k: nat) {
    Visiting(w.s, r, m) && w.s.threads[m].visits[r].replay.Read? ==>
      var v := w.s.threads[m].visits[r].replay;
      Again(v.at, r, k) in Inbox(w, m) <==> v.lo <= k < v.hi && !StillToRepeat(w, m, v.at, r, k)
  }

  // Of two lines on one channel, those of one client come in the order of the log, and those of one
  // reading in its order. So no line comes twice.
  predicate InOrder(s: State, x: Line, y: Line) {
    match (x, y)
    case (Live(r, i), Live(q, j)) =>
      r == q && Stored(s, r, i) && Stored(s, q, j) && PostAt(s, r, i).from == PostAt(s, q, j).from ==> i < j
    case (Again(a, _, k), Again(b, _, l)) => a == b ==> k < l
    case _ => true
  }

  ghost predicate InboxOk(w: Wide, m: nat) {
    forall p, q :: 0 <= p < q < |Inbox(w, m)| ==> InOrder(w.s, Inbox(w, m)[p], Inbox(w, m)[q])
  }

  ghost predicate OwedOk(cfg: Config, w: Wide) {
    (forall c: nat :: OutOk(w, c)) && (forall c: nat :: RestOk(cfg, w, c))
  }

  ghost predicate QueuesOk(w: Wide) {
    && (forall r: nat, i: nat, m: nat :: LiveOk(w, r, i, m))
    && (forall m: nat, at: nat, r: nat, k: nat :: AgainOk(w, m, at, r, k))
    && (forall r: nat, m: nat, k: nat :: RepeatOk(w, r, m, k))
    && (forall m: nat :: InboxOk(w, m))
  }

  ghost predicate WideOk(cfg: Config, w: Wide) {
    Inv(cfg, w.s) && OrderOk(w.s) && OwedOk(cfg, w) && QueuesOk(w)
  }

  // ---- What a lock section leaves alone

  lemma OthersStand(cfg: Config, s: State, a: Action, x: nat)
    requires Inv(cfg, s) && x in s.threads && x != a.c
    ensures x in Step(cfg, s, a).threads && Step(cfg, s, a).threads[x] == s.threads[x]
  {
    hide VisitsOk, Safe, HeardOk, PostersOk, PostsOk, PcOk;
    if a.Move? && a.c in s.threads && MayMove(cfg, s.threads[a.c].pc, a.key) {
      MoveKeepsThread(s, a.c, a.key, x);
      hide MoveSection;
    }
  }

  lemma MoveKeepsThread(s: State, c: nat, key: string, x: nat)
    requires Indexed(s) && c in s.threads && x in s.threads && x != c
    ensures x in MoveSection(s, c, key).threads && MoveSection(s, c, key).threads[x] == s.threads[x]
  {}

  // A removal only ends visits.
  lemma RemovalStands(cfg: Config, s: State, c: nat, x: nat)
    requires Inv(cfg, s) && x in s.threads
    ensures var t := Step(cfg, s, Remove(c));
      && x in t.threads && t.threads[x].pc == s.threads[x].pc
      && forall r :: r in t.threads[x].visits ==>
           r in s.threads[x].visits && t.threads[x].visits[r] == s.threads[x].visits[r]
  {
    hide VisitsOk, Safe, HeardOk, PostersOk, PostsOk, PcOk;
  }

  // Whose debts a section does not touch stands as before, up to visits that end.
  lemma DebtorsStand(cfg: Config, s: State, a: Action, x: nat)
    requires Inv(cfg, s) && x in s.threads && (x != a.c || a.Remove?)
    ensures var t := Step(cfg, s, a);
      && x in t.threads && t.threads[x].pc == s.threads[x].pc
      && forall r :: r in t.threads[x].visits ==>
           r in s.threads[x].visits && t.threads[x].visits[r] == s.threads[x].visits[r]
  {
    hide Step, Inv;
    if a.Remove? { RemovalStands(cfg, s, a.c, x); } else { OthersStand(cfg, s, a, x); }
  }

  // Who posted a line is who stands before its look-up.
  lemma PosterIs(s: State, c: nat, r: nat, i: nat)
    requires PostersOk(s) && OrderOk(s) && Posting(s, c, r, i)
    ensures Stored(s, r, i) && PostAt(s, r, i).lookUp.None? && PostAt(s, r, i).from == c && LastOf(s, c, r, i)
  {
    assert Posting(s, PostAt(s, r, i).from, r, i);
    assert InTurn(s.rooms[r].log);
    forall j: nat | j > i && Stored(s, r, j) ensures PostAt(s, r, j).from != c {
      var p, q := PostAt(s, r, i), PostAt(s, r, j);
      assert p.from == q.from ==> p.lookUp.Some?;
    }
  }

  // ---- A lock section

  // A line that was looked up stays as it is, and so does who posted any line.
  lemma LinesStay(s: State, a: Action, t: State, r: nat, i: nat)
    requires PostersOk(s) && LinesStep(s, a, t) && Stored(s, r, i)
    ensures Stored(t, r, i) && PostAt(t, r, i).from == PostAt(s, r, i).from
    ensures PostAt(s, r, i).lookUp.Some? ==> PostAt(t, r, i) == PostAt(s, r, i)
  {
    if Finds(s, a, r, i) { assert Posting(s, a.c, r, i); }
  }

  // A line can only be looked up by its poster's section.
  lemma LookedUpNow(s: State, a: Action, t: State, r: nat, i: nat, m: nat)
    requires PostersOk(s) && LinesStep(s, a, t) && LookedUp(t, r, i, m) && !LookedUp(s, r, i, m)
    ensures Finds(s, a, r, i) && r < |s.rooms| && m in s.rooms[r].members
  {
    assert Stored(t, r, i);
    if Stored(s, r, i) { LinesStay(s, a, t, r, i); }
  }

  lemma OwesOut(cfg: Config, s: State, a: Action)
    requires Inv(cfg, s) && Owes(cfg, s, a).Out?
    ensures var o := Owes(cfg, s, a);
      && a.Snapshot? && Posting(s, a.c, o.room, o.index) && o.room < |s.rooms|
      && o.to == s.rooms[o.room].members && o.to != {}
      && a.c in Step(cfg, s, a).threads && Step(cfg, s, a).threads[a.c].pc == Ready
  {
    Placed(s, a.c);
    hide VisitsOk, Safe, HeardOk, PostersOk, PostsOk, PcOk;
  }

  // A section that looks up its line leaves its client to send it to all it found, if any.
  lemma FindsOwes(cfg: Config, s: State, a: Action, r: nat, i: nat)
    requires Inv(cfg, s) && Finds(s, a, r, i) && r < |s.rooms| && s.rooms[r].members != {}
    ensures Owes(cfg, s, a) == Out(r, i, s.rooms[r].members)
  {}

  lemma OwesRest(cfg: Config, s: State, a: Action)
    requires Inv(cfg, s) && Owes(cfg, s, a).Rest?
    ensures var o, t := Owes(cfg, s, a), Step(cfg, s, a);
      && a.Replayed? && o.at == s.clock && o.room < |s.rooms| && o.hi == |s.rooms[o.room].log|
      && o.next == Kept(cfg, o.hi) < o.hi
      && t.rooms == s.rooms && t.clock == s.clock + 1 && a.c in t.threads && t.threads[a.c].pc.Greeted?
      && (o.room in t.threads[a.c].visits ==>
            t.threads[a.c].visits[o.room].replay == Read(o.at, Kept(cfg, o.hi), o.hi))
  {
    Reads(cfg, s, a.c);
    hide Step, InvAt;
  }

  lemma LockOut(cfg: Config, w: Wide, a: Action, c: nat)
    requires WideOk(cfg, w) && Free(w, a)
    ensures OutOk(Take(cfg, w, Lock(a)), c)
  {
    hide Step, Places, PostsOk, HeardOk, PcOk, Owes, Take, RestOk, QueuesOk;
    var s, t, v := w.s, Step(cfg, w.s, a), Take(cfg, w, Lock(a));
    LockOwes(cfg, w, a, c);
    LockState(cfg, w, a);
    SectionLines(cfg, s, a);
    var o := OwedBy(v, c);
    if o.Out? && c == a.c && !a.Remove? {
      OwesOut(cfg, s, a);
      PosterIs(s, c, o.room, o.index);
      NothingStored(s, a, t, c, o.room, o.index);
    } else if o.Out? {
      assert OutOk(w, c);
      DebtorsStand(cfg, s, a, c);
      forall m | m in o.to ensures LookedUp(t, o.room, o.index, m) {
        assert LookedUp(s, o.room, o.index, m);
        LinesStay(s, a, t, o.room, o.index);
      }
      LinesStay(s, a, t, o.room, o.index);
      NothingStored(s, a, t, c, o.room, o.index);
    }
  }

  lemma LockState(cfg: Config, w: Wide, a: Action)
    requires Wf(w.s) && Free(w, a)
    ensures var v := Take(cfg, w, Lock(a)); v.s == Step(cfg, w.s, a) && v.inbox == w.inbox
  {
    hide Step;
  }

  lemma NothingStored(s: State, a: Action, t: State, c: nat, r: nat, i: nat)
    requires PostersOk(s) && LinesStep(s, a, t) && LastOf(s, c, r, i) && Stored(s, r, i) && (a.Append? ==> a.c != c)
    ensures LastOf(t, c, r, i)
  {
    forall j: nat | j > i && Stored(t, r, j) ensures PostAt(t, r, j).from != c {
      if Stored(s, r, j) { LinesStay(s, a, t, r, j); }
    }
  }

  lemma LockRest(cfg: Config, w: Wide, a: Action, c: nat)
    requires WideOk(cfg, w) && Free(w, a)
    ensures RestOk(cfg, Take(cfg, w, Lock(a)), c)
  {
    hide Step, Places, PostsOk, HeardOk, PostersOk, PcOk, Owes, Take, OutOk, QueuesOk, OrderOk;
    var s, t, v := w.s, Step(cfg, w.s, a), Take(cfg, w, Lock(a));
    LockOwes(cfg, w, a, c);
    LockState(cfg, w, a);
    var o := OwedBy(v, c);
    if o.Rest? && c == a.c && !a.Remove? {
      OwesRest(cfg, s, a);
    } else if o.Rest? {
      assert RestOk(cfg, w, c);
      DebtorsStand(cfg, s, a, c);
      LogsStay(cfg, s, a, o.room);
    }
  }

  lemma LogsStay(cfg: Config, s: State, a: Action, r: nat)
    requires Inv(cfg, s) && r < |s.rooms|
    ensures var t := Step(cfg, s, a); r < |t.rooms| && |s.rooms[r].log| <= |t.rooms[r].log| && t.clock == s.clock + 1
  {
    SectionLines(cfg, s, a);
    hide Inv;
    var t := Step(cfg, s, a);
    KeepsRooms(cfg, s, a);
    if |s.rooms[r].log| > 0 { assert Stored(s, r, |s.rooms[r].log| - 1); }
    hide Step;
  }

  lemma KeepsRooms(cfg: Config, s: State, a: Action)
    requires Inv(cfg, s)
    ensures |s.rooms| <= |Step(cfg, s, a).rooms| && Step(cfg, s, a).clock == s.clock + 1
  {
    Delivery.KeysStay(cfg, s, a);
    hide Inv;
  }

  lemma LockLive(cfg: Config, w: Wide, a: Action, r: nat, i: nat, m: nat)
    requires WideOk(cfg, w) && Free(w, a)
    ensures LiveOk(Take(cfg, w, Lock(a)), r, i, m)
  {
    hide Step, Places, PostsOk, HeardOk, PcOk, Owes, Take, RestOk, OutOk, AgainOk, RepeatOk, InboxOk, InTurn;
    var s, t, v := w.s, Step(cfg, w.s, a), Take(cfg, w, Lock(a));
    assert LiveOk(w, r, i, m);
    LockState(cfg, w, a);
    SectionLines(cfg, s, a);
    if LookedUp(s, r, i, m) {
      var c := PostAt(s, r, i).from;
      LinesStay(s, a, t, r, i);
      LockOwes(cfg, w, a, c);
      if c == a.c && !a.Remove? && Owes(cfg, s, a).Out? {
        OwesOut(cfg, s, a);
        if Posting(s, c, r, i) { PosterIs(s, c, r, i); }
      }
    } else if LookedUp(t, r, i, m) {
      LookedUpNow(s, a, t, r, i, m);
      PosterIs(s, a.c, r, i);
      LinesStay(s, a, t, r, i);
      assert m in s.rooms[r].members;
      FindsOwes(cfg, s, a, r, i);
      LockOwes(cfg, w, a, a.c);
    }
  }

  lemma LockAgain(cfg: Config, w: Wide, a: Action, m: nat, at: nat, r: nat, k: nat)
    requires WideOk(cfg, w) && Free(w, a)
    ensures AgainOk(Take(cfg, w, Lock(a)), m, at, r, k)
  {
    hide Step, Places, PostsOk, HeardOk, PostersOk, PcOk, Owes, Take, RestOk, OutOk, LiveOk, RepeatOk, InboxOk, OrderOk;
    assert AgainOk(w, m, at, r, k);
    LockState(cfg, w, a);
    LockOwes(cfg, w, a, m);
    KeepsRooms(cfg, w.s, a);
    if m == a.c && !a.Remove? && Owes(cfg, w.s, a).Rest? { OwesRest(cfg, w.s, a); }
  }

  // The reading of a history, seen from the visits of its client.
  lemma ReadingLeaves(cfg: Config, s: State, c: nat, r: nat)
    requires Inv(cfg, s) && c in s.threads && s.threads[c].pc.Moved?
    ensures var t, room := Step(cfg, s, Replayed(c)), s.threads[c].pc.room;
      && c in t.threads && room < |s.rooms|
      && (r in t.threads[c].visits ==> r in s.threads[c].visits)
      && (r in t.threads[c].visits && r != room ==> t.threads[c].visits[r] == s.threads[c].visits[r])
      && (r in t.threads[c].visits && r == room ==>
            t.threads[c].visits[r].replay ==
            Read(s.clock, Kept(cfg, |s.rooms[room].log|), |s.rooms[room].log|))
  {
    Placed(s, c);
    hide VisitsOk, Safe, HeardOk, PostersOk, PostsOk, PcOk;
  }

  lemma ReadBefore(cfg: Config, s: State, r: nat, m: nat)
    requires Inv(cfg, s) && Visiting(s, r, m) && s.threads[m].visits[r].replay.Read?
    ensures s.threads[m].visits[r].replay.at < s.clock
  {
    hide Wf, Places, PostsOk, PostersOk, Found;
    assert VisitOk(cfg, s.rooms[r].log, s.threads[m].visits[r], m, s.clock);
  }

  // A visit that a section does not begin, end or read in.
  lemma CarriedRepeat(cfg: Config, w: Wide, a: Action, r: nat, m: nat, k: nat)
    requires WideOk(cfg, w) && Free(w, a) && Visiting(w.s, r, m)
    requires var t := Step(cfg, w.s, a); Visiting(t, r, m) && t.threads[m].visits[r] == w.s.threads[m].visits[r]
    ensures RepeatOk(Take(cfg, w, Lock(a)), r, m, k)
  {
    hide Step, Places, PostsOk, HeardOk, PostersOk, PcOk, Owes, Take, RestOk, OutOk, LiveOk, InboxOk, AgainOk, OrderOk;
    assert RepeatOk(w, r, m, k);
    LockState(cfg, w, a);
    LockOwes(cfg, w, a, m);
    if w.s.threads[m].visits[r].replay.Read? { ReadBefore(cfg, w.s, r, m); }
    if m == a.c && !a.Remove? && Owes(cfg, w.s, a).Rest? { OwesRest(cfg, w.s, a); }
  }

  lemma FreshRepeat(cfg: Config, w: Wide, m: nat, r: nat, k: nat)
    requires WideOk(cfg, w) && OwedBy(w, m) == Nothing
    requires m in w.s.threads && w.s.threads[m].pc.Moved? && w.s.threads[m].pc.room == r
    requires r in Step(cfg, w.s, Replayed(m)).threads[m].visits
    ensures RepeatOk(Take(cfg, w, Lock(Replayed(m))), r, m, k)
  {
    hide Step, Places, PostsOk, HeardOk, PostersOk, PcOk, Take, RestOk, OutOk, LiveOk, InboxOk, RepeatOk, OrderOk;
    ReadingLeaves(cfg, w.s, m, r);
    LockState(cfg, w, Replayed(m));
    LockOwes(cfg, w, Replayed(m), m);
    assert AgainOk(w, m, w.s.clock, r, k);
    RepeatIs(Take(cfg, w, Lock(Replayed(m))), r, m, k);
  }

  lemma RepeatIs(w: Wide, r: nat, m: nat, k: nat)
    requires Visiting(w.s, r, m) && w.s.threads[m].visits[r].replay.Read?
    requires var v := w.s.threads[m].visits[r].replay;
      Again(v.at, r, k) !in Inbox(w, m) && (v.lo <= k < v.hi ==> StillToRepeat(w, m, v.at, r, k))
    ensures RepeatOk(w, r, m, k)
  {}

  lemma LockRepeat(cfg: Config, w: Wide, a: Action, r: nat, m: nat, k: nat)
    requires WideOk(cfg, w) && Free(w, a)
    ensures RepeatOk(Take(cfg, w, Lock(a)), r, m, k)
  {
    hide Step, Places, PostsOk, HeardOk, PostersOk, PcOk, Owes, Take, OwedOk, QueuesOk, OrderOk;
    var s, t := w.s, Step(cfg, w.s, a);
    LockState(cfg, w, a);
    if Visiting(t, r, m) && t.threads[m].visits[r].replay.Read? {
      Delivery.VisitChange(cfg, s, a, r, m);
      if Visiting(s, r, m) && t.threads[m].visits[r] == s.threads[m].visits[r] {
        CarriedRepeat(cfg, w, a, r, m, k);
      } else {
        ReadingMoves(cfg, s, a, r, m);
        FreshRepeat(cfg, w, m, r, k);
      }
    }
  }

  // Only a reading in the room it is about changes a visit that goes on.
  lemma ReadingMoves(cfg: Config, s: State, a: Action, r: nat, m: nat)
    requires Inv(cfg, s) && a == Replayed(m) && Visiting(s, r, m)
    requires var t := Step(cfg, s, a); Visiting(t, r, m) && t.threads[m].visits[r] != s.threads[m].visits[r]
    ensures s.threads[m].pc.Moved? && s.threads[m].pc.room == r
  {
    if s.threads[m].pc.Moved? { ReadingLeaves(cfg, s, m, r); }
    hide VisitsOk, Safe, HeardOk, PostersOk, PostsOk, PcOk;
  }

  lemma LockInbox(cfg: Config, w: Wide, a: Action, m: nat)
    requires WideOk(cfg, w) && Free(w, a)
    ensures InboxOk(Take(cfg, w, Lock(a)), m)
  {
    hide Step, Places, PostsOk, HeardOk, PcOk, Owes, Take, RestOk, OutOk, AgainOk, RepeatOk, OrderOk, LinesStep;
    var s, t, q := w.s, Step(cfg, w.s, a), Inbox(w, m);
    LockState(cfg, w, a);
    SectionLines(cfg, s, a);
    assert InboxOk(w, m);
    forall i, j | 0 <= i < j < |q| ensures InOrder(t, q[i], q[j]) {
      assert InOrder(s, q[i], q[j]);
      if q[i].Live? && q[j].Live? {
        assert q[i] in q && q[j] in q;
        assert LiveOk(w, q[i].room, q[i].index, m) && LiveOk(w, q[j].room, q[j].index, m);
        LinesStay(s, a, t, q[i].room, q[i].index);
        LinesStay(s, a, t, q[j].room, q[j].index);
      }
    }
  }

  lemma LockStep(cfg: Config, w: Wide, a: Action)
    requires WideOk(cfg, w) && Free(w, a)
    ensures WideOk(cfg, Take(cfg, w, Lock(a)))
  {
    hide Step, Places, PostsOk, HeardOk, PostersOk, PcOk, Owes, Take, OwedBy, RestOk, OutOk, LiveOk, AgainOk, RepeatOk,
         InboxOk, OrderOk;
    var v := Take(cfg, w, Lock(a));
    LockState(cfg, w, a);
    StepInv(cfg, w.s, a);
    OrderStep(cfg, w.s, a);
    forall c: nat ensures OutOk(v, c) { LockOut(cfg, w, a, c); }
    forall c: nat ensures RestOk(cfg, v, c) { LockRest(cfg, w, a, c); }
    forall r: nat, i: nat, m: nat ensures LiveOk(v, r, i, m) { LockLive(cfg, w, a, r, i, m); }
    forall m: nat, at: nat, r: nat, k: nat ensures AgainOk(v, m, at, r, k) { LockAgain(cfg, w, a, m, at, r, k); }
    forall r: nat, m: nat, k: nat ensures RepeatOk(v, r, m, k) { LockRepeat(cfg, w, a, r, m, k); }
    forall m: nat ensures InboxOk(v, m) { LockInbox(cfg, w, a, m); }
  }

  // ---- A send

  // What a put changes.
  lemma PutIs(w: Wide, c: nat, left: Owed, m: nat, l: Line, x: nat)
    ensures var v := Put(w, c, left, m, l);
      && v.s == w.s && OwedBy(v, x) == (if x == c then left else OwedBy(w, x))
      && Inbox(v, x) == Inbox(w, x) + if x == m then [l] else []
  {
    assert Inbox(w, x) + [] == Inbox(w, x);
  }

  // Who has been served is no longer waited for.
  function Served(o: Owed, m: nat): Owed
    requires o.Out?
  {
    if o.to == {m} then Nothing else o.(to := o.to - {m})
  }

  lemma ServedIs(o: Owed, m: nat)
    requires o.Out? && m in o.to
    ensures var n := Served(o, m);
      n == Nothing || (n.Out? && n.room == o.room && n.index == o.index && n.to == o.to - {m} && n.to != {})
    ensures Served(o, m) == Nothing ==> o.to == {m}
  {
    if o.to - {m} == {} { assert o.to == {m}; }
  }

  lemma ServedPledge(w: Wide, c: nat, m: nat, x: nat, r: nat, i: nat, n: nat)
    requires OwedBy(w, c).Out? && m in OwedBy(w, c).to
    ensures var o := OwedBy(w, c); var v := Put(w, c, Served(o, m), m, Live(o.room, o.index));
      Pledged(v, x, r, i, n) <==> Pledged(w, x, r, i, n) && !(x == c && r == o.room && i == o.index && n == m)
  {
    var o := OwedBy(w, c);
    ServedIs(o, m);
    PutIs(w, c, Served(o, m), m, Live(o.room, o.index), x);
    hide Put;
  }

  lemma SendOwed(cfg: Config, w: Wide, c: nat, m: nat, x: nat)
    requires WideOk(cfg, w) && OwedBy(w, c).Out? && m in OwedBy(w, c).to
    ensures var o := OwedBy(w, c); var v := Put(w, c, Served(o, m), m, Live(o.room, o.index));
      OutOk(v, x) && RestOk(cfg, v, x)
  {
    hide Inv, OrderOk, QueuesOk, Put, Served, LastOf;
    var o := OwedBy(w, c);
    ServedIs(o, m);
    PutIs(w, c, Served(o, m), m, Live(o.room, o.index), x);
    assert OutOk(w, x) && RestOk(cfg, w, x);
  }

  lemma SendLive(cfg: Config, w: Wide, c: nat, m: nat, r: nat, i: nat, n: nat)
    requires WideOk(cfg, w) && OwedBy(w, c).Out? && m in OwedBy(w, c).to
    ensures var o := OwedBy(w, c); LiveOk(Put(w, c, Served(o, m), m, Live(o.room, o.index)), r, i, n)
  {
    hide Inv, OrderOk, Put, Served, Pledged, LastOf, RestOk, AgainOk, RepeatOk, InboxOk;
    var o := OwedBy(w, c);
    assert LiveOk(w, r, i, n) && OutOk(w, c);
    assert LookedUp(w.s, o.room, o.index, m);
    PutIs(w, c, Served(o, m), m, Live(o.room, o.index), n);
    if Stored(w.s, r, i) { ServedPledge(w, c, m, PostAt(w.s, r, i).from, r, i, n); }
    PledgedIs(w, c, m);
  }

  lemma PledgedIs(w: Wide, c: nat, m: nat)
    requires OwedBy(w, c).Out? && m in OwedBy(w, c).to
    ensures Pledged(w, c, OwedBy(w, c).room, OwedBy(w, c).index, m)
  {}

  lemma SendRepeats(cfg: Config, w: Wide, c: nat, m: nat, n: nat, at: nat, r: nat, k: nat)
    requires WideOk(cfg, w) && OwedBy(w, c).Out? && m in OwedBy(w, c).to
    ensures var o := OwedBy(w, c); var v := Put(w, c, Served(o, m), m, Live(o.room, o.index));
      AgainOk(v, n, at, r, k) && RepeatOk(v, r, n, k)
  {
    hide Inv, OrderOk, Put, Served, OutOk, RestOk, LiveOk, InboxOk;
    var o := OwedBy(w, c);
    assert AgainOk(w, n, at, r, k) && RepeatOk(w, r, n, k);
    ServedIs(o, m);
    PutIs(w, c, Served(o, m), m, Live(o.room, o.index), n);
  }

  lemma SendInbox(cfg: Config, w: Wide, c: nat, m: nat, n: nat)
    requires WideOk(cfg, w) && OwedBy(w, c).Out? && m in OwedBy(w, c).to
    ensures var o := OwedBy(w, c); InboxOk(Put(w, c, Served(o, m), m, Live(o.room, o.index)), n)
  {
    hide Inv, OrderOk, Put, Served, RestOk, AgainOk, RepeatOk;
    var o, q := OwedBy(w, c), Inbox(w, m);
    assert OutOk(w, c) && InboxOk(w, n);
    PutIs(w, c, Served(o, m), m, Live(o.room, o.index), n);
    PledgedIs(w, c, m);
    forall p | 0 <= p < |q| ensures InOrder(w.s, q[p], Live(o.room, o.index)) {
      if q[p].Live? {
        assert q[p] in q && LiveOk(w, q[p].room, q[p].index, m);
      }
    }
  }

  lemma SendStep(cfg: Config, w: Wide, c: nat, m: nat)
    requires WideOk(cfg, w)
    ensures WideOk(cfg, Take(cfg, w, Send(c, m)))
  {
    hide Inv, OrderOk, RestOk, OutOk, LiveOk, AgainOk, RepeatOk, InboxOk, Put;
    var o := OwedBy(w, c);
    if o.Out? && m in o.to {
      var v := Put(w, c, Served(o, m), m, Live(o.room, o.index));
      PutIs(w, c, Served(o, m), m, Live(o.room, o.index), c);
      forall x: nat ensures OutOk(v, x) && RestOk(cfg, v, x) { SendOwed(cfg, w, c, m, x); }
      forall r: nat, i: nat, n: nat ensures LiveOk(v, r, i, n) { SendLive(cfg, w, c, m, r, i, n); }
      forall n: nat, at: nat, r: nat, k: nat ensures AgainOk(v, n, at, r, k) { SendRepeats(cfg, w, c, m, n, at, r, k); }
      forall r: nat, n: nat, k: nat ensures RepeatOk(v, r, n, k) { SendRepeats(cfg, w, c, m, n, 0, r, k); }
      forall n: nat ensures InboxOk(v, n) { SendInbox(cfg, w, c, m, n); }
    }
  }

  // ---- A replayed line

  function Advanced(o: Owed): Owed
    requires o.Rest?
  {
    if o.next + 1 < o.hi then o.(next := o.next + 1) else Nothing
  }

  function Repeated(w: Wide, c: nat): Wide
    requires OwedBy(w, c).Rest?
  {
    var o := OwedBy(w, c);
    Put(w, c, Advanced(o), c, Again(o.at, o.room, o.next))
  }

  lemma RepeatedIs(w: Wide, c: nat, x: nat)
    requires OwedBy(w, c).Rest?
    ensures var v, o := Repeated(w, c), OwedBy(w, c);
      && v.s == w.s && OwedBy(v, x) == (if x == c then Advanced(o) else OwedBy(w, x))
      && Inbox(v, x) == Inbox(w, x) + if x == c then [Again(o.at, o.room, o.next)] else []
  {
    var o := OwedBy(w, c);
    PutIs(w, c, Advanced(o), c, Again(o.at, o.room, o.next), x);
    hide Put;
  }

  lemma RepeatOwed(cfg: Config, w: Wide, c: nat, x: nat)
    requires WideOk(cfg, w) && OwedBy(w, c).Rest?
    ensures OutOk(Repeated(w, c), x) && RestOk(cfg, Repeated(w, c), x)
  {
    hide Inv, OrderOk, QueuesOk, Repeated, LastOf;
    RepeatedIs(w, c, x);
    assert OutOk(w, x) && RestOk(cfg, w, x);
  }

  lemma RepeatLines(cfg: Config, w: Wide, c: nat, n: nat, at: nat, r: nat, k: nat)
    requires WideOk(cfg, w) && OwedBy(w, c).Rest?
    ensures var v := Repeated(w, c); LiveOk(v, r, k, n) && AgainOk(v, n, at, r, k) && RepeatOk(v, r, n, k)
  {
    hide Inv, OrderOk, Repeated, OutOk, InboxOk;
    RepeatedIs(w, c, n);
    assert LiveOk(w, r, k, n) && AgainOk(w, n, at, r, k) && RepeatOk(w, r, n, k) && RestOk(cfg, w, c);
    if Stored(w.s, r, k) { RepeatedIs(w, c, PostAt(w.s, r, k).from); }
  }

  lemma RepeatInbox(cfg: Config, w: Wide, c: nat, n: nat)
    requires WideOk(cfg, w) && OwedBy(w, c).Rest?
    ensures InboxOk(Repeated(w, c), n)
  {
    hide Inv, OrderOk, Repeated, OutOk, LiveOk, RepeatOk, RestOk;
    var o, q := OwedBy(w, c), Inbox(w, c);
    RepeatedIs(w, c, n);
    assert InboxOk(w, n);
    forall p | 0 <= p < |q| ensures InOrder(w.s, q[p], Again(o.at, o.room, o.next)) {
      if q[p].Again? {
        assert q[p] in q && AgainOk(w, c, q[p].at, q[p].room, q[p].index);
      }
    }
  }

  lemma RepeatStep(cfg: Config, w: Wide, c: nat)
    requires WideOk(cfg, w)
    ensures WideOk(cfg, Take(cfg, w, Repeat(c)))
  {
    hide Inv, OrderOk, RestOk, OutOk, LiveOk, AgainOk, RepeatOk, InboxOk, Put;
    if OwedBy(w, c).Rest? {
      var v := Repeated(w, c);
      RepeatedIs(w, c, c);
      forall x: nat ensures OutOk(v, x) && RestOk(cfg, v, x) { RepeatOwed(cfg, w, c, x); }
      forall r: nat, i: nat, n: nat ensures LiveOk(v, r, i, n) { RepeatLines(cfg, w, c, n, 0, r, i); }
      forall n: nat, at: nat, r: nat, k: nat ensures AgainOk(v, n, at, r, k) { RepeatLines(cfg, w, c, n, at, r, k); }
      forall r: nat, n: nat, k: nat ensures RepeatOk(v, r, n, k) { RepeatLines(cfg, w, c, n, 0, r, k); }
      forall n: nat ensures InboxOk(v, n) { RepeatInbox(cfg, w, c, n); }
    }
  }

  // ---- Every run

  lemma IdleOk(cfg: Config)
    ensures WideOk(cfg, Idle)
  {
    InitiallyOk(cfg);
    hide Inv;
  }

  // In every state that sections and sends can reach, in any order.
  lemma {:induction false} WideRun(cfg: Config, turns: seq<Turn>)
    ensures WideOk(cfg, Turns(cfg, turns))
  {
    hide WideOk, Take;
    if turns == [] {
      IdleOk(cfg);
    } else {
      WideRun(cfg, turns[..|turns| - 1]);
      TakeKeeps(cfg, Turns(cfg, turns[..|turns| - 1]), turns[|turns| - 1]);
    }
  }

  lemma TakeKeeps(cfg: Config, w: Wide, t: Turn)
    requires WideOk(cfg, w)
    ensures WideOk(cfg, Take(cfg, w, t))
  {
    hide OrderOk, OwedOk, QueuesOk, Step, InvAt, Put, Owes;
    match t
    case Lock(a) => if Free(w, a) { LockStep(cfg, w, a); }
    case Send(c, m) => SendStep(cfg, w, c, m);
    case Repeat(c) => RepeatStep(cfg, w, c);
  }
}
