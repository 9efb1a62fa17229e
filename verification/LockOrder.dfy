// Who stores what when, under every interleaving: lines of one client are stored and looked up in turn.
module LockOrder {
  import opened Text
  import opened LockSections
  import Delivery = LockDelivery

  // Lines are stored one after the other, and a client looks up who gets its line before it stores the next.
  ghost predicate InTurn(log: seq<Post>) {
    forall i, j :: 0 <= i < j < |log| ==>
      && log[i].appended < log[j].appended
      && (log[i].from == log[j].from ==> log[i].lookUp.Some? && log[i].lookUp.value.at < log[j].appended)
  }

  predicate Stored(s: State, r: nat, i: nat) {
    r < |s.rooms| && i < |s.rooms[r].log|
  }

  function PostAt(s: State, r: nat, i: nat): Post
    requires Stored(s, r, i)
  {
    s.rooms[r].log[i]
  }

  // Who posted a line that is not looked up yet stands before the look-up.
  ghost predicate Waiting(s: State) {
    forall r: nat, i: nat :: Stored(s, r, i) && PostAt(s, r, i).lookUp.None? ==> Posting(s, PostAt(s, r, i).from, r, i)
  }

  ghost predicate OrderOk(s: State) {
    (forall r :: 0 <= r < |s.rooms| ==> InTurn(s.rooms[r].log)) && Waiting(s)
  }

  // Who stands before a look-up goes nowhere but through it.
  lemma PostersWait(cfg: Config, s: State, a: Action, x: nat, r: nat, i: nat)
    requires Inv(cfg, s) && Posting(s, x, r, i) && (a.Snapshot? ==> a.c != x)
    ensures Posting(Step(cfg, s, a), x, r, i)
  {
    assert a.c in s.threads ==> PcOk(s, s.threads[a.c].pc);
    hide VisitsOk, Safe, HeardOk, PostersOk, PostsOk, PcOk;
    if a.Move? && a.c in s.threads && MayMove(cfg, s.threads[a.c].pc, a.key) {
      MoveKeepsPcs(s, a.c, a.key, x);
      hide MoveSection;
    }
  }

  lemma MoveKeepsPcs(s: State, c: nat, key: string, x: nat)
    requires Indexed(s) && c in s.threads && x in s.threads && x != c
    ensures x in MoveSection(s, c, key).threads && MoveSection(s, c, key).threads[x].pc == s.threads[x].pc
  {}

  // The look-up of a line that waits for it.
  predicate Finds(s: State, a: Action, r: nat, i: nat) {
    a.Snapshot? && Posting(s, a.c, r, i)
  }

  // What one section does to the stored lines: an append adds one, a look-up fills one in.
  ghost predicate LinesStep(s: State, a: Action, t: State) {
    && (forall r: nat, i: nat :: Stored(s, r, i) ==>
          && Stored(t, r, i)
          && PostAt(t, r, i) == if Finds(s, a, r, i)
                              then PostAt(s, r, i).(lookUp := Some(LookUp(s.clock, s.rooms[r].members)))
                              else PostAt(s, r, i))
    && (forall r: nat, i: nat :: Stored(t, r, i) && !Stored(s, r, i) ==>
          && a.Append? && a.c in s.threads && s.threads[a.c].pc == Speaking(r) && Posting(t, a.c, r, i)
          && r < |s.rooms| && i == |s.rooms[r].log| && PostAt(t, r, i) == Post(a.c, s.clock, None))
  }

  lemma AppendLines(cfg: Config, s: State, c: nat)
    requires Inv(cfg, s)
    ensures LinesStep(s, Append(c), Step(cfg, s, Append(c)))
  {
    hide VisitsOk, Safe, HeardOk, PostersOk, PostsOk, PcOk;
    if c in s.threads && s.threads[c].pc.Speaking? { Placed(s, c); }
  }

  lemma LookUpLines(cfg: Config, s: State, c: nat)
    requires Inv(cfg, s)
    ensures LinesStep(s, Snapshot(c), Step(cfg, s, Snapshot(c)))
  {
    hide VisitsOk, Safe, HeardOk, PostersOk, PostsOk, PcOk;
    if c in s.threads && s.threads[c].pc.Posted? { Placed(s, c); }
  }

  // Where a read loop stands is a place.
  lemma Placed(s: State, c: nat)
    requires Wf(s) && c in s.threads
    ensures s.threads[c].pc.Speaking? ==> s.threads[c].pc.room < |s.rooms|
    ensures s.threads[c].pc.Posted? ==> Stored(s, s.threads[c].pc.room, s.threads[c].pc.index)
    ensures s.threads[c].pc.Moved? ==> s.threads[c].pc.room < |s.rooms|
  {
    assert PcOk(s, s.threads[c].pc);
  }

  lemma SectionLines(cfg: Config, s: State, a: Action)
    requires Inv(cfg, s)
    ensures LinesStep(s, a, Step(cfg, s, a))
  {
    if a.Append? {
      hide Step, Inv, LinesStep;
      AppendLines(cfg, s, a.c);
    } else if a.Snapshot? {
      hide Step, Inv, LinesStep;
      LookUpLines(cfg, s, a.c);
    } else {
      hide Step, Inv;
      Delivery.OthersKeepLogs(cfg, s, a);
    }
  }

  lemma OrderStep(cfg: Config, s: State, a: Action)
    requires Inv(cfg, s) && OrderOk(s)
    ensures OrderOk(Step(cfg, s, a))
  {
    hide Step, VisitsOk, Safe, HeardOk, PostersOk, PostOk, PcOk, Posting, InTurn, Finds;
    SectionLines(cfg, s, a);
    var t := Step(cfg, s, a);
    forall r | 0 <= r < |t.rooms| ensures InTurn(t.rooms[r].log) { InTurnStep(s, a, t, r); }
    forall r: nat, i: nat | Stored(t, r, i) && PostAt(t, r, i).lookUp.None?
      ensures Posting(t, PostAt(t, r, i).from, r, i)
    {
      if Stored(s, r, i) {
        assert !Finds(s, a, r, i);
        WaitsOn(cfg, s, a, r, i);
      }
    }
  }

  lemma WaitsOn(cfg: Config, s: State, a: Action, r: nat, i: nat)
    requires Inv(cfg, s) && Waiting(s) && Stored(s, r, i) && PostAt(s, r, i).lookUp.None? && !Finds(s, a, r, i)
    ensures Posting(Step(cfg, s, a), PostAt(s, r, i).from, r, i)
  {
    hide Step, Inv;
    PostersWait(cfg, s, a, PostAt(s, r, i).from, r, i);
  }

  lemma PairStep(s: State, a: Action, t: State, r: nat, i: nat, j: nat)
    requires OrderOk(s) && PostsOk(s, s.clock) && PostersOk(s) && LinesStep(s, a, t)
    requires i < j && Stored(t, r, j) && Stored(t, r, i)
    ensures var p, q := PostAt(t, r, i), PostAt(t, r, j);
      p.appended < q.appended && (p.from == q.from ==> p.lookUp.Some? && p.lookUp.value.at < q.appended)
  {
    if Stored(s, r, j) {
      var p, q := PostAt(s, r, i), PostAt(s, r, j);
      assert InTurn(s.rooms[r].log);
      assert p.appended < q.appended && (p.from == q.from ==> p.lookUp.Some? && p.lookUp.value.at < q.appended);
    } else {
      assert Stored(s, r, i) && PostOk(PostAt(s, r, i), s.clock);
      if PostAt(s, r, i).lookUp.None? { assert Posting(s, PostAt(s, r, i).from, r, i); }
    }
  }

  lemma InTurnStep(s: State, a: Action, t: State, r: nat)
    requires OrderOk(s) && PostsOk(s, s.clock) && PostersOk(s) && LinesStep(s, a, t)
    requires r < |t.rooms|
    ensures InTurn(t.rooms[r].log)
  {
    hide OrderOk, PostsOk, PostersOk, LinesStep;
    var log := t.rooms[r].log;
    forall i, j | 0 <= i < j < |log|
      ensures log[i].appended < log[j].appended
      ensures log[i].from == log[j].from ==> log[i].lookUp.Some? && log[i].lookUp.value.at < log[j].appended
    {
      PairStep(s, a, t, r, i, j);
    }
  }

  // In any interleaving the log of every room is in turn.
  lemma {:induction false} OrderRun(cfg: Config, actions: seq<Action>)
    ensures OrderOk(Run(cfg, actions))
  {
    if actions != [] {
      hide OrderOk, Inv, Step;
      var before, a := actions[..|actions| - 1], actions[|actions| - 1];
      OrderRun(cfg, before);
      OrderStep(cfg, Run(cfg, before), a);
    }
  }
}
