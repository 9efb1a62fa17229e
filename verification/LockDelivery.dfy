// How often a member is sent a stored message, under every interleaving.
module LockDelivery {
  import opened Text
  import opened LockSections

  // ---- How many copies

  predicate ReplayedIn(v: Visit, i: nat) {
    v.replay.Read? && v.replay.lo <= i < v.replay.hi
  }

  // Among the recipients of a look-up made during the visit. The client may have been
  // found during an earlier visit of the same room; that copy belongs to the earlier visit.
  predicate SentIn(p: Post, v: Visit, c: nat) {
    p.lookUp.Some? && v.joined < p.lookUp.value.at && c in p.lookUp.value.to
  }

  // The copies of message i that c gets in its present visit.
  function Copies(p: Post, v: Visit, c: nat, i: nat): nat {
    (if ReplayedIn(v, i) then 1 else 0) + (if SentIn(p, v, c) then 1 else 0)
  }

  // Exactly once, or exactly twice. In any interleaving, once the client has read the history and
  // the poster has looked up the recipients: a message within the limit comes twice if it was
  // appended before the history was read and the client had joined before the look-up, and
  // exactly once otherwise. A message beyond the limit comes once if the client had joined before
  // the look-up, and not at all otherwise.
  lemma DeliveredCount(cfg: Config, actions: seq<Action>, r: nat, c: nat, i: nat)
    requires var s := Run(cfg, actions);
      && r < |s.rooms| && c in s.rooms[r].members && i < |s.rooms[r].log| && s.rooms[r].log[i].lookUp.Some?
      && (c in s.threads && r in s.threads[c].visits ==> s.threads[c].visits[r].replay.Read?)
    ensures var s := Run(cfg, actions);
      && c in s.threads && r in s.threads[c].visits
      && var p, v := s.rooms[r].log[i], s.threads[c].visits[r];
         var appendedFirst, joinedFirst := p.appended < v.replay.at, v.joined < p.lookUp.value.at;
         if v.replay.lo <= i then Copies(p, v, c, i) == if appendedFirst && joinedFirst then 2 else 1
         else appendedFirst && Copies(p, v, c, i) == if joinedFirst then 1 else 0
  {
    var s := Run(cfg, actions);
    hide Run, Wf, Safe, PcOk, PostersOk;
    assert Member(s, r, c) <==> Visiting(s, r, c);
    assert VisitOk(cfg, s.rooms[r].log, s.threads[c].visits[r], c, s.clock);
    assert PostOk(s.rooms[r].log[i], s.clock) && Found(s.rooms[r].log[i], s.threads[c].visits[r], c);
  }

  // What is replayed is the end of what the log held when it was read, as much of it as the limit allows.
  lemma ReplayIsTheTail(cfg: Config, actions: seq<Action>, r: nat, c: nat)
    requires Visiting(Run(cfg, actions), r, c) && Run(cfg, actions).threads[c].visits[r].replay.Read?
    ensures var s := Run(cfg, actions); var v := s.threads[c].visits[r].replay;
      && r < |s.rooms| && v.lo <= v.hi <= |s.rooms[r].log|
      && v.hi - v.lo == (if v.hi <= cfg.limit then v.hi else cfg.limit)
      && forall i: nat :: i < |s.rooms[r].log| ==> (i < v.hi <==> s.rooms[r].log[i].appended < v.at)
  {
    var s := Run(cfg, actions);
    hide Run, Wf, Places, PostsOk, PostersOk, Found;
    assert VisitOk(cfg, s.rooms[r].log, s.threads[c].visits[r], c, s.clock);
  }

  // The stamps are what they say: the numbers of the steps that joined, read, appended and looked up.
  predicate PostStamped(p: Post, actions: seq<Action>) {
    && p.appended < |actions| && actions[p.appended] == Append(p.from)
    && (p.lookUp.Some? ==> p.lookUp.value.at < |actions| && actions[p.lookUp.value.at] == Snapshot(p.from))
  }

  predicate VisitStamped(v: Visit, x: nat, key: string, actions: seq<Action>) {
    && v.joined < |actions| && actions[v.joined] == Move(x, key)
    && (v.replay.Read? ==> v.replay.at < |actions| && actions[v.replay.at] == Replayed(x))
  }

  ghost predicate PostsStamped(s: State, actions: seq<Action>) {
    && (forall r: nat, i: nat :: r < |s.rooms| && i < |s.rooms[r].log| ==> PostStamped(s.rooms[r].log[i], actions))
    && (forall x: nat, r: nat, i: nat :: Posting(s, x, r, i) ==>
          && r < |s.rooms| && i < |s.rooms[r].log| && s.rooms[r].log[i].appended < |actions|
          && actions[s.rooms[r].log[i].appended] == Append(x))
  }

  ghost predicate VisitsStamped(s: State, actions: seq<Action>) {
    forall r: nat, x: nat :: Visiting(s, r, x) ==>
      r < |s.rooms| && VisitStamped(s.threads[x].visits[r], x, s.rooms[r].key, actions)
  }

  lemma {:induction false} StampsRun(cfg: Config, actions: seq<Action>)
    ensures PostsStamped(Run(cfg, actions), actions) && VisitsStamped(Run(cfg, actions), actions)
  {
    if actions != [] {
      hide PostsStamped, VisitsStamped, Inv;
      var before, a := actions[..|actions| - 1], actions[|actions| - 1];
      StampsRun(cfg, before);
      PostStampsStep(cfg, Run(cfg, before), a, before);
      VisitStampsStep(cfg, Run(cfg, before), a, before);
      assert before + [a] == actions;
    }
  }

  lemma PostStampedLater(p: Post, actions: seq<Action>, a: Action)
    requires PostStamped(p, actions)
    ensures PostStamped(p, actions + [a])
  {}

  lemma VisitStampedLater(v: Visit, x: nat, key: string, actions: seq<Action>, a: Action)
    requires VisitStamped(v, x, key, actions)
    ensures VisitStamped(v, x, key, actions + [a])
  {}

  // Nothing is stored or looked up, and nobody comes to stand before a look-up.
  ghost predicate LogsAsTheyWere(s: State, t: State) {
    SameLogs(s, t) && forall x: nat, r: nat, i: nat :: Posting(t, x, r, i) ==> Posting(s, x, r, i)
  }

  lemma MoveKeepsLogs(s: State, c: nat, key: string)
    requires Wf(s) && Places(s) && c in s.threads && key != ""
    ensures LogsAsTheyWere(s, MoveSection(s, c, key))
  {
    hide MoveSection, Carried, Places, PcOk;
    MovePlaces(s, c, key);
    CarriedLogs(s, MoveSection(s, c, key));
  }

  lemma RemoveKeepsLogs(cfg: Config, s: State, c: nat)
    requires Wf(s) && Places(s) && c in s.threads
    ensures LogsAsTheyWere(s, RemoveSection(cfg, s, c))
  {
    hide RemoveSection, Carried, Places, PcOk;
    RemovePlaces(cfg, s, c);
    CarriedLogs(s, RemoveSection(cfg, s, c));
  }

  // Only Append and Snapshot write logs.
  lemma OthersKeepLogs(cfg: Config, s: State, a: Action)
    requires Inv(cfg, s) && !a.Append? && !a.Snapshot?
    ensures SameLogs(s, Step(cfg, s, a))
    ensures forall x: nat, r: nat, i: nat :: Posting(Step(cfg, s, a), x, r, i) ==> Posting(s, x, r, i)
  {
    hide VisitsOk, Safe, HeardOk, PostersOk, PostsOk, PcOk, MoveSection, RemoveSection;
    if a.Move? && a.c in s.threads && a.key != "" {
      MoveKeepsLogs(s, a.c, a.key);
    } else if a.Remove? && a.c in s.threads {
      RemoveKeepsLogs(cfg, s, a.c);
    }
  }

  lemma PostStampsStep(cfg: Config, s: State, a: Action, actions: seq<Action>)
    requires Inv(cfg, s) && PostsStamped(s, actions) && s.clock == |actions|
    ensures PostsStamped(Step(cfg, s, a), actions + [a])
  {
    if a.Append? && a.c in s.threads && s.threads[a.c].pc.Speaking? {
      AppendStamps(cfg, s, a.c, actions);
    } else if a.Snapshot? && a.c in s.threads && s.threads[a.c].pc.Posted? {
      SnapshotStamps(cfg, s, a.c, actions);
    } else {
      var t := Step(cfg, s, a);
      if a.Append? || a.Snapshot? { assert t == s.(clock := s.clock + 1); } else { OthersKeepLogs(cfg, s, a); }
      hide Step, Inv, PostStamped;
      forall r: nat, i: nat | r < |t.rooms| && i < |t.rooms[r].log|
        ensures PostStamped(t.rooms[r].log[i], actions + [a])
      {
        PostStampedLater(s.rooms[r].log[i], actions, a);
      }
      forall x: nat, r: nat, i: nat | Posting(t, x, r, i)
        ensures r < |t.rooms| && i < |t.rooms[r].log| && t.rooms[r].log[i].appended < |actions|
        ensures (actions + [a])[t.rooms[r].log[i].appended] == Append(x)
      {
        assert Posting(s, x, r, i);
      }
    }
  }

  lemma AppendStamps(cfg: Config, s: State, c: nat, actions: seq<Action>)
    requires Inv(cfg, s) && PostsStamped(s, actions) && s.clock == |actions|
    requires c in s.threads && s.threads[c].pc.Speaking?
    ensures PostsStamped(Step(cfg, s, Append(c)), actions + [Append(c)])
  {
    assert PcOk(s, s.threads[c].pc);
    hide VisitsOk, Safe, HeardOk, PostersOk, PostsOk, PcOk;
    var t := Step(cfg, s, Append(c));
    forall r: nat, i: nat | r < |t.rooms| && i < |t.rooms[r].log|
      ensures PostStamped(t.rooms[r].log[i], actions + [Append(c)])
    {
      if i < |s.rooms[r].log| { PostStampedLater(s.rooms[r].log[i], actions, Append(c)); }
    }
    forall x: nat, r: nat, i: nat | Posting(t, x, r, i)
      ensures r < |t.rooms| && i < |t.rooms[r].log| && t.rooms[r].log[i].appended < |actions + [Append(c)]|
      ensures (actions + [Append(c)])[t.rooms[r].log[i].appended] == Append(x)
    {
      if x != c { assert Posting(s, x, r, i); }
    }
  }

  lemma SnapshotStamps(cfg: Config, s: State, c: nat, actions: seq<Action>)
    requires Inv(cfg, s) && PostsStamped(s, actions) && s.clock == |actions|
    requires c in s.threads && s.threads[c].pc.Posted?
    ensures PostsStamped(Step(cfg, s, Snapshot(c)), actions + [Snapshot(c)])
  {
    assert PcOk(s, s.threads[c].pc);
    var r0, i0 := s.threads[c].pc.room, s.threads[c].pc.index;
    assert Posting(s, c, r0, i0);
    hide VisitsOk, Safe, HeardOk, PostersOk, PostsOk, PcOk;
    var t := Step(cfg, s, Snapshot(c));
    forall r: nat, i: nat | r < |t.rooms| && i < |t.rooms[r].log|
      ensures PostStamped(t.rooms[r].log[i], actions + [Snapshot(c)])
    {
      assert PostStamped(s.rooms[r].log[i], actions);
      if r != r0 || i != i0 { PostStampedLater(s.rooms[r].log[i], actions, Snapshot(c)); }
    }
    forall x: nat, r: nat, i: nat | Posting(t, x, r, i)
      ensures r < |t.rooms| && i < |t.rooms[r].log| && t.rooms[r].log[i].appended < |actions|
      ensures (actions + [Snapshot(c)])[t.rooms[r].log[i].appended] == Append(x)
    {
      assert Posting(s, x, r, i);
    }
  }

  // What a step does to the visits: it carries them over, ends them, begins one or fills in a replay.
  lemma VisitChange(cfg: Config, s: State, a: Action, r: nat, x: nat)
    requires Inv(cfg, s) && Visiting(Step(cfg, s, a), r, x)
    ensures var t := Step(cfg, s, a); var v := t.threads[x].visits[r];
      || (Visiting(s, r, x) && v == s.threads[x].visits[r])
      || (a.Move? && x == a.c && r < |t.rooms| && t.rooms[r].key == a.key && v == Visit(s.clock, Pending))
      || (a == Replayed(x) && Visiting(s, r, x) && v.joined == s.threads[x].visits[r].joined
          && v.replay.Read? && v.replay.at == s.clock)
  {
    hide VisitsOk, Safe, HeardOk, PostersOk, PostsOk, PcOk;
    if a.Move? && a.c in s.threads && MayMove(cfg, s.threads[a.c].pc, a.key) {
      MoveVisits(s, a.c, a.key, r, x);
      hide MoveSection;
    }
  }

  lemma MoveVisits(s: State, c: nat, key: string, r: nat, x: nat)
    requires Indexed(s) && c in s.threads && Visiting(MoveSection(s, c, key), r, x)
    ensures var t := MoveSection(s, c, key); var v := t.threads[x].visits[r];
      || (Visiting(s, r, x) && v == s.threads[x].visits[r])
      || (x == c && r < |t.rooms| && t.rooms[r].key == key && v == Visit(s.clock, Pending))
  {
    var s1 := OpenRoom(s, key);
    assert s1.registered[key] < |s1.rooms| && s1.rooms[s1.registered[key]].key == key;
    if s.threads[c].cached != key {
      var s2 := LeaveCurrent(s1, c);
      assert s2.rooms[s2.registered[key]].key == key;
      assert Visiting(s2, r, x) ==> Visiting(s, r, x) && s2.threads[x].visits[r] == s.threads[x].visits[r];
      hide OpenRoom, LeaveCurrent, Current;
    }
  }

  lemma KeysStay(cfg: Config, s: State, a: Action)
    requires Inv(cfg, s)
    ensures var t := Step(cfg, s, a);
      |s.rooms| <= |t.rooms| && forall r :: 0 <= r < |s.rooms| ==> t.rooms[r].key == s.rooms[r].key
  {
    if a.Append? || a.Snapshot? {
      assert a.c in s.threads ==> PcOk(s, s.threads[a.c].pc);
      hide VisitsOk, Safe, HeardOk, PostersOk, PostsOk;
    } else {
      OthersKeepLogs(cfg, s, a);
      hide Step, Inv;
    }
  }

  lemma VisitStampsStep(cfg: Config, s: State, a: Action, actions: seq<Action>)
    requires Inv(cfg, s) && VisitsStamped(s, actions) && s.clock == |actions|
    ensures VisitsStamped(Step(cfg, s, a), actions + [a])
  {
    var t := Step(cfg, s, a);
    KeysStay(cfg, s, a);
    hide Step, Inv;
    forall r: nat, x: nat | Visiting(t, r, x)
      ensures r < |t.rooms| && VisitStamped(t.threads[x].visits[r], x, t.rooms[r].key, actions + [a])
    {
      VisitChange(cfg, s, a, r, x);
      if Visiting(s, r, x) {
        VisitStampedLater(s.threads[x].visits[r], x, s.rooms[r].key, actions, a);
      }
    }
  }

  // ---- A run that delivers twice

  // Client 0 enters and stores a message; client 1 enters and reads the history; only then does
  // client 0 look up the recipients.
  function ReadBetween(home: string): seq<Action> {
    Entry(0, home) + [Find(0)] + [Append(0)] + Entry(1, home) + [Snapshot(0)]
  }

  // Client 0 stores a message in room 0, where it sits.
  lemma Stores(cfg: Config, before: seq<Action>, home: string)
    requires var s := Run(cfg, before);
      && home in s.registered && s.registered[home] == 0 && |s.rooms| == 1 && s.rooms[0].log == []
      && 0 in s.threads && s.threads[0].pc == Ready && s.threads[0].cached == home != ""
    ensures var s, t := Run(cfg, before), Run(cfg, before + [Find(0)] + [Append(0)]);
      && t.registered == s.registered && |t.rooms| == 1
      && t.rooms[0] == s.rooms[0].(log := [Post(0, s.clock + 1, None)])
      && t.threads.Keys == s.threads.Keys && t.threads[0].pc == Posted(0, 0) && t.clock == s.clock + 2
  {
    RunStep(cfg, before, Find(0));
    RunStep(cfg, before + [Find(0)], Append(0));
    var s := Run(cfg, before);
    hide Run, Inv;
    FindsAndAppends(cfg, s, home, Run(cfg, before + [Find(0)]));
  }

  lemma FindsAndAppends(cfg: Config, s: State, home: string, m: State)
    requires Wf(s) && Wf(m)
      && home in s.registered && s.registered[home] == 0 && |s.rooms| == 1 && s.rooms[0].log == []
      && 0 in s.threads && s.threads[0].pc == Ready && s.threads[0].cached == home != ""
    requires m == Step(cfg, s, Find(0))
    ensures var t := Step(cfg, m, Append(0));
      && t.registered == s.registered && |t.rooms| == 1
      && t.rooms[0] == s.rooms[0].(log := [Post(0, s.clock + 1, None)])
      && t.threads.Keys == s.threads.Keys && t.threads[0].pc == Posted(0, 0) && t.clock == s.clock + 2
  {
    hide PcOk;
  }

  lemma LooksUp(cfg: Config, s: State)
    requires Wf(s) && |s.rooms| == 1 && |s.rooms[0].log| == 1 && 0 in s.threads && s.threads[0].pc == Posted(0, 0)
    ensures var t := Step(cfg, s, Snapshot(0));
      && |t.rooms| == 1 && t.rooms[0].members == s.rooms[0].members
      && t.rooms[0].log == [s.rooms[0].log[0].(lookUp := Some(LookUp(s.clock, s.rooms[0].members)))]
      && t.threads.Keys == s.threads.Keys && (forall x :: x in s.threads && x != 0 ==> t.threads[x] == s.threads[x])
  {
    hide PcOk;
  }

  lemma RunNothing(cfg: Config)
    ensures Run(cfg, []) == Initial
  {
    hide Inv;
  }

  // Client 0 sits alone in room 0, with its one message not yet sent.
  ghost predicate HasPosted(s: State, home: string) {
    && s.clock == 6 && s.registered == map[home := 0]
    && |s.rooms| == 1 && s.rooms[0] == Room(home, {0}, [Post(0, 5, None)])
    && s.threads.Keys == {0} && s.threads[0].pc == Posted(0, 0)
  }

  lemma PostsFirst(cfg: Config, home: string)
    requires Home(cfg, home)
    ensures HasPosted(Run(cfg, Entry(0, home) + [Find(0)] + [Append(0)]), home)
  {
    hide Run, Step, InvAt, Entry;
    RunNothing(cfg);
    Enters(cfg, [], 0, home);
    assert [] + Entry(0, home) == Entry(0, home);
    Stores(cfg, Entry(0, home), home);
  }

  // Client 1 sits there too, was replayed the message, and client 0 is about to look up the recipients.
  ghost predicate HasRead(cfg: Config, s: State, home: string) {
    && s.clock == 10 && |s.rooms| == 1 && s.rooms[0] == Room(home, {0, 1}, [Post(0, 5, None)])
    && s.threads.Keys == {0, 1} && s.threads[0].pc == Posted(0, 0)
    && 0 in s.threads[1].visits && s.threads[1].visits[0] == Visit(7, Read(8, Kept(cfg, 1), 1))
  }

  lemma ReadsNext(cfg: Config, home: string)
    requires Home(cfg, home)
    ensures HasRead(cfg, Run(cfg, Entry(0, home) + [Find(0)] + [Append(0)] + Entry(1, home)), home)
  {
    hide Run, Step, InvAt, Entry;
    PostsFirst(cfg, home);
    Enters(cfg, Entry(0, home) + [Find(0)] + [Append(0)], 1, home);
  }

  lemma SendsLast(cfg: Config, s: State, home: string)
    requires Wf(s) && HasRead(cfg, s, home) && cfg.limit > 0
    ensures var t := Step(cfg, s, Snapshot(0));
      && |t.rooms| == 1 && |t.rooms[0].log| == 1 && 1 in t.rooms[0].members
      && 1 in t.threads && 0 in t.threads[1].visits
      && Copies(t.rooms[0].log[0], t.threads[1].visits[0], 1, 0) == 2
  {
    LooksUp(cfg, s);
    hide Step, Wf;
  }

  // From the start, for every configuration: the message is replayed to client 1 and sent to it live.
  lemma ReplayedAndSent(cfg: Config, home: string)
    requires Home(cfg, home) && cfg.limit > 0
    ensures var s := Run(cfg, ReadBetween(home));
      && |s.rooms| == 1 && |s.rooms[0].log| == 1 && 1 in s.rooms[0].members
      && 1 in s.threads && 0 in s.threads[1].visits
      && Copies(s.rooms[0].log[0], s.threads[1].visits[0], 1, 0) == 2
  {
    hide Run, Step, HasRead, Entry, Copies, Places, PostsOk, HeardOk, PostersOk;
    var before := Entry(0, home) + [Find(0)] + [Append(0)] + Entry(1, home);
    ReadsNext(cfg, home);
    RunStep(cfg, before, Snapshot(0));
    SendsLast(cfg, Run(cfg, before), home);
  }
}
