// The lock sections of one client at a time, nobody in between: what each operation does to the rooms that
// keys name and to who sits in them.
module LockAlone {
  import opened Text
  import opened LockSections
  import Schedule = LockSchedule

  function MembersOf(s: State, k: string): set<nat>
    requires Wf(s)
  {
    if k in s.registered then assert Indexed(s); s.rooms[s.registered[k]].members else {}
  }

  function LengthOf(s: State, k: string): nat
    requires Wf(s)
  {
    if k in s.registered then assert Indexed(s); |s.rooms[s.registered[k]].log| else 0
  }

  // Only c stands elsewhere than before, and it is ready for its next input.
  ghost predicate Serves(s: State, t: State, c: nat) {
    && c in s.threads && c in t.threads && t.threads == s.threads[c := t.threads[c]]
    && s.threads[c].pc == Ready && t.threads[c].pc == Ready
  }

  // Without c the room its key names is empty, and the configuration does not spare it.
  predicate Empties(cfg: Config, s: State, c: nat, k: string)
    requires Wf(s) && c in s.threads
  {
    k != "" && k == s.threads[c].cached && k in s.registered && MembersOf(s, k) - {c} == {} && !cfg.Spares(k)
  }

  lemma OnlyIn(cfg: Config, s: State, c: nat, k: string)
    requires Inv(cfg, s) && k in s.registered && c in MembersOf(s, k)
    ensures c in s.threads && s.threads[c].cached == k != ""
  {
    assert Listed(s, k, c);
    hide VisitsOk, HeardOk, PostersOk, PostsOk, PcOk;
  }

  // ---- Taking a seat

  function SeatSteps(c: nat, key: string): seq<Action> {
    [Move(c, key)] + [Replayed(c)] + [CheckCleanup(c)] + [Cleanup(c)]
  }

  // After the move and before the cleanup is considered.
  ghost predicate Shifted(s: State, t: State, c: nat, key: string)
    requires Wf(s) && Wf(t) && c in s.threads
  {
    && t.registered.Keys == s.registered.Keys + {key}
    && (forall k :: k in t.registered ==>
          && MembersOf(t, k) == (MembersOf(s, k) - {c}) + (if k == key then {c} else {})
          && LengthOf(t, k) == LengthOf(s, k))
    && (forall k :: k in s.registered ==> t.registered[k] == s.registered[k])
  }

  // The rooms after a move, by index.
  ghost predicate RoomsMoved(s: State, t: State, c: nat, key: string)
    requires c in s.threads
  {
    var r, from := Goal(s, key), Current(s, c);
    && t.registered == s.registered[key := r] && r < |t.rooms| && |s.rooms| <= |t.rooms|
    && t.rooms[r] == Room(key, MembersAt(s, r) + {c}, LogAt(s, r)) && from != Some(r)
    && (forall q :: 0 <= q < |s.rooms| && q != r && Some(q) != from ==> t.rooms[q] == s.rooms[q])
    && (from.Some? ==>
         from.value < |s.rooms| &&
         t.rooms[from.value] == s.rooms[from.value].(members := s.rooms[from.value].members - {c}))
  }

  lemma ShiftsBy(cfg: Config, s: State, c: nat, key: string)
    requires Inv(cfg, s) && c in s.threads && s.threads[c].pc == Ready && key != "" && s.threads[c].cached != key
    ensures var t := Step(cfg, s, Move(c, key)); Wf(t) && Shifted(s, t, c, key)
  {
    hide Step, Wf, Places, PostsOk, HeardOk, PostersOk, MembersOf, LengthOf;
    StepInv(cfg, s, Move(c, key));
    Moves(cfg, s, c, key);
    var t := Step(cfg, s, Move(c, key));
    assert RoomsMoved(s, t, c, key);
    GoalIs(s, key);
    forall k | k in t.registered
      ensures MembersOf(t, k) == (MembersOf(s, k) - {c}) + (if k == key then {c} else {})
      ensures LengthOf(t, k) == LengthOf(s, k)
    {
      if k in s.registered && c in MembersOf(s, k) { OnlyIn(cfg, s, c, k); }
      ShiftedAt(s, t, c, key, k);
    }
  }

  lemma GoalIs(s: State, key: string)
    ensures key in s.registered ==> Goal(s, key) == s.registered[key]
  {}

  lemma ShiftedAt(s: State, t: State, c: nat, key: string, k: string)
    requires Wf(s) && Wf(t) && c in s.threads && RoomsMoved(s, t, c, key) && k in t.registered
    requires s.threads[c].cached != key
    requires k in s.registered && c in MembersOf(s, k) ==> s.threads[c].cached == k != ""
    ensures MembersOf(t, k) == (MembersOf(s, k) - {c}) + (if k == key then {c} else {})
    ensures LengthOf(t, k) == LengthOf(s, k)
  {
    hide PcOk;
    if k != key {
      OneEach(s, k, key);
      if s.threads[c].cached != k { assert MembersOf(s, k) - {c} == MembersOf(s, k); }
    }
  }

  // Different keys name different rooms.
  lemma OneEach(s: State, k: string, key: string)
    requires Wf(s) && k in s.registered && k != key
    ensures s.registered[k] < |s.rooms| && s.registered[k] != Goal(s, key)
    ensures forall j :: j in s.registered && j != k ==> s.registered[j] != s.registered[k]
  {}

  // c sits in the room under key and nowhere else; the room it left is gone if that emptied it.
  ghost predicate Resits(cfg: Config, s: State, t: State, c: nat, key: string)
    requires Wf(s) && Wf(t)
  {
    && Serves(s, t, c) && t.threads[c].cached == key && t.threads[c].removed == s.threads[c].removed
    && (forall k :: k in t.registered <==> k == key || (k in s.registered && !Empties(cfg, s, c, k)))
    && forall k :: k in t.registered ==>
         && MembersOf(t, k) == (MembersOf(s, k) - {c}) + (if k == key then {c} else {})
         && LengthOf(t, k) == LengthOf(s, k)
  }

  // Whether the cleanup that follows deletes the room left.
  lemma LeftBehind(cfg: Config, s: State, t: State, c: nat, key: string)
    requires Wf(s) && Wf(t) && c in s.threads && Shifted(s, t, c, key) && s.threads[c].cached != key
    ensures var from := Current(s, c);
      && (from.Some? ==>
           && from.value < |t.rooms| && t.rooms[from.value].key == s.threads[c].cached
           && t.rooms[from.value].members == MembersOf(s, s.threads[c].cached) - {c})
      && forall k :: Empties(cfg, s, c, k) <==>
           k == s.threads[c].cached && from.Some? && !cfg.Spares(k) && t.rooms[from.value].members == {}
  {
    hide PcOk;
    var k := s.threads[c].cached;
    if k != "" && k in s.registered {
      assert t.registered[k] == s.registered[k] && MembersOf(t, k) == MembersOf(s, k) - {c} + {};
    }
  }

  // From the move to the next input: the history is read and the room left is looked at.
  lemma Settles(cfg: Config, before: seq<Action>, c: nat)
    requires var s := Run(cfg, before); c in s.threads && s.threads[c].pc.Moved?
    ensures var s, t := Run(cfg, before), Run(cfg, before + [Replayed(c)] + [CheckCleanup(c)] + [Cleanup(c)]);
      var p := s.threads[c].pc.previous;
      && t.rooms == s.rooms && t.threads.Keys == s.threads.Keys
      && (forall x :: x in s.threads && x != c ==> t.threads[x] == s.threads[x])
      && t.threads[c].pc == Ready && t.threads[c].cached == s.threads[c].cached
      && t.threads[c].removed == s.threads[c].removed && (p.Some? ==> p.value < |s.rooms|)
      && t.registered == if p.Some? && !cfg.Spares(s.rooms[p.value].key) && s.rooms[p.value].members == {}
                         then s.registered - {s.rooms[p.value].key} else s.registered
  {
    hide Run, Step, Wf, Places, PostsOk, HeardOk, PostersOk;
    RunStep(cfg, before, Replayed(c));
    Reads(cfg, Run(cfg, before), c);
    var a2 := before + [Replayed(c)];
    RunStep(cfg, a2, CheckCleanup(c));
    Checks(cfg, Run(cfg, a2), c);
    var a3 := a2 + [CheckCleanup(c)];
    RunStep(cfg, a3, Cleanup(c));
    Schedule.Cleans(cfg, Run(cfg, a3), c);
  }

  lemma TakesSeat(cfg: Config, before: seq<Action>, c: nat, key: string)
    requires var s := Run(cfg, before);
      c in s.threads && s.threads[c].pc == Ready && key != "" && s.threads[c].cached != key
    ensures Resits(cfg, Run(cfg, before), Run(cfg, before + SeatSteps(c, key)), c, key)
  {
    hide Run, Step, Wf, Places, PostsOk, HeardOk, PostersOk, MembersOf, LengthOf, Empties, Shifted, Current, Resits;
    var s, a1 := Run(cfg, before), before + [Move(c, key)];
    RunStep(cfg, before, Move(c, key));
    ShiftsBy(cfg, s, c, key);
    Moves(cfg, s, c, key);
    var m1 := Run(cfg, a1);
    Settles(cfg, a1, c);
    assert before + SeatSteps(c, key) == a1 + [Replayed(c)] + [CheckCleanup(c)] + [Cleanup(c)];
    ResitsBy(cfg, s, m1, Run(cfg, before + SeatSteps(c, key)), c, key);
  }

  lemma ResitsBy(cfg: Config, s: State, m: State, t: State, c: nat, key: string)
    requires Wf(s) && Wf(m) && Wf(t) && c in s.threads && Shifted(s, m, c, key) && s.threads[c].cached != key
    requires s.threads[c].pc == Ready && t.rooms == m.rooms && t.threads.Keys == s.threads.Keys
    requires forall x :: x in s.threads && x != c ==> t.threads[x] == s.threads[x]
    requires t.threads[c].pc == Ready && t.threads[c].cached == key && t.threads[c].removed == s.threads[c].removed
    requires var p := Current(s, c);
      && (p.Some? ==> p.value < |m.rooms|)
      && t.registered == if p.Some? && !cfg.Spares(m.rooms[p.value].key) && m.rooms[p.value].members == {}
                         then m.registered - {m.rooms[p.value].key} else m.registered
    ensures Resits(cfg, s, t, c, key)
  {
    hide Wf, MembersOf, LengthOf, Empties, Shifted, Current;
    LeftBehind(cfg, s, m, c, key);
    SameRooms(s, m, t, c, key);
    assert t.threads == s.threads[c := t.threads[c]];
  }

  // What holds of the rooms after the move holds at the end of those that are still there.
  lemma SameRooms(s: State, m: State, t: State, c: nat, key: string)
    requires Wf(s) && Wf(m) && Wf(t) && c in s.threads && Shifted(s, m, c, key)
    requires t.rooms == m.rooms
    requires forall k :: k in t.registered ==> k in m.registered && t.registered[k] == m.registered[k]
    ensures m.registered.Keys == s.registered.Keys + {key}
    ensures forall k :: k in t.registered ==>
      && MembersOf(t, k) == (MembersOf(s, k) - {c}) + (if k == key then {c} else {})
      && LengthOf(t, k) == LengthOf(s, k)
  {
    hide PcOk;
  }

  // ---- Speaking

  ghost predicate Speaks(s: State, t: State, c: nat, key: string)
    requires Wf(s) && Wf(t)
  {
    && Serves(s, t, c) && t.threads[c].cached == s.threads[c].cached && t.threads[c].removed == s.threads[c].removed
    && t.registered == s.registered && key in s.registered
    && forall k :: k in s.registered ==>
         MembersOf(t, k) == MembersOf(s, k) && LengthOf(t, k) == LengthOf(s, k) + if k == key then 1 else 0
  }

  function SpeechSteps(c: nat): seq<Action> {
    [Find(c)] + [Append(c)] + [Snapshot(c)]
  }

  lemma FindsRoom(cfg: Config, s: State, c: nat, key: string)
    requires Wf(s) && c in s.threads && s.threads[c].pc == Ready
    requires s.threads[c].cached == key != "" && key in s.registered
    ensures Step(cfg, s, Find(c)) == SetPc(s, c, Speaking(s.registered[key])).(clock := s.clock + 1)
  {
    hide PcOk;
  }

  lemma AppendsLine(cfg: Config, s: State, c: nat, r: nat)
    requires Wf(s) && c in s.threads && s.threads[c].pc == Speaking(r)
    ensures r < |s.rooms|
    ensures var log := s.rooms[r].log;
      Step(cfg, s, Append(c)) ==
      SetPc(s.(rooms := s.rooms[r := s.rooms[r].(log := log + [Post(c, s.clock, None)])]), c, Posted(r, |log|))
      .(clock := s.clock + 1)
  {
    assert PcOk(s, s.threads[c].pc);
    hide PcOk;
  }

  lemma LooksUp(cfg: Config, s: State, c: nat, r: nat, i: nat)
    requires Wf(s) && c in s.threads && s.threads[c].pc == Posted(r, i)
    ensures r < |s.rooms| && i < |s.rooms[r].log|
    ensures var room := s.rooms[r];
      var found := room.log[i].(lookUp := Some(LookUp(s.clock, room.members)));
      Step(cfg, s, Snapshot(c)) ==
      SetPc(s.(rooms := s.rooms[r := room.(log := room.log[i := found])]), c, Ready).(clock := s.clock + 1)
  {
    assert PcOk(s, s.threads[c].pc);
    hide PcOk;
  }

  lemma SpeaksOnce(cfg: Config, before: seq<Action>, c: nat, key: string)
    requires var s := Run(cfg, before);
      c in s.threads && s.threads[c].pc == Ready && s.threads[c].cached == key != "" && key in s.registered
    ensures Speaks(Run(cfg, before), Run(cfg, before + SpeechSteps(c)), c, key)
  {
    hide Run, Step, Wf, Places, PostsOk, HeardOk, PostersOk, MembersOf, LengthOf;
    var s, a1 := Run(cfg, before), before + [Find(c)];
    var r := s.registered[key];
    RunStep(cfg, before, Find(c));
    FindsRoom(cfg, s, c, key);
    RunStep(cfg, a1, Append(c));
    AppendsLine(cfg, Run(cfg, a1), c, r);
    var a2 := a1 + [Append(c)];
    RunStep(cfg, a2, Snapshot(c));
    LooksUp(cfg, Run(cfg, a2), c, r, |s.rooms[r].log|);
    var t := Run(cfg, a2 + [Snapshot(c)]);
    assert before + SpeechSteps(c) == a2 + [Snapshot(c)];
    OneLonger(s, t, key);
    assert t.threads == s.threads[c := t.threads[c]];
  }

  lemma OneLonger(s: State, t: State, key: string)
    requires Wf(s) && Wf(t) && key in s.registered && t.registered == s.registered && s.registered[key] < |s.rooms|
    requires |t.rooms| == |s.rooms|
    requires forall q :: 0 <= q < |s.rooms| ==>
      && t.rooms[q].members == s.rooms[q].members
      && |t.rooms[q].log| == |s.rooms[q].log| + if q == s.registered[key] then 1 else 0
    ensures forall k :: k in s.registered ==>
      MembersOf(t, k) == MembersOf(s, k) && LengthOf(t, k) == LengthOf(s, k) + if k == key then 1 else 0
  {
    hide PcOk;
    forall k | k in s.registered && k != key ensures s.registered[k] != s.registered[key] { OneEach(s, k, key); }
  }

  // ---- Coming and going

  ghost predicate Departs(cfg: Config, s: State, t: State, c: nat)
    requires Wf(s) && Wf(t)
  {
    && c in s.threads && c in t.threads && t.threads == s.threads[c := t.threads[c]]
    && t.threads[c].removed && t.threads[c].pc == s.threads[c].pc
    && (forall k :: k in t.registered <==> k in s.registered && !Empties(cfg, s, c, k))
    && forall k :: k in t.registered ==> MembersOf(t, k) == MembersOf(s, k) - {c} && LengthOf(t, k) == LengthOf(s, k)
  }

  lemma Removes(cfg: Config, s: State, c: nat)
    requires Wf(s) && c in s.threads && !s.threads[c].removed
    ensures var t, from := Step(cfg, s, Remove(c)), Current(s, c);
      && t.threads.Keys == s.threads.Keys && t.threads[c].removed && t.threads[c].pc == s.threads[c].pc
      && (forall x :: x in s.threads && x != c ==> t.threads[x] == s.threads[x])
      && (from.None? ==> t.rooms == s.rooms && t.registered == s.registered)
      && (from.Some? ==>
           && from.value < |s.rooms|
           && t.rooms == s.rooms[from.value := s.rooms[from.value].(members := s.rooms[from.value].members - {c})]
           && t.registered == if s.rooms[from.value].members - {c} == {} && !cfg.Spares(s.threads[c].cached)
                              then s.registered - {s.threads[c].cached} else s.registered)
  {
    hide PcOk;
  }

  lemma Goes(cfg: Config, before: seq<Action>, c: nat)
    requires var s := Run(cfg, before); c in s.threads && !s.threads[c].removed
    ensures Departs(cfg, Run(cfg, before), Run(cfg, before + [Remove(c)]), c)
  {
    hide Run, Step, Wf, Places, PostsOk, HeardOk, PostersOk, MembersOf, LengthOf, Empties;
    var s, t := Run(cfg, before), Run(cfg, before + [Remove(c)]);
    RunStep(cfg, before, Remove(c));
    Removes(cfg, s, c);
    assert t.threads == s.threads[c := t.threads[c]];
    forall k | k in s.registered && c in MembersOf(s, k) ensures s.threads[c].cached == k != "" {
      OnlyIn(cfg, s, c, k);
    }
    WithoutHim(cfg, s, t, c);
  }

  lemma WithoutHim(cfg: Config, s: State, t: State, c: nat)
    requires Wf(s) && Wf(t) && c in s.threads
    requires forall k :: k in s.registered && c in MembersOf(s, k) ==> s.threads[c].cached == k != ""
    requires var from := Current(s, c);
      && (from.None? ==> t.rooms == s.rooms && t.registered == s.registered)
      && (from.Some? ==>
           && from.value < |s.rooms|
           && t.rooms == s.rooms[from.value := s.rooms[from.value].(members := s.rooms[from.value].members - {c})]
           && t.registered == if s.rooms[from.value].members - {c} == {} && !cfg.Spares(s.threads[c].cached)
                              then s.registered - {s.threads[c].cached} else s.registered)
    ensures forall k :: k in t.registered <==> k in s.registered && !Empties(cfg, s, c, k)
    ensures forall k :: k in t.registered ==>
      MembersOf(t, k) == MembersOf(s, k) - {c} && LengthOf(t, k) == LengthOf(s, k)
  {
    hide PcOk;
    var from := s.threads[c].cached;
    forall k | k in t.registered
      ensures MembersOf(t, k) == MembersOf(s, k) - {c} && LengthOf(t, k) == LengthOf(s, k)
    {
      if k != from {
        OneEach(s, k, from);
        assert MembersOf(s, k) - {c} == MembersOf(s, k);
      } else if k == "" {
        assert MembersOf(s, k) - {c} == MembersOf(s, k);
      }
    }
  }

  // A newcomer sits in the lobby, or nowhere if there is none.
  ghost predicate Comes(cfg: Config, s: State, t: State, c: nat)
    requires Wf(s) && Wf(t)
  {
    && c !in s.threads && c in t.threads && t.threads == s.threads[c := t.threads[c]]
    && t.threads[c].pc == Ready && !t.threads[c].removed
    && t.threads[c].cached == (if cfg.lobby.Lobby? then cfg.lobby.key else "")
    && t.registered.Keys == s.registered.Keys + (if cfg.lobby.Lobby? then {cfg.lobby.key} else {})
    && forall k :: k in t.registered ==>
         && MembersOf(t, k) == MembersOf(s, k) + (if cfg.lobby.Lobby? && k == cfg.lobby.key then {c} else {})
         && LengthOf(t, k) == LengthOf(s, k)
  }

  function ComeSteps(cfg: Config, c: nat): seq<Action> {
    if cfg.lobby.Lobby? then Entry(c, cfg.lobby.key) else [Start(c)]
  }

  lemma ComesOnce(cfg: Config, before: seq<Action>, c: nat)
    requires c !in Run(cfg, before).threads && (cfg.lobby.Lobby? ==> cfg.lobby.key != "")
    ensures Comes(cfg, Run(cfg, before), Run(cfg, before + ComeSteps(cfg, c)), c)
  {
    hide Run, Step, Wf, Places, PostsOk, HeardOk, PostersOk, MembersOf, LengthOf, Entry, HasEntered;
    var s, t := Run(cfg, before), Run(cfg, before + ComeSteps(cfg, c));
    if cfg.lobby.Lobby? {
      Enters(cfg, before, c, cfg.lobby.key);
      EnteredRooms(cfg, s, t, c, cfg.lobby.key);
    } else {
      RunStep(cfg, before, Start(c));
      Starts(cfg, s, c);
      SameAll(s, t);
    }
    assert t.threads == s.threads[c := t.threads[c]];
  }

  lemma SameAll(s: State, t: State)
    requires Wf(s) && Wf(t) && t.rooms == s.rooms && t.registered == s.registered
    ensures forall k :: k in t.registered ==> MembersOf(t, k) == MembersOf(s, k) && LengthOf(t, k) == LengthOf(s, k)
  {
    hide PcOk;
  }

  lemma EnteredRooms(cfg: Config, s: State, t: State, c: nat, home: string)
    requires Wf(s) && Wf(t) && HasEntered(cfg, s, t, c, home)
    ensures t.threads.Keys == s.threads.Keys + {c} && (forall x :: x in s.threads ==> t.threads[x] == s.threads[x])
    ensures t.threads[c].cached == home && t.threads[c].pc == Ready && !t.threads[c].removed
    ensures t.registered.Keys == s.registered.Keys + {home}
    ensures forall k :: k in t.registered ==>
      MembersOf(t, k) == MembersOf(s, k) + (if k == home then {c} else {}) && LengthOf(t, k) == LengthOf(s, k)
  {
    hide PcOk;
    forall k | k in s.registered && k != home ensures s.registered[k] != Goal(s, home) { OneEach(s, k, home); }
  }
}
