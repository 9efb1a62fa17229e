// A schedule the server can run in which a live client loses its seat: every client enters the
// lobby first, and whichever room the configuration spares, the room under key is not it.
module LockSchedule {
  import opened LockSections
  import opened LockSeats

  // a makes a room under key and leaves it, having seen it empty. b joins that room and is removed,
  // which deletes the room; d makes a new one under the same key. Then a's cleanup deletes d's room.
  function SeesItEmpty(a: nat, home: string, key: string): seq<Action> {
    Entry(a, home) + [Move(a, key)] + [Replayed(a)] + [CheckCleanup(a)] + [Cleanup(a)]
    + [Move(a, home)] + [Replayed(a)] + [CheckCleanup(a)]
  }

  function ReplacedMeanwhile(a: nat, b: nat, d: nat, home: string, key: string): seq<Action> {
    Entry(b, home) + [Move(b, key)] + [Remove(b)] + Entry(d, home) + [Move(d, key)] + [Cleanup(a)]
  }

  // a alone in the room under key.
  ghost predicate Alone(s: State, a: nat, key: string, r: nat) {
    && a in s.threads && s.threads[a].cached == key && s.threads[a].pc == Ready && !s.threads[a].removed
    && key in s.registered && s.registered[key] == r && r < |s.rooms|
    && s.rooms[r].key == key && s.rooms[r].members == {a}
  }

  // a is about to delete the room it saw empty.
  ghost predicate About(s: State, a: nat, key: string, r: nat) {
    && a in s.threads && s.threads[a].pc == Cleaning(r)
    && r < |s.rooms| && s.rooms[r].key == key && s.rooms[r].members == {}
  }

  lemma Cleans(cfg: Config, s: State, c: nat)
    requires Wf(s) && c in s.threads && (s.threads[c].pc.Cleaning? || s.threads[c].pc.Ready?)
    ensures var t, pc := Step(cfg, s, Cleanup(c)), s.threads[c].pc;
      && (pc.Cleaning? ==> pc.room < |s.rooms|)
      && t.rooms == s.rooms && t.threads == s.threads[c := s.threads[c].(pc := Ready)]
      && t.registered == (if pc.Cleaning? && s.rooms[pc.room].members == {} then s.registered - {s.rooms[pc.room].key}
                          else s.registered)
  {
    assert PcOk(s, s.threads[c].pc);
    hide PcOk;
  }

  // The removal of a room's last member deletes the room.
  lemma RemovesLast(cfg: Config, s: State, c: nat, key: string, r: nat)
    requires Wf(s) && c in s.threads && s.threads[c].cached == key != "" && !s.threads[c].removed && !cfg.Spares(key)
    requires key in s.registered && s.registered[key] == r && s.rooms[r].members == {c}
    ensures var t := Step(cfg, s, Remove(c));
      && t.registered == s.registered - {key} && |t.rooms| == |s.rooms| && t.rooms[r] == s.rooms[r].(members := {})
      && t.threads.Keys == s.threads.Keys && forall x :: x in s.threads && x != c ==> t.threads[x] == s.threads[x]
  {
    hide PcOk;
  }

  // a has come from its first room to the room under key, alone, and was replayed the history.
  ghost predicate Arrived(s: State, a: nat, home: string, key: string, r: nat)
    requires a in s.threads
  {
    && Alone(SetPc(s, a, Ready), a, key, r) && s.threads[a].pc.Greeted?
    && match s.threads[a].pc.previous case None => true case Some(h) => h < |s.rooms| && s.rooms[h].key == home
  }

  lemma Arrives(cfg: Config, before: seq<Action>, a: nat, home: string, key: string)
    requires var s := Run(cfg, before);
      a !in s.threads && key !in s.registered && key != "" && key != home && Home(cfg, home)
    ensures var t := Run(cfg, before + Entry(a, home) + [Move(a, key)] + [Replayed(a)]);
      && a in t.threads && Arrived(t, a, home, key, |Run(cfg, before + Entry(a, home)).rooms|)
      && t.threads.Keys == Run(cfg, before).threads.Keys + {a}
  {
    hide Run, Step, Wf, Places, PostsOk, HeardOk, PostersOk, Entry;
    Enters(cfg, before, a, home);
    var p1 := before + Entry(a, home);
    RunStep(cfg, p1, Move(a, key));
    Moves(cfg, Run(cfg, p1), a, key);
    var p2 := p1 + [Move(a, key)];
    RunStep(cfg, p2, Replayed(a));
    Reads(cfg, Run(cfg, p2), a);
  }

  lemma SitsAlone(cfg: Config, before: seq<Action>, a: nat, home: string, key: string)
    requires var s := Run(cfg, before);
      a !in s.threads && key !in s.registered && key != "" && key != home && Home(cfg, home)
    ensures var t := Run(cfg,
      before + Entry(a, home) + [Move(a, key)] + [Replayed(a)] + [CheckCleanup(a)] + [Cleanup(a)]);
      && Alone(t, a, key, |Run(cfg, before + Entry(a, home)).rooms|)
      && t.threads.Keys == Run(cfg, before).threads.Keys + {a}
  {
    hide Run, Step, Wf, Places, PostsOk, HeardOk, PostersOk, Entry;
    Arrives(cfg, before, a, home, key);
    var p3 := before + Entry(a, home) + [Move(a, key)] + [Replayed(a)];
    RunStep(cfg, p3, CheckCleanup(a));
    Checks(cfg, Run(cfg, p3), a);
    var p4 := p3 + [CheckCleanup(a)];
    RunStep(cfg, p4, Cleanup(a));
    Cleans(cfg, Run(cfg, p4), a);
  }

  // a goes home and sees the room it left empty.
  lemma LooksBack(cfg: Config, before: seq<Action>, a: nat, home: string, key: string, r: nat)
    requires Alone(Run(cfg, before), a, key, r) && key != "" && key != home && Home(cfg, home)
    ensures var t := Run(cfg, before + [Move(a, home)] + [Replayed(a)] + [CheckCleanup(a)]);
      && About(t, a, key, r) && key in t.registered && t.registered[key] == r
      && t.threads.Keys == Run(cfg, before).threads.Keys
  {
    hide Run, Step, Wf, Places, PostsOk, HeardOk, PostersOk;
    OneKeyEach(cfg, before, home, key, r);
    RunStep(cfg, before, Move(a, home));
    Moves(cfg, Run(cfg, before), a, home);
    var p1 := before + [Move(a, home)];
    RunStep(cfg, p1, Replayed(a));
    Reads(cfg, Run(cfg, p1), a);
    var p2 := p1 + [Replayed(a)];
    RunStep(cfg, p2, CheckCleanup(a));
    Checks(cfg, Run(cfg, p2), a);
  }

  lemma OneKeyEach(cfg: Config, before: seq<Action>, home: string, key: string, r: nat)
    requires var s := Run(cfg, before); r < |s.rooms| && s.rooms[r].key == key != home
    ensures Goal(Run(cfg, before), home) != r
  {
    hide Run, Places, PostsOk, HeardOk, PostersOk, PcOk;
  }

  lemma SeesIt(cfg: Config, before: seq<Action>, a: nat, home: string, key: string)
    requires var s := Run(cfg, before);
      a !in s.threads && key !in s.registered && key != "" && key != home && Home(cfg, home)
    ensures var t := Run(cfg, before + SeesItEmpty(a, home, key));
      && exists r :: About(t, a, key, r) && key in t.registered && t.registered[key] == r
    ensures Run(cfg, before + SeesItEmpty(a, home, key)).threads.Keys == Run(cfg, before).threads.Keys + {a}
  {
    hide Run, Entry, Alone, About;
    SitsAlone(cfg, before, a, home, key);
    var r := |Run(cfg, before + Entry(a, home)).rooms|;
    var p := before + Entry(a, home) + [Move(a, key)] + [Replayed(a)] + [CheckCleanup(a)] + [Cleanup(a)];
    LooksBack(cfg, p, a, home, key, r);
    assert p + [Move(a, home)] + [Replayed(a)] + [CheckCleanup(a)] == before + SeesItEmpty(a, home, key);
    assert About(Run(cfg, before + SeesItEmpty(a, home, key)), a, key, r);
  }

  // b enters the room a saw empty, and its removal deletes it.
  lemma ComesAndGoes(cfg: Config, before: seq<Action>, a: nat, b: nat, home: string, key: string, r: nat)
    requires var s := Run(cfg, before);
      && About(s, a, key, r) && key in s.registered && s.registered[key] == r && b !in s.threads
      && key != "" && key != home && Home(cfg, home)
    ensures var t := Run(cfg, before + Entry(b, home) + [Move(b, key)] + [Remove(b)]);
      About(t, a, key, r) && key !in t.registered && t.threads.Keys == Run(cfg, before).threads.Keys + {b}
  {
    hide Run, Step, Wf, Places, PostsOk, HeardOk, PostersOk, Entry;
    OneKeyEach(cfg, before, home, key, r);
    Enters(cfg, before, b, home);
    var p1 := before + Entry(b, home);
    RunStep(cfg, p1, Move(b, key));
    Moves(cfg, Run(cfg, p1), b, key);
    var p2 := p1 + [Move(b, key)];
    RunStep(cfg, p2, Remove(b));
    RemovesLast(cfg, Run(cfg, p2), b, key, r);
  }

  // d makes a new room under the key, and a deletes it.
  lemma LosesItsSeat(cfg: Config, before: seq<Action>, a: nat, d: nat, home: string, key: string, r: nat)
    requires var s := Run(cfg, before);
      About(s, a, key, r) && key !in s.registered && d !in s.threads && key != "" && key != home && Home(cfg, home)
    ensures var t := Run(cfg, before + Entry(d, home) + [Move(d, key)] + [Cleanup(a)]);
      d in t.threads && !t.threads[d].removed && t.threads[d].cached == key && key !in t.registered
  {
    hide Run, Step, Wf, Places, PostsOk, HeardOk, PostersOk, Entry;
    OneKeyEach(cfg, before, home, key, r);
    Enters(cfg, before, d, home);
    var p1 := before + Entry(d, home);
    RunStep(cfg, p1, Move(d, key));
    Moves(cfg, Run(cfg, p1), d, key);
    var p2 := p1 + [Move(d, key)];
    RunStep(cfg, p2, Cleanup(a));
    Cleans(cfg, Run(cfg, p2), a);
  }

  // Whatever happened before, and whatever the configuration: after this schedule the live client d
  // sits in a room object that no key names.
  lemma StaleCleanupUnseats(cfg: Config, before: seq<Action>, a: nat, b: nat, d: nat, home: string, key: string)
    requires var s := Run(cfg, before);
      && a !in s.threads && b !in s.threads && d !in s.threads && a != b && b != d && a != d
      && key !in s.registered && key != "" && key != home && Home(cfg, home)
    ensures var t := Run(cfg, before + SeesItEmpty(a, home, key) + ReplacedMeanwhile(a, b, d, home, key));
      && d in t.threads && !t.threads[d].removed && t.threads[d].cached == key && key !in t.registered
      && !AllSeated(t)
  {
    hide Run, About, SeesItEmpty, Entry, Places, PostsOk, HeardOk, PostersOk;
    SeesIt(cfg, before, a, home, key);
    var p := before + SeesItEmpty(a, home, key);
    var r :| About(Run(cfg, p), a, key, r) && key in Run(cfg, p).registered && Run(cfg, p).registered[key] == r;
    ComesAndGoes(cfg, p, a, b, home, key, r);
    var q := p + Entry(b, home) + [Move(b, key)] + [Remove(b)];
    LosesItsSeat(cfg, q, a, d, home, key, r);
    assert q + Entry(d, home) + [Move(d, key)] + [Cleanup(a)] == p + ReplacedMeanwhile(a, b, d, home, key);
    assert !Seated(Run(cfg, p + ReplacedMeanwhile(a, b, d, home, key)), d);
  }
}
