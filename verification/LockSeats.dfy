// Who keeps a seat, under every interleaving. cleanupRoom deletes by key, so a stale cleanup can
// delete a room that replaced the one it saw; nothing else can unseat a client.
module LockSeats {
  import opened LockSections

  // A client that is not removed sits in the registered room it caches.
  predicate Seated(s: State, c: nat)
    requires Indexed(s) && c in s.threads
  {
    var me := s.threads[c];
    !me.removed && me.cached != "" ==> Listed(s, me.cached, c)
  }

  ghost predicate AllSeated(s: State)
    requires Indexed(s)
  {
    forall c :: c in s.threads ==> Seated(s, c)
  }

  predicate LiveMember(s: State, r: nat, x: nat)
    requires r < |s.rooms|
  {
    x in s.rooms[r].members && x in s.threads && !s.threads[x].removed
  }

  // c's cleanup, if it stands before one, finds the room it saw occupied again, or its key free,
  // or still naming that room, or naming one without live members.
  ghost predicate Harmless(s: State, c: nat)
    requires Wf(s)
  {
    c in s.threads && s.threads[c].pc.Cleaning? ==>
      assert PcOk(s, s.threads[c].pc);
      var r := s.threads[c].pc.room;
      var key := s.rooms[r].key;
      || s.rooms[r].members != {}
      || key !in s.registered
      || s.registered[key] == r
      || !exists x :: LiveMember(s, s.registered[key], x)
  }

  // One cleanup keeps everyone seated exactly when it is harmless.
  lemma CleanupIsSafeWhen(cfg: Config, s: State, c: nat)
    requires Inv(cfg, s) && AllSeated(s)
    ensures Wf(Step(cfg, s, Cleanup(c))) && (AllSeated(Step(cfg, s, Cleanup(c))) <==> Harmless(s, c))
  {
    StepInv(cfg, s, Cleanup(c));
    hide VisitsOk, HeardOk, PostersOk, PostsOk, PcOk;
    var t := Step(cfg, s, Cleanup(c));
    if c in s.threads && s.threads[c].pc.Cleaning? {
      CleanupCases(cfg, s, t, c);
    } else {
      forall x | x in t.threads ensures Seated(t, x) { assert Seated(s, x); }
    }
  }

  lemma CleanupCases(cfg: Config, s: State, t: State, c: nat)
    requires Inv(cfg, s) && AllSeated(s) && c in s.threads && s.threads[c].pc.Cleaning?
    requires Wf(t) && t == Step(cfg, s, Cleanup(c))
    ensures AllSeated(t) <==> Harmless(s, c)
  {
    assert PcOk(s, s.threads[c].pc);
    hide VisitsOk, HeardOk, PostersOk, PostsOk, PcOk;
    var r := s.threads[c].pc.room;
    var key := s.rooms[r].key;
    if !Harmless(s, c) {
      var x :| LiveMember(s, s.registered[key], x);
      assert Listed(s, key, x);
      assert !Seated(t, x);
    } else {
      forall x | x in t.threads ensures Seated(t, x) {
        assert Seated(s, x);
        if s.threads[x].cached == key != "" && key in s.registered && !s.threads[x].removed {
          assert Listed(s, key, x);
          assert LiveMember(s, s.registered[key], x);
        }
      }
    }
  }

  // Keys and members stay, and who is new has no key yet.
  ghost predicate SeatsAlike(s: State, t: State) {
    && t.registered == s.registered && |t.rooms| == |s.rooms|
    && (forall r :: 0 <= r < |s.rooms| ==> t.rooms[r].members == s.rooms[r].members)
    && KeysAlike(s, t)
  }

  ghost predicate KeysAlike(s: State, t: State) {
    forall x :: x in t.threads ==>
      if x in s.threads
      then t.threads[x].cached == s.threads[x].cached && t.threads[x].removed == s.threads[x].removed
      else t.threads[x].cached == ""
  }

  lemma AlikeKeepsSeats(s: State, t: State)
    requires Indexed(s) && Indexed(t) && AllSeated(s) && SeatsAlike(s, t)
    ensures AllSeated(t)
  {
    forall x | x in t.threads ensures Seated(t, x) {
      if x in s.threads { assert Seated(s, x); }
    }
  }

  lemma MoveKeepsSeat(cfg: Config, s: State, t: State, c: nat, key: string, x: nat)
    requires Wf(s) && Indexed(s) && Indexed(t) && t == Step(cfg, s, Move(c, key))
    requires c in s.threads && MayMove(cfg, s.threads[c].pc, key) && s.threads[c].cached != key
    requires x in s.threads && Seated(s, x)
    ensures x in t.threads && Seated(t, x)
  {
    hide Step, PcOk, Wf, MayMove;
    Moves(cfg, s, c, key);
    var k := s.threads[x].cached;
    if x != c && !s.threads[x].removed && k != "" && k != key {
      var q := s.registered[k];
      assert s.rooms[q].key == k && t.registered[k] == q;
      assert x in t.rooms[q].members;
    }
  }

  lemma MoveKeepsSeats(cfg: Config, s: State, t: State, c: nat, key: string)
    requires Wf(s) && AllSeated(s) && t == Step(cfg, s, Move(c, key)) && Wf(t)
    requires c in s.threads && MayMove(cfg, s.threads[c].pc, key) && s.threads[c].cached != key
    ensures AllSeated(t)
  {
    Moves(cfg, s, c, key);
    hide Step, PcOk, Seated;
    forall x | x in t.threads ensures Seated(t, x) {
      MoveKeepsSeat(cfg, s, t, c, key, x);
    }
  }

  lemma RejoinKeepsSeats(cfg: Config, s: State, t: State, c: nat, key: string)
    requires Wf(s) && AllSeated(s) && t == Step(cfg, s, Move(c, key)) && Wf(t)
    requires c in s.threads && MayMove(cfg, s.threads[c].pc, key) && s.threads[c].cached == key
    ensures AllSeated(t)
  {
    hide PcOk;
    forall x | x in t.threads ensures Seated(t, x) {
      assert Seated(s, x);
      var k := s.threads[x].cached;
      if !s.threads[x].removed && k != "" {
        assert s.registered[k] < |s.rooms|;
      }
    }
  }

  lemma RemoveKeepsSeats(cfg: Config, s: State, t: State, c: nat)
    requires Wf(s) && AllSeated(s) && t == Step(cfg, s, Remove(c)) && Wf(t) && c in s.threads && !s.threads[c].removed
    ensures AllSeated(t)
  {
    hide PcOk;
    forall x | x in t.threads ensures Seated(t, x) {
      assert Seated(s, x);
      var k := s.threads[x].cached;
      if x != c && !s.threads[x].removed && k != "" {
        var r := s.registered[k];
        assert s.rooms[r].key == k && x in s.rooms[r].members;
        assert x in LeaveCurrent(s, c).rooms[r].members;
      }
    }
  }

  // Neither a move nor a removal that does anything, nor a cleanup.
  ghost predicate Idles(cfg: Config, s: State, a: Action) {
    && !a.Cleanup?
    && (a.Move? ==> a.c !in s.threads || !MayMove(cfg, s.threads[a.c].pc, a.key))
    && (a.Remove? ==> a.c !in s.threads || s.threads[a.c].removed)
  }

  lemma RestKeepsKeys(cfg: Config, s: State, a: Action)
    requires Wf(s) && Idles(cfg, s, a)
    ensures KeysAlike(s, Step(cfg, s, a))
  {
    assert a.c in s.threads ==> PcOk(s, s.threads[a.c].pc);
    hide PcOk, Indexed, MoveSection, RemoveSection;
  }

  lemma RestIsAlike(cfg: Config, s: State, a: Action)
    requires Wf(s) && Idles(cfg, s, a)
    ensures SeatsAlike(s, Step(cfg, s, a))
  {
    assert a.c in s.threads ==> PcOk(s, s.threads[a.c].pc);
    RestKeepsKeys(cfg, s, a);
    hide PcOk, Indexed, MoveSection, RemoveSection, KeysAlike;
  }

  // No other lock section unseats anyone.
  lemma OthersKeepSeats(cfg: Config, s: State, a: Action)
    requires Inv(cfg, s) && AllSeated(s) && !a.Cleanup?
    ensures Wf(Step(cfg, s, a)) && AllSeated(Step(cfg, s, a))
  {
    StepInv(cfg, s, a);
    hide Places, HeardOk, PostersOk, PostsOk, PcOk, Step, AllSeated, SeatsAlike;
    var t := Step(cfg, s, a);
    if a.Move? && a.c in s.threads && MayMove(cfg, s.threads[a.c].pc, a.key) {
      if s.threads[a.c].cached == a.key {
        RejoinKeepsSeats(cfg, s, t, a.c, a.key);
      } else {
        MoveKeepsSeats(cfg, s, t, a.c, a.key);
      }
    } else if a.Remove? && a.c in s.threads && !s.threads[a.c].removed {
      RemoveKeepsSeats(cfg, s, t, a.c);
    } else {
      RestIsAlike(cfg, s, a);
      AlikeKeepsSeats(s, t);
    }
  }

  // Over any run: all live clients keep their seats at every moment exactly when every cleanup
  // taken was harmless at the moment it was taken.
  lemma {:induction false} SeatsHold(cfg: Config, actions: seq<Action>)
    ensures (forall n: nat :: n <= |actions| ==> AllSeated(Run(cfg, actions[..n])))
      <==> (forall n: nat :: n < |actions| && actions[n].Cleanup? ==> Harmless(Run(cfg, actions[..n]), actions[n].c))
  {
    hide Run, Step, Places, PostsOk, HeardOk, PostersOk, PcOk, AllSeated, Harmless;
    if forall n: nat :: n < |actions| && actions[n].Cleanup? ==> Harmless(Run(cfg, actions[..n]), actions[n].c) {
      forall n: nat | n <= |actions| ensures AllSeated(Run(cfg, actions[..n])) {
        SeatedUpTo(cfg, actions, n);
      }
    }
    if forall n: nat :: n <= |actions| ==> AllSeated(Run(cfg, actions[..n])) {
      forall n: nat | n < |actions| && actions[n].Cleanup? ensures Harmless(Run(cfg, actions[..n]), actions[n].c) {
        assert AllSeated(Run(cfg, actions[..n])) && AllSeated(Run(cfg, actions[..n + 1]));
        NextOf(cfg, actions, n);
        CleanupIsSafeWhen(cfg, Run(cfg, actions[..n]), actions[n].c);
      }
    }
  }

  lemma NextOf(cfg: Config, actions: seq<Action>, n: nat)
    requires n < |actions|
    ensures Run(cfg, actions[..n + 1]) == Step(cfg, Run(cfg, actions[..n]), actions[n])
  {
    hide Run, Step, Places, PostsOk, HeardOk, PostersOk, PcOk;
    RunStep(cfg, actions[..n], actions[n]);
    assert actions[..n] + [actions[n]] == actions[..n + 1];
  }

  lemma {:induction false} SeatedUpTo(cfg: Config, actions: seq<Action>, n: nat)
    requires n <= |actions|
    requires forall m: nat :: m < |actions| && actions[m].Cleanup? ==> Harmless(Run(cfg, actions[..m]), actions[m].c)
    ensures AllSeated(Run(cfg, actions[..n]))
  {
    if n == 0 {
      NobodyYet(cfg, actions[..0]);
    } else {
      hide Run, Step, Places, PostsOk, HeardOk, PostersOk, PcOk, AllSeated, Harmless;
      SeatedUpTo(cfg, actions, n - 1);
      NextOf(cfg, actions, n - 1);
      if actions[n - 1].Cleanup? {
        CleanupIsSafeWhen(cfg, Run(cfg, actions[..n - 1]), actions[n - 1].c);
      } else {
        OthersKeepSeats(cfg, Run(cfg, actions[..n - 1]), actions[n - 1]);
      }
    }
  }

  lemma NobodyYet(cfg: Config, none: seq<Action>)
    requires none == []
    ensures AllSeated(Run(cfg, none))
  {
    hide Inv;
  }
}
