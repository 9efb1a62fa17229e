// The sends, which happen outside every lock, as steps of their own between the lock sections: what is
// put on which client's channel, and in which order.
module LockSends {
  import opened LockSections

  // What is put on a channel: a line as it was broadcast, or replayed from a reading of the history.
  datatype Line = Live(room: nat, index: nat) | Again(at: nat, room: nat, index: nat)

  // What a read loop has still to send: one line to these members, in whatever order the map of members
  // is iterated, or the rest of the history to its own client, in order.
  datatype Owed =
    | Nothing
    | Out(room: nat, index: nat, to: set<nat>)
    | Rest(at: nat, room: nat, next: nat, hi: nat)

  datatype Wide = Wide(s: State, owed: map<nat, Owed>, inbox: map<nat, seq<Line>>)

  const Idle := Wide(Initial, map[], map[])

  datatype Turn =
    | Lock(a: Action)             // a lock section
    | Send(c: nat, m: nat)        // c's next send of its line, to m
    | Repeat(c: nat)              // c's next send of the history, to itself

  function OwedBy(w: Wide, c: nat): Owed {
    if c in w.owed then w.owed[c] else Nothing
  }

  // All that was put on m's channel so far.
  function Inbox(w: Wide, m: nat): seq<Line> {
    if m in w.inbox then w.inbox[m] else []
  }

  // A client is removed from another goroutine; for the rest, who has still to send goes on sending.
  predicate Free(w: Wide, a: Action) {
    a.Remove? || OwedBy(w, a.c) == Nothing
  }

  // What a section leaves its client to send.
  function Owes(cfg: Config, s: State, a: Action): Owed
    requires Wf(s)
  {
    if a.c !in s.threads then Nothing
    else
      var pc := s.threads[a.c].pc;
      if a.Snapshot? && pc.Posted? then
        assert PcOk(s, pc);
        var to := s.rooms[pc.room].members;
        if to == {} then Nothing else Out(pc.room, pc.index, to)
      else if a.Replayed? && pc.Moved? then
        assert PcOk(s, pc);
        var hi := |s.rooms[pc.room].log|;
        if Kept(cfg, hi) < hi then Rest(s.clock, pc.room, Kept(cfg, hi), hi) else Nothing
      else Nothing
  }

  function Put(w: Wide, c: nat, left: Owed, m: nat, l: Line): Wide {
    w.(owed := w.owed[c := left], inbox := w.inbox[m := Inbox(w, m) + [l]])
  }

  // A disabled turn does nothing.
  function Take(cfg: Config, w: Wide, t: Turn): Wide
    requires Wf(w.s)
  {
    match t
    case Lock(a) =>
      if !Free(w, a) then w
      else Wide(Step(cfg, w.s, a), if a.Remove? then w.owed else w.owed[a.c := Owes(cfg, w.s, a)], w.inbox)
    case Send(c, m) =>
      var o := OwedBy(w, c);
      if o.Out? && m in o.to
      then Put(w, c, if o.to == {m} then Nothing else o.(to := o.to - {m}), m, Live(o.room, o.index))
      else w
    case Repeat(c) =>
      var o := OwedBy(w, c);
      if o.Rest?
      then Put(w, c, if o.next + 1 < o.hi then o.(next := o.next + 1) else Nothing, c, Again(o.at, o.room, o.next))
      else w
  }

  // The state after any turns in any order.
  function Turns(cfg: Config, turns: seq<Turn>): (w: Wide)
    ensures Inv(cfg, w.s)
  {
    if turns == [] then InitiallyOk(cfg); Idle
    else
      var before, t := Turns(cfg, turns[..|turns| - 1]), turns[|turns| - 1];
      SectionOk(cfg, before, t);
      Take(cfg, before, t)
  }

  lemma InitiallyOk(cfg: Config)
    ensures Inv(cfg, Initial)
  {
    assert Run(cfg, []) == Initial;
  }

  lemma SectionOk(cfg: Config, w: Wide, t: Turn)
    requires Inv(cfg, w.s)
    ensures Inv(cfg, Take(cfg, w, t).s)
  {
    if t.Lock? { StepInv(cfg, w.s, t.a); }
    hide Step, InvAt;
  }

  // ---- The sections of a run by themselves

  // The sections that were taken.
  function Sections(cfg: Config, turns: seq<Turn>): seq<Action> {
    if turns == [] then []
    else
      var before, t := turns[..|turns| - 1], turns[|turns| - 1];
      Sections(cfg, before) + if t.Lock? && Free(Turns(cfg, before), t.a) then [t.a] else []
  }

  // They are a run of the lock sections, so what holds of all of those holds here.
  lemma {:induction false} SectionsRun(cfg: Config, turns: seq<Turn>)
    ensures Turns(cfg, turns).s == Run(cfg, Sections(cfg, turns))
  {
    if turns == [] {
      assert Run(cfg, []) == Initial;
    } else {
      hide Run, Step;
      var before, t := turns[..|turns| - 1], turns[|turns| - 1];
      SectionsRun(cfg, before);
      if t.Lock? && Free(Turns(cfg, before), t.a) {
        RunStep(cfg, Sections(cfg, before), t.a);
      } else {
        assert Sections(cfg, before) + [] == Sections(cfg, before);
      }
    }
  }

  lemma TurnsStep(cfg: Config, turns: seq<Turn>, t: Turn)
    ensures Turns(cfg, turns + [t]) == Take(cfg, Turns(cfg, turns), t)
    ensures Sections(cfg, turns + [t]) ==
      Sections(cfg, turns) + if t.Lock? && Free(Turns(cfg, turns), t.a) then [t.a] else []
  {
    hide Take;
    assert (turns + [t])[..|turns|] == turns;
  }

  // ---- Every run of sections is one in which whoever has to send does so at once

  ghost predicate AllSent(w: Wide) {
    forall c :: OwedBy(w, c) == Nothing
  }

  ghost predicate OnlyOwes(w: Wide, c: nat) {
    forall x :: x != c ==> OwedBy(w, x) == Nothing
  }

  predicate Proper(o: Owed) {
    (o.Out? ==> o.to != {}) && (o.Rest? ==> o.next < o.hi)
  }

  function Left(o: Owed): nat {
    match o case Out(_, _, to) => |to| case Rest(_, _, n, hi) => if n < hi then hi - n else 0 case _ => 0
  }

  // The next send of someone who has to send.
  lemma SendsNext(cfg: Config, w: Wide, c: nat) returns (t: Turn)
    requires Wf(w.s) && Proper(OwedBy(w, c)) && OwedBy(w, c) != Nothing
    ensures !t.Lock?
    ensures var v := Take(cfg, w, t);
      && v.s == w.s && Proper(OwedBy(v, c)) && Left(OwedBy(v, c)) < Left(OwedBy(w, c))
      && forall x :: x != c ==> OwedBy(v, x) == OwedBy(w, x)
  {
    var o := OwedBy(w, c);
    if o.Out? {
      var m :| m in o.to;
      t := Send(c, m);
      assert o.to != {m} ==> exists x :: x in o.to - {m} by {
        if o.to - {m} == {} { assert o.to == {m}; }
      }
    } else {
      t := Repeat(c);
    }
  }

  lemma {:induction false} SendsAll(cfg: Config, turns: seq<Turn>, c: nat) returns (more: seq<Turn>)
    requires OnlyOwes(Turns(cfg, turns), c) && Proper(OwedBy(Turns(cfg, turns), c))
    ensures AllSent(Turns(cfg, turns + more)) && Turns(cfg, turns + more).s == Turns(cfg, turns).s
    ensures Sections(cfg, turns + more) == Sections(cfg, turns)
    decreases Left(OwedBy(Turns(cfg, turns), c))
  {
    hide Turns, Sections, Take, Left, Proper;
    var w := Turns(cfg, turns);
    if OwedBy(w, c) == Nothing {
      more := [];
      assert turns + [] == turns;
    } else {
      var t := SendsNext(cfg, w, c);
      TurnsStep(cfg, turns, t);
      var rest := SendsAll(cfg, turns + [t], c);
      more := [t] + rest;
      assert turns + [t] + rest == turns + more;
    }
  }

  lemma OwesProper(cfg: Config, s: State, a: Action)
    requires Wf(s)
    ensures Proper(Owes(cfg, s, a))
  {}

  lemma LockOwes(cfg: Config, w: Wide, a: Action, x: nat)
    requires Wf(w.s) && Free(w, a)
    ensures OwedBy(Take(cfg, w, Lock(a)), x) == if x == a.c && !a.Remove? then Owes(cfg, w.s, a) else OwedBy(w, x)
  {
    hide Owes, Step;
  }

  lemma LockLeaves(cfg: Config, w: Wide, a: Action)
    requires Wf(w.s) && AllSent(w)
    ensures Free(w, a) && OnlyOwes(Take(cfg, w, Lock(a)), a.c) && Proper(OwedBy(Take(cfg, w, Lock(a)), a.c))
  {
    hide Owes, Step, Proper, Take;
    assert OwedBy(w, a.c) == Nothing;
    var v := Take(cfg, w, Lock(a));
    forall x: nat ensures OwedBy(v, x) == if x == a.c && !a.Remove? then Owes(cfg, w.s, a) else Nothing {
      LockOwes(cfg, w, a, x);
      assert OwedBy(w, x) == Nothing;
    }
    OwesProper(cfg, w.s, a);
    NothingProper();
  }

  lemma NothingProper()
    ensures Proper(Nothing)
  {}

  lemma PromptNext(cfg: Config, before: seq<Turn>, a: Action) returns (turns: seq<Turn>)
    requires AllSent(Turns(cfg, before))
    ensures Sections(cfg, turns) == Sections(cfg, before) + [a] && AllSent(Turns(cfg, turns))
  {
    hide Turns, Sections, Take, Free, OnlyOwes, Proper, AllSent;
    TurnsStep(cfg, before, Lock(a));
    LockLeaves(cfg, Turns(cfg, before), a);
    var more := SendsAll(cfg, before + [Lock(a)], a.c);
    turns := before + [Lock(a)] + more;
  }

  // So no run of the sections is lost by looking at the sends.
  lemma {:induction false} Prompt(cfg: Config, actions: seq<Action>) returns (turns: seq<Turn>)
    ensures Sections(cfg, turns) == actions && AllSent(Turns(cfg, turns)) && Turns(cfg, turns).s == Run(cfg, actions)
  {
    hide Run, Take, Step;
    if actions == [] {
      turns := [];
    } else {
      var before := Prompt(cfg, actions[..|actions| - 1]);
      turns := PromptNext(cfg, before, actions[|actions| - 1]);
    }
    SectionsRun(cfg, turns);
  }
}
