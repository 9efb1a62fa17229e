// client.idleWatcher and client.touch with Go 1.21 timers: the timer's channel holds one tick,
// Stop does not drain it, and a tick can arrive between any two steps of the watcher.
module IdleTimer {
  import opened Text

  // Where the watcher's goroutine stands.
  datatype Pc =
    | Head              // at the select
    | Stopping          // took a reset, before timer.Stop()
    | Draining          // Stop returned false, blocked on <-timer.C
    | Resetting         // before timer.Reset
    | Idle(at: int)     // took the tick at that time: the client is shut down for inactivity
    | Gone              // returned without shutting the client down

  // deadline is None while the timer is stopped or expired. consumed is when the watcher last
  // took a reset, or started; touched is the time of the last touch.
  datatype State = State(now: int, deadline: Option<int>, ticks: nat, reset: bool, done: bool,
                         pc: Pc, consumed: int, touched: Option<int>)

  datatype Action =
    | Wait(until: int)  // the clock
    | Fire              // the runtime
    | Touch             // the read loop
    | Shutdown          // anyone: c.done is closed
    | TakeDone | TakeTick | TakeReset | Stop | Drain | Reset  // the watcher

  function Start(now: int, timeout: int): State {
    if timeout <= 0 then State(now, None, 0, false, false, Gone, now, None)
    else State(now, Some(now + timeout), 0, false, false, Head, now, None)
  }

  // A disabled action does nothing.
  function Step(s: State, a: Action, timeout: int): State {
    match a
    case Wait(until) => if s.now <= until then s.(now := until) else s
    case Fire =>
      if s.deadline.Some? && s.deadline.value <= s.now
      then s.(deadline := None, ticks := if s.ticks == 0 then 1 else s.ticks) else s
    case Touch => s.(reset := true, touched := Some(s.now))
    case Shutdown => s.(done := true)
    case TakeDone => if s.pc.Head? && s.done then s.(pc := Gone, deadline := None) else s
    case TakeTick => if s.pc.Head? && s.ticks > 0 then s.(pc := Idle(s.now), ticks := s.ticks - 1) else s
    case TakeReset => if s.pc.Head? && s.reset then s.(pc := Stopping, reset := false, consumed := s.now) else s
    case Stop =>
      if !s.pc.Stopping? then s
      else if s.deadline.Some? then s.(deadline := None, pc := Resetting)
      else s.(pc := Draining)
    case Drain => if s.pc.Draining? && s.ticks > 0 then s.(pc := Resetting, ticks := s.ticks - 1) else s
    case Reset => if s.pc.Resetting? then s.(pc := Head, deadline := Some(s.now + timeout)) else s
  }

  function Run(s: State, actions: seq<Action>, timeout: int): State {
    if actions == [] then s
    else Step(Run(s, actions[..|actions| - 1], timeout), actions[|actions| - 1], timeout)
  }

  // Running with an empty channel, or expired with one unread tick.
  predicate Armed(s: State) {
    if s.deadline.Some? then s.ticks == 0 else s.ticks == 1
  }

  predicate TimerOk(s: State, timeout: int) {
    && s.consumed <= s.now
    && match s.pc
       case Head =>
         && timeout > 0 && Armed(s)
         && (s.deadline.Some? ==> s.consumed + timeout <= s.deadline.value)
         && (s.deadline.None? ==> s.consumed + timeout <= s.now)
       case Stopping => timeout > 0 && Armed(s)
       case Draining => timeout > 0 && s.deadline.None? && s.ticks == 1
       case Resetting => timeout > 0 && s.deadline.None? && s.ticks == 0
       case Idle(at) => timeout > 0 && s.consumed + timeout <= at <= s.now
       case Gone => true
  }

  // A touch the watcher has not answered yet left its token in the channel.
  predicate TouchesOk(s: State) {
    s.touched.Some? ==> s.touched.value <= s.now && (s.reset || s.touched.value <= s.consumed)
  }

  lemma StepOk(s: State, a: Action, timeout: int)
    requires TimerOk(s, timeout) && TouchesOk(s)
    ensures TimerOk(Step(s, a, timeout), timeout) && TouchesOk(Step(s, a, timeout))
  {}

  lemma {:induction false} RunOk(now: int, actions: seq<Action>, timeout: int)
    ensures TimerOk(Run(Start(now, timeout), actions, timeout), timeout)
    ensures TouchesOk(Run(Start(now, timeout), actions, timeout))
  {
    if actions != [] {
      hide Step, TimerOk, TouchesOk;
      var front := actions[..|actions| - 1];
      RunOk(now, front, timeout);
      StepOk(Run(Start(now, timeout), front, timeout), actions[|actions| - 1], timeout);
    }
  }

  // At the select the timer is running or has one unread tick, so the drain after a failed Stop
  // never blocks, and neither does any other step between taking a reset and the next select.
  lemma DrainNeverBlocks(now: int, actions: seq<Action>, timeout: int)
    ensures var s := Run(Start(now, timeout), actions, timeout);
      && (s.pc.Head? ==> Armed(s))
      && (s.pc.Stopping? ==> Step(s, Stop, timeout).pc == if s.deadline.Some? then Resetting else Draining)
      && (s.pc.Draining? ==> Step(s, Drain, timeout).pc == Resetting && Step(s, Drain, timeout).ticks == 0)
      && (s.pc.Resetting? ==>
           Step(s, Reset, timeout).pc == Head && Step(s, Reset, timeout).deadline == Some(s.now + timeout))
  {
    RunOk(now, actions, timeout);
  }

  // Being disconnected for inactivity means that IdleTimeout has passed since the last reset the
  // watcher took. If moreover no token waits, it has passed since the last touch of all.
  lemma IdleMeansIdle(now: int, actions: seq<Action>, timeout: int)
    ensures var s, t := Run(Start(now, timeout), actions, timeout),
      Run(Start(now, timeout), actions + [TakeTick], timeout);
      t.pc.Idle? && !s.pc.Idle? ==>
        && timeout > 0 && t.pc.at == s.now && s.now - s.consumed >= timeout
        && (s.touched.Some? && s.now - s.touched.value < timeout ==> s.reset)
  {
    assert (actions + [TakeTick])[..|actions|] == actions;
    RunOk(now, actions, timeout);
  }

  // Whether the last touch came after the last reset the watcher took.
  predicate Unanswered(now: int, actions: seq<Action>, timeout: int) {
    actions != []
    && var front, a := actions[..|actions| - 1], actions[|actions| - 1];
       a.Touch? || (Unanswered(now, front, timeout) &&
         !(a.TakeReset? && Run(Start(now, timeout), front, timeout).pc.Head?))
  }

  lemma {:induction false} TokenIsUnanswered(now: int, actions: seq<Action>, timeout: int)
    ensures Run(Start(now, timeout), actions, timeout).reset <==> Unanswered(now, actions, timeout)
  {
    if actions != [] {
      TokenIsUnanswered(now, actions[..|actions| - 1], timeout);
    }
  }

  // With a tick waiting at the select, a touch can lose exactly when a token waits: then the
  // watcher may drop the client with the touch unanswered, or answer it and rearm the timer; without
  // a token every touch has been answered.
  lemma TouchLosesWhen(now: int, actions: seq<Action>, timeout: int)
    requires var s := Run(Start(now, timeout), actions, timeout); s.pc.Head? && s.ticks > 0
    ensures var s := Run(Start(now, timeout), actions, timeout);
      var dropped, answered := Step(s, TakeTick, timeout), Step(s, TakeReset, timeout);
      && (Unanswered(now, actions, timeout) <==> s.reset)
      && dropped.pc.Idle? && dropped.reset == s.reset
      && (s.reset <==> answered.pc.Stopping? && answered.consumed == s.now && !answered.reset)
  {
    TokenIsUnanswered(now, actions, timeout);
    hide Run, Unanswered;
  }

  // The token does not save the client: with a tick and a token both waiting, the select may take the tick.
  lemma JustTouchedCanBeDropped(now: int, timeout: int)
    requires timeout > 0
    ensures var s := Run(Start(now, timeout), [Wait(now + timeout), Fire, Touch, TakeTick], timeout);
      s.pc == Idle(now + timeout) && s.touched == Some(now + timeout)
  {
    var all := [Wait(now + timeout), Fire, Touch, TakeTick];
    assert all[..3] == [Wait(now + timeout), Fire, Touch] && all[..3][..2] == [Wait(now + timeout), Fire];
    assert all[..3][..2][..1] == [Wait(now + timeout)] && [Wait(now + timeout)][..0] == [];
    assert Run(Start(now, timeout), all[..3][..2][..1], timeout).now == now + timeout;
    assert Run(Start(now, timeout), all[..3][..2], timeout).ticks == 1;
  }

  // A client that is left alone is disconnected: once the deadline has passed, and nothing else
  // happens, firing and taking the tick is possible; and a timeout of zero or less disables the watcher.
  lemma SilenceIsNoticed(now: int, actions: seq<Action>, timeout: int)
    ensures var s := Run(Start(now, timeout), actions, timeout);
      && (timeout <= 0 ==> s.pc == Gone)
      && (s.pc.Head? ==>
            var late := if s.deadline.Some? && s.now < s.deadline.value then s.deadline.value else s.now;
            Step(Step(Step(s, Wait(late), timeout), Fire, timeout), TakeTick, timeout).pc == Idle(late))
  {
    RunOk(now, actions, timeout);
    if timeout <= 0 { Disabled(now, actions, timeout); }
  }

  // A client that is shut down takes its watcher along: at the select it can always end, and its timer
  // with it, and it never comes back.
  lemma WatcherEnds(now: int, actions: seq<Action>, timeout: int, later: Action)
    ensures var s := Run(Start(now, timeout), actions, timeout);
      var ended := Step(Step(s, Shutdown, timeout), TakeDone, timeout);
      && (s.pc.Head? ==> ended.pc == Gone && ended.deadline.None? && ended.done)
      && (s.pc.Gone? ==> Step(s, later, timeout).pc == Gone)
  {
    RunOk(now, actions, timeout);
    hide Run;
  }

  lemma {:induction false} Disabled(now: int, actions: seq<Action>, timeout: int)
    requires timeout <= 0
    ensures Run(Start(now, timeout), actions, timeout).pc == Gone
  {
    if actions != [] {
      Disabled(now, actions[..|actions| - 1], timeout);
    }
  }
}
