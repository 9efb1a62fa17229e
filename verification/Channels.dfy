// A bounded, drop-on-full Go channel with one writer loop reading it, together with its past.
// Both chat engines use it: chat.Client.send and ws.Conn.send.
module Channels {
  // a can be obtained from b by deleting elements.
  predicate Subseq<T(==)>(a: seq<T>, b: seq<T>) {
    if a == [] then true
    else if b == [] then false
    else
      (a[|a| - 1] == b[|b| - 1] && Subseq(a[..|a| - 1], b[..|b| - 1])) || Subseq(a, b[..|b| - 1])
  }

  lemma SubseqDrop<T>(a: seq<T>, b: seq<T>, x: T)
    requires Subseq(a, b)
    ensures Subseq(a, b + [x])
  {
    assert (b + [x])[..|b|] == b;
  }

  lemma SubseqKeep<T>(a: seq<T>, b: seq<T>, x: T)
    requires Subseq(a, b)
    ensures Subseq(a + [x], b + [x])
  {
    assert (b + [x])[..|b|] == b && (a + [x])[..|a|] == a;
  }

  lemma {:induction false} SubseqLength<T>(a: seq<T>, b: seq<T>)
    requires Subseq(a, b)
    ensures |a| <= |b|
    ensures |a| == |b| ==> a == b
    decreases |b|
  {
    if a != [] {
      var b' := b[..|b| - 1];
      if Subseq(a, b') {
        SubseqLength(a, b');
      } else {
        SubseqLength(a[..|a| - 1], b');
        assert a == a[..|a| - 1] + [a[|a| - 1]] && b == b' + [b[|b| - 1]];
      }
    }
  }

  // Every Send call, every accepted element, how many of those the writer took, and whether
  // the owner was shut down. What waits in the channel is accepted[taken..].
  datatype Outbox<T(==)> = Outbox(calls: seq<T>, accepted: seq<T>, taken: nat, closed: bool) {
    predicate Valid(cap: nat) {
      taken <= |accepted| <= taken + cap && Subseq(accepted, calls)
    }

    function Queue(): seq<T>
      requires taken <= |accepted|
    {
      accepted[taken..]
    }

    function Push(x: T, cap: nat): Outbox<T> {
      Outbox(calls + [x],
             if !closed && |accepted| < taken + cap then accepted + [x] else accepted,
             taken, closed)
    }

    function Take(): Outbox<T> {
      if taken < |accepted| then this.(taken := taken + 1) else this
    }

    function Close(): Outbox<T> {
      this.(closed := true)
    }

    // Nothing was ever dropped.
    predicate Lossless() {
      |accepted| == |calls|
    }
  }

  lemma PushValid<T>(o: Outbox<T>, x: T, cap: nat)
    requires o.Valid(cap)
    ensures o.Push(x, cap).Valid(cap)
  {
    SubseqDrop(o.accepted, o.calls, x);
    SubseqKeep(o.accepted, o.calls, x);
  }

  lemma LosslessIsExact<T>(o: Outbox<T>, cap: nat)
    requires o.Valid(cap) && o.Lossless()
    ensures o.accepted == o.calls
  {
    SubseqLength(o.accepted, o.calls);
  }

  // ---- What a channel takes of what is sent to it

  function Fits<T>(cap: nat, b: Outbox<T>, n: nat): nat {
    if b.closed || b.taken + cap <= |b.accepted| then 0
    else if n <= b.taken + cap - |b.accepted| then n else b.taken + cap - |b.accepted|
  }

  // These are sent one after the other; those that find the channel full are lost.
  ghost predicate Queues<T>(cap: nat, b: Outbox<T>, b': Outbox<T>, xs: seq<T>) {
    && b'.calls == b.calls + xs && b'.taken == b.taken && b'.closed == b.closed
    && b'.accepted == b.accepted + xs[..Fits(cap, b, |xs|)]
  }

  lemma QueuesNothing<T>(cap: nat, b: Outbox<T>)
    ensures Queues(cap, b, b, [])
  {
    assert b.calls + [] == b.calls && b.accepted + [] == b.accepted;
  }

  lemma QueuesOne<T>(cap: nat, b: Outbox<T>, x: T)
    ensures Queues(cap, b, b.Push(x, cap), [x])
  {
    assert [x][..1] == [x] && b.accepted + [] == b.accepted;
  }

  lemma QueuesBoth<T>(cap: nat, a: Outbox<T>, b: Outbox<T>, c: Outbox<T>, first: seq<T>, second: seq<T>)
    requires Queues(cap, a, b, first) && Queues(cap, b, c, second)
    ensures Queues(cap, a, c, first + second)
  {
    var n, m := Fits(cap, a, |first|), Fits(cap, b, |second|);
    assert (first + second)[..n + m] == first[..n] + second[..m];
    assert a.calls + first + second == a.calls + (first + second);
  }

  // ---- Runs of one client: Send, the write loop taking a line, shutdown

  datatype Op<T> = Send(x: T) | Take | Shutdown

  datatype Endpoint<T(==)> = Endpoint(box: Outbox<T>, written: seq<T>, cleanups: nat)

  function Apply<T(==)>(c: Endpoint<T>, op: Op<T>, cap: nat): Endpoint<T> {
    match op
    case Send(x) => c.(box := c.box.Push(x, cap))
    case Take =>
      if c.box.taken < |c.box.accepted|
      then c.(box := c.box.Take(), written := c.written + [c.box.accepted[c.box.taken]])
      else c
    case Shutdown => if c.box.closed then c else c.(box := c.box.Close(), cleanups := c.cleanups + 1)
  }

  function ApplyAll<T(==)>(ops: seq<Op<T>>, cap: nat): Endpoint<T> {
    if ops == [] then Endpoint(Outbox([], [], 0, false), [], 0)
    else Apply(ApplyAll(ops[..|ops| - 1], cap), ops[|ops| - 1], cap)
  }

  function Sent<T>(ops: seq<Op<T>>): seq<T> {
    if ops == [] then []
    else Sent(ops[..|ops| - 1]) + if ops[|ops| - 1].Send? then [ops[|ops| - 1].x] else []
  }

  predicate ShutDown<T>(ops: seq<Op<T>>) {
    ops != [] && (ops[|ops| - 1].Shutdown? || ShutDown(ops[..|ops| - 1]))
  }

  ghost predicate Ran<T>(c: Endpoint<T>, sent: seq<T>, stopped: bool, cap: nat) {
    && c.written <= c.box.accepted && |c.written| == c.box.taken
    && Subseq(c.box.accepted, sent) && |c.box.accepted| - |c.written| <= cap
    && c.box.calls == sent
    && c.box.closed == stopped && c.cleanups == if stopped then 1 else 0
  }

  lemma RanStep<T>(c: Endpoint<T>, sent: seq<T>, stopped: bool, cap: nat, op: Op<T>)
    requires Ran(c, sent, stopped, cap)
    ensures Ran(Apply(c, op, cap), if op.Send? then sent + [op.x] else sent, stopped || op.Shutdown?, cap)
  {
    if op.Send? {
      SubseqDrop(c.box.accepted, sent, op.x);
      SubseqKeep(c.box.accepted, sent, op.x);
    }
    hide Subseq;
  }

  // Over any run the written lines are a prefix of the accepted lines, those are a subsequence
  // of the Send calls in order, the channel never exceeds its capacity, and cleanup ran once
  // exactly when the client is shut down.
  lemma {:induction false} QueueRun<T>(ops: seq<Op<T>>, cap: nat)
    ensures Ran(ApplyAll(ops, cap), Sent(ops), ShutDown(ops), cap)
  {
    if ops != [] {
      hide Ran, Apply;
      var front, op := ops[..|ops| - 1], ops[|ops| - 1];
      QueueRun(front, cap);
      RanStep(ApplyAll(front, cap), Sent(front), ShutDown(front), cap, op);
      assert Sent(ops) == if op.Send? then Sent(front) + [op.x] else Sent(front);
    }
  }

  // A line is accepted exactly when the client is open and fewer than cap lines wait.
  lemma SendAccepts<T>(ops: seq<Op<T>>, x: T, cap: nat)
    ensures var c, c' := ApplyAll(ops, cap), ApplyAll(ops + [Send(x)], cap);
      && c'.written == c.written
      && c'.box.accepted == c.box.accepted
           + if !ShutDown(ops) && |c.box.accepted| - |c.written| < cap then [x] else []
  {
    QueueRun(ops, cap);
    assert (ops + [Send(x)])[..|ops|] == ops;
    hide Subseq, ShutDown;
  }

  function Takes<T>(n: nat): seq<Op<T>> {
    seq(n, _ => Take)
  }

  function FirstOf<T>(s: seq<T>, n: nat): seq<T> {
    if n <= |s| then s[..n] else s
  }

  lemma OneTake<T>(c: Endpoint<T>, cap: nat)
    requires c.written <= c.box.accepted && |c.written| == c.box.taken
    ensures var t := Apply(c, Take, cap);
      && t.box.accepted == c.box.accepted && t.written == FirstOf(c.box.accepted, |c.written| + 1)
      && |t.written| == t.box.taken
  {}

  // The write loop takes the oldest waiting line each time: n takes write the next n accepted lines, as far
  // as there are any, so in the end everything accepted is written, in order.
  lemma {:induction false} TakesWrite<T>(ops: seq<Op<T>>, n: nat, cap: nat)
    ensures var c, c' := ApplyAll(ops, cap), ApplyAll(ops + Takes(n), cap);
      && c'.box.accepted == c.box.accepted && |c'.written| == c'.box.taken
      && c'.written == FirstOf(c.box.accepted, |c.written| + n)
  {
    hide Subseq, ShutDown, Sent, Apply;
    QueueRun(ops, cap);
    if n == 0 {
      assert ops + Takes(0) == ops;
    } else {
      TakesWrite(ops, n - 1, cap);
      var before := ops + Takes(n - 1);
      assert (ops + Takes(n))[..|before|] == before && (ops + Takes(n))[|before|] == Take;
      OneTake(ApplyAll(before, cap), cap);
    }
  }

  // Nothing is accepted after shutdown, and cleanup is not repeated.
  lemma {:induction false} NothingAfterShutdown<T>(ops: seq<Op<T>>, later: seq<Op<T>>, cap: nat)
    requires ShutDown(ops)
    ensures ApplyAll(ops + later, cap).box.accepted == ApplyAll(ops, cap).box.accepted
    ensures ApplyAll(ops + later, cap).cleanups == 1 && ApplyAll(ops + later, cap).box.closed
  {
    hide Sent, ShutDown, Subseq;
    if later == [] {
      assert ops + later == ops;
      QueueRun(ops, cap);
    } else {
      var before := later[..|later| - 1];
      assert (ops + later)[..|ops + later| - 1] == ops + before;
      NothingAfterShutdown(ops, before, cap);
    }
  }
}
