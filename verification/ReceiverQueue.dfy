/** The retry channel as a queue: how long a due message waits, in calls and in
    time, and when the blocking re-send inside `Consume` blocks for good. */
module ReceiverQueue {
  import opened Common
  import opened Models
  import opened Receiver

  ghost predicate Fits(c: Config, s: State) { |s.retryChan| <= c.capacity }

  lemma {:induction false} ChannelAlwaysFits(c: Config, s: State, run: seq<Label>)
    requires Fits(c, s) && Legal(c, s, run)
    ensures Fits(c, After(c, s, run))
    decreases run
  {
    if run != [] {
      ChannelAlwaysFits(c, Next(c, s, run[0]), run[1..]);
    }
  }

  // ----- bounded waiting -----

  /** The steps with which a `Consume` call returns. */
  predicate Completes(l: Label) { l.Release? || l.ReadFresh? || l.ReadGarbage? || l.ReadError? }

  function Completions(run: seq<Label>): nat {
    if run == [] then 0 else (if Completes(run[0]) then 1 else 0) + Completions(run[1..])
  }

  /** A `Consume` call is in progress and past its receive. */
  predicate MidCall(s: State) { s.consumer.Received? || s.consumer.Resending? || s.consumer.Reading? }

  /** Some step of the run delivers exactly `m`. */
  predicate DeliversIn(c: Config, s: State, run: seq<Label>, m: Message)
    requires Legal(c, s, run)
    decreases run
  {
    run != [] && ((run[0].Release? && s.consumer.msg == m) || DeliversIn(c, Next(c, s, run[0]), run[1..], m))
  }

  /** A receive moves every other message one place forward; no other step
      moves any message, pushes and re-sends go behind the last one. */
  lemma StepRotates(c: Config, s: State, l: Label, p: nat)
    requires Enabled(c, s, l) && p < |s.retryChan|
    ensures var n := Next(c, s, l);
            if !l.Receive? then p < |n.retryChan| && n.retryChan[p] == s.retryChan[p]
            else if p == 0 then n.consumer == Received(s.retryChan[0])
            else p - 1 < |n.retryChan| && n.retryChan[p - 1] == s.retryChan[p]
  {
  }

  lemma {:induction false} DueIsReleased(c: Config, s: State, run: seq<Label>, m: Message)
    requires Legal(c, s, run) && s.consumer == Received(m) && s.now > m.retryAfter
    requires Completions(run) >= 1
    ensures DeliversIn(c, s, run, m)
    decreases run
  {
    if !run[0].Release? {
      DueIsReleased(c, Next(c, s, run[0]), run[1..], m);
    }
  }

  /** A due message at position `p` is delivered by the time `p + 1` more
      `Consume` calls that started after now have returned, whatever the other
      goroutines and the clock do in between. */
  lemma {:induction false} DueIsDelivered(c: Config, s: State, run: seq<Label>, p: nat)
    requires Legal(c, s, run) && p < |s.retryChan| && s.now > s.retryChan[p].retryAfter
    requires Completions(run) >= p + 1 + if MidCall(s) then 1 else 0
    ensures DeliversIn(c, s, run, s.retryChan[p])
    decreases run
  {
    var l, m := run[0], s.retryChan[p];
    var n := Next(c, s, l);
    StepRotates(c, s, l, p);
    if l.Receive? && p == 0 {
      DueIsReleased(c, n, run[1..], m);
    } else if l.Receive? {
      DueIsDelivered(c, n, run[1..], p - 1);
    } else {
      DueIsDelivered(c, n, run[1..], p);
    }
  }

  /** In every reachable state, a due message in the channel is delivered
      within as many further `Consume` calls as the channel has places. */
  lemma BoundedWaiting(c: Config, start: int, past: seq<Label>, run: seq<Label>, p: nat)
    requires Legal(c, Init(start), past)
    requires var s := After(c, Init(start), past);
             && Legal(c, s, run) && p < |s.retryChan| && s.now > s.retryChan[p].retryAfter
             && Completions(run) >= c.capacity + if MidCall(s) then 1 else 0
    ensures var s := After(c, Init(start), past);
            DeliversIn(c, s, run, s.retryChan[p])
  {
    ChannelAlwaysFits(c, Init(start), past);
    DueIsDelivered(c, After(c, Init(start), past), run, p);
  }

  /** The message the consumer holds is another one than those that wait. */
  lemma WaitingIsNotHeld(s: State, p: nat)
    requires Conserved(s) && p < |s.retryChan| && !s.consumer.Idle? && !s.consumer.Reading?
    ensures s.consumer.msg.id != s.retryChan[p].id
  {
    var id := s.retryChan[p].id;
    CountPresent(Ids(s.retryChan), p);
    assert Tally(s, id) <= 1;
  }

  lemma {:induction false} DeliveryCompletes(c: Config, s: State, run: seq<Label>, m: Message)
    requires Legal(c, s, run) && DeliversIn(c, s, run, m)
    ensures Completions(run) >= 1
    decreases run
  {
    if !run[0].Release? {
      DeliveryCompletes(c, Next(c, s, run[0]), run[1..], m);
    }
  }

  /** A message at position `p` is not delivered earlier, due or not. */
  lemma {:induction false} NeedsCompletions(c: Config, s: State, run: seq<Label>, p: nat)
    requires Conserved(s) && Faithful(s) && Legal(c, s, run) && p < |s.retryChan|
    requires DeliversIn(c, s, run, s.retryChan[p])
    ensures Completions(run) >= p + 1 + if MidCall(s) then 1 else 0
    decreases run
  {
    var l := run[0];
    var n := Next(c, s, l);
    StepRotates(c, s, l, p);
    StepConserves(c, s, l);
    StepFaithful(c, s, l);
    if l.Release? {
      WaitingIsNotHeld(s, p);
    }
    if l.Receive? && p == 0 {
      DeliveryCompletes(c, n, run[1..], s.retryChan[0]);
    } else {
      NeedsCompletions(c, n, run[1..], if l.Receive? then p - 1 else p);
    }
  }

  /** Exactly when a run from a reachable state delivers a message that is due
      at position `p`: when `p + 1` calls of `Consume` return, one already past
      its receive not counted. */
  lemma DeliveredIff(c: Config, start: int, past: seq<Label>, run: seq<Label>, p: nat)
    requires Legal(c, Init(start), past)
    requires var s := After(c, Init(start), past);
             Legal(c, s, run) && p < |s.retryChan| && s.now > s.retryChan[p].retryAfter
    ensures var s := After(c, Init(start), past);
            DeliversIn(c, s, run, s.retryChan[p]) <==> Completions(run) >= p + 1 + if MidCall(s) then 1 else 0
  {
    var s := After(c, Init(start), past);
    if DeliversIn(c, s, run, s.retryChan[p]) {
      Conservation(c, Init(start), past);
      NeedsCompletions(c, s, run, p);
    } else if Completions(run) >= p + 1 + if MidCall(s) then 1 else 0 {
      DueIsDelivered(c, s, run, p);
    }
  }

  /** While `Consume` waits for Kafka it looks at nothing else: until a read
      returns, every message in the channel stays in its place. */
  lemma {:induction false} ReadingHolds(c: Config, s: State, run: seq<Label>)
    requires s.consumer.Reading? && Legal(c, s, run) && Completions(run) == 0
    ensures After(c, s, run).consumer.Reading? && s.retryChan <= After(c, s, run).retryChan
    decreases run
  {
    if run != [] {
      ReadingHolds(c, Next(c, s, run[0]), run[1..]);
    }
  }

  // ----- the blocking re-send -----

  /** The consumer is stuck in the re-send: the channel is full. */
  predicate Blocked(c: Config, s: State) { s.consumer.Resending? && |s.retryChan| >= c.capacity }

  /** How many pushes of the run found room in the channel. */
  function Pushed(c: Config, s: State, run: seq<Label>): nat
    requires Legal(c, s, run)
    decreases run
  {
    if run == [] then 0
    else (if run[0].Push? && |s.retryChan| < c.capacity then 1 else 0) + Pushed(c, Next(c, s, run[0]), run[1..])
  }

  /** The consumer keeps the message it received during the run. */
  predicate Keeps(run: seq<Label>) {
    forall l :: l in run ==> !l.Release? && !l.Resend?
  }

  lemma {:induction false} HeldLength(c: Config, s: State, run: seq<Label>)
    requires Legal(c, s, run) && Keeps(run) && (s.consumer.Received? || s.consumer.Resending?)
    ensures |After(c, s, run).retryChan| == |s.retryChan| + Pushed(c, s, run)
    decreases run
  {
    if run != [] {
      assert run[0] in run;
      HeldLength(c, Next(c, s, run[0]), run[1..]);
    }
  }

  /** Exactly when the re-send blocks: when, since the receive from a channel
      of length `n`, at least `capacity + 1 - n` pushes went through. Without
      any push in between it never does. */
  lemma BlockedIffOvertaken(c: Config, s: State, run: seq<Label>)
    requires Fits(c, s) && Enabled(c, s, Receive)
    requires Legal(c, Next(c, s, Receive), run) && Keeps(run)
    requires After(c, Next(c, s, Receive), run).consumer.Resending?
    ensures var n := Next(c, s, Receive);
            && (Blocked(c, After(c, n, run)) <==> Pushed(c, n, run) >= c.capacity + 1 - |s.retryChan|)
            && (Pushed(c, n, run) == 0 ==> Enabled(c, After(c, n, run), Resend))
  {
    HeldLength(c, Next(c, s, Receive), run);
  }

  /** Once blocked, always blocked: `Consume` is the only receiver, so nothing
      is received, read or delivered any more, whatever else happens. */
  lemma {:induction false} BlockedForever(c: Config, s: State, run: seq<Label>)
    requires Blocked(c, s) && Legal(c, s, run)
    ensures var e := After(c, s, run);
            && Blocked(c, e) && e.consumer == s.consumer && e.retryChan == s.retryChan
            && e.deliveries == s.deliveries && e.nextId == s.nextId && e.calls == s.calls
    decreases run
  {
    if run != [] {
      BlockedForever(c, Next(c, s, run[0]), run[1..]);
    }
  }

  /** A step of the consuming goroutine. */
  predicate ConsumerStep(l: Label) { !l.Tick? && !l.Succeed? && !l.Fail? && !l.Push? && !l.Ack? }

  /** In every state the consumer can go on unless it is blocked in its re-send;
      and no other goroutine ever waits: it can end its processing either way,
      offer its retry, or acknowledge. */
  lemma OnlyTheResendWaits(c: Config, s: State)
    ensures (exists l :: ConsumerStep(l) && Enabled(c, s, l)) <==> !Blocked(c, s)
    ensures forall g :: 0 <= g < |s.goroutines| ==>
                          match s.goroutines[g]
                          case Processing(_) => Enabled(c, s, Succeed(g)) && Enabled(c, s, Fail(g))
                          case Offering(_, _) => Enabled(c, s, Push(g))
                          case Acking(_) => Enabled(c, s, Ack(g))
  {
    if !Blocked(c, s) {
      var l := match s.consumer
               case Idle => if s.retryChan == [] then SkipRetries else Receive
               case Received(m) => if s.now > m.retryAfter then Release else NotYet
               case Resending(_) => Resend
               case Reading => ReadError
               case Consumed(_) => Spawn;
      assert ConsumerStep(l) && Enabled(c, s, l);
    }
  }

  ghost predicate CanBlock(c: Config, start: int) {
    exists run :: Legal(c, Init(start), run) && Blocked(c, After(c, Init(start), run))
  }

  /** Nothing ever gets into the channel. */
  ghost predicate NothingQueued(c: Config, s: State) {
    && (c.capacity == 0 || c.maxRetries <= 0)
    && s.retryChan == [] && !s.consumer.Received? && !s.consumer.Resending?
    && (c.maxRetries <= 0 ==> forall i :: 0 <= i < |s.goroutines| ==> !s.goroutines[i].Offering?)
  }

  lemma {:induction false} NothingQueuedForever(c: Config, s: State, run: seq<Label>)
    requires NothingQueued(c, s) && Legal(c, s, run)
    ensures NothingQueued(c, After(c, s, run))
    decreases run
  {
    if run != [] {
      NothingQueuedForever(c, Next(c, s, run[0]), run[1..]);
    }
  }

  /** With a negative backoff every retried message is due at once. */
  ghost predicate AllDue(c: Config, s: State) {
    && c.backoff < 0 && !s.consumer.Resending?
    && (s.consumer.Received? ==> s.consumer.msg.retryAfter < s.now)
    && (forall i :: 0 <= i < |s.retryChan| ==> s.retryChan[i].retryAfter < s.now)
    && (forall i :: 0 <= i < |s.goroutines| && s.goroutines[i].Offering? ==>
                      s.goroutines[i].retried.retryAfter < s.now)
  }

  lemma {:induction false} AllDueForever(c: Config, s: State, run: seq<Label>)
    requires AllDue(c, s) && Legal(c, s, run)
    ensures AllDue(c, After(c, s, run))
    decreases run
  {
    if run != [] {
      AllDueForever(c, Next(c, s, run[0]), run[1..]);
    }
  }

  /** A quiet moment: nothing is in progress, `k` messages wait, none is due. */
  ghost predicate Calm(s: State, k: nat) {
    && s.consumer.Idle? && s.goroutines == [] && |s.retryChan| == k
    && forall i :: 0 <= i < |s.retryChan| ==> s.retryChan[i].retryAfter >= s.now
  }

  /** One fruitless look at the channel. */
  lemma GoRound(c: Config, s: State, k: nat) returns (run: seq<Label>)
    requires Calm(s, k) && k <= c.capacity
    ensures Legal(c, s, run)
    ensures var e := After(c, s, run);
            && e.consumer.Reading? && e.goroutines == [] && |e.retryChan| == k && e.now == s.now
            && forall i :: 0 <= i < k ==> e.retryChan[i].retryAfter >= s.now
  {
    if k == 0 {
      Prepend(c, s, SkipRetries, []);
      run := [SkipRetries] + [];
    } else {
      var s1 := Next(c, s, Receive);
      var s2 := Next(c, s1, NotYet);
      var s3 := Next(c, s2, Resend);
      Prepend(c, s2, Resend, []);
      Prepend(c, s1, NotYet, [Resend] + []);
      run := [NotYet] + ([Resend] + []);
      Prepend(c, s, Receive, run);
      run := [Receive] + run;
    }
  }

  /** A new message is read, processed in vain, and about to be pushed. */
  lemma FailOne(c: Config, s: State, v: Order) returns (run: seq<Label>)
    requires s.consumer.Reading? && s.goroutines == [] && c.maxRetries >= 1
    ensures Legal(c, s, run)
    ensures var e := After(c, s, run);
            && e.consumer.Idle? && e.retryChan == s.retryChan && e.now == s.now
            && |e.goroutines| == 1 && e.goroutines[0].Offering?
            && e.goroutines[0].retried.retryAfter == s.now + c.backoff
  {
    var s1 := Next(c, s, ReadFresh(v));
    var s2 := Next(c, s1, Spawn);
    assert s2.goroutines == [Processing(NewFreshMessage(s.nextId, v))];
    Prepend(c, s2, Fail(0), []);
    Prepend(c, s1, Spawn, [Fail(0)] + []);
    run := [Spawn] + ([Fail(0)] + []);
    Prepend(c, s, ReadFresh(v), run);
    run := [ReadFresh(v)] + run;
  }

  /** The bound on waiting is in calls, not in time: for every `d` there is a
      run after which the channel holds a message that has been due for longer
      than `d`, although at the end only the clock has moved. */
  lemma DueWaitsForTraffic(c: Config, start: int, v: Order, d: nat) returns (past: seq<Label>, wait: nat)
    requires c.capacity >= 1 && c.maxRetries >= 1
    ensures Legal(c, Init(start), past)
    ensures var s := After(c, Init(start), past);
            && s.consumer.Reading? && |s.retryChan| == 1
            && Legal(c, s, [Tick(wait)])
            && var e := After(c, s, [Tick(wait)]);
               && e.consumer.Reading? && e.retryChan == s.retryChan
               && e.now > e.retryChan[0].retryAfter + d
  {
    var first := GoRound(c, Init(start), 0);
    var second := FailOne(c, After(c, Init(start), first), v);
    past := first + second;
    Append(c, Init(start), first, second);
    var s := After(c, Init(start), past);
    var s1 := Next(c, s, SkipRetries);
    var s2 := Next(c, s1, Push(0));
    Prepend(c, s1, Push(0), []);
    Prepend(c, s, SkipRetries, [Push(0)] + []);
    Append(c, Init(start), past, [SkipRetries] + ([Push(0)] + []));
    past := past + ([SkipRetries] + ([Push(0)] + []));
    wait := Max(c.backoff, 0) + d + 1;
    Prepend(c, s2, Tick(wait), []);
    assert [Tick(wait)] + [] == [Tick(wait)];
  }

  /** From a quiet moment to one more goroutine about to push. */
  lemma OneMoreFailure(c: Config, s: State, k: nat, v: Order) returns (run: seq<Label>)
    requires Calm(s, k) && k <= c.capacity && c.maxRetries >= 1 && c.backoff >= 0
    ensures Legal(c, s, run)
    ensures var e := After(c, s, run);
            && e.consumer.Idle? && |e.goroutines| == 1 && e.goroutines[0].Offering?
            && e.goroutines[0].retried.retryAfter >= e.now
            && |e.retryChan| == k && forall i :: 0 <= i < k ==> e.retryChan[i].retryAfter >= e.now
  {
    var first := GoRound(c, s, k);
    var second := FailOne(c, After(c, s, first), v);
    Append(c, s, first, second);
    run := first + second;
  }

  lemma {:induction false} FillTo(c: Config, start: int, k: nat, v: Order) returns (run: seq<Label>)
    requires k <= c.capacity && c.maxRetries >= 1 && c.backoff >= 0
    ensures Legal(c, Init(start), run) && Calm(After(c, Init(start), run), k)
  {
    run := [];
    if k > 0 {
      run := FillTo(c, start, k - 1, v);
      var s := After(c, Init(start), run);
      var more := OneMoreFailure(c, s, k - 1, v);
      var t := After(c, s, more);
      Prepend(c, t, Push(0), []);
      Append(c, s, more, [Push(0)] + []);
      Append(c, Init(start), run, more + ([Push(0)] + []));
      run := run + (more + ([Push(0)] + []));
    }
  }

  /** The bound of the waiting is reached: a full channel whose last message is
      due, and which no run delivers before that many calls have returned. */
  lemma BoundIsTight(c: Config, start: int, v: Order) returns (past: seq<Label>)
    requires c.capacity >= 1 && c.maxRetries >= 1 && c.backoff >= 0
    ensures Legal(c, Init(start), past)
    ensures var s, last := After(c, Init(start), past), c.capacity - 1;
            && |s.retryChan| == c.capacity && !MidCall(s) && s.now > s.retryChan[last].retryAfter
            && forall run :: Legal(c, s, run) ==>
                               (DeliversIn(c, s, run, s.retryChan[last]) <==> Completions(run) >= c.capacity)
  {
    var fill := FillTo(c, start, c.capacity, v);
    var last := c.capacity - 1;
    var s := After(c, Init(start), fill);
    var wait := Max(s.retryChan[last].retryAfter + 1 - s.now, 0);
    Prepend(c, s, Tick(wait), []);
    Append(c, Init(start), fill, [Tick(wait)] + []);
    past := fill + ([Tick(wait)] + []);
    var e := After(c, Init(start), past);
    forall run | Legal(c, e, run)
      ensures DeliversIn(c, e, run, e.retryChan[last]) <==> Completions(run) >= c.capacity
    {
      DeliveredIff(c, start, past, run, last);
    }
  }

  lemma BlockingRun(c: Config, start: int, v: Order) returns (run: seq<Label>)
    requires c.capacity >= 1 && c.maxRetries >= 1 && c.backoff >= 0
    ensures Legal(c, Init(start), run) && Blocked(c, After(c, Init(start), run))
  {
    var fill := FillTo(c, start, c.capacity, v);
    var s := After(c, Init(start), fill);
    var more := OneMoreFailure(c, s, c.capacity, v);
    var t := After(c, s, more);
    var t1 := Next(c, t, Receive);
    var t2 := Next(c, t1, NotYet);
    Prepend(c, t2, Push(0), []);
    Prepend(c, t1, NotYet, [Push(0)] + []);
    var last := [NotYet] + ([Push(0)] + []);
    Prepend(c, t, Receive, last);
    last := [Receive] + last;
    Append(c, s, more, last);
    Append(c, Init(start), fill, more + last);
    run := fill + (more + last);
  }

  /** The consumer can get stuck for good exactly when there is room to queue,
      something to queue, and a queued message may not be due yet. */
  lemma CanBlockIff(c: Config, start: int, v: Order)
    ensures CanBlock(c, start) <==> c.capacity >= 1 && c.maxRetries >= 1 && c.backoff >= 0
  {
    if c.capacity >= 1 && c.maxRetries >= 1 && c.backoff >= 0 {
      var run := BlockingRun(c, start, v);
    } else {
      forall run | Legal(c, Init(start), run) ensures !Blocked(c, After(c, Init(start), run)) {
        if c.backoff < 0 {
          AllDueForever(c, Init(start), run);
        } else {
          NothingQueuedForever(c, Init(start), run);
        }
      }
    }
  }
}
