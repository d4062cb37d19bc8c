/** How often and when a message is delivered and processed, over every run of
    the receiver. */
module ReceiverHistory {
  import opened Common
  import opened Receiver
  import opened ReceiverTrace

  /** How many times one message can be processed at most. */
  function MaxAttempts(c: Config): nat { Max(c.maxRetries, 0) + 1 }

  /** Consecutive deliveries lie more than one backoff apart. */
  ghost predicate Spaced(backoff: int, h: seq<int>) {
    forall i :: 0 < i < |h| ==> h[i] > h[i - 1] + backoff
  }

  type Log = map<nat, seq<int>>

  ghost predicate EntryOk(c: Config, h: seq<int>, now: int, calls: nat) {
    && 1 <= |h| <= MaxAttempts(c)
    && Spaced(c.backoff, h)
    && h[|h| - 1] <= now
    && calls <= |h|
  }

  ghost predicate LogOk(c: Config, now: int, nextId: nat, log: Log, calls: multiset<nat>) {
    && (forall id :: id in log ==> id < nextId && EntryOk(c, log[id], now, calls[id]))
    && (forall id :: id !in log ==> calls[id] == 0)
  }

  /** A message that waits for its next delivery: its counter says how often it
      was delivered, and it is not due before the last delivery plus the
      backoff. */
  ghost predicate WaitingOk(c: Config, log: Log, m: Message) {
    && m.id in log
    && m.totalTries == |log[m.id]|
    && 1 <= m.totalTries <= c.maxRetries
    && m.retryAfter >= log[m.id][|log[m.id]| - 1] + c.backoff
  }

  /** A message that has been delivered and not yet failed or finished. */
  ghost predicate DeliveredOk(log: Log, m: Message) {
    m.id in log && |log[m.id]| == m.totalTries + 1
  }

  ghost predicate GoroutineOk(c: Config, log: Log, g: Goroutine) {
    && DeliveredOk(log, g.msg)
    && (g.Offering? ==> g.retried.id == g.msg.id && WaitingOk(c, log, g.retried) )
  }

  ghost predicate ConsumerOk(c: Config, log: Log, calls: multiset<nat>, k: Consumer) {
    match k
    case Received(m) => WaitingOk(c, log, m)
    case Resending(m) => WaitingOk(c, log, m)
    case Consumed(m) => DeliveredOk(log, m) && calls[m.id] <= m.totalTries
    case _ => true
  }

  ghost predicate ChannelOk(c: Config, log: Log, ms: seq<Message>) {
    forall i :: 0 <= i < |ms| ==> WaitingOk(c, log, ms[i])
  }

  ghost predicate GoroutinesOk(c: Config, log: Log, gs: seq<Goroutine>) {
    forall i :: 0 <= i < |gs| ==> GoroutineOk(c, log, gs[i])
  }

  ghost predicate Tracked(c: Config, s: State) {
    && LogOk(c, s.now, s.nextId, s.deliveries, s.calls)
    && ChannelOk(c, s.deliveries, s.retryChan)
    && ConsumerOk(c, s.deliveries, s.calls, s.consumer)
    && GoroutinesOk(c, s.deliveries, s.goroutines)
  }

  ghost predicate Inv(c: Config, s: State) {
    Conserved(s) && Faithful(s) && Tracked(c, s)
  }

  /** The id the consumer is about to deliver occurs nowhere else. */
  lemma DeliveredIsAlone(s: State, id: nat)
    requires Conserved(s) && (ConsumerCount(s.consumer, id) == 1 || id == s.nextId)
    ensures forall i :: 0 <= i < |s.retryChan| ==> s.retryChan[i].id != id
    ensures forall i :: 0 <= i < |s.goroutines| ==> s.goroutines[i].msg.id != id
  {
    assert Tally(s, id) == if id < s.nextId then 1 else 0;
    forall i | 0 <= i < |s.retryChan| ensures s.retryChan[i].id != id {
      CountPresent(Ids(s.retryChan), i);
    }
    forall i | 0 <= i < |s.goroutines| ensures s.goroutines[i].msg.id != id {
      CountPresent(GoroutineIds(s.goroutines), i);
    }
  }

  lemma SpacedAppend(backoff: int, h: seq<int>, t: int)
    requires Spaced(backoff, h) && (h != [] ==> t > h[|h| - 1] + backoff)
    ensures Spaced(backoff, h + [t])
  {
  }

  /** Logging a delivery of `id` does not concern the others. */
  lemma DeliveryFrame(c: Config, log: Log, id: nat, h: seq<int>, ms: seq<Message>, gs: seq<Goroutine>)
    requires ChannelOk(c, log, ms) && forall i :: 0 <= i < |ms| ==> ms[i].id != id
    requires GoroutinesOk(c, log, gs) && forall i :: 0 <= i < |gs| ==> gs[i].msg.id != id
    ensures ChannelOk(c, log[id := h], ms) && GoroutinesOk(c, log[id := h], gs)
  {
    forall i | 0 <= i < |gs| ensures GoroutineOk(c, log[id := h], gs[i]) {
      assert GoroutineOk(c, log, gs[i]);
    }
  }

  lemma DeliverTracked(c: Config, s: State, m: Message)
    requires LogOk(c, s.now, s.nextId, s.deliveries, s.calls) && m.id < s.nextId
    requires ChannelOk(c, s.deliveries, s.retryChan) && GoroutinesOk(c, s.deliveries, s.goroutines)
    requires forall i :: 0 <= i < |s.retryChan| ==> s.retryChan[i].id != m.id
    requires forall i :: 0 <= i < |s.goroutines| ==> s.goroutines[i].msg.id != m.id
    requires if m.id in s.deliveries then WaitingOk(c, s.deliveries, m) && s.now > m.retryAfter else m.totalTries == 0
    ensures Tracked(c, Deliver(s, m))
  {
    var h := if m.id in s.deliveries then s.deliveries[m.id] else [];
    assert h != [] ==> EntryOk(c, h, s.now, s.calls[m.id]);
    SpacedAppend(c.backoff, h, s.now);
    DeliveryFrame(c, s.deliveries, m.id, h + [s.now], s.retryChan, s.goroutines);
    assert EntryOk(c, h + [s.now], s.now, s.calls[m.id]);
  }

  lemma SpawnTracked(c: Config, s: State)
    requires Tracked(c, s) && Enabled(c, s, Spawn)
    ensures Tracked(c, Next(c, s, Spawn))
  {
    var m, n := s.consumer.msg, Next(c, s, Spawn);
    assert EntryOk(c, s.deliveries[m.id], s.now, s.calls[m.id]);
    forall id ensures id != m.id ==> n.calls[id] == s.calls[id] {}
    forall id | id in n.deliveries ensures EntryOk(c, n.deliveries[id], n.now, n.calls[id]) {
      assert EntryOk(c, s.deliveries[id], s.now, s.calls[id]);
    }
  }

  lemma RemovedOk(c: Config, log: Log, gs: seq<Goroutine>, i: nat)
    requires GoroutinesOk(c, log, gs) && i < |gs|
    ensures GoroutinesOk(c, log, RemovedAt(gs, i))
  {
    RemovedAtIs(gs, i);
  }

  lemma GoroutineStepTracked(c: Config, s: State, l: Label)
    requires Tracked(c, s) && Enabled(c, s, l) && (l.Succeed? || l.Fail? || l.Push? || l.Ack?)
    ensures Tracked(c, Next(c, s, l))
  {
    var g := s.goroutines[l.g];
    assert GoroutineOk(c, s.deliveries, g);
    RemovedOk(c, s.deliveries, s.goroutines, l.g);
    assert EntryOk(c, s.deliveries[g.msg.id], s.now, s.calls[g.msg.id]);
  }

  lemma TickTracked(c: Config, s: State, d: nat)
    requires Tracked(c, s)
    ensures Tracked(c, s.(now := s.now + d))
  {
    forall id | id in s.deliveries ensures EntryOk(c, s.deliveries[id], s.now + d, s.calls[id]) {
      assert EntryOk(c, s.deliveries[id], s.now, s.calls[id]);
    }
  }

  lemma StepTracked(c: Config, s: State, l: Label)
    requires Inv(c, s) && Enabled(c, s, l)
    ensures Tracked(c, Next(c, s, l))
  {
    match l
    case Tick(d) => TickTracked(c, s, d);
    case Release =>
      DeliveredIsAlone(s, s.consumer.msg.id);
      DeliverTracked(c, s, s.consumer.msg);
    case ReadFresh(v) =>
      DeliveredIsAlone(s, s.nextId);
      DeliverTracked(c, s.(nextId := s.nextId + 1), NewFreshMessage(s.nextId, v));
    case Spawn => SpawnTracked(c, s);
    case Succeed(_) => GoroutineStepTracked(c, s, l);
    case Fail(_) => GoroutineStepTracked(c, s, l);
    case Push(_) => GoroutineStepTracked(c, s, l);
    case Ack(_) => GoroutineStepTracked(c, s, l);
    case _ =>
  }

  lemma StepKeepsInv(c: Config, s: State, l: Label)
    requires Inv(c, s) && Enabled(c, s, l)
    ensures Inv(c, Next(c, s, l))
  {
    StepConserves(c, s, l);
    StepFaithful(c, s, l);
    StepTracked(c, s, l);
  }

  lemma {:induction false} EveryRunKeepsInv(c: Config, s: State, run: seq<Label>)
    requires Inv(c, s) && Legal(c, s, run)
    ensures Inv(c, After(c, s, run))
    decreases run
  {
    if run != [] {
      StepKeepsInv(c, s, run[0]);
      EveryRunKeepsInv(c, Next(c, s, run[0]), run[1..]);
    }
  }

  lemma {:induction false} BoundedMultiset(m: multiset<nat>, n: nat, most: nat)
    requires forall id :: m[id] <= if id < n then most else 0
    ensures |m| <= n * most
  {
    if n == 0 {
      assert m == multiset{};
    } else {
      var rest := m[n - 1 := 0];
      BoundedMultiset(rest, n - 1, most);
      assert |m| == |rest| + m[n - 1];
      assert n * most == (n - 1) * most + most;
    }
  }

  /** Over every run: a message in the channel has been tried between 1 and
      `maxRetries` times; no message starts to be processed more than
      `max(maxRetries, 0) + 1` times; and so `n` messages read cost at most `n`
      times that many `ProcessOrder` calls. */
  lemma AttemptBound(c: Config, start: int, run: seq<Label>)
    requires Legal(c, Init(start), run)
    ensures forall i :: 0 <= i < |After(c, Init(start), run).retryChan| ==>
                          1 <= After(c, Init(start), run).retryChan[i].totalTries <= c.maxRetries
    ensures forall id: nat :: Started(c, Init(start), run, id) <= MaxAttempts(c)
    ensures Spawns(run) <= |Reads(run)| * MaxAttempts(c)
  {
    var s := After(c, Init(start), run);
    EveryRunKeepsInv(c, Init(start), run);
    forall i | 0 <= i < |s.retryChan| ensures 1 <= s.retryChan[i].totalTries <= c.maxRetries {
      assert WaitingOk(c, s.deliveries, s.retryChan[i]);
    }
    forall id: nat
      ensures s.calls[id] <= if id < s.nextId then MaxAttempts(c) else 0
      ensures Started(c, Init(start), run, id) == s.calls[id]
    {
      TraceIsKept(c, start, run, id);
      if id in s.deliveries { assert EntryOk(c, s.deliveries[id], s.now, s.calls[id]); }
    }
    BoundedMultiset(s.calls, s.nextId, MaxAttempts(c));
    TraceIsKept(c, start, run, 0);
  }

  /** The limit is exact: a failed message is given up by the try counter when
      the run has delivered it `max(maxRetries, 0) + 1` times, and not before. */
  lemma GivesUpIffTriedOut(c: Config, start: int, run: seq<Label>, g: nat)
    requires Legal(c, Init(start), run) && Enabled(c, After(c, Init(start), run), Fail(g))
    ensures var s := After(c, Init(start), run);
            var m := s.goroutines[g].msg;
            && (Next(c, s, Fail(g)).dlq == s.dlq + [m] <==>
                  |DeliveredAt(c, Init(start), run, m.id)| == MaxAttempts(c))
            && (Next(c, s, Fail(g)).dlq != s.dlq + [m] ==> Next(c, s, Fail(g)).goroutines[g].Offering?)
  {
    var s := After(c, Init(start), run);
    EveryRunKeepsInv(c, Init(start), run);
    var m := s.goroutines[g].msg;
    TraceIsKept(c, start, run, m.id);
    assert GoroutineOk(c, s.deliveries, s.goroutines[g]);
    assert EntryOk(c, s.deliveries[m.id], s.now, s.calls[m.id]);
    assert |s.dlq + [m]| != |s.dlq|;
  }

  lemma {:induction false} SpacedAccumulates(backoff: int, h: seq<int>, i: nat)
    requires Spaced(backoff, h) && 0 < i < |h|
    ensures h[i] > h[0] + i * backoff
  {
    if i > 1 {
      SpacedAccumulates(backoff, h, i - 1);
      assert i * backoff == (i - 1) * backoff + backoff;
    }
  }

  /** Backoffs add up: in every run the `i`-th retry of a message is delivered
      later than `i` backoffs after its first delivery, however often it went
      round the channel; and `TotalTries` tells which delivery it is. */
  lemma BackoffAccumulates(c: Config, start: int, run: seq<Label>, id: nat, i: nat)
    requires Legal(c, Init(start), run) && 0 < i < |DeliveredAt(c, Init(start), run, id)|
    ensures var s, at := After(c, Init(start), run), DeliveredAt(c, Init(start), run, id);
            && at[i] > at[0] + i * c.backoff
            && (s.consumer.Consumed? && s.consumer.msg.id == id ==> |at| == s.consumer.msg.totalTries + 1)
  {
    EveryRunKeepsInv(c, Init(start), run);
    TraceIsKept(c, start, run, id);
    var s := After(c, Init(start), run);
    assert EntryOk(c, s.deliveries[id], s.now, s.calls[id]);
    SpacedAccumulates(c.backoff, s.deliveries[id], i);
  }

  // ----- termination measure -----

  function Left(c: Config, m: Message): int { MaxAttempts(c) - m.totalTries }

  function GoroutineLeft(c: Config, g: Goroutine): int {
    match g
    case Processing(m) => Left(c, m)
    case Offering(_, r) => Left(c, r)
    case Acking(_) => 0
  }

  function ConsumerLeft(c: Config, k: Consumer): int {
    if k.Idle? || k.Reading? then 0 else Left(c, k.msg)
  }

  function ChannelLeft(c: Config, ms: seq<Message>): int {
    if ms == [] then 0 else Left(c, ms[0]) + ChannelLeft(c, ms[1..])
  }

  function GoroutinesLeft(c: Config, gs: seq<Goroutine>): int {
    if gs == [] then 0 else GoroutineLeft(c, gs[0]) + GoroutinesLeft(c, gs[1..])
  }

  /** The processing attempts that the unfinished messages may still cost. */
  function Remaining(c: Config, s: State): int {
    ChannelLeft(c, s.retryChan) + ConsumerLeft(c, s.consumer) + GoroutinesLeft(c, s.goroutines)
  }

  lemma ChannelLeftAppend(c: Config, ms: seq<Message>, m: Message)
    ensures ChannelLeft(c, ms + [m]) == ChannelLeft(c, ms) + Left(c, m)
  {
    if ms == [] {
      assert ms + [m] == [m];
    } else {
      ChannelLeftAppend(c, ms[1..], m);
      assert (ms + [m])[1..] == ms[1..] + [m];
    }
  }

  lemma GoroutinesLeftAppend(c: Config, a: seq<Goroutine>, b: seq<Goroutine>)
    ensures GoroutinesLeft(c, a + b) == GoroutinesLeft(c, a) + GoroutinesLeft(c, b)
  {
    if a == [] {
      assert a + b == b;
    } else {
      GoroutinesLeftAppend(c, a[1..], b);
      assert (a + b)[1..] == a[1..] + b;
    }
  }

  lemma GoroutinesLeftRemoved(c: Config, gs: seq<Goroutine>, i: nat)
    requires i < |gs|
    ensures GoroutinesLeft(c, RemovedAt(gs, i)) == GoroutinesLeft(c, gs) - GoroutineLeft(c, gs[i])
  {
    var front, back := gs[..i], gs[i + 1..];
    GoroutinesLeftAppend(c, front, [gs[i]] + back);
    GoroutinesLeftAppend(c, front, back);
    assert gs == front + ([gs[i]] + back);
    assert ([gs[i]] + back)[1..] == back;
  }

  lemma GoroutinesLeftReplaced(c: Config, gs: seq<Goroutine>, i: nat, g: Goroutine)
    requires i < |gs|
    ensures GoroutinesLeft(c, gs[i := g]) == GoroutinesLeft(c, gs) - GoroutineLeft(c, gs[i]) + GoroutineLeft(c, g)
  {
    GoroutinesLeftRemoved(c, gs, i);
    GoroutinesLeftRemoved(c, gs[i := g], i);
    assert RemovedAt(gs[i := g], i) == RemovedAt(gs, i);
  }

  lemma {:induction false} SumsNonNegative(c: Config, s: State, i: nat, j: nat)
    requires Tracked(c, s) && i <= |s.retryChan| && j <= |s.goroutines|
    ensures ChannelLeft(c, s.retryChan[i..]) >= 0 && GoroutinesLeft(c, s.goroutines[j..]) >= 0
    decreases |s.retryChan| - i + |s.goroutines| - j
  {
    if i < |s.retryChan| {
      SumsNonNegative(c, s, i + 1, j);
      assert WaitingOk(c, s.deliveries, s.retryChan[i]);
      assert s.retryChan[i..][1..] == s.retryChan[i + 1..];
    }
    if j < |s.goroutines| {
      SumsNonNegative(c, s, i, j + 1);
      assert GoroutineOk(c, s.deliveries, s.goroutines[j]);
      assert EntryOk(c, s.deliveries[s.goroutines[j].msg.id], s.now, s.calls[s.goroutines[j].msg.id]);
      assert s.goroutines[j..][1..] == s.goroutines[j + 1..];
    }
  }

  lemma RemainingNonNegative(c: Config, s: State)
    requires Tracked(c, s)
    ensures 0 <= Remaining(c, s)
  {
    SumsNonNegative(c, s, 0, 0);
    assert s.retryChan[0..] == s.retryChan && s.goroutines[0..] == s.goroutines;
    if s.consumer.Consumed? {
      var id := s.consumer.msg.id;
      assert EntryOk(c, s.deliveries[id], s.now, s.calls[id]);
    }
  }

  lemma DeliveredHasAttempts(c: Config, s: State, g: nat)
    requires Tracked(c, s) && g < |s.goroutines|
    ensures s.goroutines[g].msg.totalTries < MaxAttempts(c)
    ensures s.goroutines[g].Offering? ==>
              s.goroutines[g].retried.totalTries == s.goroutines[g].msg.totalTries + 1 < MaxAttempts(c)
  {
    var m := s.goroutines[g].msg;
    assert GoroutineOk(c, s.deliveries, s.goroutines[g]);
    assert EntryOk(c, s.deliveries[m.id], s.now, s.calls[m.id]);
  }

  lemma GoroutineStepRemaining(c: Config, s: State, l: Label)
    requires Tracked(c, s) && Enabled(c, s, l) && (l.Succeed? || l.Fail? || l.Push? || l.Ack?)
    ensures Remaining(c, Next(c, s, l)) <= Remaining(c, s)
    ensures l.Succeed? || l.Fail? ==> Remaining(c, Next(c, s, l)) < Remaining(c, s)
  {
    var gs := Next(c, s, l).goroutines;
    DeliveredHasAttempts(c, s, l.g);
    if |gs| == |s.goroutines| {
      GoroutinesLeftReplaced(c, s.goroutines, l.g, gs[l.g]);
    } else {
      GoroutinesLeftRemoved(c, s.goroutines, l.g);
      if l.Push? {
        ChannelLeftAppend(c, s.retryChan, s.goroutines[l.g].retried);
      }
    }
  }

  lemma ConsumerStepRemaining(c: Config, s: State, l: Label)
    requires Tracked(c, s) && Enabled(c, s, l) && !l.Succeed? && !l.Fail? && !l.Push? && !l.Ack?
    ensures Remaining(c, Next(c, s, l)) <= Remaining(c, s) + if l.ReadFresh? then MaxAttempts(c) else 0
  {
    match l
    case Resend => ChannelLeftAppend(c, s.retryChan, s.consumer.msg);
    case Spawn =>
      var p := Processing(s.consumer.msg);
      GoroutinesLeftAppend(c, s.goroutines, [p]);
      assert [p][1..] == [] && GoroutinesLeft(c, [p]) == GoroutineLeft(c, p);
    case Reject =>
      var id := s.consumer.msg.id;
      assert EntryOk(c, s.deliveries[id], s.now, s.calls[id]);
    case _ =>
  }

  /** A measure of the work left: never negative, strictly smaller after every
      processing outcome, and raised only by reading a new message. */
  lemma OutcomesDecreaseRemaining(c: Config, s: State, l: Label)
    requires Inv(c, s) && Enabled(c, s, l)
    ensures var n := Next(c, s, l);
            && Inv(c, n) && 0 <= Remaining(c, n)
            && (l.Succeed? || l.Fail? ==> Remaining(c, n) < Remaining(c, s))
            && Remaining(c, n) <= Remaining(c, s) + if l.ReadFresh? then MaxAttempts(c) else 0
  {
    StepKeepsInv(c, s, l);
    RemainingNonNegative(c, Next(c, s, l));
    if l.Succeed? || l.Fail? || l.Push? || l.Ack? {
      GoroutineStepRemaining(c, s, l);
    } else {
      ConsumerStepRemaining(c, s, l);
    }
  }
}
