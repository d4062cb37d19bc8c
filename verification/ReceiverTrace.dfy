/** What the steps of a run say about its end, told from the labels and not from
    the fields that the state keeps: what was read, delivered, processed,
    acknowledged and given up, and when. */
module ReceiverTrace {
  import opened Common
  import opened Models
  import opened Receiver

  // ----- what was read -----

  function ReadOf(l: Label): seq<Option<Order>> {
    match l
    case ReadFresh(v) => [Some(v)]
    case ReadGarbage => [None]
    case _ => []
  }

  /** The messages that the run reads from Kafka, by id: an order, or nothing
      that could be unmarshalled. */
  function Reads(run: seq<Label>): seq<Option<Order>> {
    if run == [] then [] else ReadOf(run[0]) + Reads(run[1..])
  }

  /** The message carries the order that was read under its id. */
  ghost predicate Carries(read: seq<Option<Order>>, m: Message) {
    m.id < |read| && read[m.id] == Some(m.value)
  }

  ghost predicate AllCarry(read: seq<Option<Order>>, ms: seq<Message>) {
    forall i :: 0 <= i < |ms| ==> Carries(read, ms[i])
  }

  ghost predicate GoroutinesCarry(read: seq<Option<Order>>, gs: seq<Goroutine>) {
    forall i :: 0 <= i < |gs| ==> Carries(read, gs[i].msg) && (gs[i].Offering? ==> Carries(read, gs[i].retried))
  }

  /** Wherever a message is, and a copy about to be queued as well. */
  ghost predicate EveryMessageCarries(read: seq<Option<Order>>, s: State) {
    && |read| == s.nextId
    && AllCarry(read, s.retryChan) && GoroutinesCarry(read, s.goroutines)
    && (!s.consumer.Idle? && !s.consumer.Reading? ==> Carries(read, s.consumer.msg))
    && AllCarry(read, s.dlq) && AllCarry(read, s.succeeded)
    && forall i :: 0 <= i < |s.dropped| ==> s.dropped[i] < |read| && read[s.dropped[i]].None?
  }

  lemma RemovedCarry(read: seq<Option<Order>>, gs: seq<Goroutine>, i: nat)
    requires GoroutinesCarry(read, gs) && i < |gs|
    ensures GoroutinesCarry(read, RemovedAt(gs, i))
  {
    RemovedAtIs(gs, i);
  }

  lemma StepCarries(c: Config, s: State, l: Label, read: seq<Option<Order>>)
    requires EveryMessageCarries(read, s) && Enabled(c, s, l)
    ensures EveryMessageCarries(read + ReadOf(l), Next(c, s, l))
  {
    if l.Fail? || l.Push? || l.Ack? {
      RemovedCarry(read, s.goroutines, l.g);
    }
    if !l.ReadFresh? && !l.ReadGarbage? {
      assert read + [] == read;
    }
  }

  lemma {:induction false} RunCarries(c: Config, s: State, run: seq<Label>, read: seq<Option<Order>>)
    requires EveryMessageCarries(read, s) && Legal(c, s, run)
    ensures EveryMessageCarries(read + Reads(run), After(c, s, run))
    decreases run
  {
    if run == [] {
      assert read + [] == read;
    } else {
      StepCarries(c, s, run[0], read);
      RunCarries(c, Next(c, s, run[0]), run[1..], read + ReadOf(run[0]));
      assert (read + ReadOf(run[0])) + Reads(run[1..]) == read + Reads(run);
    }
  }

  lemma CountNone(ids: seq<nat>, id: nat)
    ensures Count(ids, id) > 0 <==> id in ids
  {
    if ids != [] {
      CountNone(ids[1..], id);
    }
  }

  lemma NotAmong(read: seq<Option<Order>>, ms: seq<Message>, id: nat)
    requires AllCarry(read, ms) && id < |read| && read[id].None?
    ensures Count(Ids(ms), id) == 0
  {
    CountNone(Ids(ms), id);
  }

  /** Over every run, retries included: each message anywhere, and each copy
      about to be queued, carries the order that was read under its id; and what
      is dropped is exactly what could not be unmarshalled. */
  lemma ValuesAreRead(c: Config, start: int, run: seq<Label>)
    requires Legal(c, Init(start), run)
    ensures EveryMessageCarries(Reads(run), After(c, Init(start), run))
    ensures forall id: nat :: id in After(c, Init(start), run).dropped <==> id < |Reads(run)| && Reads(run)[id].None?
  {
    var s, read := After(c, Init(start), run), Reads(run);
    RunCarries(c, Init(start), run, []);
    assert [] + read == read;
    forall id: nat | id < |read| && read[id].None? ensures id in s.dropped {
      ExactlyOnePlace(c, start, run, id);
      NotAmong(read, s.retryChan, id);
      NotAmong(read, s.dlq, id);
      NotAmong(read, s.succeeded, id);
      CountNone(GoroutineIds(s.goroutines), id);
      CountNone(s.dropped, id);
    }
  }

  // ----- deliveries and calls -----

  /** The step hands message `id` to the loop. */
  predicate Delivers(s: State, l: Label, id: nat) {
    (l.Release? && s.consumer.Received? && s.consumer.msg.id == id) || (l.ReadFresh? && s.nextId == id)
  }

  /** When the run delivers message `id`. */
  function DeliveredAt(c: Config, s: State, run: seq<Label>, id: nat): seq<int>
    requires Legal(c, s, run)
    decreases run
  {
    if run == [] then []
    else (if Delivers(s, run[0], id) then [s.now] else []) + DeliveredAt(c, Next(c, s, run[0]), run[1..], id)
  }

  /** How often the run starts to process message `id`. */
  function Started(c: Config, s: State, run: seq<Label>, id: nat): nat
    requires Legal(c, s, run)
    decreases run
  {
    if run == [] then 0
    else (if run[0].Spawn? && s.consumer.msg.id == id then 1 else 0) + Started(c, Next(c, s, run[0]), run[1..], id)
  }

  /** How often it starts to process anything. */
  function Spawns(run: seq<Label>): nat {
    if run == [] then 0 else (if run[0].Spawn? then 1 else 0) + Spawns(run[1..])
  }

  function Elapsed(run: seq<Label>): nat {
    if run == [] then 0 else (if run[0].Tick? then run[0].elapsed else 0) + Elapsed(run[1..])
  }

  function LogOf(s: State, id: nat): seq<int> { if id in s.deliveries then s.deliveries[id] else [] }

  /** What the step adds to the log of `id`, and to its calls. */
  function LoggedBy(s: State, l: Label, id: nat): seq<int> { if Delivers(s, l, id) then [s.now] else [] }

  lemma StepLogs(c: Config, s: State, l: Label, id: nat)
    requires Enabled(c, s, l)
    ensures LogOf(Next(c, s, l), id) == LogOf(s, id) + LoggedBy(s, l, id)
    ensures Next(c, s, l).calls[id] == s.calls[id] + if l.Spawn? && s.consumer.msg.id == id then 1 else 0
  {
  }

  lemma {:induction false} LogsAreTrue(c: Config, s: State, run: seq<Label>, id: nat)
    requires Legal(c, s, run)
    ensures LogOf(After(c, s, run), id) == LogOf(s, id) + DeliveredAt(c, s, run, id)
    decreases run
  {
    if run == [] {
      assert LogOf(s, id) + [] == LogOf(s, id);
    } else {
      var n, now := Next(c, s, run[0]), LoggedBy(s, run[0], id);
      LogsAreTrue(c, n, run[1..], id);
      StepLogs(c, s, run[0], id);
      var rest := DeliveredAt(c, n, run[1..], id);
      assert DeliveredAt(c, s, run, id) == now + rest;
      assert (LogOf(s, id) + now) + rest == LogOf(s, id) + (now + rest);
    }
  }

  lemma {:induction false} CallsAreTrue(c: Config, s: State, run: seq<Label>, id: nat)
    requires Legal(c, s, run)
    ensures After(c, s, run).calls[id] == s.calls[id] + Started(c, s, run, id)
    decreases run
  {
    if run != [] {
      StepLogs(c, s, run[0], id);
      CallsAreTrue(c, Next(c, s, run[0]), run[1..], id);
    }
  }

  lemma {:induction false} TotalsAreTrue(c: Config, s: State, run: seq<Label>)
    requires Legal(c, s, run)
    ensures |After(c, s, run).calls| == |s.calls| + Spawns(run)
    ensures After(c, s, run).now == s.now + Elapsed(run)
    decreases run
  {
    if run != [] {
      TotalsAreTrue(c, Next(c, s, run[0]), run[1..]);
    }
  }

  /** The fields that the other results speak about say what the run did. */
  lemma TraceIsKept(c: Config, start: int, run: seq<Label>, id: nat)
    requires Legal(c, Init(start), run)
    ensures var s := After(c, Init(start), run);
            && LogOf(s, id) == DeliveredAt(c, Init(start), run, id)
            && s.calls[id] == Started(c, Init(start), run, id) && |s.calls| == Spawns(run)
            && s.nextId == |Reads(run)| && s.now == start + Elapsed(run)
  {
    LogsAreTrue(c, Init(start), run, id);
    CallsAreTrue(c, Init(start), run, id);
    TotalsAreTrue(c, Init(start), run);
    ValuesAreRead(c, start, run);
  }

  // ----- how messages end -----

  /** The message that the step gives up: one that is not valid, one that has
      no tries left, or one that finds the channel full. */
  function GivenUp(c: Config, s: State, l: Label): seq<Message>
    requires Enabled(c, s, l)
  {
    match l
    case Reject => [s.consumer.msg]
    case Fail(g) => if s.goroutines[g].msg.totalTries >= c.maxRetries then [s.goroutines[g].msg] else []
    case Push(g) => if |s.retryChan| >= c.capacity then [s.goroutines[g].msg] else []
    case _ => []
  }

  function AllGivenUp(c: Config, s: State, run: seq<Label>): seq<Message>
    requires Legal(c, s, run)
    decreases run
  {
    if run == [] then [] else GivenUp(c, s, run[0]) + AllGivenUp(c, Next(c, s, run[0]), run[1..])
  }

  function Acknowledged(c: Config, s: State, run: seq<Label>): seq<Message>
    requires Legal(c, s, run)
    decreases run
  {
    if run == [] then []
    else (if run[0].Ack? then [s.goroutines[run[0].g].msg] else []) + Acknowledged(c, Next(c, s, run[0]), run[1..])
  }

  lemma StepEnds(c: Config, s: State, l: Label)
    requires Enabled(c, s, l)
    ensures Next(c, s, l).dlq == s.dlq + GivenUp(c, s, l)
    ensures Next(c, s, l).succeeded == s.succeeded + if l.Ack? then [s.goroutines[l.g].msg] else []
  {
    assert s.dlq + [] == s.dlq && s.succeeded + [] == s.succeeded;
  }

  lemma Joined<T>(a: seq<T>, b: seq<T>, x: seq<T>, e: seq<T>, xs: seq<T>)
    requires b == a + x && e == b + xs
    ensures e == a + (x + xs)
  {
  }

  /** Over every run the DLQ has received exactly the messages given up, and
      the successes are those acknowledged, in the order of the steps. */
  lemma {:induction false} EndsAreTrue(c: Config, s: State, run: seq<Label>)
    requires Legal(c, s, run)
    ensures After(c, s, run).dlq == s.dlq + AllGivenUp(c, s, run)
    ensures After(c, s, run).succeeded == s.succeeded + Acknowledged(c, s, run)
    decreases run
  {
    if run == [] {
      assert s.dlq + [] == s.dlq && s.succeeded + [] == s.succeeded;
    } else {
      var l, n := run[0], Next(c, s, run[0]);
      var e := After(c, n, run[1..]);
      StepEnds(c, s, l);
      EndsAreTrue(c, n, run[1..]);
      Joined(s.dlq, n.dlq, GivenUp(c, s, l), e.dlq, AllGivenUp(c, n, run[1..]));
      Joined(s.succeeded, n.succeeded, if l.Ack? then [s.goroutines[l.g].msg] else [], e.succeeded,
             Acknowledged(c, n, run[1..]));
    }
  }
}
