/** The Kafka receiver and the loop that drives it, as a labelled transition
    system (order_service/pkg/pkgports/adapters/receiver/kafka.go and
    order_service/internal/service/order_receiver_service.go). One consumer runs
    `Consume`; every valid message is processed by a goroutine of its own. The
    receive from the retry channel, the clock check and the blocking re-send
    are separate steps, so goroutines and the clock interleave with them. */
module Receiver {
  import opened Common
  import opened Models

  /** `NewKafkaReceiver`'s parameters; a channel capacity is never negative. */
  datatype Config = Config(maxRetries: int, capacity: nat, backoff: int)

  /** A `KafkaMessage`. `id` stands for the Kafka message it was read from. */
  datatype Message = Message(id: nat, value: Order, retryAfter: int, totalTries: nat)

  function NewFreshMessage(id: nat, value: Order): Message { Message(id, value, 0, 0) }

  function NewRetriedMessage(m: Message, now: int, delay: int): Message {
    Message(m.id, m.value, now + delay, m.totalTries + 1)
  }

  /** Where the consuming goroutine is. */
  datatype Consumer =
    | Idle                       // about to call Consume
    | Received(msg: Message)     // took it from the channel, clock not read yet
    | Resending(msg: Message)    // blocked in, or about to do, the re-send
    | Reading                    // about to read from Kafka
    | Consumed(msg: Message)     // Consume has returned; about to validate

  /** A goroutine spawned by the loop. */
  datatype Goroutine =
    | Processing(msg: Message)
    | Offering(msg: Message, retried: Message)  // failed, about to push `retried`
    | Acking(msg: Message)                      // processed, about to commit

  datatype State = State(
    now: int,
    nextId: nat,                        // messages read from Kafka so far
    retryChan: seq<Message>,
    consumer: Consumer,
    goroutines: seq<Goroutine>,
    dropped: seq<nat>,                  // not unmarshalled
    dlq: seq<Message>,
    succeeded: seq<Message>,
    deliveries: map<nat, seq<int>>,     // when Consume returned each message
    calls: multiset<nat>)               // ProcessOrder calls per message

  datatype Label =
    | Tick(elapsed: nat)
    | Receive
    | SkipRetries
    | Release
    | NotYet
    | Resend
    | ReadFresh(value: Order)
    | ReadGarbage
    | ReadError
    | Reject
    | Spawn
    | Succeed(g: nat)
    | Fail(g: nat)
    | Push(g: nat)
    | Ack(g: nat)

  function Init(now: int): State {
    State(now, 0, [], Idle, [], [], [], [], map[], multiset{})
  }

  predicate Enabled(c: Config, s: State, l: Label) {
    match l
    case Tick(_) => true
    case Receive => s.consumer.Idle? && s.retryChan != []
    case SkipRetries => s.consumer.Idle? && s.retryChan == []
    case Release => s.consumer.Received? && s.now > s.consumer.msg.retryAfter
    case NotYet => s.consumer.Received? && !(s.now > s.consumer.msg.retryAfter)
    case Resend => s.consumer.Resending? && |s.retryChan| < c.capacity
    case ReadFresh(_) => s.consumer.Reading?
    case ReadGarbage => s.consumer.Reading?
    case ReadError => s.consumer.Reading?
    case Reject => s.consumer.Consumed?
    case Spawn => s.consumer.Consumed?
    case Succeed(g) => g < |s.goroutines| && s.goroutines[g].Processing?
    case Fail(g) => g < |s.goroutines| && s.goroutines[g].Processing?
    case Push(g) => g < |s.goroutines| && s.goroutines[g].Offering?
    case Ack(g) => g < |s.goroutines| && s.goroutines[g].Acking?
  }

  function Deliver(s: State, m: Message): State {
    var before := if m.id in s.deliveries then s.deliveries[m.id] else [];
    s.(consumer := Consumed(m), deliveries := s.deliveries[m.id := before + [s.now]])
  }

  function Next(c: Config, s: State, l: Label): State
    requires Enabled(c, s, l)
  {
    match l
    case Tick(d) => s.(now := s.now + d)
    case Receive => s.(retryChan := s.retryChan[1..], consumer := Received(s.retryChan[0]))
    case SkipRetries => s.(consumer := Reading)
    case Release => Deliver(s, s.consumer.msg)
    case NotYet => s.(consumer := Resending(s.consumer.msg))
    case Resend => s.(retryChan := s.retryChan + [s.consumer.msg], consumer := Reading)
    case ReadFresh(v) => Deliver(s.(nextId := s.nextId + 1), NewFreshMessage(s.nextId, v))
    case ReadGarbage => s.(nextId := s.nextId + 1, dropped := s.dropped + [s.nextId], consumer := Idle)
    case ReadError => s.(consumer := Idle)
    case Reject => s.(dlq := s.dlq + [s.consumer.msg], consumer := Idle)
    case Spawn =>
      s.(goroutines := s.goroutines + [Processing(s.consumer.msg)],
         calls := s.calls + multiset{s.consumer.msg.id}, consumer := Idle)
    case Succeed(g) => s.(goroutines := s.goroutines[g := Acking(s.goroutines[g].msg)])
    case Fail(g) =>
      var m := s.goroutines[g].msg;
      if m.totalTries + 1 > c.maxRetries then
        s.(goroutines := RemovedAt(s.goroutines, g), dlq := s.dlq + [m])
      else
        s.(goroutines := s.goroutines[g := Offering(m, NewRetriedMessage(m, s.now, c.backoff))])
    case Push(g) =>
      if |s.retryChan| < c.capacity then
        s.(goroutines := RemovedAt(s.goroutines, g), retryChan := s.retryChan + [s.goroutines[g].retried])
      else
        s.(goroutines := RemovedAt(s.goroutines, g), dlq := s.dlq + [s.goroutines[g].msg])
    case Ack(g) =>
      s.(goroutines := RemovedAt(s.goroutines, g), succeeded := s.succeeded + [s.goroutines[g].msg])
  }

  predicate Legal(c: Config, s: State, run: seq<Label>)
    decreases run
  {
    run == [] || (Enabled(c, s, run[0]) && Legal(c, Next(c, s, run[0]), run[1..]))
  }

  function After(c: Config, s: State, run: seq<Label>): State
    requires Legal(c, s, run)
    decreases run
  {
    if run == [] then s else After(c, Next(c, s, run[0]), run[1..])
  }

  lemma Prepend(c: Config, s: State, l: Label, rest: seq<Label>)
    requires Enabled(c, s, l) && Legal(c, Next(c, s, l), rest)
    ensures Legal(c, s, [l] + rest)
    ensures After(c, s, [l] + rest) == After(c, Next(c, s, l), rest)
  {
    assert ([l] + rest)[1..] == rest;
  }

  lemma {:induction false} Append(c: Config, s: State, a: seq<Label>, b: seq<Label>)
    requires Legal(c, s, a) && Legal(c, After(c, s, a), b)
    ensures Legal(c, s, a + b) && After(c, s, a + b) == After(c, After(c, s, a), b)
    decreases a
  {
    if a == [] {
      assert a + b == b;
    } else {
      Append(c, Next(c, s, a[0]), a[1..], b);
      assert (a + b)[1..] == a[1..] + b;
    }
  }

  // ----- conservation -----

  function Ids(ms: seq<Message>): (r: seq<nat>)
    ensures |r| == |ms|
  {
    seq(|ms|, i requires 0 <= i < |ms| => ms[i].id)
  }

  function GoroutineIds(gs: seq<Goroutine>): (r: seq<nat>)
    ensures |r| == |gs|
  {
    seq(|gs|, i requires 0 <= i < |gs| => gs[i].msg.id)
  }

  function ConsumerCount(k: Consumer, id: nat): nat {
    if !k.Idle? && !k.Reading? && k.msg.id == id then 1 else 0
  }

  function Count(ids: seq<nat>, id: nat): nat {
    if ids == [] then 0 else (if ids[0] == id then 1 else 0) + Count(ids[1..], id)
  }

  lemma CountAppend(a: seq<nat>, b: seq<nat>, id: nat)
    ensures Count(a + b, id) == Count(a, id) + Count(b, id)
  {
    if a == [] {
      assert a + b == b;
    } else {
      CountAppend(a[1..], b, id);
      assert (a + b)[1..] == a[1..] + b;
    }
  }

  lemma CountPresent(ids: seq<nat>, i: nat)
    requires i < |ids|
    ensures Count(ids, ids[i]) >= 1
  {
    if i > 0 { CountPresent(ids[1..], i - 1); }
  }

  /** How many copies of message `id` there are, over every place a message
      can be in. */
  function Tally(s: State, id: nat): nat {
    Count(Ids(s.retryChan), id) + ConsumerCount(s.consumer, id) + Count(GoroutineIds(s.goroutines), id)
    + Count(s.dropped, id) + Count(Ids(s.dlq), id) + Count(Ids(s.succeeded), id)
  }

  /** Each message read so far is somewhere, once, and nothing else is. */
  ghost predicate Conserved(s: State) {
    forall id: nat :: Tally(s, id) == if id < s.nextId then 1 else 0
  }

  /** An offered copy keeps the id of the message it replaces. */
  ghost predicate Faithful(s: State) {
    forall i :: 0 <= i < |s.goroutines| && s.goroutines[i].Offering? ==>
      s.goroutines[i].retried.id == s.goroutines[i].msg.id
  }

  lemma IdsAppend(ms: seq<Message>, m: Message, id: nat)
    ensures Count(Ids(ms + [m]), id) == Count(Ids(ms), id) + if m.id == id then 1 else 0
  {
    CountAppend(Ids(ms), [m.id], id);
    assert Ids(ms + [m]) == Ids(ms) + [m.id];
  }

  lemma IdsTail(ms: seq<Message>, id: nat)
    requires ms != []
    ensures Count(Ids(ms), id) == Count(Ids(ms[1..]), id) + if ms[0].id == id then 1 else 0
  {
    assert Ids(ms)[1..] == Ids(ms[1..]);
  }

  lemma GoroutineIdsAppend(gs: seq<Goroutine>, g: Goroutine, id: nat)
    ensures Count(GoroutineIds(gs + [g]), id) == Count(GoroutineIds(gs), id) + if g.msg.id == id then 1 else 0
  {
    CountAppend(GoroutineIds(gs), [g.msg.id], id);
    assert GoroutineIds(gs + [g]) == GoroutineIds(gs) + [g.msg.id];
  }

  lemma GoroutineIdsRemoved(gs: seq<Goroutine>, i: nat, id: nat)
    requires i < |gs|
    ensures Count(GoroutineIds(gs), id)
            == Count(GoroutineIds(RemovedAt(gs, i)), id) + if gs[i].msg.id == id then 1 else 0
  {
    var a, b := GoroutineIds(gs[..i]), GoroutineIds(gs[i + 1..]);
    CountAppend(a, [gs[i].msg.id] + b, id);
    CountAppend([gs[i].msg.id], b, id);
    CountAppend(a, b, id);
    assert GoroutineIds(gs) == a + ([gs[i].msg.id] + b);
    assert GoroutineIds(RemovedAt(gs, i)) == a + b;
  }

  lemma GoroutineIdsReplaced(gs: seq<Goroutine>, i: nat, g: Goroutine)
    requires i < |gs| && g.msg.id == gs[i].msg.id
    ensures GoroutineIds(gs[i := g]) == GoroutineIds(gs)
  {
  }

  lemma StepFaithful(c: Config, s: State, l: Label)
    requires Faithful(s) && Enabled(c, s, l)
    ensures Faithful(Next(c, s, l))
  {
  }

  lemma ConsumerStepTally(c: Config, s: State, l: Label, id: nat)
    requires Enabled(c, s, l) && !l.Succeed? && !l.Fail? && !l.Push? && !l.Ack?
    ensures Tally(Next(c, s, l), id)
            == Tally(s, id) + if (l.ReadFresh? || l.ReadGarbage?) && id == s.nextId then 1 else 0
  {
    match l
    case Receive => IdsTail(s.retryChan, id);
    case Resend => IdsAppend(s.retryChan, s.consumer.msg, id);
    case Reject => IdsAppend(s.dlq, s.consumer.msg, id);
    case Spawn => GoroutineIdsAppend(s.goroutines, Processing(s.consumer.msg), id);
    case ReadGarbage => CountAppend(s.dropped, [s.nextId], id);
    case _ =>
  }

  lemma GoroutineStepTally(c: Config, s: State, l: Label, id: nat)
    requires Faithful(s) && Enabled(c, s, l) && (l.Succeed? || l.Fail? || l.Push? || l.Ack?)
    ensures Tally(Next(c, s, l), id) == Tally(s, id)
  {
    var g, gs := s.goroutines[l.g], Next(c, s, l).goroutines;
    if |gs| == |s.goroutines| {
      GoroutineIdsReplaced(s.goroutines, l.g, gs[l.g]);
    } else {
      GoroutineIdsRemoved(s.goroutines, l.g, id);
      IdsAppend(s.dlq, g.msg, id);
      IdsAppend(s.succeeded, g.msg, id);
      if l.Push? {
        IdsAppend(s.retryChan, g.retried, id);
      }
    }
  }

  lemma StepConserves(c: Config, s: State, l: Label)
    requires Conserved(s) && Faithful(s) && Enabled(c, s, l)
    ensures Conserved(Next(c, s, l))
  {
    var n := Next(c, s, l);
    forall id: nat ensures Tally(n, id) == if id < n.nextId then 1 else 0 {
      if l.Succeed? || l.Fail? || l.Push? || l.Ack? {
        GoroutineStepTally(c, s, l, id);
      } else {
        ConsumerStepTally(c, s, l, id);
      }
    }
  }

  /** In every reachable state each message read from Kafka is in exactly one
      place: nothing is lost or duplicated by the pop and re-push, the overflow
      or the max-retries branch. */
  lemma {:induction false} Conservation(c: Config, s: State, run: seq<Label>)
    requires Conserved(s) && Faithful(s) && Legal(c, s, run)
    ensures Conserved(After(c, s, run)) && Faithful(After(c, s, run))
    decreases run
  {
    if run != [] {
      StepFaithful(c, s, run[0]);
      StepConserves(c, s, run[0]);
      Conservation(c, Next(c, s, run[0]), run[1..]);
    }
  }

  lemma ExactlyOnePlace(c: Config, start: int, run: seq<Label>, id: nat)
    requires Legal(c, Init(start), run)
    ensures var s := After(c, Init(start), run);
            Tally(s, id) == if id < s.nextId then 1 else 0
  {
    Conservation(c, Init(start), run);
  }
}
