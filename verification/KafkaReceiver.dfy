/** The receiver as the source writes it: an object whose methods pop from and
    push to the bounded channel (kafka.go:51-147). Each method is one call with
    nobody in between; its contract names the run of the transition system of
    module `Receiver` that the call performs. */
module KafkaReceivers {
  import opened Common
  import opened Models
  import opened Receiver

  /** What reading the next Kafka message gives. */
  datatype ReadOutcome = Fresh(value: Order) | Garbage | ReadFailed

  datatype ConsumeError = ErrReading | ErrUnmarshalling

  function ReadLabel(read: ReadOutcome): Label {
    match read
    case Fresh(v) => ReadFresh(v)
    case Garbage => ReadGarbage
    case ReadFailed => ReadError
  }

  /** The steps of one undisturbed `Consume`. */
  function ConsumeRun(chan: seq<Message>, now: int, read: ReadOutcome): seq<Label> {
    if chan == [] then [SkipRetries] + [ReadLabel(read)]
    else if now > chan[0].retryAfter then [Receive] + [Release]
    else [Receive] + ([NotYet] + ([Resend] + [ReadLabel(read)]))
  }

  /** The steps of one failed processing outcome of goroutine `g`. */
  function FailRun(c: Config, m: Message, g: nat): seq<Label> {
    if m.totalTries + 1 > c.maxRetries then [Fail(g)] else [Fail(g)] + [Push(g)]
  }

  /** `x` asks for one more try of `m`, from `due` on. */
  ghost predicate Retries(x: Message, m: Message, due: int) {
    x.id == m.id && x.value == m.value && x.totalTries == m.totalTries + 1 && x.retryAfter == due
  }

  /** One more try of `m` has gone to the tail of the channel. */
  ghost predicate Queued(before: seq<Message>, after: seq<Message>, m: Message, due: int) {
    |after| == |before| + 1 && before <= after && Retries(after[|before|], m, due)
  }

  /** `m` is message number `id`, with this value, not tried yet and without a
      due time. */
  ghost predicate IsFresh(m: Message, id: nat, value: Order) {
    m.id == id && m.value == value && m.totalTries == 0 && m.retryAfter == 0
  }

  lemma ConsumeRunIsLegal(c: Config, s: State, read: ReadOutcome)
    requires s.consumer.Idle? && |s.retryChan| <= c.capacity
    ensures Legal(c, s, ConsumeRun(s.retryChan, s.now, read))
    ensures var e := After(c, s, ConsumeRun(s.retryChan, s.now, read));
            if s.retryChan != [] && s.now > s.retryChan[0].retryAfter then
              e.retryChan == s.retryChan[1..] && e.consumer == Consumed(s.retryChan[0])
            else
              && e.retryChan == (if s.retryChan == [] then [] else s.retryChan[1..] + [s.retryChan[0]])
              && if read.Fresh? then e.consumer.Consumed? && IsFresh(e.consumer.msg, s.nextId, read.value)
                 else e.consumer == Idle
  {
    var last := ReadLabel(read);
    if s.retryChan == [] {
      Prepend(c, Next(c, s, SkipRetries), last, []);
      Prepend(c, s, SkipRetries, [last] + []);
      assert [last] + [] == [last];
    } else if s.now > s.retryChan[0].retryAfter {
      Prepend(c, Next(c, s, Receive), Release, []);
      assert [Release] + [] == [Release];
      Prepend(c, s, Receive, [Release]);
    } else {
      var s1 := Next(c, s, Receive);
      var s2 := Next(c, s1, NotYet);
      var s3 := Next(c, s2, Resend);
      Prepend(c, s3, last, []);
      assert [last] + [] == [last];
      Prepend(c, s2, Resend, [last]);
      Prepend(c, s1, NotYet, [Resend] + [last]);
      Prepend(c, s, Receive, [NotYet] + ([Resend] + [last]));
    }
  }

  lemma FailRunIsLegal(c: Config, s: State, g: nat)
    requires g < |s.goroutines| && s.goroutines[g].Processing?
    ensures var m := s.goroutines[g].msg;
            var run := FailRun(c, m, g);
            && Legal(c, s, run)
            && After(c, s, run).goroutines == RemovedAt(s.goroutines, g)
            && if m.totalTries < c.maxRetries && |s.retryChan| < c.capacity then
                 && Queued(s.retryChan, After(c, s, run).retryChan, m, s.now + c.backoff)
                 && After(c, s, run).dlq == s.dlq
               else
                 After(c, s, run).retryChan == s.retryChan && After(c, s, run).dlq == s.dlq + [m]
  {
    var m := s.goroutines[g].msg;
    var n := Next(c, s, Fail(g));
    if m.totalTries + 1 > c.maxRetries {
      Prepend(c, s, Fail(g), []);
      assert [Fail(g)] + [] == [Fail(g)];
    } else {
      Prepend(c, n, Push(g), []);
      assert [Push(g)] + [] == [Push(g)];
      Prepend(c, s, Fail(g), [Push(g)]);
      assert RemovedAt(n.goroutines, g) == RemovedAt(s.goroutines, g);
    }
  }

  class KafkaReceiver {
    const config: Config
    var retryChan: seq<Message>
    var dlq: seq<Message>  // stands for the log line that sendToDLQ writes

    ghost predicate Valid()
      reads this
    {
      |retryChan| <= config.capacity
    }

    /** The object is the receiver part of a state of the transition system. */
    ghost predicate Shows(s: State)
      reads this
    {
      s.retryChan == retryChan && s.dlq == dlq
    }

    constructor (config: Config)
      ensures Valid() && this.config == config && retryChan == [] && dlq == []
    {
      this.config, retryChan, dlq := config, [], [];
    }

    /** Another try is queued when there are tries left and there is room;
        otherwise the message is given up. */
    ghost predicate Retried(now: int, m: Message, chan: seq<Message>, given: seq<Message>)
      reads this
    {
      if m.totalTries < config.maxRetries && |chan| < config.capacity then
        Queued(chan, retryChan, m, now + config.backoff) && dlq == given
      else retryChan == chan && dlq == given + [m]
    }

    /** An undisturbed `Consume` never blocks on its re-send, and does exactly
        the steps of `ConsumeRun`. */
    method Consume(now: int, id: nat, read: ReadOutcome, ghost s: State) returns (r: Result<Message, ConsumeError>)
      requires Valid() && Shows(s) && s.consumer.Idle? && s.now == now && s.nextId == id
      modifies this
      ensures Valid()
      ensures Legal(config, s, ConsumeRun(s.retryChan, now, read))
      ensures var e := After(config, s, ConsumeRun(s.retryChan, now, read));
              Shows(e) && e.consumer == if r.Ok? then Consumed(r.value) else Idle
      ensures if old(retryChan) != [] && now > old(retryChan)[0].retryAfter then
                r == Ok(old(retryChan)[0]) && retryChan == old(retryChan)[1..]
              else
                && retryChan == (if old(retryChan) == [] then [] else old(retryChan)[1..] + [old(retryChan)[0]])
                && match read
                   case Fresh(value) => r.Ok? && IsFresh(r.value, id, value)
                   case Garbage => r == Err(ErrUnmarshalling)
                   case ReadFailed => r == Err(ErrReading)
    {
      ConsumeRunIsLegal(config, s, read);
      assert After(config, s, ConsumeRun(s.retryChan, now, read)).dlq == dlq by {
        ConsumeKeepsDLQ(config, s, ConsumeRun(s.retryChan, now, read));
      }
      if retryChan != [] {
        var failedMessage := retryChan[0];
        retryChan := retryChan[1..];
        if now > failedMessage.retryAfter {
          return Ok(failedMessage);
        }
        assert |retryChan| < config.capacity;  // there is room again
        retryChan := retryChan + [failedMessage];
      }
      match read
      case ReadFailed => r := Err(ErrReading);
      case Garbage => r := Err(ErrUnmarshalling);
      case Fresh(value) => r := Ok(NewFreshMessage(id, value));
    }

    /** Reject without a retry, or retry. */
    method OnFail(shouldRetry: bool, now: int, m: Message, ghost s: State, ghost g: nat)
      requires Valid() && Shows(s) && s.now == now
      requires shouldRetry ==> g < |s.goroutines| && s.goroutines[g] == Processing(m)
      modifies this
      ensures Valid()
      ensures shouldRetry ==> Legal(config, s, FailRun(config, m, g)) && Shows(After(config, s, FailRun(config, m, g)))
      ensures shouldRetry ==> Retried(now, m, old(retryChan), old(dlq))
      ensures !shouldRetry ==> retryChan == old(retryChan) && dlq == old(dlq) + [m]
      ensures !shouldRetry && s.consumer == Consumed(m) ==> Shows(Next(config, s, Reject))
    {
      if shouldRetry {
        SendToRetries(now, m, s, g);
      } else {
        dlq := dlq + [m];
      }
    }

    method SendToRetries(now: int, m: Message, ghost s: State, ghost g: nat)
      requires Valid() && Shows(s) && s.now == now
      requires g < |s.goroutines| && s.goroutines[g] == Processing(m)
      modifies this
      ensures Valid()
      ensures Legal(config, s, FailRun(config, m, g)) && Shows(After(config, s, FailRun(config, m, g)))
      ensures Retried(now, m, old(retryChan), old(dlq))
    {
      FailRunIsLegal(config, s, g);
      var totalTries := m.totalTries + 1;
      if totalTries > config.maxRetries {
        dlq := dlq + [m];
        return;
      }
      var newMessage := NewRetriedMessage(m, now, config.backoff);
      if |retryChan| < config.capacity {
        retryChan := retryChan + [newMessage];
      } else {
        dlq := dlq + [m];
      }
    }
  }

  lemma {:induction false} ConsumeKeepsDLQ(c: Config, s: State, run: seq<Label>)
    requires Legal(c, s, run) && forall l :: l in run ==> !l.Reject? && !l.Fail? && !l.Push?
    ensures After(c, s, run).dlq == s.dlq
    decreases run
  {
    if run != [] {
      assert run[0] in run;
      ConsumeKeepsDLQ(c, Next(c, s, run[0]), run[1..]);
    }
  }
}
