/** What the steps of a run say about a replica at its end: which orders were
    handed to detached `Set`s and which of these have run, what the cache holds,
    which reads are in progress, and what a warm-up leaves. */
module CoherenceTrace {
  import opened Common
  import opened Models
  import opened LruModel
  import opened Storage
  import opened Coherence
  import H = LruHistory

  // ----- orders on their way to the cache -----

  /** The order that the step hands to a detached `Set` of replica `r`: the one
      saved, or the one that a read has found, warm-up or not. */
  ghost function Handed(s: State, l: Label, r: nat): seq<Order>
    requires Enabled(s, l)
  {
    if l.r != r then []
    else
      match l
      case Save(_, o, _, _, _) => [o]
      case Finish(_, i) =>
        var rd := s.replicas[r].readers[i];
        if rd.base.value.Some? then [rd.base.value.value.(items := rd.items.value)] else []
      case _ => []
  }

  /** The order that the step puts into the cache of replica `r`. */
  ghost function Put(s: State, l: Label, r: nat): seq<Order>
    requires Enabled(s, l)
  {
    if l.r == r && l.RunSet? then [s.replicas[r].pending[l.i]] else []
  }

  ghost function AllHanded(s: State, run: seq<Label>, r: nat): multiset<Order>
    requires Legal(s, run)
    decreases run
  {
    if run == [] then multiset{} else multiset(Handed(s, run[0], r)) + AllHanded(Next(s, run[0]), run[1..], r)
  }

  ghost function AllPut(s: State, run: seq<Label>, r: nat): multiset<Order>
    requires Legal(s, run)
    decreases run
  {
    if run == [] then multiset{} else multiset(Put(s, run[0], r)) + AllPut(Next(s, run[0]), run[1..], r)
  }

  lemma PendingAfter(s: State, p: Replica, l: Label)
    requires Enabled(s, l) && s.replicas[l.r] == p
    ensures NextReplica(s, p, l).pending ==
            if l.RunSet? then RemovedAt(p.pending, l.i) else p.pending + Handed(s, l, l.r)
  {
    assert p.pending + [] == p.pending;
  }

  lemma ReplicaHands(s: State, p: Replica, l: Label)
    requires Enabled(s, l) && s.replicas[l.r] == p
    ensures multiset(NextReplica(s, p, l).pending) + multiset(Put(s, l, l.r))
            == multiset(p.pending) + multiset(Handed(s, l, l.r))
  {
    PendingAfter(s, p, l);
    if l.RunSet? {
      RemovedAtMultiset(p.pending, l.i);
    }
  }

  lemma StepHands(s: State, l: Label, r: nat)
    requires Enabled(s, l) && r < |s.replicas|
    ensures |Next(s, l).replicas| == |s.replicas|
    ensures multiset(Next(s, l).replicas[r].pending) + multiset(Put(s, l, r))
            == multiset(s.replicas[r].pending) + multiset(Handed(s, l, r))
  {
    if l.r == r {
      ReplicaHands(s, s.replicas[r], l);
    }
  }

  lemma Balances<T>(
      a: multiset<T>, b: multiset<T>, c: multiset<T>, out: multiset<T>, outs: multiset<T>, x: multiset<T>,
      xs: multiset<T>)
    requires b + out == a + x && c + outs == b + xs
    ensures c + (out + outs) == a + (x + xs)
  {
    calc {
      c + (out + outs);
      (c + outs) + out;
      (b + xs) + out;
      (b + out) + xs;
      (a + x) + xs;
      a + (x + xs);
    }
  }

  /** Nothing handed over gets lost or doubled: each order waits for its `Set`,
      or the `Set` has run. */
  lemma {:induction false} HandedIsPutOrPending(s: State, run: seq<Label>, r: nat)
    requires Legal(s, run) && r < |s.replicas|
    ensures |After(s, run).replicas| == |s.replicas|
    ensures multiset(After(s, run).replicas[r].pending) + AllPut(s, run, r)
            == multiset(s.replicas[r].pending) + AllHanded(s, run, r)
    decreases run
  {
    if run != [] {
      var n := Next(s, run[0]);
      StepHands(s, run[0], r);
      HandedIsPutOrPending(n, run[1..], r);
      Balances(multiset(s.replicas[r].pending), multiset(n.replicas[r].pending),
               multiset(After(n, run[1..]).replicas[r].pending),
               multiset(Put(s, run[0], r)), AllPut(n, run[1..], r),
               multiset(Handed(s, run[0], r)), AllHanded(n, run[1..], r));
    }
  }

  // ----- the cache -----

  /** What the step does to the cache of replica `r`. */
  ghost function OpOf(s: State, l: Label, r: nat): seq<H.Op<string, Order>>
    requires Enabled(s, l)
  {
    if l.r != r then []
    else
      match l
      case RunSet(_, i) => [H.Set(s.replicas[r].pending[i].orderUID, s.replicas[r].pending[i])]
      case Get(_, k) => [H.Get(k)]
      case _ => []
  }

  ghost function CacheOps(s: State, run: seq<Label>, r: nat): seq<H.Op<string, Order>>
    requires Legal(s, run)
    decreases run
  {
    if run == [] then [] else OpOf(s, run[0], r) + CacheOps(Next(s, run[0]), run[1..], r)
  }

  /** The cache that `ops` make of `c`. */
  function Ran(cap: int, c: Lru<string, Order>, ops: seq<H.Op<string, Order>>): Lru<string, Order>
    decreases ops
  {
    if ops == [] then c else Ran(cap, H.Step(cap, c, ops[0]), ops[1..])
  }

  lemma {:induction false} RanIsRun(cap: int, before: seq<H.Op<string, Order>>, ops: seq<H.Op<string, Order>>)
    ensures Ran(cap, H.Run(cap, before), ops) == H.Run(cap, before + ops)
    decreases ops
  {
    if ops == [] {
      assert before + ops == before;
    } else {
      var next := before + [ops[0]];
      assert next[..|before|] == before && next + ops[1..] == before + ops;
      RanIsRun(cap, next, ops[1..]);
    }
  }

  lemma StepRuns(s: State, l: Label, r: nat, rest: seq<H.Op<string, Order>>)
    requires Enabled(s, l) && r < |s.replicas|
    ensures var cap, n := s.replicas[r].cap, Next(s, l);
            && |n.replicas| == |s.replicas| && n.replicas[r].cap == cap
            && Ran(cap, s.replicas[r].cache, OpOf(s, l, r) + rest) == Ran(cap, n.replicas[r].cache, rest)
  {
    var op := OpOf(s, l, r);
    if op == [] {
      assert [] + rest == rest;
    } else {
      assert (op + rest)[0] == op[0] && (op + rest)[1..] == rest;
    }
  }

  lemma {:induction false} CacheHasRun(s: State, run: seq<Label>, r: nat)
    requires Legal(s, run) && r < |s.replicas|
    ensures var e := After(s, run);
            && |e.replicas| == |s.replicas|
            && e.replicas[r].cache == Ran(s.replicas[r].cap, s.replicas[r].cache, CacheOps(s, run, r))
    decreases run
  {
    if run != [] {
      var n := Next(s, run[0]);
      StepRuns(s, run[0], r, CacheOps(n, run[1..], r));
      CacheHasRun(n, run[1..], r);
    }
  }

  /** In every run of any number of replicas, the cache of each is the one that
      its own `Set`s and `Get`s leave, in the order of the steps; so what is
      known of cache histories holds of it. */
  lemma CacheIsItsHistory(caps: seq<int>, run: seq<Label>, r: nat)
    requires Legal(Init(caps), run) && r < |caps|
    ensures var s := After(Init(caps), run);
            && r < |s.replicas|
            && s.replicas[r].cache == H.Run(caps[r], CacheOps(Init(caps), run, r))
  {
    var ops := CacheOps(Init(caps), run, r);
    CacheHasRun(Init(caps), run, r);
    RanIsRun(caps[r], [], ops);
    assert [] + ops == ops;
  }

  /** A `GetOrder` is answered at once exactly when by that history its key is
      resident, with the order last put under it; otherwise it starts a read. */
  lemma GetAnswers(caps: seq<int>, run: seq<Label>, r: nat, k: string)
    requires Legal(Init(caps), run) && r < |caps|
    ensures var s := After(Init(caps), run);
            && Enabled(s, Get(r, k))
            && var ops, n := CacheOps(Init(caps), run, r), Next(s, Get(r, k));
               var t := H.Touched(caps[r], ops);
               if k in t && |H.OthersSince(t, k)| < caps[r] then
                 && H.LastSet(ops, k).Some? && n.served == s.served + [H.LastSet(ops, k).value]
                 && n.replicas[r].readers == s.replicas[r].readers
               else
                 && n.served == s.served
                 && n.replicas[r].readers == s.replicas[r].readers + [Reader(k, NotYet, NotYet, false)]
  {
    CacheIsItsHistory(caps, run, r);
    H.RecencyCharacterised(caps[r], CacheOps(Init(caps), run, r), k);
    var s := After(Init(caps), run);
    assert s.served + [] == s.served;
  }

  // ----- reads -----

  ghost function Starts(s: State, l: Label, r: nat): int
    requires Enabled(s, l)
  {
    if l.r != r then 0
    else if l.WarmBase? || (l.Get? && l.key !in s.replicas[r].cache.data) then 1
    else if l.Finish? || l.Abort? then -1 else 0
  }

  ghost function Started(s: State, run: seq<Label>, r: nat): int
    requires Legal(s, run)
    decreases run
  {
    if run == [] then 0 else Starts(s, run[0], r) + Started(Next(s, run[0]), run[1..], r)
  }

  /** The reads in progress are those started and not ended, whichever way. */
  lemma {:induction false} ReadsInProgress(s: State, run: seq<Label>, r: nat)
    requires Legal(s, run) && r < |s.replicas|
    ensures var e := After(s, run);
            |e.replicas| == |s.replicas| && |e.replicas[r].readers| == |s.replicas[r].readers| + Started(s, run, r)
    decreases run
  {
    if run != [] {
      ReadsInProgress(Next(s, run[0]), run[1..], r);
    }
  }

  // ----- warm-up -----

  lemma Prepend(s: State, l: Label, rest: seq<Label>)
    requires Enabled(s, l) && Legal(Next(s, l), rest)
    ensures Legal(s, [l] + rest) && After(s, [l] + rest) == After(Next(s, l), rest)
  {
    assert ([l] + rest)[1..] == rest;
  }

  /** Replica `r` of `s` put in place of the one it has. */
  ghost function With(s: State, r: nat, p: Replica): State
    requires r < |s.replicas|
  {
    s.(replicas := s.replicas[r := p])
  }

  /** A read in progress may fail at any time, and then leaves nothing behind. */
  lemma FailedReadLeavesNothing(s: State, r: nat, i: nat)
    requires r < |s.replicas| && i < |s.replicas[r].readers|
    ensures Enabled(s, Abort(r, i))
    ensures Next(s, Abort(r, i)) == With(s, r, s.replicas[r].(readers := RemovedAt(s.replicas[r].readers, i)))
  {
    assert s.served + [] == s.served;
  }

  lemma WarmSteps(s: State, r: nat, k: string, items: seq<OrderItem>)
    requires r < |s.replicas| && BaseRead(s.db, k).Some? && PartListing(s.db, k, items)
    ensures var p := s.replicas[r];
            var n, o := |p.readers|, BaseRead(s.db, k).value.(items := items);
            var run := [WarmBase(r, k)] + ([ReadItems(r, n, items)] + ([Finish(r, n)] + []));
            Legal(s, run) && After(s, run) == With(s, r, p.(pending := p.pending + [o]))
  {
    var p := s.replicas[r];
    var n, base := |p.readers|, BaseRead(s.db, k);
    var started, full := Reader(k, Done(base), NotYet, true), Reader(k, Done(base), Done(items), true);
    var s1 := With(s, r, p.(readers := p.readers + [started]));
    var s2 := With(s, r, p.(readers := p.readers + [full]));
    var s3 := With(s, r, p.(pending := p.pending + [base.value.(items := items)]));
    assert s.served + [] == s.served;
    assert (p.readers + [started])[n := full] == p.readers + [full];
    assert RemovedAt(p.readers + [full], n) == p.readers;
    assert Next(s, WarmBase(r, k)) == s1;
    assert Next(s1, ReadItems(r, n, items)) == s2;
    assert Next(s2, Finish(r, n)) == s3;
    Prepend(s2, Finish(r, n), []);
    Prepend(s1, ReadItems(r, n, items), [Finish(r, n)] + []);
    Prepend(s, WarmBase(r, k), [ReadItems(r, n, items)] + ([Finish(r, n)] + []));
  }

  /** A warm-up read of a stored order and its `Set` leave the order with the
      items that arrived in front of the cache, and answer nobody. */
  lemma WarmUpCaches(s: State, r: nat, k: string, items: seq<OrderItem>)
    requires r < |s.replicas| && s.replicas[r].cap >= 1
    requires BaseRead(s.db, k).Some? && PartListing(s.db, k, items)
    ensures var p := s.replicas[r];
            var put := RunSet(r, |p.pending|);
            var run := [WarmBase(r, k)] + ([ReadItems(r, |p.readers|, items)] + ([Finish(r, |p.readers|)] + []));
            && Legal(s, run) && Enabled(After(s, run), put)
            && var e := Next(After(s, run), put);
               && e.served == s.served && |e.replicas| == |s.replicas|
               && e.replicas[r].pending == p.pending && e.replicas[r].readers == p.readers
               && e.replicas[r].cache.keys != [] && e.replicas[r].cache.keys[0] == k
               && k in e.replicas[r].cache.data
               && e.replicas[r].cache.data[k] == BaseRead(s.db, k).value.(items := items)
  {
    var p, o := s.replicas[r], BaseRead(s.db, k).value.(items := items);
    WarmSteps(s, r, k, items);
    assert RemovedAt(p.pending + [o], |p.pending|) == p.pending;
    assert s.served + [] == s.served;
  }
}
