/** The runs that show why coherence needs its four hypotheses. Each breaks
    exactly one of them. */
module CoherenceRuns {
  import opened Common
  import opened Models
  import opened LruModel
  import opened Storage
  import opened Handler
  import opened Coherence

  lemma Prepend(a: Allowance, s: State, l: Label, rest: seq<Label>)
    requires Enabled(s, l) && Permitted(a, s, l) && Legal(Next(s, l), rest) && Behaves(a, Next(s, l), rest)
    ensures Legal(s, [l] + rest) && Behaves(a, s, [l] + rest)
    ensures After(s, [l] + rest) == After(Next(s, l), rest)
  {
    assert ([l] + rest)[1..] == rest;
  }

  function OneReplica(cache: Lru<string, Order>, pending: seq<Order>, readers: seq<Reader>): seq<Replica> {
    [Replica(1, cache, pending, readers)]
  }

  /** A step of the only replica, from the replica's point of view. */
  lemma OnlyReplicaSteps(s: State, l: Label, p: Replica, q: Replica, answer: seq<Order>)
    requires s.replicas == [p] && Enabled(s, l)
    requires NextReplica(s, p, l) == q && Answer(s, l) == answer
    ensures Next(s, l).replicas == [q] && Next(s, l).served == s.served + answer
    ensures !l.Save? ==> Next(s, l) == s.(replicas := [q], served := s.served + answer)
    ensures l.Save? && l.commitOk ==>
              Next(s, l) == State(Inserted(s.db, l.kept, l.now).value, [q], s.committed[l.kept.orderUID := l.kept],
                                  s.lost + Astray(l.order, l.kept, true), s.served + answer)
    ensures l.Save? && !l.commitOk ==>
              Next(s, l) == State(s.db, [q], s.committed, s.lost + {l.order}, s.served + answer)
  {
    assert [p][0 := q] == [q];
  }

  lemma FirstSet(o: Order)
    ensures SetSpec(1, Empty<string, Order>(), o.orderUID, o) == Lru([o.orderUID], map[o.orderUID := o])
  {
    assert Touch([], o.orderUID) == [o.orderUID];
    assert Take([o.orderUID], 1) == [o.orderUID];
  }

  lemma GetOfOnly(o: Order)
    ensures GetSpec(Lru([o.orderUID], map[o.orderUID := o]), o.orderUID) == Lru([o.orderUID], map[o.orderUID := o])
  {
    var keys := [o.orderUID];
    assert keys[1..] == [] && Without(keys, o.orderUID) == [];
    assert Touch([o.orderUID], o.orderUID) == [o.orderUID];
  }

  /** The last two steps of each run: the detached `Set` of `o` runs, and a
      later `Get` is served from the cache. */
  lemma CachedThenServed(a: Allowance, s: State, i: nat, o: Order)
    requires |s.replicas| == 1 && s.replicas[0].cap == 1 && s.replicas[0].cache == Empty()
    requires i < |s.replicas[0].pending| && s.replicas[0].pending[i] == o
    ensures var run := [RunSet(0, i)] + ([Get(0, o.orderUID)] + []);
            && Legal(s, run) && Behaves(a, s, run)
            && After(s, run).served == s.served + [o]
            && After(s, run).committed == s.committed && After(s, run).db == s.db
  {
    FirstSet(o);
    GetOfOnly(o);
    var s1 := Next(s, RunSet(0, i));
    assert s1.served == s.served;
    assert s1.replicas[0].cache == Lru([o.orderUID], map[o.orderUID := o]);
    Prepend(a, s1, Get(0, o.orderUID), []);
    Prepend(a, s, RunSet(0, i), [Get(0, o.orderUID)] + []);
  }

  /** A save into an empty database, committed. */
  lemma FirstSave(s: State, o: Order, kept: Order, now: int, readers: seq<Reader>)
    requires Storable(o, kept) && s == State(NO_ROWS, OneReplica(Empty(), [], readers), map[], {}, [])
    ensures Enabled(s, Save(0, o, kept, now, true))
    ensures var n := Next(s, Save(0, o, kept, now, true));
            && n.replicas == OneReplica(Empty(), [o], readers)
            && n.committed == map[kept.orderUID := kept] && n.served == []
            && BaseRead(n.db, kept.orderUID) == Some(StoredBase(kept, now))
            && multiset(ItemRows(n.db, kept.orderUID)) == multiset(LinkItems(kept.orderUID, kept.items))
  {
    InsertableIff(NO_ROWS, kept, now);
    InsertedOnTop(NO_ROWS, kept, now);
    assert [] + [o] == [o];
    OnlyReplicaSteps(s, Save(0, o, kept, now, true), s.replicas[0], Replica(1, Empty(), [o], readers), []);
  }

  /** An order that the empty tables take as `kept`. */
  ghost predicate Storable(o: Order, kept: Order) {
    Validated(o) && Keeps(o, kept) && ColumnsFit(kept) && DistinctItems(kept.items)
  }

  /** A commit fails unnoticed, another order with the same uid is committed,
      and the first one is served for good. */
  lemma LostCommitDiverges(o: Order, other: Order, now: int)
    requires Storable(o, o) && Storable(other, other)
    requires o.orderUID == other.orderUID && !SameResponse(ToResponse(o), ToResponse(other))
    ensures var run := [Save(0, o, o, now, false)] + ([Save(0, other, other, now, true)] +
                       ([RunSet(0, 0)] + ([Get(0, o.orderUID)] + [])));
            && Legal(Init([1]), run) && Behaves(Allowance(true, false, false, false), Init([1]), run)
            && var s := After(Init([1]), run);
               s.served == [o] && s.committed == map[o.orderUID := other] && !Coherent(s.committed, o)
  {
    var a, k, s0 := Allowance(true, false, false, false), o.orderUID, Init([1]);
    InsertableIff(NO_ROWS, o, now);
    InsertableIff(NO_ROWS, other, now);
    var u := Inserted(NO_ROWS, other, now).value;
    assert s0.replicas == OneReplica(Empty(), [], []);
    var s1 := State(NO_ROWS, OneReplica(Empty(), [o], []), map[], {o}, []);
    var s2 := State(u, OneReplica(Empty(), [o, other], []), map[k := other], {o}, []);
    assert [] + [o] == [o] && [o] + [other] == [o, other];
    var lost: set<Order> := {};
    assert lost + {o} == {o};
    OnlyReplicaSteps(s0, Save(0, o, o, now, false), s0.replicas[0], s1.replicas[0], []);
    OnlyReplicaSteps(s1, Save(0, other, other, now, true), s1.replicas[0], s2.replicas[0], []);
    assert Next(s0, Save(0, o, o, now, false)) == s1 && Next(s1, Save(0, other, other, now, true)) == s2;
    CachedThenServed(a, s2, 0, o);
    var rest := [RunSet(0, 0)] + ([Get(0, k)] + []);
    Prepend(a, s1, Save(0, other, other, now, true), rest);
    Prepend(a, s0, Save(0, o, o, now, false), [Save(0, other, other, now, true)] + rest);
  }

  /** An `entry` of more than ten characters, the others spaces, is stored cut
      and cached whole. */
  lemma LongEntryDiverges(o: Order, now: int)
    requires |o.entry| > 10 && forall i :: 10 <= i < |o.entry| ==> o.entry[i] == ' '
    requires Validated(o) && ColumnsFit(o.(entry := o.entry[..10])) && DistinctItems(o.items)
    ensures var kept := o.(entry := o.entry[..10]);
            var run := [Save(0, o, kept, now, true)] + ([RunSet(0, 0)] + ([Get(0, o.orderUID)] + []));
            && Legal(Init([1]), run) && Behaves(Allowance(false, true, false, false), Init([1]), run)
            && var s := After(Init([1]), run);
               s.served == [o] && s.committed == map[o.orderUID := kept] && !Coherent(s.committed, o)
  {
    var a, kept, s0 := Allowance(false, true, false, false), o.(entry := o.entry[..10]), Init([1]);
    assert s0.replicas == OneReplica(Empty(), [], []);
    assert !Plain(o);
    FirstSave(s0, o, kept, now, []);
    var s1 := Next(s0, Save(0, o, kept, now, true));
    CachedThenServed(a, s1, 0, o);
    Prepend(a, s0, Save(0, o, kept, now, true), [RunSet(0, 0)] + ([Get(0, o.orderUID)] + []));
    assert ToResponse(o).entry != ToResponse(kept).entry;
  }

  /** The end of a read that went wrong: the order put together from both
      answers is returned, cached behind the saved one, and served again. */
  lemma ReadEnds(a: Allowance, s: State, o: Order, base: Order, items: seq<OrderItem>)
    requires base.orderUID == o.orderUID && s.served == []
    requires s.replicas == OneReplica(Empty(), [o], [Reader(o.orderUID, Done(Some(base)), Done(items), false)])
    ensures var run := [Finish(0, 0)] + ([RunSet(0, 1)] + ([Get(0, o.orderUID)] + []));
            && Legal(s, run) && Behaves(a, s, run)
            && After(s, run).served == [base.(items := items), base.(items := items)]
            && After(s, run).committed == s.committed
  {
    var read, torn := Reader(o.orderUID, Done(Some(base)), Done(items), false), base.(items := items);
    var n := s.(replicas := OneReplica(Empty(), [o, torn], []), served := [torn]);
    assert RemovedAt([read], 0) == [] && [o] + [torn] == [o, torn];
    OnlyReplicaSteps(s, Finish(0, 0), s.replicas[0], n.replicas[0], [torn]);
    assert Next(s, Finish(0, 0)) == n;
    assert [torn] + [torn] == [torn, torn];
    CachedThenServed(a, n, 1, torn);
    Prepend(a, s, Finish(0, 0), [RunSet(0, 1)] + ([Get(0, o.orderUID)] + []));
  }

  lemma MissingItemsShow(o: Order, now: int, items: seq<OrderItem>)
    requires |items| < |o.items|
    ensures !Coherent(map[o.orderUID := o], StoredBase(o, now).(items := items))
  {
    var mine, theirs := ToResponse(StoredBase(o, now).(items := items)).items, ToResponse(o).items;
    assert |multiset(mine)| == |mine| == |items| && |multiset(theirs)| == |theirs| == |o.items|;
  }

  /** The second half of the torn read: the base row is found. */
  lemma TornReadEnds(a: Allowance, s: State, o: Order, now: int)
    requires BaseRead(s.db, o.orderUID) == Some(StoredBase(o, now)) && s.served == []
    requires s.replicas == OneReplica(Empty(), [o], [Reader(o.orderUID, NotYet, Done([]), false)])
    ensures var run := [ReadBase(0, 0)] + ([Finish(0, 0)] + ([RunSet(0, 1)] + ([Get(0, o.orderUID)] + [])));
            && Legal(s, run) && Behaves(a, s, run)
            && After(s, run).served == [StoredBase(o, now), StoredBase(o, now)]
            && After(s, run).committed == s.committed
  {
    var k, torn := o.orderUID, StoredBase(o, now);
    var was, found := Reader(k, NotYet, Done([]), false), Reader(k, Done(Some(torn)), Done([]), false);
    var n := s.(replicas := OneReplica(Empty(), [o], [found]));
    assert [was][0 := found] == [found] && torn.(items := []) == torn;
    OnlyReplicaSteps(s, ReadBase(0, 0), s.replicas[0], n.replicas[0], []);
    assert Next(s, ReadBase(0, 0)) == n;
    ReadEnds(a, n, o, torn, []);
    Prepend(a, s, ReadBase(0, 0), [Finish(0, 0)] + ([RunSet(0, 1)] + ([Get(0, k)] + [])));
  }

  /** The items are read before a commit and the base row after it: the order
      is served, and cached, without its items. */
  lemma TornReadDiverges(o: Order, now: int)
    requires Storable(o, o)
    ensures var torn := StoredBase(o, now);
            var run := [Get(0, o.orderUID)] + ([ReadItems(0, 0, [])] + ([Save(0, o, o, now, true)] +
                       ([ReadBase(0, 0)] + ([Finish(0, 0)] + ([RunSet(0, 1)] + ([Get(0, o.orderUID)] + []))))));
            && Legal(Init([1]), run) && Behaves(Allowance(false, false, true, false), Init([1]), run)
            && var s := After(Init([1]), run);
               s.served == [torn, torn] && s.committed == map[o.orderUID := o] && !Coherent(s.committed, torn)
  {
    var a, k, s0 := Allowance(false, false, true, false), o.orderUID, Init([1]);
    var asked, empty := Reader(k, NotYet, NotYet, false), Reader(k, NotYet, Done([]), false);
    assert s0.replicas == OneReplica(Empty(), [], []);
    var s1 := s0.(replicas := OneReplica(Empty(), [], [asked]));
    var s2 := s0.(replicas := OneReplica(Empty(), [], [empty]));
    assert ItemRows(NO_ROWS, k) == {};
    assert [] + [asked] == [asked] && [asked][0 := empty] == [empty];
    OnlyReplicaSteps(s0, Get(0, k), s0.replicas[0], s1.replicas[0], []);
    OnlyReplicaSteps(s1, ReadItems(0, 0, []), s1.replicas[0], s2.replicas[0], []);
    FirstSave(s2, o, o, now, [empty]);
    TornReadEnds(a, Next(s2, Save(0, o, o, now, true)), o, now);
    var rest := [ReadBase(0, 0)] + ([Finish(0, 0)] + ([RunSet(0, 1)] + ([Get(0, k)] + [])));
    Prepend(a, s2, Save(0, o, o, now, true), rest);
    Prepend(a, s1, ReadItems(0, 0, []), [Save(0, o, o, now, true)] + rest);
    Prepend(a, s0, Get(0, k), [ReadItems(0, 0, [])] + ([Save(0, o, o, now, true)] + rest));
    MissingItemsShow(o, now, []);
    assert StoredBase(o, now).(items := []) == StoredBase(o, now);
  }

  /** The first `n` items of an order, as storage returns them. */
  function FirstItems(o: Order, n: nat): seq<OrderItem>
    requires n <= |o.items|
  {
    LinkItems(o.orderUID, o.items)[..n]
  }

  lemma FirstItemsArrive(u: Tables, o: Order, n: nat)
    requires n <= |o.items| && multiset(ItemRows(u, o.orderUID)) == multiset(LinkItems(o.orderUID, o.items))
    ensures PartListing(u, o.orderUID, FirstItems(o, n))
  {
    var all := LinkItems(o.orderUID, o.items);
    assert all == all[..n] + all[n..];
  }

  /** A read of a stored order whose items are cut to `part`. */
  lemma BrokenReadEnds(a: Allowance, s: State, o: Order, base: Order, part: seq<OrderItem>)
    requires a.brokenReads && base.orderUID == o.orderUID && s.served == []
    requires BaseRead(s.db, o.orderUID) == Some(base) && PartListing(s.db, o.orderUID, part)
    requires s.replicas == OneReplica(Empty(), [o], [])
    ensures var run := [Get(0, o.orderUID)] + ([ReadBase(0, 0)] + ([ReadItems(0, 0, part)] +
                       ([Finish(0, 0)] + ([RunSet(0, 1)] + ([Get(0, o.orderUID)] + [])))));
            && Legal(s, run) && Behaves(a, s, run)
            && After(s, run).served == [base.(items := part), base.(items := part)]
            && After(s, run).committed == s.committed
  {
    var k := o.orderUID;
    var asked, found := Reader(k, NotYet, NotYet, false), Reader(k, Done(Some(base)), NotYet, false);
    var cut := Reader(k, Done(Some(base)), Done(part), false);
    var s1 := s.(replicas := OneReplica(Empty(), [o], [asked]));
    var s2 := s.(replicas := OneReplica(Empty(), [o], [found]));
    var s3 := s.(replicas := OneReplica(Empty(), [o], [cut]));
    assert [] + [asked] == [asked] && [asked][0 := found] == [found] && [found][0 := cut] == [cut];
    OnlyReplicaSteps(s, Get(0, k), s.replicas[0], s1.replicas[0], []);
    OnlyReplicaSteps(s1, ReadBase(0, 0), s1.replicas[0], s2.replicas[0], []);
    OnlyReplicaSteps(s2, ReadItems(0, 0, part), s2.replicas[0], s3.replicas[0], []);
    ReadEnds(a, s3, o, base, part);
    var rest := [Finish(0, 0)] + ([RunSet(0, 1)] + ([Get(0, k)] + []));
    Prepend(a, s2, ReadItems(0, 0, part), rest);
    Prepend(a, s1, ReadBase(0, 0), [ReadItems(0, 0, part)] + rest);
    Prepend(a, s, Get(0, k), [ReadBase(0, 0)] + ([ReadItems(0, 0, part)] + rest));
  }

  /** The items stop arriving after the `n`th, for any `n` short of all: with
      good commits and the base row read first, the order is served, and
      cached, with the first `n` of its items. */
  lemma BrokenReadDiverges(o: Order, now: int, n: nat)
    requires Storable(o, o) && n < |o.items|
    ensures var part := FirstItems(o, n);
            var torn := StoredBase(o, now).(items := part);
            var run := [Save(0, o, o, now, true)] + ([Get(0, o.orderUID)] + ([ReadBase(0, 0)] +
                       ([ReadItems(0, 0, part)] + ([Finish(0, 0)] + ([RunSet(0, 1)] + ([Get(0, o.orderUID)] + []))))));
            && Legal(Init([1]), run) && Behaves(Allowance(false, false, false, true), Init([1]), run)
            && var s := After(Init([1]), run);
               s.served == [torn, torn] && s.committed == map[o.orderUID := o] && !Coherent(s.committed, torn)
  {
    var a, k, s0 := Allowance(false, false, false, true), o.orderUID, Init([1]);
    var part := FirstItems(o, n);
    assert s0.replicas == OneReplica(Empty(), [], []);
    FirstSave(s0, o, o, now, []);
    var s1 := Next(s0, Save(0, o, o, now, true));
    FirstItemsArrive(s1.db, o, n);
    BrokenReadEnds(a, s1, o, StoredBase(o, now), part);
    Prepend(a, s0, Save(0, o, o, now, true),
            [Get(0, k)] + ([ReadBase(0, 0)] + ([ReadItems(0, 0, part)] +
                           ([Finish(0, 0)] + ([RunSet(0, 1)] + ([Get(0, k)] + []))))));
    MissingItemsShow(o, now, part);
  }
}
