/** Several replicas, each with its own cache, over one database: saves, reads,
    warm-up and the detached cache `Set`s interleave freely
    (order_service/internal/service/order_service.go:28-124, postgres.go:34-65).
    An order is put together from two queries that are separate steps, and the
    rows of the second may stop arriving unnoticed. An order may be stored
    differently than it was given. */
module Coherence {
  import opened Common
  import opened Models
  import opened LruModel
  import opened Storage
  import opened Handler

  datatype Query<T> = NotYet | Done(value: T)

  /** A read in progress. A warm-up read answers nobody. */
  datatype Reader = Reader(key: string, base: Query<Option<Order>>, items: Query<seq<OrderItem>>, warmUp: bool)

  datatype Replica = Replica(
    cap: int,
    cache: Lru<string, Order>,
    pending: seq<Order>,       // detached Sets that have not run yet
    readers: seq<Reader>)

  datatype State = State(
    db: Tables,
    replicas: seq<Replica>,
    committed: map<string, Order>,  // the order each committed save stored
    lost: set<Order>,               // saves reported as done, but not stored as given
    served: seq<Order>)             // every order a GetOrder call returned

  datatype Label =
    | Save(r: nat, order: Order, kept: Order, now: int, commitOk: bool)
    | RunSet(r: nat, i: nat)
    | Get(r: nat, key: string)
    | WarmBase(r: nat, key: string)
    | ReadBase(r: nat, i: nat)
    | ReadItems(r: nat, i: nat, items: seq<OrderItem>)
    | Finish(r: nat, i: nat)
    | Abort(r: nat, i: nat)

  function Init(caps: seq<int>): State {
    State(NO_ROWS, seq(|caps|, i requires 0 <= i < |caps| => Replica(caps[i], Empty(), [], [])), map[], {}, [])
  }

  /** What `ValidateOrder` guarantees and storage relies on. */
  predicate Validated(o: Order) { o.orderUID != "" && o.items != [] }

  ghost predicate Enabled(s: State, l: Label) {
    && l.r < |s.replicas|
    && var p := s.replicas[l.r];
       match l
       case Save(_, o, kept, now, _) => Validated(o) && Keeps(o, kept) && Inserted(s.db, kept, now).Some?
       case RunSet(_, i) => i < |p.pending|
       case Get(_, _) => true
       case WarmBase(_, k) => BaseRead(s.db, k).Some?
       case ReadBase(_, i) => i < |p.readers| && p.readers[i].base.NotYet?
       case ReadItems(_, i, items) =>
         i < |p.readers| && p.readers[i].items.NotYet? && PartListing(s.db, p.readers[i].key, items)
       case Finish(_, i) => i < |p.readers| && p.readers[i].base.Done? && p.readers[i].items.Done?
       case Abort(_, i) => i < |p.readers|
  }

  function Assembled(rd: Reader): Option<Order>
    requires rd.base.Done? && rd.items.Done?
  {
    match rd.base.value
    case None => None
    case Some(o) => Some(o.(items := rd.items.value))
  }

  /** The part of a step that concerns the replica alone. */
  ghost function NextReplica(s: State, p: Replica, l: Label): Replica
    requires l.r < |s.replicas| && s.replicas[l.r] == p && Enabled(s, l)
  {
    match l
    case Save(_, o, _, _, _) => p.(pending := p.pending + [o])
    case RunSet(_, i) =>
      p.(cache := SetSpec(p.cap, p.cache, p.pending[i].orderUID, p.pending[i]), pending := RemovedAt(p.pending, i))
    case Get(_, k) =>
      if k in p.cache.data then p.(cache := GetSpec(p.cache, k))
      else p.(readers := p.readers + [Reader(k, NotYet, NotYet, false)])
    case WarmBase(_, k) => p.(readers := p.readers + [Reader(k, Done(BaseRead(s.db, k)), NotYet, true)])
    case ReadBase(_, i) => p.(readers := p.readers[i := p.readers[i].(base := Done(BaseRead(s.db, p.readers[i].key)))])
    case ReadItems(_, i, items) => p.(readers := p.readers[i := p.readers[i].(items := Done(items))])
    case Finish(_, i) =>
      p.(readers := RemovedAt(p.readers, i),
         pending := p.pending + match Assembled(p.readers[i]) case None => [] case Some(o) => [o])
    case Abort(_, i) => p.(readers := RemovedAt(p.readers, i))
  }

  /** The order a step returns to a caller, if any. */
  ghost function Answer(s: State, l: Label): seq<Order>
    requires Enabled(s, l)
  {
    var p := s.replicas[l.r];
    match l
    case Get(_, k) => if k in p.cache.data then [p.cache.data[k]] else []
    case Finish(_, i) =>
      (match Assembled(p.readers[i]) case None => [] case Some(o) => if p.readers[i].warmUp then [] else [o])
    case _ => []
  }

  /** A save that reports success, but of which the tables do not hold `o`. */
  function Astray(o: Order, kept: Order, commitOk: bool): set<Order> {
    if commitOk && kept == o then {} else {o}
  }

  ghost function Next(s: State, l: Label): State
    requires Enabled(s, l)
  {
    var n := s.(replicas := s.replicas[l.r := NextReplica(s, s.replicas[l.r], l)], served := s.served + Answer(s, l));
    match l
    case Save(_, o, kept, now, commitOk) =>
      var m := n.(lost := s.lost + Astray(o, kept, commitOk));
      if commitOk then m.(db := Inserted(s.db, kept, now).value, committed := s.committed[kept.orderUID := kept]) else m
    case _ => n
  }

  ghost predicate Legal(s: State, run: seq<Label>)
    decreases run
  {
    run == [] || (Enabled(s, run[0]) && Legal(Next(s, run[0]), run[1..]))
  }

  ghost function After(s: State, run: seq<Label>): State
    requires Legal(s, run)
    decreases run
  {
    if run == [] then s else After(Next(s, run[0]), run[1..])
  }

  // ----- the four hypotheses -----

  /** What a run is allowed to do: fail a commit, store an order differently
      than given, read the items of an order before its base row, and miss some
      of the items without an error. */
  datatype Allowance = Allowance(lostCommits: bool, altered: bool, itemsFirst: bool, brokenReads: bool)

  ghost predicate Permitted(a: Allowance, s: State, l: Label)
    requires Enabled(s, l)
  {
    match l
    case Save(_, o, kept, _, commitOk) => (commitOk || a.lostCommits) && (kept == o || a.altered)
    case ReadItems(r, i, items) =>
      var rd := s.replicas[r].readers[i];
      (rd.base.Done? || a.itemsFirst) && (Listing(s.db, rd.key, items) || a.brokenReads)
    case _ => true
  }

  ghost predicate Behaves(a: Allowance, s: State, run: seq<Label>)
    requires Legal(s, run)
    decreases run
  {
    run == [] || (Permitted(a, s, run[0]) && Behaves(a, Next(s, run[0]), run[1..]))
  }

  // ----- the invariant -----

  /** The order and what was committed under its uid give the same response. */
  ghost predicate Coherent(committed: map<string, Order>, o: Order) {
    o.orderUID in committed && SameResponse(ToResponse(o), ToResponse(committed[o.orderUID]))
  }

  /** The same, but some of the items are missing. */
  ghost predicate Torn(committed: map<string, Order>, o: Order) {
    && o.orderUID in committed
    && var r, c := ToResponse(o), ToResponse(committed[o.orderUID]);
       r.(items := []) == c.(items := []) && multiset(r.items) < multiset(c.items)
  }

  ghost predicate EntryOk(a: Allowance, committed: map<string, Order>, lost: set<Order>, o: Order) {
    || Coherent(committed, o)
    || (Torn(committed, o) && (a.brokenReads || (a.itemsFirst && o.items == [])))
    || o in lost
  }

  ghost predicate Full(committed: map<string, Order>, k: string, items: seq<OrderItem>) {
    k in committed && multiset(items) == multiset(LinkItems(k, committed[k].items))
  }

  ghost predicate Part(committed: map<string, Order>, k: string, items: seq<OrderItem>) {
    items == [] || (k in committed && multiset(items) <= multiset(LinkItems(k, committed[k].items)))
  }

  /** `base` is what the joined query makes of the order `o`. */
  ghost predicate BaseMatches(base: Order, o: Order) {
    base.orderUID == o.orderUID && base.items == [] && ToResponse(base) == ToResponse(o).(items := [])
  }

  ghost predicate BaseOk(committed: map<string, Order>, k: string, base: Order) {
    k in committed && base.orderUID == k && BaseMatches(base, committed[k])
  }

  ghost predicate ItemsOk(a: Allowance, committed: map<string, Order>, k: string, items: seq<OrderItem>) {
    Part(committed, k, items) && (a.brokenReads || items == [] || Full(committed, k, items))
  }

  ghost predicate ReaderOk(a: Allowance, committed: map<string, Order>, rd: Reader) {
    && (rd.base.Done? && rd.base.value.Some? ==> BaseOk(committed, rd.key, rd.base.value.value))
    && (rd.items.Done? ==> ItemsOk(a, committed, rd.key, rd.items.value))
    && (rd.items.Done? && !a.itemsFirst ==>
          && rd.base.Done?
          && (rd.base.value.Some? ==> a.brokenReads || Full(committed, rd.key, rd.items.value)))
  }

  ghost predicate CacheOk(a: Allowance, committed: map<string, Order>, lost: set<Order>, c: Lru<string, Order>) {
    forall k :: k in c.data ==> c.data[k].orderUID == k && EntryOk(a, committed, lost, c.data[k])
  }

  ghost predicate OrdersOk(a: Allowance, committed: map<string, Order>, lost: set<Order>, os: seq<Order>) {
    forall i :: 0 <= i < |os| ==> EntryOk(a, committed, lost, os[i])
  }

  ghost predicate ReadersOk(a: Allowance, committed: map<string, Order>, rds: seq<Reader>) {
    forall i :: 0 <= i < |rds| ==> ReaderOk(a, committed, rds[i])
  }

  ghost predicate ReplicaOk(a: Allowance, committed: map<string, Order>, lost: set<Order>, p: Replica) {
    && CacheOk(a, committed, lost, p.cache)
    && OrdersOk(a, committed, lost, p.pending)
    && ReadersOk(a, committed, p.readers)
  }

  ghost predicate StoredOk(db: Tables, k: string, o: Order) {
    && o.orderUID == k && o.items != []
    && BaseRead(db, k).Some?
    && BaseMatches(BaseRead(db, k).value, o)
    && multiset(ItemRows(db, k)) == multiset(LinkItems(k, o.items))
  }

  /** The tables hold exactly what was committed, as the two queries see it. */
  ghost predicate DbOk(db: Tables, committed: map<string, Order>) {
    && Intact(db)
    && committed.Keys == db.orders.Keys
    && (forall k :: k in committed ==> StoredOk(db, k, committed[k]))
  }

  ghost predicate Inv(a: Allowance, s: State) {
    && DbOk(s.db, s.committed)
    && (forall r :: 0 <= r < |s.replicas| ==> ReplicaOk(a, s.committed, s.lost, s.replicas[r]))
    && OrdersOk(a, s.committed, s.lost, s.served)
    && (!a.lostCommits && !a.altered ==> s.lost == {})
  }

  /** `u` is `db` with the order `o` saved, as the queries see it. */
  ghost predicate SavedOnTop(db: Tables, u: Tables, o: Order, now: int) {
    && Intact(u)
    && o.orderUID !in db.orders && u.orders.Keys == db.orders.Keys + {o.orderUID}
    && BaseRead(u, o.orderUID) == Some(StoredBase(o, now))
    && multiset(ItemRows(u, o.orderUID)) == multiset(LinkItems(o.orderUID, o.items))
    && forall k :: k != o.orderUID ==> BaseRead(u, k) == BaseRead(db, k) && ItemRows(u, k) == ItemRows(db, k)
  }

  lemma InsertedOnTop(db: Tables, o: Order, now: int)
    requires Intact(db) && Validated(o) && Inserted(db, o, now).Some?
    ensures SavedOnTop(db, Inserted(db, o, now).value, o, now)
  {
    SaveRoundTrip(db, o, now);
    assert Listing(Inserted(db, o, now).value, o.orderUID, LinkItems(o.orderUID, o.items));
  }

  lemma NewIsStored(db: Tables, u: Tables, o: Order, now: int)
    requires Validated(o) && SavedOnTop(db, u, o, now)
    ensures StoredOk(u, o.orderUID, o)
  {
    assert ToResponse(StoredBase(o, now)) == ToResponse(o).(items := []);
  }

  lemma OldIsStored(db: Tables, u: Tables, o: Order, now: int, k: string, e: Order)
    requires SavedOnTop(db, u, o, now) && k != o.orderUID && StoredOk(db, k, e)
    ensures StoredOk(u, k, e)
  {
  }

  lemma DbExtended(u: Tables, committed: map<string, Order>, uid: string, o: Order)
    requires Intact(u) && u.orders.Keys == committed.Keys + {uid}
    requires StoredOk(u, uid, o) && uid !in committed
    requires forall k :: k in committed ==> StoredOk(u, k, committed[k])
    ensures DbOk(u, committed[uid := o])
  {
    var c := committed[uid := o];
    forall k | k in c ensures StoredOk(u, k, c[k]) {
      if k != uid { assert k in committed && c[k] == committed[k]; }
    }
  }

  lemma SavedIsOk(db: Tables, u: Tables, committed: map<string, Order>, o: Order, now: int)
    requires DbOk(db, committed) && Validated(o) && SavedOnTop(db, u, o, now)
    ensures o.orderUID !in committed && DbOk(u, committed[o.orderUID := o])
  {
    forall k | k in committed ensures StoredOk(u, k, committed[k]) {
      assert StoredOk(db, k, committed[k]);
      OldIsStored(db, u, o, now, k, committed[k]);
    }
    NewIsStored(db, u, o, now);
    DbExtended(u, committed, o.orderUID, o);
  }

  /** A uid that was not committed has no rows. */
  lemma NothingStored(db: Tables, committed: map<string, Order>, k: string)
    requires DbOk(db, committed) && k !in committed
    ensures BaseRead(db, k).None? && ItemRows(db, k) == {}
  {
    assert KeysFor(db, k) == {};
  }

  /** A later commit, or a later lost one, does not spoil what was fine. */
  lemma GrowthKeepsEntry(a: Allowance, c: map<string, Order>, o: Order, lost: set<Order>, more: set<Order>, e: Order)
    requires o.orderUID !in c && lost <= more && EntryOk(a, c, lost, e)
    ensures EntryOk(a, c[o.orderUID := o], more, e) && EntryOk(a, c, more, e)
  {
  }

  lemma GrowthKeepsReaders(a: Allowance, c: map<string, Order>, o: Order, rds: seq<Reader>)
    requires o.orderUID !in c && ReadersOk(a, c, rds)
    ensures ReadersOk(a, c[o.orderUID := o], rds)
  {
    forall i | 0 <= i < |rds| ensures ReaderOk(a, c[o.orderUID := o], rds[i]) {
      assert ReaderOk(a, c, rds[i]);
    }
  }

  lemma GrowthKeepsOrders(
      a: Allowance, c: map<string, Order>, o: Order, lost: set<Order>, more: set<Order>, os: seq<Order>)
    requires o.orderUID !in c && lost <= more && OrdersOk(a, c, lost, os)
    ensures OrdersOk(a, c[o.orderUID := o], more, os) && OrdersOk(a, c, more, os)
  {
    forall i | 0 <= i < |os| ensures EntryOk(a, c[o.orderUID := o], more, os[i]) && EntryOk(a, c, more, os[i]) {
      GrowthKeepsEntry(a, c, o, lost, more, os[i]);
    }
  }

  lemma GrowthKeepsReplica(
      a: Allowance, c: map<string, Order>, o: Order, lost: set<Order>, more: set<Order>, p: Replica)
    requires o.orderUID !in c && lost <= more && ReplicaOk(a, c, lost, p)
    ensures ReplicaOk(a, c[o.orderUID := o], more, p) && ReplicaOk(a, c, more, p)
  {
    GrowthKeepsReaders(a, c, o, p.readers);
    GrowthKeepsOrders(a, c, o, lost, more, p.pending);
    forall k | k in p.cache.data
      ensures EntryOk(a, c[o.orderUID := o], more, p.cache.data[k]) && EntryOk(a, c, more, p.cache.data[k])
    {
      GrowthKeepsEntry(a, c, o, lost, more, p.cache.data[k]);
    }
  }

  /** A base row with a part of the items is the committed order, or what is
      left of it. */
  lemma PutTogether(c: map<string, Order>, k: string, base: Order, items: seq<OrderItem>)
    requires BaseOk(c, k, base) && Part(c, k, items)
    ensures var o := base.(items := items);
            && (Full(c, k, items) <==> Coherent(c, o))
            && (Coherent(c, o) || Torn(c, o))
  {
    var o := base.(items := items);
    assert ToResponse(o).(items := []) == ToResponse(base);
    assert LinkItems(k, []) == [] && multiset(items) <= multiset(LinkItems(k, c[k].items));
    PartOfItems(items, LinkItems(k, c[k].items));
    LinkInvisible(k, c[k].items);
    if Full(c, k, items) {
      PartOfItems(LinkItems(k, c[k].items), items);
    } else if Coherent(c, o) {
      var mine, theirs := ToItems(items), ToItems(c[k].items);
      assert |mine| == |multiset(mine)| == |multiset(theirs)| == |theirs|;
      assert |multiset(items)| == |multiset(LinkItems(k, c[k].items))|;
      PartIsAll(multiset(items), multiset(LinkItems(k, c[k].items)));
    }
  }

  lemma AssembledOk(a: Allowance, c: map<string, Order>, lost: set<Order>, rd: Reader)
    requires ReaderOk(a, c, rd) && rd.base.Done? && rd.items.Done? && rd.base.value.Some?
    ensures EntryOk(a, c, lost, Assembled(rd).value)
  {
    PutTogether(c, rd.key, rd.base.value.value, rd.items.value);
  }

  lemma BaseStepOk(a: Allowance, db: Tables, c: map<string, Order>, rd: Reader)
    requires DbOk(db, c) && ReaderOk(a, c, rd) && rd.base.NotYet?
    ensures ReaderOk(a, c, rd.(base := Done(BaseRead(db, rd.key))))
  {
    if rd.key in c {
      assert StoredOk(db, rd.key, c[rd.key]);
    } else {
      NothingStored(db, c, rd.key);
    }
  }

  /** The items that a query may return. */
  lemma ReadItemsOk(a: Allowance, db: Tables, c: map<string, Order>, k: string, items: seq<OrderItem>)
    requires DbOk(db, c) && PartListing(db, k, items) && (Listing(db, k, items) || a.brokenReads)
    ensures ItemsOk(a, c, k, items)
    ensures k in c && !a.brokenReads ==> Full(c, k, items)
  {
    if k in c {
      assert StoredOk(db, k, c[k]);
    } else {
      NothingStored(db, c, k);
      assert |multiset(items)| == |items|;
    }
  }

  lemma ItemsStepOk(a: Allowance, db: Tables, c: map<string, Order>, rd: Reader, items: seq<OrderItem>)
    requires DbOk(db, c) && ReaderOk(a, c, rd) && rd.items.NotYet? && (rd.base.Done? || a.itemsFirst)
    requires PartListing(db, rd.key, items) && (Listing(db, rd.key, items) || a.brokenReads)
    ensures ReaderOk(a, c, rd.(items := Done(items)))
  {
    ReadItemsOk(a, db, c, rd.key, items);
  }

  lemma SetOk(a: Allowance, c: map<string, Order>, lost: set<Order>, p: Replica, i: nat)
    requires CacheOk(a, c, lost, p.cache) && OrdersOk(a, c, lost, p.pending) && i < |p.pending|
    ensures CacheOk(a, c, lost, SetSpec(p.cap, p.cache, p.pending[i].orderUID, p.pending[i]))
  {
  }

  lemma GetOk(a: Allowance, c: map<string, Order>, lost: set<Order>, p: Replica, k: string)
    requires ReplicaOk(a, c, lost, p)
    ensures CacheOk(a, c, lost, GetSpec(p.cache, k))
    ensures ReadersOk(a, c, p.readers + [Reader(k, NotYet, NotYet, false)])
    ensures k in p.cache.data ==> OrdersOk(a, c, lost, [p.cache.data[k]])
  {
  }

  lemma RemovedOrdersOk(a: Allowance, c: map<string, Order>, lost: set<Order>, os: seq<Order>, i: nat)
    requires OrdersOk(a, c, lost, os) && i < |os|
    ensures OrdersOk(a, c, lost, RemovedAt(os, i))
  {
    RemovedAtIs(os, i);
  }

  lemma AppendedOrdersOk(a: Allowance, c: map<string, Order>, lost: set<Order>, os: seq<Order>, more: seq<Order>)
    requires OrdersOk(a, c, lost, os) && OrdersOk(a, c, lost, more)
    ensures OrdersOk(a, c, lost, os + more)
  {
  }

  lemma RemovedReadersOk(a: Allowance, c: map<string, Order>, rds: seq<Reader>, i: nat)
    requires ReadersOk(a, c, rds) && i < |rds|
    ensures ReadersOk(a, c, RemovedAt(rds, i))
  {
    RemovedAtIs(rds, i);
  }

  lemma FinishOk(a: Allowance, c: map<string, Order>, lost: set<Order>, p: Replica, i: nat)
    requires ReplicaOk(a, c, lost, p) && i < |p.readers| && p.readers[i].base.Done? && p.readers[i].items.Done?
    ensures ReadersOk(a, c, RemovedAt(p.readers, i))
    ensures Assembled(p.readers[i]).Some? ==>
              var o := Assembled(p.readers[i]).value;
              OrdersOk(a, c, lost, [o]) && OrdersOk(a, c, lost, p.pending + [o])
  {
    var rd := p.readers[i];
    RemovedReadersOk(a, c, p.readers, i);
    assert ReaderOk(a, c, rd);
    if rd.base.value.Some? {
      AssembledOk(a, c, lost, rd);
      AppendedOrdersOk(a, c, lost, p.pending, [Assembled(rd).value]);
    }
  }

  lemma ReplacedReaderOk(a: Allowance, c: map<string, Order>, rds: seq<Reader>, i: nat, rd: Reader)
    requires ReadersOk(a, c, rds) && i < |rds| && ReaderOk(a, c, rd)
    ensures ReadersOk(a, c, rds[i := rd])
  {
  }

  lemma WarmReaderOk(a: Allowance, db: Tables, c: map<string, Order>, k: string)
    requires DbOk(db, c) && BaseRead(db, k).Some?
    ensures ReaderOk(a, c, Reader(k, Done(BaseRead(db, k)), NotYet, true))
  {
    assert k in db.orders;
    assert StoredOk(db, k, c[k]);
  }

  lemma AppendedReaderOk(a: Allowance, c: map<string, Order>, rds: seq<Reader>, rd: Reader)
    requires ReadersOk(a, c, rds) && ReaderOk(a, c, rd)
    ensures ReadersOk(a, c, rds + [rd])
  {
  }

  /** Every step of a replica that leaves the database alone. */
  lemma ReplicaStepOk(a: Allowance, s: State, l: Label)
    requires Inv(a, s) && Enabled(s, l) && Permitted(a, s, l) && !l.Save?
    ensures ReplicaOk(a, s.committed, s.lost, NextReplica(s, s.replicas[l.r], l))
    ensures OrdersOk(a, s.committed, s.lost, Answer(s, l))
  {
    var c, lost, p := s.committed, s.lost, s.replicas[l.r];
    assert ReplicaOk(a, c, lost, p);
    match l
    case RunSet(_, i) =>
      SetOk(a, c, lost, p, i);
      RemovedOrdersOk(a, c, lost, p.pending, i);
    case Get(_, k) => GetOk(a, c, lost, p, k);
    case WarmBase(_, k) =>
      WarmReaderOk(a, s.db, c, k);
      AppendedReaderOk(a, c, p.readers, Reader(k, Done(BaseRead(s.db, k)), NotYet, true));
    case ReadBase(_, i) =>
      BaseStepOk(a, s.db, c, p.readers[i]);
      ReplacedReaderOk(a, c, p.readers, i, p.readers[i].(base := Done(BaseRead(s.db, p.readers[i].key))));
    case ReadItems(_, i, items) =>
      ItemsStepOk(a, s.db, c, p.readers[i], items);
      ReplacedReaderOk(a, c, p.readers, i, p.readers[i].(items := Done(items)));
    case Finish(_, i) =>
      FinishOk(a, c, lost, p, i);
      assert p.pending + [] == p.pending;
    case Abort(_, i) => RemovedReadersOk(a, c, p.readers, i);
  }

  /** A save as a replica and the readers of its state see it. */
  lemma SaveKeepsReplica(
      a: Allowance, c: map<string, Order>, lost: set<Order>, o: Order, kept: Order, commitOk: bool, p: Replica)
    requires kept.orderUID !in c && ReplicaOk(a, c, lost, p)
    ensures var d, more := if commitOk then c[kept.orderUID := kept] else c, lost + Astray(o, kept, commitOk);
            ReplicaOk(a, d, more, p) && ReplicaOk(a, d, more, p.(pending := p.pending + [o]))
  {
    var d, more := if commitOk then c[kept.orderUID := kept] else c, lost + Astray(o, kept, commitOk);
    GrowthKeepsReplica(a, c, kept, lost, more, p);
    assert EntryOk(a, d, more, o);
    AppendedOrdersOk(a, d, more, p.pending, [o]);
  }

  lemma SaveKeepsInv(a: Allowance, s: State, n: State, r: nat, o: Order, kept: Order, now: int, commitOk: bool)
    requires Inv(a, s) && r < |s.replicas| && Validated(kept)
    requires (commitOk || a.lostCommits) && (kept == o || a.altered)
    requires kept.orderUID !in s.db.orders && (commitOk ==> SavedOnTop(s.db, n.db, kept, now))
    requires n == State(if commitOk then n.db else s.db,
                        s.replicas[r := s.replicas[r].(pending := s.replicas[r].pending + [o])],
                        if commitOk then s.committed[kept.orderUID := kept] else s.committed,
                        s.lost + Astray(o, kept, commitOk),
                        s.served)
    ensures Inv(a, n)
  {
    if commitOk {
      SavedIsOk(s.db, n.db, s.committed, kept, now);
    }
    GrowthKeepsOrders(a, s.committed, kept, s.lost, n.lost, s.served);
    forall q | 0 <= q < |n.replicas| ensures ReplicaOk(a, n.committed, n.lost, n.replicas[q]) {
      SaveKeepsReplica(a, s.committed, s.lost, o, kept, commitOk, s.replicas[q]);
    }
  }

  lemma SaveStepKeepsInv(a: Allowance, s: State, l: Label)
    requires Inv(a, s) && Enabled(s, l) && Permitted(a, s, l) && l.Save?
    ensures Inv(a, Next(s, l))
  {
    InsertedOnTop(s.db, l.kept, l.now);
    assert s.served + Answer(s, l) == s.served;
    SaveKeepsInv(a, s, Next(s, l), l.r, l.order, l.kept, l.now, l.commitOk);
  }

  lemma StepKeepsInv(a: Allowance, s: State, l: Label)
    requires Inv(a, s) && Enabled(s, l) && Permitted(a, s, l)
    ensures Inv(a, Next(s, l))
  {
    if l.Save? {
      SaveStepKeepsInv(a, s, l);
    } else {
      var n := Next(s, l);
      ReplicaStepOk(a, s, l);
      AppendedOrdersOk(a, s.committed, s.lost, s.served, Answer(s, l));
      forall r | 0 <= r < |n.replicas| ensures ReplicaOk(a, n.committed, n.lost, n.replicas[r]) {
        if r != l.r { assert n.replicas[r] == s.replicas[r]; }
      }
    }
  }

  lemma {:induction false} EveryRunKeepsInv(a: Allowance, s: State, run: seq<Label>)
    requires Inv(a, s) && Legal(s, run) && Behaves(a, s, run)
    ensures Inv(a, After(s, run))
    decreases run
  {
    if run != [] {
      StepKeepsInv(a, s, run[0]);
      EveryRunKeepsInv(a, Next(s, run[0]), run[1..]);
    }
  }

  lemma InitOk(a: Allowance, caps: seq<int>)
    ensures Inv(a, Init(caps))
  {
    forall r | 0 <= r < |caps| ensures ReplicaOk(a, map[], {}, Init(caps).replicas[r]) {
      assert Init(caps).replicas[r] == Replica(caps[r], Empty(), [], []);
    }
  }

  // ----- the results -----

  /** An order some replica has cached, is about to cache, or has served. */
  ghost predicate Held(s: State, o: Order) {
    || o in s.served
    || exists r :: 0 <= r < |s.replicas| && (o in s.replicas[r].pending || o in s.replicas[r].cache.data.Values)
  }

  lemma HeldIsOk(a: Allowance, s: State, o: Order)
    requires Inv(a, s) && Held(s, o)
    ensures EntryOk(a, s.committed, s.lost, o)
  {
    if o !in s.served {
      var r :| 0 <= r < |s.replicas| && (o in s.replicas[r].pending || o in s.replicas[r].cache.data.Values);
      assert ReplicaOk(a, s.committed, s.lost, s.replicas[r]);
    }
  }

  /** What any run leaves of an order that did not get lost, as what is stored
      under its uid tells, in whatever order the database lists the items. */
  lemma HeldAgainstStored(a: Allowance, caps: seq<int>, run: seq<Label>, o: Order, items: seq<OrderItem>)
    requires Legal(Init(caps), run) && Behaves(a, Init(caps), run)
    requires var s := After(Init(caps), run); Held(s, o) && o !in s.lost && Listing(s.db, o.orderUID, items)
    ensures var s, k := After(Init(caps), run), o.orderUID;
            && Inv(a, s) && EntryOk(a, s.committed, s.lost, o) && k in s.committed
            && BaseRead(s.db, k).Some?
            && var stored := ToResponse(BaseRead(s.db, k).value.(items := items));
               SameResponse(stored, ToResponse(s.committed[k])) && |stored.items| == |items|
  {
    var s, k := After(Init(caps), run), o.orderUID;
    InitOk(a, caps);
    EveryRunKeepsInv(a, Init(caps), run);
    HeldIsOk(a, s, o);
    assert StoredOk(s.db, k, s.committed[k]);
    PutTogether(s.committed, k, BaseRead(s.db, k).value, items);
  }

  /** If commits succeed, orders are stored as given, items are never read
      before their order, and no stream of items ends early, then over every
      interleaving of any number of replicas everything cached, pending or
      served gives the response of what is stored under its uid, whichever order
      the database lists the items in. */
  lemma CachesAreCoherent(caps: seq<int>, run: seq<Label>, o: Order, items: seq<OrderItem>)
    requires Legal(Init(caps), run) && Behaves(Allowance(false, false, false, false), Init(caps), run)
    requires Held(After(Init(caps), run), o) && Listing(After(Init(caps), run).db, o.orderUID, items)
    ensures var s := After(Init(caps), run);
            && Coherent(s.committed, o)
            && BaseRead(s.db, o.orderUID).Some?
            && SameResponse(ToResponse(o), ToResponse(BaseRead(s.db, o.orderUID).value.(items := items)))
  {
    var a := Allowance(false, false, false, false);
    InitOk(a, caps);
    EveryRunKeepsInv(a, Init(caps), run);
    HeldAgainstStored(a, caps, run, o, items);
  }

  /** Orders whose texts are plain are stored as given, so of these the second
      hypothesis need not be asked. */
  lemma {:induction false} PlainIsAsGiven(a: Allowance, s: State, run: seq<Label>)
    requires Legal(s, run) && Behaves(a, s, run)
    requires forall i :: 0 <= i < |run| && run[i].Save? ==> Plain(run[i].order)
    ensures Behaves(a.(altered := false), s, run)
    decreases run
  {
    if run != [] {
      forall i | 0 <= i < |run| - 1 && run[1..][i].Save? ensures Plain(run[1..][i].order) {
        assert run[1..][i] == run[i + 1];
      }
      PlainIsAsGiven(a, Next(s, run[0]), run[1..]);
    }
  }

  /** So any two answers for one uid agree, wherever and whenever given. */
  lemma AnswersAgree(caps: seq<int>, run: seq<Label>, i: nat, j: nat)
    requires Legal(Init(caps), run) && Behaves(Allowance(false, false, false, false), Init(caps), run)
    requires var served := After(Init(caps), run).served;
             i < |served| && j < |served| && served[i].orderUID == served[j].orderUID
    ensures var served := After(Init(caps), run).served;
            SameResponse(ToResponse(served[i]), ToResponse(served[j]))
  {
    var a, s := Allowance(false, false, false, false), After(Init(caps), run);
    InitOk(a, caps);
    EveryRunKeepsInv(a, Init(caps), run);
    HeldIsOk(a, s, s.served[i]);
    HeldIsOk(a, s, s.served[j]);
  }

  lemma {:induction false} AllIsAllowed(s: State, run: seq<Label>)
    requires Legal(s, run)
    ensures Behaves(Allowance(true, true, true, true), s, run)
    decreases run
  {
    if run != [] {
      AllIsAllowed(Next(s, run[0]), run[1..]);
    }
  }

  /** With no hypothesis on the run, beyond what `Storage.Keeps` says of texts
      and that times are stored as they are: whatever is held either comes from a save that
      was not stored as given, or is the stored order with a part of its items;
      and it is the stored order exactly when it has as many items as are
      stored. */
  lemma CoherentIffAllItems(caps: seq<int>, run: seq<Label>, o: Order, items: seq<OrderItem>)
    requires Legal(Init(caps), run)
    requires Held(After(Init(caps), run), o) && o !in After(Init(caps), run).lost
    requires Listing(After(Init(caps), run).db, o.orderUID, items)
    ensures var s := After(Init(caps), run);
            && BaseRead(s.db, o.orderUID).Some?
            && var mine, stored := ToResponse(o), ToResponse(BaseRead(s.db, o.orderUID).value.(items := items));
               && mine.(items := []) == stored.(items := [])
               && multiset(mine.items) <= multiset(stored.items)
               && (SameResponse(mine, stored) <==> |o.items| == |items|)
  {
    var a, s := Allowance(true, true, true, true), After(Init(caps), run);
    AllIsAllowed(Init(caps), run);
    HeldAgainstStored(a, caps, run, o, items);
    var mine, stored := ToResponse(o).items, ToResponse(BaseRead(s.db, o.orderUID).value.(items := items)).items;
    assert |mine| == |multiset(mine)| && |stored| == |multiset(stored)|;
    if |mine| == |stored| {
      PartIsAll(multiset(mine), multiset(stored));
    }
  }

  // ----- the same, told by the steps -----

  /** Where step `l` leaves the reader at place `i` of replica `r`. */
  function Tracked(l: Label, r: nat, i: nat): Option<nat> {
    if l.r == r && (l.Finish? || l.Abort?) && l.i <= i then if l.i == i then None else Some(i - 1) else Some(i)
  }

  /** Where a run leaves it, unless it ends it. */
  function TrackedAll(run: seq<Label>, r: nat, i: nat): Option<nat>
    decreases run
  {
    if run == [] then Some(i)
    else match Tracked(run[0], r, i) case None => None case Some(j) => TrackedAll(run[1..], r, j)
  }

  ghost predicate Grows(c: map<string, Order>, d: map<string, Order>) {
    forall k :: k in c ==> k in d && d[k] == c[k]
  }

  /** A reader that has its items keeps them. */
  ghost predicate KeepsItems(rds: seq<Reader>, i: nat, now: seq<Reader>, j: nat) {
    && i < |rds| && j < |now|
    && now[j].key == rds[i].key && rds[i].items.Done? && now[j].items == rds[i].items
  }

  ghost predicate Stays(s: State, i: nat, n: State, j: nat, r: nat) {
    && r < |s.replicas| && r < |n.replicas| && Grows(s.committed, n.committed)
    && KeepsItems(s.replicas[r].readers, i, n.replicas[r].readers, j)
  }

  lemma ReaderStays(s: State, p: Replica, l: Label, i: nat)
    requires Enabled(s, l) && s.replicas[l.r] == p && Tracked(l, l.r, i).Some?
    requires i < |p.readers| && p.readers[i].items.Done?
    ensures KeepsItems(p.readers, i, NextReplica(s, p, l).readers, Tracked(l, l.r, i).value)
  {
    if l.Finish? || l.Abort? {
      RemovedAtIs(p.readers, l.i);
    }
  }

  lemma SavedIsNew(db: Tables, o: Order, now: int)
    requires Inserted(db, o, now).Some?
    ensures o.orderUID !in db.orders
  {
    assert InsertOrder(db, o, now).Some?;
  }

  lemma CommittedStays(s: State, l: Label)
    requires s.committed.Keys == s.db.orders.Keys && Enabled(s, l)
    ensures Grows(s.committed, Next(s, l).committed)
  {
    if l.Save? {
      SavedIsNew(s.db, l.kept, l.now);
    }
  }

  lemma StepStays(a: Allowance, s: State, l: Label, r: nat, i: nat)
    requires Inv(a, s) && Enabled(s, l) && Tracked(l, r, i).Some?
    requires r < |s.replicas| && i < |s.replicas[r].readers| && s.replicas[r].readers[i].items.Done?
    ensures Stays(s, i, Next(s, l), Tracked(l, r, i).value, r)
  {
    CommittedStays(s, l);
    if l.r == r {
      ReaderStays(s, s.replicas[r], l, i);
    }
  }

  lemma {:induction false} RunStays(a: Allowance, s: State, run: seq<Label>, r: nat, i: nat)
    requires Inv(a, s) && Legal(s, run) && Behaves(a, s, run) && TrackedAll(run, r, i).Some?
    requires r < |s.replicas| && i < |s.replicas[r].readers| && s.replicas[r].readers[i].items.Done?
    ensures Stays(s, i, After(s, run), TrackedAll(run, r, i).value, r)
    decreases run
  {
    if run != [] {
      StepStays(a, s, run[0], r, i);
      StepKeepsInv(a, s, run[0]);
      RunStays(a, Next(s, run[0]), run[1..], r, Tracked(run[0], r, i).value);
    }
  }

  /** What a read of the items saw is all that its uid will ever have exactly
      when the uid was committed and nothing was missing. */
  lemma SeenIsFull(db: Tables, c: map<string, Order>, d: map<string, Order>, k: string, items: seq<OrderItem>)
    requires Grows(c, d) && PartListing(db, k, items)
    requires k in c ==> multiset(ItemRows(db, k)) == multiset(LinkItems(k, c[k].items))
    requires k !in c ==> ItemRows(db, k) == {} && (k in d ==> d[k].items != [])
    ensures Full(d, k, items) <==> k in c && Listing(db, k, items)
  {
    if k !in c {
      assert |multiset(items)| == |items|;
      if k in d {
        assert |multiset(LinkItems(k, d[k].items))| > 0;
      }
    }
  }

  lemma SeenIsAll(
      db: Tables, c: map<string, Order>, later: Tables, d: map<string, Order>, k: string, items: seq<OrderItem>)
    requires DbOk(db, c) && DbOk(later, d) && Grows(c, d) && PartListing(db, k, items)
    ensures Full(d, k, items) <==> k in c && Listing(db, k, items)
  {
    if k in c {
      assert StoredOk(db, k, c[k]);
    } else {
      NothingStored(db, c, k);
      assert k in d ==> StoredOk(later, k, d[k]);
    }
    SeenIsFull(db, c, d, k, items);
  }

  lemma AssembledIff(a: Allowance, d: map<string, Order>, rd: Reader)
    requires ReaderOk(a, d, rd) && rd.base.Done? && rd.items.Done? && rd.base.value.Some?
    ensures Coherent(d, Assembled(rd).value) <==> Full(d, rd.key, rd.items.value)
  {
    PutTogether(d, rd.key, rd.base.value.value, rd.items.value);
  }

  lemma ReaderIsOk(a: Allowance, s: State, r: nat, i: nat)
    requires Inv(a, s) && r < |s.replicas| && i < |s.replicas[r].readers|
    ensures ReaderOk(a, s.committed, s.replicas[r].readers[i])
  {
    assert ReplicaOk(a, s.committed, s.lost, s.replicas[r]);
  }

  lemma ItemsRead(s: State, r: nat, i: nat, items: seq<OrderItem>)
    requires Enabled(s, ReadItems(r, i, items))
    ensures var n := Next(s, ReadItems(r, i, items));
            && n.committed == s.committed && r < |n.replicas| && i < |n.replicas[r].readers|
            && n.replicas[r].readers[i].key == s.replicas[r].readers[i].key
            && n.replicas[r].readers[i].items == Done(items)
  {
  }

  /** In every run: when a read that found its base row ends, the order it put
      together is coherent exactly when the step that read its items, however
      long ago, saw the whole listing of a uid committed by then. */
  lemma FinishedCoherentIff(
      caps: seq<int>, past: seq<Label>, r: nat, i: nat, items: seq<OrderItem>, run: seq<Label>)
    requires Legal(Init(caps), past) && Enabled(After(Init(caps), past), ReadItems(r, i, items))
    requires var n := Next(After(Init(caps), past), ReadItems(r, i, items));
             && Legal(n, run) && TrackedAll(run, r, i).Some?
             && var e, j := After(n, run), TrackedAll(run, r, i).value;
                Enabled(e, Finish(r, j)) && e.replicas[r].readers[j].base.value.Some?
    ensures var s := After(Init(caps), past);
            var e, j := After(Next(s, ReadItems(r, i, items)), run), TrackedAll(run, r, i).value;
            var k := s.replicas[r].readers[i].key;
            Coherent(e.committed, Assembled(e.replicas[r].readers[j]).value)
            <==> k in s.committed && Listing(s.db, k, items)
  {
    var a, s := Allowance(true, true, true, true), After(Init(caps), past);
    var n := Next(s, ReadItems(r, i, items));
    InitOk(a, caps);
    AllIsAllowed(Init(caps), past);
    EveryRunKeepsInv(a, Init(caps), past);
    StepKeepsInv(a, s, ReadItems(r, i, items));
    ItemsRead(s, r, i, items);
    AllIsAllowed(n, run);
    EveryRunKeepsInv(a, n, run);
    RunStays(a, n, run, r, i);
    var e, j := After(n, run), TrackedAll(run, r, i).value;
    ReaderIsOk(a, e, r, j);
    AssembledIff(a, e.committed, e.replicas[r].readers[j]);
    SeenIsAll(s.db, s.committed, e.db, e.committed, s.replicas[r].readers[i].key, items);
  }
}
