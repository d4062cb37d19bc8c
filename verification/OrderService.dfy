/** The service object over its storage and its cache
    (order_service/internal/service/order_service.go), one call at a time: the
    detached cache `Set` of a call is done before the next call. Its contracts
    tie the calls to the traces that module `LruHistory` speaks about. */
module OrderServices {
  import opened Common
  import opened Models
  import opened LruModel
  import opened LruCache
  import opened Storage
  import H = LruHistory

  datatype ServiceError = ErrCache(cache: CacheError) | ErrStorage(storage: StorageError)

  /** The keys that a read finds. */
  function Loadable(t: Tables): set<string> { set k | k in t.orders && BaseRead(t, k).Some? }

  /** Every stored order can be read back: it came with items and a uid. */
  ghost predicate Readable(t: Tables) {
    Intact(t) && Loadable(t) == t.orders.Keys
  }

  lemma SaveStaysReadable(t: Tables, o: Order, now: int)
    requires Readable(t) && o.orderUID != "" && o.items != [] && Inserted(t, o, now).Some?
    ensures Readable(Inserted(t, o, now).value)
    ensures o.orderUID !in Loadable(t)
    ensures Loadable(Inserted(t, o, now).value) == Loadable(t) + {o.orderUID}
  {
    SaveRoundTrip(t, o, now);
    var u := Inserted(t, o, now).value;
    forall k ensures k in Loadable(u) <==> k in Loadable(t) + {o.orderUID} {
      assert k != o.orderUID ==> BaseRead(u, k) == BaseRead(t, k);
    }
  }

  /** What a save means for the keys that reads find. */
  lemma SaveSeen(t: Tables, o: Order, now: int)
    requires Intact(t)
    ensures Inserted(t, o, now).Some? <==> ColumnsFit(o) && o.orderUID !in t.orders && DistinctItems(o.items)
    ensures Inserted(t, o, now).Some? ==> Intact(Inserted(t, o, now).value)
    ensures Inserted(t, o, now).Some? && Readable(t) && o.orderUID != "" && o.items != [] ==>
              && Readable(Inserted(t, o, now).value)
              && Loadable(Inserted(t, o, now).value) == Loadable(t) + {o.orderUID}
  {
    InsertableIff(t, o, now);
    if Inserted(t, o, now).Some? {
      SaveRoundTrip(t, o, now);
      if Readable(t) && o.orderUID != "" && o.items != [] {
        SaveStaysReadable(t, o, now);
      }
    }
  }

  function EntriesOf(orders: seq<Order>): seq<H.Entry<string, Order>> {
    seq(|orders|, i requires 0 <= i < |orders| => H.Entry(orders[i].orderUID, orders[i]))
  }

  /** Every index below `n` once. */
  ghost predicate IsSchedule(schedule: seq<nat>, n: nat) {
    && |schedule| == n && NoDup(schedule)
    && (forall i :: i in schedule ==> i < n)
    && (forall i :: 0 <= i < n ==> i in schedule)
  }

  ghost function Arranged(orders: seq<Order>, schedule: seq<nat>): (r: seq<Order>)
    requires IsSchedule(schedule, |orders|)
    ensures |r| == |orders| && forall i :: 0 <= i < |r| ==> schedule[i] < |orders| && r[i] == orders[schedule[i]]
  {
    assert forall i :: 0 <= i < |schedule| ==> schedule[i] in schedule;
    seq(|schedule|, i requires 0 <= i < |schedule| => orders[schedule[i]])
  }

  lemma ArrangedEntries(orders: seq<Order>, schedule: seq<nat>, e: H.Entry<string, Order>)
    requires IsSchedule(schedule, |orders|)
    ensures e in EntriesOf(Arranged(orders, schedule)) <==> e in EntriesOf(orders)
  {
    var these, those := EntriesOf(orders), EntriesOf(Arranged(orders, schedule));
    if e in those {
      var i :| 0 <= i < |those| && those[i] == e;
      assert these[schedule[i]] == e;
    }
    if e in these {
      var i :| 0 <= i < |these| && these[i] == e;
      assert i in schedule;
      var j :| 0 <= j < |schedule| && schedule[j] == i;
      assert those[j] == e;
    }
  }

  lemma ArrangedDistinct(uids: seq<string>, orders: seq<Order>, schedule: seq<nat>)
    requires NoDup(uids) && |orders| <= |uids| && IsSchedule(schedule, |orders|)
    requires forall i :: 0 <= i < |orders| ==> orders[i].orderUID == uids[i]
    ensures H.DistinctKeys(EntriesOf(Arranged(orders, schedule)))
  {
    var r := Arranged(orders, schedule);
    NoDupPairs(uids);
    NoDupPairs(schedule);
    forall i, j | 0 <= i < j < |r| ensures EntriesOf(r)[i].key != EntriesOf(r)[j].key {
      assert schedule[i] != schedule[j];
      assert uids[schedule[i]] != uids[schedule[j]];
    }
  }

  /** With room for all, the warm cache holds exactly the loaded orders,
      whatever the schedule. */
  lemma WarmUpWhenAllFit(cap: int, uids: seq<string>, orders: seq<Order>, schedule: seq<nat>)
    requires NoDup(uids) && |orders| <= |uids| && |orders| <= cap && IsSchedule(schedule, |orders|)
    requires forall i :: 0 <= i < |orders| ==> orders[i].orderUID == uids[i]
    ensures H.HoldsExactly(H.Run(cap, H.SetsOf(EntriesOf(Arranged(orders, schedule)))).data, EntriesOf(orders))
  {
    var arranged := Arranged(orders, schedule);
    ArrangedDistinct(uids, orders, schedule);
    H.WarmUpHoldsAll(cap, EntriesOf(arranged));
    forall e ensures e in EntriesOf(arranged) <==> e in EntriesOf(orders) {
      ArrangedEntries(orders, schedule, e);
    }
  }

  class OrderService {
    const storage: OrdersStoragePostgres
    const cache: CacheLRUInMemory<string, Order>
    const zero: Order  // Go's zero value of an order

    constructor (storage: OrdersStoragePostgres, cache: CacheLRUInMemory<string, Order>, zero: Order)
      ensures this.storage == storage && this.cache == cache && this.zero == zero
    {
      this.storage, this.cache, this.zero := storage, cache, zero;
    }

    /** Cache and stored keys as one service state. */
    ghost function View(): H.Service<string, Order>
      reads storage, cache, cache.keysList
    {
      H.Service(cache.View(), Loadable(storage.tables))
    }

    /** A hit answers from the cache, whatever storage would do; a miss reads
        storage, caches what arrived and answers with it; an error of the read
        is passed on and changes nothing. */
    method GetOrder(orderUID: string, env: ReadEnv) returns (r: Result<Order, ServiceError>)
      requires cache.Valid()
      modifies cache, cache.keysList, cache.keysList.Repr
      ensures cache.Valid() && fresh(cache.keysList.Repr - old(cache.keysList.Repr))
      ensures View() == H.Serve(cache.cap, old(View()),
                                H.Fetch(orderUID, if r.Ok? then r.value else zero, ReadsGoThrough(env)))
      ensures orderUID in old(cache.data) ==> r == Ok(old(cache.data)[orderUID])
      ensures orderUID !in old(cache.data) ==>
                match r
                case Ok(o) => AnswersRead(storage.tables, orderUID, env, Ok(o))
                case Err(ErrStorage(e)) => AnswersRead(storage.tables, orderUID, env, Err(e))
                case Err(_) => false
    {
      var result, found, err := cache.Get(orderUID, zero);
      if err.Some? {
        return Err(ErrCache(ErrUnexpectedLinkedListBehaviour));
      }
      if !found {
        var loaded := storage.GetOrderByID(orderUID, env);
        if loaded.Err? {
          return Err(ErrStorage(loaded.error));
        }
        result := loaded.value;
        var _ := cache.Set(result.orderUID, result);
      }
      return Ok(result);
    }

    /** Store, then cache; nothing is cached when storing failed. For an order
        that can be read back, as validation guarantees, this is one `Save` of
        the trace, whatever becomes of the commit. */
    method SaveOrder(order: Order, env: Env) returns (err: Option<ServiceError>)
      requires cache.Valid() && Intact(storage.tables) && Keeps(order, env.kept)
      modifies storage, cache, cache.keysList, cache.keysList.Repr
      ensures cache.Valid() && Intact(storage.tables) && fresh(cache.keysList.Repr - old(cache.keysList.Repr))
      ensures err.None? <==> Undisturbed(env) && Inserted(old(storage.tables), env.kept, env.now).Some?
      ensures err.Some? ==> err.value.ErrStorage? && FailsWith(old(storage.tables), env.kept, env, err.value.storage)
      ensures cache.View() == if err.None? then SetSpec(cache.cap, old(cache.View()), order.orderUID, order)
                              else old(cache.View())
      ensures old(Readable(storage.tables)) && order.orderUID != "" && order.items != [] ==>
                && Readable(storage.tables)
                && View() == H.Serve(cache.cap, old(View()),
                                     H.Save(order.orderUID, order,
                                            Undisturbed(env) && ColumnsFit(env.kept) && DistinctItems(env.kept.items),
                                            env.kept.orderUID, env.commitOk))
    {
      SaveSeen(storage.tables, env.kept, env.now);
      var storageErr := storage.SaveOrder(order, env);
      if storageErr.Some? {
        return Some(ErrStorage(storageErr.value));
      }
      var _ := cache.Set(order.orderUID, order);
      return None;
    }

    /** The warm-up: load the last orders, then set each of them in a goroutine
        of its own. `schedule` is the order in which these get to run. From an
        empty cache with room for all, every schedule gives the same values. */
    method CacheLastOrders(limit: int, env: LastEnv, schedule: seq<nat>)
      returns (err: Option<ServiceError>, ghost loaded: seq<Order>)
      requires cache.Valid() && Intact(storage.tables)
      requires MayAnswer(storage.tables, limit, env) && IsSchedule(schedule, Arriving(env))
      modifies cache, cache.keysList, cache.keysList.Repr
      ensures cache.Valid() && fresh(cache.keysList.Repr - old(cache.keysList.Repr))
      ensures err.None? <==> LastGoThrough(env)
      ensures err.Some? ==>
                && err == Some(ErrStorage(if env.base.Fails? then ErrQueryLastOrders else ErrQueryItems))
                && cache.View() == old(cache.View())
      ensures err.None? ==>
                && AnswersLast(storage.tables, env, loaded)
                && (old(cache.View()) == Empty() ==>
                      && cache.View() == H.Run(cache.cap, H.SetsOf(EntriesOf(Arranged(loaded, schedule))))
                      && (|loaded| <= cache.cap ==> H.HoldsExactly(cache.data, EntriesOf(loaded))))
    {
      loaded := [];
      var lastOrders := storage.GetLastOrders(limit, env);
      if lastOrders.Err? {
        return Some(ErrStorage(lastOrders.error)), [];
      }
      loaded := lastOrders.value;
      err := SetAll(lastOrders.value, schedule);
      if old(cache.View()) == Empty() && |loaded| <= cache.cap {
        assert forall i :: 0 <= i < |loaded| ==> Loaded(storage.tables, env.uids[i], env.items[i].n, loaded[i]);
        WarmUpWhenAllFit(cache.cap, env.uids, loaded, schedule);
      }
    }

    /** The goroutines of the warm-up, in the order of the schedule. */
    method SetAll(orders: seq<Order>, schedule: seq<nat>) returns (err: Option<ServiceError>)
      requires cache.Valid() && IsSchedule(schedule, |orders|)
      modifies cache, cache.keysList, cache.keysList.Repr
      ensures cache.Valid() && fresh(cache.keysList.Repr - old(cache.keysList.Repr))
      ensures err == None
      ensures old(cache.View()) == Empty() ==>
                cache.View() == H.Run(cache.cap, H.SetsOf(EntriesOf(Arranged(orders, schedule))))
    {
      ghost var arranged := Arranged(orders, schedule);
      for i := 0 to |schedule|
        invariant cache.Valid() && fresh(cache.keysList.Repr - old(cache.keysList.Repr))
        invariant old(cache.View()) == Empty() ==> cache.View() == H.Run(cache.cap, H.SetsOf(EntriesOf(arranged[..i])))
      {
        var order := orders[schedule[i]];
        var setErr := cache.Set(order.orderUID, order);
        if setErr.Some? {
          return Some(ErrCache(ErrUnexpectedLinkedListBehaviour));
        }
        ghost var done := H.SetsOf(EntriesOf(arranged[..i + 1]));
        assert done[..i] == H.SetsOf(EntriesOf(arranged[..i]));
      }
      assert arranged[..|schedule|] == arranged;
      return None;
    }
  }
}
