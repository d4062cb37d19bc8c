/** What the cache holds after a whole history of operations. */
module LruHistory {
  import opened Common
  import opened LruModel

  datatype Op<K, V> = Set(key: K, value: V) | Get(key: K)

  function Step<K, V>(cap: int, c: Lru<K, V>, op: Op<K, V>): Lru<K, V> {
    match op
    case Set(k, v) => SetSpec(cap, c, k, v)
    case Get(k) => GetSpec(c, k)
  }

  /** The cache after `ops`, starting from the empty one. */
  function Run<K, V>(cap: int, ops: seq<Op<K, V>>): Lru<K, V> {
    if ops == [] then Empty()
    else Step(cap, Run(cap, ops[..|ops| - 1]), ops[|ops| - 1])
  }

  /** The value of the last `Set` of `k`. */
  function LastSet<K(==), V>(ops: seq<Op<K, V>>, k: K): Option<V> {
    if ops == [] then None
    else
      var op := ops[|ops| - 1];
      if op.Set? && op.key == k then Some(op.value) else LastSet(ops[..|ops| - 1], k)
  }

  function LastTouch<K(==)>(t: seq<K>, k: K): (i: nat)
    requires k in t
    ensures i < |t| && t[i] == k && k !in t[i + 1..]
  {
    if t[|t| - 1] == k then |t| - 1 else LastTouch(t[..|t| - 1], k)
  }

  /** The distinct keys touched after the last touch of `k`. */
  function OthersSince<K(==)>(t: seq<K>, k: K): set<K>
    requires k in t
  {
    Elements(t[LastTouch(t, k) + 1..])
  }

  /** The keys that `ops` touch, oldest touch first: every `Set`, and a `Get`
      of a key that was touched before, with fewer than `cap` others since. */
  function Touched<K(==), V>(cap: int, ops: seq<Op<K, V>>): seq<K> {
    if ops == [] then []
    else
      var t, op := Touched(cap, ops[..|ops| - 1]), ops[|ops| - 1];
      t + if op.Set? || (op.key in t && |OthersSince(t, op.key)| < cap) then [op.key] else []
  }

  /** All touched keys, most recent touch first. */
  function Recency<K(==)>(t: seq<K>): seq<K> {
    if t == [] then [] else Touch(Recency(t[..|t| - 1]), t[|t| - 1])
  }

  lemma {:induction false} RecencyDistinct<K>(t: seq<K>)
    ensures NoDup(Recency(t)) && Elements(Recency(t)) == Elements(t)
  {
    if t != [] {
      var init, x := t[..|t| - 1], t[|t| - 1];
      RecencyDistinct(init);
      TouchNoDup(Recency(init), x);
      ElementsAppend(init, x);
      assert t == init + [x];
    }
  }

  /** Touching `x` puts it before `k` and otherwise leaves the keys before `k`
      as they were. */
  lemma TouchShifts<K>(keys: seq<K>, p: nat, x: K)
    requires NoDup(keys) && p < |keys| && keys[p] != x
    ensures var before, t := Elements(keys[..p]) + {x}, Touch(keys, x);
            |before| < |t| && t[|before|] == keys[p] && Elements(t[..|before|]) == before
  {
    var a, b := keys[..p], keys[p..];
    var front, behind := Touch(a, x), Without(b, x);
    assert Take(keys, p) == a;
    NoDupTake(keys, p);
    TouchNoDup(a, x);
    NoDupCardinality(front);
    assert b[0] == keys[p];
    assert Touch(keys, x) == front + behind by {
      assert keys == a + b;
      WithoutAppend(a, b, x);
    }
    assert (front + behind)[..|front|] == front;
  }

  lemma OthersGrow<K>(t: seq<K>, x: K, k: K)
    requires k in t && k != x
    ensures k in t + [x] && OthersSince(t + [x], k) == OthersSince(t, k) + {x}
  {
    var i := LastTouch(t, k);
    assert (t + [x])[..|t|] == t;
    assert (t + [x])[i + 1..] == t[i + 1..] + [x];
    ElementsAppend(t[i + 1..], x);
  }

  /** In the recency order, what stands before `k` is exactly what was touched
      after it. */
  lemma {:induction false} RecencyPosition<K>(t: seq<K>, k: K)
    requires k in t
    ensures var others, r := OthersSince(t, k), Recency(t);
            |others| < |r| && r[|others|] == k && Elements(r[..|others|]) == others
  {
    var init, x := t[..|t| - 1], t[|t| - 1];
    if x == k {
      assert OthersSince(t, k) == {};
    } else {
      assert t == init + [x];
      OthersGrow(init, x, k);
      RecencyPosition(init, k);
      RecencyDistinct(init);
      TouchShifts(Recency(init), |OthersSince(init, k)|, x);
    }
  }

  lemma WithoutShrinksByOne<K>(s: seq<K>, x: K)
    requires NoDup(s)
    ensures |Without(s, x)| >= |s| - 1
  {
    TouchLength(s, x);
  }

  /** Touching and then cutting to `cap` only needs the first `wide` keys. */
  lemma TakeTouch<K>(keys: seq<K>, x: K, cap: int, wide: int)
    requires NoDup(keys) && cap <= wide
    ensures Take(Touch(Take(keys, wide), x), cap) == Take(Touch(keys, x), cap)
  {
    if 0 < cap && wide < |keys| {
      var a, b := keys[..wide], keys[wide..];
      assert keys == a + b && Take(keys, wide) == a;
      WithoutAppend(a, b, x);
      NoDupTake(keys, wide);
      WithoutShrinksByOne(a, x);
    } else if 0 < cap {
      assert Take(keys, wide) == keys;
    }
  }

  /** Two caches of which the smaller one is included touch one key alike, and
      the key is then in front. */
  lemma TouchKeepsInclusion<K>(keys: seq<K>, x: K, small: int, big: int)
    requires NoDup(keys) && 0 < small <= big
    ensures var after := Take(Take(Touch(keys, x), big), small);
            after == Take(Touch(Take(keys, small), x), small) && after != [] && after[0] == x
  {
    TakeTouch(keys, x, small, small);
  }

  lemma TouchPresentFits<K>(keys: seq<K>, x: K, cap: int)
    requires NoDup(keys) && x in keys && |keys| <= Max(cap, 0)
    ensures Take(Touch(keys, x), cap) == Touch(keys, x)
  {
    TouchLength(keys, x);
  }

  lemma {:induction false} RunWellFormed<K, V>(cap: int, ops: seq<Op<K, V>>)
    ensures WellFormed(cap, Run(cap, ops))
  {
    if ops != [] {
      var init, op := ops[..|ops| - 1], ops[|ops| - 1];
      RunWellFormed(cap, init);
      match op
      case Set(k, v) => SetKeepsWellFormed(cap, Run(cap, init), k, v);
      case Get(k) => GetKeepsWellFormed(cap, Run(cap, init), k);
    }
  }

  /** Which keys are among the `cap` most recent ones, and where. */
  lemma AmongMostRecent<K>(cap: int, t: seq<K>, k: K)
    ensures var r := Take(Recency(t), cap);
            && |r| == Min(|Elements(t)|, Max(cap, 0))
            && (k in r <==> k in t && |OthersSince(t, k)| < cap)
            && (k in r ==> |OthersSince(t, k)| < |r| && r[|OthersSince(t, k)|] == k)
  {
    var r := Recency(t);
    RecencyDistinct(t);
    NoDupCardinality(r);
    if k in t {
      RecencyPosition(t, k);
      NoDupPairs(r);
    } else {
      assert k !in Elements(r);
    }
  }

  lemma {:induction false} KeysAreMostRecent<K, V>(cap: int, ops: seq<Op<K, V>>)
    ensures Run(cap, ops).keys == Take(Recency(Touched(cap, ops)), cap)
  {
    if ops != [] {
      var init, op := ops[..|ops| - 1], ops[|ops| - 1];
      var c, t := Run(cap, init), Touched(cap, init);
      KeysAreMostRecent(cap, init);
      RunWellFormed(cap, init);
      RecencyDistinct(t);
      AmongMostRecent(cap, t, op.key);
      assert op.key in c.data <==> op.key in Elements(c.keys);
      TakeTouch(Recency(t), op.key, cap, cap);
      if op.Set? || op.key in c.data {
        assert Touched(cap, ops) == t + [op.key];
        assert (t + [op.key])[..|t|] == t;
        if op.Get? {
          TouchPresentFits(c.keys, op.key, cap);
        }
      } else {
        assert Touched(cap, ops) == t;
      }
    }
  }

  lemma {:induction false} ValueIsLastSet<K, V>(cap: int, ops: seq<Op<K, V>>, k: K)
    requires k in Run(cap, ops).data
    ensures LastSet(ops, k) == Some(Run(cap, ops).data[k])
  {
    var init, op := ops[..|ops| - 1], ops[|ops| - 1];
    if !(op.Set? && op.key == k) {
      ValueIsLastSet(cap, init, k);
    }
  }

  /** The cache after any history, told without the cache: `k` is resident iff
      it was touched and fewer than `cap` distinct other keys were touched
      since; its place in `GetKeys` is the number of those keys; its value is
      that of its last `Set`; and no room is wasted. */
  lemma RecencyCharacterised<K, V>(cap: int, ops: seq<Op<K, V>>, k: K)
    ensures var c, t := Run(cap, ops), Touched(cap, ops);
            && WellFormed(cap, c)
            && |c.keys| == Min(|Elements(t)|, Max(cap, 0))
            && (k in c.data <==> k in t && |OthersSince(t, k)| < cap)
            && (k in c.data ==>
                  && |OthersSince(t, k)| < |c.keys|
                  && c.keys[|OthersSince(t, k)|] == k
                  && LastSet(ops, k) == Some(c.data[k]))
  {
    var c, t := Run(cap, ops), Touched(cap, ops);
    RunWellFormed(cap, ops);
    KeysAreMostRecent(cap, ops);
    AmongMostRecent(cap, t, k);
    assert k in c.data <==> k in Elements(c.keys);
    if k in c.data {
      ValueIsLastSet(cap, ops, k);
    }
  }

  // ----- read-through traces: no Belady anomaly -----

  /** A service call, or a row that another replica stores. Of a save,
      `storageOk` says whether the inserts went through for reasons other than a
      key that is already stored, `row` is the key that the tables take, and
      `commitOk` is what nobody is told. Of a fetch, `loadOk` says whether
      storage can be read if asked, and `loaded` is what it then returns. */
  datatype Call<K, V> =
    | Save(key: K, value: V, storageOk: bool, row: K, commitOk: bool)
    | Fetch(key: K, loaded: V, loadOk: bool)
    | Elsewhere(key: K)

  /** One replica's cache and the set of keys the storage holds. */
  datatype Service<K, V> = Service(cache: Lru<K, V>, stored: set<K>)

  function Serve<K, V>(cap: int, s: Service<K, V>, call: Call<K, V>): Service<K, V> {
    match call
    case Save(k, v, ok, row, commitOk) =>
      if ok && row !in s.stored then
        Service(SetSpec(cap, s.cache, k, v), if commitOk then s.stored + {row} else s.stored)
      else s
    case Fetch(k, w, ok) =>
      if k in s.cache.data then s.(cache := GetSpec(s.cache, k))
      else if ok && k in s.stored then s.(cache := SetSpec(cap, s.cache, k, w))
      else s
    case Elsewhere(k) => s.(stored := s.stored + {k})
  }

  function ServeAll<K, V>(cap: int, stored: set<K>, calls: seq<Call<K, V>>): Service<K, V> {
    if calls == [] then Service(Empty(), stored)
    else Serve(cap, ServeAll(cap, stored, calls[..|calls| - 1]), calls[|calls| - 1])
  }

  /** How many calls had to read from storage. */
  function Misses<K(==), V>(cap: int, stored: set<K>, calls: seq<Call<K, V>>): nat {
    if calls == [] then 0
    else
      var init, call := calls[..|calls| - 1], calls[|calls| - 1];
      Misses(cap, stored, init)
      + if call.Fetch? && call.key !in ServeAll(cap, stored, init).cache.data then 1 else 0
  }

  predicate MissesAt<K, V>(cap: int, stored: set<K>, calls: seq<Call<K, V>>, i: nat)
    requires i < |calls|
  {
    calls[i].Fetch? && calls[i].key !in ServeAll(cap, stored, calls[..i]).cache.data
  }

  ghost function MissSet<K, V>(cap: int, stored: set<K>, calls: seq<Call<K, V>>, n: nat): set<nat>
    requires n <= |calls|
  {
    set i: nat | i < n && MissesAt(cap, stored, calls, i)
  }

  lemma PrefixMisses<K, V>(cap: int, stored: set<K>, calls: seq<Call<K, V>>, n: nat)
    requires n <= |calls|
    ensures MissSet(cap, stored, calls[..n], n) == MissSet(cap, stored, calls, n)
  {
    forall i: nat | i < n ensures MissesAt(cap, stored, calls[..n], i) <==> MissesAt(cap, stored, calls, i) {
      assert calls[..n][..i] == calls[..i];
    }
  }

  lemma OneMoreMiss<K, V>(cap: int, stored: set<K>, calls: seq<Call<K, V>>, n: nat)
    requires n < |calls|
    ensures |MissSet(cap, stored, calls, n + 1)|
            == |MissSet(cap, stored, calls, n)| + if MissesAt(cap, stored, calls, n) then 1 else 0
  {
    var now := if MissesAt(cap, stored, calls, n) then {n} else {};
    assert MissSet(cap, stored, calls, n + 1) == MissSet(cap, stored, calls, n) + now;
  }

  /** They are counted right: it is the number of the calls that had to. */
  lemma {:induction false} MissesCounted<K, V>(cap: int, stored: set<K>, calls: seq<Call<K, V>>)
    ensures Misses(cap, stored, calls) == |MissSet(cap, stored, calls, |calls|)|
  {
    if calls != [] {
      var n := |calls| - 1;
      MissesCounted(cap, stored, calls[..n]);
      PrefixMisses(cap, stored, calls, n);
      OneMoreMiss(cap, stored, calls, n);
    }
  }

  /** The call leaves a row for `k`. */
  predicate Stores<K(==), V>(call: Call<K, V>, k: K) {
    match call
    case Save(_, _, ok, row, commitOk) => ok && commitOk && row == k
    case Fetch(_, _, _) => false
    case Elsewhere(x) => x == k
  }

  /** The rows after a trace, told from its calls. */
  lemma {:induction false} StoredAre<K, V>(cap: int, stored: set<K>, calls: seq<Call<K, V>>, k: K)
    ensures k in ServeAll(cap, stored, calls).stored <==>
            k in stored || exists i :: 0 <= i < |calls| && Stores(calls[i], k)
  {
    if calls != [] {
      var n := |calls| - 1;
      StoredAre(cap, stored, calls[..n], k);
      assert calls == calls[..n] + [calls[n]];
    }
  }

  /** A key that some call of the trace has stored, another replica's included,
      is found by the next fetch that storage answers, and is in front then. */
  lemma StoredIsFetched<K, V>(cap: int, stored: set<K>, calls: seq<Call<K, V>>, k: K, w: V)
    requires cap >= 1 && (k in stored || exists i :: 0 <= i < |calls| && Stores(calls[i], k))
    ensures var s, n := ServeAll(cap, stored, calls), Serve(cap, ServeAll(cap, stored, calls), Fetch(k, w, true));
            && n.stored == s.stored && n.cache.keys != [] && n.cache.keys[0] == k && k in n.cache.data
            && n.cache.data[k] == if k in s.cache.data then s.cache.data[k] else w
  {
    StoredAre(cap, stored, calls, k);
  }

  lemma {:induction false} CachedWellFormed<K, V>(cap: int, stored: set<K>, calls: seq<Call<K, V>>)
    ensures WellFormed(cap, ServeAll(cap, stored, calls).cache)
  {
    if calls != [] {
      var init, call := calls[..|calls| - 1], calls[|calls| - 1];
      CachedWellFormed(cap, stored, init);
      var c := ServeAll(cap, stored, init).cache;
      match call
      case Save(k, v, _, _, _) => SetKeepsWellFormed(cap, c, k, v);
      case Fetch(k, w, _) =>
        GetKeepsWellFormed(cap, c, k);
        SetKeepsWellFormed(cap, c, k, w);
      case Elsewhere(_) =>
    }
  }

  /** The call finds its key in the cache or in storage, or is told that it
      stored it. */
  predicate Succeeds<K(==), V>(s: Service<K, V>, call: Call<K, V>) {
    match call
    case Save(_, _, ok, row, _) => ok && row !in s.stored
    case Fetch(k, _, ok) => k in s.cache.data || (ok && k in s.stored)
    case Elsewhere(_) => false
  }

  /** Whether it hits or misses, a call that succeeds leaves the same key
      order; one that fails leaves the order it found. */
  lemma ServedKeys<K, V>(cap: int, s: Service<K, V>, call: Call<K, V>)
    requires WellFormed(cap, s.cache)
    ensures Serve(cap, s, call).cache.keys ==
            if Succeeds(s, call) then Take(Touch(s.cache.keys, call.key), cap) else s.cache.keys
  {
    if call.Fetch? && call.key in s.cache.data {
      assert call.key in Elements(s.cache.keys);
      TouchPresentFits(s.cache.keys, call.key, cap);
    }
  }

  /** Two capacities have served the calls alike: the keys of the smaller cache
      are a prefix of those of the larger one. */
  ghost predicate Included<K, V>(small: int, big: int, stored: set<K>, calls: seq<Call<K, V>>) {
    var s, b := ServeAll(small, stored, calls), ServeAll(big, stored, calls);
    s.stored == b.stored && s.cache.keys == Take(b.cache.keys, small)
  }

  ghost predicate AlwaysIncluded<K, V>(small: int, big: int, stored: set<K>, calls: seq<Call<K, V>>) {
    Included(small, big, stored, calls) && (calls == [] || AlwaysIncluded(small, big, stored, calls[..|calls| - 1]))
  }

  /** A read of storage for `k` does not find it: no answer, or no row. */
  predicate ReadFails<K(==), V>(s: Service<K, V>, call: Call<K, V>) {
    call.Fetch? && !(call.loadOk && call.key in s.stored)
  }

  /** No read of storage fails for the smaller cache alone: where one fails,
      either the smaller cache has the key, or the larger one misses it too. */
  ghost predicate FailuresShared<K, V>(small: int, big: int, stored: set<K>, calls: seq<Call<K, V>>) {
    calls == [] ||
    var init, call := calls[..|calls| - 1], calls[|calls| - 1];
    var s, b := ServeAll(small, stored, init), ServeAll(big, stored, init);
    && FailuresShared(small, big, stored, init)
    && (ReadFails(b, call) && call.key in b.cache.data ==> call.key in s.cache.data)
  }

  lemma CachedKeysListed<K, V>(cap: int, stored: set<K>, calls: seq<Call<K, V>>, k: K)
    ensures var c := ServeAll(cap, stored, calls).cache; k in c.data <==> k in c.keys
  {
    CachedWellFormed(cap, stored, calls);
    var c := ServeAll(cap, stored, calls).cache;
    assert k in c.keys <==> k in Elements(c.keys);
  }

  /** One call, from caches that are included. */
  lemma InclusionStep<K, V>(small: int, big: int, stored: set<K>, init: seq<Call<K, V>>, call: Call<K, V>)
    requires 0 < small <= big && Included(small, big, stored, init)
    ensures Included(small, big, stored, init + [call]) <==>
            var s, b := ServeAll(small, stored, init), ServeAll(big, stored, init);
            (ReadFails(b, call) && call.key in b.cache.data ==> call.key in s.cache.data)
  {
    var s, b := ServeAll(small, stored, init), ServeAll(big, stored, init);
    assert (init + [call])[..|init|] == init;
    CachedWellFormed(small, stored, init);
    CachedWellFormed(big, stored, init);
    CachedKeysListed(small, stored, init, call.key);
    CachedKeysListed(big, stored, init, call.key);
    ServedKeys(small, s, call);
    ServedKeys(big, b, call);
    TouchKeepsInclusion(b.cache.keys, call.key, small, big);
  }

  /** The smaller cache is included in the larger one all along exactly when no
      read of storage fails for it alone (or it holds nothing at all). */
  lemma {:induction false} StackInclusion<K, V>(small: int, big: int, stored: set<K>, calls: seq<Call<K, V>>)
    requires small <= big
    ensures AlwaysIncluded(small, big, stored, calls) <==> small <= 0 || FailuresShared(small, big, stored, calls)
  {
    if calls != [] {
      var init, call := calls[..|calls| - 1], calls[|calls| - 1];
      StackInclusion(small, big, stored, init);
      assert calls == init + [call];
      if small <= 0 {
        CachedWellFormed(small, stored, calls);
        assert Included(small, big, stored, init);
      } else if AlwaysIncluded(small, big, stored, init) {
        InclusionStep(small, big, stored, init, call);
      }
    }
  }

  /** Nothing goes wrong: storage answers every read, and what a save is told
      to have stored is stored, under its own key. */
  ghost predicate AllWell<K, V>(calls: seq<Call<K, V>>) {
    forall i :: 0 <= i < |calls| ==>
                  && (calls[i].Fetch? ==> calls[i].loadOk)
                  && (calls[i].Save? ==> calls[i].commitOk && calls[i].row == calls[i].key)
  }

  lemma {:induction false} CachedIsStored<K, V>(cap: int, stored: set<K>, calls: seq<Call<K, V>>)
    requires AllWell(calls)
    ensures ServeAll(cap, stored, calls).cache.data.Keys <= ServeAll(cap, stored, calls).stored
  {
    if calls != [] {
      CachedIsStored(cap, stored, calls[..|calls| - 1]);
    }
  }

  lemma {:induction false} SuccessesShared<K, V>(small: int, big: int, stored: set<K>, calls: seq<Call<K, V>>)
    requires AllWell(calls)
    ensures FailuresShared(small, big, stored, calls)
  {
    if calls != [] {
      var init := calls[..|calls| - 1];
      SuccessesShared(small, big, stored, init);
      CachedIsStored(big, stored, init);
    }
  }

  /** Then a hit in the smaller cache is a hit in the larger one, so a larger
      cache never reads storage more often. */
  lemma {:induction false} LargerCacheMissesLess<K, V>(small: int, big: int, stored: set<K>, calls: seq<Call<K, V>>)
    requires small <= big && FailuresShared(small, big, stored, calls)
    ensures ServeAll(small, stored, calls).cache.data.Keys <= ServeAll(big, stored, calls).cache.data.Keys
    ensures Misses(big, stored, calls) <= Misses(small, stored, calls)
  {
    StackInclusion(small, big, stored, calls);
    forall k | k in ServeAll(small, stored, calls).cache.data ensures k in ServeAll(big, stored, calls).cache.data {
      CachedKeysListed(small, stored, calls, k);
      CachedKeysListed(big, stored, calls, k);
      assert Included(small, big, stored, calls);
    }
    if calls != [] {
      LargerCacheMissesLess(small, big, stored, calls[..|calls| - 1]);
    }
  }

  /** Saves of `a` and then `b`, the first one committed or not. */
  function TwoSaves<K, V>(a: K, b: K, v: V, commitOk: bool): seq<Call<K, V>> {
    [Save(a, v, true, a, commitOk), Save(b, v, true, b, true)]
  }

  lemma TwoSets<K, V>(a: K, b: K, v: V)
    requires a != b
    ensures SetSpec(1, Empty(), a, v) == SetSpec(2, Empty(), a, v) == Lru([a], map[a := v])
    ensures SetSpec(1, Lru([a], map[a := v]), b, v) == Lru([b], map[b := v])
    ensures SetSpec(2, Lru([a], map[a := v]), b, v) == Lru([b, a], map[a := v, b := v])
  {
    TwoTouches(a, b);
  }

  lemma TwoSavesServed<K, V>(a: K, b: K, v: V, cap: int, commitOk: bool)
    requires a != b && 1 <= cap <= 2
    ensures ServeAll(cap, {}, TwoSaves(a, b, v, commitOk)) ==
            Service(if cap == 1 then Lru([b], map[b := v]) else Lru([b, a], map[a := v, b := v]),
                    if commitOk then {a, b} else {b})
  {
    var saves, rows := TwoSaves(a, b, v, commitOk), if commitOk then {a} else {};
    TwoSets(a, b, v);
    assert saves[..1][..0] == [];
    assert ServeAll(cap, {}, saves[..1]) == Serve(cap, Service(Empty(), {}), saves[0]);
    assert ServeAll(cap, {}, saves[..1]) == Service(Lru([a], map[a := v]), rows);
    assert rows + {b} == if commitOk then {a, b} else {b};
  }

  /** Two saves, and a read of the first key. When storage does not answer it,
      and just so when it does but the commit of that save was lost, the larger
      cache, which hits, ends with a key in front that the smaller one does not
      have. */
  lemma FailedReadBreaksInclusion<K, V>(a: K, b: K, v: V, commitOk: bool, loadOk: bool)
    requires a != b
    ensures var calls := TwoSaves(a, b, v, commitOk) + [Fetch(a, v, loadOk)];
            && ServeAll(1, {}, calls).cache.keys == (if commitOk && loadOk then [a] else [b])
            && ServeAll(2, {}, calls).cache.keys == [a, b]
            && (Included(1, 2, {}, calls) <==> commitOk && loadOk)
  {
    var saves := TwoSaves(a, b, v, commitOk);
    var calls := saves + [Fetch(a, v, loadOk)];
    assert calls[..2] == saves;
    TwoSavesServed(a, b, v, 1, commitOk);
    TwoSavesServed(a, b, v, 2, commitOk);
    TwoTouches(a, b);
    TwoTouches(b, a);
  }

  lemma TwoTouches<K>(a: K, b: K)
    requires a != b
    ensures Touch([], a) == [a] && Touch([a], b) == [b, a] && Touch([b, a], a) == [a, b]
    ensures Take([a], 1) == [a] && Take([a], 2) == [a]
    ensures Take([b, a], 1) == [b] && Take([b, a], 2) == [b, a] && Take([a, b], 1) == [a]
  {
    WithoutAbsent([a], b);
    WithoutAbsent([b], a);
    WithoutAppend([b], [a], a);
    assert [b] + [a] == [b, a] && Without([a], a) == [];
  }

  /** Inclusion is owed to the `Set` that `GetOrder` does on a miss: with bare
      `Get`s it fails already for capacities 1 and 2. */
  lemma BareGetsBreakInclusion<K, V>(a: K, b: K, v: V)
    requires a != b
    ensures var ops := [Set(a, v), Set(b, v), Get(a)];
            Run(1, ops).keys != Take(Run(2, ops).keys, 1)
  {
    var ops := [Op<K, V>.Set(a, v), Set(b, v), Get(a)];
    assert ops[..2] == [Op<K, V>.Set(a, v), Set(b, v)];
    assert ops[..2][..1] == [Op<K, V>.Set(a, v)];
    assert ops[..2][..1][..0] == [];
    TwoTouches(a, b);
    assert Run(1, ops[..2]).keys == [b];
    assert Run(2, ops[..2]).keys == [b, a];
    assert Run(2, ops).keys == [a, b];
  }

  ghost predicate RunIncluded<K, V>(small: int, big: int, ops: seq<Op<K, V>>) {
    Run(small, ops).keys == Take(Run(big, ops).keys, small)
  }

  ghost predicate RunAlwaysIncluded<K, V>(small: int, big: int, ops: seq<Op<K, V>>) {
    RunIncluded(small, big, ops) && (ops == [] || RunAlwaysIncluded(small, big, ops[..|ops| - 1]))
  }

  /** No `Get` hits the larger cache alone. */
  ghost predicate HitsShared<K, V>(small: int, big: int, ops: seq<Op<K, V>>) {
    ops == [] ||
    var init, op := ops[..|ops| - 1], ops[|ops| - 1];
    && HitsShared(small, big, init)
    && (op.Get? && op.key in Run(big, init).data ==> op.key in Run(small, init).data)
  }

  /** A step from the keys, as `ServedKeys` tells it for a call. */
  lemma SteppedKeys<K, V>(cap: int, ops: seq<Op<K, V>>, op: Op<K, V>)
    ensures var c := Run(cap, ops);
            && (op.key in c.data <==> op.key in c.keys)
            && Step(cap, c, op).keys ==
               if op.Set? || op.key in c.keys then Take(Touch(c.keys, op.key), cap) else c.keys
  {
    var c := Run(cap, ops);
    RunWellFormed(cap, ops);
    assert op.key in c.keys <==> op.key in Elements(c.keys);
    if op.Get? && op.key in c.keys {
      TouchPresentFits(c.keys, op.key, cap);
    }
  }

  lemma RunInclusionStep<K, V>(small: int, big: int, init: seq<Op<K, V>>, op: Op<K, V>)
    requires 0 < small <= big && RunIncluded(small, big, init)
    ensures RunIncluded(small, big, init + [op]) <==>
            (op.Get? && op.key in Run(big, init).data ==> op.key in Run(small, init).data)
  {
    assert (init + [op])[..|init|] == init;
    RunWellFormed(big, init);
    SteppedKeys(small, init, op);
    SteppedKeys(big, init, op);
    TouchKeepsInclusion(Run(big, init).keys, op.key, small, big);
  }

  /** For traces of bare `Set`s and `Get`s inclusion holds all along exactly when
      no `Get` hits the larger cache alone (or the smaller one holds nothing). */
  lemma {:induction false} BareGetsInclusionIff<K, V>(small: int, big: int, ops: seq<Op<K, V>>)
    requires small <= big
    ensures RunAlwaysIncluded(small, big, ops) <==> small <= 0 || HitsShared(small, big, ops)
  {
    if ops != [] {
      var init, op := ops[..|ops| - 1], ops[|ops| - 1];
      BareGetsInclusionIff(small, big, init);
      assert ops == init + [op];
      if small <= 0 {
        RunWellFormed(small, ops);
      } else if RunAlwaysIncluded(small, big, init) {
        RunInclusionStep(small, big, init, op);
      }
    }
  }

  // ----- warm-up -----

  datatype Entry<K, V> = Entry(key: K, value: V)

  function SetsOf<K, V>(entries: seq<Entry<K, V>>): seq<Op<K, V>> {
    seq(|entries|, i requires 0 <= i < |entries| => Set(entries[i].key, entries[i].value))
  }

  /** The keys, last first. */
  function KeysReversed<K, V>(entries: seq<Entry<K, V>>): seq<K> {
    if entries == [] then [] else [entries[|entries| - 1].key] + KeysReversed(entries[..|entries| - 1])
  }

  ghost predicate DistinctKeys<K, V>(entries: seq<Entry<K, V>>) {
    forall i, j :: 0 <= i < j < |entries| ==> entries[i].key != entries[j].key
  }

  lemma KeysReversedElements<K, V>(entries: seq<Entry<K, V>>)
    ensures |KeysReversed(entries)| == |entries|
    ensures forall i :: 0 <= i < |entries| ==> KeysReversed(entries)[i] == entries[|entries| - 1 - i].key
  {
  }

  lemma {:induction false} WarmUpKeys<K, V>(cap: int, entries: seq<Entry<K, V>>)
    requires DistinctKeys(entries)
    ensures Run(cap, SetsOf(entries)).keys == Take(KeysReversed(entries), cap)
  {
    if entries != [] {
      var n := |entries| - 1;
      var init, e := entries[..n], entries[n];
      WarmUpKeys(cap, init);
      assert SetsOf(entries)[..n] == SetsOf(init);
      KeysReversedElements(init);
      var r := KeysReversed(init);
      WithoutAbsent(Take(r, cap), e.key);
      assert Take([e.key] + Take(r, cap), cap) == Take([e.key] + r, cap);
    }
  }

  lemma {:induction false} WarmUpValue<K, V>(cap: int, entries: seq<Entry<K, V>>, i: nat)
    requires DistinctKeys(entries) && i < |entries|
    ensures var c := Run(cap, SetsOf(entries));
            entries[i].key in c.data ==> c.data[entries[i].key] == entries[i].value
  {
    var n := |entries| - 1;
    assert SetsOf(entries)[..n] == SetsOf(entries[..n]);
    if i < n {
      WarmUpValue(cap, entries[..n], i);
    }
  }

  /** Whatever order the warm-up goroutines run their `Set`s in, the cache ends
      with the last `cap` of them in that order, each with its own value. */
  lemma WarmUp<K, V>(cap: int, entries: seq<Entry<K, V>>)
    requires DistinctKeys(entries)
    ensures var c := Run(cap, SetsOf(entries));
            && c.keys == Take(KeysReversed(entries), cap)
            && forall e :: e in entries && e.key in c.data ==> c.data[e.key] == e.value
  {
    WarmUpKeys(cap, entries);
    forall i | 0 <= i < |entries|
      ensures var c := Run(cap, SetsOf(entries));
              entries[i].key in c.data ==> c.data[entries[i].key] == entries[i].value
    {
      WarmUpValue(cap, entries, i);
    }
  }

  ghost predicate HoldsExactly<K(!new), V(!new)>(data: map<K, V>, entries: seq<Entry<K, V>>) {
    forall e :: e in entries <==> e.key in data && data[e.key] == e.value
  }

  /** When everything fits, the warm cache holds exactly the given entries. */
  lemma WarmUpHoldsAll<K(!new), V(!new)>(cap: int, entries: seq<Entry<K, V>>)
    requires DistinctKeys(entries) && |entries| <= cap
    ensures var c := Run(cap, SetsOf(entries));
            |c.data| == |entries| && HoldsExactly(c.data, entries)
  {
    WarmUp(cap, entries);
    RunWellFormed(cap, SetsOf(entries));
    KeysReversedElements(entries);
    var c := Run(cap, SetsOf(entries));
    assert c.keys == KeysReversed(entries);
    NoDupCardinality(c.keys);
    forall e ensures e in entries <==> e.key in c.data && c.data[e.key] == e.value {
      if e in entries {
        var i :| 0 <= i < |entries| && entries[i] == e;
        assert c.keys[|entries| - 1 - i] == e.key;
        assert e.key in Elements(c.keys);
      } else if e.key in c.data {
        assert e.key in Elements(c.keys);
        var j :| 0 <= j < |c.keys| && c.keys[j] == e.key;
        assert entries[|entries| - 1 - j] in entries;
        assert entries[|entries| - 1 - j].key == e.key;
      }
    }
  }

  lemma SameEntriesSameMap<K(!new), V(!new)>(
      a: map<K, V>, b: map<K, V>, entries: seq<Entry<K, V>>, others: seq<Entry<K, V>>)
    requires HoldsExactly(a, entries) && HoldsExactly(b, others) && multiset(entries) == multiset(others)
    ensures a == b
  {
    forall e: Entry<K, V> ensures e in entries <==> e in others {
      assert e in entries <==> e in multiset(entries);
      assert e in others <==> e in multiset(others);
    }
    assert forall k :: k in a ==> Entry(k, a[k]) in others;
    assert forall k :: k in b ==> Entry(k, b[k]) in entries;
  }

  lemma WarmUpScheduleIrrelevant<K(!new), V(!new)>(cap: int, one: seq<Entry<K, V>>, other: seq<Entry<K, V>>)
    requires DistinctKeys(one) && DistinctKeys(other) && multiset(one) == multiset(other)
    requires |one| <= cap
    ensures Run(cap, SetsOf(one)).data == Run(cap, SetsOf(other)).data
  {
    assert |one| == |multiset(one)| == |multiset(other)| == |other|;
    WarmUpHoldsAll(cap, one);
    WarmUpHoldsAll(cap, other);
    SameEntriesSameMap(Run(cap, SetsOf(one)).data, Run(cap, SetsOf(other)).data, one, other);
  }
}
