/** `Get` holds only the read lock while it reorders the key list, so readers
    interleave between finding an index and moving the node found there
    (in_memory.go:58-88). Each list operation is one atomic step; a `Set` holds
    the write lock and so runs only when no reader is inside. */
module ConcurrentReaders {
  import opened Common
  import opened LruModel

  datatype Outcome<V> = Hit(value: V) | Miss | Failed

  /** A reader inside the read lock. */
  datatype Reader<K, V> =
    | Entered(key: K)
    | Found(key: K, value: V)
    | Indexed(key: K, value: V, index: int)
    | Finished(key: K, outcome: Outcome<V>)

  datatype State<K, V> = State(cache: Lru<K, V>, readers: map<nat, Reader<K, V>>)

  datatype Label<K, V> =
    | Enter(reader: nat, key: K)
    | ReadData(reader: nat)
    | FindIndex(reader: nat)
    | Move(reader: nat)
    | Leave(reader: nat)
    | Write(key: K, value: V)

  function IndexOf<K(==)>(keys: seq<K>, k: K): (i: int)
    ensures -1 <= i < |keys|
    ensures i == -1 <==> k !in keys
    ensures i >= 0 ==> keys[i] == k
  {
    if keys == [] then -1
    else if keys[0] == k then 0
    else
      var i := IndexOf(keys[1..], k);
      if i == -1 then -1 else i + 1
  }

  predicate Enabled<K, V>(s: State<K, V>, l: Label<K, V>) {
    match l
    case Enter(t, _) => t !in s.readers
    case ReadData(t) => t in s.readers && s.readers[t].Entered?
    case FindIndex(t) => t in s.readers && s.readers[t].Found?
    case Move(t) => t in s.readers && s.readers[t].Indexed?
    case Leave(t) => t in s.readers && s.readers[t].Finished?
    case Write(_, _) => s.readers.Keys == {}
  }

  function Next<K(==), V>(cap: int, s: State<K, V>, l: Label<K, V>): State<K, V>
    requires Enabled(s, l)
  {
    match l
    case Enter(t, k) => s.(readers := s.readers[t := Entered(k)])
    case ReadData(t) =>
      var k := s.readers[t].key;
      var r := match Lookup(s.cache, k) case Some(v) => Found(k, v) case None => Finished(k, Miss);
      s.(readers := s.readers[t := r])
    case FindIndex(t) =>
      var r := s.readers[t];
      s.(readers := s.readers[t := if s.cache.keys == [] then Finished(r.key, Failed)
                                   else Indexed(r.key, r.value, IndexOf(s.cache.keys, r.key))])
    case Move(t) =>
      var r := s.readers[t];
      if 0 <= r.index < |s.cache.keys| then
        State(s.cache.(keys := MovedToFront(s.cache.keys, r.index)),
              s.readers[t := Finished(r.key, Hit(r.value))])
      else s.(readers := s.readers[t := Finished(r.key, Failed)])
    case Leave(t) => s.(readers := s.readers - {t})
    case Write(k, v) => s.(cache := SetSpec(cap, s.cache, k, v))
  }

  predicate Legal<K, V>(cap: int, s: State<K, V>, run: seq<Label<K, V>>)
    decreases run
  {
    run == [] || (Enabled(s, run[0]) && Legal(cap, Next(cap, s, run[0]), run[1..]))
  }

  function After<K, V>(cap: int, s: State<K, V>, run: seq<Label<K, V>>): State<K, V>
    requires Legal(cap, s, run)
    decreases run
  {
    if run == [] then s else After(cap, Next(cap, s, run[0]), run[1..])
  }

  /** What a `Get` of `k` must answer. */
  function Answer<K, V>(c: Lru<K, V>, k: K): Outcome<V> {
    if k in c.data then Hit(c.data[k]) else Miss
  }

  ghost predicate ReaderSound<K, V>(c: Lru<K, V>, r: Reader<K, V>) {
    match r
    case Entered(_) => true
    case Found(k, v) => Answer(c, k) == Hit(v)
    case Indexed(k, v, i) => Answer(c, k) == Hit(v) && 0 <= i < |c.keys|
    case Finished(k, o) => o == Answer(c, k)
  }

  /** The cache is well formed, every index a reader still carries is in range,
      and every answer is right; in particular none is an error. */
  ghost predicate Sound<K, V>(cap: int, s: State<K, V>) {
    && WellFormed(cap, s.cache)
    && forall t :: t in s.readers ==> ReaderSound(s.cache, s.readers[t])
  }

  lemma SameMultisetSameElements<K>(a: seq<K>, b: seq<K>)
    requires multiset(a) == multiset(b)
    ensures Elements(a) == Elements(b)
  {
    forall k ensures k in a <==> k in b {
      assert k in a <==> k in multiset(a);
      assert k in b <==> k in multiset(b);
    }
  }

  lemma MovedElements<K>(keys: seq<K>, i: nat)
    requires NoDup(keys) && i < |keys|
    ensures NoDup(MovedToFront(keys, i)) && |MovedToFront(keys, i)| == |keys|
    ensures multiset(MovedToFront(keys, i)) == multiset(keys)
    ensures Elements(MovedToFront(keys, i)) == Elements(keys)
  {
    NoDupMoved(keys, i);
    RemovedAtMultiset(keys, i);
    SameMultisetSameElements(keys, MovedToFront(keys, i));
  }

  /** A reader's step changes at most the order of the keys, and the answer
      due for every key stays the same. */
  lemma ReaderStepPermutes<K, V>(cap: int, s: State<K, V>, l: Label<K, V>)
    requires Sound(cap, s) && Enabled(s, l) && !l.Write?
    ensures var c := Next(cap, s, l).cache;
            && WellFormed(cap, c) && c.data == s.cache.data && |c.keys| == |s.cache.keys|
            && multiset(c.keys) == multiset(s.cache.keys)
  {
    if l.Move? {
      assert ReaderSound(s.cache, s.readers[l.reader]);
      MovedElements(s.cache.keys, s.readers[l.reader].index);
    }
  }

  lemma StepSound<K, V>(cap: int, s: State<K, V>, l: Label<K, V>)
    requires Sound(cap, s) && Enabled(s, l)
    ensures Sound(cap, Next(cap, s, l))
  {
    var n := Next(cap, s, l);
    if l.Write? {
      SetKeepsWellFormed(cap, s.cache, l.key, l.value);
    } else {
      ReaderStepPermutes(cap, s, l);
      forall t | t in n.readers ensures ReaderSound(n.cache, n.readers[t]) {
        assert t in s.readers ==> ReaderSound(s.cache, s.readers[t]);
        if l.FindIndex? && t == l.reader {
          assert s.readers[t].key in Elements(s.cache.keys);
        }
      }
    }
  }

  /** Over every interleaving of readers and writers, however stale the
      indices get: the map and the list agree, the list has no duplicates and
      fits the capacity, and no reader ever ends in an error. */
  lemma {:induction false} EveryRunIsSound<K, V>(cap: int, s: State<K, V>, run: seq<Label<K, V>>)
    requires Sound(cap, s) && Legal(cap, s, run)
    ensures Sound(cap, After(cap, s, run))
    decreases run
  {
    if run != [] {
      StepSound(cap, s, run[0]);
      EveryRunIsSound(cap, Next(cap, s, run[0]), run[1..]);
    }
  }

  /** Readers alone only permute the key list. */
  lemma {:induction false} ReadersOnlyPermute<K, V>(cap: int, s: State<K, V>, run: seq<Label<K, V>>)
    requires Sound(cap, s) && Legal(cap, s, run) && forall l :: l in run ==> !l.Write?
    ensures var e := After(cap, s, run).cache;
            e.data == s.cache.data && multiset(e.keys) == multiset(s.cache.keys)
    decreases run
  {
    if run != [] {
      ReaderStepPermutes(cap, s, run[0]);
      StepSound(cap, s, run[0]);
      ReadersOnlyPermute(cap, Next(cap, s, run[0]), run[1..]);
    }
  }

  // ----- how an index goes stale -----

  /** Where a move from `j` puts the node that was at `i`. */
  function Shifted(i: nat, j: nat): nat { if i == j then 0 else if i < j then i + 1 else i }

  /** Where the moves from `js`, in that order, put it. */
  function Follow(i: nat, js: seq<nat>): nat
    decreases js
  {
    if js == [] then i else Follow(Shifted(i, js[0]), js[1..])
  }

  function Moved<K>(keys: seq<K>, js: seq<nat>): seq<K>
    decreases js
  {
    if js == [] then keys
    else Moved(if js[0] < |keys| then MovedToFront(keys, js[0]) else keys, js[1..])
  }

  ghost predicate InRange(js: seq<nat>, n: nat) { forall x :: 0 <= x < |js| ==> js[x] < n }

  lemma ShiftedNames<K>(keys: seq<K>, i: nat, j: nat)
    requires NoDup(keys) && i < |keys| && j < |keys|
    ensures var m := MovedToFront(keys, j);
            NoDup(m) && |m| == |keys| && Shifted(i, j) < |keys| && m[Shifted(i, j)] == keys[i]
  {
    MovedElements(keys, j);
    MovedToFrontAt(keys, j);
  }

  lemma {:induction false} FollowNames<K>(keys: seq<K>, i: nat, js: seq<nat>)
    requires NoDup(keys) && i < |keys| && InRange(js, |keys|)
    ensures NoDup(Moved(keys, js)) && |Moved(keys, js)| == |keys|
    ensures Follow(i, js) < |keys| && Moved(keys, js)[Follow(i, js)] == keys[i]
    decreases js
  {
    if js != [] {
      assert js[0] < |keys| && forall x :: 0 <= x < |js| - 1 ==> js[1..][x] == js[x + 1];
      ShiftedNames(keys, i, js[0]);
      FollowNames(MovedToFront(keys, js[0]), Shifted(i, js[0]), js[1..]);
    }
  }

  /** After any moves by other readers, an index found at `i` still names the
      same key exactly when following the node through them leads back to `i`. */
  lemma StaleIndex<K>(keys: seq<K>, i: nat, js: seq<nat>)
    requires NoDup(keys) && i < |keys| && InRange(js, |keys|)
    ensures |Moved(keys, js)| == |keys|
    ensures Moved(keys, js)[i] == keys[i] <==> Follow(i, js) == i
  {
    FollowNames(keys, i, js);
    NoDupPairs(Moved(keys, js));
  }

  /** The move of a step, if it is one, by the index it is done with. */
  function MoveOf<K, V>(s: State<K, V>, l: Label<K, V>): seq<nat>
    requires Enabled(s, l)
  {
    if l.Move? && s.readers[l.reader].index >= 0 then [s.readers[l.reader].index] else []
  }

  /** The moves of a run. */
  function Moves<K, V>(cap: int, s: State<K, V>, run: seq<Label<K, V>>): seq<nat>
    requires Legal(cap, s, run)
    decreases run
  {
    if run == [] then [] else MoveOf(s, run[0]) + Moves(cap, Next(cap, s, run[0]), run[1..])
  }

  /** A step of another reader while reader `t` carries its index. */
  lemma OtherSteps<K, V>(cap: int, s: State<K, V>, l: Label<K, V>, t: nat, js: seq<nat>)
    requires Sound(cap, s) && Enabled(s, l) && t in s.readers && s.readers[t].Indexed? && l != Move(t)
    ensures var n := Next(cap, s, l);
            && t in n.readers && n.readers[t] == s.readers[t] && n.cache.data == s.cache.data
            && |n.cache.keys| == |s.cache.keys| && InRange(MoveOf(s, l), |s.cache.keys|)
            && Moved(s.cache.keys, MoveOf(s, l) + js) == Moved(n.cache.keys, js)
  {
    if l.Move? {
      assert ReaderSound(s.cache, s.readers[l.reader]);
      var j: nat := s.readers[l.reader].index;
      MovedToFrontAt(s.cache.keys, j);
      assert ([j] + js)[1..] == js;
    } else {
      assert [] + js == js;
    }
  }

  lemma {:induction false} OthersMove<K, V>(cap: int, s: State<K, V>, run: seq<Label<K, V>>, t: nat)
    requires Sound(cap, s) && Legal(cap, s, run) && t in s.readers && s.readers[t].Indexed? && Move(t) !in run
    ensures var e, js := After(cap, s, run), Moves(cap, s, run);
            && t in e.readers && e.readers[t] == s.readers[t]
            && e.cache.keys == Moved(s.cache.keys, js) && InRange(js, |s.cache.keys|)
            && e.cache.data == s.cache.data
    decreases run
  {
    if run != [] {
      assert run[0] in run && Move(t) !in run[1..];
      StepSound(cap, s, run[0]);
      OtherSteps(cap, s, run[0], t, Moves(cap, Next(cap, s, run[0]), run[1..]));
      OthersMove(cap, Next(cap, s, run[0]), run[1..], t);
    }
  }

  /** A reader has just found its index; any others step before it moves. Its
      move is the touch that `Get` owes to the key it read exactly when the
      moves in between lead the node back to that index; otherwise it puts
      another key in front. */
  lemma MoveIsOwnTouchIff<K, V>(cap: int, s: State<K, V>, t: nat, run: seq<Label<K, V>>)
    requires Sound(cap, s) && Enabled(s, FindIndex(t)) && Legal(cap, Next(cap, s, FindIndex(t)), run)
    requires Move(t) !in run
    ensures var n := Next(cap, s, FindIndex(t));
            var e, k, i := After(cap, n, run), s.readers[t].key, IndexOf(s.cache.keys, s.readers[t].key);
            && i >= 0 && Enabled(e, Move(t))
            && var c := Next(cap, e, Move(t)).cache;
               && (c == GetSpec(e.cache, k) <==> Follow(i, Moves(cap, n, run)) == i)
               && c.keys != [] && (c.keys[0] == k <==> Follow(i, Moves(cap, n, run)) == i)
  {
    var n := Next(cap, s, FindIndex(t));
    var e, k, i := After(cap, n, run), s.readers[t].key, IndexOf(s.cache.keys, s.readers[t].key);
    assert ReaderSound(s.cache, s.readers[t]);
    assert k in Elements(s.cache.keys);
    StepSound(cap, s, FindIndex(t));
    OthersMove(cap, n, run, t);
    EveryRunIsSound(cap, n, run);
    StaleIndex(s.cache.keys, i, Moves(cap, n, run));
    MoveIsTouch(e.cache.keys, i);
    assert MovedToFront(e.cache.keys, i)[0] == e.cache.keys[i];
  }

  lemma Prepend<K, V>(cap: int, s: State<K, V>, l: Label<K, V>, rest: seq<Label<K, V>>)
    requires Enabled(s, l) && Legal(cap, Next(cap, s, l), rest)
    ensures Legal(cap, s, [l] + rest)
    ensures After(cap, s, [l] + rest) == After(cap, Next(cap, s, l), rest)
  {
    assert ([l] + rest)[1..] == rest;
  }

  /** The steps of one `Get`, up to its answer. */
  function GetSteps<K(==), V>(c: Lru<K, V>, t: nat, k: K): seq<Label<K, V>> {
    [Enter(t, k)] + ([ReadData(t)] + (if k in c.data then [FindIndex(t)] + ([Move(t)] + []) else []))
  }

  /** With nobody in between they are one `Get`: the right answer, and the cache
      that it should leave. */
  lemma UndisturbedGet<K, V>(cap: int, s: State<K, V>, t: nat, k: K)
    requires Sound(cap, s) && t !in s.readers
    ensures var run := GetSteps(s.cache, t, k);
            && Legal(cap, s, run)
            && var e := After(cap, s, run);
               && e == State(GetSpec(s.cache, k), s.readers[t := Finished(k, Answer(s.cache, k))])
               && Enabled(e, Leave(t)) && Next(cap, e, Leave(t)) == State(GetSpec(s.cache, k), s.readers)
  {
    var s1 := s.(readers := s.readers[t := Entered(k)]);
    var s2 := Next(cap, s1, ReadData(t));
    var e := State(GetSpec(s.cache, k), s.readers[t := Finished(k, Answer(s.cache, k))]);
    if k in s.cache.data {
      var i, v := IndexOf(s.cache.keys, k), s.cache.data[k];
      assert k in Elements(s.cache.keys);
      var s3 := s.(readers := s.readers[t := Indexed(k, v, i)]);
      assert s2 == s.(readers := s.readers[t := Found(k, v)]);
      assert Next(cap, s2, FindIndex(t)) == s3;
      MoveIsTouch(s.cache.keys, i);
      assert Next(cap, s3, Move(t)) == e;
      Prepend(cap, s3, Move(t), []);
      Prepend(cap, s2, FindIndex(t), [Move(t)] + []);
    } else {
      assert s2 == e;
    }
    var rest := if k in s.cache.data then [FindIndex(t)] + ([Move(t)] + []) else [];
    Prepend(cap, s1, ReadData(t), rest);
    Prepend(cap, s, Enter(t, k), [ReadData(t)] + rest);
    assert s.readers[t := Finished(k, Answer(s.cache, k))] - {t} == s.readers;
  }

  lemma LateSteps<K, V>(cap: int, a: K, b: K, data: map<K, V>, y: V)
    requires a != b
    ensures var s := State(Lru([a, b], data), map[0 := Found(b, y), 1 := Found(b, y)]);
            var run := [FindIndex(0)] + ([FindIndex(1)] + ([Move(0)] + [Move(1)]));
            && Legal(cap, s, run)
            && After(cap, s, run) == State(Lru([a, b], data), map[0 := Finished(b, Hit(y)), 1 := Finished(b, Hit(y))])
  {
    assert IndexOf([a, b], b) == 1 by { assert [a, b][1..] == [b]; }
    var s0 := State(Lru([a, b], data), map[0 := Found(b, y), 1 := Found(b, y)]);
    var s1 := State(Lru([a, b], data), map[0 := Indexed(b, y, 1), 1 := Found(b, y)]);
    var s2 := State(Lru([a, b], data), map[0 := Indexed(b, y, 1), 1 := Indexed(b, y, 1)]);
    var s3 := State(Lru([b, a], data), map[0 := Finished(b, Hit(y)), 1 := Indexed(b, y, 1)]);
    var s4 := State(Lru([a, b], data), map[0 := Finished(b, Hit(y)), 1 := Finished(b, Hit(y))]);
    assert Next(cap, s0, FindIndex(0)) == s1;
    assert Next(cap, s1, FindIndex(1)) == s2;
    assert Next(cap, s2, Move(0)) == s3 by { assert MovedToFront([a, b], 1) == [b, a]; }
    assert Next(cap, s3, Move(1)) == s4 by { assert MovedToFront([b, a], 1) == [a, b]; }
    Prepend(cap, s3, Move(1), []);
    Prepend(cap, s2, Move(0), [Move(1)]);
    Prepend(cap, s1, FindIndex(1), [Move(0)] + [Move(1)]);
    Prepend(cap, s0, FindIndex(0), [FindIndex(1)] + ([Move(0)] + [Move(1)]));
  }

  lemma EarlySteps<K, V>(cap: int, c: Lru<K, V>, b: K, rest: seq<Label<K, V>>)
    requires b in c.data
    requires Legal(cap, State(c, map[0 := Found(b, c.data[b]), 1 := Found(b, c.data[b])]), rest)
    ensures var s, mid := State(c, map[]), State(c, map[0 := Found(b, c.data[b]), 1 := Found(b, c.data[b])]);
            var run := [Enter(0, b)] + ([Enter(1, b)] + ([ReadData(0)] + ([ReadData(1)] + rest)));
            Legal(cap, s, run) && After(cap, s, run) == After(cap, mid, rest)
  {
    var y := c.data[b];
    var s0 := State(c, map[]);
    var s1 := State(c, map[0 := Entered(b)]);
    var s2 := State(c, map[0 := Entered(b), 1 := Entered(b)]);
    var s3 := State(c, map[0 := Found(b, y), 1 := Entered(b)]);
    var s4 := State(c, map[0 := Found(b, y), 1 := Found(b, y)]);
    assert Next(cap, s0, Enter(0, b)) == s1;
    assert Next(cap, s1, Enter(1, b)) == s2;
    assert Next(cap, s2, ReadData(0)) == s3;
    assert Next(cap, s3, ReadData(1)) == s4;
    var tail := [ReadData(1)] + rest;
    Prepend(cap, s3, ReadData(1), rest);
    Prepend(cap, s2, ReadData(0), tail);
    Prepend(cap, s1, Enter(1, b), [ReadData(0)] + tail);
    Prepend(cap, s0, Enter(0, b), [Enter(1, b)] + ([ReadData(0)] + tail));
  }

  /** What is not kept: two overlapping reads of `b` can leave `a` as the most
      recently used key, although both got the value of `b` and nobody read
      `a`. */
  lemma WrongKeyMoved<K, V>(cap: int, a: K, b: K, x: V, y: V)
    requires a != b
    ensures var s := State(Lru([a, b], map[a := x, b := y]), map[]);
            var late := [FindIndex(0)] + ([FindIndex(1)] + ([Move(0)] + [Move(1)]));
            var run := [Enter(0, b)] + ([Enter(1, b)] + ([ReadData(0)] + ([ReadData(1)] + late)));
            && Legal(cap, s, run)
            && After(cap, s, run).readers == map[0 := Finished(b, Hit(y)), 1 := Finished(b, Hit(y))]
            && After(cap, s, run).cache.keys == [a, b]
  {
    var data := map[a := x, b := y];
    LateSteps(cap, a, b, data, y);
    EarlySteps(cap, Lru([a, b], data), b, [FindIndex(0)] + ([FindIndex(1)] + ([Move(0)] + [Move(1)])));
  }
}
