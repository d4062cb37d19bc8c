/** What the cache holds and answers after any run of overlapping readers and
    exclusive writers, told from the steps. */
module ConcurrentHistory {
  import opened Common
  import opened LruModel
  import opened ConcurrentReaders
  import H = LruHistory

  function Start<K, V>(): State<K, V> { State(Empty(), map[]) }

  /** The value of the last write of `k`, or `before` when the run has none. */
  function LastWrite<K(==), V>(run: seq<Label<K, V>>, k: K, before: Option<V>): Option<V>
    decreases run
  {
    if run == [] then before
    else LastWrite(run[1..], k, if run[0].Write? && run[0].key == k then Some(run[0].value) else before)
  }

  /** The key that a step touches: the one written, or the one that stands where
      the reader moves from, whichever that is by then. */
  function TouchOf<K, V>(s: State<K, V>, l: Label<K, V>): seq<K>
    requires Enabled(s, l)
  {
    match l
    case Write(k, _) => [k]
    case Move(t) =>
      var i := s.readers[t].index;
      if 0 <= i < |s.cache.keys| then [s.cache.keys[i]] else []
    case _ => []
  }

  function TouchedBy<K, V>(cap: int, s: State<K, V>, run: seq<Label<K, V>>): seq<K>
    requires Legal(cap, s, run)
    decreases run
  {
    if run == [] then [] else TouchOf(s, run[0]) + TouchedBy(cap, Next(cap, s, run[0]), run[1..])
  }

  /** The keys after the touches `t`, one after the other. */
  function Kept<K(==)>(cap: int, keys: seq<K>, t: seq<K>): seq<K>
    decreases t
  {
    if t == [] then keys else Kept(cap, Take(Touch(keys, t[0]), cap), t[1..])
  }

  lemma {:induction false} KeptAreRecent<K>(cap: int, before: seq<K>, t: seq<K>)
    ensures Kept(cap, Take(H.Recency(before), cap), t) == Take(H.Recency(before + t), cap)
    decreases t
  {
    if t == [] {
      assert before + t == before;
    } else {
      var next := before + [t[0]];
      assert next[..|before|] == before && next + t[1..] == before + t;
      H.RecencyDistinct(before);
      H.TakeTouch(H.Recency(before), t[0], cap, cap);
      KeptAreRecent(cap, next, t[1..]);
    }
  }

  lemma StepTouches<K, V>(cap: int, s: State<K, V>, l: Label<K, V>, t: seq<K>)
    requires Sound(cap, s) && Enabled(s, l)
    ensures Kept(cap, s.cache.keys, TouchOf(s, l) + t) == Kept(cap, Next(cap, s, l).cache.keys, t)
  {
    var keys, touch := s.cache.keys, TouchOf(s, l);
    if touch == [] {
      assert [] + t == t;
    } else {
      assert (touch + t)[0] == touch[0] && (touch + t)[1..] == t;
      if l.Move? {
        MoveIsTouch(keys, s.readers[l.reader].index);
        H.TouchPresentFits(keys, touch[0], cap);
      }
    }
  }

  lemma {:induction false} RunTouches<K, V>(cap: int, s: State<K, V>, run: seq<Label<K, V>>)
    requires Sound(cap, s) && Legal(cap, s, run)
    ensures After(cap, s, run).cache.keys == Kept(cap, s.cache.keys, TouchedBy(cap, s, run))
    decreases run
  {
    if run != [] {
      var n := Next(cap, s, run[0]);
      StepSound(cap, s, run[0]);
      StepTouches(cap, s, run[0], TouchedBy(cap, n, run[1..]));
      RunTouches(cap, n, run[1..]);
    }
  }

  lemma {:induction false} ValuesAreWritten<K, V>(
      cap: int, s: State<K, V>, run: seq<Label<K, V>>, k: K, before: Option<V>)
    requires Legal(cap, s, run) && (k in s.cache.data ==> before == Some(s.cache.data[k]))
    ensures var e := After(cap, s, run);
            k in e.cache.data ==> LastWrite(run, k, before) == Some(e.cache.data[k])
    decreases run
  {
    if run != [] {
      var l := run[0];
      ValuesAreWritten(cap, Next(cap, s, l), run[1..], k, if l.Write? && l.key == k then Some(l.value) else before);
    }
  }

  lemma StartIsSound<K, V>(cap: int)
    ensures Sound<K, V>(cap, Start())
  {
  }

  /** For every interleaving of readers and writers, from an empty cache: `k` is
      resident iff it was touched and fewer than `cap` distinct other keys were
      touched since; its place is the number of those keys; its value is that of
      the last write of `k`; and no room is wasted. A touch is a write, or a
      move of the key that stood at the reader's index. */
  lemma ConcurrentRecency<K, V>(cap: int, run: seq<Label<K, V>>, k: K)
    requires Legal(cap, Start(), run)
    ensures var c, t := After(cap, Start(), run).cache, TouchedBy(cap, Start(), run);
            && |c.keys| == Min(|Elements(t)|, Max(cap, 0))
            && (k in c.data <==> k in t && |H.OthersSince(t, k)| < cap)
            && (k in c.data ==>
                  && |H.OthersSince(t, k)| < |c.keys| && c.keys[|H.OthersSince(t, k)|] == k
                  && LastWrite(run, k, None) == Some(c.data[k]))
  {
    var c, t := After(cap, Start(), run).cache, TouchedBy(cap, Start(), run);
    StartIsSound<K, V>(cap);
    EveryRunIsSound(cap, Start(), run);
    RunTouches(cap, Start(), run);
    KeptAreRecent(cap, [], t);
    assert [] + t == t;
    ValuesAreWritten(cap, Start(), run, k, None);
    H.AmongMostRecent(cap, t, k);
    assert k in c.data <==> k in Elements(c.keys);
  }

  /** While a reader is inside, nobody writes, and it keeps its key. */
  lemma {:induction false} InsideKeepsData<K, V>(cap: int, s: State<K, V>, run: seq<Label<K, V>>, t: nat)
    requires Legal(cap, s, run) && t in s.readers && Leave(t) !in run
    ensures var e := After(cap, s, run);
            t in e.readers && e.readers[t].key == s.readers[t].key && e.cache.data == s.cache.data
    decreases run
  {
    if run != [] {
      assert run[0] in run && Leave(t) !in run[1..];
      InsideKeepsData(cap, Next(cap, s, run[0]), run[1..], t);
    }
  }

  /** In every run: an answered reader has the value of the last write of its key
      before it looked, if by the touches until then the key was resident, and
      otherwise a miss. */
  lemma AnsweredWithLastWrite<K, V>(cap: int, past: seq<Label<K, V>>, t: nat, rest: seq<Label<K, V>>)
    requires Legal(cap, Start(), past) && Enabled(After(cap, Start(), past), ReadData(t))
    requires var n := Next(cap, After(cap, Start(), past), ReadData(t));
             && Legal(cap, n, rest) && Leave(t) !in rest
             && t in After(cap, n, rest).readers && After(cap, n, rest).readers[t].Finished?
    ensures var s, touched := After(cap, Start(), past), TouchedBy(cap, Start(), past);
            var k, o := s.readers[t].key, After(cap, Next(cap, s, ReadData(t)), rest).readers[t].outcome;
            if k in touched && |H.OthersSince(touched, k)| < cap
            then o.Hit? && LastWrite(past, k, None) == Some(o.value)
            else o == Miss
  {
    var s := After(cap, Start(), past);
    var n := Next(cap, s, ReadData(t));
    StartIsSound<K, V>(cap);
    EveryRunIsSound(cap, Start(), past);
    StepSound(cap, s, ReadData(t));
    EveryRunIsSound(cap, n, rest);
    InsideKeepsData(cap, n, rest, t);
    ConcurrentRecency(cap, past, s.readers[t].key);
    assert ReaderSound(After(cap, n, rest).cache, After(cap, n, rest).readers[t]);
  }

  /** What a write leaves: its key in front with its value, behind it the other
      keys in their order as far as there is room, with their values. */
  lemma WriteLeaves<K, V>(cap: int, s: State<K, V>, k: K, v: V)
    requires Sound(cap, s) && Enabled(s, Write(k, v))
    ensures var c, n := s.cache, Next(cap, s, Write(k, v)).cache;
            && (cap >= 1 ==> n.keys != [] && n.keys[0] == k && k in n.data && n.data[k] == v)
            && (cap <= 0 ==> n.keys == [])
            && |n.keys| == Min(Max(cap, 0), |Elements(c.keys) + {k}|)
            && (n.keys != [] ==> n.keys[1..] <= Without(c.keys, k))
            && n.data.Keys == Elements(n.keys)
            && forall x :: x in n.data && x != k ==> x in c.data && n.data[x] == c.data[x]
  {
    SetKeepsWellFormed(cap, s.cache, k, v);
    TouchNoDup(s.cache.keys, k);
    NoDupCardinality(Touch(s.cache.keys, k));
    var n := Next(cap, s, Write(k, v)).cache;
    forall x | x in n.data && x != k ensures x in s.cache.data {
      assert x in Elements(n.keys);
      assert x in Elements(Touch(s.cache.keys, k));
    }
    if cap >= 1 {
      assert n.keys[0] in Elements(n.keys);
    }
  }

  /** Readers and writers do meet: a write into the empty cache, and a read of
      the same key that is answered with it. */
  lemma WriteThenRead<K, V>(cap: int, k: K, v: V)
    requires cap >= 1
    ensures var c := Lru([k], map[k := v]);
            var run := [Write(k, v)] + GetSteps(c, 0, k);
            && Legal(cap, Start(), run)
            && After(cap, Start(), run) == State(c, map[0 := Finished(k, Hit(v))])
  {
    var c := Lru([k], map[k := v]);
    var s := State(c, map[]);
    assert Touch([], k) == [k] && Take([k], cap) == [k];
    assert Next(cap, Start(), Write(k, v)) == s;
    StartIsSound<K, V>(cap);
    StepSound(cap, Start(), Write(k, v));
    UndisturbedGet(cap, s, 0, k);
    assert [k] == [k] + [] && Without([k], k) == [];
    assert GetSpec(c, k) == c;
    Prepend(cap, Start(), Write(k, v), GetSteps(c, 0, k));
  }
}
