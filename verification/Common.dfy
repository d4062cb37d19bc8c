/** Small vocabulary shared by every module: optional values, results, and
    the sequence operations the linked list and the channel perform. */
module Common {
  datatype Option<+T> = None | Some(value: T)

  datatype Result<+T, +E> = Ok(value: T) | Err(error: E)

  function Max(a: int, b: int): int { if a < b then b else a }

  function Min(a: int, b: int): int { if a < b then a else b }

  lemma ElementsAppend<T>(s: seq<T>, x: T)
    ensures Elements(s + [x]) == Elements(s) + {x}
  {
  }

  /** The first `n` elements, or all of them when there are fewer. */
  function Take<T>(s: seq<T>, n: int): seq<T> {
    s[..Min(Max(n, 0), |s|)]
  }

  function InsertedAt<T>(s: seq<T>, i: nat, x: T): seq<T>
    requires i <= |s|
  {
    s[..i] + [x] + s[i..]
  }

  function RemovedAt<T>(s: seq<T>, i: nat): seq<T>
    requires i < |s|
  {
    s[..i] + s[i + 1..]
  }

  function MovedToFront<T>(s: seq<T>, i: nat): seq<T>
    requires i < |s|
  {
    [s[i]] + RemovedAt(s, i)
  }

  lemma InsertedAtIs<T>(s: seq<T>, i: nat, x: T)
    requires i <= |s|
    ensures |InsertedAt(s, i, x)| == |s| + 1
    ensures forall k :: 0 <= k <= |s| ==>
                        InsertedAt(s, i, x)[k] == if k < i then s[k] else if k == i then x else s[k - 1]
  {
  }

  lemma WithinInserted<T>(s: seq<T>, i: nat, x: T, all: set<T>)
    requires i <= |s| && forall k :: 0 <= k < |s| ==> s[k] in all
    ensures forall k :: 0 <= k < |InsertedAt(s, i, x)| ==> InsertedAt(s, i, x)[k] in all + {x}
  {
    InsertedAtIs(s, i, x);
  }

  lemma RemovedAtIs<T>(s: seq<T>, i: nat)
    requires i < |s|
    ensures |RemovedAt(s, i)| == |s| - 1
    ensures forall k :: 0 <= k < |s| - 1 ==> RemovedAt(s, i)[k] == if k < i then s[k] else s[k + 1]
  {
  }

  lemma MovedToFrontAt<T>(s: seq<T>, i: nat)
    requires i < |s|
    ensures |MovedToFront(s, i)| == |s|
    ensures forall k :: 0 <= k < |s| ==>
                        MovedToFront(s, i)[k] == if k == 0 then s[i] else if k <= i then s[k - 1] else s[k]
  {
  }

  function Elements<T>(s: seq<T>): set<T> { set x | x in s }

  /** No element occurs twice. Recursive, so that the pairwise form is only
      in view where `NoDupPairs` is called. */
  ghost predicate NoDup<T>(s: seq<T>) {
    s == [] || (s[0] !in s[1..] && NoDup(s[1..]))
  }

  lemma NoDupPairs<T>(s: seq<T>)
    ensures NoDup(s) <==> forall i, j :: 0 <= i < j < |s| ==> s[i] != s[j]
  {
    if s != [] {
      NoDupPairs(s[1..]);
      if NoDup(s) {
        forall i, j | 0 <= i < j < |s| ensures s[i] != s[j] {
          assert s[j] == s[1..][j - 1];
          if i > 0 { assert s[i] == s[1..][i - 1]; }
        }
      } else if s[0] in s[1..] {
        var j :| 0 <= j < |s| - 1 && s[1..][j] == s[0];
        assert s[0] == s[j + 1];
      } else {
        var i, j :| 0 <= i < j < |s| - 1 && s[1..][i] == s[1..][j];
        assert s[i + 1] == s[j + 1];
      }
    }
  }

  lemma NoDupInserted<T>(s: seq<T>, i: nat, x: T)
    requires NoDup(s) && i <= |s| && x !in s
    ensures NoDup(InsertedAt(s, i, x))
  {
    InsertedAtIs(s, i, x);
    NoDupPairs(s);
    NoDupPairs(InsertedAt(s, i, x));
  }

  lemma NoDupRemoved<T>(s: seq<T>, i: nat)
    requires NoDup(s) && i < |s|
    ensures NoDup(RemovedAt(s, i)) && s[i] !in RemovedAt(s, i)
  {
    RemovedAtIs(s, i);
    NoDupPairs(s);
    NoDupPairs(RemovedAt(s, i));
  }

  lemma NoDupMoved<T>(s: seq<T>, i: nat)
    requires NoDup(s) && i < |s|
    ensures NoDup(MovedToFront(s, i))
  {
    NoDupRemoved(s, i);
    assert MovedToFront(s, i)[1..] == RemovedAt(s, i);
  }

  lemma NoDupTake<T>(s: seq<T>, n: int)
    requires NoDup(s)
    ensures NoDup(Take(s, n))
  {
    NoDupPairs(s);
    NoDupPairs(Take(s, n));
  }

  /** `s` without any occurrence of `x`, order kept. */
  function Without<T(==)>(s: seq<T>, x: T): seq<T> {
    if s == [] then []
    else if s[0] == x then Without(s[1..], x)
    else [s[0]] + Without(s[1..], x)
  }

  lemma {:induction false} WithoutElements<T>(s: seq<T>, x: T)
    ensures Elements(Without(s, x)) == Elements(s) - {x}
    ensures |Without(s, x)| <= |s|
  {
    if s != [] {
      WithoutElements(s[1..], x);
      assert s == [s[0]] + s[1..];
      var w := Without(s[1..], x);
      if s[0] != x {
        assert Elements([s[0]] + w) == {s[0]} + Elements(w);
      }
      assert Elements(s) == {s[0]} + Elements(s[1..]);
    }
  }

  lemma {:induction false} WithoutAbsent<T>(s: seq<T>, x: T)
    requires x !in s
    ensures Without(s, x) == s
  {
    if s != [] { WithoutAbsent(s[1..], x); }
  }

  lemma {:induction false} WithoutAppend<T>(a: seq<T>, b: seq<T>, x: T)
    ensures Without(a + b, x) == Without(a, x) + Without(b, x)
  {
    if a == [] {
      assert a + b == b;
    } else {
      WithoutAppend(a[1..], b, x);
      var w, v := Without(a[1..], x), Without(b, x);
      assert (a + b)[0] == a[0] && (a + b)[1..] == a[1..] + b;
      assert [a[0]] + (w + v) == ([a[0]] + w) + v;
    }
  }

  lemma {:induction false} WithoutNoDup<T>(s: seq<T>, x: T)
    requires NoDup(s)
    ensures NoDup(Without(s, x))
  {
    if s != [] {
      WithoutNoDup(s[1..], x);
      WithoutElements(s[1..], x);
      assert s[0] !in Elements(s[1..]);
      assert s[0] !in Elements(Without(s[1..], x));
      if s[0] != x { assert Without(s, x)[1..] == Without(s[1..], x); }
    }
  }

  /** In a duplicate-free sequence, dropping the one position of `s[i]` and
      filtering `s[i]` out are the same thing. */
  lemma {:induction false} WithoutAtIndex<T>(s: seq<T>, i: nat)
    requires NoDup(s) && i < |s|
    ensures Without(s, s[i]) == RemovedAt(s, i)
  {
    if i == 0 {
      WithoutAbsent(s[1..], s[0]);
      assert RemovedAt(s, 0) == s[1..];
    } else {
      assert s[i] == s[1..][i - 1];
      WithoutAtIndex(s[1..], i - 1);
      assert RemovedAt(s, i) == [s[0]] + RemovedAt(s[1..], i - 1);
    }
  }

  lemma NoDupCardinality<T>(s: seq<T>)
    requires NoDup(s)
    ensures |Elements(s)| == |s|
  {
    if s != [] {
      NoDupCardinality(s[1..]);
      assert Elements(s) == {s[0]} + Elements(s[1..]);
    }
  }

  /** A part with as many elements as the whole is the whole. */
  lemma PartIsAll<T>(part: multiset<T>, all: multiset<T>)
    requires part <= all && |part| == |all|
    ensures part == all
  {
    var rest := all - part;
    assert all == part + rest;
    assert |rest| == 0;
  }

  lemma RemovedAtMultiset<T>(s: seq<T>, i: nat)
    requires i < |s|
    ensures multiset(s) == multiset(RemovedAt(s, i)) + multiset{s[i]}
  {
    assert s == s[..i] + [s[i]] + s[i + 1..];
  }
}
