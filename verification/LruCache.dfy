/** The in-memory LRU cache
    (order_service/pkg/pkgports/adapters/cache/lru/in_memory.go): a map and a
    list of keys, most recently used first. */
module LruModel {
  import opened Common

  /** The abstract cache: keys from most to least recently used, and values. */
  datatype Lru<K, V> = Lru(keys: seq<K>, data: map<K, V>)

  /** The representation invariant between list, map and capacity. */
  ghost predicate WellFormed<K, V>(cap: int, c: Lru<K, V>) {
    && NoDup(c.keys)
    && Elements(c.keys) == c.data.Keys
    && |c.keys| <= Max(cap, 0)
  }

  function Empty<K, V>(): Lru<K, V> { Lru([], map[]) }

  /** Most recent first, each key once. */
  function Touch<K(==)>(keys: seq<K>, k: K): seq<K> { [k] + Without(keys, k) }

  /** What a `Set` must do: touch the key, then keep the first `cap` keys. */
  function SetSpec<K, V>(cap: int, c: Lru<K, V>, k: K, v: V): Lru<K, V> {
    var keys := Take(Touch(c.keys, k), cap);
    var all := c.data[k := v];
    Lru(keys, map x | x in all && x in keys :: all[x])
  }

  /** What a `Get` must do: touch the key on a hit, nothing on a miss. */
  function GetSpec<K, V>(c: Lru<K, V>, k: K): Lru<K, V> {
    if k in c.data then c.(keys := Touch(c.keys, k)) else c
  }

  function Lookup<K, V>(c: Lru<K, V>, k: K): Option<V> {
    if k in c.data then Some(c.data[k]) else None
  }

  lemma TouchNoDup<K>(keys: seq<K>, k: K)
    requires NoDup(keys)
    ensures NoDup(Touch(keys, k))
    ensures Elements(Touch(keys, k)) == Elements(keys) + {k}
  {
    WithoutNoDup(keys, k);
    WithoutElements(keys, k);
    assert k !in Elements(Without(keys, k));
    assert Touch(keys, k)[1..] == Without(keys, k);
    assert Elements([k] + Without(keys, k)) == {k} + Elements(Without(keys, k));
  }

  lemma TouchLength<K>(keys: seq<K>, k: K)
    requires NoDup(keys)
    ensures |Touch(keys, k)| == |keys| + if k in keys then 0 else 1
  {
    TouchNoDup(keys, k);
    NoDupCardinality(keys);
    NoDupCardinality(Touch(keys, k));
    if k in keys { assert Elements(keys) + {k} == Elements(keys); }
  }

  /** One step keeps the representation invariant, for every capacity,
      zero and negative ones included. */
  lemma SetKeepsWellFormed<K, V>(cap: int, c: Lru<K, V>, k: K, v: V)
    requires WellFormed(cap, c)
    ensures WellFormed(cap, SetSpec(cap, c, k, v))
  {
    TouchNoDup(c.keys, k);
    NoDupTake(Touch(c.keys, k), cap);
    var keys := SetSpec(cap, c, k, v).keys;
    assert Elements(keys) <= Elements(Touch(c.keys, k));
  }

  lemma GetKeepsWellFormed<K, V>(cap: int, c: Lru<K, V>, k: K)
    requires WellFormed(cap, c)
    ensures WellFormed(cap, GetSpec(c, k))
  {
    if k in c.data {
      assert k in Elements(c.keys);
      TouchNoDup(c.keys, k);
      TouchLength(c.keys, k);
      assert Elements(c.keys) + {k} == c.data.Keys;
    }
  }

  /** Called again with nobody in between, `Get` changes nothing more. */
  lemma GetIdempotent<K, V>(c: Lru<K, V>, k: K)
    ensures GetSpec(GetSpec(c, k), k) == GetSpec(c, k)
  {
    WithoutElements(c.keys, k);
    assert k !in Elements(Without(c.keys, k));
    WithoutAbsent(Without(c.keys, k), k);
    WithoutAppend([k], Without(c.keys, k), k);
  }

  /** Moving the node at the key's own index is touching the key. */
  lemma MoveIsTouch<K>(keys: seq<K>, i: nat)
    requires NoDup(keys) && i < |keys|
    ensures MovedToFront(keys, i) == Touch(keys, keys[i])
  {
    WithoutAtIndex(keys, i);
  }

  lemma TakeAllButLast<K>(t: seq<K>, cap: int)
    requires NoDup(t) && t != [] && |t| <= Max(cap, 0) + 1
    ensures Take(t, cap) == if |t| > cap then t[..|t| - 1] else t
    ensures Elements(Take(t, cap)) == Elements(t) - if |t| > cap then {t[|t| - 1]} else {}
  {
    if |t| > cap {
      var n := |t| - 1;
      var init := t[..n];
      NoDupRemoved(t, n);
      assert init == RemovedAt(t, n) && t == init + [t[n]];
      ElementsAppend(init, t[n]);
      assert t[n] !in Elements(init);
    } else {
      assert Take(t, cap) == t;
    }
  }

  /** A `Set` pushes out at most one key, the least recently used one. */
  lemma OneEvictionSuffices<K, V>(cap: int, c: Lru<K, V>, k: K, v: V)
    requires WellFormed(cap, c)
    ensures var t := Touch(c.keys, k);
            SetSpec(cap, c, k, v) ==
            if |t| > cap then Lru(t[..|t| - 1], c.data[k := v] - {t[|t| - 1]}) else Lru(t, c.data[k := v])
  {
    var t := Touch(c.keys, k);
    var all := c.data[k := v];
    TouchNoDup(c.keys, k);
    TouchLength(c.keys, k);
    TakeAllButLast(t, cap);
    var keys, data := Take(t, cap), SetSpec(cap, c, k, v).data;
    assert all.Keys == Elements(t);
    assert forall x :: x in keys <==> x in Elements(keys);
    assert data.Keys == Elements(keys);
    if |t| > cap {
      assert data == all - {t[|t| - 1]};
    } else {
      assert data == all;
    }
  }
}

module LruCache {
  import opened Common
  import opened LinkedLists
  import opened LruModel

  datatype CacheError =
    | ErrUnexpectedLinkedListBehaviour
    | ErrList(cause: Option<ListError>)

  /** What the index that `GetIndex` finds is good for. */
  lemma IndexOfKey<K>(keys: seq<K>, k: K, index: int)
    requires NoDup(keys) && -1 <= index < |keys|
    requires index >= 0 ==> keys[index] == k
    requires index == -1 ==> forall j :: 0 <= j < |keys| ==> keys[j] != k
    ensures index == -1 <==> k !in Elements(keys)
    ensures index >= 0 ==> Touch(keys, k) == MovedToFront(keys, index)
    ensures index >= 0 ==> Touch(keys, k) == InsertedAt(RemovedAt(keys, index), 0, k)
    ensures index == -1 ==> Touch(keys, k) == InsertedAt(keys, 0, k)
  {
    if index >= 0 {
      WithoutAtIndex(keys, index);
    } else {
      WithoutAbsent(keys, k);
    }
  }

  class CacheLRUInMemory<K(==), V> {
    var data: map<K, V>
    const keysList: LinkedList<K>
    const cap: int

    ghost function View(): Lru<K, V>
      reads this, keysList
    {
      Lru(keysList.Contents(), data)
    }

    ghost predicate Valid()
      reads this, keysList, keysList.Repr
    {
      keysList.Valid() && WellFormed(cap, View())
    }

    constructor (cacheCapacity: int)
      ensures Valid() && View() == Empty() && cap == cacheCapacity
      ensures fresh(keysList) && keysList.Repr == {}
    {
      data := map[];
      keysList := new LinkedList();
      cap := cacheCapacity;
    }

    /** A hit returns the value and moves the key to the front; no error is
        ever returned. */
    method Get(key: K, zero: V) returns (value: V, ok: bool, err: Option<CacheError>)
      requires Valid()
      modifies keysList, keysList.Repr
      ensures Valid() && View() == GetSpec(old(View()), key)
      ensures keysList.Repr == old(keysList.Repr)
      ensures err == None && ok == (key in data)
      ensures value == match Lookup(View(), key) case Some(v) => v case None => zero
    {
      ghost var before := View();
      GetKeepsWellFormed(cap, before, key);
      value, ok := zero, key in data;
      if ok {
        value := data[key];
        var index, listErr := keysList.GetIndex(key, (a, b) => a == b);
        assert View() == before;
        IndexOfKey(before.keys, key, index);
        assert key in Elements(before.keys);
        if listErr.Some? {
          assert false;  // the key is stored, so the list is not empty
        }
        if index != -1 {
          var moveErr := keysList.MoveToFirst(index);
          if moveErr.Some? {
            return zero, false, Some(ErrList(moveErr));
          }
        } else {
          return zero, false, Some(ErrUnexpectedLinkedListBehaviour);
        }
      }
      err := None;
    }

    method Set(key: K, value: V) returns (err: Option<CacheError>)
      requires Valid()
      modifies this, keysList, keysList.Repr
      ensures Valid() && View() == SetSpec(cap, old(View()), key, value)
      ensures fresh(keysList.Repr - old(keysList.Repr))
      ensures err == None
    {
      ghost var before := View();
      SetKeepsWellFormed(cap, before, key, value);
      OneEvictionSuffices(cap, before, key, value);
      err := PutFirst(key);
      if err.Some? {
        return;
      }
      data := data[key := value];
      if keysList.length > cap {
        err := EvictLast();
      }
    }

    /** The first half of `Set`: drop an existing entry of the key, then
        insert the key at the front. */
    method PutFirst(key: K) returns (err: Option<CacheError>)
      requires Valid()
      modifies keysList, keysList.Repr
      ensures keysList.Valid() && fresh(keysList.Repr - old(keysList.Repr))
      ensures keysList.Contents() == Touch(old(keysList.Contents()), key)
      ensures err == None
    {
      ghost var before := keysList.Contents();
      var index, listErr := keysList.GetIndex(key, (a, b) => a == b);
      assert keysList.Contents() == before;
      IndexOfKey(before, key, index);
      if listErr.Some? && listErr.value != ErrEmptyList {
        return Some(ErrList(listErr));
      }
      if index != -1 {
        var removeErr := keysList.RemoveAt(index);
        if removeErr.Some? {
          return Some(ErrList(removeErr));
        }
      }
      var insertErr := keysList.Insert(key, 0);
      if insertErr.Some? {
        return Some(ErrList(insertErr));
      }
      return None;
    }

    /** The second half of `Set`: the overflow branch. An empty list is
        tolerated; it cannot occur right after an insert. */
    method EvictLast() returns (err: Option<CacheError>)
      requires keysList.Valid()
      modifies this`data, keysList, keysList.Repr
      ensures keysList.Valid() && fresh(keysList.Repr - old(keysList.Repr))
      ensures var t := old(keysList.Contents());
              View() == if t == [] then old(View()) else Lru(t[..|t| - 1], old(data) - {t[|t| - 1]})
      ensures err == None
    {
      var last := keysList.GetLast();
      match last {
        case Err(e) =>
          if e != ErrEmptyList {
            return Some(ErrList(Some(e)));
          }
        case Ok(keyToDelete) =>
          var removeErr := keysList.RemoveLast();
          if removeErr.Some? {
            return Some(ErrList(removeErr));
          }
          data := data - {keyToDelete};
      }
      return None;
    }

    method GetKeysAmount() returns (n: int)
      requires Valid()
      ensures n == |data| <= Max(cap, 0)
    {
      NoDupCardinality(View().keys);
      n := keysList.length;
    }

    method GetKeys() returns (keys: seq<K>)
      requires Valid()
      ensures keys == View().keys
    {
      keys := keysList.GetAll();
    }

    method MostUsedKey() returns (r: Result<K, ListError>)
      requires Valid()
      ensures r == if View().keys == [] then Err(ErrEmptyList) else Ok(View().keys[0])
    {
      r := keysList.GetFirst();
    }

    method LeastUsedKey() returns (r: Result<K, ListError>)
      requires Valid()
      ensures var keys := View().keys;
              r == if keys == [] then Err(ErrEmptyList) else Ok(keys[|keys| - 1])
    {
      r := keysList.GetLast();
    }
  }
}
