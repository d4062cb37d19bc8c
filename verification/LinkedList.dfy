/** The hand-written singly linked list under the LRU cache
    (order_service/pkg/linkedlist/list.go). The list keeps its pointer fields;
    the ghost field `nodes` lists the reachable nodes in order, so that
    `Valid` says: acyclic, `tail` is the last node, `length` counts them.
    `Repr` bounds what the methods may write. */
module LinkedLists {
  import opened Common

  datatype ListError = ErrEmptyList | ErrInvalidIndex

  class Node<T> {
    const value: T  // written once, when the node is made
    var next: Node?<T>

    constructor (value: T, next: Node?<T>)
      ensures this.value == value && this.next == next
    {
      this.value, this.next := value, next;
    }
  }

  ghost function Values<T>(nodes: seq<Node<T>>): (s: seq<T>)
    ensures |s| == |nodes|
  {
    seq(|nodes|, i requires 0 <= i < |nodes| => nodes[i].value)
  }

  /** Every node points to its successor, the last one to nothing. */
  ghost predicate Chain<T>(nodes: seq<Node<T>>)
    reads nodes
  {
    && (forall i {:trigger nodes[i].next} :: 0 <= i < |nodes| - 1 ==> nodes[i].next == nodes[i + 1])
    && (nodes != [] ==> nodes[|nodes| - 1].next == null)
  }

  /** `Chain` except for the link out of position `k`. */
  ghost predicate ChainBut<T>(nodes: seq<Node<T>>, k: int)
    reads nodes
  {
    && (forall i {:trigger nodes[i].next} :: 0 <= i < |nodes| - 1 && i != k ==> nodes[i].next == nodes[i + 1])
    && (nodes != [] && |nodes| - 1 != k ==> nodes[|nodes| - 1].next == null)
  }

  lemma ChainInserted<T>(nodes: seq<Node<T>>, i: nat, n: Node<T>)
    requires i <= |nodes| && ChainBut(nodes, i - 1)
    requires i > 0 ==> nodes[i - 1].next == n
    requires n.next == if i < |nodes| then nodes[i] else null
    ensures Chain(InsertedAt(nodes, i, n))
  {
    InsertedAtIs(nodes, i, n);
    var all := InsertedAt(nodes, i, n);
    forall k | 0 <= k < |all| - 1 ensures all[k].next == all[k + 1] {
      if k > i { assert nodes[k - 1].next == nodes[k]; }
    }
  }

  lemma ChainRemoved<T>(nodes: seq<Node<T>>, i: nat)
    requires i < |nodes| && ChainBut(nodes, i - 1)
    requires i > 0 ==> nodes[i - 1].next == nodes[i].next
    ensures Chain(RemovedAt(nodes, i))
  {
    RemovedAtIs(nodes, i);
    var rest := RemovedAt(nodes, i);
    assert i < |nodes| - 1 ==> nodes[i].next == nodes[i + 1];
    forall k | 0 <= k < |rest| - 1 ensures rest[k].next == rest[k + 1] {
      if k >= i { assert nodes[k + 1].next == nodes[k + 2]; }
    }
  }

  lemma ChainMoved<T>(nodes: seq<Node<T>>, from: nat)
    requires 0 < from < |nodes|
    requires nodes[from].next == nodes[0]
    requires nodes[from - 1].next == if from + 1 < |nodes| then nodes[from + 1] else null
    requires ChainBut(nodes[..from], from - 1) && Chain(nodes[from + 1..])
    ensures Chain(MovedToFront(nodes, from))
  {
    var a, b, moved := nodes[..from], nodes[from + 1..], MovedToFront(nodes, from);
    assert moved == [nodes[from]] + a + b;
    forall k | 0 <= k < |moved| - 1 ensures moved[k].next == moved[k + 1] {
      if k > from {
        assert b[k - from - 1].next == b[k - from];
      } else if 0 < k < from {
        assert a[k - 1].next == a[k];
      }
    }
  }

  lemma ValuesMoved<T>(nodes: seq<Node<T>>, i: nat)
    requires i < |nodes|
    ensures Values(MovedToFront(nodes, i)) == MovedToFront(Values(nodes), i)
  {
  }

  lemma ValuesRemoved<T>(nodes: seq<Node<T>>, i: nat)
    requires i < |nodes|
    ensures Values(RemovedAt(nodes, i)) == RemovedAt(Values(nodes), i)
  {
  }

  lemma ValuesInserted<T>(nodes: seq<Node<T>>, i: nat, n: Node<T>)
    requires i <= |nodes|
    ensures Values(InsertedAt(nodes, i, n)) == InsertedAt(Values(nodes), i, n.value)
  {
  }

  class LinkedList<T> {
    var head: Node?<T>
    var tail: Node?<T>
    var length: int
    ghost var nodes: seq<Node<T>>
    ghost var Repr: set<Node<T>>

    /** Everything `Valid` says except that `tail` is up to date: the state in
        which `recalculateTail` is called. */
    ghost predicate Linked()
      reads this, Repr
    {
      && (forall i :: 0 <= i < |nodes| ==> nodes[i] in Repr)
      && length == |nodes|
      && NoDup(nodes)
      && Chain(nodes)
      && head == (if nodes == [] then null else nodes[0])
    }

    ghost predicate Valid()
      reads this, Repr
    {
      && Linked()
      && tail == (if nodes == [] then null else nodes[|nodes| - 1])
    }

    ghost function Contents(): (s: seq<T>)
      reads this
      ensures |s| == |nodes|
    {
      Values(nodes)
    }

    constructor ()
      ensures Valid() && nodes == [] && Repr == {}
    {
      head, tail, length, nodes, Repr := null, null, 0, [], {};
    }

    /** The traversal loop that the methods below share: `steps` links from
        the head. */
    method Advance(steps: nat) returns (node: Node<T>)
      requires Linked() && steps < |nodes|
      ensures node == nodes[steps]
    {
      node := head;
      for i := 0 to steps
        invariant node == nodes[i]
      {
        assert nodes[i].next == nodes[i + 1];
        node := node.next;
      }
    }

    /** The pointer writes of `Insert`: in front of the head, between two
        nodes, or behind the tail. */
    method Splice(newNode: Node<T>, index: nat)
      requires Valid() && index <= |nodes|
      requires newNode !in Repr && newNode.next == null
      modifies this`head, Repr, newNode
      ensures ChainBut(nodes, index - 1)
      ensures index > 0 ==> nodes[index - 1].next == newNode
      ensures newNode.next == if index < |nodes| then nodes[index] else null
      ensures head == if index == 0 then newNode else old(head)
    {
      NoDupPairs(nodes);
      if index == 0 {
        newNode.next := head;
        head := newNode;
      } else if index < length {
        var prev := Advance(index - 1);
        assert nodes[index - 1].next == nodes[index];
        if prev.next != null {
          newNode.next := prev.next;
        }
        prev.next := newNode;
      } else {
        tail.next := newNode;
      }
    }

    method Insert(data: T, index: int) returns (err: Option<ListError>)
      requires Valid()
      modifies this, Repr
      ensures Valid()
      ensures fresh(Repr - old(Repr))
      ensures err.None? <==> 0 <= index <= |old(nodes)|
      ensures err.Some? ==> err.value == ErrInvalidIndex && nodes == old(nodes) && Contents() == old(Contents())
      ensures err.None? ==> Contents() == InsertedAt(old(Contents()), index, data)
    {
      var newNode := new Node(data, null);
      var currentLen := length;
      if index > currentLen {
        return Some(ErrInvalidIndex);
      }
      if index < 0 {
        return Some(ErrInvalidIndex);
      }
      ghost var before := nodes;
      Splice(newNode, index);
      length := length + 1;
      ChainInserted(before, index, newNode);
      NoDupInserted(before, index, newNode);
      ValuesInserted(before, index, newNode);
      WithinInserted(before, index, newNode, Repr);
      nodes, Repr := InsertedAt(before, index, newNode), Repr + {newNode};
      if index == currentLen {
        tail := newNode;
      }
      return None;
    }

    method InsertLast(data: T) returns (err: Option<ListError>)
      requires Valid()
      modifies this, Repr
      ensures Valid()
      ensures fresh(Repr - old(Repr))
      ensures err.None? && Contents() == old(Contents()) + [data]
    {
      err := Insert(data, length);
    }

    method RemoveAt(index: int) returns (err: Option<ListError>)
      requires Valid()
      modifies this, Repr
      ensures Valid()
      ensures Repr == old(Repr)
      ensures err == RemoveError(|old(nodes)|, index)
      ensures Contents() == if err.None? then RemovedAt(old(Contents()), index) else old(Contents())
    {
      if length == 0 {
        return Some(ErrEmptyList);
      }
      if index == 0 {
        err := RemoveFirst();
        return;
      }
      if index < 0 || index >= length {
        return Some(ErrInvalidIndex);
      }
      ghost var before := nodes;
      var prevElem := Unlink(index);
      if index == length - 1 {
        tail := prevElem;
      }
      length := length - 1;
      ChainRemoved(before, index);
      NoDupRemoved(before, index);
      ValuesRemoved(before, index);
      nodes := RemovedAt(before, index);
      return None;
    }

    /** The pointer write of `removeNodeAt`: the predecessor skips a node. */
    method Unlink(index: nat) returns (prevElem: Node<T>)
      requires Valid() && 0 < index < |nodes|
      modifies Repr
      ensures prevElem == nodes[index - 1] && prevElem.next == nodes[index].next
      ensures ChainBut(nodes, index - 1)
    {
      NoDupPairs(nodes);
      prevElem := Advance(index - 1);
      assert nodes[index - 1].next == nodes[index];
      var deletedElem := prevElem.next;
      if deletedElem != null {
        prevElem.next := deletedElem.next;
      } else {
        assert false;  // `index` is in range, so there is a node to delete
      }
    }

    method RemoveFirst() returns (err: Option<ListError>)
      requires Valid()
      modifies this, Repr
      ensures Valid()
      ensures Repr == old(Repr)
      ensures err == RemoveError(|old(nodes)|, 0)
      ensures Contents() == if err.None? then old(Contents())[1..] else old(Contents())
    {
      if length == 0 {
        return Some(ErrEmptyList);
      }
      head := head.next;
      length := length - 1;
      ChainRemoved(nodes, 0);
      NoDupRemoved(nodes, 0);
      nodes := RemovedAt(nodes, 0);
      RecalculateTail();
      return None;
    }

    method RemoveLast() returns (err: Option<ListError>)
      requires Valid()
      modifies this, Repr
      ensures Valid()
      ensures Repr == old(Repr)
      ensures err == RemoveError(|old(nodes)|, |old(nodes)| - 1)
      ensures Contents() == if err.None? then old(Contents())[..|old(nodes)| - 1] else old(Contents())
    {
      err := RemoveAt(length - 1);
    }

    method GetAt(index: int) returns (r: Result<T, ListError>)
      requires Valid()
      ensures r == match RemoveError(|nodes|, index)
                   case Some(e) => Err(e)
                   case None => Ok(Contents()[index])
    {
      var node, err := GetNodeAt(index);
      if err.Some? {
        return Err(err.value);
      }
      if node == null {
        return Err(ErrEmptyList);
      }
      return Ok(node.value);
    }

    method GetFirst() returns (r: Result<T, ListError>)
      requires Valid()
      ensures r == if nodes == [] then Err(ErrEmptyList) else Ok(Contents()[0])
    {
      if length == 0 {
        return Err(ErrEmptyList);
      }
      return Ok(head.value);
    }

    method GetLast() returns (r: Result<T, ListError>)
      requires Valid()
      ensures r == if nodes == [] then Err(ErrEmptyList) else Ok(Contents()[|nodes| - 1])
    {
      if length == 0 {
        return Err(ErrEmptyList);
      }
      return Ok(tail.value);
    }

    method GetNodeAt(index: int) returns (node: Node?<T>, err: Option<ListError>)
      requires Valid()
      ensures err == RemoveError(|nodes|, index)
      ensures err.None? ==> node == nodes[index]
    {
      if length == 0 {
        return null, Some(ErrEmptyList);
      }
      if index == 0 {
        return head, None;
      } else if index < 0 || index >= length {
        return null, Some(ErrInvalidIndex);
      } else if index == length - 1 {
        return tail, None;
      }
      node := Advance(index);
      err := None;
    }

    method MoveToFirst(from: int) returns (err: Option<ListError>)
      requires Valid()
      modifies this, Repr
      ensures Valid() && Repr == old(Repr)
      ensures err == if 0 <= from < |old(nodes)| then None else Some(ErrInvalidIndex)
      ensures nodes == if err.None? then MovedToFront(old(nodes), from) else old(nodes)
      ensures Contents() == if err.None? then MovedToFront(old(Contents()), from) else old(Contents())
    {
      if from < 0 || from >= length {
        return Some(ErrInvalidIndex);
      }
      ValuesMoved(nodes, from);
      if from > 0 && length > 1 {
        ghost var before := nodes;
        Relink(from);
        ChainMoved(before, from);
        NoDupMoved(before, from);
        nodes := MovedToFront(before, from);
        RecalculateTail();
      } else {
        assert nodes == MovedToFront(nodes, from);
      }
      return None;
    }

    /** The pointer surgery of `MoveToFirst`. When `from == 1` the predecessor
        is the old head, so `prevNode` and `currentHead` are one node. */
    method Relink(from: nat)
      requires Valid() && 0 < from < |nodes|
      modifies this`head, Repr
      ensures head == nodes[from] && nodes[from].next == nodes[0]
      ensures nodes[from - 1].next == if from + 1 < |nodes| then nodes[from + 1] else null
      ensures ChainBut(nodes[..from], from - 1) && Chain(nodes[from + 1..])
    {
      NoDupPairs(nodes);
      var prevNode, nodeErr := GetNodeAt(from - 1);
      assert nodes[from - 1].next == nodes[from];
      var nodeToMove := prevNode.next;
      var nextNode := nodeToMove.next;
      assert from + 1 < |nodes| ==> nodes[from].next == nodes[from + 1];
      var currentHead := head;
      head := nodeToMove;
      nodeToMove.next := currentHead;
      prevNode.next := nextNode;
    }

    method GetIndex(item: T, compareFunc: (T, T) -> bool) returns (index: int, err: Option<ListError>)
      requires Valid()
      ensures err == if nodes == [] then Some(ErrEmptyList) else None
      ensures -1 <= index < |nodes|
      ensures index >= 0 ==> compareFunc(Contents()[index], item)
      ensures forall j :: 0 <= j < (if index == -1 then |nodes| else index) ==> !compareFunc(Contents()[j], item)
    {
      if length == 0 {
        return -1, Some(ErrEmptyList);
      }
      var elem := head;
      for i := 0 to length
        invariant elem == if i < |nodes| then nodes[i] else null
        invariant forall j :: 0 <= j < i ==> !compareFunc(nodes[j].value, item)
      {
        if compareFunc(elem.value, item) {
          return i, None;
        }
        elem := elem.next;
      }
      return -1, None;
    }

    method GetAll() returns (result: seq<T>)
      requires Valid()
      ensures result == Contents()
    {
      result := [];
      var currentElem := head;
      for i := 0 to length
        invariant currentElem == if i < |nodes| then nodes[i] else null
        invariant result == Contents()[..i]
      {
        result := result + [currentElem.value];
        currentElem := currentElem.next;
      }
    }

    method RecalculateTail()
      requires Linked()
      modifies this`tail
      ensures Valid()
    {
      if length > 0 {
        tail := Advance(length - 1);
      } else {
        tail := head;
      }
    }
  }

  /** The error every index-based access gives: an empty list is reported
      before a bad index. */
  function RemoveError(length: nat, index: int): Option<ListError> {
    if length == 0 then Some(ErrEmptyList)
    else if 0 <= index < length then None
    else Some(ErrInvalidIndex)
  }
}
