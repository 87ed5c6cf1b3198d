/** The sentinel doubly linked list (src/linked_list.c) and its abstract value, a sequence. */
module LinkedLists {

  // A data pointer; None is the null pointer.
  datatype Option<+T> = None | Some(value: T)

  class Node<T> {
    var data: Option<T>
    var next: Node?<T>
    var prev: Node?<T>

    constructor (data: Option<T>)
      ensures this.data == data && next == null && prev == null
    {
      this.data := data;
      next, prev := null, null;
    }
  }

  /** The nodes are distinct, and each points to its neighbours. */
  ghost predicate Linked<T>(chain: seq<Node<T>>)
    reads chain
  {
    && (forall i, j :: 0 <= i < j < |chain| ==> chain[i] != chain[j])
    && (forall i :: 0 <= i < |chain| - 1 ==> chain[i].next == chain[i + 1])
    && (forall i :: 0 < i < |chain| ==> chain[i].prev == chain[i - 1])
  }

  /** Rewires the neighbours of an inner node of a chain around it. */
  method Unlink<T>(node: Node<T>, ghost chain: seq<Node<T>>, ghost k: nat)
    requires Linked(chain) && 0 < k < |chain| - 1 && chain[k] == node
    modifies chain
    ensures Linked(chain[..k] + chain[k + 1..])
    ensures chain[0].prev == old(chain[0].prev) && chain[|chain| - 1].next == old(chain[|chain| - 1].next)
    ensures forall i :: 0 <= i < |chain| ==> chain[i].data == old(chain[i].data)
  {
    assert chain[k - 1] == node.prev && chain[k + 1] == node.next;
    node.prev.next := node.next;
    node.next.prev := node.prev;
  }

  /** A chain without its member `k` is the chain of the other members. */
  lemma Unlinked<N>(head: N, m: seq<N>, tail: N, k: nat)
    requires k < |m|
    ensures var c := [head] + m + [tail];
      [head] + (m[..k] + m[k + 1..]) + [tail] == c[..k + 1] + c[k + 2..]
  {
  }

  lemma Suffix<N>(m: seq<N>, k: nat)
    requires k < |m|
    ensures m[k..] == [m[k]] + m[k + 1..]
    ensures forall n :: n in m[k..] ==> n in m
  {
  }

  class LinkedList<T(==)> {
    var membersCount: int
    const head: Node<T>
    const tail: Node<T>
    ghost var nodes: seq<Node<T>>   // the members, in order

    /** The members between their sentinels. */
    ghost function Chain(): seq<Node<T>>
      reads this
    {
      [head] + nodes + [tail]
    }

    /** The `next` pointers spell the chain, the `prev` pointers its reverse, and both end at a sentinel. */
    ghost predicate Valid()
      reads this, head, tail, nodes
    {
      var chain := Chain();
      && membersCount == |nodes|
      && head.prev == null && tail.next == null && head.data == None && tail.data == None
      && Linked(chain)
    }

    ghost function Contents(): (r: seq<Option<T>>)
      reads this, nodes
      ensures |r| == |nodes| && forall i :: 0 <= i < |nodes| ==> r[i] == nodes[i].data
    {
      seq(|nodes|, i requires 0 <= i < |nodes| reads this, nodes => nodes[i].data)
    }

    constructor ()
      ensures Valid() && nodes == [] && Contents() == []
      ensures fresh(head) && fresh(tail)
    {
      var h := new Node<T>(None);
      var t := new Node<T>(None);
      head, tail, membersCount, nodes := h, t, 0, [];
      new;
      h.next := t;
      t.prev := h;
    }

    method Length() returns (n: int)
      requires Valid()
      ensures n == |nodes|
    {
      n := membersCount;
    }

    method IsEmpty() returns (empty: bool)
      requires Valid()
      ensures empty <==> nodes == []
    {
      empty := membersCount == 0;
    }

    method Append(obj: Option<T>) returns (ghost node: Node<T>)
      requires Valid()
      modifies this, head, tail, nodes
      ensures Valid() && fresh(node) && nodes == old(nodes) + [node]
      ensures Contents() == old(Contents()) + [obj]
    {
      var newNode := new Node<T>(obj);
      ghost var n := |nodes|;
      assert Chain()[n + 1] == tail && Chain()[n].next == tail;
      newNode.next := tail;
      newNode.prev := tail.prev;
      tail.prev.next := newNode;
      tail.prev := newNode;
      membersCount := membersCount + 1;
      nodes := nodes + [newNode];
      node := newNode;
      assert Chain() == old(Chain())[..n + 1] + [newNode, tail];
    }

    method AppendLeft(obj: Option<T>) returns (ghost node: Node<T>)
      requires Valid()
      modifies this, head, tail, nodes
      ensures Valid() && fresh(node) && nodes == [node] + old(nodes)
      ensures Contents() == [obj] + old(Contents())
    {
      var newNode := new Node<T>(obj);
      assert Chain()[0] == head && Chain()[1].prev == head;
      newNode.next := head.next;
      newNode.prev := head;
      head.next.prev := newNode;
      head.next := newNode;
      membersCount := membersCount + 1;
      nodes := [newNode] + nodes;
      node := newNode;
      assert Chain() == [head, newNode] + old(Chain())[1..];
    }

    method Pop() returns (node: Node?<T>)
      requires Valid()
      modifies this, head, tail, nodes
      ensures Valid()
      ensures old(nodes) == [] ==> node == null && nodes == []
      ensures old(nodes) != [] ==> node != null && old(nodes) == nodes + [node] && node.data == old(Contents())[|nodes|]
      ensures Contents() == if old(nodes) == [] then [] else old(Contents())[..old(|nodes|) - 1]
    {
      if membersCount == 0 {
        return null;
      }
      ghost var n := |nodes|;
      assert Chain()[n + 1] == tail && Chain()[n] == nodes[n - 1] && Chain()[n].prev == Chain()[n - 1];
      var last := tail.prev;
      last.prev.next := tail;
      tail.prev := last.prev;
      membersCount := membersCount - 1;
      nodes := nodes[..n - 1];
      node := last;
      assert Chain() == old(Chain())[..n] + [tail];
    }

    method PopLeft() returns (node: Node?<T>)
      requires Valid()
      modifies this, head, tail, nodes
      ensures Valid()
      ensures old(nodes) == [] ==> node == null && nodes == []
      ensures old(nodes) != [] ==> node != null && old(nodes) == [node] + nodes && node.data == old(Contents())[0]
      ensures Contents() == if old(nodes) == [] then [] else old(Contents())[1..]
    {
      if membersCount == 0 {
        return null;
      }
      assert Chain()[0] == head && Chain()[1] == nodes[0] && Chain()[1].next == Chain()[2];
      var first := head.next;
      first.next.prev := head;
      head.next := first.next;
      membersCount := membersCount - 1;
      nodes := nodes[1..];
      node := first;
      assert Chain() == [head] + old(Chain())[2..];
    }

    /** The caller passes a member, or null, or any node when the list is empty; `k` is its position. */
    method Remove(node: Node?<T>, ghost k: nat)
      requires Valid()
      requires node != null && nodes != [] ==> k < |nodes| && nodes[k] == node
      modifies this, head, tail, nodes
      ensures Valid()
      ensures node == null || old(nodes) == [] ==> nodes == old(nodes) && Contents() == old(Contents())
      ensures node != null && old(nodes) != [] ==>
        && nodes == old(nodes)[..k] + old(nodes)[k + 1..]
        && Contents() == old(Contents())[..k] + old(Contents())[k + 1..]
    {
      if node == null || membersCount == 0 {
        return;
      }
      ghost var m := nodes;
      assert Chain()[k + 1] == node;
      Unlink(node, Chain(), k + 1);
      membersCount := membersCount - 1;
      Unlinked(head, m, tail, k);
      nodes := m[..k] + m[k + 1..];
    }

    method Clear()
      requires Valid()
      modifies this, head, tail, nodes
      ensures Valid() && nodes == [] && Contents() == []
    {
      ghost var m, k := nodes, 0;
      while membersCount != 0
        invariant Valid() && k <= |m| && nodes == m[k..]
        decreases |m| - k
      {
        Suffix(m, k);
        var node := PopLeft();
        k := k + 1;
      }
    }

    method First() returns (node: Node?<T>)
      requires Valid()
      ensures node == if nodes == [] then null else nodes[0]
    {
      if membersCount == 0 {
        return null;
      }
      assert Chain()[0].next == Chain()[1];
      node := head.next;
    }

    method Last() returns (node: Node?<T>)
      requires Valid()
      ensures node == if nodes == [] then null else nodes[|nodes| - 1]
    {
      if membersCount == 0 {
        return null;
      }
      assert Chain()[|nodes| + 1].prev == Chain()[|nodes|];
      node := tail.prev;
    }

    method Next(node: Node?<T>) returns (r: Node?<T>)
      requires Valid()
      ensures node == null ==> r == null
      ensures forall k {:trigger nodes[k]} :: 0 <= k < |nodes| && node == nodes[k] ==>
        r == if k + 1 < |nodes| then nodes[k + 1] else null
    {
      if node == null || node.next == null {
        r := null;
      } else if node.next == tail {
        r := null;
      } else {
        r := node.next;
      }
      forall k | 0 <= k < |nodes| ensures nodes[k].next == Chain()[k + 2] {
        assert Chain()[k + 1] == nodes[k];
      }
    }

    method Prev(node: Node?<T>) returns (r: Node?<T>)
      requires Valid()
      ensures node == null ==> r == null
      ensures forall k {:trigger nodes[k]} :: 0 <= k < |nodes| && node == nodes[k] ==>
        r == if k > 0 then nodes[k - 1] else null
    {
      if node == null || node.prev == null {
        r := null;
      } else if node.prev == head {
        r := null;
      } else {
        r := node.prev;
      }
      forall k | 0 <= k < |nodes| ensures nodes[k].prev == Chain()[k] {
        assert Chain()[k + 1] == nodes[k];
      }
    }

    /** The first member with this data.  The search runs on into the tail sentinel, so for the null
        pointer a nonempty list without a null member yields the sentinel. */
    method Find(data: Option<T>) returns (node: Node?<T>)
      requires Valid()
      ensures data in Contents() ==>
        exists k :: 0 <= k < |nodes| && node == nodes[k] && Contents()[k] == data && data !in Contents()[..k]
      ensures data !in Contents() ==> node == if data == None && nodes != [] then tail else null
    {
      var curr := First();
      ghost var k := 1;
      while curr != null
        invariant curr == null ==> nodes == [] || k == |Chain()|
        invariant curr != null ==> 1 <= k < |Chain()| && curr == Chain()[k] && nodes != []
        invariant forall i :: 1 <= i < k && i < |Chain()| ==> Chain()[i].data != data
        decreases if curr == null then 0 else |Chain()| - k + 1
      {
        if curr.data == data {
          if k <= |nodes| {
            assert Chain()[k] == nodes[k - 1] && Contents()[k - 1] == data;
            forall i | 0 <= i < k - 1 ensures Contents()[i] != data {
              assert Chain()[i + 1] == nodes[i];
            }
          } else {
            assert curr == tail;
            NotFound(data);
          }
          return curr;
        }
        assert k < |Chain()| - 1 ==> curr.next == Chain()[k + 1];
        curr := curr.next;
        k := k + 1;
      }
      if nodes != [] {
        assert Chain()[|nodes| + 1] == tail;
        NotFound(data);
      }
      node := null;
    }

    lemma NotFound(data: Option<T>)
      requires Valid() && forall i :: 1 <= i <= |nodes| ==> Chain()[i].data != data
      ensures data !in Contents()
    {
      forall i | 0 <= i < |nodes| ensures Contents()[i] != data {
        assert Chain()[i + 1] == nodes[i];
      }
    }

    /** A walk with `First` and `Next` visits each node once, in order, and stops. */
    method WalkForward() returns (visited: seq<Node<T>>)
      requires Valid()
      ensures visited == nodes
    {
      visited := [];
      var curr := First();
      while curr != null
        invariant |visited| <= |nodes| && visited == nodes[..|visited|]
        invariant curr == if |visited| < |nodes| then nodes[|visited|] else null
        decreases |nodes| - |visited|
      {
        ghost var i := |visited|;
        assert curr == nodes[i];
        visited := visited + [curr];
        curr := Next(curr);
      }
    }

    /** A walk with `Last` and `Prev` visits each node once, in reverse, and stops. */
    method WalkBackward() returns (visited: seq<Node<T>>)
      requires Valid()
      ensures |visited| == |nodes| && forall k :: 0 <= k < |nodes| ==> visited[k] == nodes[|nodes| - 1 - k]
    {
      visited := [];
      var curr := Last();
      while curr != null
        invariant |visited| <= |nodes|
        invariant forall k :: 0 <= k < |visited| ==> visited[k] == nodes[|nodes| - 1 - k]
        invariant curr == if |visited| < |nodes| then nodes[|nodes| - 1 - |visited|] else null
        decreases |nodes| - |visited|
      {
        visited := visited + [curr];
        curr := Prev(curr);
      }
    }
  }

  // ---- any sequence of operations ----

  /** An operation on a list; a removal names a member by its position. */
  datatype Operation<T> = DoAppend(obj: Option<T>) | DoAppendLeft(obj: Option<T>) | DoPop | DoPopLeft
                        | DoRemove(k: nat) | DoClear

  function Apply<T>(q: seq<Option<T>>, op: Operation<T>): seq<Option<T>> {
    match op
    case DoAppend(obj) => q + [obj]
    case DoAppendLeft(obj) => [obj] + q
    case DoPop => if q == [] then [] else q[..|q| - 1]
    case DoPopLeft => if q == [] then [] else q[1..]
    case DoRemove(k) => if k < |q| then q[..k] + q[k + 1..] else q
    case DoClear => []
  }

  function ApplyAll<T>(q: seq<Option<T>>, ops: seq<Operation<T>>): seq<Option<T>> {
    if ops == [] then q else Apply(ApplyAll(q, ops[..|ops| - 1]), ops[|ops| - 1])
  }

  method Member<T(==)>(list: LinkedList<T>, k: nat) returns (node: Node?<T>)
    requires list.Valid()
    ensures node == if k < |list.nodes| then list.nodes[k] else null
  {
    node := list.First();
    var i := 0;
    while i < k && node != null
      invariant i <= k
      invariant node == if i < |list.nodes| then list.nodes[i] else null
    {
      node := list.Next(node);
      i := i + 1;
    }
  }

  method Perform<T(==)>(list: LinkedList<T>, op: Operation<T>)
    requires list.Valid()
    modifies list, list.head, list.tail, list.nodes
    ensures list.Valid() && list.Contents() == Apply(old(list.Contents()), op)
    ensures forall k :: 0 <= k < |list.nodes| ==> list.nodes[k] in old(list.nodes) || fresh(list.nodes[k])
  {
    match op
    case DoAppend(obj) => ghost var node := list.Append(obj);
    case DoAppendLeft(obj) => ghost var node := list.AppendLeft(obj);
    case DoPop => var node := list.Pop();
    case DoPopLeft => var node := list.PopLeft();
    case DoRemove(k) => var node := Member(list, k); list.Remove(node, k);
    case DoClear => list.Clear();
  }

  /** Refinement: under any sequence of operations the pointers spell what the operations do to a sequence. */
  method PerformAll<T(==)>(list: LinkedList<T>, ops: seq<Operation<T>>)
    requires list.Valid()
    modifies list, list.head, list.tail, list.nodes
    ensures list.Valid() && list.Contents() == ApplyAll(old(list.Contents()), ops)
  {
    var i := 0;
    while i < |ops|
      invariant 0 <= i <= |ops| && list.Valid()
      invariant list.Contents() == ApplyAll(old(list.Contents()), ops[..i])
      invariant forall k :: 0 <= k < |list.nodes| ==> list.nodes[k] in old(list.nodes) || fresh(list.nodes[k])
    {
      Perform(list, ops[i]);
      i := i + 1;
      assert ops[..i][..i - 1] == ops[..i - 1];
    }
    assert ops[..|ops|] == ops;
  }
}
