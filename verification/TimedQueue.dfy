/** The queue with a timestamp (src/timed_queue.c).  The clock reading is a parameter. */
module TimedQueues {
  import opened LinkedLists

  class TimedQueue<T(==)> {
    const list: LinkedList<T>
    var lastInteraction: nat

    ghost predicate Valid()
      reads this, list, list.head, list.tail, list.nodes
    {
      list.Valid()
    }

    ghost function Contents(): seq<Option<T>>
      reads this, list, list.nodes
    {
      list.Contents()
    }

    constructor (now: nat)
      ensures Valid() && Contents() == [] && lastInteraction == now
    {
      list := new LinkedList<T>();
      lastInteraction := now;
    }

    method Length() returns (n: int)
      requires Valid()
      ensures n == |Contents()|
    {
      n := list.Length();
    }

    method IsEmpty() returns (empty: bool)
      requires Valid()
      ensures empty <==> Contents() == []
    {
      empty := list.IsEmpty();
    }

    method Enqueue(data: Option<T>, now: nat)
      requires Valid()
      modifies this, list, list.head, list.tail, list.nodes
      ensures Valid() && Contents() == old(Contents()) + [data] && lastInteraction == now
    {
      ghost var node := list.Append(data);
      lastInteraction := now;
    }

    method EnqueueFront(data: Option<T>, now: nat)
      requires Valid()
      modifies this, list, list.head, list.tail, list.nodes
      ensures Valid() && Contents() == [data] + old(Contents()) && lastInteraction == now
    {
      ghost var node := list.AppendLeft(data);
      lastInteraction := now;
    }

    method Dequeue(now: nat) returns (node: Node?<T>)
      requires Valid()
      modifies this, list, list.head, list.tail, list.nodes
      ensures Valid() && (node == null <==> old(Contents()) == [])
      ensures node != null ==> old(Contents()) == Contents() + [node.data] && lastInteraction == now
      ensures node == null ==> Contents() == [] && lastInteraction == old(lastInteraction)
    {
      node := list.Pop();
      if node != null {
        lastInteraction := now;
      }
    }

    method DequeueFront(now: nat) returns (node: Node?<T>)
      requires Valid()
      modifies this, list, list.head, list.tail, list.nodes
      ensures Valid() && (node == null <==> old(Contents()) == [])
      ensures node != null ==> old(Contents()) == [node.data] + Contents() && lastInteraction == now
      ensures node == null ==> Contents() == [] && lastInteraction == old(lastInteraction)
    {
      ghost var before := Contents();
      node := list.PopLeft();
      if node != null {
        Suffix(before, 0);
        lastInteraction := now;
      }
    }

    /** The timestamp moves even when an empty list ignores the removal. */
    method Remove(node: Node?<T>, ghost k: nat, now: nat)
      requires Valid()
      requires node != null && list.nodes != [] ==> k < |list.nodes| && list.nodes[k] == node
      modifies this, list, list.head, list.tail, list.nodes
      ensures Valid() && lastInteraction == if node == null then old(lastInteraction) else now
      ensures Contents() == if node == null || old(Contents()) == [] then old(Contents())
                            else old(Contents())[..k] + old(Contents())[k + 1..]
    {
      if node == null {
        return;
      }
      list.Remove(node, k);
      lastInteraction := now;
    }

    method Clear(now: nat)
      requires Valid()
      modifies this, list, list.head, list.tail, list.nodes
      ensures Valid() && Contents() == [] && lastInteraction == now
    {
      list.Clear();
      lastInteraction := now;
    }

    // Reading does not touch the timestamp: these methods modify nothing.

    method First() returns (node: Node?<T>)
      requires Valid()
      ensures if Contents() == [] then node == null else node != null && node.data == Contents()[0]
    {
      node := list.First();
    }

    method Last() returns (node: Node?<T>)
      requires Valid()
      ensures if Contents() == [] then node == null else node != null && node.data == Contents()[|Contents()| - 1]
    {
      node := list.Last();
    }
  }
}
