/**
 kernel/sched/queue.c: intrusive doubly linked queues. A Node is the prev and
 next words of whatever carries them, a process or a mutex.
 */
module LinkedQueue {
  import opened Prelude
  import opened KernelState

  /** The structure a node is embedded in. */
  datatype Item = Process(slot: Slot) | Mutex(lock: LockId)

  class Node {
    var prev: Node?
    var next: Node?
    const owner: Item

    constructor (owner: Item)
      ensures this.owner == owner && prev == null && next == null
    {
      this.owner := owner;
      prev, next := null, null;
    }
  }

  class Queue {
    var head: Node?
    var tail: Node?
    ghost var items: seq<Node>   // the contents, head first

    /** head, tail and the next links spell out `s`. */
    ghost predicate Forward(s: seq<Node>)
      reads this, s
    {
      && NoDup(s)
      && (s == [] <==> head == null) && (head == null ==> tail == null)
      && (s != [] ==> head == s[0] && tail == s[|s| - 1])
      && (forall i {:trigger s[i].next} :: 0 <= i < |s| ==>
            s[i].next == if i + 1 < |s| then s[i + 1] else null)
    }

    /** The prev links mirror the next links. */
    ghost predicate Backward(s: seq<Node>)
      reads this, s
    {
      forall i {:trigger s[i].prev} :: 0 <= i < |s| ==>
        s[i].prev == if i == 0 then null else s[i - 1]
    }

    ghost predicate Spells(s: seq<Node>)
      reads this, s
    {
      Forward(s) && Backward(s)
    }

    ghost predicate Valid()
      reads this, items
    {
      Spells(items)
    }

    /** queue_init */
    constructor ()
      ensures Valid() && items == []
    {
      head, tail, items := null, null, [];
    }

    /** queue_is_empty */
    method IsEmpty() returns (r: bool)
      requires Valid()
      ensures r <==> items == []
    {
      r := head == null;
    }

    /**
     queue_push. An item from elsewhere goes to the tail of a well-formed list;
     to push an item that is in the list already leaves no list at all.
     */
    method Push(item: Node)
      requires head != null ==> tail != null
      modifies this, item, if head == null then null else tail
      ensures old(head) == null ==> head == item && item.prev == null
      ensures old(head) != null ==> head == old(head) && item.prev == old(tail)
      ensures old(head) != null && old(tail) != item ==> old(tail).next == item && old(tail).prev == old(tail.prev)
      ensures tail == item && item.next == null
      ensures old(Valid()) && item !in old(items) ==> Valid() && items == old(items) + [item]
      ensures old(Valid()) && item in old(items) ==> Twice(old(items), item) && forall s: seq<Node> :: !Spells(s)
    {
      ghost var was, ok := items, Valid();
      if head == null {
        head, tail := item, item;
        item.next, item.prev := null, null;
      } else {
        tail.next := item;
        item.next, item.prev := null, tail;
        tail := item;
      }
      if ok && item in was {
        PushedTwice(was, item);
      } else if ok {
        items := was + [item];
      }
    }

    /** After a second push the chain ends at the item, whose prev link leads to the old tail. */
    ghost predicate Twice(was: seq<Node>, item: Node)
      reads this, was
    {
      && NoDup(was) && item in was && head == was[0] && tail == item
      && item.next == null && item.prev == was[|was| - 1]
      && forall i {:trigger was[i].next} :: 0 <= i < |was| - 1 && was[i] != item ==> was[i].next == was[i + 1]
    }

    lemma PushedTwice(was: seq<Node>, item: Node)
      requires Twice(was, item)
      ensures forall s: seq<Node> :: !Spells(s)
    {
      var k :| 0 <= k < |was| && was[k] == item;
      forall s: seq<Node> | Spells(s)
        ensures false
      {
        FollowsChain(s, was, k);
      }
    }

    /** A spelling runs along any chain of next links from the head. */
    lemma {:induction false} FollowsChain(s: seq<Node>, chain: seq<Node>, k: nat)
      requires Spells(s) && k < |chain| && head == chain[0]
      requires forall i :: 0 <= i < k ==> chain[i].next == chain[i + 1]
      ensures k < |s| && s[..k + 1] == chain[..k + 1]
      ensures s[k] == chain[k]
    {
      if k > 0 {
        FollowsChain(s, chain, k - 1);
        assert s[k - 1].next == chain[k - 1].next == chain[k];
        assert s[..k + 1] == s[..k] + [s[k]] && chain[..k + 1] == chain[..k] + [chain[k]];
      }
    }

    /** queue_dequeue: the head comes off unlinked; NULL from an empty queue. */
    method Dequeue() returns (r: Node?)
      requires Valid()
      modifies this, head, if head == null then null else head.next
      ensures Valid()
      ensures old(items) == [] ==> r == null && items == []
      ensures old(items) != [] ==> r == old(items)[0] && items == old(items)[1..]
      ensures r != null ==> r.prev == null && r.next == null
    {
      r := head;
      if r == null {
        return;
      }
      if r.next == null {
        head, tail := null, null;
      } else {
        head := head.next;
        head.prev := null;
      }
      r.prev := null;
      r.next := null;
      NoDupTail(items);
      items := items[1..];
    }

    /** The item is between two others. */
    ghost predicate Inner(k: nat)
      reads this
    {
      0 < k < |items| - 1
    }

    /**
     queue_remove as written. Line 87 stores through `pcb->next`, the next link
     of slot 0 of the process table, where the item's own next link was meant; a
     NULL there reaches no node. A removal at either end never gets to it. The
     next links always come out right. The prev links do exactly when an end of
     the queue was removed, or slot 0 is the predecessor, or its next link leads
     to the successor anyway.
     */
    method Remove(item: Node, pcb0: Node, ghost k: nat) returns (next: Node?)
      requires Valid() && k < |items| && items[k] == item
      modifies this, items, pcb0.next
      ensures next == old(item.next) && item.prev == null && item.next == null
      ensures items == old(items)[..k] + old(items)[k + 1..]
      ensures Forward(items)
      ensures Valid() <==> (old(Inner(k)) ==> pcb0 == old(item.prev) || old(pcb0.next) == old(item.next))
    {
      next := item.next;
      if item == head || item == tail {
        RemoveEnd(item, k);
      } else {
        RemoveInner(item, pcb0, k);
      }
    }

    /** The first three branches of queue_remove. */
    method RemoveEnd(item: Node, ghost k: nat)
      requires Valid() && k < |items| && items[k] == item && !Inner(k)
      modifies this, item, item.prev, item.next
      ensures Valid() && item.prev == null && item.next == null
      ensures items == old(items)[..k] + old(items)[k + 1..]
    {
      if item == head && item == tail {
        head, tail := null, null;
      } else if item == head {
        head := item.next;
        head.prev := null;
      } else {
        tail := item.prev;
        tail.next := null;
      }
      item.prev := null;
      item.next := null;
      items := items[..k] + items[k + 1..];
    }

    /** The last branch, with the store through slot 0. */
    method RemoveInner(item: Node, pcb0: Node, ghost k: nat)
      requires Valid() && k < |items| && items[k] == item && Inner(k)
      modifies items, pcb0.next, `items
      ensures Forward(items) && item.prev == null && item.next == null
      ensures items == old(items)[..k] + old(items)[k + 1..]
      ensures Valid() <==> pcb0 == old(item.prev) || old(pcb0.next) == old(item.next)
    {
      ghost var s := items;
      item.prev.next := item.next;
      ghost var z := pcb0.next;
      if pcb0.next != null {
        pcb0.next.prev := item.prev;
      }
      item.prev := null;
      item.next := null;
      items := s[..k] + s[k + 1..];
      InnerRemoved(this, s, items, k, z);
    }

    /**
     queue_remove with line 87 as intended: the store goes through `_item->next`.
     An item of another list falls into the last branch and is unlinked from
     that list by its own links.
     */
    method Unlink(item: Node, ghost k: nat) returns (next: Node?)
      requires Valid() && (item in items ==> k < |items| && items[k] == item)
      modifies this, item, item.prev, item.next
      ensures next == old(item.next) && item.prev == null && item.next == null
      ensures item in old(items) ==> Valid() && items == old(items)[..k] + old(items)[k + 1..]
      ensures item !in old(items) ==> head == old(head) && tail == old(tail) && items == old(items)
      ensures item !in old(items) && old(item.prev) != null && old(item.prev) != item ==>
        old(item.prev).next == old(item.next)
        && (old(item.prev) != old(item.next) ==> old(item.prev).prev == old(item.prev.prev))
      ensures item !in old(items) && old(item.next) != null && old(item.next) != item ==>
        old(item.next).prev == old(item.prev)
        && (old(item.prev) != old(item.next) ==> old(item.next).next == old(item.next.next))
    {
      next := item.next;
      if item == head || item == tail {
        RemoveEnd(item, k);
      } else {
        if item.prev != null {
          item.prev.next := item.next;
        }
        if item.next != null {
          item.next.prev := item.prev;
        }
        item.prev := null;
        item.next := null;
        if item in items {
          items := items[..k] + items[k + 1..];
        }
      }
    }

    /** queue_has: walk from the head; the tail is compared after the loop. */
    method Has(item: Node) returns (r: bool)
      requires Valid()
      ensures r <==> item in items
    {
      var it := head;
      ghost var i := 0;
      while it != tail
        invariant items == [] ==> it == null && tail == null
        invariant items != [] ==> 0 <= i < |items| && it == items[i]
        invariant items != [] ==> item !in items[..i]
        decreases |items| - i
      {
        if it == null {
          return false;
        } else if it == item {
          return true;
        }
        assert items[..i + 1] == items[..i] + [items[i]];
        it := it.next;
        i := i + 1;
      }
      r := it == item;
      if items != [] {
        assert items == items[..i] + [items[i]];
      }
    }
  }

  /** Three processes queued, slot 0 in a queue of its own: taking out the middle one breaks the links. */
  method RemoveCanBreak() returns (q: Queue)
    ensures fresh(q) && |q.items| == 2 && q.Forward(q.items) && !q.Valid()
  {
    var a := new Node(Process(1));
    var b := new Node(Process(2));
    var c := new Node(Process(3));
    var pcb0 := new Node(Process(0));
    var other := new Node(Process(4));
    pcb0.next := other;
    q := Three(a, b, c);
    var next := q.Remove(b, pcb0, 1);
  }

  /** So does the usual case: slot 0 is the shell, running, with both its links NULL. */
  method RemoveByShellBreaks() returns (q: Queue)
    ensures fresh(q) && |q.items| == 2 && q.Forward(q.items) && !q.Valid()
  {
    var a := new Node(Process(1));
    var b := new Node(Process(2));
    var c := new Node(Process(3));
    var shell := new Node(Process(0));
    q := Three(a, b, c);
    var next := q.Remove(b, shell, 1);
  }

  method Three(a: Node, b: Node, c: Node) returns (q: Queue)
    requires a != b && a != c && b != c
    modifies a, b, c
    ensures fresh(q) && q.Valid() && q.items == [a, b, c]
  {
    q := new Queue();
    q.Push(a);
    q.Push(b);
    q.Push(c);
  }

  /** No word of the queue or of its nodes differs from before. */
  twostate predicate Same(q: Queue)
    reads q, q.items
  {
    && q.head == old(q.head) && q.tail == old(q.tail) && q.items == old(q.items)
    && forall n :: n in q.items ==> n.prev == old(n.prev) && n.next == old(n.next)
  }

  /** A queue none of whose words was written is still well-formed. */
  twostate lemma StaysValid(q: Queue)
    requires old(q.Valid()) && Same(q)
    ensures q.Valid()
  {
    assert forall i :: 0 <= i < |q.items| ==> q.items[i] in q.items;
  }

  /**
   The two calls of kill on a victim that is in the ready queue while its channel
   names another one: unlinked by its own links, then pushed. The ready queue
   stays a list exactly when the victim was neither its head nor its tail, and
   is left with no spelling at all otherwise.
   */
  method Requeue(chan: Queue, ready: Queue, item: Node, ghost k: nat)
    requires chan != ready && chan.Valid() && ready.Valid() && k < |ready.items| && ready.items[k] == item
    requires forall n :: n in chan.items ==> n !in ready.items
    modifies chan, ready, item, item.prev, item.next, ready.tail
    ensures chan.Valid() && chan.items == old(chan.items)
    ensures old(ready.Inner(k)) ==>
      ready.Valid() && ready.items == old(ready.items)[..k] + old(ready.items)[k + 1..] + [item]
    ensures !old(ready.Inner(k)) ==> forall s: seq<Node> :: !ready.Spells(s)
    ensures chan.head == old(chan.head) && chan.tail == old(chan.tail)
  {
    ghost var s := ready.items;
    assert item in s && (k > 0 ==> s[k - 1] in s) && (k + 1 < |s| ==> s[k + 1] in s);
    Detach(chan, item, s, k);
    if 0 < k < |s| - 1 {
      ghost var t := s[..k] + s[k + 1..];
      InnerRemoved(ready, s, t, k, s[k + 1]);
      ready.items := t;
    }
    hide Queue.Spells;
    ready.Push(item);
    StaysValid(chan);
    if k == 0 || k == |s| - 1 {
      Cut(ready, s, item, k);
    }
  }

  /** queue_remove of an item of the list `s` from another queue. */
  method Detach(chan: Queue, item: Node, ghost s: seq<Node>, ghost k: nat)
    requires chan.Valid() && NoDup(s) && k < |s| && s[k] == item && forall n :: n in chan.items ==> n !in s
    requires item.prev == (if k == 0 then null else s[k - 1]) && item.next == if k + 1 < |s| then s[k + 1] else null
    modifies chan, item, item.prev, item.next
    ensures Same(chan)
    ensures item.prev == null && item.next == null
    ensures k > 0 ==> s[k - 1].next == old(item.next) && s[k - 1].prev == old(s[k - 1].prev)
    ensures k + 1 < |s| ==> s[k + 1].prev == old(item.prev) && s[k + 1].next == old(s[k + 1].next)
  {
    assert item in s && (k > 0 ==> s[k - 1] in s) && (k + 1 < |s| ==> s[k + 1] in s);
    var next := chan.Unlink(item, 0);
  }

  /**
   An inner item bypassed by the next links, with `z` the node whose prev link
   was stored: the next links spell the rest, the prev links mirror them exactly
   when `z` is the successor.
   */
  lemma InnerRemoved(q: Queue, s: seq<Node>, t: seq<Node>, k: nat, z: Node?)
    requires NoDup(s) && 0 < k < |s| - 1 && t == s[..k] + s[k + 1..] && q.head == s[0] && q.tail == s[|s| - 1]
    requires forall i {:trigger s[i].next} :: 0 <= i < |s| && i != k ==>
      s[i].next == if i == k - 1 then s[k + 1] else if i + 1 < |s| then s[i + 1] else null
    requires forall i {:trigger s[i].prev} :: 0 <= i < |s| && i != k ==>
      s[i].prev == if s[i] == z then s[k - 1] else if i == 0 then null else s[i - 1]
    ensures q.Forward(t) && (q.Spells(t) <==> z == s[k + 1])
  {
    Shifted(s, t, k);
    if q.Backward(t) {
      assert t[k].prev == t[k - 1];
    }
  }

  lemma Shifted(s: seq<Node>, t: seq<Node>, k: nat)
    requires NoDup(s) && k < |s| && t == s[..k] + s[k + 1..]
    ensures |t| == |s| - 1 && NoDup(t) && forall i {:trigger t[i]} :: 0 <= i < |t| ==> t[i] == s[if i < k then i else i + 1]
  {
  }

  /** With the head or the tail requeued no list is left. */
  lemma Cut(q: Queue, s: seq<Node>, item: Node, k: nat)
    requires NoDup(s) && k < |s| && s[k] == item && (k == 0 || k == |s| - 1) && q.head == s[0] && q.tail == item
    requires item.next == null && item.prev == s[|s| - 1]
    ensures forall t: seq<Node> :: !q.Spells(t)
  {
  }
}
