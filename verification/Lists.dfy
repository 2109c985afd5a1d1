/**
 All the queues of the kernel at once: the ready queue, the blocking queues and
 the holding lists, as linked lists over one set of nodes. A queue or node comes
 into being, initialised, when it is first used.
 */
module Lists {
  import opened Prelude
  import opened KernelState
  import opened LinkedQueue

  /** A `queue_t *` of the kernel. */
  datatype Name = ReadyQ | BlockQ(q: QueueId) | HoldQ(p: Slot)

  // --------------------------------------------------------- a picture of memory

  /** The words of one queue and of one node. */
  datatype View = View(head: Node?, tail: Node?, items: seq<Node>)

  datatype Links = Links(prev: Node?, next: Node?)

  /** All queues and nodes, and `at`, the list each listed item is in. */
  datatype World = World(view: map<Name, View>, links: map<Node, Links>, node: map<Item, Node>, at: map<Item, Name>)

  /** Queue.Valid, said of a picture. */
  ghost predicate Spelled(v: View, links: map<Node, Links>) {
    var s := v.items;
    && NoDup(s)
    && v.head == (if s == [] then null else s[0]) && v.tail == (if s == [] then null else s[|s| - 1])
    && (forall y :: y in s ==> y in links)
    && forall i {:trigger links[s[i]]} :: 0 <= i < |s| ==>
         links[s[i]] == Links(if i == 0 then null else s[i - 1], if i + 1 < |s| then s[i + 1] else null)
  }

  /** Every member of a list is the node of its owner, and `at` says which list that is. */
  ghost predicate Listed(w: World) {
    && (forall x {:trigger w.node[x]} :: x in w.node ==> w.node[x].owner == x && w.node[x] in w.links)
    && (forall n, y {:trigger y in w.view[n].items} :: n in w.view && y in w.view[n].items ==>
          y.owner in w.node && w.node[y.owner] == y && y.owner in w.at && w.at[y.owner] == n)
    && (forall x {:trigger w.at[x]} :: x in w.at ==>
          x in w.node && w.at[x] in w.view && w.node[x] in w.view[w.at[x]].items)
  }

  /** Well-formed lists, no two of which share a node; a node in no list has no neighbours. */
  ghost predicate Good(w: World) {
    && Listed(w)
    && (forall n {:trigger w.view[n]} :: n in w.view ==> Spelled(w.view[n], w.links))
    && (forall x {:trigger w.node[x]} :: x in w.node && x !in w.at ==>
          w.node[x] in w.links && w.links[w.node[x]] == Links(null, null))
  }

  function Owners(s: seq<Node>): (r: seq<Item>)
    ensures |r| == |s| && forall i :: 0 <= i < |s| ==> r[i] == s[i].owner
  {
    seq(|s|, i requires 0 <= i < |s| => s[i].owner)
  }

  /** The contents of a list, head first. */
  ghost function Contents(w: World, n: Name): seq<Item> {
    if n in w.view then Owners(w.view[n].items) else []
  }

  // ------------------------------------------------------------- pure operations

  /** The members of another list are not written. */
  lemma OthersStay(w: World, r: World, n: Name, m: Name)
    requires Listed(w) && m in w.view && m != n && Spelled(w.view[m], w.links)
    requires w.links.Keys <= r.links.Keys
    requires forall y {:trigger r.links[y]} :: y in w.links && y.owner in w.at && w.at[y.owner] == m ==> r.links[y] == w.links[y]
    ensures Spelled(w.view[m], r.links)
  {
    var s := w.view[m].items;
    forall i | 0 <= i < |s|
      ensures s[i] in r.links && r.links[s[i]] == w.links[s[i]]
    {
      assert s[i] in w.view[m].items;
    }
  }

  /** `r` is `w` after the list `n` was worked on: nodes of other lists were not written. */
  ghost predicate Wrote(w: World, r: World, n: Name) {
    && r.node == w.node && n in w.view && n in r.view && r.view == w.view[n := r.view[n]] && w.links.Keys <= r.links.Keys
    && (forall y {:trigger r.links[y]} :: y in w.links && y.owner in w.at && w.at[y.owner] != n ==> r.links[y] == w.links[y])
  }

  /** The lists are well formed again once the one worked on is, and `at` has followed it. */
  lemma Relisted(w: World, r: World, n: Name)
    requires Good(w) && Wrote(w, r, n) && Listed(r) && Spelled(r.view[n], r.links)
    requires forall x {:trigger r.node[x]} :: x in r.node && x !in r.at ==> r.links[r.node[x]] == Links(null, null)
    ensures Good(r) && forall m {:trigger Contents(r, m)} :: m != n ==> Contents(r, m) == Contents(w, m)
  {
    forall m | m in r.view
      ensures Spelled(r.view[m], r.links)
    {
      if m != n { OthersStay(w, r, n, m); }
    }
  }

  lemma NodeAdded(w: World, x: Item, y: Node)
    requires Good(w) && x !in w.node && y.owner == x
    ensures var r := w.(node := w.node[x := y], links := w.links[y := Links(null, null)]);
      Good(r) && forall m {:trigger Contents(r, m)} :: Contents(r, m) == Contents(w, m)
  {
    var r := w.(node := w.node[x := y], links := w.links[y := Links(null, null)]);
    assert Listed(r);
    forall n | n in r.view
      ensures Spelled(r.view[n], r.links)
    {
      var s := w.view[n].items;
      forall i | 0 <= i < |s|
        ensures s[i] in w.links && s[i] != y
      {
        assert s[i] in w.view[n].items;
      }
    }
  }

  // ------------------------------------------------------------------ in memory

  class Heap {
    var queue: map<Name, Queue>
    var node: map<Item, Node>
    ghost var w: World
    ghost var names: map<Queue, Name>   // `queue` read backwards
    ghost var Repr: set<object>

    ghost predicate Tables()
      reads this
    {
      && this in Repr && (forall q {:trigger q in names} :: q in names ==> q in Repr)
      && (forall n {:trigger queue[n]} :: n in queue ==>
            queue[n] in Repr && queue[n] in names && names[queue[n]] == n)
      && (forall x {:trigger node[x]} :: x in node ==> node[x] in Repr)
    }

    /** The picture `r` is what memory holds. */
    ghost predicate Shows(r: World)
      reads this, Repr
      requires Tables()
    {
      && r.node == node
      && (forall n {:trigger n in queue} {:trigger n in r.view} :: n in queue <==> n in r.view)
      && (forall n {:trigger r.view[n]} {:trigger queue[n]} :: n in queue ==>
            r.view[n] == View(queue[n].head, queue[n].tail, queue[n].items))
      && (forall x {:trigger node[x]} :: x in node ==>
            node[x] in r.links && r.links[node[x]] == Links(node[x].prev, node[x].next))
    }

    ghost predicate Valid()
      reads this, Repr
    {
      Tables() && Shows(w) && Good(w)
    }

    ghost function Get(n: Name): seq<Item>
      reads this
    {
      Contents(w, n)
    }

    /** The nodes of a list, in memory and in the picture. */
    lemma Members(n: Name, r: World)
      requires Tables() && Shows(r) && Listed(r) && n in queue
      ensures forall y: Node {:trigger y in queue[n].items} :: y in queue[n].items ==>
        y in Repr && y.owner in node && node[y.owner] == y && y.owner in r.at && r.at[y.owner] == n
        && y in r.links && r.links[y] == Links(y.prev, y.next)
    {
      forall y: Node | y in queue[n].items
        ensures y.owner in node && node[y.owner] == y && y.owner in r.at && r.at[y.owner] == n
      {
        assert y in r.view[n].items;
      }
    }

    /** The queues of well-formed lists are well formed. */
    lemma QueueValid(n: Name)
      requires Valid() && n in queue
      ensures queue[n].Valid() && forall y: Node {:trigger y in queue[n].items} :: y in queue[n].items ==>
        y in Repr && y.owner in node && node[y.owner] == y && y.owner in w.at && w.at[y.owner] == n
    {
      Members(n, w);
      assert Spelled(w.view[n], w.links);
      hide Good, Listed;
      SpelledValid(queue[n], w.view[n], w.links);
    }

    /** And a well-formed queue is spelled out in the picture. */
    lemma QueueSpelled(n: Name, r: World)
      requires Tables() && Shows(r) && Listed(r) && n in queue && queue[n].Valid()
      ensures Spelled(r.view[n], r.links)
    {
      Members(n, r);
      hide Listed;
      ValidSpelled(queue[n], r.view[n], r.links);
    }

    constructor ()
      ensures Valid() && fresh(Repr) && w == World(map[], map[], map[], map[])
    {
      queue, node := map[], map[];
      w := World(map[], map[], map[], map[]);
      names := map[];
      Repr := {this};
    }

    /** queue_init of a queue not used before. */
    method NeedQueue(n: Name)
      requires Valid()
      modifies this
      ensures Valid() && fresh(Repr - old(Repr)) && n in queue && w.at == old(w.at) && node == old(node)
      ensures forall m :: m in old(queue) ==> m in queue
      ensures forall m {:trigger Get(m)} {:trigger Contents(w, m)} :: Get(m) == old(Get(m))
    {
      if n !in queue {
        assert n !in w.view && Get(n) == [];
        hide Good, Contents;
        Init(n, true);
      }
    }

    /** queue_init: the queue starts afresh. With `ok`, of an empty one among well-formed lists. */
    method Init(n: Name, ghost ok: bool)
      requires Tables() && (ok ==> Valid() && Get(n) == [])
      modifies this
      ensures Tables() && fresh(Repr - old(Repr)) && node == old(node) && n in queue
      ensures forall m {:trigger queue[m]} {:trigger m in queue} :: m in old(queue) && m != n ==> m in queue && queue[m] == old(queue[m])
      ensures ok ==> Valid() && w.at == old(w.at) && forall m {:trigger Get(m)} {:trigger Contents(w, m)} :: Get(m) == old(Get(m))
    {
      if ok {
        QueueCleared(w, n);
      }
      hide Good, Contents;
      var q := new Queue();
      ghost var r := w.(view := w.view[n := View(null, null, [])]);
      Install(n, q, ok, r);
      if ok {
        hide Tables, Shows;
        Keep(r);
      }
    }

    method Install(n: Name, q: Queue, ghost ok: bool, ghost r: World)
      requires Tables() && q !in Repr && q.head == null && q.tail == null && q.items == []
      requires ok ==> Shows(w) && r == w.(view := w.view[n := View(null, null, [])])
      modifies `queue, `names, `Repr
      ensures Tables() && queue == old(queue)[n := q] && Repr == old(Repr) + {q} && (ok ==> Shows(r))
    {
      queue := queue[n := q];
      names := names[q := n];
      Repr := Repr + {q};
    }

    method NeedNode(x: Item)
      requires Valid()
      modifies this
      ensures Valid() && fresh(Repr - old(Repr)) && x in node && w.at == old(w.at) && queue == old(queue)
      ensures forall m {:trigger Get(m)} {:trigger Contents(w, m)} :: Get(m) == old(Get(m))
    {
      hide Good, Contents, Shows, Tables;
      if x !in node {
        var y := new Node(x);
        assert y !in Repr && Valid();
        AddNode(x, y);
      }
    }

    method AddNode(x: Item, y: Node)
      requires Valid() && x !in node && y !in Repr && y.owner == x && y.prev == null && y.next == null
      modifies this
      ensures Valid() && Repr == old(Repr) + {y} && x in node && w.at == old(w.at) && queue == old(queue)
      ensures forall m {:trigger Get(m)} {:trigger Contents(w, m)} :: Get(m) == old(Get(m))
    {
      hide Good, Contents;
      NodeAdded(w, x, y);
      node := node[x := y];
      Repr := Repr + {y};
      ghost var r := w.(node := w.node[x := y], links := w.links[y := Links(null, null)]);
      assert Tables();
      assert Shows(r);
      hide Tables, Shows;
      Keep(r);
    }

    /** The picture is right except for the queue `n` and up to four nodes. */
    ghost predicate ShowsBut(n: Name, a: Node?, b: Node?, c: Node?, d: Node?)
      reads this, Repr
      requires Tables()
    {
      && w.node == node
      && (forall m {:trigger m in queue} {:trigger m in w.view} :: m in queue <==> m in w.view)
      && (forall m {:trigger w.view[m]} {:trigger queue[m]} :: m in queue && m != n ==>
            w.view[m] == View(queue[m].head, queue[m].tail, queue[m].items))
      && (forall x {:trigger node[x]} :: x in node ==>
            node[x] in w.links
            && (node[x] == a || node[x] == b || node[x] == c || node[x] == d || w.links[node[x]] == Links(node[x].prev, node[x].next)))
    }

    /** The picture with the queue and the nodes drawn again. */
    ghost function Redraw(n: Name, a: Node?, b: Node?, c: Node?, d: Node?, at: map<Item, Name>): World
      reads this, Repr, a, b, c, d
      requires Tables() && n in queue
    {
      World(w.view[n := View(queue[n].head, queue[n].tail, queue[n].items)],
            Relinked(Relinked(Relinked(Relinked(w.links, a), b), c), d), w.node, at)
    }

    lemma RedrawShows(n: Name, a: Node?, b: Node?, c: Node?, d: Node?, at: map<Item, Name>)
      requires Tables() && n in queue && ShowsBut(n, a, b, c, d)
      ensures Shows(Redraw(n, a, b, c, d, at))
      ensures Redrawn(w, Redraw(n, a, b, c, d, at), n, View(queue[n].head, queue[n].tail, queue[n].items), a, b, c, d)
    {
    }

    ghost method Keep(r: World)
      requires Tables() && Shows(r) && Good(r)
      modifies this`w
      ensures w == r && Valid()
    {
      hide Good;
      w := r;
    }

    /**
     queue_push on tables that have the queue and the node. With `ok`, of an item
     in no list, onto well-formed lists; without, just what the stores do.
     */
    method PushAt(n: Name, x: Item, ghost ok: bool)
      requires Tables() && n in queue && x in node && (ok ==> Valid() && x !in w.at)
      requires (queue[n].head != null ==> queue[n].tail != null) && (queue[n].tail != null ==> queue[n].tail in Repr)
      modifies Repr
      ensures ok ==> Valid() && unchanged(`Repr) && w.at == old(w.at)[x := n] && Get(n) == old(Get(n)) + [x]
      ensures ok ==> forall m {:trigger Get(m)} {:trigger Contents(w, m)} :: m != n ==> Get(m) == old(Get(m))
      ensures !ok ==> unchanged(this) && RawPushed(queue[n], node[x], old(queue[n].head), old(queue[n].tail))
      ensures !ok && old(queue[n].Valid()) && node[x] in old(queue[n].items) ==> queue[n].Twice(old(queue[n].items), node[x])
    {
      hide Good, Listed, Spelled, Contents, Pushed, Queue.Spells, Redrawn, Queue.Twice;
      var q, y := queue[n], node[x];
      ghost var t := q.tail;
      if ok {
        QueueValid(n);
        NodeOwner(w, x);
        Ends(q);
        assert q.items != [] ==> t in q.items;
        assert y !in q.items;
      }
      RawPush(n, q, y, t, ok);
      if ok {
        ghost var r := Redraw(n, y, t, null, null, w.at[x := n]);
        RedrawShows(n, y, t, null, null, w.at[x := n]);
        RedrawnPushed(w, r, n, r.view[n], x);
        ListedPush(w, r, n, x);
        QueueSpelled(n, r);
        PushGood(w, r, n, x);
        hide Tables, Shows;
        Keep(r);
      }
    }

    method RawPush(n: Name, q: Queue, y: Node, ghost t: Node?, ghost ok: bool)
      requires Tables() && n in queue && q == queue[n] && t == q.tail && (q.head != null ==> t != null)
      requires ok ==> Shows(w) && q.Valid() && y !in q.items && (q.head == null <==> t == null)
      modifies q, y, t
      ensures unchanged(this) && Tables() && RawPushed(q, y, old(q.head), t)
      ensures ok ==> ShowsBut(n, y, t, null, null) && q.Valid() && q.items == old(q.items) + [y]
      ensures old(q.Valid()) && y in old(q.items) ==> q.Twice(old(q.items), y)
    {
      hide Queue.Valid, Queue.Spells, Queue.Twice;
      q.Push(y);
    }

    lemma ContentsAre(n: Name)
      requires Tables() && Shows(w) && n in queue
      ensures |Get(n)| == |queue[n].items| && forall i {:trigger Get(n)[i]} :: 0 <= i < |Get(n)| ==> Get(n)[i] == queue[n].items[i].owner
    {
    }

    /** queue_dequeue from a list that is not empty. */
    method PopAt(n: Name) returns (x: Item)
      requires Valid() && n in queue && Get(n) != []
      modifies Repr
      ensures Valid() && unchanged(`Repr) && x == old(Get(n))[0] && w.at == old(w.at) - {x}
      ensures Get(n) == old(Get(n))[1..]
      ensures forall m {:trigger Get(m)} {:trigger Contents(w, m)} :: m != n ==> Get(m) == old(Get(m))
    {
      hide Good, Listed, Spelled, Contents, Dropped, Queue.Spells, Redrawn;
      QueueValid(n);
      ContentsAre(n);
      var q := queue[n];
      ghost var s := q.items;
      ghost var b := if |s| > 1 then s[1] else null;
      assert s[0] in s && (|s| > 1 ==> s[1] in s);
      x := RawPop(n, q, s[0], b);
      ghost var r := Redraw(n, s[0], b, null, null, w.at - {x});
      RedrawShows(n, s[0], b, null, null, w.at - {x});
      RedrawnDropped(w, r, n, r.view[n], 0, s[0], b, null);
      ListedDrop(w, r, n, 0);
      QueueSpelled(n, r);
      DropGood(w, r, n, 0);
      ghost var c := Get(n);
      hide Tables, Shows, Queue.Valid;
      Keep(r);
      FirstDropped(c);
    }

    method RawPop(n: Name, q: Queue, ghost y0: Node, ghost b: Node?) returns (x: Item)
      requires Tables() && Shows(w) && n in queue && q == queue[n] && q.Valid() && q.items != [] && y0 == q.items[0]
      requires b == if |q.items| > 1 then q.items[1] else null
      modifies q, y0, b
      ensures unchanged(this) && Tables() && ShowsBut(n, y0, b, null, null) && w.view[n].items == old(q.items)
      ensures q.Valid() && q.items == old(q.items)[..0] + old(q.items)[1..] && x == y0.owner && y0.prev == null && y0.next == null
    {
      assert q.head == y0 && y0.next == b;
      assert q.items[..0] + q.items[1..] == q.items[1..];
      hide Queue.Valid, Queue.Spells;
      var y := q.Dequeue();
      x := y.owner;
    }

    lemma Neighbours(q: Queue, k: nat)
      requires q.Valid() && k < |q.items|
      ensures NoDup(q.items) && Before(q.items, k) == q.items[k].prev && Behind(q.items, k) == q.items[k].next
    {
    }

    /** queue_remove, as intended, of a member. */
    method DropAt(n: Name, x: Item, ghost k: nat)
      requires Valid() && n in queue && k < |Get(n)| && Get(n)[k] == x
      modifies Repr
      ensures Valid() && unchanged(`Repr) && w.at == old(w.at) - {x}
      ensures Get(n) == Less(old(Get(n)), k)
      ensures forall m {:trigger Get(m)} {:trigger Contents(w, m)} :: m != n ==> Get(m) == old(Get(m))
    {
      hide Good, Listed, Spelled, Contents, Dropped, Queue.Spells, Redrawn;
      QueueValid(n);
      ContentsAre(n);
      var q := queue[n];
      ghost var s := q.items;
      ghost var a, b := Before(s, k), Behind(s, k);
      assert s[k] in s && (k > 0 ==> s[k - 1] in s) && (k + 1 < |s| ==> s[k + 1] in s);
      Neighbours(q, k);
      RawUnlink(n, q, node[x], s, k, a, b, false);
      Settle(n, x, s, k, a, b);
    }

    /** The picture follows a list that has lost member k. */
    ghost method Settle(n: Name, x: Item, s: seq<Node>, k: nat, a: Node?, b: Node?)
      requires Tables() && Good(w) && n in queue && x in node && ShowsBut(n, node[x], a, b, null) && queue[n].Valid()
      requires n in w.view && w.view[n].items == s && k < |s| && s[k] == node[x] && s[k].owner == x
      requires queue[n].items == s[..k] + s[k + 1..] && (a != null ==> a in s) && (b != null ==> b in s)
      requires node[x].prev == null && node[x].next == null
      modifies this`w
      ensures Valid() && k < |old(Get(n))| && Get(n) == Less(old(Get(n)), k) && w.at == old(w.at) - {x}
      ensures forall m {:trigger Get(m)} {:trigger Contents(w, m)} :: m != n ==> Get(m) == old(Get(m))
    {
      hide Good, Listed, Spelled, Dropped, Queue.Spells, Redrawn;
      assert |Get(n)| == |s| && Get(n)[k] == x;
      hide Contents;
      var r := Redraw(n, node[x], a, b, null, w.at - {x});
      RedrawShows(n, node[x], a, b, null, w.at - {x});
      RedrawnDropped(w, r, n, r.view[n], k, node[x], a, b);
      ListedDrop(w, r, n, k);
      QueueSpelled(n, r);
      DropGood(w, r, n, k);
      hide Tables, Shows;
      Keep(r);
    }

    /** Member k of the ready queue is its head or its tail. */
    ghost predicate AtEnd(x: Item, k: nat)
      reads this
    {
      x in w.at && w.at[x] == ReadyQ && !(0 < k < |Get(ReadyQ)| - 1)
    }

    /**
     queue_remove, as intended, of an item that may be in the queue named, in no
     list, or in the ready queue. It leaves the list it is in, unless it is an
     end of the ready queue.
     */
    method Detach(n: Name, x: Item, ghost k: nat)
      requires Valid() && n in queue && ReadyQ in queue && n != ReadyQ && x in node
      requires x in w.at ==> (w.at[x] == n || w.at[x] == ReadyQ) && k < |Get(w.at[x])| && Get(w.at[x])[k] == x
      modifies Repr
      ensures unchanged(`Repr, `queue, `node, `names) && Tables()
      ensures !old(AtEnd(x, k)) ==> Valid() && x !in w.at
      ensures !old(AtEnd(x, k)) ==>
        forall m {:trigger Get(m)} {:trigger Contents(w, m)} :: Get(m) == (if x in old(w.at) && m == old(w.at)[x] then Less(old(Get(m)), k) else old(Get(m)))
      ensures old(AtEnd(x, k)) ==> queue[ReadyQ].head == old(queue[ReadyQ].head) && queue[ReadyQ].tail == old(queue[ReadyQ].tail)
    {
      hide Good, Listed, Spelled, Dropped, Queue.Spells, Redrawn;
      var q, y := queue[n], node[x];
      ghost var end, home := AtEnd(x, k), if x in w.at then w.at[x] else n;
      ghost var s := if x in w.at then queue[home].items else [y];
      ghost var j := if x in w.at then k else 0;
      QueueValid(n);
      QueueValid(ReadyQ);
      NodeOwner(w, x);
      if x !in w.at {
        IdleNode(w, x);
      } else {
        ListedThere(w, x);
        ContentsAre(home);
        Neighbours(queue[home], k);
        assert s[k] in s && (k > 0 ==> s[k - 1] in s) && (k + 1 < |s| ==> s[k + 1] in s);
      }
      ghost var a, b := Before(s, j), Behind(s, j);
      ghost var rq := queue[ReadyQ];
      ghost var inside := x in w.at && home != n && !end;
      CallUnlink(n, q, rq, y, s, j, a, b, x !in w.at || home != n, inside);
      hide Queue.Valid;
      if x !in w.at {
        NothingMoved(y);
      } else if home == n {
        Settle(n, x, s, k, a, b);
      } else if inside {
        SettleInside(rq, x, s, k, a, b);
      }
    }

    /** ... and, for an inner member of the ready queue, what they make of that queue. */
    method CallUnlink(n: Name, q: Queue, ghost rq: Queue, y: Node, ghost s: seq<Node>, ghost k: nat, ghost a: Node?, ghost b: Node?,
                      ghost stray: bool, ghost inside: bool)
      requires Tables() && Shows(w) && n in queue && q == queue[n] && q.Valid() && rq != q
      requires k < |s| && NoDup(s) && s[k] == y && a == Before(s, k) == y.prev && b == Behind(s, k) == y.next
      requires if stray then n != ReadyQ && y !in q.items && (a != null ==> a !in q.items) && (b != null ==> b !in q.items) else s == q.items
      requires inside ==> stray && 0 < k < |s| - 1 && rq.Spells(s)
      modifies q, y, a, b
      ensures unchanged(this) && Tables() && ShowsBut(if stray then ReadyQ else n, y, a, b, null) && unchanged(rq)
      ensures y.prev == null && y.next == null
      ensures !stray ==> q.Valid() && q.items == s[..k] + s[k + 1..] && w.view[n].items == s
      ensures inside ==> rq.Spells(s[..k] + s[k + 1..])
    {
      if inside {
        SpelledLinks(rq, s);
      }
      hide Queue.Valid, Queue.Spells;
      RawUnlink(n, q, y, s, k, a, b, stray);
      if inside {
        hide Tables, Shows, ShowsBut;
        InnerRemoved(rq, s, s[..k] + s[k + 1..], k, s[k + 1]);
      }
    }

    /**
     The two calls of kill on a victim with a channel: queue_remove from the
     queue `n` named, which may no longer hold it, and queue_push onto the ready
     queue. The ready queue is ruined exactly when the victim was its head or tail.
     */
    method Transfer(n: Name, x: Item) returns (ghost k: nat)
      requires Valid() && n != ReadyQ && (x in w.at ==> w.at[x] == n || w.at[x] == ReadyQ)
      modifies Repr
      ensures fresh(Repr - old(Repr))
      ensures x in old(w.at) ==> k < |old(Get(w.at[x]))| && old(Get(w.at[x]))[k] == x
      ensures !old(AtEnd(x, k)) ==> Valid()
      ensures !old(AtEnd(x, k)) ==>
        forall m {:trigger Get(m)} {:trigger Contents(w, m)} :: Get(m) == (if x in old(w.at) && m == old(w.at)[x] then Less(old(Get(m)), k) else old(Get(m)))
                                               + (if m == ReadyQ then [x] else [])
      ensures old(AtEnd(x, k)) ==> ReadyQ in queue && forall s: seq<Node> :: !queue[ReadyQ].Spells(s)
    {
      k := 0;
      if x in w.at {
        IndexOf(w, x);
        k :| 0 <= k < |Get(w.at[x])| && Get(w.at[x])[k] == x;
      }
      hide Good, Contents, Tables, Shows;
      Prepare(n, x);
      label Ready:
      assert AtEnd(x, k) == old(AtEnd(x, k));
      TransferAt(n, x, k);
    }

    method Prepare(n: Name, x: Item)
      requires Valid()
      modifies this
      ensures Valid() && fresh(Repr - old(Repr)) && n in queue && ReadyQ in queue && x in node && w.at == old(w.at)
      ensures forall m {:trigger Get(m)} {:trigger Contents(w, m)} :: Get(m) == old(Get(m))
    {
      hide Good, Contents, Tables, Shows;
      NeedQueue(n);
      NeedQueue(ReadyQ);
      NeedNode(x);
    }

    method TransferAt(n: Name, x: Item, ghost k: nat)
      requires Valid() && n in queue && ReadyQ in queue && n != ReadyQ && x in node
      requires x in w.at ==> (w.at[x] == n || w.at[x] == ReadyQ) && k < |Get(w.at[x])| && Get(w.at[x])[k] == x
      modifies Repr
      ensures unchanged(`Repr)
      ensures !old(AtEnd(x, k)) ==> Valid()
      ensures !old(AtEnd(x, k)) ==>
        forall m {:trigger Get(m)} {:trigger Contents(w, m)} :: Get(m) == (if x in old(w.at) && m == old(w.at)[x] then Less(old(Get(m)), k) else old(Get(m)))
                                               + (if m == ReadyQ then [x] else [])
      ensures old(AtEnd(x, k)) ==> ReadyQ in queue && forall s: seq<Node> :: !queue[ReadyQ].Spells(s)
    {
      hide Good, Contents, Queue.Spells;
      ghost var end, s := AtEnd(x, k), queue[ReadyQ].items;
      QueueValid(ReadyQ);
      Ends(queue[ReadyQ]);
      ContentsAre(ReadyQ);
      if end {
        AtIndex(x, k);
        Neighbours(queue[ReadyQ], k);
        assert s[|s| - 1] in s;
      }
      Detach(n, x, k);
      if !end {
        QueueValid(ReadyQ);
        Ends(queue[ReadyQ]);
        assert queue[ReadyQ].tail != null ==> queue[ReadyQ].tail in queue[ReadyQ].items;
      }
      hide Shows, Queue.Valid;
      PushAt(ReadyQ, x, !end);
      if end {
        hide Tables;
        Cut(queue[ReadyQ], s, node[x], k);
      }
    }

    lemma AtIndex(x: Item, k: nat)
      requires Valid() && ReadyQ in queue && k < |Get(ReadyQ)| && Get(ReadyQ)[k] == x && x in node
      ensures k < |queue[ReadyQ].items| && queue[ReadyQ].items[k] == node[x]
    {
      hide Good;
      ContentsAre(ReadyQ);
      QueueValid(ReadyQ);
      assert queue[ReadyQ].items[k] in queue[ReadyQ].items;
    }

    /**
     The queue work of assign_task: the slot is pushed onto the ready queue, its
     holding and waiting lists are initialised. A slot still in the ready queue
     ruins that.
     */
    method Assign(p: Slot)
      requires Valid() && (Process(p) in w.at ==> w.at[Process(p)] == ReadyQ)
      requires Process(p) !in w.at ==> Get(HoldQ(p)) == [] && Get(BlockQ(Waiting(p))) == []
      modifies Repr
      ensures fresh(Repr - old(Repr))
      ensures Process(p) !in old(w.at) ==> Valid() && Get(ReadyQ) == old(Get(ReadyQ)) + [Process(p)]
      ensures Process(p) !in old(w.at) ==> forall m {:trigger Get(m)} {:trigger Contents(w, m)} :: m != ReadyQ ==> Get(m) == old(Get(m))
      ensures Process(p) in old(w.at) ==> ReadyQ in queue && forall s: seq<Node> :: !queue[ReadyQ].Spells(s)
    {
      hide Good, Contents, Shows, Queue.Spells;
      ghost var ok := Process(p) !in w.at;
      ghost var was := Push(ReadyQ, Process(p));
      if ok { assert Tables(); }
      Init(HoldQ(p), ok);
      Init(BlockQ(Waiting(p)), ok);
      if !ok {
        queue[ReadyQ].PushedTwice(was, node[Process(p)]);
      }
    }

    lemma SpelledLinks(q: Queue, s: seq<Node>)
      requires q.Spells(s) && s != []
      ensures q.head == s[0] && q.tail == s[|s| - 1] && (forall i {:trigger s[i]} :: 0 <= i < |s| ==> s[i] in s)
      ensures forall i {:trigger s[i].next} :: 0 <= i < |s| ==> s[i].next == if i + 1 < |s| then s[i + 1] else null
      ensures forall i {:trigger s[i].prev} :: 0 <= i < |s| ==> s[i].prev == if i == 0 then null else s[i - 1]
    {
    }

    /** The stores did nothing to a node in no list. */
    lemma NothingMoved(y: Node)
      requires Tables() && Good(w) && ReadyQ in queue && ShowsBut(ReadyQ, y, null, null, null)
      requires ReadyQ in w.view && w.view[ReadyQ] == View(queue[ReadyQ].head, queue[ReadyQ].tail, queue[ReadyQ].items)
      requires y.prev == null && y.next == null && y in w.links && w.links[y] == Links(null, null)
      ensures Valid()
    {
    }

    ghost method SettleInside(rq: Queue, x: Item, s: seq<Node>, k: nat, a: Node?, b: Node?)
      requires Tables() && Good(w) && ReadyQ in queue && rq == queue[ReadyQ] && x in node && ShowsBut(ReadyQ, node[x], a, b, null)
      requires k < |s| && rq.Spells(s[..k] + s[k + 1..]) && ReadyQ in w.view && w.view[ReadyQ].items == s
      requires s[k] == node[x] && s[k].owner == x && (a != null ==> a in s) && (b != null ==> b in s)
      requires node[x].prev == null && node[x].next == null
      modifies this`w, rq`items
      ensures Valid() && k < |old(Get(ReadyQ))| && Get(ReadyQ) == Less(old(Get(ReadyQ)), k) && w.at == old(w.at) - {x}
      ensures forall m {:trigger Get(m)} {:trigger Contents(w, m)} :: m != ReadyQ ==> Get(m) == old(Get(m))
    {
      hide Good, Contents;
      rq.items := s[..k] + s[k + 1..];
      assert rq.Valid();
      hide Queue.Valid, Queue.Spells;
      Settle(ReadyQ, x, s, k, a, b);
    }

    /** The nodes before and behind member k of a list. */
    ghost function Before(s: seq<Node>, k: nat): Node? {
      if 0 < k < |s| then s[k - 1] else null
    }

    ghost function Behind(s: seq<Node>, k: nat): Node? {
      if k + 1 < |s| then s[k + 1] else null
    }

    /** The stores of queue_remove: of member k of the list `s`, which is the queue's own unless `stray`. */
    method RawUnlink(n: Name, q: Queue, y: Node, ghost s: seq<Node>, ghost k: nat, ghost a: Node?, ghost b: Node?, ghost stray: bool)
      requires Tables() && Shows(w) && n in queue && q == queue[n] && q.Valid()
      requires k < |s| && NoDup(s) && s[k] == y && a == Before(s, k) == y.prev && b == Behind(s, k) == y.next
      requires if stray then n != ReadyQ && y !in q.items && (a != null ==> a !in q.items) && (b != null ==> b !in q.items) else s == q.items
      modifies q, y, a, b
      ensures unchanged(this) && Tables() && ShowsBut(if stray then ReadyQ else n, y, a, b, null)
      ensures y.prev == null && y.next == null
      ensures !stray ==> q.Valid() && q.items == s[..k] + s[k + 1..] && w.view[n].items == s
      ensures stray && a != null ==> a.next == b && a.prev == old(if a == null then null else a.prev)
      ensures stray && b != null ==> b.prev == a && b.next == old(if b == null then null else b.next)
      ensures forall z: Node :: z in s && z != y && z != a && z != b ==> z.prev == old(z.prev) && z.next == old(z.next)
    {
      assert a != y && b != y && (a != null ==> a != b);
      assert !stray ==> y in q.items;
      hide Queue.Valid, Queue.Spells;
      var next := q.Unlink(y, k);
    }

    /** queue_push: with the item already in the list, no list is left. */
    method Push(n: Name, x: Item) returns (ghost was: seq<Node>)
      requires Valid() && (x in w.at ==> w.at[x] == n)
      modifies Repr
      ensures fresh(Repr - old(Repr))
      ensures x !in old(w.at) ==> Valid() && w.at == old(w.at)[x := n] && Get(n) == old(Get(n)) + [x]
      ensures x !in old(w.at) ==> forall m {:trigger Get(m)} {:trigger Contents(w, m)} :: m != n ==> Get(m) == old(Get(m))
      ensures x in old(w.at) ==> Tables() && n in queue && x in node && queue[n].Twice(was, node[x]) && forall y :: y in was ==> y in Repr
    {
      hide Good, Contents, Shows, Queue.Valid, Queue.Spells;
      NeedQueue(n);
      NeedNode(x);
      QueueValid(n);
      Ends(queue[n]);
      assert queue[n].tail != null ==> queue[n].tail in queue[n].items;
      ghost var ok := x !in w.at;
      if !ok { InQueue(x); }
      was := queue[n].items;
      hide Tables, Queue.Twice;
      PushAt(n, x, ok);
    }

    lemma InQueue(x: Item)
      requires Valid() && x in w.at
      ensures w.at[x] in queue && x in node && node[x] in queue[w.at[x]].items
    {
      hide Good;
      ListedThere(w, x);
    }

    /** queue_has */
    method Has(n: Name, x: Item) returns (r: bool)
      requires Valid()
      modifies this
      ensures Valid() && fresh(Repr - old(Repr)) && w.at == old(w.at)
      ensures forall m {:trigger Get(m)} {:trigger Contents(w, m)} :: Get(m) == old(Get(m))
      ensures r <==> x in Get(n)
    {
      hide Good, Contents, Tables;
      NeedQueue(n);
      NeedNode(x);
      QueueValid(n);
      ContentsAre(n);
      NodeOwner(w, x);
      hide Shows, Queue.Valid;
      r := queue[n].Has(node[x]);
      HasOwner(queue[n].items, Get(n), node[x]);
    }

    /** queue_is_empty */
    method IsEmpty(n: Name) returns (r: bool)
      requires Valid()
      modifies this
      ensures Valid() && fresh(Repr - old(Repr)) && w.at == old(w.at)
      ensures forall m {:trigger Get(m)} {:trigger Contents(w, m)} :: Get(m) == old(Get(m))
      ensures r <==> Get(n) == []
    {
      hide Good, Contents, Tables;
      NeedQueue(n);
      QueueValid(n);
      ContentsAre(n);
      r := queue[n].IsEmpty();
    }

    /** queue_dequeue; None from an empty queue. */
    method Dequeue(n: Name) returns (x: Option<Item>)
      requires Valid()
      modifies Repr
      ensures Valid() && fresh(Repr - old(Repr))
      ensures forall m {:trigger Get(m)} {:trigger Contents(w, m)} :: m != n ==> Get(m) == old(Get(m))
      ensures if old(Get(n)) == [] then x == None && Get(n) == [] && w.at == old(w.at)
        else x == Some(old(Get(n))[0]) && Get(n) == old(Get(n))[1..] && w.at == old(w.at) - {x.value}
    {
      hide Good, Contents;
      NeedQueue(n);
      QueueValid(n);
      ContentsAre(n);
      var empty := queue[n].IsEmpty();
      if empty {
        return None;
      }
      hide Shows, Tables, Queue.Valid;
      var y := PopAt(n);
      x := Some(y);
    }

    /** queue_remove of a member. */
    method Remove(n: Name, x: Item) returns (ghost k: nat)
      requires Valid() && x in Get(n)
      modifies Repr
      ensures Valid() && fresh(Repr - old(Repr)) && w.at == old(w.at) - {x}
      ensures k < |old(Get(n))| && old(Get(n))[k] == x && Get(n) == Less(old(Get(n)), k)
      ensures forall m {:trigger Get(m)} {:trigger Contents(w, m)} :: m != n ==> Get(m) == old(Get(m))
    {
      hide Good;
      k :| 0 <= k < |Get(n)| && Get(n)[k] == x;
      DropAt(n, x, k);
    }

  }

  lemma Ends(q: Queue)
    requires q.Valid()
    ensures (q.head == null <==> q.items == []) && (q.tail == null <==> q.items == [])
    ensures q.items != [] ==> q.head == q.items[0] && q.tail == q.items[|q.items| - 1]
  {
  }

  lemma SpelledValid(q: Queue, v: View, links: map<Node, Links>)
    requires Spelled(v, links) && v == View(q.head, q.tail, q.items)
    requires forall y :: y in q.items ==> y in links && links[y] == Links(y.prev, y.next)
    ensures q.Valid()
  {
    var s: seq<Node> := q.items;
    forall i | 0 <= i < |s|
      ensures s[i].next == (if i + 1 < |s| then s[i + 1] else null) && s[i].prev == (if i == 0 then null else s[i - 1])
    {
      assert s[i] in s && links[s[i]] == Links(s[i].prev, s[i].next);
    }
  }

  lemma ValidSpelled(q: Queue, v: View, links: map<Node, Links>)
    requires q.Valid() && v == View(q.head, q.tail, q.items)
    requires forall y :: y in q.items ==> y in links && links[y] == Links(y.prev, y.next)
    ensures Spelled(v, links)
  {
    var s: seq<Node> := q.items;
    forall i | 0 <= i < |s|
      ensures links[s[i]] == Links(if i == 0 then null else s[i - 1], if i + 1 < |s| then s[i + 1] else null)
    {
      assert s[i] in s && links[s[i]] == Links(s[i].prev, s[i].next);
    }
  }

  lemma NodeOwner(w: World, x: Item)
    requires Good(w) && x in w.node
    ensures w.node[x].owner == x
  {
  }

  /** `r` is `w` with the node of `x` at the end of list `n`; only it and the old tail were written. */
  ghost predicate Pushed(w: World, r: World, n: Name, x: Item) {
    && n in w.view && n in r.view && x in w.node && x !in w.at && r.node == w.node
    && r.view == w.view[n := r.view[n]] && r.view[n].items == w.view[n].items + [w.node[x]] && r.at == w.at[x := n]
    && w.links.Keys <= r.links.Keys
    && (forall y {:trigger r.links[y]} :: y in w.links && y != w.node[x] && y != w.view[n].tail ==> r.links[y] == w.links[y])
  }

  lemma ListedPush(w: World, r: World, n: Name, x: Item)
    requires Good(w) && Pushed(w, r, n, x)
    ensures Listed(r)
  {
    forall m, y | m in r.view && y in r.view[m].items
      ensures y.owner in r.node && r.node[y.owner] == y && y.owner in r.at && r.at[y.owner] == m
    {
      if m != n || y != w.node[x] {
        assert y in w.view[m].items;
      }
    }
    assert w.node[x] in r.view[n].items by { assert r.view[n].items[|w.view[n].items|] == w.node[x]; }
  }

  /** The tail of a list is listed there. */
  lemma TailListed(w: World, n: Name)
    requires Good(w) && n in w.view && w.view[n].tail != null
    ensures w.view[n].tail.owner in w.at && w.at[w.view[n].tail.owner] == n
  {
    assert w.view[n].tail in w.view[n].items;
  }

  lemma PushWrote(w: World, r: World, n: Name, x: Item)
    requires Good(w) && Pushed(w, r, n, x)
    ensures Wrote(w, r, n)
    ensures forall z {:trigger r.node[z]} :: z in r.node && z !in r.at ==>
      r.node[z] in r.links && r.links[r.node[z]] == Links(null, null)
  {
    var y, t := w.node[x], w.view[n].tail;
    if t != null { TailListed(w, n); }
    assert y.owner == x;
    hide Spelled;
    forall z | z in r.node && z !in r.at
      ensures r.node[z] in r.links && r.links[r.node[z]] == Links(null, null)
    {
      assert w.node[z].owner == z && w.node[z] != y && w.node[z] != t;
      assert r.links[w.node[z]] == w.links[w.node[z]];
    }
  }

  lemma PushGood(w: World, r: World, n: Name, x: Item)
    requires Good(w) && Pushed(w, r, n, x) && Listed(r) && Spelled(r.view[n], r.links)
    ensures Good(r) && Contents(r, n) == Contents(w, n) + [x] && r.at == w.at[x := n]
    ensures forall m {:trigger Contents(r, m)} :: m != n ==> Contents(r, m) == Contents(w, m)
  {
    NodeOwner(w, x);
    PushWrote(w, r, n, x);
    hide Good, Listed, Spelled, Wrote;
    Relisted(w, r, n);
    assert Contents(r, n) == Contents(w, n) + [x];
  }

  ghost function Relinked(links: map<Node, Links>, a: Node?): map<Node, Links>
    reads a
  {
    if a == null then links else links[a := Links(a.prev, a.next)]
  }

  /** `r` is `w` with list `n` and at most four nodes drawn again. */
  ghost predicate Redrawn(w: World, r: World, n: Name, v: View, a: Node?, b: Node?, c: Node?, d: Node?) {
    && r.node == w.node && r.view == w.view[n := v] && w.links.Keys <= r.links.Keys
    && forall y {:trigger r.links[y]} :: y in w.links && y != a && y != b && y != c && y != d ==> r.links[y] == w.links[y]
  }

  lemma RedrawnPushed(w: World, r: World, n: Name, v: View, x: Item)
    requires n in w.view && x in w.node && x !in w.at && Redrawn(w, r, n, v, w.node[x], w.view[n].tail, null, null)
    requires r.at == w.at[x := n] && v.items == w.view[n].items + [w.node[x]]
    ensures Pushed(w, r, n, x)
  {
  }

  /** `r` is `w` without member k of list `n`, whose links were cleared; only members were written. */
  ghost predicate Dropped(w: World, r: World, n: Name, k: nat) {
    && n in w.view && n in r.view && k < |w.view[n].items| && r.node == w.node && r.view == w.view[n := r.view[n]]
    && var s := w.view[n].items;
       && r.view[n].items == s[..k] + s[k + 1..] && r.at == w.at - {s[k].owner}
       && w.links.Keys <= r.links.Keys && s[k] in r.links && r.links[s[k]] == Links(null, null)
       && (forall y {:trigger r.links[y]} :: y in w.links && y !in s ==> r.links[y] == w.links[y])
  }

  lemma RedrawnDropped(w: World, r: World, n: Name, v: View, k: nat, y: Node, a: Node?, b: Node?)
    requires n in w.view && k < |w.view[n].items| && Redrawn(w, r, n, v, y, a, b, null)
    requires y == w.view[n].items[k] && (a != null ==> a in w.view[n].items) && (b != null ==> b in w.view[n].items)
    requires r.at == w.at - {y.owner} && v.items == w.view[n].items[..k] + w.view[n].items[k + 1..]
    requires y in r.links && r.links[y] == Links(null, null)
    ensures Dropped(w, r, n, k)
  {
  }

  lemma DroppedIn(s: seq<Node>, t: seq<Node>, k: nat)
    requires NoDup(s) && k < |s| && t == s[..k] + s[k + 1..]
    ensures forall y {:trigger y in t} {:trigger y in s} :: y in t <==> y in s && y != s[k]
  {
    assert s == s[..k] + [s[k]] + s[k + 1..];
    forall i | 0 <= i < |t|
      ensures t[i] in s && t[i] != s[k]
    {
      assert t[i] == s[if i < k then i else i + 1];
    }
  }

  lemma ListedDrop(w: World, r: World, n: Name, k: nat)
    requires Good(w) && Dropped(w, r, n, k)
    ensures Listed(r)
  {
    hide Good, NoDup, Listed;
    GoodList(w, n);
    DroppedIn(w.view[n].items, r.view[n].items, k);
    DropMembers(w, r, n, k);
    DropAt(w, r, n, k);
    DropNodes(w, r, n, k);
    hide Dropped;
    ListedParts(r);
  }

  lemma DropNodes(w: World, r: World, n: Name, k: nat)
    requires Listed(w) && Dropped(w, r, n, k)
    ensures forall x {:trigger r.node[x]} :: x in r.node ==> r.node[x].owner == x && r.node[x] in r.links
  {
  }

  lemma ListedParts(r: World)
    requires forall x {:trigger r.node[x]} :: x in r.node ==> r.node[x].owner == x && r.node[x] in r.links
    requires forall m, y {:trigger y in r.view[m].items} :: m in r.view && y in r.view[m].items ==>
      y.owner in r.node && r.node[y.owner] == y && y.owner in r.at && r.at[y.owner] == m
    requires forall x {:trigger r.at[x]} :: x in r.at ==> x in r.node && r.at[x] in r.view && r.node[x] in r.view[r.at[x]].items
    ensures Listed(r)
  {
  }

  lemma GoodList(w: World, n: Name)
    requires Good(w) && n in w.view
    ensures Listed(w) && NoDup(w.view[n].items)
  {
  }

  lemma DropMembers(w: World, r: World, n: Name, k: nat)
    requires Listed(w) && Dropped(w, r, n, k)
    requires forall y {:trigger y in r.view[n].items} :: y in r.view[n].items ==> y in w.view[n].items && y != w.view[n].items[k]
    ensures forall m, y {:trigger y in r.view[m].items} :: m in r.view && y in r.view[m].items ==>
      y.owner in r.node && r.node[y.owner] == y && y.owner in r.at && r.at[y.owner] == m
  {
    var z := w.view[n].items[k];
    assert z in w.view[n].items;
    forall m, y | m in r.view && y in r.view[m].items
      ensures y.owner in r.node && r.node[y.owner] == y && y.owner in r.at && r.at[y.owner] == m
    {
      assert y in w.view[m].items;
      assert y.owner != z.owner;
    }
  }

  lemma DropAt(w: World, r: World, n: Name, k: nat)
    requires Listed(w) && Dropped(w, r, n, k)
    requires forall y {:trigger y in w.view[n].items} :: y in w.view[n].items && y != w.view[n].items[k] ==> y in r.view[n].items
    ensures forall x {:trigger r.at[x]} :: x in r.at ==> x in r.node && r.at[x] in r.view && r.node[x] in r.view[r.at[x]].items
  {
    forall x | x in r.at
      ensures x in r.node && r.at[x] in r.view && r.node[x] in r.view[r.at[x]].items
    {
      assert w.at[x] == r.at[x] && w.node[x].owner == x && x != w.view[n].items[k].owner;
    }
  }

  lemma DropGood(w: World, r: World, n: Name, k: nat)
    requires Good(w) && Dropped(w, r, n, k) && Listed(r) && Spelled(r.view[n], r.links)
    ensures Good(r) && Contents(r, n) == Contents(w, n)[..k] + Contents(w, n)[k + 1..]
    ensures r.at == w.at - {Contents(w, n)[k]}
    ensures forall m {:trigger Contents(r, m)} :: m != n ==> Contents(r, m) == Contents(w, m)
  {
    hide Good, Listed, Spelled, Wrote;
    DropWrote(w, r, n, k);
    Relisted(w, r, n);
    OwnersDrop(w.view[n].items, r.view[n].items, k);
  }

  lemma OwnersDrop(s: seq<Node>, t: seq<Node>, k: nat)
    requires k < |s| && t == s[..k] + s[k + 1..]
    ensures Owners(t) == Owners(s)[..k] + Owners(s)[k + 1..]
  {
  }

  lemma DropWrote(w: World, r: World, n: Name, k: nat)
    requires Good(w) && Dropped(w, r, n, k)
    ensures Wrote(w, r, n)
    ensures forall z {:trigger r.node[z]} :: z in r.node && z !in r.at ==>
      r.node[z] in r.links && r.links[r.node[z]] == Links(null, null)
  {
    var s := w.view[n].items;
    assert s[k] in w.view[n].items;
    assert forall y {:trigger y in s} :: y in s ==> y in w.view[n].items && w.at[y.owner] == n;
    hide Spelled;
    forall z | z in r.node && z !in r.at
      ensures r.node[z] in r.links && r.links[r.node[z]] == Links(null, null)
    {
      assert w.node[z].owner == z;
      if z in w.at {
        assert z == s[k].owner;
      } else {
        assert w.node[z] !in s;
      }
    }
  }

  lemma FirstDropped(s: seq<Item>)
    requires s != []
    ensures s[..0] + s[1..] == s[1..]
  {
  }

  /** What the stores of queue_push leave. */
  ghost predicate RawPushed(q: Queue, y: Node, head: Node?, tail: Node?)
    reads q, y, tail
  {
    && q.tail == y && y.next == null
    && (head == null ==> q.head == y && y.prev == null)
    && (head != null ==> q.head == head && y.prev == tail)
  }

  lemma ListedThere(w: World, x: Item)
    requires Good(w) && x in w.at
    ensures w.at[x] in w.view && x in w.node && w.node[x] in w.view[w.at[x]].items
  {
  }

  lemma HasOwner(s: seq<Node>, t: seq<Item>, y: Node)
    requires |s| == |t| && forall i :: 0 <= i < |s| ==> t[i] == s[i].owner
    requires forall z :: z in s && z.owner == y.owner ==> z == y
    ensures y in s <==> y.owner in t
  {
    if y in s {
      var i :| 0 <= i < |s| && s[i] == y;
      assert t[i] == y.owner;
    }
    if y.owner in t {
      var i :| 0 <= i < |t| && t[i] == y.owner;
      assert s[i] in s;
    }
  }

  lemma IdleNode(w: World, x: Item)
    requires Good(w) && x in w.node && x !in w.at
    ensures w.node[x] in w.links && w.links[w.node[x]] == Links(null, null)
  {
  }

  lemma QueueCleared(w: World, n: Name)
    requires Good(w) && Contents(w, n) == []
    ensures var r := w.(view := w.view[n := View(null, null, [])]);
      Good(r) && forall m {:trigger Contents(r, m)} :: Contents(r, m) == Contents(w, m)
  {
    var r := w.(view := w.view[n := View(null, null, [])]);
    assert n in w.view ==> w.view[n].items == [];
    assert Listed(r);
    forall m | m in r.view
      ensures Spelled(r.view[m], r.links)
    {
      assert m != n ==> Spelled(w.view[m], w.links);
    }
  }

  /** A list without its member k. */
  function Less(c: seq<Item>, k: nat): seq<Item> {
    if k < |c| then c[..k] + c[k + 1..] else c
  }

  lemma IndexOf(w: World, x: Item)
    requires Good(w) && x in w.at
    ensures exists k :: 0 <= k < |Contents(w, w.at[x])| && Contents(w, w.at[x])[k] == x
  {
    ListedThere(w, x);
    NodeOwner(w, x);
    var s := w.view[w.at[x]].items;
    var k :| 0 <= k < |s| && s[k] == w.node[x];
    assert Contents(w, w.at[x])[k] == x;
  }
}
