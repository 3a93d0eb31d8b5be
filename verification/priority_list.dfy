/** Priority list of futex waiters: a sorted ring of all nodes and, threaded through the same
    nodes, a ring of the first node of each priority that lets insertion skip equals. */
module PriorityList {

  class Node {
    const prio: int
    var nodeNext: Node
    var nodePrev: Node
    var prioNext: Node
    var prioPrev: Node

    constructor (prio: int)
      ensures this.prio == prio && nodeNext == nodePrev == this && prioNext == prioPrev == this
    {
      this.prio := prio;
      nodeNext, nodePrev, prioNext, prioPrev := this, this, this, this;
    }
  }

  // ---------------------------------------------------------------- order, on sequences

  ghost predicate Sorted(s: seq<Node>) {
    forall i, j :: 0 <= i < j < |s| ==> s[i].prio <= s[j].prio
  }

  ghost predicate Distinct(s: seq<Node>) {
    forall i, j :: 0 <= i < j < |s| ==> s[i] != s[j]
  }

  /** First position whose priority is above `p`: behind all equals. */
  ghost function Position(s: seq<Node>, p: int): (k: nat)
    ensures k <= |s|
    ensures k < |s| ==> s[k].prio > p
    ensures forall i :: 0 <= i < k ==> s[i].prio <= p
  {
    if s == [] || s[0].prio > p then 0 else 1 + Position(s[1..], p)
  }

  ghost function Insert(s: seq<Node>, k: nat, n: Node): seq<Node>
    requires k <= |s|
  {
    s[..k] + [n] + s[k..]
  }

  /** Stable sorted insertion: where the node belongs among nodes of its own priority is last. */
  ghost function InsertSorted(s: seq<Node>, n: Node): seq<Node> {
    Insert(s, Position(s, n.prio), n)
  }

  lemma SortedAround(a: seq<Node>, n: Node, b: seq<Node>)
    requires Sorted(a) && Sorted(b)
    requires forall i :: 0 <= i < |a| ==> a[i].prio <= n.prio
    requires forall i :: 0 <= i < |b| ==> n.prio <= b[i].prio
    ensures Sorted(a + [n] + b)
  {
  }

  lemma SortedParts(s: seq<Node>, k: nat)
    requires Sorted(s) && k <= |s|
    ensures Sorted(s[..k]) && Sorted(s[k..])
    ensures forall i :: 0 <= i < |s[k..]| ==> s[k..][0].prio <= s[k..][i].prio
  {
  }

  lemma InsertKeepsSorted(s: seq<Node>, n: Node)
    requires Sorted(s)
    ensures Sorted(InsertSorted(s, n))
    ensures multiset(InsertSorted(s, n)) == multiset(s) + multiset{n}
  {
    hide Position, Sorted;
    var k := Position(s, n.prio);
    SortedParts(s, k);
    SortedAround(s[..k], n, s[k..]);
    assert s == s[..k] + s[k..];
  }

  /** The first node of each priority, in order. */
  ghost function Tops(s: seq<Node>): (r: seq<Node>)
    ensures forall t :: t in r ==> t in s
  {
    if s == [] then []
    else
      var front, last := s[..|s| - 1], s[|s| - 1];
      if front == [] || front[|front| - 1].prio != last.prio then Tops(front) + [last] else Tops(front)
  }

  lemma {:induction false} TopsConcat(a: seq<Node>, b: seq<Node>)
    requires a != [] && b != [] ==> a[|a| - 1].prio != b[0].prio
    ensures Tops(a + b) == Tops(a) + Tops(b)
  {
    if b == [] {
      assert a + b == a;
    } else {
      var front := b[..|b| - 1];
      TopsConcat(a, front);
      assert (a + b)[..|a + b| - 1] == a + front;
    }
  }

  /** The skip index starts at the head, and its last entry has the last priority. */
  lemma {:induction false} TopsEnds(s: seq<Node>)
    requires s != []
    ensures Tops(s) != [] && Tops(s)[0] == s[0]
    ensures Tops(s)[|Tops(s)| - 1].prio == s[|s| - 1].prio
  {
    if |s| > 1 {
      TopsEnds(s[..|s| - 1]);
    }
  }

  lemma TopsBelow(s: seq<Node>, p: int)
    requires forall i :: 0 <= i < |s| ==> s[i].prio <= p
    ensures forall i :: 0 <= i < |Tops(s)| ==> Tops(s)[i].prio <= p
  {
  }

  ghost predicate Increasing(s: seq<Node>) {
    forall i, j :: 0 <= i < j < |s| ==> s[i].prio < s[j].prio
  }

  lemma {:induction false} TopsIncrease(s: seq<Node>)
    requires Sorted(s)
    ensures Increasing(Tops(s))
  {
    if s != [] {
      var front, last := s[..|s| - 1], s[|s| - 1];
      TopsIncrease(front);
      if front != [] && front[|front| - 1].prio != last.prio {
        TopsBelow(front, front[|front| - 1].prio);
      }
    }
  }

  /** No node before position `k` has its priority. */
  ghost predicate FirstOfPrio(s: seq<Node>, k: nat)
    requires k < |s|
  {
    forall i :: 0 <= i < k ==> s[i].prio != s[k].prio
  }

  lemma {:induction false} FirstsAreTops(s: seq<Node>, k: nat)
    requires k < |s| && FirstOfPrio(s, k)
    ensures s[k] in Tops(s)
  {
    var front := s[..|s| - 1];
    if k < |front| {
      FirstsAreTops(front, k);
    }
  }

  lemma {:induction false} TopsAreFirsts(s: seq<Node>, t: Node) returns (k: nat)
    requires Sorted(s) && t in Tops(s)
    ensures k < |s| && s[k] == t && FirstOfPrio(s, k)
  {
    var front := s[..|s| - 1];
    if t in Tops(front) {
      k := TopsAreFirsts(front, t);
    } else {
      k := |s| - 1;
    }
  }

  /** The skip index is what its name says: on a sorted list without repetitions it holds exactly
      the first node of each priority, by increasing priority. */
  lemma SkipIndex(s: seq<Node>)
    requires Sorted(s) && Distinct(s)
    ensures forall k :: 0 <= k < |s| ==> (s[k] in Tops(s) <==> FirstOfPrio(s, k))
    ensures Increasing(Tops(s))
  {
    forall k | 0 <= k < |s|
      ensures s[k] in Tops(s) <==> FirstOfPrio(s, k)
    {
      if FirstOfPrio(s, k) {
        FirstsAreTops(s, k);
      } else if s[k] in Tops(s) {
        var _ := TopsAreFirsts(s, s[k]);
      }
    }
    TopsIncrease(s);
  }

  /** Splitting between two priorities splits the skip index: what precedes the split belongs to
      the left part, and the next entry, if any, is the first node of the right part. */
  lemma TopsSplit(a: seq<Node>, b: seq<Node>, p: int)
    requires forall i :: 0 <= i < |a| ==> a[i].prio <= p
    requires b != [] ==> b[0].prio > p
    ensures Tops(a + b) == Tops(a) + Tops(b)
    ensures Tops(a) == [] <==> a == []
    ensures Tops(b) == [] <==> b == []
    ensures a != [] ==> Tops(a)[|Tops(a)| - 1].prio == a[|a| - 1].prio
    ensures b != [] ==> Tops(b)[0] == b[0]
    ensures forall i :: 0 <= i < |Tops(a)| ==> Tops(a)[i].prio <= p
  {
    TopsConcat(a, b);
    if a != [] {
      TopsEnds(a);
    }
    if b != [] {
      TopsEnds(b);
    }
    TopsBelow(a, p);
  }

  /** A new node joins the skip index unless it has the priority of the entry before. */
  lemma TopsAround(a: seq<Node>, n: Node, b: seq<Node>)
    requires forall i :: 0 <= i < |a| ==> a[i].prio <= n.prio
    requires b != [] ==> b[0].prio > n.prio
    ensures Tops(a + [n] + b) ==
              (if a != [] && a[|a| - 1].prio == n.prio then Tops(a) else Tops(a) + [n]) + Tops(b)
  {
    TopsOfAppend(a, n);
    var c := a + [n];
    assert c[|c| - 1] == n;
    TopsConcat(c, b);
  }

  lemma InsertBetween(a: seq<Node>, b: seq<Node>, n: Node)
    ensures Insert(a + b, |a|, n) == a + [n] + b
  {
  }

  lemma TopsOfInsert(s: seq<Node>, n: Node)
    requires Sorted(s)
    ensures var j := |Tops(s[..Position(s, n.prio)])|;
            && j <= |Tops(s)|
            && Tops(InsertSorted(s, n)) ==
                 if j > 0 && Tops(s)[j - 1].prio == n.prio then Tops(s) else Insert(Tops(s), j, n)
  {
    hide Tops, Position, Insert, Sorted;
    var k := Position(s, n.prio);
    var a, b := s[..k], s[k..];
    var j := |Tops(a)|;
    assert s == a + b;
    TopsSplit(a, b, n.prio);
    TopsAround(a, n, b);
    InsertBetween(a, b, n);
    InsertBetween(Tops(a), Tops(b), n);
    assert j > 0 ==> Tops(s)[j - 1] == Tops(a)[j - 1];
  }

  lemma TopsOfAppend(a: seq<Node>, n: Node)
    ensures Tops(a + [n]) == if a != [] && a[|a| - 1].prio == n.prio then Tops(a) else Tops(a) + [n]
  {
    assert (a + [n])[..|a + [n]| - 1] == a;
  }

  // ---------------------------------------------------------------- rings

  function Next(i: nat, n: nat): nat
    requires i < n
  {
    if i + 1 == n then 0 else i + 1
  }

  ghost predicate NodeRing(c: seq<Node>)
    reads (set m | m in c)`nodeNext, (set m | m in c)`nodePrev
  {
    forall i {:trigger c[i].nodeNext} :: 0 <= i < |c| ==>
      c[i].nodeNext == c[Next(i, |c|)] && c[Next(i, |c|)].nodePrev == c[i]
  }

  ghost predicate PrioRing(c: seq<Node>)
    reads (set m | m in c)`prioNext, (set m | m in c)`prioPrev
  {
    forall i {:trigger c[i].prioNext} :: 0 <= i < |c| ==>
      c[i].prioNext == c[Next(i, |c|)] && c[Next(i, |c|)].prioPrev == c[i]
  }

  /** `list_add_tail` on the node list: link `n` in front of `at`. */
  method NodeAddTail(n: Node, at: Node, ghost c: seq<Node>, ghost k: nat)
    requires NodeRing(c) && Distinct(c) && c != [] && n !in c
    requires k <= |c| && at == c[if k == |c| then 0 else k]
    modifies n`nodeNext, n`nodePrev, (set m | m in c)`nodeNext, (set m | m in c)`nodePrev
    ensures NodeRing(Insert(c, k, n))
  {
    var next, prev := at, at.nodePrev;
    ghost var p := if k == 0 then |c| - 1 else k - 1;
    assert prev == c[p] by {
      assert c[p].nodeNext == c[Next(p, |c|)];
    }
    next.nodePrev := n;
    n.nodeNext := next;
    n.nodePrev := prev;
    prev.nodeNext := n;
    ghost var d := Insert(c, k, n);
    assert forall i {:trigger c[i].nodeNext} :: 0 <= i < |c| && i != p ==> c[i].nodeNext == old(c[i].nodeNext);
    forall i | 0 <= i < |d|
      ensures d[i].nodeNext == d[Next(i, |d|)] && d[Next(i, |d|)].nodePrev == d[i]
    {
      RingStep(c, k, i);
    }
  }

  /** `list_add_tail` on the skip index: link `n` in front of `at`. */
  method PrioAddTail(n: Node, at: Node, ghost c: seq<Node>, ghost k: nat)
    requires PrioRing(c) && Distinct(c) && c != [] && n !in c
    requires k <= |c| && at == c[if k == |c| then 0 else k]
    modifies n`prioNext, n`prioPrev, (set m | m in c)`prioNext, (set m | m in c)`prioPrev
    ensures PrioRing(Insert(c, k, n))
  {
    var next, prev := at, at.prioPrev;
    ghost var p := if k == 0 then |c| - 1 else k - 1;
    assert prev == c[p] by {
      assert c[p].prioNext == c[Next(p, |c|)];
    }
    next.prioPrev := n;
    n.prioNext := next;
    n.prioPrev := prev;
    prev.prioNext := n;
    ghost var d := Insert(c, k, n);
    assert forall i {:trigger c[i].prioNext} :: 0 <= i < |c| && i != p ==> c[i].prioNext == old(c[i].prioNext);
    forall i | 0 <= i < |d|
      ensures d[i].prioNext == d[Next(i, |d|)] && d[Next(i, |d|)].prioPrev == d[i]
    {
      RingStep(c, k, i);
    }
  }

  /** Where neighbours in the ring end up when one node is inserted at `k`. */
  lemma RingStep(c: seq<Node>, k: nat, i: nat)
    requires k <= |c| && i <= |c| && c != []
    ensures i < k ==> Next(i, |c| + 1) == if i + 1 < k then i + 1 else k
    ensures i > k ==> Next(i, |c| + 1) == if i == |c| then 0 else i + 1
  {
  }

  // ---------------------------------------------------------------- the list

  lemma Locate(a: seq<Node>, b: seq<Node>, p: int, j: nat)
    requires forall i :: 0 <= i < |a| ==> a[i].prio <= p
    requires b != [] ==> b[0].prio > p
    requires j <= |a + b|
    requires forall i :: 0 <= i < j ==> (a + b)[i].prio <= p
    requires j < |a + b| ==> (a + b)[j].prio > p
    ensures j == |a|
  {
    assert b != [] ==> (a + b)[|a|] == b[0];
  }

  /** A search that stopped at entry `j` of the skip index has found the insertion point. */
  lemma SearchEnds(s: seq<Node>, p: int, j: nat)
    requires Sorted(s) && j <= |Tops(s)|
    requires forall i :: 0 <= i < j ==> Tops(s)[i].prio <= p
    requires j < |Tops(s)| ==> Tops(s)[j].prio > p
    ensures var k := Position(s, p);
            && j == |Tops(s[..k])|
            && (if k < |s| then j < |Tops(s)| && Tops(s)[j] == s[k] else j == |Tops(s)|)
  {
    hide Tops, Position;
    var k := Position(s, p);
    var a, b := s[..k], s[k..];
    assert s == a + b;
    TopsSplit(a, b, p);
    Locate(Tops(a), Tops(b), p, j);
  }

  lemma {:induction false} PositionIs(s: seq<Node>, p: int, k: nat)
    requires k <= |s| && forall i :: 0 <= i < k ==> s[i].prio <= p
    requires k < |s| ==> s[k].prio > p
    ensures Position(s, p) == k
  {
    if k > 0 {
      PositionIs(s[1..], p, k - 1);
    }
  }

  /** The do-while of `trans_plist_add`: run along the skip index up to the first entry of higher
      value, or once around. */
  method Search(prio: int, head: Node, first: Node, ghost tops: seq<Node>)
    returns (iter: Node, prev: Node?, nodeNext: Node)
    requires tops != [] && tops[0] == first && PrioRing(tops) && Increasing(tops)
    ensures var j := Position(tops, prio);
            && iter == tops[if j == |tops| then 0 else j]
            && prev == (if j == 0 then null else tops[j - 1])
            && nodeNext == if j == |tops| then head else tops[j]
  {
    iter, prev, nodeNext := first, null, head;
    ghost var j := 0;
    while true
      invariant j < |tops| && iter == tops[j] && nodeNext == head
      invariant prev == if j == 0 then null else tops[j - 1]
      invariant forall i :: 0 <= i < j ==> tops[i].prio <= prio
      decreases |tops| - j
    {
      if prio < iter.prio {
        nodeNext := iter;
        break;
      }
      prev := iter;
      iter := iter.prioNext;
      j := j + 1;
      if iter == first {
        break;
      }
    }
    PositionIs(tops, prio, j);
  }

  lemma InsertKeepsDistinct(s: seq<Node>, k: nat, n: Node)
    requires Distinct(s) && k <= |s| && n !in s
    ensures Distinct(Insert(s, k, n))
    ensures forall m :: m in Insert(s, k, n) <==> m in s || m == n
  {
  }

  class Plist {
    const head: Node
    ghost var nodes: seq<Node>

    /** Both rings well formed: all nodes in priority order behind the head, and the skip index
        through exactly the first node of each priority; other nodes' index links are unused. */
    ghost predicate Valid()
      reads this, head, nodes
    {
      && head !in nodes && Distinct(nodes) && Sorted(nodes)
      && NodeRing([head] + nodes)
      && IndexRing(nodes)
    }

    constructor ()
      ensures Valid() && nodes == [] && fresh(head)
    {
      head := new Node(0);
      nodes := [];
    }

    /** `trans_plist_add`: search along the skip index, then link into both rings. */
    method Add(node: Node)
      requires Valid() && node != head && node !in nodes
      requires node.nodeNext == node.nodePrev == node && node.prioNext == node.prioPrev == node
      modifies this`nodes, head, nodes, node
      ensures Valid()
      ensures nodes == InsertSorted(old(nodes), node)
    {
      hide Position, Tops, Sorted, Distinct, NodeRing, IndexRing, Insert;
      var nodeNext := head;
      HeadNext(head, nodes);
      if head.nodeNext != head {
        nodeNext := AddToIndex(node, head, nodes);
      } else {
        AloneInIndex(node);
      }
      ghost var k := Position(nodes, node.prio);
      RingWithHead(head, nodes, k, node);
      NodeAddTail(node, nodeNext, [head] + nodes, k + 1);
      InsertKeepsSorted(nodes, node);
      InsertKeepsDistinct(nodes, k, node);
      nodes := InsertSorted(nodes, node);
    }
  }

  ghost predicate IndexRing(s: seq<Node>)
    reads (set m | m in s)`prioNext, (set m | m in s)`prioPrev
  {
    && PrioRing(Tops(s))
    && forall n :: n in s && n !in Tops(s) ==> n.prioNext == n.prioPrev == n
  }

  lemma HeadNext(head: Node, s: seq<Node>)
    requires NodeRing([head] + s)
    ensures head.nodeNext == if s == [] then head else s[0]
  {
    assert ([head] + s)[0].nodeNext == ([head] + s)[Next(0, |s| + 1)];
  }

  lemma AloneInIndex(n: Node)
    requires n.prioNext == n.prioPrev == n
    ensures IndexRing(InsertSorted([], n))
  {
  }

  lemma RingWithHead(head: Node, s: seq<Node>, k: nat, n: Node)
    requires k <= |s| && head !in s && Distinct(s)
    ensures Distinct([head] + s)
    ensures Insert([head] + s, k + 1, n) == [head] + Insert(s, k, n)
  {
  }

  /** Where the node goes in the list and in the index, from one search of the index. */
  lemma IndexPlace(s: seq<Node>, n: Node)
    requires Sorted(s)
    ensures var tops, k := Tops(s), Position(s, n.prio);
            var j := Position(tops, n.prio);
            && (if k == |s| then j == |tops| else j < |tops| && tops[j] == s[k])
            && Tops(InsertSorted(s, n)) == if j > 0 && tops[j - 1].prio == n.prio then tops else Insert(tops, j, n)
  {
    hide Tops, Sorted, Insert, Position;
    SearchEnds(s, n.prio, Position(Tops(s), n.prio));
    TopsOfInsert(s, n);
  }

  lemma InsertedNodes(s: seq<Node>, k: nat, n: Node)
    requires k <= |s|
    ensures forall m :: m in Insert(s, k, n) <==> m in s || m == n
  {
    assert s == s[..k] + s[k..];
  }

  /** The part of the addition that concerns the skip index. */
  method AddToIndex(node: Node, head: Node, ghost s: seq<Node>) returns (nodeNext: Node)
    requires s != [] && Sorted(s) && node !in s && head.nodeNext == s[0]
    requires IndexRing(s) && node.prioNext == node.prioPrev == node
    modifies (set m | m in s)`prioNext, (set m | m in s)`prioPrev, node`prioNext, node`prioPrev
    ensures IndexRing(InsertSorted(s, node))
    ensures var k := Position(s, node.prio); nodeNext == if k == |s| then head else s[k]
  {
    hide Position, Tops, Sorted, PrioRing, Insert, Increasing;
    ghost var tops := Tops(s);
    TopsEnds(s);
    TopsIncrease(s);
    IndexPlace(s, node);
    IncreasingDistinct(tops);
    ghost var j := Position(tops, node.prio);
    var iter, prev;
    iter, prev, nodeNext := Search(node.prio, head, head.nodeNext, tops);
    if prev == null || prev.prio != node.prio {
      PrioAddTail(node, iter, tops, j);
    }
    InsertedNodes(s, Position(s, node.prio), node);
    InsertedNodes(tops, j, node);
    forall n | n in InsertSorted(s, node) && n !in Tops(InsertSorted(s, node))
      ensures n.prioNext == n.prioPrev == n
    {
      assert n !in tops;
      assert n in s ==> old(n.prioNext == n.prioPrev == n);
    }
  }

  lemma IncreasingDistinct(s: seq<Node>)
    requires Increasing(s)
    ensures Distinct(s)
  {
  }
}
