/** The doubly linked list of tools/list.c, as nodes in the heap, acting on a sequence. */
module LinkedList {

  class Node<T> {
    const content: T
    var next: Node?<T>
    var prev: Node?<T>

    constructor (content: T)
      ensures this.content == content && next == null && prev == null
    {
      this.content := content;
      next, prev := null, null;
    }
  }

  class List<T> {
    var head: Node?<T>
    var tail: Node?<T>
    var size: int
    ghost var nodes: seq<Node<T>>

    /** head, tail, next, prev and size all describe the same sequence of distinct nodes. */
    ghost predicate Valid()
      reads this, nodes`next, nodes`prev
    {
      && size == |nodes|
      && Distinct(nodes)
      && head == (if nodes == [] then null else nodes[0])
      && tail == (if nodes == [] then null else nodes[|nodes| - 1])
      && (forall i | 0 <= i < |nodes| :: LinkedAt(i))
    }

    ghost predicate LinkedAt(i: nat)
      requires i < |nodes|
      reads this`nodes, nodes`next, nodes`prev
    {
      && nodes[i].next == (if i + 1 < |nodes| then nodes[i + 1] else null)
      && nodes[i].prev == (if i > 0 then nodes[i - 1] else null)
    }

    ghost function Contents(): seq<T>
      reads this`nodes
    {
      ContentsOf(nodes)
    }

    constructor ()
      ensures Valid() && Contents() == [] && nodes == []
    {
      head, tail, size := null, null, 0;
      nodes := [];
    }

    method Add(content: T)
      requires Valid()
      modifies this, nodes
      ensures Valid() && |nodes| == |old(nodes)| + 1 && nodes[..|old(nodes)|] == old(nodes)
      ensures fresh(nodes[|old(nodes)|])
      ensures Contents() == old(Contents()) + [content]
    {
      DistinctPairs(nodes);
      var node := new Node(content);
      if tail == null {
        head := node;
      } else {
        tail.next := node;
        node.prev := tail;
      }
      tail := node;
      size := size + 1;
      nodes := nodes + [node];
      DistinctPairs(nodes);
      forall i | 0 <= i < |nodes|
        ensures LinkedAt(i)
      {
        assert i + 1 < |nodes| ==> old(LinkedAt(i));
      }
    }

    /** The first node whose content matches, if there is one. */
    method Search(content: T, matcher: (T, T) -> bool) returns (matched: Node?<T>, ghost at: nat)
      requires Valid()
      ensures at <= |nodes| && forall i | 0 <= i < at :: !matcher(nodes[i].content, content)
      ensures matched == (if at < |nodes| then nodes[at] else null)
      ensures matched != null ==> matched in nodes && matcher(matched.content, content)
      ensures matched == null ==> forall i | 0 <= i < |nodes| :: !matcher(nodes[i].content, content)
    {
      matched := head;
      at := 0;
      while matched != null
        invariant at <= |nodes| && matched == (if at < |nodes| then nodes[at] else null)
        invariant forall i | 0 <= i < at :: !matcher(nodes[i].content, content)
        decreases |nodes| - at
      {
        if matcher(matched.content, content) {
          return;
        }
        assert LinkedAt(at);
        matched := matched.next;
        at := at + 1;
      }
    }

    method Empty() returns (empty: bool)
      requires Valid()
      ensures empty <==> Contents() == []
    {
      empty := head == null;
    }

    /** Takes the first node off the list and detaches it. */
    method RemoveHead() returns (node: Node?<T>)
      requires Valid()
      modifies this, nodes
      ensures Valid()
      ensures old(nodes) == [] ==> node == null && nodes == []
      ensures old(nodes) != [] ==>
                node == old(nodes)[0] && nodes == old(nodes)[1..] && node.next == null && node.prev == null
      ensures Contents() == if old(Contents()) == [] then [] else old(Contents())[1..]
    {
      node := head;
      if head != null {
        assert LinkedAt(0);
        DistinctPairs(nodes);
        if head.next != null {
          head.next.prev := null;
        } else {
          tail := null;
        }
        head := head.next;
        node.next := null;
        node.prev := null;
        size := size - 1;
        nodes := nodes[1..];
        DistinctPairs(nodes);
        forall i | 0 <= i < |nodes|
          ensures LinkedAt(i)
        {
          assert old(LinkedAt(i + 1));
        }
      }
    }

    /** Takes the last node off the list and detaches it. */
    method RemoveTail() returns (node: Node?<T>)
      requires Valid()
      modifies this, nodes
      ensures Valid()
      ensures old(nodes) == [] ==> node == null && nodes == []
      ensures old(nodes) != [] ==>
                var n := |old(nodes)| - 1;
                node == old(nodes)[n] && nodes == old(nodes)[..n] && node.next == null && node.prev == null
      ensures Contents() == if old(Contents()) == [] then [] else old(Contents())[..|old(Contents())| - 1]
    {
      node := tail;
      if tail != null {
        assert LinkedAt(|nodes| - 1);
        DistinctPairs(nodes);
        if tail.prev != null {
          tail.prev.next := null;
        } else {
          head := null;
        }
        tail := tail.prev;
        node.next := null;
        node.prev := null;
        size := size - 1;
        nodes := nodes[..|nodes| - 1];
        DistinctPairs(nodes);
        forall i | 0 <= i < |nodes|
          ensures LinkedAt(i)
        {
          assert old(LinkedAt(i));
        }
      }
    }

    /** Takes a member of the list out of it. The node itself keeps its links, so that a walk over the list can go on
        from it. */
    method RemoveNode(node: Node<T>, ghost at: nat)
      requires Valid() && at < |nodes| && nodes[at] == node
      modifies this, nodes
      ensures Valid() && nodes == old(nodes)[..at] + old(nodes)[at + 1..]
      ensures Contents() == old(Contents())[..at] + old(Contents())[at + 1..]
      ensures node.next == old(node.next) && node.prev == old(node.prev)
    {
      DistinctPairs(nodes);
      assert LinkedAt(at);
      assert at > 0 ==> LinkedAt(at - 1);
      assert at + 1 < |nodes| ==> LinkedAt(at + 1);
      if node.prev != null {
        node.prev.next := node.next;
      } else if head == node {
        head := node.next;
      }
      if node.next != null {
        node.next.prev := node.prev;
      } else if tail == node {
        tail := node.prev;
      }
      size := size - 1;
      DistinctWithout(nodes, at);
      nodes := nodes[..at] + nodes[at + 1..];
      Relinked(at);
    }

    /** Around a removed node its neighbours are linked to each other, and the others are as before. */
    twostate lemma Relinked(at: nat)
      requires old(Valid()) && at < |old(nodes)| && nodes == old(nodes)[..at] + old(nodes)[at + 1..]
      requires forall i | 0 <= i < |old(nodes)| && i + 1 != at :: old(nodes)[i].next == old(nodes[i].next)
      requires forall i | 0 <= i < |old(nodes)| && i != at + 1 :: old(nodes)[i].prev == old(nodes[i].prev)
      requires 0 < at ==> old(nodes)[at - 1].next == old(nodes[at].next)
      requires at + 1 < |old(nodes)| ==> old(nodes)[at + 1].prev == old(nodes[at].prev)
      ensures forall i | 0 <= i < |nodes| :: LinkedAt(i)
    {
      forall i | 0 <= i < |nodes|
        ensures LinkedAt(i)
      {
        assert old(LinkedAt(at)) && old(LinkedAt(if i < at then i else i + 1));
      }
    }
  }

  ghost predicate Distinct<T>(nodes: seq<Node<T>>) {
    nodes == [] || (nodes[0] !in nodes[1..] && Distinct(nodes[1..]))
  }

  lemma {:induction false} DistinctPairs<T>(nodes: seq<Node<T>>)
    ensures Distinct(nodes) <==> forall i, j | 0 <= i < j < |nodes| :: nodes[i] != nodes[j]
  {
    if nodes != [] {
      DistinctPairs(nodes[1..]);
      if forall i, j | 0 <= i < j < |nodes| :: nodes[i] != nodes[j] {
        assert forall i, j | 0 <= i < j < |nodes[1..]| :: nodes[1..][i] == nodes[i + 1] && nodes[1..][j] == nodes[j + 1];
      } else {
        var i, j :| 0 <= i < j < |nodes| && nodes[i] == nodes[j];
        assert nodes[j] == nodes[1..][j - 1];
        if i > 0 {
          assert nodes[i] == nodes[1..][i - 1];
        }
      }
    }
  }

  lemma DistinctWithout<T>(nodes: seq<Node<T>>, at: nat)
    requires Distinct(nodes) && at < |nodes|
    ensures var rest := nodes[..at] + nodes[at + 1..];
            Distinct(rest) && ContentsOf(rest) == ContentsOf(nodes)[..at] + ContentsOf(nodes)[at + 1..]
  {
    var rest := nodes[..at] + nodes[at + 1..];
    DistinctPairs(nodes);
    DistinctPairs(rest);
  }

  ghost function ContentsOf<T>(nodes: seq<Node<T>>): (r: seq<T>)
    ensures |r| == |nodes|
  {
    seq(|nodes|, i requires 0 <= i < |nodes| => nodes[i].content)
  }
}
