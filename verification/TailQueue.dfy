/**
 The intrusive tail queue (`SIMPLEQ`) under runs, workers, events and clients: a singly
 linked list in the heap with a pointer to the last link, refining a sequence.
 */
module TailQueue {
  import opened Sequences

  /** A queued structure with its link.  `live` is false once the structure has been freed. */
  class Node<T> {
    var value: T
    var next: Node?<T>
    ghost var live: bool

    constructor (value: T)
      ensures this.value == value && next == null && live
    {
      this.value := value;
      next := null;
      live := true;
    }

    /** Reading the link of a freed structure is an error. */
    function Next(): Node?<T>
      requires live
      reads this
    {
      next
    }

    method Free()
      requires live
      modifies this`live
      ensures !live
    {
      live := false;
    }
  }

  /** The node at position `k`, or null past the end. */
  ghost function At<T>(nodes: seq<Node<T>>, k: nat): Node?<T> {
    if k < |nodes| then nodes[k] else null
  }

  /** `s` without the element at position `k`. */
  function RemoveAt<T>(s: seq<T>, k: nat): (r: seq<T>)
    requires k < |s|
    ensures |r| == |s| - 1
    ensures forall i :: 0 <= i < k ==> r[i] == s[i]
    ensures forall i :: k <= i < |r| ==> r[i] == s[i + 1]
  {
    s[..k] + s[k + 1..]
  }

  class Queue<T> {
    var first: Node?<T>
    // The node whose link `sqh_last` addresses; null while it addresses `sqh_first` itself.
    var last: Node?<T>
    ghost var nodes: seq<Node<T>>
    // The sequence this list stands for: the values of `nodes`, in order.
    ghost var Contents: seq<T>

    ghost predicate Valid()
      reads this, nodes
    {
      && first == At(nodes, 0)
      && last == (if nodes == [] then null else nodes[|nodes| - 1])
      && |Contents| == |nodes|
      && (forall i :: 0 <= i < |nodes| ==> nodes[i].live && nodes[i].value == Contents[i])
      && (forall i {:trigger nodes[i].next} :: 0 <= i < |nodes| ==> nodes[i].next == At(nodes, i + 1))
    }

    /** The links alone keep the nodes apart: equal nodes would have equally long tails. */
    lemma {:induction false} NodesDistinct(i: nat, j: nat)
      requires Valid() && i < j < |nodes|
      ensures nodes[i] != nodes[j]
      decreases |nodes| - j
    {
      if nodes[i] == nodes[j] {
        assert nodes[i].next == nodes[j].next && nodes[i].next == At(nodes, i + 1);
        if j + 1 < |nodes| {
          NodesDistinct(i + 1, j + 1);
        }
      }
    }

    lemma AllDistinct()
      requires Valid()
      ensures Distinct(nodes)
    {
      forall i, j | 0 <= i < j < |nodes|
        ensures nodes[i] != nodes[j]
      {
        NodesDistinct(i, j);
      }
    }

    constructor ()
      ensures Valid() && nodes == [] && Contents == []
    {
      first, last, nodes, Contents := null, null, [], [];
    }

    method IsEmpty() returns (empty: bool)
      requires Valid()
      ensures empty <==> Contents == []
    {
      empty := first == null;
    }

    method InsertHead(n: Node<T>)
      requires Valid() && n.live && n !in nodes
      modifies this, n`next
      ensures Valid()
      ensures nodes == [n] + old(nodes)
      ensures Contents == [n.value] + old(Contents)
    {
      n.next := first;
      if n.next == null {
        last := n;
      }
      first := n;
      nodes, Contents := [n] + nodes, [n.value] + Contents;
    }

    method InsertTail(n: Node<T>)
      requires Valid() && n.live && n !in nodes
      modifies this, n`next, nodes`next
      ensures Valid()
      ensures nodes == old(nodes) + [n]
      ensures Contents == old(Contents) + [n.value]
    {
      AllDistinct();
      n.next := null;
      if last == null {
        first := n;
      } else {
        last.next := n;
      }
      last := n;
      nodes, Contents := nodes + [n], Contents + [n.value];
    }

    /** Unlinks the first node; emptying the queue makes `last` address the head again. */
    method RemoveHead() returns (n: Node<T>)
      requires Valid() && nodes != []
      modifies this
      ensures Valid()
      ensures n == old(nodes[0]) && nodes == old(nodes)[1..]
      ensures Contents == old(Contents)[1..] && n.value == old(Contents)[0]
    {
      n := first;
      first := first.Next();
      if first == null {
        last := null;
      }
      nodes, Contents := nodes[1..], Contents[1..];
    }

    /** Unlinks any node: the scan stops at its predecessor. */
    method Remove(n: Node<T>, ghost k: nat)
      requires Valid() && k < |nodes| && nodes[k] == n
      modifies this, nodes`next
      ensures Valid()
      ensures nodes == RemoveAt(old(nodes), k)
      ensures Contents == RemoveAt(old(Contents), k)
    {
      AllDistinct();
      if first == n {
        var _ := RemoveHead();
      } else {
        var cur := Predecessor(n, k);
        UnlinkAfter(cur, k - 1);
      }
    }

    method Predecessor(n: Node<T>, ghost k: nat) returns (cur: Node<T>)
      requires Valid() && 0 < k < |nodes| && nodes[k] == n
      ensures cur == nodes[k - 1]
    {
      AllDistinct();
      cur := first;
      ghost var i := 0;
      while cur.Next() != n
        invariant 0 <= i < k && cur == nodes[i]
        decreases k - i
      {
        assert cur.next == At(nodes, i + 1) && i + 1 < k;
        cur := cur.Next();
        i := i + 1;
      }
      assert cur.next == At(nodes, i + 1);
    }

    method UnlinkAfter(cur: Node<T>, ghost i: nat)
      requires Valid() && i + 1 < |nodes| && cur == nodes[i]
      modifies this, cur`next
      ensures Valid()
      ensures nodes == RemoveAt(old(nodes), i + 1)
      ensures Contents == RemoveAt(old(Contents), i + 1)
    {
      AllDistinct();
      assert cur.next == At(nodes, i + 1);
      cur.next := cur.Next().Next();
      if cur.next == null {
        last := cur;
      }
      ghost var was := nodes;
      nodes, Contents := RemoveAt(was, i + 1), RemoveAt(Contents, i + 1);
      forall j | 0 <= j < |nodes|
        ensures nodes[j].next == At(nodes, j + 1)
      {
        if j > i {
          assert was[j + 1].next == At(was, j + 2);
        } else if j < i {
          assert was[j].next == At(was, j + 1);
        }
      }
    }

    /** Frees every node, reading each link before its node is freed. */
    method Destroy() returns (freed: seq<T>)
      requires Valid()
      modifies this, nodes
      ensures freed == old(Contents)
      ensures forall n :: n in old(nodes) ==> !n.live
      ensures Valid() && nodes == [] && Contents == []
    {
      AllDistinct();
      freed := [];
      var entry1 := first;
      while entry1 != null
        invariant |freed| <= |nodes| && nodes == old(nodes)
        invariant freed == old(Contents)[..|freed|]
        invariant entry1 == At(nodes, |freed|)
        invariant forall i :: 0 <= i < |freed| ==> !nodes[i].live
        invariant forall i :: |freed| <= i < |nodes| ==> unchanged(nodes[i])
        decreases |nodes| - |freed|
      {
        var entry2 := entry1.Next();
        freed := freed + [entry1.value];
        entry1.Free();
        entry1 := entry2;
      }
      first, last, nodes, Contents := null, null, [], [];
    }
  }
}
