/**
  The test registry: `ctest_impl_test_list`, an intrusive circular doubly
  linked list whose sentinel starts as a self-loop. Each `struct ctest`
  embeds a list node; here the node carries the test record it is embedded
  in (`entry`), which stands for the container-of pointer arithmetic.
 */
module TestRegistry {
  import opened CTypes

  /** struct ctest, minus the list node that links it into the registry. */
  datatype Test = Test(
    ssname: CString,         // suite name
    ttname: CString,         // test name
    run: FuncPtr,            // the test body
    data: Option<DataPtr>,   // fixture data (CTEST2) or NULL (CTEST)
    skip: bool)

  /** struct ctest_impl_list_head */
  class ListHead {
    var next: ListHead?
    var prev: ListHead?
    const entry: Option<Test>

    /** CTEST_IMPL_LIST_HEAD_INIT: a node statically initialised to point to itself. */
    constructor (entry: Option<Test>)
      ensures this.entry == entry && next == this && prev == this
    {
      this.entry := entry;
      new;
      next, prev := this, this;
    }
  }

  /** ctest_impl_list_add_between: splice `curr` in between `prev` and `next`. */
  method AddBetween(prev: ListHead, curr: ListHead, next: ListHead)
    requires curr != prev && curr != next
    modifies prev, curr, next
    ensures prev.next == curr && curr.prev == prev && curr.next == next && next.prev == curr
    ensures prev != next ==> prev.prev == old(prev.prev) && next.next == old(next.next)
  {
    prev.next := curr;
    curr.prev := prev;
    curr.next := next;
    next.prev := curr;
  }

  /** The registry: its sentinel `head` and, as ghost state, the nodes in list order. */
  class TestList {
    const head: ListHead
    ghost var Nodes: seq<ListHead>
    ghost var Repr: set<ListHead>

    /** Node i is followed by node i + 1; the last node is followed by the sentinel. */
    ghost function Succ(i: int): ListHead
      reads this
      requires -1 <= i < |Nodes|
    {
      if i + 1 < |Nodes| then Nodes[i + 1] else head
    }

    /** Node i is preceded by node i - 1; the first node is preceded by the sentinel. */
    ghost function Pred(i: int): ListHead
      reads this
      requires 0 <= i <= |Nodes|
    {
      if 0 < i then Nodes[i - 1] else head
    }

    /** The sentinel and the distinct test nodes make up the footprint. */
    ghost predicate Shaped()
      reads this, Repr
    {
      && head in Repr
      && head.entry == None
      && head !in Nodes
      && (forall i :: 0 <= i < |Nodes| ==> Nodes[i] in Repr && Nodes[i].entry.Some?)
      && (forall i, j :: 0 <= i < j < |Nodes| ==> Nodes[i] != Nodes[j])
    }

    /** next and prev pointers go round the circle sentinel, Nodes[0], ..., sentinel. */
    ghost predicate Linked()
      reads this, Repr
      requires Shaped()
    {
      && head.next == Succ(-1)
      && head.prev == Pred(|Nodes|)
      && (forall i :: 0 <= i < |Nodes| ==> Nodes[i].next == Succ(i) && Nodes[i].prev == Pred(i))
    }

    ghost predicate Valid()
      reads this, Repr
    {
      Shaped() && Linked()
    }

    /** The tests, in the order the list links them. */
    ghost function Tests(): (ts: seq<Test>)
      reads this, Repr
      requires Valid()
      ensures |ts| == |Nodes|
    {
      Entries(Nodes)
    }

    /**
      Following next from the sentinel visits nodes embedding ts[0], ts[1], ...
      in order and then comes back to the sentinel.
     */
    ghost predicate Walks(ts: seq<Test>)
      reads this, head, Nodes
    {
      && |Nodes| == |ts|
      && head !in Nodes
      && head.next == Succ(-1)
      && forall i :: 0 <= i < |ts| ==> Nodes[i].entry == Some(ts[i]) && Nodes[i].next == Succ(i)
    }

    /** A valid list can be walked: the walk yields its tests. */
    lemma ValidWalks()
      requires Valid()
      ensures Walks(Tests())
    {
    }

    /** `struct ctest_impl_list_head ctest_impl_test_list = CTEST_IMPL_LIST_HEAD_INIT(...)` */
    constructor ()
      ensures Valid() && fresh(Repr) && Nodes == [] && Tests() == []
    {
      var h := new ListHead(None);
      head := h;
      Nodes := [];
      Repr := {h};
    }

    /** ctest_impl_list_add_tail(node, head): `node` becomes the last element. */
    method AddTail(node: ListHead)
      requires Valid()
      requires node !in Repr && node.entry.Some?
      modifies this, head, head.prev, node
      ensures Valid()
      ensures Nodes == old(Nodes) + [node] && Repr == old(Repr) + {node}
      ensures Tests() == old(Tests()) + [node.entry.value]
      ensures head.prev == node && node.next == head
    {
      var last := head.prev;
      AddBetween(last, node, head);
      Nodes := Nodes + [node];
      Repr := Repr + {node};
      Appended(node);
    }

    /**
      The list stays valid when `node`, new to it, is spliced in between the
      former last node and the sentinel, and every other node keeps its links.
     */
    twostate lemma Appended(node: ListHead)
      requires old(Valid())
      requires node !in old(Repr) && node.entry.Some?
      requires Nodes == old(Nodes) + [node] && Repr == old(Repr) + {node}
      requires old(head.prev).next == node && node.prev == old(head.prev)
      requires node.next == head && head.prev == node
      requires forall o: ListHead :: o in old(Repr) && o != old(head.prev) ==> o.next == old(o.next)
      requires forall o: ListHead :: o in old(Repr) && o != head ==> o.prev == old(o.prev)
      ensures Valid()
      ensures Tests() == old(Tests()) + [node.entry.value]
    {
      var n := |old(Nodes)|;
      assert Nodes[..n] == old(Nodes);
      forall i | 0 <= i < n - 1
        ensures Nodes[i].next == Succ(i) && Nodes[i].prev == Pred(i)
      {
        assert old(Nodes[i].next == Succ(i) && Nodes[i].prev == Pred(i));
      }
      if n > 0 {
        assert old(Nodes[n - 1].prev == Pred(n - 1));
      }
    }
  }

  /** The tests embedding `nodes`, in order. */
  ghost function Entries(nodes: seq<ListHead>): (ts: seq<Test>)
    requires forall i :: 0 <= i < |nodes| ==> nodes[i].entry.Some?
    ensures |ts| == |nodes|
    ensures forall i :: 0 <= i < |nodes| ==> nodes[i].entry == Some(ts[i])
  {
    if nodes == [] then [] else Entries(nodes[..|nodes| - 1]) + [nodes[|nodes| - 1].entry.value]
  }

  /**
    What the load-time constructor generated for one CTEST/CTEST2 declaration
    does: a node initialised to a self-loop, appended with add_tail.
   */
  method RegisterTest(list: TestList, t: Test) returns (node: ListHead)
    requires list.Valid()
    modifies list, list.head, list.head.prev
    ensures list.Valid() && fresh(node)
    ensures list.Tests() == old(list.Tests()) + [t]
    ensures list.Repr == old(list.Repr) + {node}
  {
    node := new ListHead(Some(t));
    list.AddTail(node);
  }
}
