/**
 The templated singly-linked list of assignment 3: the base operations of
 LinkedListBase (insert/delete at either end, getLast, getStringFromList) and
 the four fifth-element operations of SinglyLinkedList, merged into one class.

 The ghost field `nodes` lists the node objects in traversal order and
 `contents` their data; Valid() ties both to the real `first`, `last` and
 `link` fields. The `count` field is deliberately not tied to |nodes|: the
 fifth-element operations never touch it (their local counter shadows it).
 */
module LinkedList {
  import opened Positional

  /** A list node: one element and the link to the next node (null at the end). */
  class Node<T> {
    var data: T
    var link: Node?<T>

    constructor (data: T)
      ensures this.data == data && link == null
    {
      this.data := data;
      link := null;
    }
  }

  class SinglyLinkedList<T> {
    var first: Node?<T>
    var last: Node?<T>
    var count: int

    ghost var nodes: seq<Node<T>>
    ghost var contents: seq<T>

    /** The object invariant: `nodes` is the chain from `first` to `last`,
        each node linking to the next and the last one to null, and `contents`
        holds their data. That no node occurs twice follows (NodesDistinct). */
    ghost predicate Valid()
      reads this, nodes
    {
      && |nodes| == |contents|
      && (forall i :: 0 <= i < |nodes| ==> nodes[i].data == contents[i])
      && (forall i :: 0 <= i < |nodes| - 1 ==> nodes[i].link == nodes[i + 1])
      && (nodes == [] ==> first == null && last == null)
      && (nodes != [] ==> first == nodes[0] && last == nodes[|nodes| - 1] && last.link == null)
    }

    /** The in-class initialisers: no nodes and a count of zero. */
    constructor ()
      ensures Valid() && nodes == [] && contents == [] && count == 0
    {
      first, last, count := null, null, 0;
      nodes, contents := [], [];
    }

    /** The link of the node at index i, as Valid() fixes it. */
    lemma LinkAt(i: int)
      requires Valid() && 0 <= i < |nodes|
      ensures nodes[i].link == if i + 1 < |nodes| then nodes[i + 1] else null
    {
    }

    /** A valid list is acyclic: no node occurs twice in the chain. Were
        nodes[i] and nodes[j] the same object, their successors would be the
        same too, and so on up to the tail, whose link is null while the
        earlier occurrence's link is not. */
    lemma {:induction false} NodesDistinct(i: int, j: int)
      requires Valid() && 0 <= i < j < |nodes|
      ensures nodes[i] != nodes[j]
      decreases |nodes| - j
    {
      if j + 1 < |nodes| {
        NodesDistinct(i + 1, j + 1);
      } else {
        LinkAt(i);
      }
    }

    /** Every node other than the one at index k is a different object. */
    lemma DistinctFrom(k: int)
      requires Valid() && 0 <= k < |nodes|
      ensures forall i :: 0 <= i < |nodes| && i != k ==> nodes[i] != nodes[k]
    {
      forall i | 0 <= i < |nodes| && i != k
        ensures nodes[i] != nodes[k]
      {
        if i < k { NodesDistinct(i, k); } else { NodesDistinct(k, i); }
      }
    }

    /** getLast: the tail's data, or `throw 1` when `last` is null. */
    function GetLast(): (r: Result<T>)
      requires Valid()
      reads this, nodes
      ensures r == LastOf(contents)
    {
      if last != null then Ok(last.data) else Throws(OutOfRange)
    }

    /** getStringFromList; `show` stands for writing one element to the
        stringstream. */
    method GetStringFromList(show: T -> string) returns (s: string)
      requires Valid()
      ensures s == Render(contents, show)
    {
      if first == null {
        s := EmptyListText;
        return;
      }
      var currentNode := first;
      s := show(currentNode.data);
      LinkAt(0);
      currentNode := currentNode.link;
      ghost var i := 1;
      while currentNode != null
        invariant 1 <= i <= |nodes|
        invariant currentNode == if i < |nodes| then nodes[i] else null
        invariant s == Joined(contents[..i], show)
        decreases |nodes| - i
      {
        assert currentNode.link == (if i + 1 < |nodes| then nodes[i + 1] else null) by { LinkAt(i); }
        assert contents[..i + 1][..i] == contents[..i];
        s := s + " " + show(currentNode.data);
        currentNode := currentNode.link;
        i := i + 1;
      }
      assert contents[..i] == contents;
    }

    /** insertFirst: a new head node; it is also the tail when the list was
        empty, and otherwise `last` is untouched. */
    method InsertFirst(data: T)
      requires Valid()
      modifies this
      ensures Valid()
      ensures contents == [data] + old(contents)
      ensures nodes != [] && fresh(nodes[0]) && nodes == [nodes[0]] + old(nodes)
      ensures last == if old(first) == null then nodes[0] else old(last)
      ensures count == old(count) + 1
    {
      if first == null {
        var temp := new Node(data);
        first := temp;
        last := temp;
        count := count + 1;
        nodes, contents := [temp], [data];
      } else {
        ghost var o := nodes;
        var temp := new Node(data);
        temp.link := first;
        first := temp;
        count := count + 1;
        nodes, contents := [temp] + o, [data] + contents;
        forall i | 1 <= i < |nodes| - 1
          ensures nodes[i].link == nodes[i + 1]
        {
          assert nodes[i] == o[i - 1] && nodes[i + 1] == o[i];
          assert old(o[i - 1].link) == o[i];
        }
      }
    }

    /** insertLast: a new tail node, linked from the old tail. */
    method InsertLast(data: T)
      requires Valid()
      modifies this, last
      ensures Valid()
      ensures contents == old(contents) + [data]
      ensures fresh(last) && nodes == old(nodes) + [last]
      ensures first == if old(first) == null then last else old(first)
      ensures count == old(count) + 1
    {
      if first == null {
        var temp := new Node(data);
        first := temp;
        last := temp;
        count := count + 1;
      } else {
        DistinctFrom(|nodes| - 1);
        var temp := new Node(data);
        last.link := temp;
        last := temp;
        count := count + 1;
      }
      nodes := nodes + [last];
      contents := contents + [data];
      forall i | 0 <= i < |old(nodes)| - 1
        ensures nodes[i].link == nodes[i + 1]
      {
        assert nodes[i] == old(nodes)[i] && nodes[i + 1] == old(nodes)[i + 1];
        assert old(nodes[i].link) == old(nodes)[i + 1];
      }
    }

    /** deleteFirst: nothing happens on an empty list (the C++ code only prints
        a message); otherwise the head node is unlinked. */
    method DeleteFirst()
      requires Valid()
      modifies this
      ensures Valid()
      ensures old(nodes) == [] ==> nodes == [] && count == old(count)
      ensures old(nodes) != [] ==> nodes == old(nodes)[1..] && contents == old(contents)[1..]
      ensures old(nodes) != [] ==> count == old(count) - 1
      ensures |old(nodes)| == 1 ==> first == null && last == null
      ensures |old(nodes)| >= 2 ==> last == old(last)
    {
      if |nodes| >= 2 {
        DistinctFrom(|nodes| - 1);
      }
      if first == null {
        return;
      } else if first == last {
        last := null;
        first := null;
        count := count - 1;
      } else {
        var temp := first.link;
        first := temp;
        count := count - 1;
      }
      nodes := nodes[1..];
      contents := contents[1..];
    }

    /** deleteLast: nothing happens on an empty list; otherwise the traversal
        finds the node before the tail, which becomes the tail with a null
        link. */
    method DeleteLast()
      requires Valid()
      modifies this, if |nodes| >= 2 then {nodes[|nodes| - 2]} else {}
      ensures Valid()
      ensures old(nodes) == [] ==> nodes == [] && count == old(count)
      ensures old(nodes) != [] ==> nodes == old(nodes)[..|old(nodes)| - 1]
      ensures old(nodes) != [] ==> contents == old(contents)[..|old(contents)| - 1]
      ensures old(nodes) != [] ==> count == old(count) - 1
      ensures |old(nodes)| == 1 ==> first == null && last == null
      ensures |old(nodes)| >= 2 ==> last == old(nodes)[|old(nodes)| - 2] && first == old(first)
    {
      if |nodes| >= 2 {
        DistinctFrom(|nodes| - 1);
      }
      if first == null {
        return;
      } else if first == last {
        last := null;
        first := null;
        count := count - 1;
      } else {
        var temp := first;
        ghost var i := 0;
        while temp.link != last
          invariant 0 <= i <= |nodes| - 2
          invariant temp == nodes[i]
          decreases |nodes| - i
        {
          assert temp.link == nodes[i + 1] by { LinkAt(i); }
          temp := temp.link;
          i := i + 1;
        }
        LinkAt(i);
        last := temp;
        last.link := null;
        count := count - 1;
      }
      nodes := nodes[..|nodes| - 1];
      contents := contents[..|contents| - 1];
    }

    /** getFifthElement: walks at most four links from the head; the element
        at 1-based position 5, or `throw 1` when the list is shorter. The walk
        starts by dereferencing `first`, so the list must not be empty. */
    method GetFifthElement() returns (r: Result<T>)
      requires Valid() && nodes != []
      ensures r == FifthOf(contents)
    {
      var currentNode := first;
      var position := 1;  // the C++ code's local `count`, shadowing the field
      while currentNode.link != null
        invariant 1 <= position <= 4 && position <= |nodes|
        invariant currentNode == nodes[position - 1]
        decreases |nodes| - position
      {
        assert currentNode.link == nodes[position] by { LinkAt(position - 1); }
        currentNode := currentNode.link;
        position := position + 1;
        if position == 5 {
          break;
        }
      }
      LinkAt(position - 1);
      if position < 5 {
        r := Throws(OutOfRange);
      } else {
        r := Ok(currentNode.data);
      }
    }

    /** insertNewFifthElement: walks to the fourth node and links a new node
        after it, which becomes the tail when the fourth node was the tail. A
        list of one to three elements is left alone; an empty one is excluded
        because the walk dereferences `first`. The field `count` is not
        updated. */
    method InsertNewFifthElement(value: T)
      requires Valid() && nodes != []
      modifies this, if |nodes| >= 4 then {nodes[3]} else {}
      ensures Valid()
      ensures contents == InsertedFifth(old(contents), value)
      ensures |old(nodes)| < 4 ==> nodes == old(nodes) && last == old(last)
      ensures |old(nodes)| >= 4 ==>
                |nodes| > 4 && fresh(nodes[4]) && nodes == InsertedFifth(old(nodes), nodes[4])
      ensures |old(nodes)| == 4 ==> last == nodes[4]
      ensures |old(nodes)| > 4 ==> last == old(last)
      ensures first == old(first) && count == old(count)
    {
      var currentNode := first;
      var position := 1;
      while currentNode.link != null
        invariant 1 <= position <= 3 && position <= |nodes|
        invariant currentNode == nodes[position - 1]
        decreases |nodes| - position
      {
        assert currentNode.link == nodes[position] by { LinkAt(position - 1); }
        currentNode := currentNode.link;
        position := position + 1;
        if position == 4 {
          break;
        }
      }
      LinkAt(position - 1);
      if position < 4 {
        return;
      }
      ghost var o := nodes;
      DistinctFrom(3);
      var nextNode := currentNode.link;
      var newNode := new Node(value);
      newNode.link := nextNode;
      currentNode.link := newNode;
      if newNode.link == null {
        last := newNode;
      }
      nodes := nodes[..4] + [newNode] + nodes[4..];
      contents := contents[..4] + [value] + contents[4..];
      forall i | 0 <= i < |nodes| - 1
        ensures nodes[i].link == nodes[i + 1]
      {
        if i < 3 {
          assert nodes[i] == o[i] && nodes[i + 1] == o[i + 1] && o[i] != o[3];
          assert old(o[i].link) == o[i + 1];
        } else if i > 4 {
          assert nodes[i] == o[i - 1] && nodes[i + 1] == o[i] && o[i - 1] != o[3];
          assert old(o[i - 1].link) == o[i];
        }
      }
      if |o| > 4 {
        assert o[|o| - 1] != o[3];
      }
    }

    /** deleteFifthElement: walks to the fourth node and links it past the
        fifth; the fourth node becomes the tail when the fifth was the tail. A
        list of one to three elements is left alone. Excluded: an empty list
        and a list of exactly four, where the C++ code dereferences a null
        fifth node. The field `count` is not updated. */
    method DeleteFifthElement()
      requires Valid() && nodes != [] && |nodes| != 4
      modifies this, if |nodes| >= 5 then {nodes[3]} else {}
      ensures Valid()
      ensures nodes == DeletedFifth(old(nodes))
      ensures contents == DeletedFifth(old(contents))
      ensures last == if |old(nodes)| == 5 then old(nodes)[3] else old(last)
      ensures first == old(first) && count == old(count)
    {
      var currentNode := first;
      var position := 1;
      while currentNode.link != null
        invariant 1 <= position <= 3 && position <= |nodes|
        invariant currentNode == nodes[position - 1]
        decreases |nodes| - position
      {
        assert currentNode.link == nodes[position] by { LinkAt(position - 1); }
        currentNode := currentNode.link;
        position := position + 1;
        if position == 4 {
          break;
        }
      }
      LinkAt(position - 1);
      if position < 4 {
        return;
      }
      ghost var o := nodes;
      DistinctFrom(3);
      var fifthNode := currentNode.link;
      LinkAt(4);
      var sixthNode := fifthNode.link;
      currentNode.link := sixthNode;
      if currentNode.link == null {
        last := currentNode;
      }
      nodes := nodes[..4] + nodes[5..];
      contents := contents[..4] + contents[5..];
      forall i | 0 <= i < |nodes| - 1
        ensures nodes[i].link == nodes[i + 1]
      {
        if i < 3 {
          assert nodes[i] == o[i] && nodes[i + 1] == o[i + 1] && o[i] != o[3];
          assert old(o[i].link) == o[i + 1];
        } else if i > 3 {
          assert nodes[i] == o[i + 1] && nodes[i + 1] == o[i + 2] && o[i + 1] != o[3];
          assert old(o[i + 1].link) == o[i + 2];
        }
      }
      if |o| > 5 {
        assert o[|o| - 1] != o[3];
      }
    }

    /** swapFourthAndFifthElement: walks to the third node and re-links the
        fourth and fifth nodes in swapped order; no element is copied, only
        the links of the third, fourth and fifth nodes change. The former
        fourth node becomes the tail when the fifth was the tail. A list of
        one or two elements is left alone. Excluded: an empty list and a list
        of exactly three or four, where the C++ code dereferences a null node. */
    method SwapFourthAndFifthElement()
      requires Valid() && nodes != [] && |nodes| != 3 && |nodes| != 4
      modifies this, if |nodes| >= 5 then {nodes[2], nodes[3], nodes[4]} else {}
      ensures Valid()
      ensures nodes == SwappedFourthFifth(old(nodes))
      ensures contents == SwappedFourthFifth(old(contents))
      ensures forall n :: n in old(nodes) ==> n.data == old(n.data)
      ensures last == if |old(nodes)| == 5 then old(nodes)[3] else old(last)
      ensures first == old(first) && count == old(count)
    {
      var currentNode := first;
      var position := 1;
      while currentNode.link != null
        invariant 1 <= position <= 2 && position <= |nodes|
        invariant currentNode == nodes[position - 1]
        decreases |nodes| - position
      {
        assert currentNode.link == nodes[position] by { LinkAt(position - 1); }
        currentNode := currentNode.link;
        position := position + 1;
        if position == 3 {
          break;
        }
      }
      LinkAt(position - 1);
      if position < 3 {
        return;
      }
      ghost var o := nodes;
      DistinctFrom(2);
      DistinctFrom(3);
      DistinctFrom(4);
      var fourthNode := currentNode.link;
      LinkAt(3);
      var fifthNode := fourthNode.link;
      LinkAt(4);
      var sixthNode := fifthNode.link;
      currentNode.link := fifthNode;
      fifthNode.link := fourthNode;
      fourthNode.link := sixthNode;
      if sixthNode == null {
        last := fourthNode;
      }
      nodes := SwappedFourthFifth(o);
      contents := SwappedFourthFifth(contents);
      forall i | 0 <= i < |nodes| - 1
        ensures nodes[i].link == nodes[i + 1]
      {
        if i == 2 {
          assert nodes[2] == o[2] && nodes[3] == o[4];
        } else if i == 3 {
          assert nodes[3] == o[4] && nodes[4] == o[3];
        } else if i == 4 {
          assert nodes[4] == o[3] && nodes[5] == o[5];
        } else {
          assert nodes[i] == o[i] && nodes[i + 1] == o[i + 1];
          assert o[i] != o[2] && o[i] != o[3] && o[i] != o[4];
          assert old(o[i].link) == o[i + 1];
        }
      }
      if |o| > 5 {
        assert o[|o| - 1] != o[2] && o[|o| - 1] != o[3] && o[|o| - 1] != o[4];
      }
    }
  }
}
