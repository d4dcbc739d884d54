/**
 Laws that relate the list operations to one another on the objects
 themselves: each insertion is undone by the matching deletion, and the swap
 of the fourth and fifth nodes is its own inverse.
 */
module ListLaws {
  import opened Positional
  import opened LinkedList

  /** deleteFirst undoes insertFirst: same elements, same count. */
  method InsertFirstThenDeleteFirst<T>(l: SinglyLinkedList<T>, v: T)
    requires l.Valid()
    modifies l
    ensures l.Valid() && l.contents == old(l.contents) && l.nodes == old(l.nodes)
    ensures l.count == old(l.count)
  {
    l.InsertFirst(v);
    l.DeleteFirst();
  }

  /** deleteLast undoes insertLast: same elements, same count; only the old
      tail's link was written (and restored to null). */
  method InsertLastThenDeleteLast<T>(l: SinglyLinkedList<T>, v: T)
    requires l.Valid()
    modifies l, l.last
    ensures l.Valid() && l.contents == old(l.contents) && l.nodes == old(l.nodes)
    ensures l.count == old(l.count)
  {
    l.InsertLast(v);
    l.DeleteLast();
  }

  /** deleteFifthElement undoes insertNewFifthElement on a list of at least
      four elements (on a shorter one the insertion is a no-op and the
      deletion would not be). */
  method InsertFifthThenDeleteFifth<T>(l: SinglyLinkedList<T>, v: T)
    requires l.Valid() && |l.nodes| >= 4
    modifies l, l.nodes[3]
    ensures l.Valid() && l.contents == old(l.contents) && l.nodes == old(l.nodes)
    ensures l.count == old(l.count)
  {
    ghost var s := l.contents;
    l.InsertNewFifthElement(v);
    l.DeleteFifthElement();
    DeleteFifthUndoesInsertFifth(s, v);
  }

  /** Swapping the fourth and fifth nodes twice restores the list. */
  method SwapTwice<T>(l: SinglyLinkedList<T>)
    requires l.Valid() && |l.nodes| >= 5
    modifies l, l.nodes[2], l.nodes[3], l.nodes[4]
    ensures l.Valid() && l.contents == old(l.contents) && l.nodes == old(l.nodes)
    ensures l.last == old(l.last)
  {
    ghost var s := l.contents;
    ghost var ns := l.nodes;
    l.SwapFourthAndFifthElement();
    l.SwapFourthAndFifthElement();
    SwapFourthFifthInvolution(s);
    SwapFourthFifthInvolution(ns);
  }
}
