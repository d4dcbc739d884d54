/**
 Value-level specification of the positional singly-linked list: what the
 list's element sequence becomes under each fifth-element operation, the
 outcome of the two reads that may throw, and the textual rendering produced
 by getStringFromList. These are the reference definitions that getLast,
 getStringFromList and the four fifth-element methods of module LinkedList
 are proved against. FifthOf, InsertedFifth and DeletedFifth are defined
 only on the lengths the C++ code handles without dereferencing a null node.
 SwappedFourthFifth is total, but only its values on those lengths (one, two,
 five or more elements) describe the C++ code.
 */
module Positional {

  /** A value, or the integer the C++ code throws (`throw 1`). */
  datatype Result<T> = Ok(value: T) | Throws(code: int)

  /** The integer thrown by getLast and getFifthElement. */
  const OutOfRange: int := 1

  /** The text getStringFromList produces for a list whose head is null. */
  const EmptyListText: string := "The list is empty."

  /** Reference definition of getLast's outcome: the tail element, or a
      throw on an empty list. */
  function LastOf<T>(s: seq<T>): Result<T>
  {
    if s == [] then Throws(OutOfRange) else Ok(s[|s| - 1])
  }

  /** Reference definition of getFifthElement's outcome on a non-empty list
      (the C++ walk dereferences the head first): the element at 1-based
      position 5, or a throw when the list has fewer than five elements. */
  function FifthOf<T>(s: seq<T>): Result<T>
    requires s != []
  {
    if |s| < 5 then Throws(OutOfRange) else Ok(s[4])
  }

  /** insertNewFifthElement on a non-empty list: with at least four elements,
      v becomes the element at 1-based position 5 and everything from the old
      fifth on moves back by one; a list of one to three elements is left
      alone. */
  function InsertedFifth<T>(s: seq<T>, v: T): (r: seq<T>)
    requires s != []
    ensures |s| < 4 ==> r == s
    ensures |s| >= 4 ==> |r| == |s| + 1 && r[4] == v
    ensures |s| >= 4 ==> forall i :: 0 <= i < 4 ==> r[i] == s[i]
    ensures |s| >= 4 ==> forall i :: 4 <= i < |s| ==> r[i + 1] == s[i]
  {
    if |s| < 4 then s
    else
      assert s == s[..4] + s[4..];
      s[..4] + [v] + s[4..]
  }

  /** deleteFifthElement on the lengths the C++ code handles (not empty, not
      exactly four): with at least five elements the element at 1-based
      position 5 is removed and the later ones move forward by one; a list of
      one to three elements is left alone. */
  function DeletedFifth<T>(s: seq<T>): (r: seq<T>)
    requires s != [] && |s| != 4
    ensures |s| < 5 ==> r == s
    ensures |s| >= 5 ==> |r| == |s| - 1
    ensures |s| >= 5 ==> forall i :: 0 <= i < 4 ==> r[i] == s[i]
    ensures |s| >= 5 ==> forall i :: 5 <= i < |s| ==> r[i - 1] == s[i]
  {
    if |s| < 5 then s
    else
      assert s == s[..4] + [s[4]] + s[5..];
      s[..4] + s[5..]
  }

  /** swapFourthAndFifthElement: with at least five elements the elements at
      1-based positions 4 and 5 trade places and nothing else moves. Of the
      shorter lists the C++ code handles only those of one or two elements,
      which it leaves alone; the method that uses this function excludes the
      others (empty, three or four), so the value given for them here
      describes no behaviour of the C++ code. */
  function SwappedFourthFifth<T>(s: seq<T>): (r: seq<T>)
    ensures |r| == |s|
    ensures |s| >= 5 ==> r[3] == s[4] && r[4] == s[3]
    ensures forall i :: 0 <= i < |s| && i != 3 && i != 4 ==> r[i] == s[i]
    ensures |s| < 5 ==> r == s
  {
    if |s| < 5 then s
    else
      assert s == s[..3] + [s[3], s[4]] + s[5..];
      s[..3] + [s[4], s[3]] + s[5..]
  }

  /** Inserting a fifth element adds exactly that element: no other element
      is lost or duplicated. */
  lemma InsertFifthMultiset<T>(s: seq<T>, v: T)
    requires |s| >= 4
    ensures multiset(InsertedFifth(s, v)) == multiset(s) + multiset{v}
  {
    assert s == s[..4] + s[4..];
  }

  /** Deleting the fifth element removes exactly that element. */
  lemma DeleteFifthMultiset<T>(s: seq<T>)
    requires |s| >= 5
    ensures multiset(DeletedFifth(s)) + multiset{s[4]} == multiset(s)
  {
    assert s == s[..4] + [s[4]] + s[5..];
  }

  /** Swapping the fourth and fifth elements is a permutation. */
  lemma SwapFourthFifthMultiset<T>(s: seq<T>)
    requires s != [] && |s| != 3 && |s| != 4
    ensures multiset(SwappedFourthFifth(s)) == multiset(s)
  {
    if |s| >= 5 {
      assert s == s[..3] + [s[3], s[4]] + s[5..];
    }
  }

  /** Removing the fifth element undoes inserting a new fifth element. */
  lemma DeleteFifthUndoesInsertFifth<T>(s: seq<T>, v: T)
    requires |s| >= 4
    ensures DeletedFifth(InsertedFifth(s, v)) == s
  {
  }

  /** After inserting v as the new fifth element, getFifthElement returns v. */
  lemma FifthAfterInsertFifth<T>(s: seq<T>, v: T)
    requires |s| >= 4
    ensures FifthOf(InsertedFifth(s, v)) == Ok(v)
  {
  }

  /** After deleting the fifth element, the old sixth element is the new fifth
      one (or the list has shrunk below five and getFifthElement throws). */
  lemma FifthAfterDeleteFifth<T>(s: seq<T>)
    requires |s| >= 5
    ensures FifthOf(DeletedFifth(s)) == if |s| >= 6 then Ok(s[5]) else Throws(OutOfRange)
  {
  }

  /** Swapping the fourth and fifth elements twice restores the list. */
  lemma SwapFourthFifthInvolution<T>(s: seq<T>)
    requires s != [] && |s| != 3 && |s| != 4
    ensures SwappedFourthFifth(SwappedFourthFifth(s)) == s
  {
  }

  // ---------------------------------------------------------------------------
  // Rendering (getStringFromList)
  // ---------------------------------------------------------------------------

  /** The elements of a non-empty sequence, each shown with `show`, separated
      by single spaces. Defined from the end, as the traversal appends. */
  function Joined<T>(xs: seq<T>, show: T -> string): string
    requires xs != []
    decreases |xs|
  {
    if |xs| == 1 then show(xs[0])
    else Joined(xs[..|xs| - 1], show) + " " + show(xs[|xs| - 1])
  }

  /** The text getStringFromList produces for a list holding `xs`, where
      `show` stands for writing one element to a stringstream. */
  function Render<T>(xs: seq<T>, show: T -> string): string
  {
    if xs == [] then EmptyListText else Joined(xs, show)
  }

  /** Appending an element (insertLast) appends one space and its text to the
      rendering, or replaces the empty-list message by its text. */
  lemma RenderAppend<T>(xs: seq<T>, v: T, show: T -> string)
    ensures Render(xs + [v], show) ==
            if xs == [] then show(v) else Render(xs, show) + " " + show(v)
  {
  }

  /** Prepending an element (insertFirst) to a non-empty list puts its text and
      one space in front of the old rendering. */
  lemma {:induction false} RenderPrepend<T>(v: T, xs: seq<T>, show: T -> string)
    requires xs != []
    ensures Render([v] + xs, show) == show(v) + " " + Render(xs, show)
  {
    var s := [v] + xs;
    if |xs| == 1 {
      assert s[..1] == [v] && s[1] == xs[0];
      assert Joined(s, show) == Joined([v], show) + " " + show(xs[0]);
    } else {
      var init := xs[..|xs| - 1];
      assert s[..|s| - 1] == [v] + init;
      assert s[|s| - 1] == xs[|xs| - 1];
      RenderPrepend(v, init, show);
    }
  }

  /** Rendering a list of several elements: the first element's text, one
      space, then the rendering of the rest (the loop's traversal order). */
  lemma RenderFront<T>(xs: seq<T>, show: T -> string)
    requires |xs| >= 2
    ensures Render(xs, show) == show(xs[0]) + " " + Render(xs[1..], show)
  {
    assert xs == [xs[0]] + xs[1..];
    RenderPrepend(xs[0], xs[1..], show);
  }

  /** If no element's text contains a space, the rendering holds exactly
      |xs| - 1 spaces: one separator between each pair of neighbours. */
  lemma {:induction false} RenderSeparators<T>(xs: seq<T>, show: T -> string)
    requires xs != []
    requires forall x :: ' ' !in show(x)
    ensures multiset(Render(xs, show))[' '] == |xs| - 1
  {
    if |xs| > 1 {
      var init := xs[..|xs| - 1];
      RenderSeparators(init, show);
      assert Render(xs, show) == Render(init, show) + " " + show(xs[|xs| - 1]);
    }
  }
}
