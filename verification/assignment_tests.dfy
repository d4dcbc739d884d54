/**
 The assignment's own test scenarios, replayed against the list class: each
 method builds the lists the scenario builds, calls the same operations, and
 promises in its postcondition the values the scenario compares against.
 */
module AssignmentTests {
  import opened Positional
  import opened LinkedList

  /** A new list filled by inserting lo, lo + 1, ..., hi - 1 at the end,
      one after the other, as the C++ tests build their integer lists. */
  method FilledList(lo: int, hi: int) returns (l: SinglyLinkedList<int>)
    requires lo <= hi
    ensures fresh(l) && l.Valid() && forall k :: 0 <= k < |l.nodes| ==> fresh(l.nodes[k])
    ensures l.contents == seq(hi - lo, i => lo + i)
  {
    l := new SinglyLinkedList<int>();
    var i := lo;
    while i < hi
      invariant lo <= i <= hi
      invariant fresh(l) && l.Valid() && forall k :: 0 <= k < |l.nodes| ==> fresh(l.nodes[k])
      invariant l.last == null || fresh(l.last)
      invariant l.contents == seq(i - lo, k => lo + k)
    {
      l.InsertLast(i);
      i := i + 1;
    }
  }

  /** testGetFifthElement #1-#2: ten integers; the fifth is 14. */
  method GetFifthOfTen(show: int -> string) returns (text: string, item: Result<int>)
    ensures text == Render([10, 11, 12, 13, 14, 15, 16, 17, 18, 19], show)
    ensures item == Ok(14)
  {
    var si := FilledList(10, 20);
    assert si.contents == [10, 11, 12, 13, 14, 15, 16, 17, 18, 19];
    text := si.GetStringFromList(show);
    item := si.GetFifthElement();
  }

  /** testGetFifthElement #3-#4: five integers; the fifth is 14. */
  method GetFifthOfFive(show: int -> string) returns (text: string, item: Result<int>)
    ensures text == Render([10, 11, 12, 13, 14], show)
    ensures item == Ok(14)
  {
    var si := FilledList(10, 15);
    assert si.contents == [10, 11, 12, 13, 14];
    text := si.GetStringFromList(show);
    item := si.GetFifthElement();
  }

  /** testGetFifthElement #5-#6: four integers; reading a fifth throws. */
  method GetFifthOfFour(show: int -> string) returns (text: string, item: Result<int>)
    ensures text == Render([10, 11, 12, 13], show)
    ensures item == Throws(OutOfRange)
  {
    var si := FilledList(10, 14);
    assert si.contents == [10, 11, 12, 13];
    text := si.GetStringFromList(show);
    item := si.GetFifthElement();
  }

  /** testGetFifthElement #7: six strings; the fifth is "Fried Chicken". */
  method GetFifthOfStrings() returns (item: Result<string>)
    ensures item == Ok("Fried Chicken")
  {
    var ss := new SinglyLinkedList<string>();
    var names := ["Multi Pass", "Lelu Dallas", "BIG BADA BOOM", "Bruce Willis",
                  "Fried Chicken", "EEEAAAAAAAeeeaaaaaEEeeAAAEEaaaaAA"];
    for i := 0 to |names|
      invariant ss.Valid() && ss.contents == names[..i]
      invariant forall k :: 0 <= k < |ss.nodes| ==> fresh(ss.nodes[k])
      invariant ss.last == null || fresh(ss.last)
    {
      ss.InsertLast(names[i]);
    }
    assert ss.contents == names;
    item := ss.GetFifthElement();
  }

  /** testInsertNewFifthElement #1-#2: ten integers, then 97 becomes the fifth. */
  method InsertFifthIntoTen(show: int -> string) returns (before: string, after: string)
    ensures before == Render([10, 11, 12, 13, 14, 15, 16, 17, 18, 19], show)
    ensures after == Render([10, 11, 12, 13, 97, 14, 15, 16, 17, 18, 19], show)
  {
    var si := FilledList(10, 20);
    assert si.contents == [10, 11, 12, 13, 14, 15, 16, 17, 18, 19];
    before := si.GetStringFromList(show);
    si.InsertNewFifthElement(97);
    assert si.contents == [10, 11, 12, 13, 97, 14, 15, 16, 17, 18, 19];
    after := si.GetStringFromList(show);
  }

  /** testInsertNewFifthElement #3-#4: five integers, then 97 becomes the fifth. */
  method InsertFifthIntoFive(show: int -> string) returns (before: string, after: string)
    ensures before == Render([10, 11, 12, 13, 14], show)
    ensures after == Render([10, 11, 12, 13, 97, 14], show)
  {
    var si := FilledList(10, 15);
    assert si.contents == [10, 11, 12, 13, 14];
    before := si.GetStringFromList(show);
    si.InsertNewFifthElement(97);
    assert si.contents == [10, 11, 12, 13, 97, 14];
    after := si.GetStringFromList(show);
  }

  /** testInsertNewFifthElement #5-#7: four integers, then 97 becomes the fifth and the tail. */
  method InsertFifthIntoFour(show: int -> string) returns (before: string, after: string, tail: Result<int>)
    ensures before == Render([10, 11, 12, 13], show)
    ensures after == Render([10, 11, 12, 13, 97], show)
    ensures tail == Ok(97)
  {
    var si := FilledList(10, 14);
    assert si.contents == [10, 11, 12, 13];
    before := si.GetStringFromList(show);
    si.InsertNewFifthElement(97);
    assert si.contents == [10, 11, 12, 13, 97];
    after := si.GetStringFromList(show);
    tail := si.GetLast();
  }

  /** testInsertNewFifthElement #8: three integers; inserting 1000 changes nothing. */
  method InsertFifthIntoThree(show: int -> string) returns (before: string, after: string)
    ensures before == Render([10, 11, 12], show)
    ensures after == Render([10, 11, 12], show)
  {
    var si := FilledList(10, 13);
    assert si.contents == [10, 11, 12];
    before := si.GetStringFromList(show);
    si.InsertNewFifthElement(1000);
    assert si.contents == [10, 11, 12];
    after := si.GetStringFromList(show);
  }

  /** testDeleteFifthElement #1-#2: ten integers, then the fifth (14) is removed. */
  method DeleteFifthOfTen(show: int -> string) returns (before: string, after: string)
    ensures before == Render([10, 11, 12, 13, 14, 15, 16, 17, 18, 19], show)
    ensures after == Render([10, 11, 12, 13, 15, 16, 17, 18, 19], show)
  {
    var si := FilledList(10, 20);
    assert si.contents == [10, 11, 12, 13, 14, 15, 16, 17, 18, 19];
    before := si.GetStringFromList(show);
    si.DeleteFifthElement();
    assert si.contents == [10, 11, 12, 13, 15, 16, 17, 18, 19];
    after := si.GetStringFromList(show);
  }

  /** testDeleteFifthElement #3-#4: six integers, then the fifth (14) is removed. */
  method DeleteFifthOfSix(show: int -> string) returns (before: string, after: string)
    ensures before == Render([10, 11, 12, 13, 14, 15], show)
    ensures after == Render([10, 11, 12, 13, 15], show)
  {
    var si := FilledList(10, 16);
    assert si.contents == [10, 11, 12, 13, 14, 15];
    before := si.GetStringFromList(show);
    si.DeleteFifthElement();
    assert si.contents == [10, 11, 12, 13, 15];
    after := si.GetStringFromList(show);
  }

  /** testDeleteFifthElement #5-#8: five integers, then the fifth, which is the tail, is removed. */
  method DeleteFifthOfFive(show: int -> string) returns (before: string, after: string, tailBefore: Result<int>, tailAfter: Result<int>)
    ensures before == Render([10, 11, 12, 13, 14], show)
    ensures after == Render([10, 11, 12, 13], show)
    ensures tailBefore == Ok(14) && tailAfter == Ok(13)
  {
    var si := FilledList(10, 15);
    assert si.contents == [10, 11, 12, 13, 14];
    before := si.GetStringFromList(show);
    tailBefore := si.GetLast();
    si.DeleteFifthElement();
    assert si.contents == [10, 11, 12, 13];
    after := si.GetStringFromList(show);
    tailAfter := si.GetLast();
  }

  /** testSwapFourthAndFifthElement #1-#2: ten integers, then 13 and 14 trade places. */
  method SwapInTen(show: int -> string) returns (before: string, after: string)
    ensures before == Render([10, 11, 12, 13, 14, 15, 16, 17, 18, 19], show)
    ensures after == Render([10, 11, 12, 14, 13, 15, 16, 17, 18, 19], show)
  {
    var si := FilledList(10, 20);
    assert si.contents == [10, 11, 12, 13, 14, 15, 16, 17, 18, 19];
    before := si.GetStringFromList(show);
    si.SwapFourthAndFifthElement();
    assert si.contents == [10, 11, 12, 14, 13, 15, 16, 17, 18, 19];
    after := si.GetStringFromList(show);
  }

  /** testSwapFourthAndFifthElement #3-#5: five integers, then 13 and 14 trade places and 13 is the tail. */
  method SwapInFive(show: int -> string) returns (before: string, after: string, tail: Result<int>)
    ensures before == Render([10, 11, 12, 13, 14], show)
    ensures after == Render([10, 11, 12, 14, 13], show)
    ensures tail == Ok(13)
  {
    var si := FilledList(10, 15);
    assert si.contents == [10, 11, 12, 13, 14];
    before := si.GetStringFromList(show);
    si.SwapFourthAndFifthElement();
    assert si.contents == [10, 11, 12, 14, 13];
    after := si.GetStringFromList(show);
    tail := si.GetLast();
  }
}
