# Singly-linked list (assignment 3) and playlist node, modelled in Dafny

This project models two small pieces of C++ linked-list code.

The first is the templated singly-linked list of assignment 3. The base class
`LinkedListBase<T>` holds `first`, `last` and `count`. It renders the list as
text (`getStringFromList`), reads the tail (`getLast`) and inserts or deletes
at either end. The derived class `SinglyLinkedList<T>` adds four operations
on the element at 1-based position 5:
- `getFifthElement`;
- `insertNewFifthElement`;
- `deleteFifthElement`;
- `swapFourthAndFifthElement`.

The second is `PlaylistNode`. It is one song entry of a linked playlist: two
constructors, five getters, `SetNext` and `InsertAfter`.

Files:
- `positional.dfy` (module `Positional`) is the value-level specification.
  It says what each fifth-element operation does to the element sequence,
  what the two throwing reads return, and what text `getStringFromList`
  produces. Lemmas prove the laws between these functions: the multiset
  effects, insert/delete round trips and the swap involution.
  - `LastOf` and `FifthOf` are reference definitions of the outcomes of
    `getLast` and `getFifthElement`: the tail element, or the element at
    position 5, or `Throws(1)`. They carry no contract of their own; the
    methods `GetLast` and `GetFifthElement` are proved equal to them, and the
    lemmas `FifthAfterInsertFifth` and `FifthAfterDeleteFifth` state what
    `getFifthElement` returns after an insertion or a deletion.
  - `FifthOf`, `InsertedFifth` and `DeletedFifth` require the lengths the C++
    code handles without dereferencing a null node (not empty; for
    `DeletedFifth` also not exactly four). `SwappedFourthFifth` is total,
    but only its values on one, two, or five or more elements describe the
    C++ code: the method that uses it excludes the other lengths, and the
    lemmas about it require them away as well.
- `linked_list.dfy` (module `LinkedList`) holds the classes `Node<T>` and
  `SinglyLinkedList<T>`. The base and derived classes are merged into one
  class. Each operation follows the C++ statements and branches. `GetLast`
  is a function equal to `LastOf` of the contents. `GetStringFromList` and
  the four fifth-element methods are proved against the functions of
  `Positional`. `InsertFirst`, `InsertLast`, `DeleteFirst` and `DeleteLast`
  state their new nodes, contents, `first`, `last` and `count` directly.
  - The ghost fields `nodes` (the node objects in traversal order) and
    `contents` (their data) give the sequence view.
  - `Valid()` ties the ghost fields to `first`, `last` and the `link` fields.
  - The lemma `NodesDistinct` proves that no node occurs twice.
- `list_laws.dfy` (module `ListLaws`) holds the object-level round trips.
  Each insertion is undone by the matching deletion, and two swaps restore
  the list.
- `assignment_tests.dfy` (module `AssignmentTests`) replays the assignment's
  own test functions. Each method builds the same lists, calls the same
  operations and promises the values the test compares against.
- `playlist.dfy` (module `Playlist`) holds the class `PlaylistNode`.
  - The getters `GetID`, `GetSongName`, `GetArtistName`, `GetSongLength` and
    `GetNext` are functions that read one field each. As functions they
    cannot modify anything, just as the C++ getters are `const`.
  - The constructors and `SetNext` state their effect through the getters.
  - `InsertAfter` states its effect on the two pointers it writes. It also
    states that splicing a node into a chain keeps the chain well formed.

Conventions of the model:
- `throw 1` becomes the result `Throws(1)` (`Positional.OutOfRange`).
- A successful read becomes `Ok(value)`.
- Writing an element to a `stringstream` is the parameter `show: T -> string`.
- The fifth-element operations declare a local `int count` that shadows the
  field. The field `count` is therefore never updated by them, and the model
  keeps that: `count` is not tied to the length of the list.

## Model

| member | source | states |
|---|---|---|
| Positional.InsertedFifth | _dropped/cs2420-c++/assignment_03/assignment_03.cpp:244-272 | with four or more elements the new value sits at position 5; the first four are kept and every later element moves back one place; a list of one to three elements is unchanged; defined on non-empty lists only |
| Positional.DeletedFifth | _dropped/cs2420-c++/assignment_03/assignment_03.cpp:274-298 | with five or more elements the list is one shorter; the first four are kept and every element after the fifth moves forward one place; a list of one to three elements is unchanged; defined on non-empty lists of any length but four |
| Positional.SwappedFourthFifth | _dropped/cs2420-c++/assignment_03/assignment_03.cpp:300-326 | same length; with five or more elements positions 4 and 5 trade values and every other position keeps its value; a list of one or two elements is unchanged (the values at lengths 0, 3 and 4 describe nothing in the C++ code, which is never called there) |
| Positional.InsertFifthMultiset | _dropped/cs2420-c++/assignment_03/assignment_03.cpp:244-272 | inserting a fifth element adds exactly that value to the multiset of elements |
| Positional.DeleteFifthMultiset | _dropped/cs2420-c++/assignment_03/assignment_03.cpp:274-298 | deleting the fifth element removes exactly the old fifth value from the multiset |
| Positional.SwapFourthFifthMultiset | _dropped/cs2420-c++/assignment_03/assignment_03.cpp:300-326 | on the lengths the C++ code handles, the swap is a permutation of the elements |
| Positional.DeleteFifthUndoesInsertFifth | _dropped/cs2420-c++/assignment_03/assignment_03.cpp:244-298 | on four or more elements, deleting the fifth element after inserting a new fifth one restores the list |
| Positional.FifthAfterInsertFifth | _dropped/cs2420-c++/assignment_03/assignment_03.cpp:244-272 | after inserting v as the fifth element, getFifthElement returns v |
| Positional.FifthAfterDeleteFifth | _dropped/cs2420-c++/assignment_03/assignment_03.cpp:274-298 | after deleting the fifth element, getFifthElement returns the old sixth element, or throws when there was none |
| Positional.SwapFourthFifthInvolution | _dropped/cs2420-c++/assignment_03/assignment_03.cpp:300-326 | on the lengths the C++ code handles, swapping twice restores the list |
| Positional.Joined | _dropped/cs2420-c++/assignment_03/assignment_03.cpp:101-108 | the texts of the elements of a non-empty list, in order, with one space between neighbours, built from the end as the traversal appends (a definition; its laws are RenderAppend, RenderPrepend, RenderFront and RenderSeparators) |
| Positional.Render | _dropped/cs2420-c++/assignment_03/assignment_03.cpp:94-111 | the text getStringFromList produces: "The list is empty." for an empty list, otherwise Joined of the elements (a definition; GetStringFromList is proved equal to it) |
| Positional.RenderAppend | _dropped/cs2420-c++/assignment_03/assignment_03.cpp:94-111 | appending an element appends a space and its text to the rendering, or replaces the empty-list message by its text |
| Positional.RenderPrepend | _dropped/cs2420-c++/assignment_03/assignment_03.cpp:94-111 | prepending an element to a non-empty list puts its text and a space in front of the old rendering |
| Positional.RenderFront | _dropped/cs2420-c++/assignment_03/assignment_03.cpp:101-108 | a list of two or more renders as the first element's text, a space, then the rendering of the rest (the traversal order) |
| Positional.RenderSeparators | _dropped/cs2420-c++/assignment_03/assignment_03.cpp:105-107 | when no element's text contains a space, the rendering contains exactly one space between each pair of neighbours |
| LinkedList.Node.constructor | _dropped/cs2420-c++/assignment_03/assignment_03.cpp:49-54 | a new node holds its data and a null link |
| LinkedList.SinglyLinkedList.constructor | _dropped/cs2420-c++/assignment_03/assignment_03.cpp:78-81 | a new list is valid and empty, with count 0 |
| LinkedList.SinglyLinkedList.GetLast | _dropped/cs2420-c++/assignment_03/assignment_03.cpp:113-120 | the tail's data, or throws 1 on an empty list (LastOf of the contents) |
| LinkedList.SinglyLinkedList.GetStringFromList | _dropped/cs2420-c++/assignment_03/assignment_03.cpp:94-111 | the traversal produces the elements' texts in list order, separated by single spaces, or "The list is empty." when first is null |
| LinkedList.SinglyLinkedList.InsertFirst | _dropped/cs2420-c++/assignment_03/assignment_03.cpp:121-139 | the value becomes the head over a fresh node; the old nodes follow; last changes only when the list was empty; count goes up by one; the list stays valid |
| LinkedList.SinglyLinkedList.InsertLast | _dropped/cs2420-c++/assignment_03/assignment_03.cpp:141-157 | the value is appended over a fresh tail node; first changes only when the list was empty; count goes up by one; the list stays valid |
| LinkedList.SinglyLinkedList.DeleteFirst | _dropped/cs2420-c++/assignment_03/assignment_03.cpp:159-180 | empty list: nothing changes; one node: first and last become null; otherwise the head is dropped and last is kept; count goes down by one when a node is removed |
| LinkedList.SinglyLinkedList.DeleteLast | _dropped/cs2420-c++/assignment_03/assignment_03.cpp:182-209 | empty list: nothing changes; one node: first and last become null; otherwise the tail is dropped and the node before it becomes the tail; count goes down by one when a node is removed |
| LinkedList.SinglyLinkedList.GetFifthElement | _dropped/cs2420-c++/assignment_03/assignment_03.cpp:224-242 | on a non-empty list the result is FifthOf of the contents: the element at position 5 when there are at least five elements, otherwise throws 1 |
| LinkedList.SinglyLinkedList.InsertNewFifthElement | _dropped/cs2420-c++/assignment_03/assignment_03.cpp:244-272 | the contents become InsertedFifth of the old ones; a fresh node is linked in at index 4; it becomes last when the list had exactly four elements; first and count are unchanged |
| LinkedList.SinglyLinkedList.DeleteFifthElement | _dropped/cs2420-c++/assignment_03/assignment_03.cpp:274-298 | the nodes and contents become DeletedFifth of the old ones; the fourth node becomes last when the fifth was the tail; first and count are unchanged |
| LinkedList.SinglyLinkedList.SwapFourthAndFifthElement | _dropped/cs2420-c++/assignment_03/assignment_03.cpp:300-326 | the node objects themselves trade places (nodes become SwappedFourthFifth of the old nodes) and no node's data changes, so no value is copied; the old fourth node becomes last when the fifth was the tail; first and count are unchanged |
| ListLaws.InsertFirstThenDeleteFirst | _dropped/cs2420-c++/assignment_03/assignment_03.cpp:121-180 | deleteFirst after insertFirst restores the nodes, the contents and count |
| ListLaws.InsertLastThenDeleteLast | _dropped/cs2420-c++/assignment_03/assignment_03.cpp:141-209 | deleteLast after insertLast restores the nodes, the contents and count |
| ListLaws.InsertFifthThenDeleteFifth | _dropped/cs2420-c++/assignment_03/assignment_03.cpp:244-298 | on four or more elements, deleteFifthElement after insertNewFifthElement restores the nodes and the contents |
| ListLaws.SwapTwice | _dropped/cs2420-c++/assignment_03/assignment_03.cpp:300-326 | two swaps of the fourth and fifth nodes restore the nodes, the contents and last |
| AssignmentTests.FilledList | _dropped/cs2420-c++/assignment_03/assignment_03.cpp:376-378 | inserting lo, lo+1, ..., hi-1 at the end of a new list gives exactly those elements in order |
| AssignmentTests.GetFifthOfTen | _dropped/cs2420-c++/assignment_03/assignment_03.cpp:374-386 | the list 10..19 renders as its ten elements, and its fifth element is 14 |
| AssignmentTests.GetFifthOfFive | _dropped/cs2420-c++/assignment_03/assignment_03.cpp:388-398 | the list 10..14 renders as its five elements, and its fifth element is 14 |
| AssignmentTests.GetFifthOfFour | _dropped/cs2420-c++/assignment_03/assignment_03.cpp:400-415 | reading the fifth element of 10..13 throws |
| AssignmentTests.GetFifthOfStrings | _dropped/cs2420-c++/assignment_03/assignment_03.cpp:417-425 | the fifth of the six strings is "Fried Chicken" |
| AssignmentTests.InsertFifthIntoTen | _dropped/cs2420-c++/assignment_03/assignment_03.cpp:451-462 | inserting 97 into 10..19 gives 10 11 12 13 97 14 ... 19 |
| AssignmentTests.InsertFifthIntoFive | _dropped/cs2420-c++/assignment_03/assignment_03.cpp:464-474 | inserting 97 into 10..14 gives 10 11 12 13 97 14 |
| AssignmentTests.InsertFifthIntoFour | _dropped/cs2420-c++/assignment_03/assignment_03.cpp:476-487 | inserting 97 into 10..13 appends it, and getLast returns 97 |
| AssignmentTests.InsertFifthIntoThree | _dropped/cs2420-c++/assignment_03/assignment_03.cpp:490-498 | inserting 1000 into 10..12 leaves the list unchanged |
| AssignmentTests.DeleteFifthOfTen | _dropped/cs2420-c++/assignment_03/assignment_03.cpp:525-536 | deleting from 10..19 removes 14 |
| AssignmentTests.DeleteFifthOfSix | _dropped/cs2420-c++/assignment_03/assignment_03.cpp:538-548 | deleting from 10..15 gives 10 11 12 13 15 |
| AssignmentTests.DeleteFifthOfFive | _dropped/cs2420-c++/assignment_03/assignment_03.cpp:550-562 | deleting the tail 14 from 10..14 gives 10..13, and getLast moves from 14 to 13 |
| AssignmentTests.SwapInTen | _dropped/cs2420-c++/assignment_03/assignment_03.cpp:590-602 | swapping in 10..19 gives 10 11 12 14 13 15 ... 19 |
| AssignmentTests.SwapInFive | _dropped/cs2420-c++/assignment_03/assignment_03.cpp:604-616 | swapping in 10..14 gives 10 11 12 14 13, and 13 is the new tail |
| Playlist.PlaylistNode.Default | mod13/hw/PlaylistNode.cpp:17-24 | every string getter returns "none", the length is 0 and the next pointer is null |
| Playlist.PlaylistNode.constructor | mod13/hw/PlaylistNode.cpp:37-45 | each of the five arguments is returned by its getter |
| Playlist.PlaylistNode.GetID | mod13/hw/PlaylistNode.cpp:82-85 | reads the ID and changes nothing (a function, as the C++ getter is const); its value is fixed by the constructors and kept by SetNext |
| Playlist.PlaylistNode.GetSongName | mod13/hw/PlaylistNode.cpp:94-97 | reads the song name and changes nothing; its value is fixed by the constructors and kept by SetNext |
| Playlist.PlaylistNode.GetArtistName | mod13/hw/PlaylistNode.cpp:106-109 | reads the artist name and changes nothing; its value is fixed by the constructors and kept by SetNext |
| Playlist.PlaylistNode.GetSongLength | mod13/hw/PlaylistNode.cpp:118-121 | reads the song length and changes nothing; its value is fixed by the constructors and kept by SetNext |
| Playlist.PlaylistNode.GetNext | mod13/hw/PlaylistNode.cpp:130-133 | reads the next pointer and changes nothing; its value is fixed by the constructors and set by SetNext and InsertAfter |
| Playlist.PlaylistNode.SetNext | mod13/hw/PlaylistNode.cpp:70-73 | GetNext returns the argument; the ID, song name, artist and length are unchanged; only the next-pointer field may be written |
| Playlist.PlaylistNode.InsertAfter | mod13/hw/PlaylistNode.cpp:55-61 | the inserted node points at the receiver's old successor, and the receiver points at the inserted node (unless the two are the same node); splicing a node that is not already in a well-formed chain right after the receiver, wherever the receiver stands, gives a well-formed chain |

## Left out

- Console output is not modelled: the "already empty" messages of
  deleteFirst and deleteLast, the base-class stubs that print an error for the
  fifth-element operations (assignment_03.cpp:64-71), `checkTest`, the
  `pressAnyKeyToContinue` prompt and `main`.
- Memory management is not modelled: the destructor, `delete` of removed
  nodes and the commented-out DestructorTester checks. Dafny is
  garbage-collected.
- The base/derived split is merged into one class. The base-class stubs are
  never reached, because every test calls the derived class.
- LinkedList.SinglyLinkedList.GetFifthElement, InsertNewFifthElement,
  DeleteFifthElement and SwapFourthAndFifthElement require a non-empty list:
  the C++ code dereferences `first` before any check.
- LinkedList.SinglyLinkedList.DeleteFifthElement also excludes a list of
  exactly four nodes, where the C++ code dereferences a null fifth node.
- LinkedList.SinglyLinkedList.SwapFourthAndFifthElement also excludes lists
  of exactly three or four nodes, where the C++ code dereferences a null
  fourth or fifth node.
- Positional.SwappedFourthFifth: its value on an empty list and on lists of
  three or four elements (the list unchanged) describes no behaviour; the C++
  code dereferences a null node there, and SwapFourthAndFifthElement requires
  those lengths away.
- Positional.SwapFourthFifthMultiset and Positional.SwapFourthFifthInvolution
  are stated only for the lengths the C++ code handles (not empty, not three
  or four).
- Positional.FifthOf, Positional.InsertedFifth and Positional.DeletedFifth
  give no value on an empty list (and DeletedFifth none on a list of exactly
  four), where the C++ code dereferences a null node.
- LinkedList.SinglyLinkedList: `count` is an unbounded integer. A 32-bit
  `int` overflow after about 2^31 insertions is not modelled.
- LinkedList.SinglyLinkedList.GetStringFromList abstracts the formatting of
  one element by `stringstream` as the parameter `show`. The decimal
  formatting of `int` is not modelled, so the C++ tests' expected texts
  are stated as the rendering of the expected element sequence, not as string
  literals.
- Playlist.PlaylistNode.InsertAfter: the C++ `nodePtr` is dereferenced
  without a check, so the model's parameter is a non-null reference.
- `PrintPlaylistNode` is console output only and is not part of this model.
- The C declarations in `cs2250-c-c++/mod10/hw/Playlist/PlaylistNode.h` and
  the files `main.cpp`, `movie_list.cpp` and `ws10-virtual_functions.cpp` are
  not part of this model.
