/**
 A song entry of a playlist, as a singly-linked node: an identifier, a song
 name, an artist name, a length in seconds and a pointer to the next entry.
 The getters are field reads and change nothing; SetNext and InsertAfter
 rewrite next pointers in place.
 */
module Playlist {

  class PlaylistNode {
    var uniqueID: string
    var songName: string
    var artistName: string
    var songLength: int
    var nextNodePtr: PlaylistNode?

    /** The text every string field holds after default construction. */
    static const NoneText: string := "none"

    /** Default constructor: every string is "none", the length 0 and the
        next pointer null. */
    constructor Default()
      ensures GetID() == NoneText && GetSongName() == NoneText && GetArtistName() == NoneText
      ensures GetSongLength() == 0
      ensures GetNext() == null
    {
      uniqueID := NoneText;
      songName := NoneText;
      artistName := NoneText;
      songLength := 0;
      nextNodePtr := null;
    }

    /** Parameterised constructor: each argument lands in its own field. */
    constructor (initID: string, initSongName: string, initArtistName: string,
                 initSongLength: int, nextLoc: PlaylistNode?)
      ensures GetID() == initID && GetSongName() == initSongName
      ensures GetArtistName() == initArtistName && GetSongLength() == initSongLength
      ensures GetNext() == nextLoc
    {
      uniqueID := initID;
      songName := initSongName;
      artistName := initArtistName;
      songLength := initSongLength;
      nextNodePtr := nextLoc;
    }

    function GetID(): string
      reads this
    {
      uniqueID
    }

    function GetSongName(): string
      reads this
    {
      songName
    }

    function GetArtistName(): string
      reads this
    {
      artistName
    }

    function GetSongLength(): int
      reads this
    {
      songLength
    }

    function GetNext(): PlaylistNode?
      reads this
    {
      nextNodePtr
    }

    /** `chain` is a null-terminated run of distinct nodes, each pointing at
        the one after it. */
    static ghost predicate IsChain(chain: seq<PlaylistNode>)
      reads chain
    {
      && (forall i, j :: 0 <= i < j < |chain| ==> chain[i] != chain[j])
      && (forall i :: 0 <= i < |chain| - 1 ==> chain[i].nextNodePtr == chain[i + 1])
      && (chain != [] ==> chain[|chain| - 1].nextNodePtr == null)
    }

    /** Replaces the next pointer and nothing else. */
    method SetNext(nodePtr: PlaylistNode?)
      modifies this`nextNodePtr
      ensures GetNext() == nodePtr
      ensures GetID() == old(GetID()) && GetSongName() == old(GetSongName())
      ensures GetArtistName() == old(GetArtistName()) && GetSongLength() == old(GetSongLength())
    {
      nextNodePtr := nodePtr;
    }

    /** Splices nodePtr in right after this node, wherever this node stands
        in its chain: nodePtr takes over this node's old successor and this
        node points at nodePtr. When nodePtr is this node itself the two
        writes cancel out. The ghost parameters name a chain through this
        node (at index k) so that the effect on the whole sequence of nodes
        can be stated. */
    method InsertAfter(nodePtr: PlaylistNode, ghost chain: seq<PlaylistNode>, ghost k: nat)
      modifies this`nextNodePtr, nodePtr`nextNodePtr
      ensures nodePtr.GetNext() == old(GetNext())
      ensures nodePtr != this ==> GetNext() == nodePtr
      ensures old(IsChain(chain)) && k < |chain| && chain[k] == this && nodePtr !in chain ==>
                IsChain(chain[..k + 1] + [nodePtr] + chain[k + 1..])
    {
      var tmpNext: PlaylistNode? := null;
      tmpNext := this.nextNodePtr;
      this.nextNodePtr := nodePtr;
      nodePtr.nextNodePtr := tmpNext;
      if old(IsChain(chain)) && k < |chain| && chain[k] == this && nodePtr !in chain {
        var spliced := chain[..k + 1] + [nodePtr] + chain[k + 1..];
        forall i | 0 <= i < |spliced| - 1
          ensures spliced[i].nextNodePtr == spliced[i + 1]
        {
          if i < k {
            assert spliced[i] == chain[i] && spliced[i + 1] == chain[i + 1];
            assert old(chain[i].nextNodePtr) == chain[i + 1];
          } else if i > k + 1 {
            assert spliced[i] == chain[i - 1] && spliced[i + 1] == chain[i];
            assert old(chain[i - 1].nextNodePtr) == chain[i];
          } else if i == k + 1 && k + 1 < |chain| {
            assert old(chain[k].nextNodePtr) == chain[k + 1];
          }
        }
        forall i, j | 0 <= i < j < |spliced|
          ensures spliced[i] != spliced[j]
        {
          var i' := if i <= k then i else i - 1;
          var j' := if j <= k then j else j - 1;
          if i == k + 1 {
            assert spliced[i] == nodePtr && spliced[j] == chain[j'];
          } else if j == k + 1 {
            assert spliced[j] == nodePtr && spliced[i] == chain[i'];
          } else {
            assert spliced[i] == chain[i'] && spliced[j] == chain[j'];
          }
        }
        if k + 1 == |chain| {
          assert old(chain[k].nextNodePtr) == null;
        }
      }
    }
  }
}
