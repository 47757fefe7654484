/** Room identifiers: six characters, each drawn uniformly from the upper-case
    letters and the digits (server.js `generateRoomId`). The random draws are
    the input: one alphabet index per character. */
module RoomIds {

  /** The alphabet, in the order the source lists it. */
  const Chars: string := "ABCDEFGHIJKLMNOPQRSTUVWXYZ0123456789"

  /** Length of a generated room id. */
  const IdLength: nat := 6

  /** `Math.floor(Math.random() * chars.length)`: an index into `Chars`. */
  type CharIndex = i: nat | i < 36

  /** The six random indices consumed by one call. */
  type IdDraw = s: seq<CharIndex> | |s| == 6 witness [0, 0, 0, 0, 0, 0]

  predicate IsIdChar(c: char) {
    'A' <= c <= 'Z' || '0' <= c <= '9'
  }

  /** Every character of the alphabet is an id character. */
  lemma CharsAreIdChars()
    ensures |Chars| == 36
    ensures forall i :: 0 <= i < |Chars| ==> IsIdChar(Chars[i])
  {
  }

  /** Position of an id character in `Chars`: letters first, then digits. */
  function IndexOf(c: char): (i: CharIndex)
    requires IsIdChar(c)
  {
    if 'A' <= c <= 'Z' then (c as int - 'A' as int) else 26 + (c as int - '0' as int)
  }

  /** The id the six draws produce: character `k` is `Chars[draw[k]]`. */
  function RoomIdOf(draw: IdDraw): (id: string)
    ensures |id| == IdLength
    ensures forall k :: 0 <= k < |id| ==> IsIdChar(id[k])
  {
    CharsAreIdChars();
    seq(6, k requires 0 <= k < 6 => Chars[draw[k]])
  }

  /** `generateRoomId`: the source's loop, appending one character per draw. */
  method GenerateRoomId(draw: IdDraw) returns (result: string)
    ensures result == RoomIdOf(draw)
    ensures |result| == IdLength
    ensures forall k :: 0 <= k < |result| ==> IsIdChar(result[k])
  {
    result := "";
    var i := 0;
    while i < 6
      invariant 0 <= i <= 6
      invariant |result| == i
      invariant forall k :: 0 <= k < i ==> result[k] == Chars[draw[k]]
    {
      result := result + [Chars[draw[i]]];
      i := i + 1;
    }
  }

  /** Recovers the draws from an id. */
  function DrawOf(id: string): (draw: seq<CharIndex>)
    requires forall k :: 0 <= k < |id| ==> IsIdChar(id[k])
    ensures |draw| == |id|
  {
    seq(|id|, k requires 0 <= k < |id| => IndexOf(id[k]))
  }

  /** Decoding a generated id gives back its draws. */
  lemma DrawOfRoomIdOf(draw: IdDraw)
    ensures DrawOf(RoomIdOf(draw)) == draw
  {
  }

  /** Distinct draws give distinct ids, so all 36^6 ids are reachable
      and two creations collide only when their draws coincide. */
  lemma RoomIdOfInjective(d1: IdDraw, d2: IdDraw)
    requires RoomIdOf(d1) == RoomIdOf(d2)
    ensures d1 == d2
  {
    DrawOfRoomIdOf(d1);
    DrawOfRoomIdOf(d2);
  }
}
