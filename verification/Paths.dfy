/** The wire format of a property path: segments with a zero byte between them. */
module Paths {
  import opened Prelude
  import opened LittleEndian

  type Segments = seq<Bytes>

  const SEPARATOR: byte := 0

  function EncodePath(segments: Segments): Bytes {
    if segments == [] then []
    else if |segments| == 1 then segments[0]
    else segments[0] + [SEPARATOR] + EncodePath(segments[1..])
  }

  /** The place of the first separator, or the length when there is none. */
  function FirstSeparator(data: Bytes): (n: nat)
    ensures n <= |data| && (n < |data| ==> data[n] == SEPARATOR)
    ensures forall i :: 0 <= i < n ==> data[i] != SEPARATOR
  {
    if data == [] || data[0] == SEPARATOR then 0 else 1 + FirstSeparator(data[1..])
  }

  function Split(data: Bytes): (r: Segments)
    ensures r != []
    decreases |data|
  {
    var n := FirstSeparator(data);
    if n == |data| then [data] else [data[..n]] + Split(data[n + 1..])
  }

  /** The data without one separator at its end. */
  function Trimmed(data: Bytes): Bytes {
    if data != [] && data[|data| - 1] == SEPARATOR then data[..|data| - 1] else data
  }

  function DecodePath(data: Bytes): Segments {
    var trimmed := Trimmed(data);
    if trimmed == [] then [] else Split(trimmed)
  }

  predicate NulFree(segment: Bytes) {
    0 !in segment
  }

  predicate AllNulFree(segments: Segments) {
    forall s :: s in segments ==> NulFree(s)
  }

  // ---- Decoding first ----

  lemma {:induction false} JoinUndoesSplit(data: Bytes)
    ensures EncodePath(Split(data)) == data && AllNulFree(Split(data))
    decreases |data|
  {
    var n := FirstSeparator(data);
    if n < |data| {
      var rest := Split(data[n + 1..]);
      JoinUndoesSplit(data[n + 1..]);
      assert ([data[..n]] + rest)[1..] == rest;
      assert data == data[..n] + [SEPARATOR] + data[n + 1..];
    }
  }

  /** The segments with one zero byte after each but the last. */
  function Joined(segments: Segments): Bytes {
    if segments == [] then []
    else if |segments| == 1 then segments[0]
    else Joined(segments[..|segments| - 1]) + [0] + segments[|segments| - 1]
  }

  lemma {:induction false} JoinedGrows(segments: Segments)
    requires |segments| >= 2
    ensures Joined(segments) == segments[0] + [0] + Joined(segments[1..])
    decreases |segments|
  {
    if |segments| > 2 {
      var fewer := segments[..|segments| - 1];
      JoinedGrows(fewer);
      assert fewer[1..] == segments[1..][..|segments| - 2];
    } else {
      assert segments[..1] == [segments[0]] && segments[1..] == [segments[1]];
    }
  }

  /** The encoding is the segments with a zero byte between them. */
  lemma {:induction false} EncodeJoins(segments: Segments)
    ensures EncodePath(segments) == Joined(segments)
    decreases |segments|
  {
    if |segments| >= 2 {
      JoinedGrows(segments);
      EncodeJoins(segments[1..]);
    }
  }

  /** The data without one zero byte at its end. */
  function WithoutFinalZero(data: Bytes): Bytes {
    if |data| > 0 && data[|data| - 1] == 0 then data[..|data| - 1] else data
  }

  lemma {:induction false} ZerosOfJoined(segments: Segments)
    requires AllNulFree(segments) && segments != []
    ensures multiset(Joined(segments))[0] == |segments| - 1
    decreases |segments|
  {
    var last := segments[|segments| - 1];
    assert last in segments;
    if |segments| >= 2 {
      var fewer := segments[..|segments| - 1];
      ZerosOfJoined(fewer);
      assert multiset(Joined(fewer) + [0] + last) == multiset(Joined(fewer)) + multiset([0]) + multiset(last);
    }
  }

  /** For all bytes: the segments joined with zero bytes are the data without one zero
      byte at its end, no segment holds a zero byte, and there is one segment more
      than zero bytes in that data, or none when nothing is left. */
  lemma EncodeUndoesDecode(data: Bytes)
    ensures Joined(DecodePath(data)) == EncodePath(DecodePath(data)) == WithoutFinalZero(data)
    ensures forall segment :: segment in DecodePath(data) ==> 0 !in segment
    ensures |DecodePath(data)| ==
      if WithoutFinalZero(data) == [] then 0 else multiset(WithoutFinalZero(data))[0] + 1
  {
    JoinUndoesSplit(Trimmed(data));
    EncodeJoins(DecodePath(data));
    if DecodePath(data) != [] {
      ZerosOfJoined(DecodePath(data));
    }
  }

  /** Two paths decode alike exactly when they differ in that zero byte alone. */
  lemma DecodesAlike(a: Bytes, b: Bytes)
    ensures DecodePath(a) == DecodePath(b) <==> WithoutFinalZero(a) == WithoutFinalZero(b)
  {
    EncodeUndoesDecode(a);
    EncodeUndoesDecode(b);
  }

  // ---- Encoding first ----

  lemma FirstSeparatorIs(data: Bytes, n: nat)
    requires n <= |data| && (n < |data| ==> data[n] == SEPARATOR)
    requires forall i :: 0 <= i < n ==> data[i] != SEPARATOR
    ensures FirstSeparator(data) == n
  {
    var found := FirstSeparator(data);
    assert n < |data| ==> data[n] == SEPARATOR;
    assert found < |data| ==> data[found] == SEPARATOR;
  }

  lemma {:induction false} SplitUndoesJoin(segments: Segments)
    requires segments != [] && AllNulFree(segments)
    ensures Split(EncodePath(segments)) == segments
    decreases |segments|
  {
    var head := segments[0];
    var data := EncodePath(segments);
    assert head in segments;
    if |segments| == 1 {
      FirstSeparatorIs(data, |head|);
    } else {
      var rest := segments[1..];
      assert data == head + [SEPARATOR] + EncodePath(rest);
      FirstSeparatorIs(data, |head|);
      assert data[..|head|] == head && data[|head| + 1..] == EncodePath(rest);
      assert AllNulFree(rest);
      SplitUndoesJoin(rest);
      assert segments == [head] + rest;
    }
  }

  /** The segments without one empty segment at the end, where one empty segment
      alone is none. */
  function WithoutEmptyEnd(segments: Segments): Segments {
    var shorter := if segments != [] && segments[|segments| - 1] == [] then segments[..|segments| - 1] else segments;
    if shorter == [[]] then [] else shorter
  }

  lemma {:induction false} EmptyEndIsASeparator(segments: Segments)
    requires AllNulFree(segments) && |segments| >= 2
    ensures segments[|segments| - 1] == [] ==>
      EncodePath(segments) == EncodePath(segments[..|segments| - 1]) + [SEPARATOR]
    ensures segments[|segments| - 1] != [] ==>
      var data := EncodePath(segments); data != [] && data[|data| - 1] != SEPARATOR
    decreases |segments|
  {
    var rest := segments[1..];
    var last := segments[|segments| - 1];
    assert last in segments;
    if |segments| == 2 {
      assert segments[..1] == [segments[0]] && rest == [last];
      if last != [] {
        assert EncodePath(segments)[|EncodePath(segments)| - 1] == last[|last| - 1];
      }
    } else {
      assert AllNulFree(rest);
      EmptyEndIsASeparator(rest);
      var fewer := segments[..|segments| - 1];
      assert fewer[1..] == rest[..|rest| - 1] && fewer[0] == segments[0];
      if last == [] {
        assert EncodePath(segments) == segments[0] + [SEPARATOR] + (EncodePath(fewer[1..]) + [SEPARATOR]);
      }
    }
  }

  /** No bytes and one empty segment are the only two lists that encode to nothing. */
  lemma EmptyEncoding(segments: Segments)
    ensures EncodePath(segments) == [] <==> segments == [] || segments == [[]]
  {
    if |segments| == 1 {
      assert segments == [segments[0]];
    }
  }

  lemma OnlySegment(segment: Bytes)
    requires NulFree(segment)
    ensures DecodePath(EncodePath([segment])) == WithoutEmptyEnd([segment])
  {
    if segment != [] {
      assert segment[|segment| - 1] in segment;
      assert AllNulFree([segment]);
      SplitUndoesJoin([segment]);
    } else {
      assert [segment][..0] == [];
    }
  }

  /** For all segments with no zero byte inside: decoding what they encode to gives
      them back without one empty segment at the end. */
  lemma DecodeUndoesEncode(segments: Segments)
    requires forall segment :: segment in segments ==> 0 !in segment
    ensures DecodePath(EncodePath(segments)) == WithoutEmptyEnd(segments)
  {
    if |segments| == 1 {
      assert segments == [segments[0]] && segments[0] in segments;
      OnlySegment(segments[0]);
    } else if |segments| > 1 {
      EmptyEndIsASeparator(segments);
      var fewer := segments[..|segments| - 1];
      var data := EncodePath(segments);
      if segments[|segments| - 1] == [] {
        assert Trimmed(data) == EncodePath(fewer);
        assert AllNulFree(fewer);
        EmptyEncoding(fewer);
        SplitUndoesJoin(fewer);
      } else {
        SplitUndoesJoin(segments);
      }
    }
  }

  /** The two are inverses exactly when the last segment is not empty. */
  lemma InverseExactlyWhen(segments: Segments)
    requires AllNulFree(segments)
    ensures DecodePath(EncodePath(segments)) == segments <==> segments == [] || segments[|segments| - 1] != []
  {
    DecodeUndoesEncode(segments);
    if segments != [] && segments[|segments| - 1] == [] {
      assert |WithoutEmptyEnd(segments)| < |segments|;
    }
  }
}
