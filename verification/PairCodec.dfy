/** The decoder and the encoder as the loops they are, proved against the format. */
module PairCodec {
  import opened Prelude
  import opened LittleEndian
  import opened Pairs
  import opened PairEncoding

  /** Where the next field starts. */
  class Cursor {
    const data: Bytes
    var pos: nat
    var pair: nat

    predicate Valid()
      reads this
    {
      pos <= |data|
    }

    constructor (data: Bytes, pos: nat)
      requires pos <= |data|
      ensures this.data == data && this.pos == pos && pair == 0 && Valid()
    {
      this.data, this.pos, pair := data, pos, 0;
    }

    /** Takes one field and its terminator, and moves past both. */
    method Take(len: u32, field: Field) returns (taken: Result<Bytes, DecodeError>)
      requires Valid()
      modifies this`pos
      ensures Valid() && taken == Pairs.Take(data, old(pos), len, pair, field)
      ensures pos == if taken.Ok? then old(pos) + len + 1 else old(pos)
    {
      var truncated := match field case Key => TruncatedKey(pair) case Value => TruncatedValue(pair);
      var end := pos + len;
      if end >= |data| {
        return Err(truncated);
      }
      if data[end] != 0 {
        return Err(MissingTerminator(pair, field));
      }
      taken := Ok(data[pos..end]);
      pos := end + 1;
    }
  }

  /** The answer for all pairs, from the pairs so far and the answer for the rest. */
  function Joined(pairs: seq<Pair>, rest: Result<seq<Pair>, DecodeError>): Result<seq<Pair>, DecodeError> {
    match rest
    case Ok(more) => Ok(pairs + more)
    case Err(error) => Err(error)
  }

  lemma JoinedWithNothing(r: Result<seq<Pair>, DecodeError>, pairs: seq<Pair>)
    ensures Joined([], r) == r && Joined(pairs, Ok([])) == Ok(pairs)
  {
    if r.Ok? {
      assert [] + r.value == r.value;
    }
    assert pairs + [] == pairs;
  }

  lemma JoinedStep(data: Bytes, count: nat, i: nat, pos: nat, pairs: seq<Pair>)
    requires i < count && TableEnd(count) <= |data| && pos <= |data|
    ensures match TakePair(data, i, pos)
      case Err(error) => Joined(pairs, DecodeFrom(data, count, i, pos)) == Err(error)
      case Ok(p) =>
        Joined(pairs, DecodeFrom(data, count, i, pos)) ==
        Joined(pairs + [p], DecodeFrom(data, count, i + 1, pos + |Body(p)|))
  {
    hide TakePair, Body;
    var next := TakePair(data, i, pos);
    if next.Ok? {
      var after := DecodeFrom(data, count, i + 1, pos + |Body(next.value)|);
      if after.Ok? {
        assert pairs + ([next.value] + after.value) == pairs + [next.value] + after.value;
      }
    }
  }

  /** One pair, its key first. */
  method TakePairAt(cursor: Cursor) returns (taken: Result<Pair, DecodeError>)
    requires cursor.Valid() && TableEnd(cursor.pair + 1) <= |cursor.data|
    modifies cursor
    ensures cursor.Valid() && taken == TakePair(cursor.data, old(cursor.pair), old(cursor.pos))
    ensures taken.Ok? ==> cursor.pos == old(cursor.pos) + |Body(taken.value)| && cursor.pair == old(cursor.pair) + 1
    ensures taken.Ok? ==> cursor.pos >= old(cursor.pos) + 2
  {
    var at := TableEnd(cursor.pair);
    var key := cursor.Take(FromLe32(cursor.data[at..at + 4]), Key);
    if key.Err? {
      return Err(key.error);
    }
    var value := cursor.Take(FromLe32(cursor.data[at + 4..at + 8]), Value);
    if value.Err? {
      return Err(value.error);
    }
    cursor.pair := cursor.pair + 1;
    return Ok(Pair(key.value, value.value));
  }

  /** Reads the pairs of a table that is inside the input. The pairs never pass the
      room that was reserved for them. */
  method DecodeTable(data: Bytes, count: u32) returns (r: Result<seq<Pair>, DecodeError>)
    requires TableEnd(count) <= |data|
    ensures r == DecodeFrom(data, count, 0, TableEnd(count))
    ensures r.Ok? ==> |r.value| == count == ReserveFor(count, |data|, TableEnd(count))
  {
    hide TakePair, Body;
    var reserved := ReserveFor(count, |data|, TableEnd(count));
    var pairs: seq<Pair> := [];
    var cursor := new Cursor(data, TableEnd(count));
    while cursor.pair < count
      invariant cursor.Valid() && cursor.data == data && cursor.pair <= count
      invariant |pairs| == cursor.pair && TableEnd(count) + 2 * |pairs| <= cursor.pos
      invariant |pairs| <= reserved
      invariant Joined(pairs, DecodeFrom(data, count, cursor.pair, cursor.pos)) ==
                Joined([], DecodeFrom(data, count, 0, TableEnd(count)))
    {
      JoinedStep(data, count, cursor.pair, cursor.pos, pairs);
      var taken := TakePairAt(cursor);
      if taken.Err? {
        JoinedWithNothing(DecodeFrom(data, count, 0, TableEnd(count)), pairs);
        return Err(taken.error);
      }
      pairs := pairs + [taken.value];
    }
    JoinedWithNothing(DecodeFrom(data, count, 0, TableEnd(count)), pairs);
    var remaining := |data| - cursor.pos;
    if remaining > 0 {
      return Err(TrailingBytes(remaining));
    }
    return Ok(pairs);
  }

  method DecodePairs(data: Bytes, limits: Limits) returns (r: Result<seq<Pair>, DecodeError>)
    ensures r == Decode(data, limits)
  {
    var tooLong := limits.CheckBytes(|data|);
    if tooLong.Some? {
      return Err(tooLong.value);
    }
    if data == [] || data == [0] {
      return Ok([]);
    }
    if |data| < COUNT_SIZE {
      return Err(TruncatedCount);
    }
    var count := FromLe32(data[..COUNT_SIZE]);
    var tooMany := limits.CheckPairs(count);
    if tooMany.Some? {
      return Err(tooMany.value);
    }
    if TableEnd(count) > |data| {
      return Err(TruncatedLengths(count));
    }
    r := DecodeTable(data, count);
  }

  // ---- Encoding ----

  function LengthsIn(p: Pair): (u32, u32)
    requires PairFits(p)
  {
    var key: u32, value: u32 := |p.key|, |p.value|;
    (key, value)
  }

  function LengthsOf(pairs: seq<Pair>): (r: seq<(u32, u32)>)
    requires forall p :: p in pairs ==> PairFits(p)
  {
    seq(|pairs|, i requires 0 <= i < |pairs| => assert pairs[i] in pairs; LengthsIn(pairs[i]))
  }

  lemma MeasuresOneMore(walk: seq<Pair>, i: nat)
    requires i < |walk|
    ensures var soFar, more := Recorded(walk[..i]), Recorded(walk[..i + 1]);
      var error := TooLongIn(walk[i], |soFar|);
      && Failure(walk[..i + 1]) == (if error.Some? then error else Failure(walk[..i]))
      && LengthsOf(more) ==
         if error.Some? then LengthsOf(soFar) else LengthsOf(soFar) + [(|walk[i].key|, |walk[i].value|)]
  {
    assert walk[..i + 1][..i] == walk[..i] && walk[..i + 1][i] == walk[i];
  }

  /** The first walk: the lengths of every pair, or the failure of the last pair
      that is too long. */
  method Measure(walk: seq<Pair>) returns (r: Result<seq<(u32, u32)>, EncodeError>)
    ensures r == if Failure(walk).Some? then Err(Failure(walk).value) else Ok(LengthsOf(walk))
  {
    hide Recorded, Failure, LengthsOf;
    var lengths: seq<(u32, u32)> := [];
    var failure: Option<EncodeError> := None;
    var i := 0;
    MeasuresNothing();
    assert walk[..0] == [];
    while i < |walk|
      invariant i <= |walk| && failure == Failure(walk[..i]) && lengths == LengthsOf(Recorded(walk[..i]))
      invariant |lengths| == |Recorded(walk[..i])|
    {
      MeasuresOneMore(walk, i);
      var error := TooLongIn(walk[i], |lengths|);
      if error.Some? {
        failure := error;
      } else {
        lengths := lengths + [(|walk[i].key|, |walk[i].value|)];
      }
      i := i + 1;
      LengthsAreAsMany(Recorded(walk[..i]));
    }
    assert walk[..i] == walk;
    return if failure.Some? then Err(failure.value) else Ok(lengths);
  }

  lemma MeasuresNothing()
    ensures Failure([]).None? && LengthsOf(Recorded([])) == [] && Recorded([]) == []
  {
  }

  lemma LengthsAreAsMany(pairs: seq<Pair>)
    requires forall p :: p in pairs ==> PairFits(p)
    ensures |LengthsOf(pairs)| == |pairs|
  {
  }

  /** The size of the whole output, or nothing when no size can hold it. */
  method CheckedSize(lengths: seq<(u32, u32)>, ghost pairs: seq<Pair>) returns (size: Option<nat>)
    requires (forall p :: p in pairs ==> PairFits(p)) && lengths == LengthsOf(pairs)
    ensures size == if Size(pairs) > USIZE_MAX then None else Some(Size(pairs))
  {
    var sum := COUNT_SIZE;
    var i := 0;
    while i < |lengths|
      invariant i <= |lengths| && sum == Size(pairs[..i]) <= USIZE_MAX
    {
      SizeGrows(pairs, i);
      sum := sum + PairEncodedSize(lengths[i].0, lengths[i].1);
      i := i + 1;
      if sum > USIZE_MAX {
        SizeIsAtLeast(pairs, i);
        return None;
      }
    }
    assert pairs[..i] == pairs;
    return Some(sum);
  }

  lemma SizeGrows(pairs: seq<Pair>, i: nat)
    requires i < |pairs| && forall p :: p in pairs ==> PairFits(p)
    ensures Size(pairs[..i + 1]) == Size(pairs[..i]) + PairEncodedSize(|pairs[i].key|, |pairs[i].value|)
  {
    assert pairs[..i + 1][..i] == pairs[..i] && pairs[..i + 1][i] == pairs[i];
  }

  lemma {:induction false} SizeIsAtLeast(pairs: seq<Pair>, i: nat)
    requires i <= |pairs| && forall p :: p in pairs ==> PairFits(p)
    ensures Size(pairs[..i]) <= Size(pairs)
    decreases |pairs| - i
  {
    if i < |pairs| {
      SizeGrows(pairs, i);
      SizeIsAtLeast(pairs, i + 1);
    } else {
      assert pairs[..i] == pairs;
    }
  }

  /** The header: the count and the table of the lengths. */
  method WriteTable(lengths: seq<(u32, u32)>, ghost pairs: seq<Pair>) returns (out: Bytes)
    requires Fits(pairs) && lengths == LengthsOf(pairs)
    ensures out == Le32(|pairs|) + Table(pairs)
  {
    out := Le32(|lengths|);
    var i := 0;
    while i < |lengths|
      invariant i <= |lengths| && out == Le32(|lengths|) + Table(pairs[..i])
    {
      assert pairs[..i + 1] == pairs[..i] + [pairs[i]];
      OneMore(pairs[..i], pairs[i]);
      out := out + Le32(lengths[i].0) + Le32(lengths[i].1);
      i := i + 1;
    }
    assert pairs[..i] == pairs;
  }

  /** Encodes what two walks of one source gave. The second walk is cut at the
      number of pairs of the first, and its total is compared. */
  method EncodeVisited(first: seq<Pair>, second: seq<Pair>) returns (r: Result<Bytes, EncodeError>)
    ensures r == EncodeWalks(first, second)
  {
    var measured := Measure(first);
    if measured.Err? {
      return Err(measured.error);
    }
    var lengths := measured.value;
    if lengths == [] {
      return Ok([]);
    }
    if |lengths| > U32_MAX {
      return Err(TooManyPairs(|lengths|));
    }
    var size := CheckedSize(lengths, first);
    if size.None? {
      return Err(TooLarge);
    }
    hide Data, Table, Le32, Size;
    var out := WriteTable(lengths, first);
    out := WritePairs(out, second, |lengths|);
    return if |out| == size.value then Ok(out) else Err(Changed);
  }

  lemma DataGrows(pairs: seq<Pair>, i: nat)
    requires i < |pairs|
    ensures Data(pairs[..i + 1]) == Data(pairs[..i]) + Body(pairs[i])
  {
    assert pairs[..i + 1][..i] == pairs[..i] && pairs[..i + 1][i] == pairs[i];
  }

  /** The second walk: nothing past the number of pairs that were measured. */
  method WritePairs(head: Bytes, walk: seq<Pair>, measured: nat) returns (out: Bytes)
    ensures out == head + Data(if |walk| <= measured then walk else walk[..measured])
  {
    hide Data;
    out := head;
    var written := 0;
    var i := 0;
    assert walk[..0] == [];
    assert Data([]) == [] by {
      NoData();
    }
    while i < |walk|
      invariant i <= |walk| && written == Min(i, measured)
      invariant out == head + Data(walk[..written])
    {
      if written < measured {
        DataGrows(walk, i);
        ghost var before := out;
        out := out + walk[i].key + [0] + walk[i].value + [0];
        assert out == before + Body(walk[i]);
        assert out == head + (Data(walk[..i]) + Body(walk[i]));
        written := written + 1;
      }
      i := i + 1;
    }
    assert walk[..written] == if |walk| <= measured then walk else walk[..measured];
  }

  lemma NoData()
    ensures Data([]) == []
  {
  }
}
