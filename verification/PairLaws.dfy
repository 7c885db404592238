/** The laws of the pair codec: what decodes, to what, and where an error stops. */
module PairLaws {
  import opened Prelude
  import opened LittleEndian
  import opened Pairs

  lemma WholeWithoutLast(data: Bytes, count: nat, fewer: seq<Pair>, last: Pair)
    requires Whole(data, count, fewer + [last])
    ensures Whole(data, count, fewer)
  {
    hide Data, Table, Lengths, Body;
    var pairs := fewer + [last];
    assert last in pairs && forall p :: p in fewer ==> p in pairs;
    OneMore(fewer, last);
    var table := data[COUNT_SIZE..TableEnd(|pairs|)];
    assert table[..|Table(fewer)|] == data[COUNT_SIZE..TableEnd(|fewer|)];
    assert Table(pairs)[..|Table(fewer)|] == Table(fewer);
    assert Data(fewer) <= Data(pairs) <= data[TableEnd(count)..];
  }

  lemma {:induction false} PrefixOfWhole(data: Bytes, count: nat, pairs: seq<Pair>, n: nat)
    requires Whole(data, count, pairs) && n <= |pairs|
    ensures Whole(data, count, pairs[..n])
    decreases |pairs|
  {
    if n < |pairs| {
      var fewer := pairs[..|pairs| - 1];
      assert pairs == fewer + [pairs[|pairs| - 1]];
      WholeWithoutLast(data, count, fewer, pairs[|pairs| - 1]);
      PrefixOfWhole(data, count, fewer, n);
      assert fewer[..n] == pairs[..n];
    } else {
      assert pairs[..n] == pairs;
    }
  }

  /** Every declared pair is whole, and nothing follows the last one. */
  ghost predicate Complete(data: Bytes, count: nat, pairs: seq<Pair>) {
    Whole(data, count, pairs) && |pairs| == count && Reached(count, pairs) == |data|
  }

  lemma DecodeStep(data: Bytes, count: nat, i: nat, pos: nat, p: Pair, rest: seq<Pair>)
    requires i < count && TableEnd(count) <= |data| && pos <= |data|
    ensures DecodeFrom(data, count, i, pos) == Ok([p] + rest) <==>
      TakePair(data, i, pos) == Ok(p) && DecodeFrom(data, count, i + 1, pos + |Body(p)|) == Ok(rest)
  {
    hide TakePair, Body;
    var next := TakePair(data, i, pos);
    if next.Ok? {
      var after := DecodeFrom(data, count, i + 1, pos + |Body(next.value)|);
      if after.Ok? {
        assert ([next.value] + after.value)[0] == next.value && ([next.value] + after.value)[1..] == after.value;
        assert ([p] + rest)[0] == p && ([p] + rest)[1..] == rest;
      }
    }
  }

  lemma FailStep(data: Bytes, count: nat, i: nat, pos: nat)
    requires i < count && TableEnd(count) <= |data| && pos <= |data|
    ensures match TakePair(data, i, pos)
      case Err(error) => DecodeFrom(data, count, i, pos) == Err(error)
      case Ok(p) =>
        var after := DecodeFrom(data, count, i + 1, pos + |Body(p)|);
        after.Err? == DecodeFrom(data, count, i, pos).Err? && (after.Err? ==> DecodeFrom(data, count, i, pos) == after)
  {
    hide TakePair, Body;
  }

  /** The decoder answers the rest of the pairs exactly when they complete the
      pairs before them. */
  lemma {:induction false} DecodesTheRest(data: Bytes, count: nat, pairs: seq<Pair>, rest: seq<Pair>)
    requires Whole(data, count, pairs)
    ensures DecodeFrom(data, count, |pairs|, Reached(count, pairs)) == Ok(rest) <==> Complete(data, count, pairs + rest)
    decreases count - |pairs|
  {
    hide TakePair, Body, Data, Table;
    if |pairs| == count {
      assert rest == [] ==> pairs + rest == pairs;
    } else if rest != [] {
      var p := rest[0];
      assert rest == [p] + rest[1..] && pairs + rest == pairs + [p] + rest[1..];
      NextWhole(data, count, pairs, p);
      DecodeStep(data, count, |pairs|, Reached(count, pairs), p, rest[1..]);
      if Whole(data, count, pairs + [p]) {
        OneMoreReached(data, count, pairs, p);
        DecodesTheRest(data, count, pairs + [p], rest[1..]);
      } else {
        assert (pairs + rest)[..|pairs| + 1] == pairs + [p];
        if Whole(data, count, pairs + rest) {
          PrefixOfWhole(data, count, pairs + rest, |pairs| + 1);
        }
      }
    } else {
      NoneLeft(data, count, |pairs|, Reached(count, pairs));
    }
  }

  lemma NoneLeft(data: Bytes, count: nat, i: nat, pos: nat)
    requires i < count && TableEnd(count) <= |data| && pos <= |data|
    ensures DecodeFrom(data, count, i, pos) != Ok([])
  {
    hide TakePair, Body;
  }

  lemma OneMoreReached(data: Bytes, count: nat, pairs: seq<Pair>, p: Pair)
    requires Whole(data, count, pairs) && Whole(data, count, pairs + [p])
    ensures Reached(count, pairs + [p]) == Reached(count, pairs) + |Body(p)|
  {
    assert (pairs + [p])[..|pairs|] == pairs;
  }

  lemma NothingIsWhole(data: Bytes, count: nat)
    requires TableEnd(count) <= |data|
    ensures Whole(data, count, []) && Reached(count, []) == TableEnd(count)
  {
  }

  /** Bytes with a count are complete exactly when they are the encoding. */
  lemma CompleteIsEncoded(data: Bytes, pairs: seq<Pair>)
    requires |data| >= COUNT_SIZE && pairs != []
    ensures Complete(data, FromLe32(data[..COUNT_SIZE]), pairs) <==> Fits(pairs) && data == Encode(pairs)
  {
    hide Data, Table, FromLe32, Le32;
    var word := data[..COUNT_SIZE];
    var count := FromLe32(word);
    WordOfItsBytes(word);
    if Complete(data, count, pairs) {
      assert data == word + data[COUNT_SIZE..TableEnd(count)] + data[TableEnd(count)..];
      assert data[TableEnd(count)..] == Data(pairs);
    }
    if Fits(pairs) && data == Encode(pairs) {
      assert word == Le32(|pairs|);
      assert data[COUNT_SIZE..TableEnd(count)] == Table(pairs);
      assert data[TableEnd(count)..] == Data(pairs);
    }
  }

  /** With no limits, bytes decode to `pairs` exactly when they are the encoding of
      `pairs`, or `pairs` is empty and they are one zero byte or four. */
  lemma DecodingIsCanonical(data: Bytes, pairs: seq<Pair>)
    ensures Decode(data, UNLIMITED) == Ok(pairs) <==>
      Fits(pairs) && (data == Encode(pairs) || (pairs == [] && (data == [0] || data == [0, 0, 0, 0])))
  {
    if |data| >= COUNT_SIZE {
      var count := FromLe32(data[..COUNT_SIZE]);
      if TableEnd(count) <= |data| {
        NothingIsWhole(data, count);
        DecodesTheRest(data, count, [], pairs);
        assert [] + pairs == pairs;
      }
      if pairs == [] {
        WordOfItsBytes(data[..COUNT_SIZE]);
        assert Le32(0) == [0, 0, 0, 0];
        assert data == data[..COUNT_SIZE] + data[COUNT_SIZE..];
      } else {
        CompleteIsEncoded(data, pairs);
      }
    } else if Fits(pairs) && pairs != [] {
      assert |Encode(pairs)| >= COUNT_SIZE;
    }
  }

  /** Decoding undoes encoding, for every list that the format can hold. */
  lemma RoundTrip(pairs: seq<Pair>)
    requires Fits(pairs)
    ensures Decode(Encode(pairs), UNLIMITED) == Ok(pairs)
  {
    DecodingIsCanonical(Encode(pairs), pairs);
  }

  /** Two lists have one encoding only when they are one list. */
  lemma EncodingIsInjective(a: seq<Pair>, b: seq<Pair>)
    requires Fits(a) && Fits(b) && Encode(a) == Encode(b)
    ensures a == b
  {
    RoundTrip(a);
    RoundTrip(b);
  }

  /** A limit refuses and changes no answer: the byte limit by the length of the
      input, and the pair limit by the number of pairs it decodes to. */
  lemma LimitsOnlyRefuse(data: Bytes, limits: Limits, pairs: seq<Pair>)
    ensures Decode(data, limits) == Ok(pairs) <==>
      && Decode(data, UNLIMITED) == Ok(pairs)
      && (limits.bytes.None? || |data| <= limits.bytes.value)
      && (limits.pairs.None? || |pairs| <= limits.pairs.value)
  {
    if |data| >= COUNT_SIZE {
      var count := FromLe32(data[..COUNT_SIZE]);
      if TableEnd(count) <= |data| {
        NothingIsWhole(data, count);
        DecodesTheRest(data, count, [], pairs);
        assert [] + pairs == pairs;
      }
    }
  }

  /** The reserve is the largest number of pairs that is declared and of which the
      bytes after the table can hold the terminators. The pairs decoded so far never
      pass it, and for an input that decodes it is the number of its pairs. */
  lemma WholeFitsTheReserve(data: Bytes, count: nat, pairs: seq<Pair>)
    requires Whole(data, count, pairs)
    ensures |pairs| <= ReserveFor(count, |data|, TableEnd(count))
    ensures |pairs| == count ==> ReserveFor(count, |data|, TableEnd(count)) == count
    ensures forall n: nat :: n <= ReserveFor(count, |data|, TableEnd(count)) <==>
              n <= count && 2 * n <= |data| - TableEnd(count)
  {
    assert |Data(pairs)| >= 2 * |pairs|;
  }

  /** Where decoding stopped: after the pairs that are whole, at the first pair
      that is not, or past the last one. */
  ghost predicate StoppedAt(data: Bytes, count: nat, pairs: seq<Pair>, error: DecodeError) {
    && Whole(data, count, pairs)
    && Reached(count, pairs) <= |data|
    && if |pairs| == count
       then error == TrailingBytes(|data| - Reached(count, pairs)) && Reached(count, pairs) < |data|
       else TakePair(data, |pairs|, Reached(count, pairs)) == Err(error)
  }

  lemma {:induction false} StopsSomewhere(data: Bytes, count: nat, pairs: seq<Pair>) returns (all: seq<Pair>)
    requires Whole(data, count, pairs)
    requires DecodeFrom(data, count, |pairs|, Reached(count, pairs)).Err?
    ensures StoppedAt(data, count, all, DecodeFrom(data, count, |pairs|, Reached(count, pairs)).error)
    decreases count - |pairs|
  {
    hide TakePair, Body, Data, Table;
    all := pairs;
    if |pairs| < count {
      var next := TakePair(data, |pairs|, Reached(count, pairs));
      FailStep(data, count, |pairs|, Reached(count, pairs));
      if next.Ok? {
        NextWhole(data, count, pairs, next.value);
        OneMoreReached(data, count, pairs, next.value);
        all := StopsSomewhere(data, count, pairs + [next.value]);
      }
    }
  }

  /** The error of a pair. */
  predicate OfPair(error: DecodeError) {
    error.TruncatedKey? || error.TruncatedValue? || error.MissingTerminator?
  }

  /** The error of a pair carries the number of whole pairs before it, and no pair
      more is whole. */
  lemma PairErrorCountsWholePairs(data: Bytes, limits: Limits) returns (pairs: seq<Pair>)
    requires Decode(data, limits).Err? && OfPair(Decode(data, limits).error)
    ensures |data| >= COUNT_SIZE
    ensures var count := FromLe32(data[..COUNT_SIZE]);
      && Whole(data, count, pairs)
      && |pairs| == Decode(data, limits).error.pair < count
      && forall p :: !Whole(data, count, pairs + [p])
  {
    var count := FromLe32(data[..COUNT_SIZE]);
    NothingIsWhole(data, count);
    pairs := StopsSomewhere(data, count, []);
    forall p
      ensures !Whole(data, count, pairs + [p])
    {
      NextWhole(data, count, pairs, p);
    }
  }
}
