/** The wire format of a header map, and what its decoder and its encoder answer,
    as functions. */
module Pairs {
  import opened Prelude
  import opened LittleEndian

  const COUNT_SIZE: nat := 4
  const LENGTH_SIZE: nat := 4

  datatype Pair = Pair(key: Bytes, value: Bytes)

  datatype Field = Key | Value

  datatype DecodeError =
    | TruncatedCount
    | TruncatedLengths(pairs: u32)
    | TruncatedKey(pair: nat)
    | TruncatedValue(pair: nat)
    | MissingTerminator(pair: nat, field: Field)
    | TrailingBytes(count: nat)
    | PairLimit(pairs: u32, limit: u32)
    | ByteLimit(bytes: nat, byteLimit: nat)

  datatype Limits = Limits(pairs: Option<u32>, bytes: Option<nat>) {
    function CheckBytes(len: nat): Option<DecodeError> {
      if bytes.Some? && len > bytes.value then Some(ByteLimit(len, bytes.value)) else None
    }

    function CheckPairs(count: u32): Option<DecodeError> {
      if pairs.Some? && count > pairs.value then Some(PairLimit(count, pairs.value)) else None
    }
  }

  const UNLIMITED: Limits := Limits(None, None)

  // ---- The format ----

  predicate FieldFits(field: Bytes) {
    |field| <= U32_MAX
  }

  predicate PairFits(p: Pair) {
    FieldFits(p.key) && FieldFits(p.value)
  }

  /** Every count and length that the format holds fits its 32 bits. */
  predicate Fits(pairs: seq<Pair>) {
    |pairs| <= U32_MAX && forall p :: p in pairs ==> PairFits(p)
  }

  function Lengths(p: Pair): (w: Bytes)
    requires PairFits(p)
    ensures |w| == 2 * LENGTH_SIZE
  {
    Le32(|p.key|) + Le32(|p.value|)
  }

  function Body(p: Pair): Bytes {
    p.key + [0] + p.value + [0]
  }

  /** The length table. */
  function Table(pairs: seq<Pair>): (w: Bytes)
    requires forall p :: p in pairs ==> PairFits(p)
    ensures |w| == 2 * LENGTH_SIZE * |pairs|
  {
    if pairs == [] then [] else Table(pairs[..|pairs| - 1]) + Lengths(pairs[|pairs| - 1])
  }

  /** The keys and the values, each with its terminator. */
  function Data(pairs: seq<Pair>): (w: Bytes)
    ensures |w| >= 2 * |pairs|
  {
    if pairs == [] then [] else Data(pairs[..|pairs| - 1]) + Body(pairs[|pairs| - 1])
  }

  /** The encoding of a list of pairs, in one pass. */
  function Encode(pairs: seq<Pair>): Bytes
    requires Fits(pairs)
  {
    if pairs == [] then [] else Le32(|pairs|) + Table(pairs) + Data(pairs)
  }

  // ---- Sizes ----

  /** The size of one pair, in an addition that saturates. */
  function PairEncodedSize(keyLen: nat, valueLen: nat): nat {
    SaturatingAdd(SaturatingAdd(SaturatingAdd(SaturatingAdd(2 * LENGTH_SIZE, keyLen), 1), valueLen), 1)
  }

  function TotalSize(count: nat, pairsSize: nat): nat {
    if count == 0 then 0 else SaturatingAdd(COUNT_SIZE, pairsSize)
  }

  /** The pairs a decoder reserves room for. */
  function ReserveFor(pairCount: nat, dataLen: nat, tableEnd: nat): nat {
    Min(pairCount, (if dataLen > tableEnd then dataLen - tableEnd else 0) / 2)
  }

  // ---- Decoding ----

  /** One field at `pos`, with its terminator. */
  function Take(data: Bytes, pos: nat, len: u32, pair: nat, field: Field): (r: Result<Bytes, DecodeError>)
    requires pos <= |data|
    ensures r.Ok? ==> pos + len < |data| && r.value == data[pos..pos + len] && data[pos + len] == 0
  {
    var truncated := match field case Key => TruncatedKey(pair) case Value => TruncatedValue(pair);
    if pos + len >= |data| then Err(truncated)
    else if data[pos + len] != 0 then Err(MissingTerminator(pair, field))
    else Ok(data[pos..pos + len])
  }

  function TableEnd(count: nat): nat {
    COUNT_SIZE + 2 * LENGTH_SIZE * count
  }

  /** The `i`-th entry of the length table. */
  function KeyLen(data: Bytes, i: nat): u32
    requires TableEnd(i + 1) <= |data|
  {
    FromLe32(data[TableEnd(i)..TableEnd(i) + 4])
  }

  function ValueLen(data: Bytes, i: nat): u32
    requires TableEnd(i + 1) <= |data|
  {
    FromLe32(data[TableEnd(i) + 4..TableEnd(i) + 8])
  }

  /** Pair `i`, whose key starts at `pos`. */
  function TakePair(data: Bytes, i: nat, pos: nat): (r: Result<Pair, DecodeError>)
    requires TableEnd(i + 1) <= |data| && pos <= |data|
    ensures r.Ok? ==> pos + |Body(r.value)| <= |data|
  {
    match Take(data, pos, KeyLen(data, i), i, Key)
    case Err(error) => Err(error)
    case Ok(key) =>
      match Take(data, pos + |key| + 1, ValueLen(data, i), i, Value)
      case Err(error) => Err(error)
      case Ok(value) => Ok(Pair(key, value))
  }

  /** The pairs from the `i`-th on, whose data starts at `pos`. */
  function DecodeFrom(data: Bytes, count: nat, i: nat, pos: nat): Result<seq<Pair>, DecodeError>
    requires i <= count && TableEnd(count) <= |data| && pos <= |data|
    decreases count - i
  {
    if i == count then
      if pos == |data| then Ok([]) else Err(TrailingBytes(|data| - pos))
    else
      match TakePair(data, i, pos)
      case Err(error) => Err(error)
      case Ok(pair) =>
        match DecodeFrom(data, count, i + 1, pos + |Body(pair)|)
        case Err(error) => Err(error)
        case Ok(rest) => Ok([pair] + rest)
  }

  function Decode(data: Bytes, limits: Limits): Result<seq<Pair>, DecodeError> {
    var tooLong := limits.CheckBytes(|data|);
    if tooLong.Some? then Err(tooLong.value)
    else if data == [] || data == [0] then Ok([])
    else if |data| < COUNT_SIZE then Err(TruncatedCount)
    else
      var count := FromLe32(data[..COUNT_SIZE]);
      var tooMany := limits.CheckPairs(count);
      if tooMany.Some? then Err(tooMany.value)
      else if TableEnd(count) > |data| then Err(TruncatedLengths(count))
      else DecodeFrom(data, count, 0, TableEnd(count))
  }

  // ---- What is decoded is what was encoded ----

  /** `pairs` are the first pairs that `data` holds, as its table and its data
      section tell them. */
  ghost predicate Whole(data: Bytes, count: nat, pairs: seq<Pair>) {
    && |pairs| <= count && TableEnd(count) <= |data|
    && (forall p :: p in pairs ==> PairFits(p))
    && data[COUNT_SIZE..TableEnd(|pairs|)] == Table(pairs)
    && Data(pairs) <= data[TableEnd(count)..]
  }

  /** Where the data of the next pair starts. */
  function Reached(count: nat, pairs: seq<Pair>): nat {
    TableEnd(count) + |Data(pairs)|
  }

  lemma OneMore(pairs: seq<Pair>, p: Pair)
    requires forall q :: q in pairs ==> PairFits(q)
    requires PairFits(p)
    ensures Table(pairs + [p]) == Table(pairs) + Lengths(p)
    ensures Data(pairs + [p]) == Data(pairs) + Body(p)
  {
    assert (pairs + [p])[..|pairs|] == pairs;
  }

  lemma SliceExtends(data: Bytes, a: nat, b: nat, c: nat)
    requires a <= b <= c <= |data|
    ensures data[a..c] == data[a..b] + data[b..c]
  {
  }

  /** The table entry at the place of `p` is that of `p` exactly when both of its
      lengths are. */
  lemma EntryIsLengths(data: Bytes, i: nat, p: Pair)
    requires TableEnd(i + 1) <= |data| && PairFits(p)
    ensures data[TableEnd(i)..TableEnd(i + 1)] == Lengths(p) <==>
              KeyLen(data, i) == |p.key| && ValueLen(data, i) == |p.value|
  {
    var at := TableEnd(i);
    var key, value := data[at..at + 4], data[at + 4..at + 8];
    assert data[at..at + 8] == key + value;
    WordOfItsBytes(key);
    WordOfItsBytes(value);
    if data[at..at + 8] == Lengths(p) {
      assert key == data[at..at + 8][..4] && value == data[at..at + 8][4..];
    }
  }

  /** The bytes at `pos` are the body of `p` exactly when both fields are there
      with their terminators. */
  lemma BodyIsThere(data: Bytes, pos: nat, p: Pair)
    requires pos <= |data|
    ensures Body(p) <= data[pos..] <==>
      && pos + |Body(p)| <= |data|
      && data[pos..pos + |p.key|] == p.key && data[pos + |p.key|] == 0
      && data[pos + |p.key| + 1..pos + |p.key| + 1 + |p.value|] == p.value
      && data[pos + |p.key| + 1 + |p.value|] == 0
  {
    var k, v := |p.key|, |p.value|;
    if pos + |Body(p)| <= |data| {
      var found := data[pos..pos + k + 1 + v + 1];
      assert data[pos..][..|Body(p)|] == found;
      assert found ==
        data[pos..pos + k] + [data[pos + k]] + data[pos + k + 1..pos + k + 1 + v] + [data[pos + k + 1 + v]];
      if found == Body(p) {
        assert p.key == found[..k] && p.value == found[k + 1..k + 1 + v];
        assert found[k] == 0 && found[k + 1 + v] == 0;
      }
    }
  }

  /** `TakePair` answers `p` exactly when the table and the data hold `p` next. */
  lemma TakePairFinds(data: Bytes, i: nat, pos: nat, p: Pair)
    requires TableEnd(i + 1) <= |data| && pos <= |data|
    ensures TakePair(data, i, pos) == Ok(p) <==>
      PairFits(p) && data[TableEnd(i)..TableEnd(i + 1)] == Lengths(p) && Body(p) <= data[pos..]
  {
    if PairFits(p) {
      EntryIsLengths(data, i, p);
    }
    BodyIsThere(data, pos, p);
  }

  lemma PrefixSplits(data: Bytes, from: nat, a: Bytes, b: Bytes)
    requires from <= |data| && a <= data[from..]
    ensures a + b <= data[from..] <==> b <= data[from + |a|..]
  {
    assert data[from..][|a|..] == data[from + |a|..];
    if b <= data[from + |a|..] {
      assert data[from..] == a + data[from + |a|..];
    }
    if a + b <= data[from..] {
      assert b == (a + b)[|a|..];
      assert data[from..][..|a + b|] == a + b;
    }
  }

  /** A table that matches so far matches one entry more exactly when the next
      entry does. */
  lemma TableExtends(data: Bytes, pairs: seq<Pair>, p: Pair)
    requires TableEnd(|pairs| + 1) <= |data|
    requires forall q :: q in pairs ==> PairFits(q)
    requires PairFits(p)
    requires data[COUNT_SIZE..TableEnd(|pairs|)] == Table(pairs)
    ensures data[COUNT_SIZE..TableEnd(|pairs| + 1)] == Table(pairs) + Lengths(p) <==>
              data[TableEnd(|pairs|)..TableEnd(|pairs| + 1)] == Lengths(p)
  {
    var i := |pairs|;
    var both := data[COUNT_SIZE..TableEnd(i + 1)];
    SliceExtends(data, COUNT_SIZE, TableEnd(i), TableEnd(i + 1));
    assert both[|Table(pairs)|..] == data[TableEnd(i)..TableEnd(i + 1)];
    assert (Table(pairs) + Lengths(p))[|Table(pairs)|..] == Lengths(p);
  }

  /** One pair more is whole exactly when the next pair is taken. */
  lemma NextWhole(data: Bytes, count: nat, pairs: seq<Pair>, p: Pair)
    requires Whole(data, count, pairs) && |pairs| < count
    ensures Whole(data, count, pairs + [p]) <==> TakePair(data, |pairs|, Reached(count, pairs)) == Ok(p)
  {
    var more := pairs + [p];
    TakePairFinds(data, |pairs|, Reached(count, pairs), p);
    PrefixSplits(data, TableEnd(count), Data(pairs), Body(p));
    if PairFits(p) {
      OneMore(pairs, p);
      TableExtends(data, pairs, p);
      assert forall q :: q in more ==> q in pairs || q == p;
    } else {
      assert p in more;
    }
  }
}
