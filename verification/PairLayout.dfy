/** Where each number and each field is in the bytes of an encoding, and what each
    error of the decoder says of the bytes it refuses. */
module PairLayout {
  import opened Prelude
  import opened LittleEndian
  import opened Pairs
  import opened PairLaws

  /** The bytes that pairs take after the length table. */
  function FieldBytes(pairs: seq<Pair>): nat {
    if pairs == [] then 0
    else
      var last := pairs[|pairs| - 1];
      FieldBytes(pairs[..|pairs| - 1]) + |last.key| + 1 + |last.value| + 1
  }

  lemma {:induction false} DataSize(pairs: seq<Pair>)
    ensures |Data(pairs)| == FieldBytes(pairs)
    decreases |pairs|
  {
    if pairs != [] {
      DataSize(pairs[..|pairs| - 1]);
    }
  }

  lemma {:induction false} LengthsOfPair(pairs: seq<Pair>, k: nat)
    requires (forall p :: p in pairs ==> PairFits(p)) && k < |pairs|
    ensures PairFits(pairs[k]) && Table(pairs)[8 * k..8 * k + 8] == Lengths(pairs[k])
    decreases |pairs|
  {
    assert pairs[k] in pairs;
    var fewer, last := pairs[..|pairs| - 1], pairs[|pairs| - 1];
    assert forall p :: p in fewer ==> p in pairs;
    assert last in pairs && Table(pairs) == Table(fewer) + Lengths(last);
    if k < |fewer| {
      LengthsOfPair(fewer, k);
      assert Table(pairs)[8 * k..8 * k + 8] == Table(fewer)[8 * k..8 * k + 8];
    } else {
      assert Table(pairs)[8 * k..8 * k + 8] == Lengths(last);
    }
  }

  lemma {:induction false} BodyOfPair(pairs: seq<Pair>, k: nat)
    requires k < |pairs|
    ensures var at := FieldBytes(pairs[..k]);
      && at + |Body(pairs[k])| <= |Data(pairs)|
      && Data(pairs)[at..at + |Body(pairs[k])|] == Body(pairs[k])
    decreases |pairs|
  {
    var fewer, last := pairs[..|pairs| - 1], pairs[|pairs| - 1];
    assert Data(pairs) == Data(fewer) + Body(last);
    DataSize(fewer);
    if k < |fewer| {
      BodyOfPair(fewer, k);
      assert fewer[..k] == pairs[..k];
    }
  }

  /** The bytes hold a field at `at`, with a zero byte after it. */
  ghost predicate FieldAt(out: Bytes, at: nat, field: Bytes) {
    && at + |field| < |out|
    && out[at..at + |field|] == field && out[at + |field|] == 0
  }

  lemma NumbersAreLaidOut(pairs: seq<Pair>, k: nat)
    requires Fits(pairs) && k < |pairs|
    ensures var out, p, table := Encode(pairs), pairs[k], 4 + 8 * k;
      && |out| == 4 + 8 * |pairs| + FieldBytes(pairs)
      && Number(out[..4]) == |pairs|
      && Number(out[table..table + 4]) == |p.key| && Number(out[table + 4..table + 8]) == |p.value|
  {
    hide Table, Data, Le32, Number;
    var out, p := Encode(pairs), pairs[k];
    var entry := Table(pairs)[8 * k..8 * k + 8];
    LengthsOfPair(pairs, k);
    DataSize(pairs);
    assert out[..4] == Le32(|pairs|);
    assert entry == Le32(|p.key|) + Le32(|p.value|);
    assert out[4 + 8 * k..8 + 8 * k] == entry[..4] == Le32(|p.key|);
    assert out[8 + 8 * k..12 + 8 * k] == entry[4..] == Le32(|p.value|);
    WordHasItsDigits(|pairs|);
    WordHasItsDigits(|p.key|);
    WordHasItsDigits(|p.value|);
  }

  lemma FieldsAreLaidOut(pairs: seq<Pair>, k: nat)
    requires Fits(pairs) && k < |pairs|
    ensures var out, p, at := Encode(pairs), pairs[k], 4 + 8 * |pairs| + FieldBytes(pairs[..k]);
      FieldAt(out, at, p.key) && FieldAt(out, at + |p.key| + 1, p.value)
  {
    hide Table, Data, Le32, FieldBytes, Body;
    var out, p, from := Encode(pairs), pairs[k], FieldBytes(pairs[..k]);
    BodyOfPair(pairs, k);
    assert out[4 + 8 * |pairs| + from..] == Data(pairs)[from..];
    assert Data(pairs)[from..][..|Body(p)|] == Body(p);
    BodyIsThere(out, 4 + 8 * |pairs| + from, p);
    assert |Body(p)| == |p.key| + |p.value| + 2 by {
      BodySize(p);
    }
  }

  lemma BodySize(p: Pair)
    ensures |Body(p)| == |p.key| + 1 + |p.value| + 1
  {
  }

  /** The layout of an encoding: the number of pairs in four bytes, for each pair the
      length of its key and the length of its value in four bytes each, and then for
      each pair the key, a zero byte, the value and a zero byte, with nothing after
      the last. */
  lemma EncodingIsLaidOut(pairs: seq<Pair>, k: nat)
    requires Fits(pairs) && k < |pairs|
    ensures var out, p := Encode(pairs), pairs[k];
      var table, at := 4 + 8 * k, 4 + 8 * |pairs| + FieldBytes(pairs[..k]);
      && |out| == 4 + 8 * |pairs| + FieldBytes(pairs)
      && Number(out[..4]) == |pairs|
      && Number(out[table..table + 4]) == |p.key| && Number(out[table + 4..table + 8]) == |p.value|
      && FieldAt(out, at, p.key) && FieldAt(out, at + |p.key| + 1, p.value)
  {
    NumbersAreLaidOut(pairs, k);
    FieldsAreLaidOut(pairs, k);
  }

  // ---- The errors ----

  /** The number of pairs that the bytes declare. */
  function Declared(data: Bytes): nat
    requires |data| >= 4
  {
    Number(data[..4])
  }

  /** The limits and the length table let the decoder come to the pairs. */
  predicate HasTable(data: Bytes, limits: Limits) {
    && (limits.bytes.None? || |data| <= limits.bytes.value)
    && |data| >= 4 && (limits.pairs.None? || Declared(data) <= limits.pairs.value)
    && 4 + 8 * Declared(data) <= |data|
  }

  /** The pairs before the one that was refused, and where its key starts. */
  ghost predicate StopsAfter(data: Bytes, limits: Limits, pairs: seq<Pair>, i: nat) {
    && HasTable(data, limits) && Whole(data, Declared(data), pairs) && |pairs| == i
    && 4 + 8 * Declared(data) + FieldBytes(pairs) <= |data|
  }

  function KeyStart(data: Bytes, pairs: seq<Pair>): nat
    requires |data| >= 4
  {
    4 + 8 * Declared(data) + FieldBytes(pairs)
  }

  /** The two lengths that the table gives for pair `i`. */
  function TableKey(data: Bytes, i: nat): nat
    requires 12 + 8 * i <= |data|
  {
    Number(data[4 + 8 * i..8 + 8 * i])
  }

  function TableValue(data: Bytes, i: nat): nat
    requires 12 + 8 * i <= |data|
  {
    Number(data[8 + 8 * i..12 + 8 * i])
  }

  /** What an error says of the bytes. `pairs` are the whole pairs before it. */
  ghost predicate Explains(error: DecodeError, data: Bytes, limits: Limits, pairs: seq<Pair>) {
    match error
    case ByteLimit(bytes, limit) => bytes == |data| > limit && limits.bytes == Some(limit)
    case TruncatedCount =>
      (limits.bytes.None? || |data| <= limits.bytes.value) && 0 < |data| < 4 && data != [0]
    case PairLimit(count, limit) =>
      && (limits.bytes.None? || |data| <= limits.bytes.value)
      && |data| >= 4 && count == Declared(data) > limit && limits.pairs == Some(limit)
    case TruncatedLengths(count) =>
      && (limits.bytes.None? || |data| <= limits.bytes.value)
      && |data| >= 4 && (limits.pairs.None? || count <= limits.pairs.value)
      && count == Declared(data) && |data| < 4 + 8 * count
    case TruncatedKey(i) =>
      && StopsAfter(data, limits, pairs, i) && i < Declared(data)
      && KeyStart(data, pairs) + TableKey(data, i) >= |data|
    case MissingTerminator(i, Key) =>
      && StopsAfter(data, limits, pairs, i) && i < Declared(data)
      && KeyStart(data, pairs) + TableKey(data, i) < |data|
      && data[KeyStart(data, pairs) + TableKey(data, i)] != 0
    case TruncatedValue(i) =>
      && StopsAfter(data, limits, pairs, i) && i < Declared(data)
      && KeyEnds(data, pairs, i)
      && KeyStart(data, pairs) + TableKey(data, i) + 1 + TableValue(data, i) >= |data|
    case MissingTerminator(i, Value) =>
      && StopsAfter(data, limits, pairs, i) && i < Declared(data)
      && KeyEnds(data, pairs, i)
      && KeyStart(data, pairs) + TableKey(data, i) + 1 + TableValue(data, i) < |data|
      && data[KeyStart(data, pairs) + TableKey(data, i) + 1 + TableValue(data, i)] != 0
    case TrailingBytes(count) =>
      && StopsAfter(data, limits, pairs, |pairs|) && |pairs| == Declared(data)
      && count == |data| - KeyStart(data, pairs) > 0
  }

  /** The key of the pair ends with its zero byte. */
  ghost predicate KeyEnds(data: Bytes, pairs: seq<Pair>, i: nat)
    requires 12 + 8 * i <= |data|
  {
    && KeyStart(data, pairs) + TableKey(data, i) < |data|
    && data[KeyStart(data, pairs) + TableKey(data, i)] == 0
  }

  lemma NumbersOfTheTable(data: Bytes, i: nat)
    requires |data| >= 4
    ensures FromLe32(data[..4]) == Declared(data)
    ensures 12 + 8 * i <= |data| ==> KeyLen(data, i) == TableKey(data, i) && ValueLen(data, i) == TableValue(data, i)
  {
    hide FromLe32;
    WordIsTheNumber(data[..4]);
    if 12 + 8 * i <= |data| {
      WordIsTheNumber(data[4 + 8 * i..8 + 8 * i]);
      WordIsTheNumber(data[8 + 8 * i..12 + 8 * i]);
    }
  }

  lemma StopExplains(data: Bytes, limits: Limits, pairs: seq<Pair>, error: DecodeError)
    requires HasTable(data, limits) && StoppedAt(data, Declared(data), pairs, error)
    ensures Explains(error, data, limits, pairs)
  {
    hide FromLe32, Number, Data, Table, FieldBytes;
    DataSize(pairs);
    NumbersOfTheTable(data, |pairs|);
  }

  /** Every refusal tells what is wrong, and with the pair at which it is. */
  lemma ErrorsExplain(data: Bytes, limits: Limits) returns (pairs: seq<Pair>)
    requires Decode(data, limits).Err?
    ensures Explains(Decode(data, limits).error, data, limits, pairs)
  {
    hide FromLe32, Number, Data, Table, FieldBytes, DecodeFrom, StoppedAt, TakePair;
    pairs := [];
    if |data| >= 4 {
      NumbersOfTheTable(data, 0);
      if HasTable(data, limits) {
        NothingIsWhole(data, Declared(data));
        pairs := StopsSomewhere(data, Declared(data), []);
        StopExplains(data, limits, pairs, Decode(data, limits).error);
      }
    }
  }
}
