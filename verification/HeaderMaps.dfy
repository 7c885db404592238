/** The header map that is stored as a vector of pairs, and the size of its
    serialized form. */
module HeaderMaps {
  import opened Prelude
  import opened LittleEndian
  import opened Pairs
  import PairEncoding
  import PairCodec

  // ---- What the operations mean ----

  function Get(pairs: seq<Pair>, key: Bytes): Option<Bytes> {
    if pairs == [] then None
    else if pairs[0].key == key then Some(pairs[0].value)
    else Get(pairs[1..], key)
  }

  /** The pairs of other keys, in order. */
  function Without(pairs: seq<Pair>, key: Bytes): (r: seq<Pair>)
    ensures forall p :: p in r <==> p in pairs && p.key != key
  {
    if pairs == [] then []
    else if pairs[0].key == key then Without(pairs[1..], key)
    else [pairs[0]] + Without(pairs[1..], key)
  }

  /** The pairs of `key`, in order. */
  function Of(pairs: seq<Pair>, key: Bytes): seq<Pair> {
    if pairs == [] then []
    else if pairs[0].key == key then [pairs[0]] + Of(pairs[1..], key)
    else Of(pairs[1..], key)
  }

  /** One pair for `key`, in the place of the first one. */
  function WithOne(pairs: seq<Pair>, key: Bytes, value: Bytes): seq<Pair> {
    if pairs == [] then [Pair(key, value)]
    else if pairs[0].key == key then [Pair(key, value)] + Without(pairs[1..], key)
    else [pairs[0]] + WithOne(pairs[1..], key, value)
  }

  /** How many pairs are before the first one of `key`. */
  function Place(pairs: seq<Pair>, key: Bytes): (n: nat)
    ensures n <= |pairs|
    ensures forall i :: 0 <= i < n ==> pairs[i].key != key
    ensures n < |pairs| ==> pairs[n].key == key
  {
    if pairs == [] || pairs[0].key == key then 0 else 1 + Place(pairs[1..], key)
  }

  lemma {:induction false} NoneOfIt(pairs: seq<Pair>, key: Bytes, other: Bytes)
    ensures Of(Without(pairs, key), key) == []
    ensures other != key ==> Get(Without(pairs, key), other) == Get(pairs, other)
    ensures Without(Without(pairs, key), key) == Without(pairs, key)
    decreases |pairs|
  {
    if pairs != [] {
      NoneOfIt(pairs[1..], key, other);
      var rest := Without(pairs[1..], key);
      if pairs[0].key != key {
        assert ([pairs[0]] + rest)[1..] == rest;
      }
    }
  }

  /** The value of a key is that of the first pair that has it. */
  lemma {:induction false} GetIsTheFirst(pairs: seq<Pair>, key: Bytes)
    ensures match Get(pairs, key)
      case None => forall i :: 0 <= i < |pairs| ==> pairs[i].key != key
      case Some(value) =>
        exists i :: 0 <= i < |pairs| && pairs[i] == Pair(key, value) && forall j :: 0 <= j < i ==> pairs[j].key != key
    decreases |pairs|
  {
    if pairs != [] && pairs[0].key != key {
      GetIsTheFirst(pairs[1..], key);
      if Get(pairs, key).Some? {
        var i :| 0 <= i < |pairs[1..]| && pairs[1..][i] == Pair(key, Get(pairs, key).value)
          && forall j :: 0 <= j < i ==> pairs[1..][j].key != key;
        assert pairs[i + 1] == pairs[1..][i];
        assert forall j :: 0 < j < i + 1 ==> pairs[j] == pairs[1..][j - 1];
      } else {
        assert forall j :: 0 < j < |pairs| ==> pairs[j] == pairs[1..][j - 1];
      }
    } else if pairs != [] {
      assert pairs[0] == Pair(key, pairs[0].value);
    }
  }

  /** A removal looks at one pair at a time: it keeps each pair of another key, as often
      as it is there and in its place among the others. */
  lemma {:induction false} WithoutIsPairByPair(a: seq<Pair>, p: Pair, key: Bytes)
    ensures Without([], key) == []
    ensures Without(a + [p], key) == Without(a, key) + if p.key == key then [] else [p]
    decreases |a|
  {
    hide Without;
    WithoutHead(a + [p], key);
    if a == [] {
      assert (a + [p])[1..] == [];
      FilterEnds(key, []);
    } else {
      WithoutHead(a, key);
      WithoutIsPairByPair(a[1..], p, key);
      assert (a + [p])[1..] == a[1..] + [p];
    }
  }

  lemma WithoutHead(pairs: seq<Pair>, key: Bytes)
    requires pairs != []
    ensures Without(pairs, key) == (if pairs[0].key == key then [] else [pairs[0]]) + Without(pairs[1..], key)
  {
  }

  /** After a removal the key is absent and every other key answers as before. */
  lemma RemoveForgetsTheKey(pairs: seq<Pair>, key: Bytes, other: Bytes)
    ensures Get(Without(pairs, key), key).None?
    ensures other != key ==> Get(Without(pairs, key), other) == Get(pairs, other)
  {
    NoneOfIt(pairs, key, other);
    AbsentWhenNone(Without(pairs, key), key);
  }

  lemma {:induction false} AbsentWhenNone(pairs: seq<Pair>, key: Bytes)
    ensures Get(pairs, key).None? <==> Of(pairs, key) == []
    decreases |pairs|
  {
    if pairs != [] {
      AbsentWhenNone(pairs[1..], key);
    }
  }

  /** A write leaves exactly one pair for the key, in the place of the first one or
      at the end, and the pairs of other keys keep their order. */
  lemma {:induction false} SetLeavesOne(pairs: seq<Pair>, key: Bytes, value: Bytes)
    ensures var after := WithOne(pairs, key, value);
      && Of(after, key) == [Pair(key, value)]
      && Without(after, key) == Without(pairs, key)
      && Place(pairs, key) < |after|
      && after[Place(pairs, key)] == Pair(key, value)
      && after[..Place(pairs, key)] == pairs[..Place(pairs, key)]
    decreases |pairs|
  {
    var after := WithOne(pairs, key, value);
    if pairs == [] {
      assert after[1..] == [];
    } else if pairs[0].key == key {
      NoneOfIt(pairs[1..], key, key);
      assert after[1..] == Without(pairs[1..], key);
    } else {
      SetLeavesOne(pairs[1..], key, value);
      var rest := WithOne(pairs[1..], key, value);
      assert after[1..] == rest;
      var n := Place(pairs[1..], key);
      assert after[..1 + n] == [pairs[0]] + rest[..n] && pairs[..1 + n] == [pairs[0]] + pairs[1..][..n];
    }
  }

  /** A write is read back, and it changes the answer for no other key. */
  lemma {:induction false} SetIsReadBack(pairs: seq<Pair>, key: Bytes, value: Bytes, other: Bytes)
    ensures Get(WithOne(pairs, key, value), key) == Some(value)
    ensures other != key ==> Get(WithOne(pairs, key, value), other) == Get(pairs, other)
    decreases |pairs|
  {
    var after := WithOne(pairs, key, value);
    if pairs == [] {
      assert after[1..] == [];
    } else if pairs[0].key == key {
      NoneOfIt(pairs[1..], key, other);
      assert after[1..] == Without(pairs[1..], key);
    } else {
      SetIsReadBack(pairs[1..], key, value, other);
      assert after[1..] == WithOne(pairs[1..], key, value);
    }
  }

  /** What one step over the pairs does to the two filters. */
  lemma FilterStep(pairs: seq<Pair>, i: nat, key: Bytes, value: Bytes)
    requires i < |pairs|
    ensures Without(pairs[i..], key) == (if pairs[i].key == key then [] else [pairs[i]]) + Without(pairs[i + 1..], key)
    ensures WithOne(pairs[i..], key, value) ==
      if pairs[i].key == key then [Pair(key, value)] + Without(pairs[i + 1..], key)
      else [pairs[i]] + WithOne(pairs[i + 1..], key, value)
  {
    assert pairs[i..][0] == pairs[i] && pairs[i..][1..] == pairs[i + 1..];
  }

  /** The two filters of what is left, after one step of a pass that kept `kept`. */
  lemma KeptStep(kept: seq<Pair>, pairs: seq<Pair>, i: nat, key: Bytes, value: Bytes)
    requires i < |pairs|
    ensures pairs[i].key != key ==>
      && kept + Without(pairs[i..], key) == kept + [pairs[i]] + Without(pairs[i + 1..], key)
      && kept + WithOne(pairs[i..], key, value) == kept + [pairs[i]] + WithOne(pairs[i + 1..], key, value)
    ensures pairs[i].key == key ==>
      && Without(pairs[i..], key) == Without(pairs[i + 1..], key)
      && kept + WithOne(pairs[i..], key, value) == kept + [Pair(key, value)] + Without(pairs[i + 1..], key)
  {
    hide WithOne, Without;
    FilterStep(pairs, i, key, value);
    var rest, one := Without(pairs[i + 1..], key), WithOne(pairs[i + 1..], key, value);
    if pairs[i].key != key {
      assert kept + ([pairs[i]] + rest) == kept + [pairs[i]] + rest;
      assert kept + ([pairs[i]] + one) == kept + [pairs[i]] + one;
    } else {
      assert [] + rest == rest;
      assert kept + ([Pair(key, value)] + rest) == kept + [Pair(key, value)] + rest;
    }
  }

  lemma FilterEnds(key: Bytes, value: Bytes)
    ensures Without([], key) == [] && WithOne([], key, value) == [Pair(key, value)]
  {
  }

  // ---- The map ----

  class VecHeaderMap {
    var pairs: seq<Pair>

    constructor (pairs: seq<Pair>)
      ensures this.pairs == pairs
    {
      this.pairs := pairs;
    }

    method Find(key: Bytes) returns (value: Option<Bytes>)
      ensures value == Get(pairs, key)
    {
      var i := 0;
      while i < |pairs|
        invariant i <= |pairs| && Get(pairs[i..], key) == Get(pairs, key)
      {
        assert pairs[i..][0] == pairs[i] && pairs[i..][1..] == pairs[i + 1..];
        if pairs[i].key == key {
          return Some(pairs[i].value);
        }
        i := i + 1;
      }
      return None;
    }

    /** Goes through the pairs once, and keeps one of the key. */
    method Set(key: Bytes, value: Bytes)
      modifies this
      ensures pairs == WithOne(old(pairs), key, value)
    {
      hide WithOne, Without;
      var kept: seq<Pair> := [];
      var keptOne := false;
      var i := 0;
      assert pairs[0..] == pairs;
      while i < |pairs|
        invariant i <= |pairs| && pairs == old(pairs)
        invariant WithOne(pairs, key, value) ==
          kept + if keptOne then Without(pairs[i..], key) else WithOne(pairs[i..], key, value)
      {
        KeptStep(kept, pairs, i, key, value);
        if pairs[i].key != key {
          kept := kept + [pairs[i]];
        } else if !keptOne {
          keptOne := true;
          kept := kept + [Pair(pairs[i].key, value)];
        }
        i := i + 1;
      }
      FilterEnds(key, value);
      assert pairs[i..] == [];
      if !keptOne {
        kept := kept + [Pair(key, value)];
      }
      pairs := kept;
    }

    method Add(key: Bytes, value: Bytes)
      modifies this
      ensures pairs == old(pairs) + [Pair(key, value)]
    {
      pairs := pairs + [Pair(key, value)];
    }

    method Remove(key: Bytes)
      modifies this
      ensures pairs == Without(old(pairs), key)
    {
      hide WithOne, Without;
      var kept: seq<Pair> := [];
      var i := 0;
      assert pairs[0..] == pairs && [] + Without(pairs, key) == Without(pairs, key);
      while i < |pairs|
        invariant i <= |pairs| && pairs == old(pairs)
        invariant Without(pairs, key) == kept + Without(pairs[i..], key)
      {
        KeptStep(kept, pairs, i, key, []);
        if pairs[i].key != key {
          kept := kept + [pairs[i]];
        }
        i := i + 1;
      }
      FilterEnds(key, []);
      assert pairs[i..] == [];
      pairs := kept;
    }

    method ReplaceAll(others: seq<Pair>)
      modifies this
      ensures pairs == others
    {
      pairs := others;
    }

    /** The size of the serialized form, in additions that saturate. */
    method EncodedSize() returns (size: nat)
      ensures size == if pairs == [] then 0 else Min(COUNT_SIZE + Sum(pairs), USIZE_MAX)
    {
      var count, pairsSize := 0, 0;
      while count < |pairs|
        invariant count <= |pairs| && pairsSize == Min(Sum(pairs[..count]), USIZE_MAX)
      {
        assert pairs[..count + 1][..count] == pairs[..count] && pairs[..count + 1][count] == pairs[count];
        pairsSize := SaturatingAdd(pairsSize, PairEncodedSize(|pairs[count].key|, |pairs[count].value|));
        count := count + 1;
      }
      assert pairs[..count] == pairs;
      size := TotalSize(count, pairsSize);
    }

    /** A walk over a stored map gives the same pairs each time. */
    method Encode() returns (r: Result<Bytes, PairEncoding.EncodeError>)
      ensures r == PairEncoding.EncodeWalks(pairs, pairs)
    {
      r := PairCodec.EncodeVisited(pairs, pairs);
    }
  }

  // ---- The size ----

  /** The sizes of the pairs, with no bound. */
  function Sum(pairs: seq<Pair>): nat {
    if pairs == [] then 0
    else
      var last := pairs[|pairs| - 1];
      Sum(pairs[..|pairs| - 1]) + 2 * LENGTH_SIZE + |last.key| + 1 + |last.value| + 1
  }

  lemma {:induction false} SumIsTheSize(pairs: seq<Pair>)
    requires forall p :: p in pairs ==> PairFits(p)
    ensures COUNT_SIZE + Sum(pairs) == PairEncoding.Size(pairs)
    decreases |pairs|
  {
    if pairs != [] {
      SumIsTheSize(pairs[..|pairs| - 1]);
      assert pairs[|pairs| - 1] in pairs;
    }
  }

  /** The output has the size that was told, and a map whose parts fit is refused
      exactly when its encoding is larger than any size that can be told. */
  lemma SizeIsExactWhenEncoded(pairs: seq<Pair>)
    requires Fits(pairs)
    ensures var encoded := PairEncoding.EncodeWalks(pairs, pairs);
      var size := if pairs == [] then 0 else Min(COUNT_SIZE + Sum(pairs), USIZE_MAX);
      && (encoded.Ok? ==> encoded.value == Encode(pairs) && |encoded.value| == size)
      && (encoded.Err? <==> |Encode(pairs)| > size)
  {
    SumIsTheSize(pairs);
    if pairs != [] {
      PairEncoding.SizeOfEncode(pairs);
      PairEncoding.EncodesTheFirstWalk(pairs, pairs);
      PairEncoding.EncodeFailsExactlyWhen(pairs, pairs);
      assert PairEncoding.Written(pairs, pairs) == pairs;
    }
  }
}
