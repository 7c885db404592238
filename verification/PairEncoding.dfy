/** What the two-walk encoder answers, for every source. A walk is the list of the
    calls a source made, whatever the visitor answered, so a source that goes on
    after a break, or that changes between its walks, is one of them. */
module PairEncoding {
  import opened Prelude
  import opened LittleEndian
  import opened Pairs

  datatype EncodeError =
    | TooLong(pair: nat, field: Field, len: nat)
    | TooManyPairs(count: nat)
    | TooLarge
    | Changed

  /** The first field of a pair that is too long. */
  function TooLongIn(p: Pair, index: nat): Option<EncodeError>
    ensures TooLongIn(p, index).None? <==> PairFits(p)
  {
    if !FieldFits(p.key) then Some(TooLong(index, Key, |p.key|))
    else if !FieldFits(p.value) then Some(TooLong(index, Value, |p.value|))
    else None
  }

  /** The pairs of a walk whose lengths are recorded. */
  function Recorded(walk: seq<Pair>): (r: seq<Pair>)
    ensures forall p :: p in r ==> PairFits(p)
  {
    if walk == [] then []
    else
      var last := walk[|walk| - 1];
      Recorded(walk[..|walk| - 1]) + if PairFits(last) then [last] else []
  }

  /** The failure that the last pair which is too long leaves. */
  function Failure(walk: seq<Pair>): (r: Option<EncodeError>)
    ensures r.None? <==> forall p :: p in walk ==> PairFits(p)
    ensures r.None? ==> Recorded(walk) == walk
  {
    if walk == [] then None
    else
      var before := walk[..|walk| - 1];
      var last := walk[|walk| - 1];
      assert walk == before + [last];
      if PairFits(last) then Failure(before) else TooLongIn(last, |Recorded(before)|)
  }

  /** The size of the encoding, with no bound. */
  function Size(pairs: seq<Pair>): (size: nat)
    requires forall p :: p in pairs ==> PairFits(p)
    ensures size == COUNT_SIZE + |Table(pairs)| + |Data(pairs)|
  {
    if pairs == [] then COUNT_SIZE
    else
      var last := pairs[|pairs| - 1];
      assert last in pairs;
      Size(pairs[..|pairs| - 1]) + PairEncodedSize(|last.key|, |last.value|)
  }

  /** What the second walk writes: no more pairs than the first recorded. */
  function Written(first: seq<Pair>, second: seq<Pair>): seq<Pair> {
    if |second| <= |first| then second else second[..|first|]
  }

  function EncodeWalks(first: seq<Pair>, second: seq<Pair>): Result<Bytes, EncodeError> {
    if Failure(first).Some? then Err(Failure(first).value)
    else if first == [] then Ok([])
    else if |first| > U32_MAX then Err(TooManyPairs(|first|))
    else if Size(first) > USIZE_MAX then Err(TooLarge)
    else
      var out := Le32(|first|) + Table(first) + Data(Written(first, second));
      if |out| == Size(first) then Ok(out) else Err(Changed)
  }

  // ---- The laws ----

  lemma SizeOfEncode(pairs: seq<Pair>)
    requires Fits(pairs) && pairs != []
    ensures |Encode(pairs)| == Size(pairs)
  {
  }

  /** A source whose second walk repeats or extends the first gives the encoding of
      the first, when the format and the memory can hold it. */
  lemma StableSourceEncodes(first: seq<Pair>, second: seq<Pair>)
    requires Fits(first) && |Encode(first)| <= USIZE_MAX && first <= second
    ensures EncodeWalks(first, second) == Ok(Encode(first))
  {
    assert Written(first, second) == first;
  }

  /** The answer is the encoding of the first walk exactly when the walk can be
      encoded and the second walk writes its bytes. */
  lemma EncodesTheFirstWalk(first: seq<Pair>, second: seq<Pair>)
    requires Fits(first) && first != []
    ensures EncodeWalks(first, second) == Ok(Encode(first)) <==>
      |Encode(first)| <= USIZE_MAX && Data(Written(first, second)) == Data(first)
  {
    hide Data, Table, Le32;
    var head := Le32(|first|) + Table(first);
    var out := head + Data(Written(first, second));
    assert out[|head|..] == Data(Written(first, second));
    assert Encode(first) == head + Data(first);
    assert Encode(first)[|head|..] == Data(first);
    SizeOfEncode(first);
  }

  /** A change is reported exactly when the second walk writes another number of
      bytes than the first measured. */
  lemma ChangedIsAnotherTotal(first: seq<Pair>, second: seq<Pair>)
    requires Fits(first) && first != [] && |Encode(first)| <= USIZE_MAX
    ensures EncodeWalks(first, second) == Err(Changed) <==> |Data(Written(first, second))| != |Data(first)|
    ensures EncodeWalks(first, second) != Err(Changed) ==> EncodeWalks(first, second).Ok?
  {
    SizeOfEncode(first);
  }

  /** One pair whose first walk gives the key and no value, and whose second walk
      gives the value and no key. */
  const MOVED: Bytes := [1, 0, 0, 0] + [1, 0, 0, 0] + [0, 0, 0, 0] + [0, 1, 0]

  lemma OnePair(p: Pair)
    requires PairFits(p)
    ensures Table([p]) == Lengths(p) && Data([p]) == Body(p) && Size([p]) == 12 + |Body(p)|
  {
    assert [p] == [] + [p];
    OneMore([], p);
    assert [p][..0] == [];
  }

  lemma MovedIsEncoded()
    ensures EncodeWalks([Pair([1], [])], [Pair([], [1])]) == Ok(MOVED)
  {
    var a, b := Pair([1], []), Pair([], [1]);
    OnePair(a);
    OnePair(b);
    assert Failure([a]).None?;
    assert Written([a], [b]) == [b];
    assert Le32(1) == [1, 0, 0, 0] && Le32(0) == [0, 0, 0, 0];
    assert Le32(1) + Table([a]) + Data([b]) == MOVED;
  }

  lemma MovedDoesNotDecode()
    ensures Decode(MOVED, UNLIMITED) == Err(MissingTerminator(0, Key))
  {
    assert MOVED[..COUNT_SIZE] == [1, 0, 0, 0] && MOVED[4..8] == [1, 0, 0, 0];
    assert FromLe32([1, 0, 0, 0]) == 1;
    assert KeyLen(MOVED, 0) == 1 && MOVED[13] == 1;
    assert Take(MOVED, 12, 1, 0, Key) == Err(MissingTerminator(0, Key));
    assert TakePair(MOVED, 0, 12) == Err(MissingTerminator(0, Key));
  }

  /** A change that keeps the total is not noticed, and what comes out may not
      decode at all. */
  lemma ChangeThatKeepsTheTotal()
    ensures EncodeWalks([Pair([1], [])], [Pair([], [1])]) == Ok(MOVED)
    ensures Decode(MOVED, UNLIMITED) == Err(MissingTerminator(0, Key))
  {
    MovedIsEncoded();
    MovedDoesNotDecode();
  }

  /** The failures: a pair that is too long, too many pairs, or too many bytes. */
  lemma EncodeFailsExactlyWhen(first: seq<Pair>, second: seq<Pair>)
    ensures EncodeWalks(first, second).Err? && EncodeWalks(first, second).error.TooLong? <==>
      exists p :: p in first && !PairFits(p)
    ensures EncodeWalks(first, second) == Err(TooManyPairs(|first|)) <==>
      |first| > 0xFFFF_FFFF && forall p :: p in first ==> PairFits(p)
    ensures EncodeWalks(first, second) == Err(TooLarge) <==>
      Fits(first) && first != [] && |Encode(first)| > 0xFFFF_FFFF_FFFF_FFFF
  {
    FailureIsTooLong(first);
  }

  lemma {:induction false} FailureIsTooLong(walk: seq<Pair>)
    ensures Failure(walk).Some? ==> Failure(walk).value.TooLong?
    decreases |walk|
  {
    if walk != [] {
      FailureIsTooLong(walk[..|walk| - 1]);
    }
  }

  /** Both lengths of the pair fit 32 bits. */
  predicate HasLengths(p: Pair) {
    |p.key| <= 0xFFFF_FFFF && |p.value| <= 0xFFFF_FFFF
  }

  /** How many pairs of a walk have two lengths that fit. */
  function Fitting(walk: seq<Pair>): nat {
    |set i | 0 <= i < |walk| && HasLengths(walk[i])|
  }

  lemma {:induction false} RecordedAreFitting(walk: seq<Pair>)
    ensures |Recorded(walk)| == Fitting(walk)
    decreases |walk|
  {
    if walk != [] {
      var n := |walk| - 1;
      var before := walk[..n];
      RecordedAreFitting(before);
      FittingGrows(walk);
      assert PairFits(walk[n]) == HasLengths(walk[n]);
    }
  }

  lemma FittingGrows(walk: seq<Pair>)
    requires walk != []
    ensures Fitting(walk) == Fitting(walk[..|walk| - 1]) + if HasLengths(walk[|walk| - 1]) then 1 else 0
  {
    hide HasLengths;
    var n := |walk| - 1;
    var fits := set i | 0 <= i < |walk| && HasLengths(walk[i]);
    var before := set i | 0 <= i < n && HasLengths(walk[..n][i]);
    assert fits == before + if HasLengths(walk[n]) then {n} else {};
  }

  lemma {:induction false} LastTooLongFails(before: seq<Pair>, long: Pair, after: seq<Pair>)
    requires !PairFits(long) && forall p :: p in after ==> PairFits(p)
    ensures Failure(before + [long] + after) == TooLongIn(long, |Recorded(before)|)
    decreases |after|
  {
    var walk := before + [long] + after;
    assert walk[|walk| - 1] == if after == [] then long else after[|after| - 1];
    if after == [] {
      assert walk[..|walk| - 1] == before;
    } else {
      assert walk[..|walk| - 1] == before + [long] + after[..|after| - 1];
      LastTooLongFails(before, long, after[..|after| - 1]);
    }
  }

  /** The failure of a walk with pairs that are too long: of the last of them, with the
      key before the value, and with the number of pairs before it that fit. */
  lemma TooLongTellsTheLast(before: seq<Pair>, long: Pair, after: seq<Pair>, second: seq<Pair>)
    requires !HasLengths(long) && forall p :: p in after ==> HasLengths(p)
    ensures EncodeWalks(before + [long] + after, second) ==
      if |long.key| > 0xFFFF_FFFF then Err(TooLong(Fitting(before), Key, |long.key|))
      else Err(TooLong(Fitting(before), Value, |long.value|))
  {
    LastTooLongFails(before, long, after);
    RecordedAreFitting(before);
  }

  /** A source that stops when it is told to reports the place of the pair that is
      too long. */
  lemma ObedientSourceReportsThePlace(before: seq<Pair>, last: Pair, second: seq<Pair>)
    requires (forall p :: p in before ==> PairFits(p)) && !PairFits(last)
    ensures EncodeWalks(before + [last], second) ==
      if |last.key| > U32_MAX then Err(TooLong(|before|, Key, |last.key|))
      else Err(TooLong(|before|, Value, |last.value|))
  {
    assert (before + [last])[..|before|] == before;
    assert Failure(before).None?;
    assert last in before + [last];
  }

  /** What the second walk does cannot take a byte from the header: any answer
      declares the pairs of the first walk. */
  lemma EveryAnswerDeclaresTheFirstWalk(first: seq<Pair>, second: seq<Pair>)
    requires first != [] && EncodeWalks(first, second).Ok?
    ensures var out := EncodeWalks(first, second).value;
      && Fits(first) && |out| == |Encode(first)|
      && out[..TableEnd(|first|)] == Encode(first)[..TableEnd(|first|)]
  {
    hide Data, Table, Le32;
    SizeOfEncode(first);
    var head := Le32(|first|) + Table(first);
    assert (head + Data(Written(first, second)))[..|head|] == head;
    assert Encode(first) == head + Data(first) && Encode(first)[..|head|] == head;
  }
}
