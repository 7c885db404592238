/** The gather write and the environment in terms of single bytes and numbers: where
    each call looks, what it answers, and which bytes it leaves. */
module WasiLaws {
  import opened Prelude
  import opened LittleEndian
  import opened Memory
  import opened Wasi

  // ---- The regions ----

  /** The word of four bytes at `at`, which is inside. */
  function WordAt(bytes: Bytes, at: nat): nat
    requires at + 4 <= |bytes|
  {
    Number(bytes[at..at + 4])
  }

  /** Entry `i` of a table at `table` names `len` bytes at `ptr`: the address first. */
  ghost predicate Names(bytes: Bytes, table: nat, i: nat, region: GuestSlice) {
    && table + 8 * i + 8 <= |bytes|
    && WordAt(bytes, table + 8 * i) == region.ptr && WordAt(bytes, table + 8 * i + 4) == region.len
  }

  ghost predicate NamesAll(bytes: Bytes, table: nat, regions: Regions) {
    forall i :: 0 <= i < |regions| ==> Names(bytes, table, i, regions[i])
  }

  /** The entry names a range that is inside the memory. */
  predicate EntryInside(bytes: Bytes, table: nat, i: nat)
    requires table + 8 * i + 8 <= |bytes|
  {
    WordAt(bytes, table + 8 * i) + WordAt(bytes, table + 8 * i + 4) <= Min(|bytes|, U32_MAX)
  }

  lemma RegionIsNamed(bytes: Bytes, table: GuestSlice, i: nat)
    requires Inside(table, |bytes|) && 8 * (i + 1) <= table.len
    ensures match RegionAt(bytes, table, i)
      case Ok(region) => Names(bytes, table.ptr, i, region)
      case Err(_) => WordAt(bytes, table.ptr + 8 * i) + WordAt(bytes, table.ptr + 8 * i + 4) > U32_MAX
  {
    hide FromLe32;
    var at := table.ptr + 8 * i;
    WordIsTheNumber(bytes[at..at + 4]);
    WordIsTheNumber(bytes[at + 4..at + 8]);
  }

  lemma {:induction false} RegionsAreNamed(bytes: Bytes, table: GuestSlice, n: nat)
    requires Inside(table, |bytes|) && 8 * n <= table.len
    ensures var regions := RegionsOf(bytes, table, n);
      if regions.Some? then NamesAll(bytes, table.ptr, regions.value)
      else exists i :: 0 <= i < n && !EntryInside(bytes, table.ptr, i)
    decreases n
  {
    hide RegionAt;
    if n > 0 {
      RegionsAreNamed(bytes, table, n - 1);
      RegionIsNamed(bytes, table, n - 1);
      var before, last := RegionsOf(bytes, table, n - 1), RegionAt(bytes, table, n - 1);
      if before.Some? && last.Err? {
        assert !EntryInside(bytes, table.ptr, n - 1);
      } else if before.Some? {
        var regions := before.value + [last.value];
        forall i | 0 <= i < n
          ensures Names(bytes, table.ptr, i, regions[i])
        {
          assert i < n - 1 ==> Names(bytes, table.ptr, i, before.value[i]);
        }
      }
    }
  }

  // ---- The message ----

  /** How many bytes the first `n` entries name. */
  function NamedBefore(bytes: Bytes, table: nat, n: nat): nat
    requires table + 8 * n <= |bytes|
  {
    if n == 0 then 0 else NamedBefore(bytes, table, n - 1) + WordAt(bytes, table + 8 * (n - 1) + 4)
  }

  /** `all` is what the entries name, one after another. */
  ghost predicate Joins(bytes: Bytes, table: nat, n: nat, all: Bytes) {
    && table + 8 * n <= |bytes| && |all| == NamedBefore(bytes, table, n)
    && forall i :: 0 <= i < n ==> HasEntry(bytes, table, i, all)
  }

  ghost predicate HasEntry(bytes: Bytes, table: nat, i: nat, all: Bytes)
    requires table + 8 * i + 8 <= |bytes|
  {
    var ptr, len := WordAt(bytes, table + 8 * i), WordAt(bytes, table + 8 * i + 4);
    var before := NamedBefore(bytes, table, i);
    && ptr + len <= |bytes| && before + len <= |all|
    && all[before..before + len] == bytes[ptr..ptr + len]
  }

  /** One entry more, whose bytes follow. */
  lemma JoinsOneMore(bytes: Bytes, table: nat, n: nat, fewer: Bytes, last: GuestSlice)
    requires Joins(bytes, table, n, fewer) && Names(bytes, table, n, last) && Inside(last, |bytes|)
    ensures Joins(bytes, table, n + 1, fewer + At(bytes, last))
  {
    hide WordAt;
    var all := fewer + At(bytes, last);
    forall i | 0 <= i < n + 1
      ensures HasEntry(bytes, table, i, all)
    {
      if i < n {
        assert HasEntry(bytes, table, i, fewer);
        var from, len := NamedBefore(bytes, table, i), WordAt(bytes, table + 8 * i + 4);
        assert all[from..from + len] == fewer[from..from + len];
      } else {
        assert all[|fewer|..|fewer| + last.len] == bytes[last.ptr..last.ptr + last.len];
      }
    }
  }

  lemma {:induction false} GatheredJoins(bytes: Bytes, table: nat, regions: Regions)
    requires AllInside(regions, |bytes|) && table + 8 * |regions| <= |bytes|
    requires NamesAll(bytes, table, regions)
    ensures Joins(bytes, table, |regions|, Gathered(bytes, regions))
    decreases |regions|
  {
    if regions != [] {
      hide Names, Joins;
      var n := |regions| - 1;
      var before := regions[..n];
      assert regions[n] in regions && forall r :: r in before ==> r in regions;
      forall i | 0 <= i < n
        ensures Names(bytes, table, i, before[i])
      {
        assert before[i] == regions[i];
      }
      GatheredJoins(bytes, table, before);
      JoinsOneMore(bytes, table, n, Gathered(bytes, before), regions[n]);
    }
  }

  /** The end of a log line: no more bytes than the budget, and one newline at the end
      left out. */
  ghost predicate IsLine(all: Bytes, budget: nat, message: Bytes) {
    var cut := all[..Min(|all|, budget)];
    if |cut| > 0 && cut[|cut| - 1] == 10 then message == cut[..|cut| - 1] else message == cut
  }

  lemma LineIsIt(all: Bytes, budget: nat)
    ensures IsLine(all, budget, Line(Cut(all, budget)))
  {
    assert Cut(all, budget) == all[..Min(|all|, budget)];
  }

  /** What is wrong with the arguments of a gather write. */
  function Wrong(bytes: Bytes, fd: i32, table: nat, count: int, nwritten: nat): Option<Errno> {
    if fd != 1 && fd != 2 then Some(Badf)
    else if nwritten + 4 > Min(|bytes|, U32_MAX) then Some(Fault)
    else if count < 0 then Some(Fault)
    else if count > 1024 then Some(Inval)
    else if table + 8 * count > Min(|bytes|, U32_MAX) then Some(Fault)
    else if exists i :: 0 <= i < count && !EntryInside(bytes, table, i) then Some(Fault)
    else None
  }

  lemma WrongIsExact(bytes: Bytes, fd: i32, iovs: i32, iovsLen: i32, nwritten: i32)
    ensures match WellFormed(bytes, fd, iovs, iovsLen, nwritten)
      case Err(errno) => Wrong(bytes, fd, iovs % 0x1_0000_0000, iovsLen, nwritten % 0x1_0000_0000) == Some(errno)
      case Ok(regions) =>
        && Wrong(bytes, fd, iovs % 0x1_0000_0000, iovsLen, nwritten % 0x1_0000_0000).None?
        && |regions| == iovsLen && iovs % 0x1_0000_0000 + 8 * iovsLen <= |bytes| && AllInside(regions, |bytes|)
        && NamesAll(bytes, iovs % 0x1_0000_0000, regions)
  {
    hide RegionsOf, ReadWord, WordAt;
    UnsignedIsTheResidue(iovs);
    UnsignedIsTheResidue(nwritten);
    WordByByte(bytes, Unsigned(nwritten), 0);
    var at := Unsigned(iovs);
    if 0 <= iovsLen <= 1024 && at + 8 * iovsLen <= Min(|bytes|, U32_MAX) {
      var table: GuestSlice := Range(at, 8 * iovsLen);
      RegionsAreNamed(bytes, table, iovsLen);
      var found := RegionsOf(bytes, table, iovsLen);
      if found.Some? {
        NamedAreInside(bytes, at, found.value);
      }
    }
  }

  lemma NamedAreInside(bytes: Bytes, table: nat, regions: Regions)
    requires table + 8 * |regions| <= |bytes|
    requires NamesAll(bytes, table, regions)
    ensures AllInside(regions, |bytes|) <==> forall i :: 0 <= i < |regions| ==> EntryInside(bytes, table, i)
  {
    hide WordAt;
    forall i | 0 <= i < |regions|
      ensures EntryInside(bytes, table, i) <==> Inside(regions[i], |bytes|)
      ensures regions[i] in regions
    {
      assert Names(bytes, table, i, regions[i]);
    }
  }

  /** A gather write, in full. A call with something wrong answers that and changes
      nothing. Another call joins what the entries name, logs the line of it at the
      level of its descriptor unless there is no entry, and leaves the number of all
      joined bytes in its four bytes and no other change. */
  lemma FdWriteInFull(bytes: Bytes, maximum: Option<nat>, fd: i32, iovs: i32, iovsLen: i32, nwritten: i32)
    returns (all: Bytes)
    ensures var table, at := iovs % 0x1_0000_0000, nwritten % 0x1_0000_0000;
      var out := FdWrite(bytes, maximum, fd, iovs, iovsLen, nwritten);
      match Wrong(bytes, fd, table, iovsLen, at)
      case Some(errno) => out == Outcome(bytes, None, Some(errno))
      case None =>
        && out.errno.None? && Joins(bytes, table, iovsLen, all)
        && (out.logged.Some? <==> iovsLen > 0)
        && (out.logged.Some? ==>
              && out.logged.value.level == (if fd == 1 then Info else Level.Error)
              && IsLine(all, if maximum.Some? then maximum.value else |bytes|, out.logged.value.message))
        && |out.bytes| == |bytes| && WordAt(out.bytes, at) == Min(|all|, U32_MAX)
        && forall i :: 0 <= i < |bytes| && !(at <= i < at + 4) ==> out.bytes[i] == bytes[i]
  {
    hide WellFormed, Wrong, WriteWord, ReadWord, Joins, Gathered, Names, Cut, Line;
    WrongIsExact(bytes, fd, iovs, iovsLen, nwritten);
    UnsignedIsTheResidue(nwritten);
    all := [];
    var formed := WellFormed(bytes, fd, iovs, iovsLen, nwritten);
    if formed.Ok? {
      all := Gathered(bytes, formed.value);
      GatheredJoins(bytes, iovs % 0x1_0000_0000, formed.value);
      LineIsIt(all, maximum.GetOr(|bytes|));
      LevelIsIts(bytes, fd, iovs, iovsLen, nwritten);
      WriteOfCount(bytes, Unsigned(nwritten), Min(|all|, U32_MAX));
    }
  }

  lemma LevelIsIts(bytes: Bytes, fd: i32, iovs: i32, iovsLen: i32, nwritten: i32)
    requires WellFormed(bytes, fd, iovs, iovsLen, nwritten).Ok?
    ensures LevelOf(fd) == Some(if fd == 1 then Info else Level.Error)
    ensures WriteWord(bytes, Unsigned(nwritten), 0).Ok?
    ensures Unsigned(nwritten) + 4 <= Min(|bytes|, U32_MAX)
  {
    WordByByte(bytes, Unsigned(nwritten), 0);
  }

  lemma WriteOfCount(bytes: Bytes, ptr: u32, value: u32)
    requires ptr + 4 <= Min(|bytes|, U32_MAX)
    ensures WriteWord(bytes, ptr, value).Ok?
    ensures var after := WriteWord(bytes, ptr, value).value;
      && |after| == |bytes| && WordAt(after, ptr) == value
      && forall i :: 0 <= i < |bytes| && !(ptr <= i < ptr + 4) ==> after[i] == bytes[i]
  {
    hide Number;
    WordByByte(bytes, ptr, value);
    WordIsReadBack(bytes, ptr, value, Range(0, 0));
    WordByByte(WriteWord(bytes, ptr, value).value, ptr, value);
  }

  // ---- The environment ----

  /** The bytes that the entries of variables take. */
  function EntryBytes(environment: Environment): nat {
    if environment == [] then 0
    else
      var last := environment[|environment| - 1];
      EntryBytes(environment[..|environment| - 1]) + |last.key| + 1 + |last.value| + 1
  }

  lemma {:induction false} BlockSize(environment: Environment)
    ensures |Block(environment)| == EntryBytes(environment)
    decreases |environment|
  {
    if environment != [] {
      BlockSize(environment[..|environment| - 1]);
    }
  }

  /** Two words, one after the other, at places that are apart. */
  lemma WritesOfTwo(bytes: Bytes, first: u32, a: u32, second: u32, b: u32)
    requires first + 4 <= second || second + 4 <= first
    requires first + 4 <= Min(|bytes|, U32_MAX) && second + 4 <= Min(|bytes|, U32_MAX)
    ensures WriteWord(bytes, first, a).Ok? && WriteWord(WriteWord(bytes, first, a).value, second, b).Ok?
    ensures var after := WriteWord(WriteWord(bytes, first, a).value, second, b).value;
      && |after| == |bytes| && WordAt(after, first) == a && WordAt(after, second) == b
      && forall i :: 0 <= i < |bytes| && !(first <= i < first + 4) && !(second <= i < second + 4) ==>
           after[i] == bytes[i]
  {
    hide WriteWord, Number;
    WriteOfCount(bytes, first, a);
    var counted := WriteWord(bytes, first, a).value;
    WriteOfCount(counted, second, b);
    var after := WriteWord(counted, second, b).value;
    assert after[first..first + 4] == counted[first..first + 4];
  }

  /** The two sizes of the environment in memory. */
  lemma SizesInFull(bytes: Bytes, environment: Environment, countPtr: u32, sizePtr: u32)
    requires countPtr + 4 <= sizePtr || sizePtr + 4 <= countPtr
    ensures var (after, errno) := EnvironSizesGet(bytes, environment, countPtr, sizePtr);
      && (errno.Some? ==> errno.value == Fault)
      && (errno.None? <==>
            && |environment| <= U32_MAX && EntryBytes(environment) <= U32_MAX
            && countPtr + 4 <= Min(|bytes|, U32_MAX) && sizePtr + 4 <= Min(|bytes|, U32_MAX))
      && (errno.None? ==>
            && |after| == |bytes|
            && WordAt(after, countPtr) == |environment| && WordAt(after, sizePtr) == EntryBytes(environment)
            && forall i :: 0 <= i < |bytes| && !(countPtr <= i < countPtr + 4) && !(sizePtr <= i < sizePtr + 4) ==>
                 after[i] == bytes[i])
  {
    hide WriteWord, ReadWord, WordAt;
    BlockSize(environment);
    SizesAreTold(bytes, environment, countPtr, sizePtr);
    WordByByte(bytes, countPtr, 0);
    WordByByte(bytes, sizePtr, 0);
    if EnvironSizesGet(bytes, environment, countPtr, sizePtr).1.None? {
      WritesOfTwo(bytes, countPtr, |environment|, sizePtr, EntryBytes(environment));
    }
  }

  /** A call that fails has written the count when that was possible, and nothing else. */
  lemma SizesFailInFull(bytes: Bytes, environment: Environment, countPtr: u32, sizePtr: u32)
    requires EnvironSizesGet(bytes, environment, countPtr, sizePtr).1.Some?
    ensures var after := EnvironSizesGet(bytes, environment, countPtr, sizePtr).0;
      if |environment| <= U32_MAX && EntryBytes(environment) <= U32_MAX && countPtr + 4 <= Min(|bytes|, U32_MAX)
      then && |after| == |bytes| && WordAt(after, countPtr) == |environment|
           && forall i :: 0 <= i < |bytes| && !(countPtr <= i < countPtr + 4) ==> after[i] == bytes[i]
      else after == bytes
  {
    hide WriteWord, ReadWord, WordAt;
    BlockSize(environment);
    WordByByte(bytes, countPtr, 0);
    if |environment| <= U32_MAX {
      WordIsReadBack(bytes, countPtr, |environment|, Range(0, 0));
      if countPtr + 4 <= Min(|bytes|, U32_MAX) {
        WriteOfCount(bytes, countPtr, |environment|);
      }
    }
  }

  /** The pointer and the entry of variable `i`: the key, an equals sign, the value and
      a zero byte. */
  ghost predicate VariableAt(after: Bytes, environment: Environment, pointersAt: nat, buffer: nat, i: nat)
    requires i < |environment|
  {
    var v, at := environment[i], buffer + EntryBytes(environment[..i]);
    && pointersAt + 4 * i + 4 <= |after| && at + |v.key| + 1 + |v.value| + 1 <= |after|
    && WordAt(after, pointersAt + 4 * i) == at
    && after[at..at + |v.key|] == v.key && after[at + |v.key|] == 61
    && after[at + |v.key| + 1..at + |v.key| + 1 + |v.value|] == v.value
    && after[at + |v.key| + 1 + |v.value|] == 0
  }

  lemma EntryByByte(after: Bytes, at: nat, v: Variable)
    requires at + |EntryOf(v)| <= |after| && after[at..at + |EntryOf(v)|] == EntryOf(v)
    ensures after[at..at + |v.key|] == v.key && after[at + |v.key|] == 61
    ensures after[at + |v.key| + 1..at + |v.key| + 1 + |v.value|] == v.value
    ensures after[at + |v.key| + 1 + |v.value|] == 0
  {
    var k, n, entry := |v.key|, |v.value|, EntryOf(v);
    forall i | 0 <= i < |entry|
      ensures after[at + i] == entry[i]
    {
      assert after[at..at + |entry|][i] == entry[i];
    }
    assert entry[..k] == v.key && entry[k] == 61 && entry[k + 1..k + 1 + n] == v.value && entry[k + 1 + n] == 0;
    forall i | 0 <= i < k
      ensures after[at + i] == v.key[i]
    {
      assert entry[..k][i] == entry[i];
    }
    forall i | 0 <= i < n
      ensures after[at + k + 1 + i] == v.value[i]
    {
      assert entry[k + 1..k + 1 + n][i] == entry[k + 1 + i];
    }
  }

  lemma ReadInside(bytes: Bytes, slice: GuestSlice, data: Bytes)
    requires ReadAt(bytes, slice) == Ok(data)
    ensures slice.ptr + slice.len <= |bytes| && bytes[slice.ptr..slice.ptr + slice.len] == data
  {
  }

  /** A pointer and an entry, by their numbers and bytes. */
  lemma PointedIsAt(after: Bytes, environment: Environment, pointersAt: u32, buffer: u32, i: nat)
    requires i < |environment| && PointsToEntry(after, environment, pointersAt, buffer, i)
    ensures VariableAt(after, environment, pointersAt, buffer, i)
  {
    hide Block, ReadWord, Number, EntryOf;
    BlockSize(environment[..i]);
    var v, at := environment[i], buffer + EntryBytes(environment[..i]);
    WordByByte(after, pointersAt + 4 * i, 0);
    EntrySize(v);
    ReadInside(after, Range(at, |EntryOf(v)|), EntryOf(v));
    EntryByByte(after, at, v);
  }

  lemma EntrySize(v: Variable)
    ensures |EntryOf(v)| == |v.key| + 1 + |v.value| + 1
  {
  }

  lemma PlacedElsewhere(bytes: Bytes, a: GuestSlice, first: Bytes, b: GuestSlice, second: Bytes)
    requires Inside(a, |bytes|) && |first| == a.len && Inside(b, |bytes|) && |second| == b.len
    ensures forall k :: 0 <= k < |bytes| && !(a.ptr <= k < a.ptr + a.len) && !(b.ptr <= k < b.ptr + b.len) ==>
              Placed(Placed(bytes, a, first), b, second)[k] == bytes[k]
  {
  }

  /** The environment in memory: the call fails for a range that is not inside and for
      nothing else. One that succeeds, with the two ranges apart, leaves for each
      variable its pointer and its entry, and no other change. */
  lemma EnvironGetInFull(bytes: Bytes, environment: Environment, pointersAt: u32, buffer: u32)
    requires pointersAt + 4 * |environment| <= buffer || buffer + EntryBytes(environment) <= pointersAt
    ensures var (after, errno) := EnvironGet(bytes, environment, pointersAt, buffer);
      && (errno.Some? ==> errno.value == Fault)
      && (errno.None? <==>
            && pointersAt + 4 * |environment| <= Min(|bytes|, U32_MAX)
            && buffer + EntryBytes(environment) <= Min(|bytes|, U32_MAX))
      && |after| == |bytes|
      && (errno.None? ==>
            && (forall i :: 0 <= i < |environment| ==> VariableAt(after, environment, pointersAt, buffer, i))
            && forall k :: 0 <= k < |bytes| ==>
                 || after[k] == bytes[k]
                 || pointersAt <= k < pointersAt + 4 * |environment|
                 || buffer <= k < buffer + EntryBytes(environment))
  {
    hide VariableAt, PointsToEntry, Block, Pointers, EnvironGet, Placed;
    BlockSize(environment);
    EnvironGetWrites(bytes, environment, pointersAt, buffer);
    FaultAlone(bytes, environment, pointersAt, buffer);
    var (after, errno) := EnvironGet(bytes, environment, pointersAt, buffer);
    if errno.None? {
      PlacedElsewhere(bytes, Range(pointersAt, 4 * |environment|), Pointers(environment, buffer),
                      Range(buffer, |Block(environment)|), Block(environment));
      forall i | 0 <= i < |environment|
        ensures VariableAt(after, environment, pointersAt, buffer, i)
      {
        EnvironGetPointsToEntries(bytes, environment, pointersAt, buffer, i);
        PointedIsAt(after, environment, pointersAt, buffer, i);
      }
    }
  }

  /** A call that fails has written the pointers when all entries have an address and
      the pointers have their place, and nothing else. */
  lemma EnvironGetFailsInFull(bytes: Bytes, environment: Environment, pointersAt: u32, buffer: u32)
    requires EnvironGet(bytes, environment, pointersAt, buffer).1.Some?
    ensures var after := EnvironGet(bytes, environment, pointersAt, buffer).0;
      var size := 4 * |environment|;
      if buffer + EntryBytes(environment) <= U32_MAX && pointersAt + size <= Min(|bytes|, U32_MAX)
      then && |after| == |bytes|
           && (forall i :: 0 <= i < |environment| ==>
                 WordAt(after, pointersAt + 4 * i) == buffer + EntryBytes(environment[..i]))
           && (forall k :: 0 <= k < |bytes| && !(pointersAt <= k < pointersAt + size) ==> after[k] == bytes[k])
      else after == bytes
  {
    hide Block, Pointers, WordAt;
    BlockSize(environment);
    var after := EnvironGet(bytes, environment, pointersAt, buffer).0;
    if buffer + EntryBytes(environment) <= U32_MAX && pointersAt + 4 * |environment| <= Min(|bytes|, U32_MAX) {
      assert after == Placed(bytes, Range(pointersAt, 4 * |environment|), Pointers(environment, buffer));
      forall i | 0 <= i < |environment|
        ensures WordAt(after, pointersAt + 4 * i) == buffer + EntryBytes(environment[..i])
      {
        PointerIsThere(after, environment, pointersAt, buffer, i);
      }
    }
  }

  lemma SliceOfSlice(data: Bytes, from: nat, to: nat, k: nat)
    requires from + k + 4 <= to <= |data|
    ensures data[from..to][k..k + 4] == data[from + k..from + k + 4]
  {
    var part, same := data[from..to][k..k + 4], data[from + k..from + k + 4];
    forall j | 0 <= j < 4
      ensures part[j] == same[j]
    {
      assert data[from..to][k + j] == data[from + k + j];
    }
  }

  lemma PointerIsThere(after: Bytes, environment: Environment, pointersAt: u32, buffer: u32, i: nat)
    requires i < |environment| && buffer + |Block(environment)| <= U32_MAX
    requires pointersAt + 4 * |environment| <= |after|
    requires after[pointersAt..pointersAt + 4 * |environment|] == Pointers(environment, buffer)
    ensures WordAt(after, pointersAt + 4 * i) == buffer + EntryBytes(environment[..i])
  {
    hide Pointers, Block, Le32, Number;
    PointerInTable(environment, buffer, i);
    BlockSize(environment[..i]);
    WordHasItsDigits(buffer + |Block(environment[..i])|);
    var at := pointersAt + 4 * i;
    SliceOfSlice(after, pointersAt, pointersAt + 4 * |environment|, 4 * i);
  }

  lemma FaultAlone(bytes: Bytes, environment: Environment, pointersAt: u32, buffer: u32)
    ensures EnvironGet(bytes, environment, pointersAt, buffer).1.Some? ==>
      EnvironGet(bytes, environment, pointersAt, buffer).1.value == Fault
  {
  }
}
