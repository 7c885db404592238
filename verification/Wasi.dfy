/** The gather write of a log message and the environment of a guest: what each
    call answers and leaves in memory, as functions, and their laws. */
module Wasi {
  import opened Prelude
  import opened LittleEndian
  import opened Memory

  datatype Errno = Badf | Inval | Fault

  datatype Level = Info | Error

  const MAX_IOVECS: nat := 1024
  const IOVEC_SIZE: nat := 8
  const NEWLINE: byte := 10
  const EQUALS: byte := 61

  type Regions = seq<GuestSlice>

  // ---- fd_write ----

  function LevelOf(fd: i32): Option<Level> {
    if fd == 1 then Some(Info) else if fd == 2 then Some(Level.Error) else None
  }

  /** The region that entry `i` of the table names. */
  function RegionAt(bytes: Bytes, table: GuestSlice, i: nat): Result<GuestSlice, MemoryError>
    requires Inside(table, |bytes|) && IOVEC_SIZE * (i + 1) <= table.len
  {
    var at := table.ptr + IOVEC_SIZE * i;
    NewSlice(FromLe32(bytes[at..at + 4]), FromLe32(bytes[at + 4..at + 8]))
  }

  /** The first `n` regions, when every end fits 32 bits. */
  function RegionsOf(bytes: Bytes, table: GuestSlice, n: nat): (r: Option<Regions>)
    requires Inside(table, |bytes|) && IOVEC_SIZE * n <= table.len
    ensures r.Some? ==> |r.value| == n
  {
    if n == 0 then Some([])
    else
      match RegionsOf(bytes, table, n - 1)
      case None => None
      case Some(before) =>
        match RegionAt(bytes, table, n - 1)
        case Err(_) => None
        case Ok(region) => Some(before + [region])
  }

  predicate AllInside(regions: Regions, size: nat) {
    forall r :: r in regions ==> Inside(r, size)
  }

  /** All bytes of the regions, one region after another. */
  function Gathered(bytes: Bytes, regions: Regions): (r: Bytes)
    requires AllInside(regions, |bytes|)
    ensures |r| == TotalLength(regions)
  {
    if regions == [] then []
    else
      var last := regions[|regions| - 1];
      assert last in regions;
      Gathered(bytes, regions[..|regions| - 1]) + At(bytes, last)
  }

  function TotalLength(regions: Regions): nat {
    if regions == [] then 0 else TotalLength(regions[..|regions| - 1]) + regions[|regions| - 1].len
  }

  function Cut(data: Bytes, room: nat): Bytes {
    if |data| <= room then data else data[..room]
  }

  /** Without one newline at the end. */
  function Line(data: Bytes): Bytes {
    if data != [] && data[|data| - 1] == NEWLINE then data[..|data| - 1] else data
  }

  /** The regions of a call that is well formed: the descriptor is one of the two,
      the count is allowed, and every pointer is inside the memory. */
  function WellFormed(bytes: Bytes, fd: i32, iovs: i32, iovsLen: i32, nwritten: i32): Result<Regions, Errno> {
    if LevelOf(fd).None? then Err(Badf)
    else if ReadWord(bytes, Unsigned(nwritten)).Err? then Err(Fault)
    else if iovsLen < 0 then Err(Fault)
    else if iovsLen > MAX_IOVECS then Err(Inval)
    else
      match NewSlice(Unsigned(iovs), IOVEC_SIZE * iovsLen)
      case Err(_) => Err(Fault)
      case Ok(table) =>
        if !Inside(table, |bytes|) then Err(Fault)
        else
          match RegionsOf(bytes, table, iovsLen)
          case None => Err(Fault)
          case Some(regions) => if AllInside(regions, |bytes|) then Ok(regions) else Err(Fault)
  }

  datatype Logged = Logged(level: Level, message: Bytes)

  /** What a call leaves: the memory, at most one message, and an error. */
  datatype Outcome = Outcome(bytes: Bytes, logged: Option<Logged>, errno: Option<Errno>)

  function FdWrite(bytes: Bytes, maximum: Option<nat>, fd: i32, iovs: i32, iovsLen: i32, nwritten: i32): Outcome {
    match WellFormed(bytes, fd, iovs, iovsLen, nwritten)
    case Err(errno) => Outcome(bytes, None, Some(errno))
    case Ok(regions) =>
      var message := Line(Cut(Gathered(bytes, regions), maximum.GetOr(|bytes|)));
      var logged := if iovsLen > 0 then Some(Logged(LevelOf(fd).value, message)) else None;
      match WriteWord(bytes, Unsigned(nwritten), Min(TotalLength(regions), U32_MAX))
      case Ok(after) => Outcome(after, logged, None)
      case Err(_) => Outcome(bytes, logged, Some(Fault))
  }

  /** What a well formed call leaves: one message of no more bytes than the budget
      when there is a region, the count of every byte whatever was cut, and no other
      change of the memory. */
  ghost predicate LogsWhole(bytes: Bytes, budget: nat, regions: Regions, nwritten: u32, out: Outcome)
    requires AllInside(regions, |bytes|)
  {
    var cut := Cut(Gathered(bytes, regions), budget);
    && out.errno.None?
    && (out.logged.Some? <==> regions != [])
    && (out.logged.Some? ==>
          var message := out.logged.value.message;
          && |message| <= budget
          && (message == cut || message + [NEWLINE] == cut)
          && (cut != [] && cut[|cut| - 1] == NEWLINE ==> message != cut))
    && nwritten + 4 <= U32_MAX
    && |out.bytes| == |bytes|
    && ReadWord(out.bytes, nwritten) == Ok(Min(|Gathered(bytes, regions)|, U32_MAX))
    && forall other: GuestSlice :: Disjoint(Range(nwritten, 4), other) ==>
         ReadAt(out.bytes, other) == ReadAt(bytes, other)
  }

  /** A call whose descriptor, count, pointers or regions are bad logs nothing and
      writes nothing, and any other call succeeds. */
  lemma FdWriteLogsWhole(bytes: Bytes, maximum: Option<nat>, fd: i32, iovs: i32, iovsLen: i32, nwritten: i32)
    ensures var out := FdWrite(bytes, maximum, fd, iovs, iovsLen, nwritten);
      var formed := WellFormed(bytes, fd, iovs, iovsLen, nwritten);
      && (formed.Err? ==> out == Outcome(bytes, None, Some(formed.error)))
      && (formed.Ok? ==>
            && LogsWhole(bytes, maximum.GetOr(|bytes|), formed.value, Unsigned(nwritten), out)
            && (out.logged.Some? ==> Some(out.logged.value.level) == LevelOf(fd)))
  {
    hide WriteWord, ReadWord, RegionsOf, RegionAt, Le32, FromLe32, Gathered, TotalLength;
    var formed := WellFormed(bytes, fd, iovs, iovsLen, nwritten);
    if formed.Ok? {
      var ptr, written := Unsigned(nwritten), Min(TotalLength(formed.value), U32_MAX);
      WordIsReadBack(bytes, ptr, written, Range(0, 0));
      forall other: GuestSlice | Disjoint(Range(ptr, 4), other)
        ensures ReadAt(WriteWord(bytes, ptr, written).value, other) == ReadAt(bytes, other)
      {
        WordIsReadBack(bytes, ptr, written, other);
      }
    }
  }

  // ---- The environment ----

  datatype Variable = Variable(key: Bytes, value: Bytes)

  type Environment = seq<Variable>

  function EntryOf(v: Variable): (r: Bytes)
    ensures |r| == |v.key| + |v.value| + 2 && r[|r| - 1] == 0
  {
    v.key + [EQUALS] + v.value + [0]
  }

  /** The entries of the variables, one after another. */
  function Block(environment: Environment): Bytes {
    if environment == [] then []
    else Block(environment[..|environment| - 1]) + EntryOf(environment[|environment| - 1])
  }

  lemma BlockGrows(environment: Environment, i: nat)
    requires i < |environment|
    ensures Block(environment[..i + 1]) == Block(environment[..i]) + EntryOf(environment[i])
  {
    assert environment[..i + 1][..i] == environment[..i] && environment[..i + 1][i] == environment[i];
  }

  /** The pointer table: where each entry starts, for a block at `start`. */
  function Pointers(environment: Environment, start: u32): (r: Bytes)
    requires start + |Block(environment)| <= U32_MAX
    ensures |r| == 4 * |environment|
  {
    if environment == [] then []
    else
      var before := environment[..|environment| - 1];
      Pointers(before, start) + Le32(start + |Block(before)|)
  }

  /** A range at `start`, or nothing when its end does not fit. */
  function WriteBlock(bytes: Bytes, start: u32, block: Bytes): Result<Bytes, Errno> {
    if start + |block| > U32_MAX then Err(Fault)
    else match WriteAt(bytes, Range(start, |block|), block)
      case Ok(after) => Ok(after)
      case Err(_) => Err(Fault)
  }

  function EnvironSizesGet(bytes: Bytes, environment: Environment, countPtr: u32,
                           sizePtr: u32): (Bytes, Option<Errno>)
  {
    if |environment| > U32_MAX || |Block(environment)| > U32_MAX then (bytes, Some(Fault))
    else match WriteWord(bytes, countPtr, |environment|)
      case Err(_) => (bytes, Some(Fault))
      case Ok(counted) =>
        match WriteWord(counted, sizePtr, |Block(environment)|)
        case Err(_) => (counted, Some(Fault))
        case Ok(sized) => (sized, None)
  }

  function EnvironGet(bytes: Bytes, environment: Environment, pointersAt: u32, buffer: u32): (Bytes, Option<Errno>) {
    if buffer + |Block(environment)| > U32_MAX then (bytes, Some(Fault))
    else match WriteBlock(bytes, pointersAt, Pointers(environment, buffer))
      case Err(errno) => (bytes, Some(errno))
      case Ok(listed) =>
        match WriteBlock(listed, buffer, Block(environment))
        case Err(errno) => (listed, Some(errno))
        case Ok(after) => (after, None)
  }

  lemma {:induction false} PrefixOfBlock(environment: Environment, i: nat)
    requires i <= |environment|
    ensures |Block(environment[..i])| <= |Block(environment)|
    ensures Block(environment)[..|Block(environment[..i])|] == Block(environment[..i])
    decreases |environment| - i
  {
    if i < |environment| {
      PrefixOfBlock(environment, i + 1);
      BlockGrows(environment, i);
      var n := |Block(environment[..i])|;
      assert Block(environment)[..|Block(environment[..i + 1])|][..n] == Block(environment)[..n];
      assert Block(environment[..i + 1])[..n] == Block(environment[..i]);
    } else {
      assert environment[..i] == environment;
    }
  }

  /** Entry `i` of the block starts where the entries before it end. */
  lemma EntryInBlock(environment: Environment, i: nat)
    requires i < |environment|
    ensures var at := |Block(environment[..i])|;
      && at + |EntryOf(environment[i])| <= |Block(environment)|
      && Block(environment)[at..at + |EntryOf(environment[i])|] == EntryOf(environment[i])
  {
    PrefixOfBlock(environment, i + 1);
    BlockGrows(environment, i);
    var at := |Block(environment[..i])|;
    var end := |Block(environment[..i + 1])|;
    assert Block(environment)[..end][at..] == Block(environment)[at..end];
    assert Block(environment[..i + 1])[at..] == EntryOf(environment[i]);
  }

  lemma WordsOfTheSum(table: Bytes, word: Bytes, k: nat)
    requires |word| == 4
    ensures (table + word)[|table|..|table| + 4] == word
    ensures k + 4 <= |table| ==> (table + word)[k..k + 4] == table[k..k + 4]
  {
  }

  lemma {:induction false} PointerInTable(environment: Environment, start: u32, i: nat)
    requires i < |environment| && start + |Block(environment)| <= U32_MAX
    ensures start + |Block(environment[..i])| <= U32_MAX
    ensures Pointers(environment, start)[4 * i..4 * i + 4] == Le32(start + |Block(environment[..i])|)
    decreases |environment|
  {
    hide Le32, Block;
    var before := environment[..|environment| - 1];
    PrefixOfBlock(environment, i);
    PrefixOfBlock(environment, |before|);
    WordsOfTheSum(Pointers(before, start), Le32(start + |Block(before)|), 4 * i);
    if i < |before| {
      PointerInTable(before, start, i);
      assert before[..i] == environment[..i];
    }
  }

  /** The pointer of variable `i` and what it points to, in memory. */
  ghost predicate PointsToEntry(after: Bytes, environment: Environment, pointersAt: u32, buffer: u32, i: nat)
    requires i < |environment|
  {
    var address := buffer + |Block(environment[..i])|;
    && pointersAt + 4 * i + 4 <= U32_MAX && address + |EntryOf(environment[i])| <= U32_MAX
    && ReadWord(after, pointersAt + 4 * i) == Ok(address)
    && ReadAt(after, Range(address, |EntryOf(environment[i])|)) == Ok(EntryOf(environment[i]))
  }

  lemma SliceOfAt(bytes: Bytes, whole: GuestSlice, from: nat, len: nat)
    requires Inside(whole, |bytes|) && from + len <= whole.len
    ensures whole.ptr + from + len <= U32_MAX
    ensures At(bytes, Range(whole.ptr + from, len)) == At(bytes, whole)[from..from + len]
  {
  }

  /** A call writes the table and then the block, when both ranges are inside the
      memory, and fails for no other reason. */
  lemma EnvironGetWrites(bytes: Bytes, environment: Environment, pointersAt: u32, buffer: u32)
    ensures var (after, errno) := EnvironGet(bytes, environment, pointersAt, buffer);
      && (errno.None? <==>
            && pointersAt + 4 * |environment| <= Min(|bytes|, U32_MAX)
            && buffer + |Block(environment)| <= Min(|bytes|, U32_MAX))
      && |after| == |bytes|
      && (errno.None? ==>
            after == Placed(Placed(bytes, Range(pointersAt, 4 * |environment|), Pointers(environment, buffer)),
                            Range(buffer, |Block(environment)|), Block(environment)))
  {
    hide Placed, Pointers, Block;
  }

  /** With the two ranges apart, a call that succeeds leaves for each variable a
      pointer to the place of its entry. The table has four bytes for each variable,
      and the block has the size that the other call told. */
  lemma EnvironGetPointsToEntries(bytes: Bytes, environment: Environment, pointersAt: u32, buffer: u32, i: nat)
    requires i < |environment| && EnvironGet(bytes, environment, pointersAt, buffer).1.None?
    ensures pointersAt + 4 * |environment| <= U32_MAX && buffer + |Block(environment)| <= U32_MAX
    ensures Disjoint(Range(pointersAt, 4 * |environment|), Range(buffer, |Block(environment)|)) ==>
      PointsToEntry(EnvironGet(bytes, environment, pointersAt, buffer).0, environment, pointersAt, buffer, i)
  {
    hide Placed, Pointers, Block, EnvironGet, EntryOf, At, Le32, FromLe32;
    EnvironGetWrites(bytes, environment, pointersAt, buffer);
    var table: GuestSlice := Range(pointersAt, 4 * |environment|);
    var block: GuestSlice := Range(buffer, |Block(environment)|);
    if Disjoint(table, block) {
      var listed := Placed(bytes, table, Pointers(environment, buffer));
      var after := Placed(listed, block, Block(environment));
      PlacedIsReadBack(bytes, table, Pointers(environment, buffer), block);
      PlacedIsReadBack(listed, block, Block(environment), table);
      EntryInBlock(environment, i);
      PointerInTable(environment, buffer, i);
      SliceOfAt(after, table, 4 * i, 4);
      SliceOfAt(after, block, |Block(environment[..i])|, |EntryOf(environment[i])|);
    }
  }

  /** What the first call told. */
  lemma SizesAreTold(bytes: Bytes, environment: Environment, countPtr: u32, sizePtr: u32)
    ensures EnvironSizesGet(bytes, environment, countPtr, sizePtr).1.None? <==>
      && |environment| <= U32_MAX && |Block(environment)| <= U32_MAX
      && ReadWord(bytes, countPtr).Ok? && ReadWord(bytes, sizePtr).Ok?
    ensures EnvironSizesGet(bytes, environment, countPtr, sizePtr).1.None? ==>
      var after := EnvironSizesGet(bytes, environment, countPtr, sizePtr).0;
      && |after| == |bytes|
      && ReadWord(after, sizePtr) == Ok(|Block(environment)|)
      && (countPtr + 4 <= U32_MAX && sizePtr + 4 <= U32_MAX && Disjoint(Range(countPtr, 4), Range(sizePtr, 4)) ==>
            ReadWord(after, countPtr) == Ok(|environment|))
  {
    hide ReadAt, FromLe32, Le32;
    if |environment| <= U32_MAX && |Block(environment)| <= U32_MAX {
      WordIsReadBack(bytes, countPtr, |environment|, Range(0, 0));
      WordIsReadBack(bytes, sizePtr, 0, Range(0, 0));
      if WriteWord(bytes, countPtr, |environment|).Ok? {
        var counted := WriteWord(bytes, countPtr, |environment|).value;
        WordIsReadBack(counted, sizePtr, |Block(environment)|, Range(countPtr, 4));
        WordsOfEqualRanges(counted, EnvironSizesGet(bytes, environment, countPtr, sizePtr).0, countPtr);
      }
    }
  }

  lemma WordsOfEqualRanges(a: Bytes, b: Bytes, ptr: u32)
    requires ptr + 4 <= U32_MAX
    ensures ptr + 4 <= |a| && |a| == |b| && At(a, Range(ptr, 4)) == At(b, Range(ptr, 4)) ==>
      ReadWord(a, ptr) == ReadWord(b, ptr)
  {
  }
}
