/** The WASI calls as the loops they are over the memory of a guest, each proved
    against its function in `Wasi`. */
module WasiHosts {
  import opened Prelude
  import opened LittleEndian
  import opened Memory
  import opened Wasi

  // ---- Steps of the loops ----

  lemma {:induction false} NoRegionsAfter(bytes: Bytes, table: GuestSlice, i: nat, n: nat)
    requires Inside(table, |bytes|) && i <= n && IOVEC_SIZE * n <= table.len
    requires RegionsOf(bytes, table, i).None?
    ensures RegionsOf(bytes, table, n).None?
    decreases n
  {
    if i < n {
      NoRegionsAfter(bytes, table, i, n - 1);
    }
  }

  lemma {:induction false} TotalOfPrefix(regions: Regions, i: nat)
    requires i < |regions|
    ensures TotalLength(regions[..i + 1]) == TotalLength(regions[..i]) + regions[i].len
  {
    assert regions[..i + 1][..i] == regions[..i] && regions[..i + 1][i] == regions[i];
  }

  lemma GatheredStep(bytes: Bytes, regions: Regions, i: nat)
    requires AllInside(regions, |bytes|) && i < |regions|
    ensures Gathered(bytes, regions[..i + 1]) == Gathered(bytes, regions[..i]) + At(bytes, regions[i])
  {
    assert regions[..i + 1][..i] == regions[..i] && regions[..i + 1][i] == regions[i];
  }

  lemma CutOfSum(a: Bytes, b: Bytes, room: nat)
    ensures Cut(a + b, room) == Cut(a, room) + Cut(b, room - |Cut(a, room)|)
  {
  }

  lemma {:induction false} CutIsFull(bytes: Bytes, regions: Regions, i: nat, budget: nat)
    requires AllInside(regions, |bytes|) && i <= |regions| && |Cut(Gathered(bytes, regions[..i]), budget)| == budget
    ensures Cut(Gathered(bytes, regions), budget) == Cut(Gathered(bytes, regions[..i]), budget)
    decreases |regions| - i
  {
    if i < |regions| {
      GatheredStep(bytes, regions, i);
      CutOfSum(Gathered(bytes, regions[..i]), At(bytes, regions[i]), budget);
      CutIsFull(bytes, regions, i + 1, budget);
    } else {
      assert regions[..i] == regions;
    }
  }

  lemma PointersStep(environment: Environment, start: u32, i: nat)
    requires i < |environment| && start + |Block(environment[..i + 1])| <= U32_MAX
    ensures start + |Block(environment[..i])| <= U32_MAX
    ensures Pointers(environment[..i + 1], start) ==
            Pointers(environment[..i], start) + Le32(start + |Block(environment[..i])|)
  {
    BlockGrows(environment, i);
    assert environment[..i + 1][..i] == environment[..i];
  }

  // ---- The host ----

  class WasiHost {
    const memory: GuestMemory
    const maximum: Option<nat>
    const environment: Environment
    var logged: seq<Logged>

    constructor (memory: GuestMemory, maximum: Option<nat>, environment: Environment)
      ensures this.memory == memory && this.maximum == maximum && this.environment == environment && logged == []
    {
      this.memory, this.maximum, this.environment, logged := memory, maximum, environment, [];
    }

    /** Reads the table of regions, one entry after another. */
    method ReadRegions(table: GuestSlice, count: nat) returns (regions: Option<Regions>)
      requires Inside(table, memory.bytes.Length) && table.len == IOVEC_SIZE * count
      ensures regions == RegionsOf(memory.Model(), table, count)
    {
      var entries: Regions := [];
      var i := 0;
      while i < count
        invariant i <= count && RegionsOf(memory.Model(), table, i) == Some(entries)
      {
        var at := table.ptr + IOVEC_SIZE * i;
        var bytes := memory.bytes;
        assert bytes[at..at + 4] == memory.Model()[at..at + 4];
        assert bytes[at + 4..at + 8] == memory.Model()[at + 4..at + 8];
        var ptr, len := FromLe32(bytes[at..at + 4]), FromLe32(bytes[at + 4..at + 8]);
        i := i + 1;
        if ptr + len > U32_MAX {
          assert RegionsOf(memory.Model(), table, i).None?;
          NoRegionsAfter(memory.Model(), table, i, count);
          return None;
        }
        entries := entries + [Range(ptr, len)];
      }
      return Some(entries);
    }

    method CheckRegions(regions: Regions) returns (good: bool)
      ensures good == AllInside(regions, memory.bytes.Length)
    {
      var i := 0;
      while i < |regions|
        invariant i <= |regions| && forall j :: 0 <= j < i ==> Inside(regions[j], memory.bytes.Length)
      {
        if regions[i].ptr + regions[i].len > memory.bytes.Length {
          assert regions[i] in regions;
          return false;
        }
        i := i + 1;
      }
      return true;
    }

    method SumLengths(regions: Regions) returns (total: nat)
      ensures total == TotalLength(regions)
    {
      total := 0;
      var i := 0;
      while i < |regions|
        invariant i <= |regions| && total == TotalLength(regions[..i])
      {
        TotalOfPrefix(regions, i);
        total := total + regions[i].len;
        i := i + 1;
      }
      assert regions[..i] == regions;
    }

    /** Copies regions until the budget is used. */
    method Gather(regions: Regions, budget: nat) returns (message: Bytes)
      requires AllInside(regions, memory.bytes.Length)
      ensures message == Cut(Gathered(memory.Model(), regions), budget)
    {
      hide Gathered;
      message := [];
      var i := 0;
      GatheredNothing(memory.Model());
      assert regions[..0] == [];
      while i < |regions|
        invariant i <= |regions| && message == Cut(Gathered(memory.Model(), regions[..i]), budget)
      {
        var room := budget - |message|;
        if room == 0 {
          CutIsFull(memory.Model(), regions, i, budget);
          return;
        }
        var region := regions[i];
        assert region in regions;
        var bytes := memory.bytes[region.ptr..region.ptr + region.len];
        assert bytes == At(memory.Model(), region);
        GatheredStep(memory.Model(), regions, i);
        CutOfSum(Gathered(memory.Model(), regions[..i]), bytes, budget);
        message := message + bytes[..Min(|bytes|, room)];
        i := i + 1;
      }
      assert regions[..i] == regions;
    }

    lemma GatheredNothing(bytes: Bytes)
      ensures Gathered(bytes, []) == []
    {
    }

    /** The checks of a call, which touch nothing. */
    method Regions(fd: i32, iovs: i32, iovsLen: i32, nwritten: i32) returns (r: Result<Regions, Errno>)
      ensures r == WellFormed(memory.Model(), fd, iovs, iovsLen, nwritten)
    {
      hide RegionsOf;
      if fd != 1 && fd != 2 {
        return Err(Badf);
      }
      var word := memory.ReadU32(Unsigned(nwritten));
      if word.Err? || iovsLen < 0 {
        return Err(Fault);
      }
      if iovsLen > MAX_IOVECS {
        return Err(Inval);
      }
      var start, len := Unsigned(iovs), IOVEC_SIZE * iovsLen;
      if start + len > U32_MAX || start + len > memory.bytes.Length {
        return Err(Fault);
      }
      var regions := ReadRegions(Range(start, len), iovsLen);
      if regions.None? {
        return Err(Fault);
      }
      var good := CheckRegions(regions.value);
      return if good then Ok(regions.value) else Err(Fault);
    }

    /** Logs the gathered regions as one message, and tells the guest that all of
        them were written. */
    method WriteLog(fd: i32, iovs: i32, iovsLen: i32, nwritten: i32) returns (errno: Option<Errno>)
      modifies this, memory.bytes
      ensures var out := FdWrite(old(memory.Model()), maximum, fd, iovs, iovsLen, nwritten);
        && memory.Model() == out.bytes && errno == out.errno
        && logged == old(logged) + if out.logged.Some? then [out.logged.value] else []
    {
      hide WellFormed, Gathered, WriteWord;
      var regions := Regions(fd, iovs, iovsLen, nwritten);
      if regions.Err? {
        return Some(regions.error);
      }
      var level := if fd == 1 then Info else Level.Error;
      assert Some(level) == LevelOf(fd) && AllInside(regions.value, memory.bytes.Length) by {
        FormedCalls(memory.Model(), fd, iovs, iovsLen, nwritten);
      }
      var total := SumLengths(regions.value);
      var message := Gather(regions.value, maximum.GetOr(memory.bytes.Length));
      if message != [] && message[|message| - 1] == NEWLINE {
        message := message[..|message| - 1];
      }
      if iovsLen > 0 {
        logged := logged + [Logged(level, message)];
      }
      var failed := memory.WriteU32(Unsigned(nwritten), Min(total, U32_MAX));
      return if failed.Some? then Some(Fault) else None;
    }

    lemma FormedCalls(bytes: Bytes, fd: i32, iovs: i32, iovsLen: i32, nwritten: i32)
      requires WellFormed(bytes, fd, iovs, iovsLen, nwritten).Ok?
      ensures LevelOf(fd).Some? && AllInside(WellFormed(bytes, fd, iovs, iovsLen, nwritten).value, |bytes|)
    {
    }

    // ---- The environment ----

    method EnvironmentBlock() returns (block: Bytes)
      ensures block == Block(environment)
    {
      block := [];
      var i := 0;
      while i < |environment|
        invariant i <= |environment| && block == Block(environment[..i])
      {
        BlockGrows(environment, i);
        block := block + environment[i].key + [EQUALS] + environment[i].value + [0];
        i := i + 1;
      }
      assert environment[..i] == environment;
    }

    method EnvironSizes(countPtr: u32, sizePtr: u32) returns (errno: Option<Errno>)
      modifies memory.bytes
      ensures (memory.Model(), errno) == EnvironSizesGet(old(memory.Model()), environment, countPtr, sizePtr)
    {
      var block := EnvironmentBlock();
      if |environment| > U32_MAX || |block| > U32_MAX {
        return Some(Fault);
      }
      var failed := memory.WriteU32(countPtr, |environment|);
      if failed.Some? {
        return Some(Fault);
      }
      failed := memory.WriteU32(sizePtr, |block|);
      return if failed.Some? then Some(Fault) else None;
    }

    /** The table of the places of the entries, or nothing when one does not fit. */
    method PointerTable(start: u32) returns (table: Option<Bytes>)
      ensures table == if start + |Block(environment)| > U32_MAX then None else Some(Pointers(environment, start))
    {
      hide Block, Pointers;
      var pointers: Bytes := [];
      var offset := start;
      var i := 0;
      NoPointers(start);
      assert environment[..0] == [];
      while i < |environment|
        invariant i <= |environment| && offset == start + |Block(environment[..i])| <= U32_MAX
        invariant pointers == Pointers(environment[..i], start)
      {
        pointers := pointers + Le32(offset);
        BlockGrows(environment, i);
        var next := offset + |environment[i].key| + |environment[i].value| + 2;
        assert next == start + |Block(environment[..i + 1])|;
        if next > U32_MAX {
          PrefixOfBlock(environment, i + 1);
          return None;
        }
        PointersStep(environment, start, i);
        offset := next;
        i := i + 1;
      }
      assert environment[..i] == environment;
      return Some(pointers);
    }

    lemma NoPointers(start: u32)
      ensures Block([]) == [] && Pointers([], start) == []
    {
    }

    method PutBlock(start: u32, block: Bytes) returns (errno: Option<Errno>)
      modifies memory.bytes
      ensures match WriteBlock(old(memory.Model()), start, block)
        case Ok(after) => errno.None? && memory.Model() == after
        case Err(error) => errno == Some(error) && memory.Model() == old(memory.Model())
    {
      if start + |block| > U32_MAX {
        return Some(Fault);
      }
      var failed := memory.Write(Range(start, |block|), block);
      return if failed.Some? then Some(Fault) else None;
    }

    method Environ(pointersAt: u32, buffer: u32) returns (errno: Option<Errno>)
      modifies memory.bytes
      ensures (memory.Model(), errno) == EnvironGet(old(memory.Model()), environment, pointersAt, buffer)
    {
      hide Block, Pointers, WriteBlock;
      var block := EnvironmentBlock();
      var table := PointerTable(buffer);
      if table.None? {
        return Some(Fault);
      }
      errno := PutBlock(pointersAt, table.value);
      if errno.Some? {
        return;
      }
      errno := PutBlock(buffer, block);
    }
  }
}
