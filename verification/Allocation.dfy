/** A value handed to the guest: the guest allocates, the host copies the bytes
    there, and two words tell the guest where they are. The allocator is guest
    code: it may overwrite the memory, grow it, answer anything, or fail. */
module Allocation {
  import opened Prelude
  import opened LittleEndian
  import opened Memory

  datatype AllocError =
    | Poisoned
    | MissingAllocator
    | ValueTooLarge(size: nat)
    | AllocationFailed(size: nat)
    | CallFailed
    | MemoryFault(error: MemoryError)

  /** What the allocator does when it is called: it leaves `image` at the start of
      the memory, and answers an address or fails. */
  datatype Reply = Reply(image: Bytes, address: Option<i32>)

  /** The memory after guest code left `image`: never smaller than it was. */
  function Overwritten(bytes: Bytes, image: Bytes): (r: Bytes)
    ensures |r| >= |bytes|
  {
    if |image| >= |bytes| then image else image + bytes[|image|..]
  }

  /** `calls` is history: how often the allocator ran. */
  datatype Host = Host(bytes: Bytes, poisoned: bool, hasAllocator: bool, calls: nat)

  function Allocate(h: Host, size: u32, reply: Reply): (Host, Result<u32, AllocError>) {
    if h.poisoned then (h, Err(Poisoned))
    else if !h.hasAllocator then (h, Err(MissingAllocator))
    else if size > I32_MAX then (h, Err(ValueTooLarge(size)))
    else
      var after := h.(bytes := Overwritten(h.bytes, reply.image), calls := h.calls + 1);
      match reply.address
      case None => (after.(poisoned := true), Err(CallFailed))
      case Some(address) =>
        if address == 0 then (after, Err(AllocationFailed(size))) else (after, Ok(Unsigned(address)))
  }

  function WriteToGuest(h: Host, data: Bytes, reply: Reply): (Host, Result<GuestSlice, AllocError>) {
    if |data| > U32_MAX then (h, Err(ValueTooLarge(|data|)))
    else if |data| == 0 then (h, Ok(Range(0, 0)))
    else
      match Allocate(h, |data|, reply)
      case (after, Err(error)) => (after, Err(error))
      case (after, Ok(address)) =>
        match NewSlice(address, |data|)
        case Err(error) => (after, Err(MemoryFault(error)))
        case Ok(slice) =>
          match WriteAt(after.bytes, slice, data)
          case Err(error) => (after, Err(MemoryFault(error)))
          case Ok(bytes) => (after.(bytes := bytes), Ok(slice))
  }

  /** The fault of a pointer that is given and is bad. */
  function PointerFault(bytes: Bytes, pointer: Option<u32>): Option<AllocError> {
    if pointer.None? then None
    else match ReadWord(bytes, pointer.value)
      case Ok(_) => None
      case Err(error) => Some(MemoryFault(error))
  }

  function StoreWord(h: Host, pointer: u32, value: u32): (Host, Option<AllocError>) {
    match WriteWord(h.bytes, pointer, value)
    case Ok(bytes) => (h.(bytes := bytes), None)
    case Err(error) => (h, Some(MemoryFault(error)))
  }

  /** The value at the pointer of the data, with the length it has in the guest. */
  function StoreData(h: Host, data: Bytes, pointer: u32, reply: Reply): (Host, Result<u32, AllocError>) {
    match WriteToGuest(h, data, reply)
    case (after, Err(error)) => (after, Err(error))
    case (after, Ok(slice)) =>
      match StoreWord(after, pointer, slice.ptr)
      case (stored, Some(error)) => (stored, Err(error))
      case (stored, None) => (stored, Ok(slice.len))
  }

  function WriteOptionalReturn(h: Host, data: Bytes, returnData: Option<u32>, returnSize: Option<u32>,
                               reply: Reply): (Host, Option<AllocError>)
  {
    var dataFault := PointerFault(h.bytes, returnData);
    var sizeFault := PointerFault(h.bytes, returnSize);
    if dataFault.Some? then (h, dataFault)
    else if sizeFault.Some? then (h, sizeFault)
    else
      var (placed, len) := if returnData.Some? then StoreData(h, data, returnData.value, reply)
                           else if returnSize.Some? && |data| > U32_MAX then (h, Err(ValueTooLarge(|data|)))
                           else (h, Ok(if |data| > U32_MAX then 0 else |data|));
      match len
      case Err(error) => (placed, Some(error))
      case Ok(size) =>
        if returnSize.Some? then StoreWord(placed, returnSize.value, size) else (placed, None)
  }

  // ---- The laws ----

  /** The allocator runs at most once, and exactly when both given pointers are
      good, the data is wanted and not empty, and the guest can be called for it. */
  lemma AllocatesOnlyForGoodPointers(h: Host, data: Bytes, returnData: Option<u32>, returnSize: Option<u32>,
                                     reply: Reply)
    ensures var (after, _) := WriteOptionalReturn(h, data, returnData, returnSize, reply);
      var runs := PointerFault(h.bytes, returnData).None? && PointerFault(h.bytes, returnSize).None?
                  && returnData.Some? && 0 < |data| <= I32_MAX && !h.poisoned && h.hasAllocator;
      && after.calls == h.calls + (if runs then 1 else 0)
      && (after.poisoned <==> h.poisoned || (runs && reply.address.None?))
      && after.hasAllocator == h.hasAllocator
      && |after.bytes| >= |h.bytes|
  {
    hide Le32, FromLe32, ReadWord, Placed, Overwritten;
  }

  /** A pointer that was good stays good, because the memory never shrinks. */
  lemma PointersStayGood(bytes: Bytes, image: Bytes, pointer: Option<u32>)
    requires PointerFault(bytes, pointer).None?
    ensures PointerFault(Overwritten(bytes, image), pointer).None?
  {
    if pointer.Some? {
      WordIsReadBack(bytes, pointer.value, 0, Range(0, 0));
      WordIsReadBack(Overwritten(bytes, image), pointer.value, 0, Range(0, 0));
    }
  }

  lemma StoreWordWorks(h: Host, pointer: u32, value: u32)
    requires PointerFault(h.bytes, Some(pointer)).None?
    ensures var (after, fault) := StoreWord(h, pointer, value);
      fault.None? && after == h.(bytes := after.bytes) && |after.bytes| == |h.bytes|
      && ReadWord(after.bytes, pointer) == Ok(value)
  {
    WordIsReadBack(h.bytes, pointer, value, Range(0, 0));
  }

  lemma SameSizeSamePointers(a: Bytes, b: Bytes, pointer: Option<u32>)
    requires |a| == |b|
    ensures PointerFault(a, pointer).None? == PointerFault(b, pointer).None?
  {
    if pointer.Some? {
      WordIsReadBack(a, pointer.value, 0, Range(0, 0));
      WordIsReadBack(b, pointer.value, 0, Range(0, 0));
    }
  }

  /** Once the value is placed, the two words are stored: with good pointers the
      call fails exactly when the value cannot be placed or measured. */
  lemma PlacedMeansStored(h: Host, data: Bytes, returnData: Option<u32>, returnSize: Option<u32>, reply: Reply)
    requires PointerFault(h.bytes, returnData).None? && PointerFault(h.bytes, returnSize).None?
    ensures var (_, failed) := WriteOptionalReturn(h, data, returnData, returnSize, reply);
      failed == if returnData.Some? && WriteToGuest(h, data, reply).1.Err?
                then Some(WriteToGuest(h, data, reply).1.error)
                else if returnSize.Some? && |data| > U32_MAX then Some(ValueTooLarge(|data|))
                else None
  {
    if returnData.Some? {
      var (after, placed) := WriteToGuest(h, data, reply);
      PlacedKeepsPointers(h, data, returnData, reply);
      PlacedKeepsPointers(h, data, returnSize, reply);
      if placed.Ok? {
        StoreWordWorks(after, returnData.value, placed.value.ptr);
        var (stored, _) := StoreWord(after, returnData.value, placed.value.ptr);
        SameSizeSamePointers(after.bytes, stored.bytes, returnSize);
        if returnSize.Some? {
          StoreWordWorks(stored, returnSize.value, placed.value.len);
        }
      }
    } else if returnSize.Some? && |data| <= U32_MAX {
      StoreWordWorks(h, returnSize.value, |data|);
    }
  }

  lemma PlacedKeepsPointers(h: Host, data: Bytes, pointer: Option<u32>, reply: Reply)
    requires PointerFault(h.bytes, pointer).None?
    ensures PointerFault(WriteToGuest(h, data, reply).0.bytes, pointer).None?
  {
    PointersStayGood(h.bytes, reply.image, pointer);
    var after := WriteToGuest(h, data, reply).0;
    if |after.bytes| == |h.bytes| {
      SameSizeSamePointers(h.bytes, after.bytes, pointer);
    } else {
      SameSizeSamePointers(Overwritten(h.bytes, reply.image), after.bytes, pointer);
    }
  }

  /** The word at a pointer that is given. */
  function WordAt(pointer: Option<u32>): Option<GuestSlice>
    requires pointer.Some? ==> pointer.value + 4 <= U32_MAX
  {
    if pointer.None? then None
    else
      var slice: GuestSlice := Range(pointer.value, 4);
      Some(slice)
  }

  predicate Apart(word: Option<GuestSlice>, other: GuestSlice) {
    word.Some? ==> Disjoint(word.value, other)
  }

  /** Where a value ended up: each word that is wanted holds its address or its
      length, and its block holds its bytes, as far as the ranges are apart. Every
      range apart from them is as `image` has it. */
  ghost predicate Holds(image: Bytes, after: Bytes, block: GuestSlice, data: Bytes, at: Option<GuestSlice>,
                        size: Option<GuestSlice>)
  {
    && |after| == |image|
    && (size.Some? ==> var word := ReadWord(after, size.value.ptr); word.Ok? && word.value == |data|)
    && (at.Some? && Apart(size, at.value) ==> ReadWord(after, at.value.ptr) == Ok(block.ptr))
    && (at.Some? && Apart(at, block) && Apart(size, block) ==> ReadAt(after, block) == Ok(data))
    && (forall other: GuestSlice :: Apart(at, other) && Apart(size, other) && Disjoint(block, other) ==>
          ReadAt(after, other) == ReadAt(image, other))
  }

  /** The bytes after an optional word was written. */
  function Stored(bytes: Bytes, pointer: Option<u32>, value: u32): Bytes {
    if pointer.Some? && WriteWord(bytes, pointer.value, value).Ok? then WriteWord(bytes, pointer.value, value).value
    else bytes
  }

  predicate Inbounds(bytes: Bytes, pointer: Option<u32>) {
    pointer.Some? ==> pointer.value + 4 <= Min(|bytes|, U32_MAX)
  }

  lemma StoredIsReadBack(bytes: Bytes, pointer: Option<u32>, value: u32)
    requires Inbounds(bytes, pointer)
    ensures |Stored(bytes, pointer, value)| == |bytes|
    ensures pointer.Some? ==> ReadWord(Stored(bytes, pointer, value), pointer.value) == Ok(value)
    ensures forall other: GuestSlice :: Apart(WordAt(pointer), other) ==>
      ReadAt(Stored(bytes, pointer, value), other) == ReadAt(bytes, other)
  {
    hide Le32, FromLe32, WriteWord, ReadWord, Placed, At;
    if pointer.Some? {
      WordIsReadBack(bytes, pointer.value, value, Range(0, 0));
      forall other: GuestSlice | Disjoint(Range(pointer.value, 4), other)
        ensures ReadAt(Stored(bytes, pointer, value), other) == ReadAt(bytes, other)
      {
        WordIsReadBack(bytes, pointer.value, value, other);
      }
    }
  }

  /** A word is the four bytes of its range. */
  lemma WordsAreRanges(a: Bytes, b: Bytes, ptr: u32)
    requires ptr + 4 <= U32_MAX
    ensures ReadAt(a, Range(ptr, 4)) == ReadAt(b, Range(ptr, 4)) && |a| == |b| ==>
      ReadWord(a, ptr) == ReadWord(b, ptr)
  {
  }

  /** The value in place, and then the words that are wanted. */
  lemma WordsAfterTheValue(image: Bytes, placed: Bytes, block: GuestSlice, data: Bytes, returnData: Option<u32>,
                           returnSize: Option<u32>, len: u32)
    requires |placed| == |image| && Inbounds(image, returnData) && Inbounds(image, returnSize)
    requires returnSize.Some? ==> len == |data|
    requires returnData.Some? ==> ReadAt(placed, block) == Ok(data)
    requires forall other: GuestSlice :: Disjoint(block, other) ==> ReadAt(placed, other) == ReadAt(image, other)
    ensures Holds(image, Stored(Stored(placed, returnData, block.ptr), returnSize, len), block, data,
                  WordAt(returnData), WordAt(returnSize))
  {
    hide Stored, ReadAt, ReadWord;
    var stored := Stored(placed, returnData, block.ptr);
    StoredIsReadBack(placed, returnData, block.ptr);
    StoredIsReadBack(stored, returnSize, len);
    if returnData.Some? {
      WordsAreRanges(stored, Stored(stored, returnSize, len), returnData.value);
    }
  }

  lemma PlacedBytes(h: Host, data: Bytes, reply: Reply)
    requires WriteToGuest(h, data, reply).1.Ok?
    ensures var (placed, block) := WriteToGuest(h, data, reply);
      var image := if data == [] then h.bytes else Overwritten(h.bytes, reply.image);
      && |placed.bytes| == |image|
      && ReadAt(placed.bytes, block.value) == Ok(data)
      && (if data == [] then block.value == Range(0, 0)
          else reply.address.Some? && block.value.ptr == reply.address.value % 0x1_0000_0000 != 0)
      && block.value.len == |data|
      && forall other: GuestSlice :: Disjoint(block.value, other) ==>
           ReadAt(placed.bytes, other) == ReadAt(image, other)
  {
    var (placed, block) := WriteToGuest(h, data, reply);
    if data != [] {
      UnsignedIsTheResidue(reply.address.value);
      var image := Overwritten(h.bytes, reply.image);
      assert placed.bytes == Placed(image, block.value, data);
      PlacedIsReadBack(image, block.value, data, Range(0, 0));
      forall other: GuestSlice | Disjoint(block.value, other)
        ensures ReadAt(placed.bytes, other) == ReadAt(image, other)
      {
        if Inside(other, |image|) {
          PlacedIsReadBack(image, block.value, data, other);
        }
      }
    }
  }

  lemma GoodPointers(h: Host, data: Bytes, returnData: Option<u32>, returnSize: Option<u32>, reply: Reply)
    requires WriteOptionalReturn(h, data, returnData, returnSize, reply).1.None?
    ensures PointerFault(h.bytes, returnData).None? && PointerFault(h.bytes, returnSize).None?
    ensures Inbounds(h.bytes, returnData) && Inbounds(h.bytes, returnSize)
  {
    hide StoreData, StoreWord;
    if returnData.Some? {
      WordIsReadBack(h.bytes, returnData.value, 0, Range(0, 0));
    }
    if returnSize.Some? {
      WordIsReadBack(h.bytes, returnSize.value, 0, Range(0, 0));
    }
  }

  /** What a successful call leaves, as the value and then the two words. */
  lemma ReturnsInSteps(h: Host, data: Bytes, returnData: Option<u32>, returnSize: Option<u32>, reply: Reply)
    requires WriteOptionalReturn(h, data, returnData, returnSize, reply).1.None?
    ensures returnData.Some? ==> WriteToGuest(h, data, reply).1.Ok?
    ensures returnSize.Some? ==> |data| <= U32_MAX
    ensures var placed := if returnData.Some? then WriteToGuest(h, data, reply).0.bytes else h.bytes;
      var start := if returnData.Some? then WriteToGuest(h, data, reply).1.value.ptr else 0;
      WriteOptionalReturn(h, data, returnData, returnSize, reply).0.bytes
      == Stored(Stored(placed, returnData, start), returnSize, if |data| <= U32_MAX then |data| else 0)
  {
    hide Allocate, PointerFault, WriteAt, WriteWord;
  }

  /** For every choice of the two pointers and every value, empty or not: a call that
      succeeds leaves what was asked for. A value that is wanted and not empty is at
      an address that is not zero, in memory that the allocator left; otherwise the
      address is zero, and besides the words the memory is as it was. */
  lemma ReturnsTheValue(h: Host, data: Bytes, returnData: Option<u32>, returnSize: Option<u32>, reply: Reply)
    ensures var (host, failed) := WriteOptionalReturn(h, data, returnData, returnSize, reply);
      failed.None? ==>
        && Inbounds(h.bytes, returnData) && Inbounds(h.bytes, returnSize)
        && (returnData.Some? ==> WriteToGuest(h, data, reply).1.Ok?)
        && var block := if returnData.Some? then WriteToGuest(h, data, reply).1.value else Range(0, 0);
        && var placed := returnData.Some? && data != [];
        && (if placed
            then && reply.address.Some? && block.ptr == reply.address.value % 0x1_0000_0000 != 0
                 && block.len == |data|
            else block == Range(0, 0))
        && Holds(if placed then Overwritten(h.bytes, reply.image) else h.bytes, host.bytes, block, data,
                 WordAt(returnData), WordAt(returnSize))
  {
    hide WriteToGuest, Stored, Holds, ReadAt, WriteOptionalReturn;
    if WriteOptionalReturn(h, data, returnData, returnSize, reply).1.None? {
      GoodPointers(h, data, returnData, returnSize, reply);
      ReturnsInSteps(h, data, returnData, returnSize, reply);
      var len := if |data| <= U32_MAX then |data| else 0;
      if returnData.Some? {
        PlacedBytes(h, data, reply);
        var (placed, block) := WriteToGuest(h, data, reply);
        var image := if data == [] then h.bytes else Overwritten(h.bytes, reply.image);
        WordsAfterTheValue(image, placed.bytes, block.value, data, returnData, returnSize, len);
      } else {
        WordsAfterTheValue(h.bytes, h.bytes, Range(0, 0), data, None, returnSize, len);
      }
    }
  }

  // ---- The failures ----

  /** Why a word at `ptr` is out of reach in a memory of `size` bytes. */
  function WordFault(size: nat, ptr: u32): Option<AllocError> {
    if ptr + 4 > U32_MAX then Some(MemoryFault(RangeOverflow(ptr, 4)))
    else if ptr + 4 > size then Some(MemoryFault(OutOfBounds(ptr, 4, size)))
    else None
  }

  /** Why a value that is not empty cannot be placed. `size` is that of the memory after
      the allocator ran. */
  function PlaceFault(h: Host, len: nat, reply: Reply, size: nat): Option<AllocError> {
    if len > U32_MAX then Some(ValueTooLarge(len))
    else if h.poisoned then Some(Poisoned)
    else if !h.hasAllocator then Some(MissingAllocator)
    else if len > 0x7FFF_FFFF then Some(ValueTooLarge(len))
    else if reply.address.None? then Some(CallFailed)
    else if reply.address.value == 0 then Some(AllocationFailed(len))
    else
      var address := reply.address.value % 0x1_0000_0000;
      if address + len > U32_MAX then Some(MemoryFault(RangeOverflow(address, len)))
      else if address + len > size then Some(MemoryFault(OutOfBounds(address, len, size)))
      else None
  }

  /** Guest code leaves its image at the start, and the rest as it was. */
  lemma OverwrittenByByte(bytes: Bytes, image: Bytes, i: nat)
    requires i < |Overwritten(bytes, image)|
    ensures |Overwritten(bytes, image)| == if |image| > |bytes| then |image| else |bytes|
    ensures Overwritten(bytes, image)[i] == if i < |image| then image[i] else bytes[i]
  {
  }

  lemma OverwrittenSize(bytes: Bytes, image: Bytes)
    ensures |Overwritten(bytes, image)| == if |image| > |bytes| then |image| else |bytes|
  {
  }

  lemma PointerFaultIs(bytes: Bytes, pointer: Option<u32>)
    ensures PointerFault(bytes, pointer) == if pointer.None? then None else WordFault(|bytes|, pointer.value)
  {
    if pointer.Some? {
      WordByByte(bytes, pointer.value, 0);
    }
  }

  lemma PlacingFails(h: Host, data: Bytes, reply: Reply)
    requires data != []
    ensures var (after, placed) := WriteToGuest(h, data, reply);
      var fault := PlaceFault(h, |data|, reply, if |reply.image| > |h.bytes| then |reply.image| else |h.bytes|);
      && (placed.Ok? <==> fault.None?)
      && (placed.Err? ==> fault == Some(placed.error))
      && (placed.Err? ==>
            after.bytes == if after.calls > h.calls then Overwritten(h.bytes, reply.image) else h.bytes)
  {
    hide Overwritten, Placed;
    OverwrittenSize(h.bytes, reply.image);
    if reply.address.Some? {
      UnsignedIsTheResidue(reply.address.value);
    }
  }

  /** Why a return fails: a bad pointer of the data, then one of the size, then what
      keeps the value from its place, then a length that no word holds. */
  function ReturnFault(h: Host, data: Bytes, returnData: Option<u32>, returnSize: Option<u32>,
                       reply: Reply): Option<AllocError>
  {
    var size := if |reply.image| > |h.bytes| then |reply.image| else |h.bytes|;
    if returnData.Some? && WordFault(|h.bytes|, returnData.value).Some?
    then WordFault(|h.bytes|, returnData.value)
    else if returnSize.Some? && WordFault(|h.bytes|, returnSize.value).Some?
    then WordFault(|h.bytes|, returnSize.value)
    else if returnData.Some? && data != [] then PlaceFault(h, |data|, reply, size)
    else if returnSize.Some? && |data| > U32_MAX then Some(ValueTooLarge(|data|))
    else None
  }

  /** A return answers the first fault in that order, and leaves the memory as it was,
      or as the allocator left it when that ran. */
  lemma ReturnFailsExactlyWhen(h: Host, data: Bytes, returnData: Option<u32>, returnSize: Option<u32>, reply: Reply)
    ensures var (after, failed) := WriteOptionalReturn(h, data, returnData, returnSize, reply);
      && failed == ReturnFault(h, data, returnData, returnSize, reply)
      && (failed.Some? ==>
            after.bytes == if after.calls > h.calls then Overwritten(h.bytes, reply.image) else h.bytes)
  {
    hide Overwritten, PlaceFault, WriteToGuest, PointerFault;
    PointerFaultIs(h.bytes, returnData);
    PointerFaultIs(h.bytes, returnSize);
    if PointerFault(h.bytes, returnData).None? && PointerFault(h.bytes, returnSize).None? {
      PlacedMeansStored(h, data, returnData, returnSize, reply);
      if data != [] {
        PlacingFails(h, data, reply);
      } else {
        EmptyIsPlaced(h, reply);
      }
    }
  }

  lemma EmptyIsPlaced(h: Host, reply: Reply)
    ensures WriteToGuest(h, [], reply) == (h, Ok(Range(0, 0)))
  {
  }
}
