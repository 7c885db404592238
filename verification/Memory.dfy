/** Checked access to the memory of a guest: what a read and a write answer as
    functions of its bytes, and the view that writes in place. */
module Memory {
  import opened Prelude
  import opened LittleEndian

  /** An argument of a guest, whose bits the host reads as unsigned. */
  type i32 = x: int | -0x8000_0000 <= x <= I32_MAX

  function Unsigned(x: i32): u32 {
    if x < 0 then x + 0x1_0000_0000 else x
  }

  datatype MemoryError =
    | RangeOverflow(ptr: u32, len: u32)
    | OutOfBounds(ptr: u32, len: u32, size: nat)
    | LengthMismatch(expected: u32, actual: nat)

  datatype Range = Range(ptr: u32, len: u32)

  /** A range whose end fits 32 bits. */
  type GuestSlice = r: Range | r.ptr + r.len <= U32_MAX witness Range(0, 0)

  function NewSlice(ptr: u32, len: u32): (r: Result<GuestSlice, MemoryError>)
    ensures r.Ok? <==> ptr + len <= U32_MAX
  {
    if ptr + len <= U32_MAX then Ok(Range(ptr, len)) else Err(RangeOverflow(ptr, len))
  }

  predicate Inside(slice: GuestSlice, size: nat) {
    slice.ptr + slice.len <= size
  }

  function Outside(slice: GuestSlice, size: nat): MemoryError {
    OutOfBounds(slice.ptr, slice.len, size)
  }

  function At(bytes: Bytes, slice: GuestSlice): (r: Bytes)
    requires Inside(slice, |bytes|)
  {
    bytes[slice.ptr..slice.ptr + slice.len]
  }

  /** The bytes with `data` in the place of the slice. */
  function Placed(bytes: Bytes, slice: GuestSlice, data: Bytes): (r: Bytes)
    requires Inside(slice, |bytes|) && |data| == slice.len
    ensures |r| == |bytes|
  {
    bytes[..slice.ptr] + data + bytes[slice.ptr + slice.len..]
  }

  function ReadAt(bytes: Bytes, slice: GuestSlice): Result<Bytes, MemoryError> {
    if Inside(slice, |bytes|) then Ok(At(bytes, slice)) else Err(Outside(slice, |bytes|))
  }

  function WriteAt(bytes: Bytes, slice: GuestSlice, data: Bytes): Result<Bytes, MemoryError> {
    if |data| != slice.len then Err(LengthMismatch(slice.len, |data|))
    else if Inside(slice, |bytes|) then Ok(Placed(bytes, slice, data))
    else Err(Outside(slice, |bytes|))
  }

  function ReadWord(bytes: Bytes, ptr: u32): Result<u32, MemoryError> {
    match NewSlice(ptr, 4)
    case Err(error) => Err(error)
    case Ok(slice) =>
      match ReadAt(bytes, slice)
      case Err(error) => Err(error)
      case Ok(word) => Ok(FromLe32(word))
  }

  function WriteWord(bytes: Bytes, ptr: u32, value: u32): Result<Bytes, MemoryError> {
    match NewSlice(ptr, 4)
    case Err(error) => Err(error)
    case Ok(slice) => WriteAt(bytes, slice, Le32(value))
  }

  // ---- The laws ----

  predicate Disjoint(a: GuestSlice, b: GuestSlice) {
    a.ptr + a.len <= b.ptr || b.ptr + b.len <= a.ptr
  }

  /** A write is byte `k` of the data at byte `k` of the range and no other change. It
      is refused for a length that is not the one of the range, before it is for a
      range that is not inside, and a read for that alone. */
  lemma AccessByByte(bytes: Bytes, slice: GuestSlice, data: Bytes)
    ensures match WriteAt(bytes, slice, data)
      case Ok(after) =>
        && |data| == slice.len && slice.ptr + slice.len <= |bytes| && |after| == |bytes|
        && forall i :: 0 <= i < |bytes| ==>
             after[i] == if slice.ptr <= i < slice.ptr + slice.len then data[i - slice.ptr] else bytes[i]
      case Err(LengthMismatch(expected, actual)) => expected == slice.len && actual == |data| != expected
      case Err(OutOfBounds(ptr, len, size)) =>
        && Range(ptr, len) == slice && size == |bytes| < ptr + len && |data| == len
      case Err(RangeOverflow(_, _)) => false
    ensures match ReadAt(bytes, slice)
      case Ok(read) =>
        && slice.ptr + slice.len <= |bytes| && |read| == slice.len
        && forall k :: 0 <= k < slice.len ==> read[k] == bytes[slice.ptr + k]
      case Err(error) => slice.ptr + slice.len > |bytes| && error == OutOfBounds(slice.ptr, slice.len, |bytes|)
  {
  }

  /** A word in memory is four bytes, the first the least. One whose end does not fit
      32 bits overflows, and another one past the end is out of bounds. */
  lemma WordByByte(bytes: Bytes, ptr: u32, value: u32)
    ensures match ReadWord(bytes, ptr)
      case Ok(read) => ptr + 4 <= Min(|bytes|, U32_MAX) && read == Number(bytes[ptr..ptr + 4])
      case Err(RangeOverflow(at, len)) => ptr + 4 > U32_MAX && at == ptr && len == 4
      case Err(error) => |bytes| < ptr + 4 <= U32_MAX && error == OutOfBounds(ptr, 4, |bytes|)
    ensures WriteWord(bytes, ptr, value).Ok? ==>
      var after := WriteWord(bytes, ptr, value).value;
      && ptr + 4 <= |bytes| == |after|
      && after[ptr] == value % 0x100 && after[ptr + 1] == value / 0x100 % 0x100
      && after[ptr + 2] == value / 0x1_0000 % 0x100 && after[ptr + 3] == value / 0x100_0000 % 0x100
      && forall i :: 0 <= i < |bytes| && !(ptr <= i < ptr + 4) ==> after[i] == bytes[i]
    ensures WriteWord(bytes, ptr, value).Err? ==>
      ReadWord(bytes, ptr) == Err(WriteWord(bytes, ptr, value).error)
  {
    hide Le32, FromLe32;
    WordHasItsDigits(value);
    if ptr + 4 <= Min(|bytes|, U32_MAX) {
      AccessByByte(bytes, Range(ptr, 4), Le32(value));
      WordIsTheNumber(bytes[ptr..ptr + 4]);
    }
  }

  /** The bits of an argument as an unsigned number. */
  lemma UnsignedIsTheResidue(x: i32)
    ensures Unsigned(x) == x % 0x1_0000_0000
  {
  }

  /** What is written is read back, and a range apart from it reads as before. */
  lemma PlacedIsReadBack(bytes: Bytes, slice: GuestSlice, data: Bytes, other: GuestSlice)
    requires Inside(slice, |bytes|) && |data| == slice.len
    requires Inside(other, |bytes|) && Disjoint(slice, other)
    ensures At(Placed(bytes, slice, data), slice) == data
    ensures At(Placed(bytes, slice, data), other) == At(bytes, other)
  {
    var after := Placed(bytes, slice, data);
    assert At(after, slice) == data;
    forall i | 0 <= i < other.len
      ensures At(after, other)[i] == At(bytes, other)[i]
    {
      assert At(after, other)[i] == after[other.ptr + i];
    }
  }

  /** A word can be read exactly where it can be written, a write keeps the size, a
      word written is the word read, and every range apart from it is as it was. */
  lemma WordIsReadBack(bytes: Bytes, ptr: u32, value: u32, other: GuestSlice)
    ensures ReadWord(bytes, ptr).Ok? <==> ptr + 4 <= |bytes| && ptr + 4 <= U32_MAX
    ensures ReadWord(bytes, ptr).Ok? <==> WriteWord(bytes, ptr, value).Ok?
    ensures ReadWord(bytes, ptr).Err? ==> WriteWord(bytes, ptr, value) == Err(ReadWord(bytes, ptr).error)
    ensures WriteWord(bytes, ptr, value).Ok? ==>
      var after := WriteWord(bytes, ptr, value).value;
      && |after| == |bytes|
      && ReadWord(after, ptr) == Ok(value)
      && (Inside(other, |bytes|) && Disjoint(Range(ptr, 4), other) ==> At(after, other) == At(bytes, other))
  {
    if WriteWord(bytes, ptr, value).Ok? {
      var slice: GuestSlice := Range(ptr, 4);
      PlacedIsReadBack(bytes, slice, Le32(value), Range(0, 0));
      if Inside(other, |bytes|) && Disjoint(slice, other) {
        PlacedIsReadBack(bytes, slice, Le32(value), other);
      }
    }
  }

  // ---- The view ----

  class GuestMemory {
    var bytes: array<byte>

    function Model(): Bytes
      reads this, bytes
    {
      bytes[..]
    }

    constructor (size: nat)
      ensures fresh(bytes) && bytes.Length == size
    {
      bytes := new byte[size](i => 0);
    }

    method Read(slice: GuestSlice) returns (r: Result<Bytes, MemoryError>)
      ensures r == ReadAt(Model(), slice)
    {
      var end := slice.ptr + slice.len;
      if end > bytes.Length {
        return Err(OutOfBounds(slice.ptr, slice.len, bytes.Length));
      }
      return Ok(bytes[slice.ptr..end]);
    }

    /** Copies over the slice in place. */
    method Write(slice: GuestSlice, data: Bytes) returns (failed: Option<MemoryError>)
      modifies bytes
      ensures match WriteAt(old(Model()), slice, data)
        case Ok(after) => failed.None? && Model() == after
        case Err(error) => failed == Some(error) && Model() == old(Model())
    {
      if |data| != slice.len {
        return Some(LengthMismatch(slice.len, |data|));
      }
      if slice.ptr + slice.len > bytes.Length {
        return Some(OutOfBounds(slice.ptr, slice.len, bytes.Length));
      }
      var start := slice.ptr;
      var i := 0;
      while i < |data|
        invariant i <= |data|
        invariant forall k :: 0 <= k < bytes.Length ==>
          bytes[k] == if start <= k < start + i then data[k - start] else old(bytes[k])
      {
        bytes[start + i] := data[i];
        i := i + 1;
      }
      assert bytes[..] == Placed(old(bytes[..]), slice, data);
      return None;
    }

    method ReadU32(ptr: u32) returns (r: Result<u32, MemoryError>)
      ensures r == ReadWord(Model(), ptr)
    {
      if ptr + 4 > U32_MAX {
        return Err(RangeOverflow(ptr, 4));
      }
      var word := Read(Range(ptr, 4));
      match word {
        case Err(error) => return Err(error);
        case Ok(w) => return Ok(FromLe32(w));
      }
    }

    method WriteU32(ptr: u32, value: u32) returns (failed: Option<MemoryError>)
      modifies bytes
      ensures match WriteWord(old(Model()), ptr, value)
        case Ok(after) => failed.None? && Model() == after
        case Err(error) => failed == Some(error) && Model() == old(Model())
    {
      if ptr + 4 > U32_MAX {
        return Some(RangeOverflow(ptr, 4));
      }
      failed := Write(Range(ptr, 4), Le32(value));
    }
  }
}
