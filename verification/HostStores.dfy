/** The store of a guest as the object that changes in place, with each step of a
    return proved against its function in `Allocation`. */
module HostStores {
  import opened Prelude
  import opened LittleEndian
  import opened Memory
  import opened Allocation

  class HostStore {
    const memory: GuestMemory
    const hasAllocator: bool
    var poisoned: bool
    ghost var calls: nat

    ghost function Model(): Host
      reads this, memory, memory.bytes
    {
      Host(memory.Model(), poisoned, hasAllocator, calls)
    }

    constructor (memory: GuestMemory, hasAllocator: bool)
      ensures this.memory == memory
      ensures Model() == Host(memory.Model(), false, hasAllocator, 0)
    {
      this.memory, this.hasAllocator, poisoned, calls := memory, hasAllocator, false, 0;
    }

    /** The call into the guest, which replaces the memory. */
    method CallAllocator(size: u32, reply: Reply) returns (address: Option<i32>)
      modifies this, memory
      ensures Model() == old(Model()).(bytes := Overwritten(old(memory.Model()), reply.image), calls := old(calls) + 1)
      ensures address == reply.address && fresh(memory.bytes)
    {
      var after := Overwritten(memory.bytes[..], reply.image);
      var bytes := new byte[|after|](i requires 0 <= i < |after| => after[i]);
      assert bytes[..] == after;
      memory.bytes := bytes;
      calls := calls + 1;
      address := reply.address;
    }

    method Allocate(size: u32, reply: Reply) returns (r: Result<u32, AllocError>)
      modifies this, memory
      ensures (Model(), r) == Allocation.Allocate(old(Model()), size, reply)
      ensures memory.bytes == old(memory.bytes) || fresh(memory.bytes)
    {
      if poisoned {
        return Err(Poisoned);
      }
      if !hasAllocator {
        return Err(MissingAllocator);
      }
      if size > I32_MAX {
        return Err(ValueTooLarge(size));
      }
      var address := CallAllocator(size, reply);
      if address.None? {
        poisoned := true;
        return Err(CallFailed);
      }
      return if address.value == 0 then Err(AllocationFailed(size)) else Ok(Unsigned(address.value));
    }

    method WriteToGuest(data: Bytes, reply: Reply) returns (r: Result<GuestSlice, AllocError>)
      modifies this, memory, memory.bytes
      ensures (Model(), r) == Allocation.WriteToGuest(old(Model()), data, reply)
      ensures memory.bytes == old(memory.bytes) || fresh(memory.bytes)
    {
      if |data| > U32_MAX {
        return Err(ValueTooLarge(|data|));
      }
      if |data| == 0 {
        return Ok(Range(0, 0));
      }
      var address := Allocate(|data|, reply);
      if address.Err? {
        return Err(address.error);
      }
      if address.value + |data| > U32_MAX {
        return Err(MemoryFault(RangeOverflow(address.value, |data|)));
      }
      var slice: GuestSlice := Range(address.value, |data|);
      var failed := memory.Write(slice, data);
      return if failed.Some? then Err(MemoryFault(failed.value)) else Ok(slice);
    }

    method CheckPointer(pointer: Option<u32>) returns (fault: Option<AllocError>)
      ensures fault == PointerFault(memory.Model(), pointer)
    {
      if pointer.None? {
        return None;
      }
      var word := memory.ReadU32(pointer.value);
      return if word.Err? then Some(MemoryFault(word.error)) else None;
    }

    /** The allocator is not called unless both pointers are good. */
    method WriteOptionalReturn(data: Bytes, returnData: Option<u32>, returnSize: Option<u32>, reply: Reply)
      returns (failed: Option<AllocError>)
      modifies this, memory, memory.bytes
      ensures (Model(), failed) == Allocation.WriteOptionalReturn(old(Model()), data, returnData, returnSize, reply)
    {
      failed := CheckPointer(returnData);
      if failed.Some? {
        return;
      }
      failed := CheckPointer(returnSize);
      if failed.Some? {
        return;
      }
      var len: Option<u32> := None;
      if returnData.Some? {
        var slice := WriteToGuest(data, reply);
        if slice.Err? {
          return Some(slice.error);
        }
        var fault := memory.WriteU32(returnData.value, slice.value.ptr);
        if fault.Some? {
          return Some(MemoryFault(fault.value));
        }
        len := Some(slice.value.len);
      }
      if returnSize.Some? {
        if len.None? && |data| > U32_MAX {
          return Some(ValueTooLarge(|data|));
        }
        var size: u32 := if len.Some? then len.value else |data|;
        var fault := memory.WriteU32(returnSize.value, size);
        if fault.Some? {
          return Some(MemoryFault(fault.value));
        }
      }
      return None;
    }
  }
}
