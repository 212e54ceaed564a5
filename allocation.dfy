/**
 * CAllocatable<PoolType, Tag>: a stateless base class whose class-level
 * operators new/new[]/delete/delete[] route every allocation of the derived
 * type through the kernel pool allocator with the pool type and tag fixed
 * by the template arguments.
 */
module Allocation {
  import opened Pointers

  /** ULONG: an unsigned 32-bit value. */
  type ULong = x: int | 0 <= x < 0x1_0000_0000

  /** A POOL_TYPE enumerator, by its value. */
  type PoolType = nat
  const NonPagedPool: PoolType := 0
  const PagedPool: PoolType := 1

  /** A call the allocation layer makes into the kernel pool allocator. */
  datatype PoolEvent =
    | AllocateEvent(poolType: PoolType, size: nat, tag: ULong, result: Ptr)
    | FreeEvent(ptr: Ptr, tag: ULong)

  /**
   * The environment's pool allocator, ExAllocatePoolWithTag and
   * ExFreePoolWithTag. Its memory is not modelled: an allocation returns any
   * pointer, null included, and every call is appended to `trace`.
   */
  class KernelPool {
    var trace: seq<PoolEvent>

    constructor ()
      ensures trace == []
    {
      trace := [];
    }

    method ExAllocatePoolWithTag(poolType: PoolType, size: nat, tag: ULong) returns (p: Ptr)
      modifies this
      ensures trace == old(trace) + [AllocateEvent(poolType, size, tag, p)]
    {
      p :| true;
      trace := trace + [AllocateEvent(poolType, size, tag, p)];
    }

    method ExFreePoolWithTag(p: Ptr, tag: ULong)
      modifies this
      ensures trace == old(trace) + [FreeEvent(p, tag)]
    {
      trace := trace + [FreeEvent(p, tag)];
    }
  }

  /** One instantiation CAllocatable<PoolType, Tag>: its two template arguments. */
  datatype Allocatable = Allocatable(poolType: PoolType, tag: ULong)

  /** Placement `operator new(size_t, void *ptr)`: hands back the caller's storage; no pool call. */
  method PlacementNew(a: Allocatable, size: nat, ptr: Ptr) returns (r: Ptr)
    ensures r == ptr
  {
    r := ptr;
  }

  /** Placement `operator new[](size_t, void *ptr)`: as PlacementNew. */
  method PlacementNewArray(a: Allocatable, size: nat, ptr: Ptr) returns (r: Ptr)
    ensures r == ptr
  {
    r := ptr;
  }

  /**
   * `operator new(size_t Size)`: exactly one pool allocation with the class's
   * pool type and tag; its result, null included, is returned unchanged.
   */
  method OperatorNew(pool: KernelPool, a: Allocatable, size: nat) returns (r: Ptr)
    modifies pool
    ensures pool.trace == old(pool.trace) + [AllocateEvent(a.poolType, size, a.tag, r)]
  {
    r := pool.ExAllocatePoolWithTag(a.poolType, size, a.tag);
  }

  /** `operator new[](size_t Size)`: the same pool path as OperatorNew. */
  method OperatorNewArray(pool: KernelPool, a: Allocatable, size: nat) returns (r: Ptr)
    modifies pool
    ensures pool.trace == old(pool.trace) + [AllocateEvent(a.poolType, size, a.tag, r)]
  {
    r := pool.ExAllocatePoolWithTag(a.poolType, size, a.tag);
  }

  /**
   * `operator delete(void *ptr)`: nothing for null; otherwise exactly one
   * free of `ptr` with the class's tag.
   */
  method OperatorDelete(pool: KernelPool, a: Allocatable, ptr: Ptr)
    modifies pool
    ensures pool.trace == old(pool.trace) + (if ptr == Null then [] else [FreeEvent(ptr, a.tag)])
  {
    if ptr != Null {
      pool.ExFreePoolWithTag(ptr, a.tag);
    }
  }

  /** `operator delete[](void *ptr)`: the same pool path as OperatorDelete. */
  method OperatorDeleteArray(pool: KernelPool, a: Allocatable, ptr: Ptr)
    modifies pool
    ensures pool.trace == old(pool.trace) + (if ptr == Null then [] else [FreeEvent(ptr, a.tag)])
  {
    if ptr != Null {
      pool.ExFreePoolWithTag(ptr, a.tag);
    }
  }

  /**
   * A client of one allocatable type: `new` followed by `delete` of the
   * result. The free, when there is one, carries the tag of the allocation,
   * and a failed (null) allocation is never freed.
   */
  method NewThenDelete(pool: KernelPool, a: Allocatable, size: nat) returns (r: Ptr)
    modifies pool
    ensures pool.trace == old(pool.trace) + [AllocateEvent(a.poolType, size, a.tag, r)]
                          + (if r == Null then [] else [FreeEvent(r, a.tag)])
  {
    r := OperatorNew(pool, a, size);
    OperatorDelete(pool, a, r);
  }
}
