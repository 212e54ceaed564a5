# UsbDk ownership and allocation primitives, modelled in Dafny

This project models the three ownership primitives of UsbDk's `UsbDk/Alloc.h`,
which the driver uses in kernel mode, where there is no general allocator and
no exceptions:

- **`CAllocatable<PoolType, Tag>`** (module `Allocation`). It is a stateless
  base class. Its class-level `new`/`new[]`/`delete`/`delete[]` send every
  allocation of the derived type to the kernel pool with a fixed pool type and
  a fixed 4-byte tag. The kernel pool (`ExAllocatePoolWithTag`,
  `ExFreePoolWithTag`) is the environment class `KernelPool`. It records every
  call in `trace`, and an allocation may return any pointer, null included.
- **`CObjHolder<T>`** (module `Ownership`, class `ObjHolder`). It is an
  exclusive owner of one raw pointer, with a deletion strategy (`Deleter`).
- **`CRefCountingHolder<T>`** (module `RefCounting`, class
  `RefCountingHolder`). It pairs a pointer with a signed 32-bit reference
  count. It is itself a `CAllocatable<NonPagedPool, 'CRHR'>`.

Each holder keeps a log, `deleted`, of the pointers it has passed to its
deletion strategy. Properties such as "the deleter runs exactly once" are
stated about that log. Each holder also has a pure state machine beside it:
`HolderState`/`HolderOp` and `RcState`/`RcOp`, with `Step` and `Run`. Every
state-changing method promises `State() == Step(old(State()), op)`. The
lemmas about sequences of calls are proved on `Run`.

Pointers are untyped (`Ptr = Null | Addr(n)`): the template parameter `T`
plays no part in the behaviour. `pointers.dfy` holds `Ptr` and `Deleter`.

## Sharp edges of the code that the model keeps


- `CObjHolder::destroy()` (UsbDk/Alloc.h:78-84) does not clear `m_Obj`, so
  it is not idempotent. Two calls, or a call followed by the destructor, run
  the deleter twice on the same pointer. See `RepeatedDestroyRefires` and
  `DestroyThenScopeExit`.
- `CRefCountingHolder::Release()` (UsbDk/Alloc.h:123-129) does not clear
  `m_Obj`, and nothing forbids counting a holder up again from 0. Such a
  holder reports a first reference again and deletes the same pointer again.
  See `RearmedHolderDeletesTwice`.
- Raw-pointer assignment on either holder replaces the pointer without
  releasing the old one. See `AssignThenDestroyLeaksOld` and
  `ReassignThenScopeExit`.
- `InterlockedIncrement`/`InterlockedDecrement` act on a 32-bit `LONG`. The
  model writes out the two's-complement wrap-around (`Incremented`,
  `Decremented`) and puts no precondition on the count.

## Model

| member | source | states |
|---|---|---|
| `Allocation.PlacementNew` | UsbDk/Alloc.h:30-31 | Placement `new` returns the caller's pointer unchanged and takes no pool |
| `Allocation.PlacementNewArray` | UsbDk/Alloc.h:33-34 | Placement `new[]` returns the caller's pointer unchanged and takes no pool |
| `Allocation.OperatorNew` | UsbDk/Alloc.h:36-37 | Makes exactly one pool allocation with the class's pool type, the requested size and the class's tag; returns that allocation's result verbatim, null included |
| `Allocation.OperatorNewArray` | UsbDk/Alloc.h:39-40 | Same as `OperatorNew`, for `new[]` |
| `Allocation.OperatorDelete` | UsbDk/Alloc.h:42-43 | Null: no pool call. Non-null: exactly one free of that pointer with the class's tag |
| `Allocation.OperatorDeleteArray` | UsbDk/Alloc.h:45-46 | Same as `OperatorDelete`, for `delete[]` |
| `Allocation.NewThenDelete` | UsbDk/Alloc.h:36-43 | `new` then `delete` of its result: one allocation, then a free of the same pointer with the same tag, and no free when the allocation failed |
| `Ownership.ObjHolder.constructor` | UsbDk/Alloc.h:59-62 | A new holder holds exactly the given pointer (null by default) and the given deleter (single-object delete by default); its deleter has not been called |
| `Ownership.ObjHolder.IsOwning` | UsbDk/Alloc.h:67 | `operator bool` is true iff the held pointer is non-null |
| `Ownership.ObjHolder.Get` | UsbDk/Alloc.h:68-69 | The pointer accessors return the held pointer |
| `Ownership.ObjHolder.Detach` | UsbDk/Alloc.h:71-76 | Returns the previously held pointer; leaves the holder null; no deleter call |
| `Ownership.ObjHolder.Destroy` | UsbDk/Alloc.h:78-84 | Calls the deleter exactly once, on the held pointer, iff it is non-null; leaves the held pointer unchanged |
| `Ownership.ObjHolder.Assign` | UsbDk/Alloc.h:86-90 | Replaces the held pointer and returns the argument; the old pointer is not passed to the deleter |
| `Ownership.ObjHolder.Destructor` | UsbDk/Alloc.h:64-65 | The destructor has the effect of `destroy()` |
| `Ownership.DeleterSeesOnlyNonNull` | UsbDk/Alloc.h:78-84 | Over any sequence of holder operations, the deleter log only grows, and every pointer added to it is non-null |
| `Ownership.DetachRelinquishes` | UsbDk/Alloc.h:71-84 | After `detach()`, no sequence of `destroy`/`detach` calls (destructor included) deletes anything, until a pointer is assigned; the holder stays null |
| `Ownership.RepeatedDestroyRefires` | UsbDk/Alloc.h:78-84 | n calls of `destroy()` on a holder of a non-null pointer call the deleter n times on that pointer; on a null holder, zero times |
| `Ownership.AssignThenDestroyLeaksOld` | UsbDk/Alloc.h:78-90 | Assign `p` then destroy: only `p` (if non-null) is deleted; the previously held pointer never is, unless it is `p` |
| `Ownership.ScopeExit` | UsbDk/Alloc.h:59-65 | For every pointer `p` and deleter `d`, a holder of `p` with `d` that goes out of scope calls its deleter exactly once on `p`, or never if `p` is null |
| `Ownership.DetachThenScopeExit` | UsbDk/Alloc.h:64-84 | For every deleter, `detach()` hands back the original pointer, and the destructor then makes no deleter call |
| `Ownership.DestroyThenScopeExit` | UsbDk/Alloc.h:64-84 | For every deleter, an explicit `destroy()` followed by the destructor deletes a non-null pointer twice |
| `Ownership.ReassignThenScopeExit` | UsbDk/Alloc.h:59-90 | A holder of `p` reassigned to `q` returns `q`; at scope exit it deletes only `q`, so `p` leaks (when `p != q`) |
| `RefCounting.RefCountingHolder.constructor` | UsbDk/Alloc.h:109-111 | A new holder has count 0, a null pointer, the given deleter (single-object delete by default) and no deleter calls |
| `RefCounting.RefCountingHolder.InitialAddRef` | UsbDk/Alloc.h:113-116 | Increments the 32-bit count; returns true iff the count was 0 before; the pointer and the deleter log are unchanged |
| `RefCounting.RefCountingHolder.AddRef` | UsbDk/Alloc.h:118-121 | Increments the 32-bit count; the pointer and the deleter log are unchanged |
| `RefCounting.RefCountingHolder.Release` | UsbDk/Alloc.h:123-129 | Decrements the 32-bit count; calls the deleter once on the held pointer iff the new count is 0 and the pointer is non-null; the pointer stays held |
| `RefCounting.RefCountingHolder.Get` | UsbDk/Alloc.h:131-133 | `Get`, `operator T *` and `operator ->` return the held pointer |
| `RefCounting.RefCountingHolder.Assign` | UsbDk/Alloc.h:135-138 | Replaces the held pointer; the count and the deleter log are unchanged |
| `RefCounting.FirstReferenceDetected` | UsbDk/Alloc.h:113-129 | The new count is 1 iff the old count was 0. Below `LONG_MAX` an increment adds exactly 1; above `LONG_MIN` a decrement subtracts exactly 1 |
| `RefCounting.NoDeletionWhilePositive` | UsbDk/Alloc.h:113-129 | Counting calls whose intermediate counts all stay positive delete nothing and leave the pointer unchanged |
| `RefCounting.LastReleaseDeletesOnce` | UsbDk/Alloc.h:113-129 | Take counting calls from a count of 0 or more. The count stays positive and reaches 0 only at the end. Then the last call is a `Release`, nothing is deleted before it, and the held pointer (if non-null) is deleted exactly once |
| `RefCounting.CountTracksNet` | UsbDk/Alloc.h:113-129 | If no intermediate count wraps around, the final count is the initial count plus increments minus releases |
| `RefCounting.BalancedCallsLeaveHolderUnchanged` | UsbDk/Alloc.h:118-129 | Callers that each `AddRef` and later `Release`, in any interleaving, on a holder with count at least 1: the holder ends with the same count, the same pointer and no deletion |
| `RefCounting.AcquireReleaseCycleDeletesOnce` | UsbDk/Alloc.h:113-129 | From count 0, `InitialAddRef`, n-1 `AddRef`s and then n `Release`s delete the held pointer (if non-null) exactly once, at the last `Release`, and end at count 0 |
| `RefCounting.NewHolder` | UsbDk/Alloc.h:103-111 | `new CRefCountingHolder` makes one allocation from `NonPagedPool` with tag 'CRHR' (0x43524852). A null allocation yields null and constructs nothing; otherwise the result is a fresh holder in its initial state |
| `RefCounting.AcquireShareRelease` | UsbDk/Alloc.h:113-138 | Assign `p`, `InitialAddRef` (returns true), `AddRef`, `Release` (no deletion), `Release`: `p` is deleted exactly once, by the second `Release` |
| `RefCounting.RearmedHolderDeletesTwice` | UsbDk/Alloc.h:113-138 | Two 0→1→0 cycles on the same holder each report a first reference, and together delete the same pointer twice |

## Left out

- Pool memory is not modelled. `ExAllocatePoolWithTag` and
  `ExFreePoolWithTag` belong to the kernel. Here they are the environment
  class `KernelPool`: it returns any pointer and records each call in a trace.
- Atomicity of `InterlockedIncrement`/`InterlockedDecrement`. Each call is
  one sequential step, so concurrent callers appear only as interleavings
  (`BalancedCallsLeaveHolderUnchanged`).
- The deletion strategies' own effects (`delete Obj`, `delete[] Obj`, a
  custom function) are C++ destruction. A call appears only as an entry in
  the holder's `deleted` log. `ArrayHolderDelete` (UsbDk/Alloc.h:92-93) is
  the constant `Ownership.ArrayHolderDelete`, a `Deleter` value.
- Copy construction and copy assignment are deleted in both holders
  (UsbDk/Alloc.h:95-96, 140-141). The classes simply offer no copy.
- `CAllocatable`'s protected constructor and destructor (UsbDk/Alloc.h:49-50)
  are empty and have no model.
- `size_t` is unbounded (`nat`). `POOL_TYPE` is its enumerator value; only
  `NonPagedPool` and `PagedPool` are named.
- Placement `new`'s size argument is ignored, as in the code.
