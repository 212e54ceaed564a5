/**
 * CRefCountingHolder<T>: a pointer with an intrusive LONG reference count
 * and a deletion strategy. Release() calls the strategy when its decrement
 * brings the count to 0 and a pointer is held. Nothing clears the pointer,
 * so a holder counted back up from 0 and down again deletes it again. The
 * holder object itself is a CAllocatable<NonPagedPool, 'CRHR'>.
 * InterlockedIncrement/InterlockedDecrement are taken as single sequential
 * steps.
 */
module RefCounting {
  import opened Pointers
  import Allocation

  const LONG_MIN: int := -0x8000_0000
  const LONG_MAX: int := 0x7FFF_FFFF

  /** LONG: a signed 32-bit value. */
  type Long = x: int | LONG_MIN <= x <= LONG_MAX

  /** The value InterlockedIncrement stores: a 32-bit two's-complement increment. */
  function Incremented(x: Long): (r: Long)
  {
    if x == LONG_MAX then LONG_MIN else x + 1
  }

  /** The value InterlockedDecrement stores: a 32-bit two's-complement decrement. */
  function Decremented(x: Long): (r: Long)
  {
    if x == LONG_MIN then LONG_MAX else x - 1
  }

  /** The multi-character literal 'CRHR', first character most significant. */
  const CrhrTag: Allocation.ULong :=
    0x43 * 0x100_0000 + 0x52 * 0x1_0000 + 0x48 * 0x100 + 0x52

  /** CRefCountingHolder<T> derives from CAllocatable<NonPagedPool, 'CRHR'>. */
  const HolderAllocatable: Allocation.Allocatable :=
    Allocation.Allocatable(Allocation.NonPagedPool, CrhrTag)

  /** What a holder tracks: `m_Obj`, `m_RefCount`, and the pointers passed to its deleter. */
  datatype RcState = RcState(obj: Ptr, count: Long, deleted: seq<Ptr>)

  datatype RcOp = InitialAddRef | AddRef | Release | Assign(ptr: Ptr)

  function Step(s: RcState, op: RcOp): (t: RcState)
  {
    match op
    case InitialAddRef => s.(count := Incremented(s.count))
    case AddRef => s.(count := Incremented(s.count))
    case Release =>
      var c := Decremented(s.count);
      RcState(s.obj, c, if c == 0 && s.obj != Null then s.deleted + [s.obj] else s.deleted)
    case Assign(p) => s.(obj := p)
  }

  /** The state after applying `ops` in order. */
  function Run(s: RcState, ops: seq<RcOp>): (t: RcState)
    decreases |ops|
  {
    if ops == [] then s else Step(Run(s, ops[..|ops| - 1]), ops[|ops| - 1])
  }

  /** Sequences of AddRef/InitialAddRef/Release calls only. */
  predicate CountingOnly(ops: seq<RcOp>)
  {
    forall i :: 0 <= i < |ops| ==> !ops[i].Assign?
  }

  /** Increments minus releases in `ops`, in unbounded integers. */
  function Net(ops: seq<RcOp>): (n: int)
    decreases |ops|
  {
    if ops == [] then 0
    else
      var last := ops[|ops| - 1];
      Net(ops[..|ops| - 1]) + (if last.Release? then -1 else if last.Assign? then 0 else 1)
  }

  /** InitialAddRef reports the 0 to 1 transition: the new count is 1 exactly when the old one was 0. */
  lemma FirstReferenceDetected(x: Long)
    ensures Incremented(x) == 1 <==> x == 0
    ensures x < LONG_MAX ==> Incremented(x) == x + 1
    ensures x > LONG_MIN ==> Decremented(x) == x - 1
  {
  }

  /**
   * While every count reached stays positive, counting calls neither
   * delete nor change the held pointer.
   */
  lemma {:induction false} NoDeletionWhilePositive(s: RcState, ops: seq<RcOp>)
    requires CountingOnly(ops)
    requires forall k :: 1 <= k <= |ops| ==> Run(s, ops[..k]).count > 0
    ensures Run(s, ops).obj == s.obj && Run(s, ops).deleted == s.deleted
  {
    if ops != [] {
      var m := |ops| - 1;
      assert CountingOnly(ops[..m]);
      forall k | 1 <= k <= m
        ensures Run(s, ops[..m][..k]).count > 0
      {
        assert ops[..m][..k] == ops[..k];
      }
      NoDeletionWhilePositive(s, ops[..m]);
      assert ops[..|ops|] == ops;
    }
  }

  /**
   * A run of counting calls from a non-negative count whose count stays
   * positive until it reaches 0 at its end: its last call is a Release,
   * nothing is deleted before it, and it deletes the held pointer (when
   * not null) exactly once.
   */
  lemma {:induction false} LastReleaseDeletesOnce(s: RcState, ops: seq<RcOp>)
    requires 0 <= s.count
    requires |ops| > 0 && CountingOnly(ops)
    requires forall k :: 1 <= k < |ops| ==> Run(s, ops[..k]).count > 0
    requires Run(s, ops).count == 0
    ensures ops[|ops| - 1] == Release
    ensures Run(s, ops[..|ops| - 1]).deleted == s.deleted
    ensures Run(s, ops).obj == s.obj
    ensures Run(s, ops).deleted == s.deleted + if s.obj != Null then [s.obj] else []
  {
    var m := |ops| - 1;
    assert CountingOnly(ops[..m]);
    forall k | 1 <= k <= m
      ensures Run(s, ops[..m][..k]).count > 0
    {
      assert ops[..m][..k] == ops[..k];
    }
    NoDeletionWhilePositive(s, ops[..m]);
    assert Run(s, ops[..m]).count > 0 by {
      if m == 0 {
        assert ops[..m] == [];
      }
    }
  }

  /** Without a wrap-around on the way, the count moves by exactly the net number of calls. */
  lemma {:induction false} CountTracksNet(s: RcState, ops: seq<RcOp>)
    requires CountingOnly(ops)
    requires forall k :: 0 <= k <= |ops| ==> LONG_MIN <= s.count + Net(ops[..k]) <= LONG_MAX
    ensures Run(s, ops).count == s.count + Net(ops)
  {
    if ops != [] {
      var m := |ops| - 1;
      assert CountingOnly(ops[..m]);
      forall k | 0 <= k <= m
        ensures LONG_MIN <= s.count + Net(ops[..m][..k]) <= LONG_MAX
      {
        assert ops[..m][..k] == ops[..k];
      }
      CountTracksNet(s, ops[..m]);
      assert ops[..|ops|] == ops;
    }
  }

  /**
   * Callers that each AddRef and later Release, in any interleaving, on a
   * holder already referenced (count at least 1): every prefix has at least
   * as many increments as releases, and in total they balance. The holder
   * ends as it started: same count, same pointer, no deletion.
   */
  lemma BalancedCallsLeaveHolderUnchanged(s: RcState, ops: seq<RcOp>)
    requires 1 <= s.count && CountingOnly(ops)
    requires forall k :: 0 <= k <= |ops| ==> 0 <= Net(ops[..k]) && s.count + Net(ops[..k]) <= LONG_MAX
    requires Net(ops) == 0
    ensures Run(s, ops) == s
  {
    forall k | 1 <= k <= |ops|
      ensures Run(s, ops[..k]).count > 0
    {
      assert CountingOnly(ops[..k]);
      forall j | 0 <= j <= k
        ensures LONG_MIN <= s.count + Net(ops[..k][..j]) <= LONG_MAX
      {
        assert ops[..k][..j] == ops[..j];
      }
      CountTracksNet(s, ops[..k]);
    }
    NoDeletionWhilePositive(s, ops);
    forall j | 0 <= j <= |ops|
      ensures LONG_MIN <= s.count + Net(ops[..|ops|][..j]) <= LONG_MAX
    {
      assert ops[..|ops|][..j] == ops[..j];
    }
    assert ops[..|ops|] == ops;
    CountTracksNet(s, ops);
  }

  /** InitialAddRef, n - 1 AddRefs, then n Releases. */
  function Cycle(n: nat): (ops: seq<RcOp>)
  {
    seq(2 * n, i => if i == 0 then InitialAddRef else if i < n then AddRef else Release)
  }

  lemma {:induction false} CyclePrefixNet(n: nat, k: nat)
    requires k <= 2 * n
    ensures Net(Cycle(n)[..k]) == if k <= n then k else 2 * n - k
  {
    if k > 0 {
      CyclePrefixNet(n, k - 1);
      assert Cycle(n)[..k][..k - 1] == Cycle(n)[..k - 1];
    }
  }

  /**
   * A holder of `p` counted up from 0 by InitialAddRef and n - 1 AddRefs and
   * back down by n Releases deletes `p` exactly once, at the last Release.
   */
  lemma AcquireReleaseCycleDeletesOnce(p: Ptr, n: nat)
    requires 1 <= n <= LONG_MAX
    ensures Run(RcState(p, 0, []), Cycle(n)[..2 * n - 1]).deleted == []
    ensures Run(RcState(p, 0, []), Cycle(n)) == RcState(p, 0, if p != Null then [p] else [])
  {
    var s := RcState(p, 0, []);
    var ops := Cycle(n);
    assert CountingOnly(ops);
    forall k | 0 <= k <= |ops|
      ensures 0 <= Net(ops[..k]) <= n
    {
      CyclePrefixNet(n, k);
    }
    forall k | 1 <= k <= |ops|
      ensures Run(s, ops[..k]).count == Net(ops[..k])
    {
      assert CountingOnly(ops[..k]);
      forall j | 0 <= j <= k
        ensures LONG_MIN <= s.count + Net(ops[..k][..j]) <= LONG_MAX
      {
        assert ops[..k][..j] == ops[..j];
      }
      CountTracksNet(s, ops[..k]);
    }
    forall k | 1 <= k < |ops|
      ensures Run(s, ops[..k]).count > 0
    {
      CyclePrefixNet(n, k);
    }
    assert ops[..|ops|] == ops;
    CyclePrefixNet(n, 2 * n);
    LastReleaseDeletesOnce(s, ops);
  }

  class RefCountingHolder {
    var obj: Ptr
    var refCount: Long
    const deleter: Deleter
    /** The pointers this holder has passed to `deleter`, in call order. */
    var deleted: seq<Ptr>

    function State(): (s: RcState)
      reads this
    {
      RcState(obj, refCount, deleted)
    }

    /** `CRefCountingHolder(TDeleteFunc DeleteFunc = [](T *Obj){ delete Obj; })` */
    constructor (deleter: Deleter := SingleDelete)
      ensures obj == Null && refCount == 0 && this.deleter == deleter && deleted == []
    {
      obj := Null;
      refCount := 0;
      this.deleter := deleter;
      deleted := [];
    }

    /** Increments the count and reports whether this call took it from 0 to 1. */
    method InitialAddRef() returns (first: bool)
      modifies this
      ensures first <==> old(refCount) == 0
      ensures refCount == Incremented(old(refCount))
      ensures obj == old(obj) && deleted == old(deleted)
      ensures State() == Step(old(State()), RcOp.InitialAddRef)
    {
      refCount := Incremented(refCount);
      first := refCount == 1;
      FirstReferenceDetected(old(refCount));
    }

    method AddRef()
      modifies this
      ensures refCount == Incremented(old(refCount))
      ensures obj == old(obj) && deleted == old(deleted)
      ensures State() == Step(old(State()), RcOp.AddRef)
    {
      refCount := Incremented(refCount);
    }

    /**
     * Decrements the count; when it reaches 0 with a pointer held, calls the
     * deleter once on it. The pointer stays held.
     */
    method Release()
      modifies this
      ensures refCount == Decremented(old(refCount))
      ensures obj == old(obj)
      ensures deleted == old(deleted) + if refCount == 0 && obj != Null then [obj] else []
      ensures State() == Step(old(State()), RcOp.Release)
    {
      refCount := Decremented(refCount);
      if refCount == 0 && obj != Null {
        deleted := deleted + [obj];
      }
    }

    /** `Get`, `operator T *` and `operator ->`: the held pointer; the count is not touched. */
    method Get() returns (p: Ptr)
      ensures p == obj
    {
      p := obj;
    }

    /** `operator=(T *ptr)`: replaces the held pointer; neither the count nor the old pointer is touched. */
    method Assign(ptr: Ptr)
      modifies this
      ensures obj == ptr && refCount == old(refCount) && deleted == old(deleted)
      ensures State() == Step(old(State()), RcOp.Assign(ptr))
    {
      obj := ptr;
    }
  }

  /**
   * `new CRefCountingHolder<T>(deleter)`: one allocation from NonPagedPool
   * with tag 'CRHR'. The class's operator new does not throw, so a null
   * allocation yields null and no holder is constructed.
   */
  method NewHolder(pool: Allocation.KernelPool, size: nat, deleter: Deleter)
    returns (h: RefCountingHolder?)
    modifies pool
    ensures |pool.trace| == |old(pool.trace)| + 1
    ensures pool.trace[..|old(pool.trace)|] == old(pool.trace)
    ensures var e := pool.trace[|old(pool.trace)|];
            e.AllocateEvent? && e.poolType == Allocation.NonPagedPool && e.tag == CrhrTag && e.size == size
            && (h == null <==> e.result == Null)
    ensures h != null ==> fresh(h) && h.obj == Null && h.refCount == 0 && h.deleted == [] && h.deleter == deleter
  {
    var storage := Allocation.OperatorNew(pool, HolderAllocatable, size);
    if storage == Null {
      h := null;
    } else {
      h := new RefCountingHolder(deleter);
    }
  }

  /**
   * A holder assigned `p`, then InitialAddRef, AddRef, Release, Release:
   * InitialAddRef reports the first reference; the first
   * Release deletes nothing; the second deletes `p` once.
   */
  method AcquireShareRelease(p: Ptr) returns (first: bool, afterFirstRelease: seq<Ptr>, calls: seq<Ptr>)
    ensures first && afterFirstRelease == []
    ensures calls == if p != Null then [p] else []
  {
    var r := new RefCountingHolder();
    r.Assign(p);
    first := r.InitialAddRef();
    r.AddRef();
    r.Release();
    afterFirstRelease := r.deleted;
    r.Release();
    calls := r.deleted;
  }

  /**
   * Nothing stops a holder from being counted up again after it reached 0:
   * a second 0 to 1 to 0 cycle reports a first reference again and deletes
   * the same pointer a second time.
   */
  method RearmedHolderDeletesTwice(p: Ptr) returns (first1: bool, first2: bool, calls: seq<Ptr>)
    ensures first1 && first2
    ensures calls == if p != Null then [p, p] else []
  {
    var r := new RefCountingHolder();
    r.Assign(p);
    first1 := r.InitialAddRef();
    r.Release();
    first2 := r.InitialAddRef();
    r.Release();
    calls := r.deleted;
  }
}
