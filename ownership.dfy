/**
 * CObjHolder<T>: an exclusive owner of one raw pointer together with a
 * deletion strategy. Destroying it (explicitly or at the end of its scope)
 * calls the strategy on the held pointer when that pointer is not null.
 * destroy() leaves the pointer in place, so destroying twice calls the
 * strategy twice; assigning a raw pointer forgets the old one without
 * releasing it.
 */
module Ownership {
  import opened Pointers

  /** The static strategy `CObjHolder::ArrayHolderDelete`. */
  const ArrayHolderDelete: Deleter := ArrayDelete

  /** What a holder tracks: `m_Obj`, and the pointers passed to its deleter so far. */
  datatype HolderState = HolderState(obj: Ptr, deleted: seq<Ptr>)

  /** The operations that change a holder; the destructor is Destroy. */
  datatype HolderOp = Detach | Destroy | Assign(ptr: Ptr)

  function Step(s: HolderState, op: HolderOp): (t: HolderState)
  {
    match op
    case Detach => s.(obj := Null)
    case Destroy => if s.obj != Null then s.(deleted := s.deleted + [s.obj]) else s
    case Assign(p) => s.(obj := p)
  }

  /** The state after applying `ops` in order. */
  function Run(s: HolderState, ops: seq<HolderOp>): (t: HolderState)
    decreases |ops|
  {
    if ops == [] then s else Step(Run(s, ops[..|ops| - 1]), ops[|ops| - 1])
  }

  predicate NoAssign(ops: seq<HolderOp>)
  {
    forall i :: 0 <= i < |ops| ==> !ops[i].Assign?
  }

  /**
   * Whatever a holder is asked to do, its deleter log only grows, and the
   * deleter is only ever called on a non-null pointer.
   */
  lemma {:induction false} DeleterSeesOnlyNonNull(s: HolderState, ops: seq<HolderOp>)
    ensures |s.deleted| <= |Run(s, ops).deleted|
    ensures Run(s, ops).deleted[..|s.deleted|] == s.deleted
    ensures forall i :: |s.deleted| <= i < |Run(s, ops).deleted| ==> Run(s, ops).deleted[i] != Null
  {
    if ops != [] {
      DeleterSeesOnlyNonNull(s, ops[..|ops| - 1]);
    }
  }

  /**
   * Once detached, a holder deletes nothing more, whatever number of
   * destroy() or detach() calls follow, until a pointer is assigned to it.
   */
  lemma {:induction false} DetachRelinquishes(s: HolderState, ops: seq<HolderOp>)
    requires NoAssign(ops)
    ensures Run(Step(s, Detach), ops) == HolderState(Null, s.deleted)
  {
    if ops != [] {
      var m := |ops| - 1;
      assert NoAssign(ops[..m]);
      DetachRelinquishes(s, ops[..m]);
    }
  }

  /**
   * destroy() does not clear the pointer: n calls on a holder of a non-null
   * pointer call the deleter n times on that same pointer.
   */
  lemma {:induction false} RepeatedDestroyRefires(s: HolderState, n: nat)
    ensures Run(s, seq(n, i => Destroy)) ==
            HolderState(s.obj, s.deleted + if s.obj != Null then seq(n, i => s.obj) else [])
  {
    if n > 0 {
      var ops := seq(n, i => Destroy);
      assert ops[..n - 1] == seq(n - 1, i => Destroy);
      RepeatedDestroyRefires(s, n - 1);
      assert seq(n, i => s.obj) == seq(n - 1, i => s.obj) + [s.obj];
    }
  }

  /**
   * Raw assignment forgets the held pointer: after `Assign(p)`, a destroy
   * deletes `p` (when not null) and never the pointer held before, unless
   * that pointer is `p` itself.
   */
  lemma AssignThenDestroyLeaksOld(s: HolderState, p: Ptr)
    ensures Run(s, [Assign(p), Destroy]) ==
            HolderState(p, s.deleted + if p != Null then [p] else [])
  {
    assert [Assign(p), Destroy][..1] == [Assign(p)];
    assert [Assign(p)][..0] == [];
    assert Run(s, [Assign(p)]) == s.(obj := p);
  }

  class ObjHolder {
    var obj: Ptr
    const deleter: Deleter
    /** The pointers this holder has passed to `deleter`, in call order. */
    var deleted: seq<Ptr>

    function State(): (s: HolderState)
      reads this
    {
      HolderState(obj, deleted)
    }

    /** `CObjHolder(T *Obj = nullptr, TDeleteFunc DeleteFunc = [](T *Obj){ delete Obj; })` */
    constructor (obj: Ptr := Null, deleter: Deleter := SingleDelete)
      ensures this.obj == obj && this.deleter == deleter && deleted == []
    {
      this.obj := obj;
      this.deleter := deleter;
      deleted := [];
    }

    /** `operator bool`: whether a non-null pointer is held. */
    method IsOwning() returns (b: bool)
      ensures b <==> obj != Null
    {
      b := obj != Null;
    }

    /** `operator T *` and `operator ->`: the held pointer, ownership unchanged. */
    method Get() returns (p: Ptr)
      ensures p == obj
    {
      p := obj;
    }

    /** Hands the held pointer back and forgets it, without calling the deleter. */
    method Detach() returns (p: Ptr)
      modifies this
      ensures p == old(obj) && obj == Null && deleted == old(deleted)
      ensures State() == Step(old(State()), HolderOp.Detach)
    {
      p := obj;
      obj := Null;
    }

    /**
     * Calls the deleter once on the held pointer when it is not null, and
     * leaves the pointer held.
     */
    method Destroy()
      modifies this
      ensures obj == old(obj)
      ensures deleted == old(deleted) + if old(obj) != Null then [old(obj)] else []
      ensures State() == Step(old(State()), HolderOp.Destroy)
    {
      if obj != Null {
        deleted := deleted + [obj];
      }
    }

    /** `operator=(T *ptr)`: replaces the held pointer without releasing the old one; returns `ptr`. */
    method Assign(ptr: Ptr) returns (r: Ptr)
      modifies this
      ensures r == ptr && obj == ptr && deleted == old(deleted)
      ensures State() == Step(old(State()), HolderOp.Assign(ptr))
    {
      obj := ptr;
      r := ptr;
    }

    /** `~CObjHolder()`: an implicit destroy(). */
    method Destructor()
      modifies this
      ensures obj == old(obj)
      ensures deleted == old(deleted) + if old(obj) != Null then [old(obj)] else []
      ensures State() == Step(old(State()), HolderOp.Destroy)
    {
      Destroy();
    }
  }

  /**
   * A holder of `p` with any deleter `d`, going out of scope, calls `d` once
   * on `p`, if `p` is not null.
   */
  method ScopeExit(p: Ptr, d: Deleter) returns (calls: seq<Ptr>)
    ensures calls == if p != Null then [p] else []
  {
    var h := new ObjHolder(p, d);
    h.Destructor();
    calls := h.deleted;
  }

  /** detach() hands back the original pointer, and the destructor then deletes nothing. */
  method DetachThenScopeExit(p: Ptr, d: Deleter) returns (handed: Ptr, calls: seq<Ptr>)
    ensures handed == p && calls == []
  {
    var h := new ObjHolder(p, d);
    handed := h.Detach();
    var owning := h.IsOwning();
    assert !owning;
    h.Destructor();
    calls := h.deleted;
  }

  /** An explicit destroy() followed by the destructor deletes a non-null pointer twice. */
  method DestroyThenScopeExit(p: Ptr, d: Deleter) returns (calls: seq<Ptr>)
    ensures calls == if p != Null then [p, p] else []
  {
    var h := new ObjHolder(p, d);
    h.Destroy();
    h.Destructor();
    calls := h.deleted;
  }

  /** Reassigning a holder of `p` to `q` leaks `p` (when `p != q`): the destructor deletes only `q`. */
  method ReassignThenScopeExit(p: Ptr, q: Ptr) returns (returned: Ptr, calls: seq<Ptr>)
    ensures returned == q && calls == if q != Null then [q] else []
  {
    var h := new ObjHolder(p);
    returned := h.Assign(q);
    h.Destructor();
    calls := h.deleted;
  }
}
