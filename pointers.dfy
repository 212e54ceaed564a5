/** Values shared by the allocation layer and both holders. */
module Pointers {

  /** A raw `T *`: either `nullptr` or the address of an object. */
  datatype Ptr = Null | Addr(addr: nat)

  /**
   * A holder's deletion strategy (`TDeleteFunc`). What the strategy does to
   * the object is C++ destruction outside this model; a holder records only
   * that it called its strategy, and on which pointer.
   */
  datatype Deleter =
    | SingleDelete         // the default lambda: `delete Obj`
    | ArrayDelete          // CObjHolder::ArrayHolderDelete: `delete[] Obj`
    | CustomDelete(id: nat) // any other function the caller passes
}
