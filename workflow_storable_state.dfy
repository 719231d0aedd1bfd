// WorkflowStorableState: a shared pointer to a workflow state, compared by
// the state's id.  A state object is identified by its address.
module WorkflowStorableStates {
  import opened Wrappers

  datatype WorkflowState = WorkflowState(address: nat, id: nat)

  /** A null pointer is None. */
  datatype StorableState = StorableState(ptr: Option<WorkflowState>)

  /** Copy construction shares the pointer. */
  function Copy(s: StorableState): (c: StorableState)
    ensures c.ptr == s.ptr
  {
    StorableState(s.ptr)
  }

  /** `==`, `<` and `>` between two states: false unless both are non-null. */
  predicate Eq(a: StorableState, b: StorableState)
  {
    a.ptr.Some? && b.ptr.Some? && a.ptr.value.id == b.ptr.value.id
  }

  predicate Less(a: StorableState, b: StorableState)
  {
    a.ptr.Some? && b.ptr.Some? && a.ptr.value.id < b.ptr.value.id
  }

  predicate Greater(a: StorableState, b: StorableState)
  {
    a.ptr.Some? && b.ptr.Some? && a.ptr.value.id > b.ptr.value.id
  }

  /** The comparisons against a raw id: all false for a null pointer. */
  predicate EqId(a: StorableState, id: nat)
  {
    a.ptr.Some? && a.ptr.value.id == id
  }

  predicate NeId(a: StorableState, id: nat)
  {
    a.ptr.Some? && a.ptr.value.id != id
  }

  predicate LessId(a: StorableState, id: nat)
  {
    a.ptr.Some? && a.ptr.value.id < id
  }

  predicate GreaterId(a: StorableState, id: nat)
  {
    a.ptr.Some? && a.ptr.value.id > id
  }

  /** `operator uint32_t`: the state id, or `err` for a null pointer. */
  function ToId(a: StorableState, err: nat): nat
  {
    if a.ptr.Some? then a.ptr.value.id else err
  }

  /** Between non-null states exactly one of `<`, `==`, `>` holds; with a
      null side none does, so `==` is not reflexive there. */
  lemma Trichotomy(a: StorableState, b: StorableState)
    ensures a.ptr.Some? && b.ptr.Some? ==>
      (Less(a, b) || Eq(a, b) || Greater(a, b)) &&
      !(Less(a, b) && Eq(a, b)) && !(Less(a, b) && Greater(a, b)) && !(Eq(a, b) && Greater(a, b))
    ensures a.ptr.None? || b.ptr.None? ==> !Less(a, b) && !Eq(a, b) && !Greater(a, b)
  {
  }

  /** `<` is a strict order and `==` an equivalence on non-null states, both
      determined by the id alone (the address does not matter). */
  lemma OrderByIdOnly(a: StorableState, b: StorableState, c: StorableState)
    ensures !Less(a, a) && (a.ptr.Some? <==> Eq(a, a))
    ensures Less(a, b) && Less(b, c) ==> Less(a, c)
    ensures Eq(a, b) ==> Eq(b, a) && (Eq(b, c) ==> Eq(a, c))
    ensures Less(a, b) <==> Greater(b, a)
  {
  }

  /** Against a raw id, a null pointer makes `!=` false as well as `==`, so
      `!=` is the negation of `==` only for non-null pointers. */
  lemma RawIdComparisons(a: StorableState, id: nat, err: nat)
    ensures a.ptr.None? ==> !EqId(a, id) && !NeId(a, id) && !LessId(a, id) && !GreaterId(a, id)
    ensures a.ptr.Some? ==> (NeId(a, id) <==> !EqId(a, id))
    ensures a.ptr.Some? ==> (EqId(a, id) <==> ToId(a, err) == id)
    ensures a.ptr.None? ==> ToId(a, err) == err
  {
  }
}
