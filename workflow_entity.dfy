// WorkflowEntity: the mutable record a workflow passes from state to state.
module WorkflowEntities {
  /** A snapshot of an entity's four ids (what a queue `send` copies). */
  datatype EntityValue = EntityValue(id: nat, prev: nat, next: nat, error: nat)

  class Entity {
    /** There is no setter for the id. */
    const id: nat
    var prev: nat
    var next: nat
    var error: nat

    function Value(): EntityValue
      reads this
    {
      EntityValue(id, prev, next, error)
    }

    constructor (id: nat, prev: nat, next: nat, error: nat)
      ensures Value() == EntityValue(id, prev, next, error)
    {
      this.id, this.prev, this.next, this.error := id, prev, next, error;
    }

    /** The copy constructor copies all four ids. */
    constructor Copy(ref: Entity)
      ensures Value() == ref.Value()
    {
      id, prev, next, error := ref.id, ref.prev, ref.next, ref.error;
    }

    /** Each setter changes only its own field. */
    method SetPrevStateId(x: nat)
      modifies this
      ensures Value() == old(Value()).(prev := x)
    {
      prev := x;
    }

    method SetNextStateId(x: nat)
      modifies this
      ensures Value() == old(Value()).(next := x)
    {
      next := x;
    }

    method SetErrorStateId(x: nat)
      modifies this
      ensures Value() == old(Value()).(error := x)
    {
      error := x;
    }

    function GetId(): nat
      reads this
    {
      id
    }

    function GetNextStateId(): nat
      reads this
    {
      next
    }

    /** As written, this getter returns the next-state id. */
    function GetPrevStateId(): nat
      reads this
    {
      next
    }

    /** As written, this getter returns the next-state id too. */
    function GetErrorStateId(): nat
      reads this
    {
      next
    }
  }

  /** The previous-state and error-state getters report the next state, so
      they follow `setNextStateId` and ignore their own setters. */
  lemma GettersReportNext(e: Entity)
    ensures e.GetPrevStateId() == e.GetErrorStateId() == e.GetNextStateId() == e.Value().next
    ensures e.GetId() == e.Value().id
  {
  }

  /** Setting the previous state leaves what `getPrevStateId` reports
      unchanged unless it already equalled the next state. */
  method SetPrevIsInvisible(e: Entity, x: nat)
    modifies e
    ensures e.GetPrevStateId() == old(e.GetPrevStateId()) && e.prev == x
  {
    e.SetPrevStateId(x);
  }
}
