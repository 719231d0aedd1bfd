// WorkflowControl: the listener that runs a workflow state's task for each
// entity it receives and forwards the entity to its next state.  The state
// tasks are foreign: each call is logged by the id it was looked up under.
// The queues' `send` results and whether the workflow queue still exists are
// inputs; the dead-letter queue's presence is fixed at construction.
module WorkflowControl {
  import opened Wrappers
  import opened WorkflowEntities
  import opened WorkflowStorableStates

  /** Where `onMessage` sent the entity. */
  datatype Delivery = Nowhere | WorkflowQueue | DeadLetterQueue

  /** The fixed configuration: the states map, the transitions map, the `end`
      id, and whether a dead-letter queue was given. */
  datatype Setup = Setup(states: map<nat, StorableState>, transitions: map<nat, nat>, end: nat, hasDeadLetter: bool)

  /** What one `onMessage` does: the state task run (by its key), the entity
      afterwards, where it was sent, and the two validity flags. */
  datatype Effect = Effect(task: Option<nat>, entity: EntityValue, delivery: Delivery, dlValid: bool, wfValid: bool)

  /** The reference transition.  `afterTask` is the entity as the foreign
      `StateTask(&msg)` leaves it; the task may use the public setters, but
      the id has none.  The transition is looked up by the next-state id the
      entity holds after the task.  The error-state lookup uses
      `getErrorStateId`, which returns the next-state id that was just not
      found, so that lookup always fails as well. */
  function OnMessageEffect(s: Setup, v: EntityValue, afterTask: EntityValue, dlValid: bool, wfValid: bool,
                           wfQueueAlive: bool, sendOk: bool): (e: Effect)
    requires afterTask.id == v.id
    ensures e.entity.id == v.id
  {
    var unchanged_ := Effect(None, v, Nowhere, dlValid, wfValid);
    if !(dlValid && wfValid) || v.next == s.end then unchanged_
    else if v.next !in s.states then
      if !s.hasDeadLetter then unchanged_.(dlValid := false)
      else Effect(None, v, DeadLetterQueue, dlValid, sendOk)
    else if s.states[v.next].ptr.None? then unchanged_
    else
      var ran := Effect(Some(v.next), afterTask, Nowhere, dlValid, wfValid);
      var current := afterTask.next;
      if current !in s.transitions || s.transitions[current] == s.end then ran
      else
        var moved := afterTask.(prev := current, next := s.transitions[current]);
        if !wfQueueAlive then ran.(entity := moved, wfValid := false)
        else ran.(entity := moved, delivery := WorkflowQueue, wfValid := sendOk)
  }

  /** With either flag cleared, nothing changes; an entity at `end` is
      dropped untouched. */
  lemma DeadOrFinishedChangesNothing(s: Setup, v: EntityValue, w: EntityValue, dlValid: bool, wfValid: bool,
                                     alive: bool, ok: bool)
    requires w.id == v.id
    requires !(dlValid && wfValid) || v.next == s.end
    ensures OnMessageEffect(s, v, w, dlValid, wfValid, alive, ok) == Effect(None, v, Nowhere, dlValid, wfValid)
  {
  }

  /** An unknown next state never runs a task: the entity goes to the
      dead-letter queue unchanged, a failed send clears the workflow flag, and
      a missing dead-letter queue clears the dead-letter flag. */
  lemma UnknownStateGoesToDeadLetter(s: Setup, v: EntityValue, w: EntityValue, alive: bool, ok: bool)
    requires w.id == v.id
    requires v.next != s.end && v.next !in s.states
    ensures var e := OnMessageEffect(s, v, w, true, true, alive, ok);
      && e.task == None && e.entity == v
      && (e.delivery == DeadLetterQueue <==> s.hasDeadLetter)
      && e.dlValid == s.hasDeadLetter
      && e.wfValid == (!s.hasDeadLetter || ok)
  {
  }

  /** A known state's task runs exactly once, under the id the entity was
      received with; the entity is forwarded only when a transition from the
      next-state id it holds after the task leads to a state other than
      `end`, and then carries that id as previous and the target as next. */
  lemma KnownStateRunsTaskAndForwards(s: Setup, v: EntityValue, w: EntityValue, alive: bool, ok: bool)
    requires w.id == v.id
    requires v.next != s.end && v.next in s.states && s.states[v.next].ptr.Some?
    ensures var e := OnMessageEffect(s, v, w, true, true, alive, ok);
      var moves := w.next in s.transitions && s.transitions[w.next] != s.end;
      && e.task == Some(v.next) && e.dlValid
      && e.delivery != DeadLetterQueue
      && (e.delivery == WorkflowQueue <==> moves && alive)
      && (moves ==> e.entity == w.(prev := w.next, next := s.transitions[w.next]))
      && (!moves ==> e.entity == w)
      && e.wfValid == (!moves || (alive && ok))
  {
  }

  /** A task that leaves the entity alone forwards it from the state it was
      received in; a task that redirects the entity to `y` forwards it from
      `y` instead. */
  lemma TaskRedirectsForwarding(s: Setup, v: EntityValue, y: nat, alive: bool)
    requires v.next != s.end && v.next in s.states && s.states[v.next].ptr.Some?
    requires y in s.transitions && s.transitions[y] != s.end
    requires v.next in s.transitions && s.transitions[v.next] != s.end
    ensures OnMessageEffect(s, v, v, true, true, alive, true).entity ==
      v.(prev := v.next, next := s.transitions[v.next])
    ensures OnMessageEffect(s, v, v.(next := y), true, true, alive, true).entity ==
      v.(prev := y, next := s.transitions[y])
  {
    KnownStateRunsTaskAndForwards(s, v, v, alive, true);
    KnownStateRunsTaskAndForwards(s, v, v.(next := y), alive, true);
  }

  /** An entity is never sent to both queues, its id never changes, and its
      error id changes only through a task that ran. */
  lemma AtMostOneDelivery(s: Setup, v: EntityValue, w: EntityValue, dlValid: bool, wfValid: bool, alive: bool, ok: bool)
    requires w.id == v.id
    ensures var e := OnMessageEffect(s, v, w, dlValid, wfValid, alive, ok);
      && e.entity.id == v.id
      && e.entity.error == (if e.task.Some? then w.error else v.error)
      && (e.delivery == DeadLetterQueue ==> e.task.None?)
      && (!e.dlValid ==> !dlValid || !s.hasDeadLetter)
  {
  }

  class Control {
    const setup: Setup
    var dlValid: bool
    var wfValid: bool
    /** The keys of the states whose task ran, in order. */
    var tasks: seq<nat>
    var sentToWorkflow: seq<EntityValue>
    var sentToDeadLetter: seq<EntityValue>

    constructor (setup: Setup)
      ensures this.setup == setup && dlValid && wfValid
      ensures tasks == [] && sentToWorkflow == [] && sentToDeadLetter == []
    {
      this.setup := setup;
      dlValid, wfValid := true, true;
      tasks, sentToWorkflow, sentToDeadLetter := [], [], [];
    }

    /** `onMessage`: updates the entity, the flags and the logs as the
        reference transition says, the task leaving the entity as
        `afterTask`. */
    method OnMessage(msg: Entity, afterTask: EntityValue, wfQueueAlive: bool, sendOk: bool)
      requires afterTask.id == msg.id
      modifies this, msg
      ensures var e := OnMessageEffect(setup, old(msg.Value()), afterTask, old(dlValid), old(wfValid),
                                       wfQueueAlive, sendOk);
        && msg.Value() == e.entity && dlValid == e.dlValid && wfValid == e.wfValid
        && tasks == old(tasks) + (if e.task.Some? then [e.task.value] else [])
        && sentToWorkflow == old(sentToWorkflow) + (if e.delivery == WorkflowQueue then [e.entity] else [])
        && sentToDeadLetter == old(sentToDeadLetter) + (if e.delivery == DeadLetterQueue then [e.entity] else [])
    {
      if !(dlValid && wfValid) {
        return;
      }
      if msg.GetNextStateId() == setup.end {
        return;
      }
      if msg.GetNextStateId() !in setup.states {
        if msg.GetErrorStateId() in setup.states {
          // The error state's task would run here; the lookup repeats the
          // one that just failed, so this branch is never taken.
          assert false;
        } else if setup.hasDeadLetter {
          sentToDeadLetter := sentToDeadLetter + [msg.Value()];
          if !sendOk {
            wfValid := false;
          }
        } else {
          dlValid := false;
        }
      } else {
        var state := setup.states[msg.GetNextStateId()];
        if state.ptr.Some? {
          tasks := tasks + [msg.GetNextStateId()];
          RunTask(msg, afterTask);
          var current := msg.GetNextStateId();
          if current !in setup.transitions {
            return;
          }
          var target := setup.transitions[current];
          if target == setup.end {
            return;
          }
          msg.SetPrevStateId(current);
          msg.SetNextStateId(target);
          if wfQueueAlive {
            sentToWorkflow := sentToWorkflow + [msg.Value()];
            if !sendOk {
              wfValid := false;
            }
          } else {
            wfValid := false;
          }
        }
      }
    }

    /** The foreign `StateTask(&msg)`, through the entity's public setters. */
    method RunTask(msg: Entity, afterTask: EntityValue)
      requires afterTask.id == msg.id
      modifies msg
      ensures msg.Value() == afterTask
    {
      msg.SetPrevStateId(afterTask.prev);
      msg.SetNextStateId(afterTask.next);
      msg.SetErrorStateId(afterTask.error);
    }

    /** `onQueueDestroy`, `onCancel` and the destructor clear both flags. */
    method OnQueueDestroy()
      modifies this
      ensures !dlValid && !wfValid
      ensures tasks == old(tasks) && sentToWorkflow == old(sentToWorkflow) && sentToDeadLetter == old(sentToDeadLetter)
    {
      dlValid, wfValid := false, false;
    }

    /** `getWFStatesCopy`: a copy of the states map, sharing the states. */
    method GetWFStatesCopy() returns (copy: map<nat, StorableState>)
      ensures copy.Keys == setup.states.Keys
      ensures forall k :: k in copy ==> copy[k].ptr == setup.states[k].ptr
    {
      copy := map k | k in setup.states :: Copy(setup.states[k]);
    }
  }
}
