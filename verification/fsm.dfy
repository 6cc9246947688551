/**
 * The generic finite state machine: a current state, a fixed transition
 * table, checked and forced transitions, and a set of observers that every
 * state change notifies with the old and the new state.
 */
module Fsm {
  import opened Types
  import opened Observers

  /** The table: for each state that has an entry, the states it may move to. */
  type TransitionTable<S(==)> = map<S, seq<S>>

  /** The event an observer's `onStateChange(from, to)` receives. */
  datatype Transition<S> = Transition(from: S, to: S)

  /** The error `transitionTo` throws: "Invalid transition: from -> to". */
  datatype FsmError<S> = InvalidTransition(from: S, to: S)

  /** `to` is listed in the entry for `from`; a state without an entry allows nothing. */
  predicate Allows<S(==)>(table: TransitionTable<S>, from: S, to: S)
  {
    from in table && to in table[from]
  }

  class FiniteStateMachine<S(==)> {
    var currentState: S
    const transitions: TransitionTable<S>
    var observers: seq<ObserverId>
    /** Every callback made so far, in order. */
    var log: seq<Call<Transition<S>>>

    /** The observers form a set. */
    ghost predicate Valid()
      reads this
    {
      NoDuplicates(observers)
    }

    constructor (initialState: S, transitions: TransitionTable<S>)
      ensures currentState == initialState && this.transitions == transitions
      ensures observers == [] && log == []
      ensures Valid()
    {
      currentState := initialState;
      this.transitions := transitions;
      observers := [];
      log := [];
    }

    method GetState() returns (s: S)
      ensures s == currentState
    {
      s := currentState;
    }

    /** `canTransitionTo`: false without a table entry, otherwise whether the entry lists the target. */
    method CanTransitionTo(target: S) returns (b: bool)
      ensures b <==> Allows(transitions, currentState, target)
      ensures currentState !in transitions ==> !b
    {
      if currentState !in transitions {
        return false;
      }
      var allowedStates := transitions[currentState];
      b := target in allowedStates;
    }

    /**
     * `transitionTo`: a target the table does not allow is refused, leaving
     * state, observers and calls as they were; otherwise the state becomes the
     * target, every observer is called once with the transition, and the
     * result is `true`, never `false`.
     */
    method TransitionTo(target: S) returns (r: Result<bool, FsmError<S>>)
      requires Valid()
      modifies this
      ensures Valid() && observers == old(observers)
      ensures !Allows(transitions, old(currentState), target) ==>
        r == Err(InvalidTransition(old(currentState), target)) && currentState == old(currentState) && log == old(log)
      ensures Allows(transitions, old(currentState), target) ==>
        && r == Ok(true)
        && currentState == target
        && log == old(log) + Announce(observers, Transition(old(currentState), target))
    {
      var allowed := CanTransitionTo(target);
      if !allowed {
        return Err(InvalidTransition(currentState, target));
      }
      var previousState := currentState;
      currentState := target;
      NotifyObservers(previousState, target);
      r := Ok(true);
    }

    /** `forceTransition`: the state becomes the target whatever the table says, and every observer is called. */
    method ForceTransition(target: S)
      requires Valid()
      modifies this
      ensures Valid() && observers == old(observers)
      ensures currentState == target
      ensures log == old(log) + Announce(observers, Transition(old(currentState), target))
    {
      var previousState := currentState;
      currentState := target;
      NotifyObservers(previousState, target);
    }

    method Subscribe(o: ObserverId)
      requires Valid()
      modifies this
      ensures Valid()
      ensures observers == Subscribed(old(observers), o)
      ensures currentState == old(currentState) && log == old(log)
    {
      SubscribedMeaning(observers, o);
      if o !in observers {
        observers := observers + [o];
      }
    }

    method Unsubscribe(o: ObserverId)
      requires Valid()
      modifies this
      ensures Valid()
      ensures observers == Unsubscribed(old(observers), o)
      ensures currentState == old(currentState) && log == old(log)
    {
      UnsubscribedMeaning(observers, o);
      observers := Unsubscribed(observers, o);
    }

    /** `notifyObservers`: one call per observer, in subscription order. */
    method NotifyObservers(from: S, to: S)
      modifies this
      ensures currentState == old(currentState) && observers == old(observers)
      ensures log == old(log) + Announce(observers, Transition(from, to))
    {
      for k := 0 to |observers|
        invariant currentState == old(currentState) && observers == old(observers)
        invariant log == old(log) + Announce(observers[..k], Transition(from, to))
      {
        assert Announce(observers[..k + 1], Transition(from, to)) == Announce(observers[..k], Transition(from, to)) + [Call(observers[k], Transition(from, to))];
        log := log + [Call(observers[k], Transition(from, to))];
      }
      assert observers[..|observers|] == observers;
    }
  }
}
