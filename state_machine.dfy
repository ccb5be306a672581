// A small finite-state machine over named states.  Each state may declare
// onEnter, onUpdate and onExit hooks; the hooks' effects are outside the
// machine, so the model records each hook call in a trace.
module StateMachines {

  /** Which hooks a state declares. */
  datatype Hooks = Hooks(onEnter: bool, onUpdate: bool, onExit: bool)

  datatype HookCall<S> = Entered(state: S) | Updated(state: S, delta: int) | Exited(state: S)

  /** The onEnter call of state s, if it declares one. */
  function EnterCalls<S>(states: map<S, Hooks>, s: S): seq<HookCall<S>> {
    if s in states && states[s].onEnter then [Entered(s)] else []
  }

  function ExitCalls<S>(states: map<S, Hooks>, s: S): seq<HookCall<S>> {
    if s in states && states[s].onExit then [Exited(s)] else []
  }

  function UpdateCalls<S>(states: map<S, Hooks>, s: S, delta: int): seq<HookCall<S>> {
    if s in states && states[s].onUpdate then [Updated(s, delta)] else []
  }

  /** The hook calls of a transition: none into the current state, otherwise
      the old state's onExit strictly before the new state's onEnter. */
  function TransitionCalls<S(==)>(states: map<S, Hooks>, from: S, to: S): (calls: seq<HookCall<S>>)
    ensures from == to ==> calls == []
    ensures from != to ==> forall c :: c in calls ==> c == Exited(from) || c == Entered(to)
    ensures from != to ==> (Exited(from) in calls <==> from in states && states[from].onExit)
    ensures from != to ==> (Entered(to) in calls <==> to in states && states[to].onEnter)
    ensures forall i, j :: 0 <= i < j < |calls| ==> calls[i].Exited? && calls[j].Entered?
  {
    if from == to then [] else ExitCalls(states, from) + EnterCalls(states, to)
  }

  /** Where a series of transitions ends, and the hooks it calls. */
  function Run<S(==)>(states: map<S, Hooks>, current: S, targets: seq<S>): (S, seq<HookCall<S>>)
    decreases |targets|
  {
    if targets == [] then (current, [])
    else
      var rest := Run(states, targets[0], targets[1..]);
      (rest.0, TransitionCalls(states, current, targets[0]) + rest.1)
  }

  /** Reads a hook trace as the machine would have produced it: each exit is
      of the state most recently entered (starting from `current`). */
  predicate Bracketed<S(==)>(current: S, calls: seq<HookCall<S>>)
    decreases |calls|
  {
    if calls == [] then true
    else match calls[0]
      case Exited(s) => s == current && Bracketed(current, calls[1..])
      case Entered(s) => Bracketed(s, calls[1..])
      case Updated(s, _) => s == current && Bracketed(current, calls[1..])
  }

  predicate AllHooks<S>(states: map<S, Hooks>, targets: seq<S>) {
    forall i :: 0 <= i < |targets| ==> targets[i] in states && states[targets[i]].onEnter && states[targets[i]].onExit
  }

  /** With every hook declared, the hooks of any series of transitions are
      well bracketed: a state is exited only while it is the current one,
      and the machine ends in the last target. */
  lemma {:induction false} RunIsBracketed<S>(states: map<S, Hooks>, current: S, targets: seq<S>)
    requires current in states && states[current].onExit
    requires AllHooks(states, targets)
    ensures Bracketed(current, Run(states, current, targets).1)
    ensures Run(states, current, targets).0 == if targets == [] then current else targets[|targets| - 1]
    decreases |targets|
  {
    if targets != [] {
      var next := targets[0];
      assert AllHooks(states, targets[1..]);
      RunIsBracketed(states, next, targets[1..]);
      var rest := Run(states, next, targets[1..]).1;
      if current != next {
        assert TransitionCalls(states, current, next) + rest == [Exited(current), Entered(next)] + rest;
        assert ([Exited(current), Entered(next)] + rest)[1..] == [Entered(next)] + rest;
        assert ([Entered(next)] + rest)[1..] == rest;
      } else {
        assert TransitionCalls(states, current, next) + rest == rest;
      }
      if |targets| > 1 {
        assert targets[1..][|targets[1..]| - 1] == targets[|targets| - 1];
      }
    }
  }

  class StateMachine<S(==)> {
    var current: S
    const states: map<S, Hooks>
    /** Every hook call so far, oldest first. */
    var calls: seq<HookCall<S>>

    constructor (initial: S, states: map<S, Hooks>)
      ensures current == initial && this.states == states
      ensures calls == EnterCalls(states, initial)
    {
      current := initial;
      this.states := states;
      calls := EnterCalls(states, initial);
    }

    method Transition(next: S)
      modifies this
      ensures current == next
      ensures calls == old(calls) + TransitionCalls(states, old(current), next)
    {
      if current == next {
        return;
      }
      calls := calls + ExitCalls(states, current);
      current := next;
      calls := calls + EnterCalls(states, next);
    }

    method Update(delta: int)
      modifies this
      ensures current == old(current)
      ensures calls == old(calls) + UpdateCalls(states, current, delta)
    {
      calls := calls + UpdateCalls(states, current, delta);
    }

    /** The current state: the initial one until a transition, then the
        target of the latest transition. */
    function State(): (s: S)
      reads this
      ensures s == current
    {
      current
    }

    predicate Is(s: S)
      reads this
      ensures Is(s) <==> State() == s
    {
      current == s
    }
  }
}
