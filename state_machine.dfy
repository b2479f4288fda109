/** The generic transition table of the run engine.

    A `StateMachine` holds a fixed list of declared states, a fixed list of
    declared transitions and an optional, mutable current state. States are
    plain strings, as in the TypeScript class, so that JavaScript's
    truthiness test on the current state (an empty string counts as "no
    state") can be written out. */
module StateMachines {

  datatype Option<+T> = None | Some(value: T)

  /** A state name. */
  type State = string

  /** A declared transition: an optional list of source states (`None`:
      no `from` list, so the transition may be taken from any state) and
      one target state. */
  datatype StateTransition = StateTransition(from: Option<seq<State>>, to: State)

  /** Why `transition` refused: the current state (if any) and the
      requested target, the two values its error message reports. */
  datatype TransitionError = InvalidTransition(from: Option<State>, to: State)

  /** The result object of `transition`: `success: true` with the new
      state, or `success: false` with an error. */
  datatype TransitionResult = Success(state: State) | Failure(error: TransitionError)

  /** What `setInitialState` does: return normally, or throw `Invalid state`. */
  datatype InitOutcome = Initialised | InvalidState(state: State)

  /** The outcome of one call of `transition`: what it returns and the
      current state it leaves behind. */
  datatype Step = Step(result: TransitionResult, next: Option<State>)

  /** JavaScript's `!this.state` is false exactly for a defined, non-empty string. */
  predicate IsSet(current: Option<State>)
  {
    current.Some? && current.value != ""
  }

  /** The callback that `transition` hands to `find`: a transition with a
      `from` list matches when a current state is set and is in that list
      (the requested target is not looked at); a transition without one
      matches when its target is the requested one. */
  predicate Matches(t: StateTransition, current: Option<State>, to: State): (b: bool)
    ensures b && t.from.Some? ==> current.Some? && current.value in t.from.value
    ensures !IsSet(current) ==> (b <==> t.from.None? && t.to == to)
  {
    match t.from
    case Some(from) => IsSet(current) && current.value in from
    case None => t.to == to
  }

  /** The index of the first transition, in declaration order, that
      matches; `None` when none does. */
  function FirstMatch(ts: seq<StateTransition>, current: Option<State>, to: State): (k: Option<nat>)
    ensures k.Some? ==> k.value < |ts| && Matches(ts[k.value], current, to)
    ensures k.Some? ==> forall j :: 0 <= j < k.value ==> !Matches(ts[j], current, to)
    ensures k.None? ==> forall j :: 0 <= j < |ts| ==> !Matches(ts[j], current, to)
  {
    if |ts| == 0 then None
    else if Matches(ts[0], current, to) then Some(0)
    else match FirstMatch(ts[1..], current, to)
      case None => None
      case Some(k) => Some(k + 1)
  }

  /** The linear scan of `Array.prototype.find` over the transitions. */
  method Find(ts: seq<StateTransition>, current: Option<State>, to: State) returns (k: Option<nat>)
    ensures k == FirstMatch(ts, current, to)
  {
    var i := 0;
    while i < |ts|
      invariant i <= |ts|
      invariant forall j :: 0 <= j < i ==> !Matches(ts[j], current, to)
    {
      if Matches(ts[i], current, to) {
        return Some(i);
      }
      i := i + 1;
    }
    return None;
  }

  /** What one call of `transition(to)` returns and leaves as current
      state, given the declared transitions and the current state. */
  function Apply(ts: seq<StateTransition>, current: Option<State>, to: State): (s: Step)
    ensures s.result.Success? <==> exists i :: 0 <= i < |ts| && Matches(ts[i], current, to)
    ensures s.result.Success? ==> s.result.state == to && s.next == Some(to)
    ensures s.result.Failure? ==> s.next == current && s.result.error == InvalidTransition(current, to)
  {
    match FirstMatch(ts, current, to)
    case None => Step(Failure(InvalidTransition(current, to)), current)
    case Some(_) => Step(Success(to), Some(to))
  }

  /** A transition is refused, and the current state kept, exactly when no
      declared transition matches. */
  lemma NoMatchKeepsState(ts: seq<StateTransition>, current: Option<State>, to: State)
    ensures Apply(ts, current, to).result.Failure?
        <==> forall i :: 0 <= i < |ts| ==> !Matches(ts[i], current, to)
    ensures Apply(ts, current, to).result.Failure? ==> Apply(ts, current, to).next == current
  {
  }

  /** On success the new state is the REQUESTED target, which need not be
      the target of the transition that matched. */
  lemma SuccessWritesRequestedTarget(ts: seq<StateTransition>, current: Option<State>, to: State)
    requires Apply(ts, current, to).result.Success?
    ensures FirstMatch(ts, current, to).Some?
    ensures Apply(ts, current, to) == Step(Success(to), Some(to))
  {
  }

  /** With no current state (or the empty string), only a transition
      without a `from` list can match, and only through its target. */
  lemma UnsetStateNeedsUnrestricted(ts: seq<StateTransition>, current: Option<State>, to: State)
    requires !IsSet(current)
    ensures Apply(ts, current, to).result.Success?
        <==> exists i :: 0 <= i < |ts| && ts[i].from.None? && ts[i].to == to
  {
  }

  /** When only transitions without a `from` list are declared, a request
      succeeds exactly when some transition targets it, whatever the
      current state. */
  lemma UnrestrictedMatchesByTarget(ts: seq<StateTransition>, current: Option<State>, to: State)
    requires forall i :: 0 <= i < |ts| ==> ts[i].from.None?
    ensures Apply(ts, current, to).result.Success?
        <==> exists i :: 0 <= i < |ts| && ts[i].to == to
  {
  }

  /** A set current state listed in some transition's `from` list makes
      every requested target succeed: restricted transitions never compare
      their target with the request. */
  lemma RestrictedSourceAcceptsAnyTarget(ts: seq<StateTransition>, current: Option<State>, i: nat, x: State)
    requires i < |ts| && ts[i].from.Some?
    requires IsSet(current) && current.value in ts[i].from.value
    ensures Apply(ts, current, x) == Step(Success(x), Some(x))
  {
  }

  /** Success depends on the request only through transitions without a
      `from` list: two requests that no unrestricted transition tells apart
      either both succeed or both fail. */
  lemma SuccessIgnoresRestrictedTargets(ts: seq<StateTransition>, current: Option<State>, x: State, y: State)
    requires forall i :: 0 <= i < |ts| && ts[i].from.None? ==> (ts[i].to == x <==> ts[i].to == y)
    ensures Apply(ts, current, x).result.Success? == Apply(ts, current, y).result.Success?
  {
  }

  /** The generic state machine: fixed states and transitions, and a
      current state that `SetInitialState` and `Transition` overwrite. */
  class StateMachine {
    const states: seq<State>
    const transitions: seq<StateTransition>
    var state: Option<State>

    constructor (states: seq<State>, transitions: seq<StateTransition>)
      ensures this.states == states && this.transitions == transitions
      ensures state == None
    {
      this.states := states;
      this.transitions := transitions;
      state := None;
    }

    /** The `currentState` getter. */
    function CurrentState(): Option<State>
      reads this
    {
      state
    }

    /** Stores a declared state as the current state; refuses (the
        source throws) an undeclared one and leaves the state alone. */
    method SetInitialState(s: State) returns (outcome: InitOutcome)
      modifies this
      ensures outcome == (if s in states then Initialised else InvalidState(s))
      ensures outcome.Initialised? ==> CurrentState() == Some(s)
      ensures outcome.InvalidState? ==> state == old(state)
    {
      if s !in states {
        return InvalidState(s);
      }
      state := Some(s);
      outcome := Initialised;
    }

    /** Takes the first matching declared transition and, if there is one,
        overwrites the current state with the requested target. */
    method Transition(to: State) returns (r: TransitionResult)
      modifies this
      ensures r == Apply(transitions, old(state), to).result
      ensures state == Apply(transitions, old(state), to).next
    {
      var k := Find(transitions, state, to);
      if k.None? {
        return Failure(InvalidTransition(state, to));
      }
      state := Some(to);
      r := Success(to);
    }
  }

  /** The requested target is never checked against the declared states:
      a machine whose states are "A" and "B", seeded with "A", moves to the
      undeclared "Z". */
  method TargetNotCheckedAgainstStates() returns (m: StateMachine)
    ensures m.states == ["A", "B"] && m.state == Some("Z") && "Z" !in m.states
  {
    m := new StateMachine(["A", "B"], [StateTransition(Some(["A"]), "B")]);
    var outcome := m.SetInitialState("A");
    var r := m.Transition("Z");
  }
}
