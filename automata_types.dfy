/** The records of the automata package and the initial-state rule their
    constructors apply (automata/automata_types.py). */
module AutomataTypes {
  import opened Common

  datatype AutomataType = Dfa | Nfa

  datatype Transition = Transition(
    fromState: string,
    toState: string,
    event: string,
    condition: Option<string>,
    action: Option<string>)

  datatype AState = AState(
    id: string,
    name: string,
    isInitial: bool,
    isFinal: bool,
    onEntryAction: Option<string>,
    onExitAction: Option<string>)

  /** What `get_current_state` reports: the single state of a DFA, the state
      set of an NFA. */
  datatype Snapshot = One(state: Option<string>) | Many(states: set<string>)

  /** Why an event did or did not move the automaton. */
  datatype Message =
    | InvalidEvent(event: string)
    | NoTransition(event: string)
    | NoEnabledTransition(event: string)
    | Moved(before: Snapshot, after: Snapshot)

  datatype EventResult = EventResult(
    success: bool,
    oldState: Snapshot,
    newState: Snapshot,
    message: Message,
    executedActions: seq<string>)

  predicate IsInitial(s: AState) {
    s.isInitial
  }

  /** `next((s.id for s in states if s.is_initial), None)`. */
  function FirstInitial(states: seq<AState>): (r: Option<string>)
    ensures r.None? <==> forall k :: 0 <= k < |states| ==> !states[k].isInitial
    ensures r.Some? ==> exists k :: 0 <= k < |states| && states[k].isInitial && states[k].id == r.value &&
                                    forall j :: 0 <= j < k ==> !states[j].isInitial
  {
    match FirstIndex(states, IsInitial)
    case None => None
    case Some(k) => Some(states[k].id)
  }

  /** The `current_state` a freshly built automaton holds when `given` was
      passed: a truthy `given` is kept, otherwise the first initial state's
      id is taken, and with no initial state `given` is left as it was. */
  function PostInitState(states: seq<AState>, given: Option<string>): (r: Option<string>)
    ensures Truthy(given) ==> r == given
    ensures !Truthy(given) && (forall k :: 0 <= k < |states| ==> !states[k].isInitial) ==> r == given
    ensures !Truthy(given) && (exists k :: 0 <= k < |states| && states[k].isInitial) ==>
              exists k :: 0 <= k < |states| && states[k].isInitial && r == Some(states[k].id) &&
                          forall j :: 0 <= j < k ==> !states[j].isInitial
  {
    if Truthy(given) then given
    else match FirstInitial(states)
      case None => given
      case Some(id) => Some(id)
  }

  /** A DFA or NFA definition together with its current state. */
  class Automata {
    const id: string
    const name: string
    const kind: AutomataType
    const states: seq<AState>
    const transitions: seq<Transition>
    const alphabet: set<string>
    var currentState: Option<string>
    /** The NFA's state set; a DFA keeps it empty. */
    var currentStates: set<string>

    /** The dataclass constructor followed by `__post_init__`: an unset
        `current_state` becomes the first initial state, and an NFA with a
        current state starts from exactly that state. */
    constructor (id: string, name: string, kind: AutomataType, states: seq<AState>,
                 transitions: seq<Transition>, alphabet: set<string>,
                 currentState: Option<string>, currentStates: set<string>)
      ensures this.id == id && this.name == name && this.kind == kind
      ensures this.states == states && this.transitions == transitions && this.alphabet == alphabet
      ensures this.currentState == PostInitState(states, currentState)
      ensures kind == Nfa && Truthy(this.currentState) ==> this.currentStates == {this.currentState.value}
      ensures kind == Nfa && !Truthy(this.currentState) ==> this.currentStates == currentStates
      ensures kind == Dfa ==> this.currentStates == {}
    {
      this.id := id;
      this.name := name;
      this.kind := kind;
      this.states := states;
      this.transitions := transitions;
      this.alphabet := alphabet;
      var current := currentState;
      if !Truthy(current) {
        var i := 0;
        while i < |states|
          invariant 0 <= i <= |states|
          invariant forall k :: 0 <= k < i ==> !states[k].isInitial
        {
          if states[i].isInitial {
            current := Some(states[i].id);
            break;
          }
          i := i + 1;
        }
      }
      this.currentState := current;
      if kind == Nfa {
        this.currentStates := if Truthy(current) then {current.value} else currentStates;
      } else {
        this.currentStates := {};
      }
    }
  }
}
