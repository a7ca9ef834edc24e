/** The dictionary-driven automaton runner (automata/engine.py): it keeps a
    set of current states and a history of taken transitions, and moves on
    an event along the first transition leaving the current state. */
module Engine {
  import opened Common
  import opened PyValues

  /** One entry of the definition's "states" dictionary. */
  datatype StateDef = StateDef(initial: bool, name: Option<string>, onEntry: Option<string>, onExit: Option<string>)

  /** One entry of the definition's "transitions" list. */
  datatype TransitionDef = TransitionDef(fromState: string, toState: string, event: string, action: Option<string>)

  /** The definition dictionary; None stands for a missing key, and the
      states dictionary is its list of (id, state) items in insertion
      order. */
  datatype AutomataDef = AutomataDef(
    id: Option<string>,
    name: Option<string>,
    kind: Option<string>,
    initialState: Option<string>,
    states: seq<(string, StateDef)>,
    transitions: seq<TransitionDef>)

  datatype HistoryRecord = HistoryRecord(
    fromState: string,
    toState: string,
    event: string,
    timestamp: Timestamp,
    context: Option<Context>)

  const DefaultId: string := "unnamed_automata"
  const DefaultKind: string := "dfa"

  predicate IsInitialItem(item: (string, StateDef)) {
    item.1.initial
  }

  /** The start state set: `{initial_state}` when the definition names a
      truthy one, otherwise the first state marked initial, otherwise
      nothing. */
  function InitialStates(d: AutomataDef): (r: set<string>)
    ensures Truthy(d.initialState) ==> r == {d.initialState.value}
    ensures !Truthy(d.initialState) && (forall k :: 0 <= k < |d.states| ==> !d.states[k].1.initial) ==> r == {}
    ensures !Truthy(d.initialState) && (exists k :: 0 <= k < |d.states| && d.states[k].1.initial) ==>
              exists k :: 0 <= k < |d.states| && d.states[k].1.initial && r == {d.states[k].0} &&
                          forall j :: 0 <= j < k ==> !d.states[j].1.initial
    ensures |r| <= 1
  {
    if Truthy(d.initialState) then {d.initialState.value}
    else match FirstIndex(d.states, IsInitialItem)
      case None => {}
      case Some(k) => {d.states[k].0}
  }

  /** The loop `__init__` and `reset` share. */
  method FindInitialStates(d: AutomataDef) returns (s: set<string>)
    ensures s == InitialStates(d)
  {
    s := {};
    if Truthy(d.initialState) {
      s := s + {d.initialState.value};
    } else {
      var i := 0;
      while i < |d.states|
        invariant 0 <= i <= |d.states|
        invariant forall k :: 0 <= k < i ==> !d.states[k].1.initial
      {
        if d.states[i].1.initial {
          s := s + {d.states[i].0};
          return;
        }
        i := i + 1;
      }
    }
  }

  /** `automata_def["states"].get(id)`: the first item with that key. */
  function StateDefOf(states: seq<(string, StateDef)>, id: string): (r: Option<StateDef>)
    ensures r.None? <==> forall k :: 0 <= k < |states| ==> states[k].0 != id
    ensures r.Some? ==> exists k :: 0 <= k < |states| && states[k] == (id, r.value)
  {
    if states == [] then None
    else if states[0].0 == id then Some(states[0].1)
    else
      var r := StateDefOf(states[1..], id);
      assert forall k :: 0 < k < |states| ==> states[k] == states[1..][k - 1];
      if r.Some? then
        var k :| 0 <= k < |states[1..]| && states[1..][k] == (id, r.value);
        assert states[k + 1] == (id, r.value);
        r
      else r
  }

  /** The index of the first transition leaving `current` on `event`. */
  function FirstTransition(ts: seq<TransitionDef>, current: string, event: string): (r: Option<nat>)
    ensures r.Some? ==> r.value < |ts| && ts[r.value].fromState == current && ts[r.value].event == event
    ensures r.Some? ==> forall k :: 0 <= k < r.value ==> !(ts[k].fromState == current && ts[k].event == event)
    ensures r.None? <==> forall k :: 0 <= k < |ts| ==> !(ts[k].fromState == current && ts[k].event == event)
  {
    if ts == [] then None
    else if ts[0].fromState == current && ts[0].event == event then Some(0)
    else
      var r := FirstTransition(ts[1..], current, event);
      assert forall k :: 0 < k < |ts| ==> ts[k] == ts[1..][k - 1];
      match r
      case None => None
      case Some(i) => Some(i + 1)
  }

  /** The distinct non-empty events of the transitions leaving `current`,
      in the order of their first occurrence. */
  function PossibleEvents(ts: seq<TransitionDef>, current: string): seq<string>
    decreases |ts|
  {
    if ts == [] then []
    else
      var events := PossibleEvents(ts[..|ts| - 1], current);
      var t := ts[|ts| - 1];
      if t.fromState == current && t.event != "" && t.event !in events then events + [t.event]
      else events
  }

  /** A transition leaving `current` that offers the non-empty event `e`. */
  predicate Offers(t: TransitionDef, current: string, e: string) {
    t.fromState == current && t.event == e && e != ""
  }

  /** The events listed are exactly the non-empty events of the transitions
      leaving `current`, each listed once. */
  lemma {:induction false} PossibleEventsSpec(ts: seq<TransitionDef>, current: string)
    ensures forall e :: e in PossibleEvents(ts, current) <==> exists k :: 0 <= k < |ts| && Offers(ts[k], current, e)
    ensures forall i, j :: 0 <= i < j < |PossibleEvents(ts, current)| ==>
              PossibleEvents(ts, current)[i] != PossibleEvents(ts, current)[j]
    decreases |ts|
  {
    if ts != [] {
      var prefix := ts[..|ts| - 1];
      var t := ts[|ts| - 1];
      var prev := PossibleEvents(prefix, current);
      var events := PossibleEvents(ts, current);
      PossibleEventsSpec(prefix, current);
      assert forall k :: 0 <= k < |prefix| ==> prefix[k] == ts[k];
      assert events == if t.fromState == current && t.event != "" && t.event !in prev then prev + [t.event] else prev;
      forall e
        ensures e in events <==> exists k :: 0 <= k < |ts| && Offers(ts[k], current, e)
      {
        if e in prev {
          var k :| 0 <= k < |prefix| && Offers(prefix[k], current, e);
          assert Offers(ts[k], current, e);
        } else if e in events {
          assert Offers(ts[|ts| - 1], current, e);
        }
        if exists k :: 0 <= k < |ts| && Offers(ts[k], current, e) {
          var k :| 0 <= k < |ts| && Offers(ts[k], current, e);
          if k < |prefix| {
            assert Offers(prefix[k], current, e);
            assert e in prev;
          } else {
            assert t == ts[k];
          }
        }
      }
      if events != prev {
        assert events == prev + [t.event] && t.event !in prev;
        forall i, j | 0 <= i < j < |events|
          ensures events[i] != events[j]
        {
          if j == |prev| {
            assert events[i] == prev[i];
            assert events[j] == t.event;
          } else {
            assert events[i] == prev[i] && events[j] == prev[j];
          }
        }
      }
    }
  }

  /** First-occurrence order: looking at more transitions only appends
      events, so the events found among the first `n` transitions keep
      their places. */
  lemma {:induction false} PossibleEventsPrefix(ts: seq<TransitionDef>, current: string, n: nat)
    requires n <= |ts|
    ensures var shorter := PossibleEvents(ts[..n], current);
            var events := PossibleEvents(ts, current);
            |shorter| <= |events| && events[..|shorter|] == shorter
    decreases |ts| - n
  {
    if n < |ts| {
      var prefix := ts[..|ts| - 1];
      assert prefix[..n] == ts[..n];
      PossibleEventsPrefix(prefix, current, n);
    } else {
      assert ts[..n] == ts;
    }
  }

  /** The events `get_possible_events` lists are exactly the non-empty
      events on which `trigger_event` finds a transition from `current`. */
  lemma PossibleEventsFire(ts: seq<TransitionDef>, current: string, e: string)
    requires e != ""
    ensures e in PossibleEvents(ts, current) <==> FirstTransition(ts, current, e).Some?
  {
    PossibleEventsSpec(ts, current);
    if FirstTransition(ts, current, e).Some? {
      var k := FirstTransition(ts, current, e).value;
      assert Offers(ts[k], current, e);
    }
  }

  /** The action handler calls for an optional hook name: one call when the
      name is truthy and registered, none otherwise. */
  function HandlerCall(handlers: map<string, Action>, name: Option<string>, ctx: Context): (r: seq<Effect>)
    ensures |r| <= 1
    ensures r != [] <==> Truthy(name) && name.value in handlers
    ensures r != [] ==> r == [handlers[name.value](ctx)]
  {
    if Truthy(name) && name.value in handlers then [handlers[name.value](ctx)] else []
  }

  predicate AllPerformed(effects: seq<Effect>) {
    forall k :: 0 <= k < |effects| ==> effects[k].Performed?
  }

  /** The handler calls actually made when `calls` run in order and the
      first one that raises aborts the rest. */
  function Executed(calls: seq<Effect>): seq<Effect> {
    if calls == [] then []
    else if calls[0].Failed? then [calls[0]]
    else [calls[0]] + Executed(calls[1..])
  }

  /** `effects` ran the handler calls of `all` in order up to the first one
      that raised, and stopped there. */
  predicate StopsAtFailure(effects: seq<Effect>, all: seq<Effect>) {
    effects != [] && |effects| <= |all| && all[..|effects|] == effects &&
    effects[|effects| - 1].Failed? && AllPerformed(effects[..|effects| - 1])
  }

  /** When no call raises every call is made; otherwise the calls stop right
      after the first one that raises. */
  lemma ExecutedSpec(calls: seq<Effect>)
    ensures AllPerformed(calls) ==> Executed(calls) == calls
    ensures !AllPerformed(calls) ==> StopsAtFailure(Executed(calls), calls)
  {
    if AllPerformed(calls) {
      ExecutedAllPerformed(calls);
    } else {
      ExecutedStops(calls);
    }
  }

  lemma {:induction false} ExecutedAllPerformed(calls: seq<Effect>)
    requires AllPerformed(calls)
    ensures Executed(calls) == calls
  {
    if calls != [] {
      AllPerformedCons(calls);
      ExecutedAllPerformed(calls[1..]);
      assert calls == [calls[0]] + calls[1..];
    }
  }

  lemma {:induction false} ExecutedStops(calls: seq<Effect>)
    requires !AllPerformed(calls)
    ensures StopsAtFailure(Executed(calls), calls)
  {
    AllPerformedCons(calls);
    if calls[0].Failed? {
      assert calls[..1] == Executed(calls);
    } else {
      ExecutedStops(calls[1..]);
      StopsAtFailureCons(calls[0], calls[1..], Executed(calls[1..]));
      assert calls == [calls[0]] + calls[1..];
    }
  }

  /** Making one call that completes in front of a run that stopped at a
      failure gives a run that stops at the same failure. */
  lemma StopsAtFailureCons(c: Effect, tail: seq<Effect>, rest: seq<Effect>)
    requires c.Performed? && StopsAtFailure(rest, tail)
    ensures StopsAtFailure([c] + rest, [c] + tail)
  {
    var run := [c] + rest;
    var all := [c] + tail;
    assert all[..|run|] == [c] + tail[..|rest|];
    assert run[..|run| - 1] == [c] + rest[..|rest| - 1];
    AllPerformedCons(run[..|run| - 1]);
    assert run[..|run| - 1][1..] == rest[..|rest| - 1];
  }

  /** Running two lists of calls one after the other: the second list only
      starts when no call of the first one raised. */
  lemma {:induction false} ExecutedConcat(a: seq<Effect>, b: seq<Effect>)
    ensures AllPerformed(a) ==> Executed(a + b) == a + Executed(b)
    ensures !AllPerformed(a) ==> Executed(a + b) == Executed(a)
    ensures AllPerformed(a + b) <==> AllPerformed(a) && AllPerformed(b)
  {
    AllPerformedConcat(a, b);
    if a == [] {
      assert a + b == b;
    } else {
      var tail := a[1..];
      assert (a + b)[0] == a[0] && (a + b)[1..] == tail + b;
      AllPerformedCons(a);
      if a[0].Performed? {
        ExecutedConcat(tail, b);
        if AllPerformed(a) {
          assert a == [a[0]] + tail;
        }
      }
    }
  }

  lemma AllPerformedCons(a: seq<Effect>)
    requires a != []
    ensures AllPerformed(a) <==> a[0].Performed? && AllPerformed(a[1..])
  {
    assert forall k :: 1 <= k < |a| ==> a[k] == a[1..][k - 1];
  }

  lemma AllPerformedConcat(a: seq<Effect>, b: seq<Effect>)
    ensures AllPerformed(a + b) <==> AllPerformed(a) && AllPerformed(b)
  {
    assert forall k :: 0 <= k < |a| ==> (a + b)[k] == a[k];
    assert forall k :: 0 <= k < |b| ==> (a + b)[|a| + k] == b[k];
  }

  function ExitHook(d: AutomataDef, id: string): Option<string> {
    match StateDefOf(d.states, id)
    case None => None
    case Some(s) => s.onExit
  }

  function EntryHook(d: AutomataDef, id: string): Option<string> {
    match StateDefOf(d.states, id)
    case None => None
    case Some(s) => s.onEntry
  }

  /** The handler calls of the exit hook of the source and of the
      transition's own action: those made before the state update. */
  function PreMoveCalls(d: AutomataDef, handlers: map<string, Action>, t: TransitionDef, ctx: Context): seq<Effect> {
    HandlerCall(handlers, ExitHook(d, t.fromState), ctx) + HandlerCall(handlers, t.action, ctx)
  }

  /** The handler call of the entry hook of the target. */
  function EntryCalls(d: AutomataDef, handlers: map<string, Action>, t: TransitionDef, ctx: Context): seq<Effect> {
    HandlerCall(handlers, EntryHook(d, t.toState), ctx)
  }

  /** Every handler call a transition can make, in order. */
  function HookCalls(d: AutomataDef, handlers: map<string, Action>, t: TransitionDef, ctx: Context): seq<Effect> {
    PreMoveCalls(d, handlers, t, ctx) + EntryCalls(d, handlers, t, ctx)
  }

  class AutomataEngine {
    const definition: AutomataDef
    const id: string
    const name: string
    const kind: string
    var currentStates: set<string>
    var history: seq<HistoryRecord>
    var actionHandlers: map<string, Action>
    var conditionHandlers: map<string, Condition>

    /** `__init__`: the defaults for a missing id, name and type, the start
        state set, an empty history and no handlers. */
    constructor (d: AutomataDef)
      ensures definition == d
      ensures id == (if d.id.Some? then d.id.value else DefaultId)
      ensures name == (if d.name.Some? then d.name.value else id)
      ensures kind == (if d.kind.Some? then d.kind.value else DefaultKind)
      ensures currentStates == InitialStates(d)
      ensures history == [] && actionHandlers == map[] && conditionHandlers == map[]
    {
      definition := d;
      var engineId := if d.id.Some? then d.id.value else DefaultId;
      id := engineId;
      name := if d.name.Some? then d.name.value else engineId;
      kind := if d.kind.Some? then d.kind.value else DefaultKind;
      var start := FindInitialStates(d);
      currentStates := start;
      history := [];
      actionHandlers := map[];
      conditionHandlers := map[];
    }

    method RegisterActionHandler(actionName: string, handler: Action)
      modifies this`actionHandlers
      ensures actionHandlers == old(actionHandlers)[actionName := handler]
    {
      actionHandlers := actionHandlers[actionName := handler];
    }

    method RegisterConditionHandler(conditionName: string, handler: Condition)
      modifies this`conditionHandlers
      ensures conditionHandlers == old(conditionHandlers)[conditionName := handler]
    {
      conditionHandlers := conditionHandlers[conditionName := handler];
    }

    /** `trigger_event`: from one of the current states (`current`, the one
        Python's set iteration yields first), the first transition on the
        event replaces the whole state set by its target and is recorded in
        the history. Conditions and actions are never consulted. Without a
        current state or a matching transition nothing changes. */
    method TriggerEvent(event: string, context: Context, now: Timestamp) returns (fired: bool, ghost current: string)
      modifies this`currentStates, this`history
      ensures old(currentStates) == {} ==> !fired
      ensures old(currentStates) != {} ==> current in old(currentStates)
      ensures !fired ==> currentStates == old(currentStates) && history == old(history)
      ensures old(currentStates) != {} ==>
                match FirstTransition(definition.transitions, current, event)
                case None => !fired
                case Some(k) =>
                  fired && currentStates == {definition.transitions[k].toState} &&
                  history == old(history) + [HistoryRecord(current, definition.transitions[k].toState, event, now, Some(context))]
    {
      if currentStates == {} {
        return false, "";
      }
      var c :| c in currentStates;
      current := c;
      var ts := definition.transitions;
      var i := 0;
      while i < |ts| && !(ts[i].fromState == c && ts[i].event == event)
        invariant 0 <= i <= |ts|
        invariant forall k :: 0 <= k < i ==> !(ts[k].fromState == c && ts[k].event == event)
      {
        i := i + 1;
      }
      if i == |ts| {
        return false, current;
      }
      assert FirstTransition(ts, c, event) == Some(i);
      var target := ts[i].toState;
      currentStates := {target};
      history := history + [HistoryRecord(c, target, event, now, Some(context))];
      fired := true;
    }

    /** `_apply_transition`: the exit action of the source, the transition's
        action, the state update and the entry action of the target, in
        that order; a handler that raises aborts the rest and the call
        reports False. A completed transition is recorded in the history. */
    method ApplyTransition(t: TransitionDef, context: Context, now: Timestamp) returns (ok: bool, effects: seq<Effect>)
      modifies this`currentStates, this`history
      ensures effects == Executed(HookCalls(definition, actionHandlers, t, context))
      ensures ok <==> AllPerformed(HookCalls(definition, actionHandlers, t, context))
      ensures AllPerformed(PreMoveCalls(definition, actionHandlers, t, context)) ==>
                currentStates == MovedStates(old(currentStates), t)
      ensures !AllPerformed(PreMoveCalls(definition, actionHandlers, t, context)) ==>
                currentStates == old(currentStates)
      ensures ok ==> history == old(history) + [HistoryRecord(t.fromState, t.toState, t.event, now, None)]
      ensures !ok ==> history == old(history)
    {
      ghost var pre := PreMoveCalls(definition, actionHandlers, t, context);
      ghost var entry := EntryCalls(definition, actionHandlers, t, context);
      ExecutedConcat(pre, entry);
      var preOk, preEffects := RunPreMoveHooks(t, context);
      if !preOk {
        return false, preEffects;
      }
      var entered, entryEffects := MoveAndEnter(t, context, now);
      ExecutedSpec(pre);
      return entered, preEffects + entryEffects;
    }

    /** The first half of `_apply_transition`: the exit action of the source
        and the transition's action. */
    method RunPreMoveHooks(t: TransitionDef, context: Context) returns (ok: bool, effects: seq<Effect>)
      ensures effects == Executed(PreMoveCalls(definition, actionHandlers, t, context))
      ensures ok <==> AllPerformed(PreMoveCalls(definition, actionHandlers, t, context))
    {
      var exitCall := HandlerCall(actionHandlers, ExitHook(definition, t.fromState), context);
      var actionCall := HandlerCall(actionHandlers, t.action, context);
      ExecutedConcat(exitCall, actionCall);
      ExecutedSpec(actionCall);
      if exitCall != [] && exitCall[0].Failed? {
        return false, exitCall;
      }
      ExecutedSpec(exitCall);
      ok := !(actionCall != [] && actionCall[0].Failed?);
      effects := exitCall + actionCall;
    }

    /** The second half of `_apply_transition`: the state update, the entry
        action of the target and, when that action does not raise, the
        history record. */
    method MoveAndEnter(t: TransitionDef, context: Context, now: Timestamp) returns (ok: bool, effects: seq<Effect>)
      modifies this`currentStates, this`history
      ensures currentStates == MovedStates(old(currentStates), t)
      ensures effects == Executed(EntryCalls(definition, actionHandlers, t, context))
      ensures ok <==> AllPerformed(EntryCalls(definition, actionHandlers, t, context))
      ensures ok ==> history == old(history) + [HistoryRecord(t.fromState, t.toState, t.event, now, None)]
      ensures !ok ==> history == old(history)
    {
      if kind == DefaultKind {
        currentStates := {};
      } else {
        currentStates := currentStates - {t.fromState};
      }
      currentStates := currentStates + {t.toState};
      effects := HandlerCall(actionHandlers, EntryHook(definition, t.toState), context);
      ExecutedSpec(effects);
      if effects != [] && effects[0].Failed? {
        return false, effects;
      }
      history := history + [HistoryRecord(t.fromState, t.toState, t.event, now, None)];
      ok := true;
    }

    /** The state set after moving along `t`: a DFA holds just the target,
        an NFA swaps the source for the target. */
    function MovedStates(states: set<string>, t: TransitionDef): set<string>
    {
      if kind == DefaultKind then {t.toState} else (states - {t.fromState}) + {t.toState}
    }

    /** `get_possible_events`, from the current state `current` that Python's
        set iteration yields first. */
    method GetPossibleEvents() returns (events: seq<string>, ghost current: string)
      ensures currentStates == {} ==> events == []
      ensures currentStates != {} ==> current in currentStates && events == PossibleEvents(definition.transitions, current)
    {
      if currentStates == {} {
        return [], "";
      }
      var c :| c in currentStates;
      current := c;
      var ts := definition.transitions;
      events := [];
      var i := 0;
      while i < |ts|
        invariant 0 <= i <= |ts|
        invariant events == PossibleEvents(ts[..i], c)
      {
        assert ts[..i + 1][..i] == ts[..i];
        if ts[i].fromState == c {
          var e := ts[i].event;
          if e != "" && e !in events {
            events := events + [e];
          }
        }
        i := i + 1;
      }
      assert ts[..i] == ts;
    }

    /** `reset`: back to the start state set, with an empty history. */
    method Reset()
      modifies this`currentStates, this`history
      ensures currentStates == InitialStates(definition)
      ensures history == []
    {
      currentStates := FindInitialStates(definition);
      history := [];
    }
  }
}
