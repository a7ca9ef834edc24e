/** Event processing over the dataclass automata
    (automata/automata_processor.py): a DFA takes the first enabled
    transition, an NFA takes every enabled one; each taken transition runs
    the exit action of its source, its own action and the entry action of
    its target, in that order. */
module AutomataProcessor {
  import opened Common
  import opened PyValues
  import opened AutomataTypes

  /** The module-level registries of condition and action callbacks. */
  class Registry {
    var conditions: map<string, Condition>
    var actions: map<string, Action>

    constructor ()
      ensures conditions == map[] && actions == map[]
    {
      conditions := map[];
      actions := map[];
    }

    method RegisterCondition(name: string, f: Condition)
      modifies this`conditions
      ensures conditions == old(conditions)[name := f]
    {
      conditions := conditions[name := f];
    }

    method RegisterAction(name: string, f: Action)
      modifies this`actions
      ensures actions == old(actions)[name := f]
    {
      actions := actions[name := f];
    }
  }

  /** A name the source reads as "nothing to do": empty, or "null"/"none" in
      any letter case. */
  predicate IsNoneName(name: string) {
    name == "" || Lower(name) == "null" || Lower(name) == "none"
  }

  /** `evaluate_condition`: no condition means the transition is enabled; an
      unknown name or a raising callback disables it; otherwise the truth
      value of what the callback returned decides. */
  function EvaluateCondition(conditions: map<string, Condition>, name: Option<string>, ctx: Context): (r: bool)
    ensures !Truthy(name) ==> r
    ensures Truthy(name) && IsNoneName(name.value) ==> r
    ensures Truthy(name) && !IsNoneName(name.value) && name.value !in conditions ==> !r
    ensures Truthy(name) && !IsNoneName(name.value) && name.value in conditions ==>
              (r <==> conditions[name.value](ctx).Returned? && IsTruthy(conditions[name.value](ctx).value))
  {
    if !Truthy(name) then true
    else if IsNoneName(name.value) then true
    else if name.value !in conditions then false
    else match conditions[name.value](ctx)
      case Raised(_) => false
      case Returned(v) => IsTruthy(v)
  }

  /** `execute_action`: at most one callback call, made only for a
      registered name that is not a "none" name; what the callback raises
      stays inside the effect it reports. */
  function ExecuteAction(actions: map<string, Action>, name: string, ctx: Context): (r: seq<Effect>)
    ensures r == [] <==> IsNoneName(name) || name !in actions
    ensures r != [] ==> r == [actions[name](ctx)]
  {
    if name == "" then []
    else if IsNoneName(name) then []
    else if name !in actions then []
    else [actions[name](ctx)]
  }

  /** The actions run for a list of recorded action names, in order. */
  function Calls(actions: map<string, Action>, names: seq<string>, ctx: Context): (r: seq<Effect>)
    ensures |r| <= |names|
    ensures |r| == |names| <==> AllRegistered(actions, names)
    ensures forall e :: e in r ==> RunFrom(actions, names, ctx, e)
  {
    if names == [] then []
    else
      var rest := Calls(actions, names[1..], ctx);
      AllRegisteredCons(actions, names);
      RunFromCons(actions, names, ctx, rest);
      ExecuteAction(actions, names[0], ctx) + rest
  }

  /** Every name is a registered name that is not a "none" name. */
  predicate AllRegistered(actions: map<string, Action>, names: seq<string>) {
    forall k :: 0 <= k < |names| ==> !IsNoneName(names[k]) && names[k] in actions
  }

  /** `e` is what the action registered under one of `names` reports. */
  predicate RunFrom(actions: map<string, Action>, names: seq<string>, ctx: Context, e: Effect) {
    exists k :: 0 <= k < |names| && names[k] in actions && e == actions[names[k]](ctx)
  }

  lemma AllRegisteredCons(actions: map<string, Action>, names: seq<string>)
    requires names != []
    ensures AllRegistered(actions, names) <==>
            !IsNoneName(names[0]) && names[0] in actions && AllRegistered(actions, names[1..])
  {
    assert forall k :: 1 <= k < |names| ==> names[k] == names[1..][k - 1];
  }

  lemma RunFromCons(actions: map<string, Action>, names: seq<string>, ctx: Context, rest: seq<Effect>)
    requires names != []
    requires forall e :: e in rest ==> RunFrom(actions, names[1..], ctx, e)
    ensures forall e :: e in ExecuteAction(actions, names[0], ctx) + rest ==> RunFrom(actions, names, ctx, e)
  {
    forall e | e in rest
      ensures RunFrom(actions, names, ctx, e)
    {
      var j :| 0 <= j < |names[1..]| && names[1..][j] in actions && e == actions[names[1..][j]](ctx);
      assert names[j + 1] == names[1..][j];
    }
  }

  /** The context a callback sees: the caller's context with the automaton
      and the transition added under "automata" and "transition". */
  function EventContext(context: Context): (ctx: Context)
    ensures forall key :: key in context && key != "automata" && key != "transition" ==> key in ctx && ctx[key] == context[key]
    ensures "automata" in ctx && "transition" in ctx
  {
    context["automata" := PyObject("automata")]["transition" := PyObject("transition")]
  }

  /** `next((s for s in states if s.id == id), None)`. */
  function StateById(states: seq<AState>, id: string): (r: Option<AState>)
    ensures r.None? <==> forall k :: 0 <= k < |states| ==> states[k].id != id
    ensures r.Some? ==> r.value.id == id &&
                        exists k :: 0 <= k < |states| && states[k] == r.value &&
                                    forall j :: 0 <= j < k ==> states[j].id != id
  {
    if states == [] then None
    else if states[0].id == id then Some(states[0])
    else
      var r := StateById(states[1..], id);
      if r.Some? then
        var k :| 0 <= k < |states[1..]| && states[1..][k] == r.value &&
                 forall j :: 0 <= j < k ==> states[1..][j].id != id;
        assert states[k + 1] == r.value;
        assert forall j :: 0 < j < k + 1 ==> states[j] == states[1..][j - 1];
        r
      else
        assert forall k :: 0 < k < |states| ==> states[k] == states[1..][k - 1];
        r
  }

  /** A truthy optional name as a zero- or one-element list. */
  function NameList(o: Option<string>): (r: seq<string>)
    ensures |r| <= 1
    ensures r != [] <==> Truthy(o)
    ensures r != [] ==> r[0] == o.value
  {
    if Truthy(o) then [o.value] else []
  }

  function ExitAction(states: seq<AState>, id: string): Option<string> {
    match StateById(states, id)
    case None => None
    case Some(s) => s.onExitAction
  }

  function EntryAction(states: seq<AState>, id: string): Option<string> {
    match StateById(states, id)
    case None => None
    case Some(s) => s.onEntryAction
  }

  /** The action names recorded for taking `t` out of `from`: the exit
      action of `from`, the transition's action and the entry action of the
      target, each only where it is set. A name is recorded whether or not a
      callback is registered for it. */
  function HookNames(states: seq<AState>, t: Transition, from: string): (r: seq<string>)
    ensures |r| <= 3
    ensures forall n :: n in r ==> n != ""
    ensures Truthy(t.action) ==> t.action.value in r
  {
    NameList(ExitAction(states, from)) + NameList(t.action) + NameList(EntryAction(states, t.toState))
  }

  /** A DFA transition leaves the current state on the event. */
  predicate LeavesFrom(t: Transition, current: Option<string>, event: string) {
    current == Some(t.fromState) && t.event == event
  }

  /** A DFA transition that leaves the current state on the event and whose
      condition holds. */
  predicate Takes(t: Transition, current: Option<string>, event: string,
                  conds: map<string, Condition>, ctx: Context) {
    LeavesFrom(t, current, event) && EvaluateCondition(conds, t.condition, ctx)
  }

  predicate HasTransition(ts: seq<Transition>, current: Option<string>, event: string) {
    exists k :: 0 <= k < |ts| && LeavesFrom(ts[k], current, event)
  }

  /** The first transition in list order leaving `current` on `event` whose
      condition holds. */
  function FirstEnabled(ts: seq<Transition>, current: Option<string>, event: string,
                        conds: map<string, Condition>, ctx: Context): (r: Option<nat>)
    ensures r.Some? ==> r.value < |ts| && Takes(ts[r.value], current, event, conds, ctx)
    ensures r.Some? ==> forall k :: 0 <= k < r.value ==> !Takes(ts[k], current, event, conds, ctx)
    ensures r.None? <==> forall k :: 0 <= k < |ts| ==> !Takes(ts[k], current, event, conds, ctx)
  {
    if ts == [] then None
    else if Takes(ts[0], current, event, conds, ctx) then Some(0)
    else
      var r := FirstEnabled(ts[1..], current, event, conds, ctx);
      assert forall k :: 0 < k < |ts| ==> ts[k] == ts[1..][k - 1];
      match r
      case None => None
      case Some(i) => Some(i + 1)
  }

  datatype DfaStep = DfaStep(result: EventResult, state: Option<string>, effects: seq<Effect>)

  /** One DFA event (see `DfaEventSpec`). */
  function DfaEvent(states: seq<AState>, ts: seq<Transition>, current: Option<string>, event: string,
                    context: Context, conds: map<string, Condition>, actions: map<string, Action>): (r: DfaStep)
    ensures r.result.oldState == One(current)
  {
    var ctx := EventContext(context);
    if !HasTransition(ts, current, event) then
      DfaStep(EventResult(false, One(current), One(current), NoTransition(event), []), current, [])
    else match FirstEnabled(ts, current, event, conds, ctx)
      case None =>
        DfaStep(EventResult(false, One(current), One(current), NoEnabledTransition(event), []), current, [])
      case Some(k) =>
        var t := ts[k];
        var names := HookNames(states, t, t.fromState);
        var after := One(Some(t.toState));
        DfaStep(EventResult(true, One(current), after, Moved(One(current), after), names),
                Some(t.toState), Calls(actions, names, ctx))
  }

  /** A DFA event succeeds exactly when some transition leaving the current
      state on the event is enabled; the first such transition in list
      order is taken, its recorded action names are the exit, transition
      and entry names, and only those actions run. Otherwise the state is
      kept and nothing runs. */
  lemma DfaEventSpec(states: seq<AState>, ts: seq<Transition>, current: Option<string>, event: string,
                     context: Context, conds: map<string, Condition>, actions: map<string, Action>)
    ensures var r := DfaEvent(states, ts, current, event, context, conds, actions);
            var ctx := EventContext(context);
            && (!HasTransition(ts, current, event) ==>
                  r.result == EventResult(false, One(current), One(current), NoTransition(event), []))
            && (r.result.success <==> exists k :: 0 <= k < |ts| && Takes(ts[k], current, event, conds, ctx))
            && (r.result.success ==>
                  exists k :: 0 <= k < |ts| && Takes(ts[k], current, event, conds, ctx) &&
                              (forall j :: 0 <= j < k ==> !Takes(ts[j], current, event, conds, ctx)) &&
                              r.state == Some(ts[k].toState) && r.result.newState == One(r.state) &&
                              r.result.executedActions == HookNames(states, ts[k], ts[k].fromState) &&
                              r.effects == Calls(actions, r.result.executedActions, ctx))
            && (!r.result.success ==>
                  r.state == current && r.effects == [] && r.result.executedActions == [] &&
                  r.result.newState == r.result.oldState)
  {
    var ctx := EventContext(context);
    var f := FirstEnabled(ts, current, event, conds, ctx);
    if f.Some? {
      var k := f.value;
      DfaEventTaken(states, ts, current, event, context, conds, actions, k);
      assert LeavesFrom(ts[k], current, event);
    } else {
      DfaEventRefused(states, ts, current, event, context, conds, actions);
    }
  }

  /** The DFA event when transition `i` is the first enabled one. */
  lemma DfaEventTaken(states: seq<AState>, ts: seq<Transition>, current: Option<string>, event: string,
                      context: Context, conds: map<string, Condition>, actions: map<string, Action>, i: nat)
    requires i < |ts| && Takes(ts[i], current, event, conds, EventContext(context))
    requires forall k :: 0 <= k < i ==> !Takes(ts[k], current, event, conds, EventContext(context))
    ensures var names := HookNames(states, ts[i], ts[i].fromState);
            var after := One(Some(ts[i].toState));
            DfaEvent(states, ts, current, event, context, conds, actions) ==
            DfaStep(EventResult(true, One(current), after, Moved(One(current), after), names),
                    Some(ts[i].toState), Calls(actions, names, EventContext(context)))
  {
    var f := FirstEnabled(ts, current, event, conds, EventContext(context));
    assert f == Some(i);
    assert LeavesFrom(ts[i], current, event);
  }

  /** The DFA event when no transition is enabled. */
  lemma DfaEventRefused(states: seq<AState>, ts: seq<Transition>, current: Option<string>, event: string,
                        context: Context, conds: map<string, Condition>, actions: map<string, Action>)
    requires forall k :: 0 <= k < |ts| ==> !Takes(ts[k], current, event, conds, EventContext(context))
    ensures var reason := if HasTransition(ts, current, event) then NoEnabledTransition(event) else NoTransition(event);
            DfaEvent(states, ts, current, event, context, conds, actions) ==
            DfaStep(EventResult(false, One(current), One(current), reason, []), current, [])
  {
  }

  /** `_process_dfa_event`. */
  method ProcessDfaEvent(a: Automata, event: string, context: Context, reg: Registry)
    returns (r: EventResult, effects: seq<Effect>)
    modifies a`currentState
    ensures DfaStep(r, a.currentState, effects) ==
            DfaEvent(a.states, a.transitions, old(a.currentState), event, context, reg.conditions, reg.actions)
  {
    var before := a.currentState;
    var ts := a.transitions;
    var states := a.states;
    var ctx := EventContext(context);
    var anyValid := false;
    var i := 0;
    while i < |ts|
      invariant 0 <= i <= |ts|
      invariant a.currentState == before
      invariant anyValid ==> HasTransition(ts, before, event)
      invariant !anyValid ==> forall k :: 0 <= k < i ==> !LeavesFrom(ts[k], before, event)
      invariant forall k :: 0 <= k < i ==> !Takes(ts[k], before, event, reg.conditions, ctx)
    {
      var t := ts[i];
      if LeavesFrom(t, before, event) {
        anyValid := true;
        if EvaluateCondition(reg.conditions, t.condition, ctx) {
          DfaEventTaken(states, ts, before, event, context, reg.conditions, reg.actions, i);
          var names := HookNames(states, t, t.fromState);
          effects := Calls(reg.actions, names, ctx);
          a.currentState := Some(t.toState);
          r := EventResult(true, One(before), One(a.currentState), Moved(One(before), One(a.currentState)), names);
          assert DfaStep(r, a.currentState, effects) ==
                 DfaEvent(states, ts, before, event, context, reg.conditions, reg.actions);
          return;
        }
      }
      i := i + 1;
    }
    DfaEventRefused(states, ts, before, event, context, reg.conditions, reg.actions);
    assert anyValid <==> HasTransition(ts, before, event);
    effects := [];
    if !anyValid {
      r := EventResult(false, One(before), One(before), NoTransition(event), []);
    } else {
      r := EventResult(false, One(before), One(before), NoEnabledTransition(event), []);
    }
  }

  /** An NFA transition leaves one of the current states on the event. */
  predicate LeavesAny(t: Transition, current: set<string>, event: string) {
    t.fromState in current && t.event == event
  }

  /** An NFA transition that leaves a current state on the event and whose
      condition holds. */
  predicate TakesAny(t: Transition, current: set<string>, event: string,
                     conds: map<string, Condition>, ctx: Context) {
    LeavesAny(t, current, event) && EvaluateCondition(conds, t.condition, ctx)
  }

  /** What scanning the transitions has gathered so far: whether any left a
      current state on the event, the targets of the enabled ones, and the
      action names and effects of those taken. */
  datatype NfaScan = NfaScan(valid: bool, targets: set<string>, names: seq<string>, effects: seq<Effect>)

  /** What scanning one more transition `t` adds to `acc`. */
  function ScanStep(states: seq<AState>, acc: NfaScan, t: Transition, current: set<string>, event: string,
                    conds: map<string, Condition>, actions: map<string, Action>, ctx: Context): NfaScan
  {
    if !LeavesAny(t, current, event) then acc
    else if !EvaluateCondition(conds, t.condition, ctx) then acc.(valid := true)
    else
      var names := HookNames(states, t, t.fromState);
      NfaScan(true, acc.targets + {t.toState}, acc.names + names, acc.effects + Calls(actions, names, ctx))
  }

  function NfaRun(states: seq<AState>, ts: seq<Transition>, current: set<string>, event: string,
                  conds: map<string, Condition>, actions: map<string, Action>, ctx: Context): (r: NfaScan)
    ensures ts == [] ==> r == NfaScan(false, {}, [], [])
    decreases |ts|
  {
    if ts == [] then NfaScan(false, {}, [], [])
    else
      ScanStep(states, NfaRun(states, ts[..|ts| - 1], current, event, conds, actions, ctx), ts[|ts| - 1],
               current, event, conds, actions, ctx)
  }

  /** Scanning the first `i + 1` transitions is scanning the first `i` and
      then transition `i`. */
  lemma NfaRunPrefix(states: seq<AState>, ts: seq<Transition>, current: set<string>, event: string,
                     conds: map<string, Condition>, actions: map<string, Action>, ctx: Context, i: nat)
    requires i < |ts|
    ensures NfaRun(states, ts[..i + 1], current, event, conds, actions, ctx) ==
            ScanStep(states, NfaRun(states, ts[..i], current, event, conds, actions, ctx), ts[i],
                     current, event, conds, actions, ctx)
  {
    assert ts[..i + 1][..i] == ts[..i];
  }

  /** The scan finds a transition exactly when one leaves a current state on
      the event. */
  lemma {:induction false} NfaRunValid(states: seq<AState>, ts: seq<Transition>, current: set<string>, event: string,
                                       conds: map<string, Condition>, actions: map<string, Action>, ctx: Context)
    ensures NfaRun(states, ts, current, event, conds, actions, ctx).valid <==>
            exists k :: 0 <= k < |ts| && LeavesAny(ts[k], current, event)
    decreases |ts|
  {
    if ts != [] {
      var prefix := ts[..|ts| - 1];
      NfaRunValid(states, prefix, current, event, conds, actions, ctx);
      assert forall k :: 0 <= k < |prefix| ==> prefix[k] == ts[k];
    }
  }

  /** One step of the scan: only an enabled last transition adds a target,
      names or effects. */
  lemma NfaRunLast(states: seq<AState>, ts: seq<Transition>, current: set<string>, event: string,
                   conds: map<string, Condition>, actions: map<string, Action>, ctx: Context)
    requires ts != []
    ensures var r := NfaRun(states, ts, current, event, conds, actions, ctx);
            var acc := NfaRun(states, ts[..|ts| - 1], current, event, conds, actions, ctx);
            var t := ts[|ts| - 1];
            && r.targets == (if TakesAny(t, current, event, conds, ctx) then acc.targets + {t.toState} else acc.targets)
            && (!TakesAny(t, current, event, conds, ctx) ==> r.names == acc.names && r.effects == acc.effects)
  {
  }

  /** A state is gathered exactly when it is the target of an enabled
      transition. */
  lemma {:induction false} NfaRunTargetSet(states: seq<AState>, ts: seq<Transition>, current: set<string>, event: string,
                                           conds: map<string, Condition>, actions: map<string, Action>, ctx: Context)
    ensures forall x :: x in NfaRun(states, ts, current, event, conds, actions, ctx).targets <==>
              exists k :: 0 <= k < |ts| && TakesAny(ts[k], current, event, conds, ctx) && ts[k].toState == x
    decreases |ts|
  {
    if ts != [] {
      var prefix := ts[..|ts| - 1];
      var t := ts[|ts| - 1];
      var r := NfaRun(states, ts, current, event, conds, actions, ctx);
      var acc := NfaRun(states, prefix, current, event, conds, actions, ctx);
      NfaRunTargetSet(states, prefix, current, event, conds, actions, ctx);
      NfaRunLast(states, ts, current, event, conds, actions, ctx);
      forall x
        ensures x in r.targets <==>
                exists k :: 0 <= k < |ts| && TakesAny(ts[k], current, event, conds, ctx) && ts[k].toState == x
      {
        if x in r.targets {
          if x in acc.targets {
            var k :| 0 <= k < |prefix| && TakesAny(prefix[k], current, event, conds, ctx) && prefix[k].toState == x;
            assert ts[k] == prefix[k];
          } else {
            assert TakesAny(ts[|ts| - 1], current, event, conds, ctx) && ts[|ts| - 1].toState == x;
          }
        }
        if exists k :: 0 <= k < |ts| && TakesAny(ts[k], current, event, conds, ctx) && ts[k].toState == x {
          var k :| 0 <= k < |ts| && TakesAny(ts[k], current, event, conds, ctx) && ts[k].toState == x;
          if k < |prefix| {
            assert prefix[k] == ts[k];
            assert x in acc.targets;
          }
        }
      }
    }
  }

  /** With no enabled transition, nothing is gathered, recorded or run. */
  lemma {:induction false} NfaRunNothingTaken(states: seq<AState>, ts: seq<Transition>, current: set<string>, event: string,
                                              conds: map<string, Condition>, actions: map<string, Action>, ctx: Context)
    requires forall k :: 0 <= k < |ts| ==> !TakesAny(ts[k], current, event, conds, ctx)
    ensures var r := NfaRun(states, ts, current, event, conds, actions, ctx);
            r.targets == {} && r.names == [] && r.effects == []
    decreases |ts|
  {
    if ts != [] {
      var prefix := ts[..|ts| - 1];
      assert forall k :: 0 <= k < |prefix| ==> prefix[k] == ts[k];
      NfaRunNothingTaken(states, prefix, current, event, conds, actions, ctx);
      NfaRunLast(states, ts, current, event, conds, actions, ctx);
    }
  }

  /** The gathered targets are exactly the targets of the enabled
      transitions, and with none of them nothing was recorded or run. */
  lemma NfaRunTargets(states: seq<AState>, ts: seq<Transition>, current: set<string>, event: string,
                      conds: map<string, Condition>, actions: map<string, Action>, ctx: Context)
    ensures var r := NfaRun(states, ts, current, event, conds, actions, ctx);
            && (forall x :: x in r.targets <==>
                  exists k :: 0 <= k < |ts| && TakesAny(ts[k], current, event, conds, ctx) && ts[k].toState == x)
            && (r.targets == {} <==> forall k :: 0 <= k < |ts| ==> !TakesAny(ts[k], current, event, conds, ctx))
            && (r.targets == {} ==> r.names == [] && r.effects == [])
  {
    var r := NfaRun(states, ts, current, event, conds, actions, ctx);
    NfaRunTargetSet(states, ts, current, event, conds, actions, ctx);
    if forall k :: 0 <= k < |ts| ==> !TakesAny(ts[k], current, event, conds, ctx) {
      NfaRunNothingTaken(states, ts, current, event, conds, actions, ctx);
    } else {
      var k :| 0 <= k < |ts| && TakesAny(ts[k], current, event, conds, ctx);
      assert ts[k].toState in r.targets;
    }
  }

  datatype NfaStep = NfaStep(result: EventResult, states: set<string>, effects: seq<Effect>)

  /** One NFA event (see `NfaEventSpec`). */
  function NfaEvent(states: seq<AState>, ts: seq<Transition>, current: set<string>, event: string,
                    context: Context, conds: map<string, Condition>, actions: map<string, Action>): (r: NfaStep)
    ensures r.result.oldState == Many(current)
  {
    var scan := NfaRun(states, ts, current, event, conds, actions, EventContext(context));
    if !scan.valid then
      NfaStep(EventResult(false, Many(current), Many(current), NoTransition(event), []), current, [])
    else if scan.targets == {} then
      NfaStep(EventResult(false, Many(current), Many(current), NoEnabledTransition(event), []), current, [])
    else
      NfaStep(EventResult(true, Many(current), Many(scan.targets), Moved(Many(current), Many(scan.targets)), scan.names),
              scan.targets, scan.effects)
  }

  /** An NFA event succeeds exactly when some transition is enabled; the new
      state set is then exactly the set of targets of the enabled
      transitions, so a current state that no enabled transition reaches is
      dropped. With nothing enabled the state set is kept and nothing runs. */
  lemma NfaEventSpec(states: seq<AState>, ts: seq<Transition>, current: set<string>, event: string,
                     context: Context, conds: map<string, Condition>, actions: map<string, Action>)
    ensures var r := NfaEvent(states, ts, current, event, context, conds, actions);
            var ctx := EventContext(context);
            && (r.result.success <==> exists k :: 0 <= k < |ts| && TakesAny(ts[k], current, event, conds, ctx))
            && (r.result.success ==>
                  r.result.newState == Many(r.states) &&
                  forall x :: x in r.states <==>
                    exists k :: 0 <= k < |ts| && TakesAny(ts[k], current, event, conds, ctx) && ts[k].toState == x)
            && (!r.result.success ==>
                  r.states == current && r.effects == [] && r.result.executedActions == [] &&
                  r.result.newState == r.result.oldState)
            && ((forall k :: 0 <= k < |ts| ==> !LeavesAny(ts[k], current, event)) ==>
                  r.result.message == NoTransition(event))
  {
    var ctx := EventContext(context);
    NfaRunValid(states, ts, current, event, conds, actions, ctx);
    NfaRunTargets(states, ts, current, event, conds, actions, ctx);
  }

  /** `_process_nfa_event`. `current_state` becomes one element of the new
      state set; which one Python's set iteration yields is not modelled. */
  method ProcessNfaEvent(a: Automata, event: string, context: Context, reg: Registry)
    returns (r: EventResult, effects: seq<Effect>)
    modifies a`currentState, a`currentStates
    ensures var s := NfaEvent(a.states, a.transitions, old(a.currentStates), event, context, reg.conditions, reg.actions);
            r == s.result && effects == s.effects && a.currentStates == s.states
    ensures r.success ==> a.currentState.Some? && a.currentState.value in a.currentStates
    ensures !r.success ==> a.currentState == old(a.currentState)
  {
    var before := a.currentStates;
    var ts := a.transitions;
    var states := a.states;
    var ctx := EventContext(context);
    var valid := false;
    var newStates: set<string> := {};
    var executed: seq<string> := [];
    effects := [];
    var i := 0;
    while i < |ts|
      invariant 0 <= i <= |ts|
      invariant a.currentStates == before && a.currentState == old(a.currentState)
      invariant NfaScan(valid, newStates, executed, effects) ==
                NfaRun(states, ts[..i], before, event, reg.conditions, reg.actions, ctx)
    {
      var t := ts[i];
      NfaRunPrefix(states, ts, before, event, reg.conditions, reg.actions, ctx, i);
      if LeavesAny(t, before, event) {
        valid := true;
        if EvaluateCondition(reg.conditions, t.condition, ctx) {
          var names := HookNames(states, t, t.fromState);
          effects := effects + Calls(reg.actions, names, ctx);
          executed := executed + names;
          newStates := newStates + {t.toState};
        }
      }
      i := i + 1;
    }
    assert ts[..i] == ts;
    if !valid {
      NfaRunValid(states, ts, before, event, reg.conditions, reg.actions, ctx);
      NfaRunTargets(states, ts, before, event, reg.conditions, reg.actions, ctx);
      r := EventResult(false, Many(before), Many(before), NoTransition(event), []);
    } else if newStates == {} {
      NfaRunTargets(states, ts, before, event, reg.conditions, reg.actions, ctx);
      r := EventResult(false, Many(before), Many(before), NoEnabledTransition(event), []);
    } else {
      a.currentStates := newStates;
      var pick :| pick in newStates;
      a.currentState := Some(pick);
      r := EventResult(true, Many(before), Many(newStates), Moved(Many(before), Many(newStates)), executed);
    }
  }

  /** `get_current_state`. */
  function CurrentSnapshot(a: Automata): (s: Snapshot)
    reads a
    ensures a.kind == Dfa ==> s == One(a.currentState)
    ensures a.kind == Nfa ==> s == Many(a.currentStates)
  {
    if a.kind == Dfa then One(a.currentState) else Many(a.currentStates)
  }

  /** `process_event`: an event outside the alphabet fails without touching
      the automaton; otherwise the DFA or NFA step runs. */
  method ProcessEvent(a: Automata, event: string, context: Context, reg: Registry)
    returns (r: EventResult, effects: seq<Effect>)
    modifies a`currentState, a`currentStates
    ensures event !in a.alphabet ==>
              r == EventResult(false, CurrentSnapshot(a), CurrentSnapshot(a), InvalidEvent(event), []) &&
              effects == [] &&
              a.currentState == old(a.currentState) && a.currentStates == old(a.currentStates)
    ensures event in a.alphabet && a.kind == Dfa ==>
              DfaStep(r, a.currentState, effects) ==
              DfaEvent(a.states, a.transitions, old(a.currentState), event, context, reg.conditions, reg.actions) &&
              a.currentStates == old(a.currentStates)
    ensures event in a.alphabet && a.kind == Nfa ==>
              var s := NfaEvent(a.states, a.transitions, old(a.currentStates), event, context, reg.conditions, reg.actions);
              r == s.result && effects == s.effects && a.currentStates == s.states
  {
    if event !in a.alphabet {
      r := EventResult(false, CurrentSnapshot(a), CurrentSnapshot(a), InvalidEvent(event), []);
      effects := [];
      return;
    }
    if a.kind == Dfa {
      r, effects := ProcessDfaEvent(a, event, context, reg);
    } else {
      r, effects := ProcessNfaEvent(a, event, context, reg);
    }
  }

  /** `reset_automata`: the first initial state becomes current (and the
      whole state set of an NFA); with no initial state, or one whose id is
      empty, nothing changes. */
  method ResetAutomata(a: Automata)
    modifies a`currentState, a`currentStates
    ensures Truthy(FirstInitial(a.states)) ==>
              a.currentState == FirstInitial(a.states) &&
              a.currentStates == (if a.kind == Nfa then {a.currentState.value} else old(a.currentStates))
    ensures !Truthy(FirstInitial(a.states)) ==>
              a.currentState == old(a.currentState) && a.currentStates == old(a.currentStates)
  {
    var initial := FirstInitial(a.states);
    if Truthy(initial) {
      a.currentState := initial;
      if a.kind == Nfa {
        a.currentStates := {initial.value};
      }
    }
  }

  /** An NFA that holds one state and has exactly one enabled transition
      moves exactly where the DFA step moves from that state, recording the
      same action names. */
  lemma NfaAgreesWithDfa(states: seq<AState>, ts: seq<Transition>, s: string, event: string,
                         context: Context, conds: map<string, Condition>, actions: map<string, Action>, k: nat)
    requires k < |ts| && Takes(ts[k], Some(s), event, conds, EventContext(context))
    requires forall j :: 0 <= j < |ts| && j != k ==> !Takes(ts[j], Some(s), event, conds, EventContext(context))
    ensures DfaEvent(states, ts, Some(s), event, context, conds, actions).state == Some(ts[k].toState)
    ensures NfaEvent(states, ts, {s}, event, context, conds, actions).states == {ts[k].toState}
    ensures NfaEvent(states, ts, {s}, event, context, conds, actions).result.executedActions ==
            DfaEvent(states, ts, Some(s), event, context, conds, actions).result.executedActions
  {
    var ctx := EventContext(context);
    assert forall j :: 0 <= j < |ts| ==> (TakesAny(ts[j], {s}, event, conds, ctx) <==> Takes(ts[j], Some(s), event, conds, ctx));
    assert LeavesFrom(ts[k], Some(s), event);
    assert FirstEnabled(ts, Some(s), event, conds, ctx) == Some(k);
    NfaRunValid(states, ts, {s}, event, conds, actions, ctx);
    NfaRunTargets(states, ts, {s}, event, conds, actions, ctx);
    var n := NfaRun(states, ts, {s}, event, conds, actions, ctx);
    assert ts[k].toState in n.targets;
    assert n.targets == {ts[k].toState};
    NfaRunSingle(states, ts, s, event, conds, actions, ctx, k);
  }

  /** With one current state, the NFA and DFA tests for taking a transition
      agree. */
  lemma TakesOne(t: Transition, s: string, event: string, conds: map<string, Condition>, ctx: Context)
    ensures TakesAny(t, {s}, event, conds, ctx) <==> Takes(t, Some(s), event, conds, ctx)
  {
  }

  /** With a single enabled transition, the NFA scan records exactly its
      action names. */
  lemma {:induction false} NfaRunSingle(states: seq<AState>, ts: seq<Transition>, s: string, event: string,
                                        conds: map<string, Condition>, actions: map<string, Action>, ctx: Context, k: nat)
    requires k < |ts| && Takes(ts[k], Some(s), event, conds, ctx)
    requires forall j :: 0 <= j < |ts| && j != k ==> !Takes(ts[j], Some(s), event, conds, ctx)
    ensures NfaRun(states, ts, {s}, event, conds, actions, ctx).names == HookNames(states, ts[k], ts[k].fromState)
    decreases |ts|
  {
    var prefix := ts[..|ts| - 1];
    var last := ts[|ts| - 1];
    NfaRunLast(states, ts, {s}, event, conds, actions, ctx);
    TakesOne(last, s, event, conds, ctx);
    if k == |ts| - 1 {
      NfaRunSingleLast(states, ts, s, event, conds, actions, ctx);
    } else {
      forall j | 0 <= j < |prefix| && j != k
        ensures !Takes(prefix[j], Some(s), event, conds, ctx)
      {
        assert prefix[j] == ts[j];
      }
      assert prefix[k] == ts[k];
      NfaRunSingle(states, prefix, s, event, conds, actions, ctx, k);
    }
  }

  /** `NfaRunSingle` when the enabled transition is the last one. */
  lemma NfaRunSingleLast(states: seq<AState>, ts: seq<Transition>, s: string, event: string,
                         conds: map<string, Condition>, actions: map<string, Action>, ctx: Context)
    requires ts != [] && Takes(ts[|ts| - 1], Some(s), event, conds, ctx)
    requires forall j :: 0 <= j < |ts| - 1 ==> !Takes(ts[j], Some(s), event, conds, ctx)
    ensures NfaRun(states, ts, {s}, event, conds, actions, ctx).names == HookNames(states, ts[|ts| - 1], ts[|ts| - 1].fromState)
  {
    var prefix := ts[..|ts| - 1];
    forall j | 0 <= j < |prefix|
      ensures !TakesAny(prefix[j], {s}, event, conds, ctx)
    {
      assert prefix[j] == ts[j];
      TakesOne(ts[j], s, event, conds, ctx);
    }
    NfaRunNothingTaken(states, prefix, {s}, event, conds, actions, ctx);
    TakesOne(ts[|ts| - 1], s, event, conds, ctx);
  }
}
