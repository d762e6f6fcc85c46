/**
 * The step specifications of the machine (src/state-machine.js): what one
 * `start`, `transition`, `_setState` or `_handleError` does to the machine's
 * mutable part, what it returns or raises, and which user callbacks it calls
 * with which arguments. Both classes are proved against these functions.
 */
module Engine {
  import opened Wrappers
  import opened Types

  /** The mutable part of a machine: `_state`, `_lastTransition`, `_context`. */
  datatype Core = Core(state: Option<string>, lastTransition: Option<string>, context: Ctx)
  {
    /** `getState()`. */
    function GetState(): Snapshot { Snapshot(state, lastTransition, context) }
  }

  /** The registered callbacks: per-state observers, the default observer, the error handler. */
  datatype Hooks = Hooks(
    stateHandlers: map<string, Option<StateObserver>>,
    defaultHandler: Option<DefaultObserver>,
    errorHandler: Option<ErrorHandler>)

  /** What a step reads but does not change: the configuration, `options.throws`, the callbacks. */
  datatype Env = Env(config: Config, throws: bool, hooks: Hooks)

  /** The result of a step: the new mutable part, the outcome, and the user calls made, in order. */
  datatype Step = Step(core: Core, outcome: Outcome, calls: seq<Call>)

  /** A transition value is truthy unless it is the empty state name. */
  predicate Truthy(v: TVal) { v.Proc? || v.state != "" }

  /** `states[state]`, for a state the machine holds. */
  function EntryOf(config: Config, state: Option<string>): (entry: Option<Entry>)
  {
    if state.None? then None else Lookup(config.states, state.value)
  }

  /**
   * `_getTransition`: the value under `name` in the current state's entry,
   * if that entry is a transition object and the value is truthy.
   */
  function Resolve(config: Config, state: Option<string>, name: string): (r: Option<TVal>)
    ensures r.Some? ==> Truthy(r.value)
    ensures r.Some? ==> EntryOf(config, state).Some? && EntryOf(config, state).value.Transitions?
    ensures r.Some? ==>
      var table := EntryOf(config, state).value.table;
      exists j :: 0 <= j < |table| && table[j].0 == name && table[j].1 == r.value
    ensures state.None? ==> r.None?
    ensures EntryOf(config, state).Some? && !EntryOf(config, state).value.Transitions? ==> r.None?
    ensures EntryOf(config, state).Some? && EntryOf(config, state).value.Transitions? ==>
      var v := Lookup(EntryOf(config, state).value.table, name);
      v.Some? && Truthy(v.value) ==> r.Some?
  {
    match EntryOf(config, state)
    case Some(Transitions(table)) =>
      var v := Lookup(table, name);
      if v.Some? && Truthy(v.value) then v else None
    case _ => None
  }

  /**
   * The candidate next state of a resolved transition: a literal is used as
   * it is; a procedure is called with the context and the parameters.
   */
  function Evaluate(v: TVal, ctx: Ctx, params: Params): (r: ProcReply)
    ensures v.Literal? ==> r == Returns(ctx, v.state)
  {
    match v
    case Literal(s) => Returns(ctx, s)
    case Proc(run) => run(ctx, params)
  }

  /** The record `_handleError` builds from the kind-specific fields and the machine. */
  function MakeRecord(kind: ErrorKind, m: Core): (rec: ErrorRecord)
    ensures rec.kind == kind && rec.currentState == m.state && rec.context == m.context
    ensures rec.lastTransition.Some? <==> m.lastTransition.Some? && m.lastTransition.value != ""
    ensures rec.lastTransition.Some? ==> rec.lastTransition == m.lastTransition
  {
    ErrorRecord(kind, m.state, if m.lastTransition.Some? && m.lastTransition.value != "" then m.lastTransition else None, m.context)
  }

  /**
   * `_handleError`: raise the record when `throws` is set; otherwise hand it
   * to the error handler, if one is registered, and return it.
   */
  function HandleErrorSpec(env: Env, m: Core, kind: ErrorKind): (r: Step)
    ensures r.core == m
    ensures r.outcome.Reports(kind) && r.outcome.record == MakeRecord(kind, m)
    ensures r.outcome.Thrown? <==> env.throws
    ensures env.throws ==> r.calls == []
    ensures !env.throws ==> (r.calls != [] <==> env.hooks.errorHandler.Some?)
    ensures r.calls != [] ==> r.calls == [ErrorHandled(MakeRecord(kind, m), m.context)]
  {
    var rec := MakeRecord(kind, m);
    if env.throws then Step(m, Thrown(rec), [])
    else if env.hooks.errorHandler.Some? then Step(m, ReturnedErr(rec), [ErrorHandled(rec, m.context)])
    else Step(m, ReturnedErr(rec), [])
  }

  /** A state-specific observer is registered for `s` (and is a function). */
  predicate HasStateObserver(hooks: Hooks, s: string)
  {
    s in hooks.stateHandlers && hooks.stateHandlers[s].Some?
  }

  /** The status record `_setState` hands to observers when it leaves `m`. */
  function StatusOf(m: Core): (status: Status)
  {
    Status(m.lastTransition, m.state, m.context)
  }

  /** The end of `_setState` after an observer ran: its fault propagates, or the snapshot is returned. */
  function Notify(m: Core, reply: ObsReply, call: Call): (r: Step)
  {
    var done := m.(context := reply.Ctx());
    Step(done, if reply.Fails? then Raised(reply.fault) else Returned(done.GetState()), [call])
  }

  /**
   * `_setState`: a candidate outside `validStates` is an INVALID_STATE error
   * and leaves the machine as it is. Otherwise the state becomes the
   * candidate and exactly one observer is notified: the state's own, else
   * the default one, else none. An observer's fault is not caught here.
   */
  function SetStateSpec(env: Env, m: Core, candidate: string): (r: Step)
    ensures r.core.lastTransition == m.lastTransition
    ensures r.outcome.Returned? ==> r.outcome.snapshot == r.core.GetState()
  {
    if candidate !in ValidStates(env.config) then
      HandleErrorSpec(env, m, InvalidState(candidate))
    else
      var status := StatusOf(m);
      var entered := m.(state := Some(candidate));
      if HasStateObserver(env.hooks, candidate) then
        Notify(entered, env.hooks.stateHandlers[candidate].value(status), StateObserved(candidate, status))
      else if env.hooks.defaultHandler.Some? then
        Notify(entered, env.hooks.defaultHandler.value(candidate, status), DefaultObserved(candidate, status))
      else
        Step(entered, Returned(entered.GetState()), [])
  }

  /**
   * `start(ctx)`: the context becomes `ctx`, the last transition is cleared
   * and `config.initial` is entered through `_setState`, with no try block
   * around it.
   */
  function StartSpec(env: Env, m: Core, ctx: Ctx): (r: Step)
    ensures r.core.lastTransition == None
    ensures r.outcome.Returned? ==> r.outcome.snapshot == r.core.GetState()
  {
    SetStateSpec(env, Core(m.state, None, ctx), env.config.initial)
  }

  /** What the `catch` of `transition` receives from the rest of its `try` block, if anything. */
  function Caught(o: Outcome): (fault: Option<Fault>)
  {
    match o
    case Thrown(rec) => Some(Raise(rec))
    case Raised(fault) => Some(fault)
    case _ => None
  }

  /**
   * The rest of the `try` block of `transition` once the candidate is known
   * (`m` already records the transition), and its `catch`: whatever
   * `_setState` raises becomes a MACHINE_ERROR tagged with `name`.
   */
  function ApplySpec(env: Env, m: Core, name: string, candidate: string): (r: Step)
    ensures !r.outcome.Raised?
    ensures r.core.lastTransition == m.lastTransition
  {
    var s := SetStateSpec(env, m, candidate);
    match Caught(s.outcome)
    case None => s
    case Some(fault) =>
      var h := HandleErrorSpec(env, s.core, MachineError(ToString(fault), name));
      Step(h.core, h.outcome, s.calls + h.calls)
  }

  /**
   * `transition(name, params)`: an unresolved name is an INVALID_TRANSITION
   * error. Otherwise the candidate is computed; a procedure that raises is a
   * MACHINE_ERROR and the state and last transition stay as they were (the
   * context keeps what the procedure did to it). Otherwise `name` becomes the
   * last transition and the candidate is applied as `ApplySpec` says.
   */
  function TransitionSpec(env: Env, m: Core, name: string, params: Params): (r: Step)
    ensures !r.outcome.Raised?
  {
    match Resolve(env.config, m.state, name)
    case None => HandleErrorSpec(env, m, InvalidTransition(name))
    case Some(v) =>
      var r := match Evaluate(v, m.context, params)
        case Raises(ctx, fault) => HandleErrorSpec(env, m.(context := ctx), MachineError(ToString(fault), name))
        case Returns(ctx, next) => ApplySpec(env, m.(context := ctx, lastTransition := Some(name)), name, next);
      Prefix(v, name, m.context, params, r)
  }

  /** A step preceded by the call of the transition's procedure, when it has one. */
  function Prefix(v: TVal, name: string, ctx: Ctx, params: Params, r: Step): (prefixed: Step)
  {
    if v.Proc? then Step(r.core, r.outcome, [Procedure(name, ctx, params)] + r.calls) else r
  }

  /** Proof plumbing: one unfolding of `TransitionSpec` for a resolved transition whose candidate was computed. */
  lemma TransitionUnfolds(env: Env, m: Core, name: string, params: Params, v: TVal, reply: ProcReply)
    requires Resolve(env.config, m.state, name) == Some(v)
    requires Evaluate(v, m.context, params) == reply
    ensures reply.Raises? ==>
      var r := TransitionSpec(env, m, name, params);
      var h := HandleErrorSpec(env, m.(context := reply.ctx), MachineError(ToString(reply.fault), name));
      r.core == h.core && r.outcome == h.outcome &&
      r.calls == (if v.Proc? then [Procedure(name, m.context, params)] else []) + h.calls
    ensures reply.Returns? ==>
      var r := TransitionSpec(env, m, name, params);
      var s := ApplySpec(env, m.(context := reply.ctx, lastTransition := Some(name)), name, reply.next);
      r.core == s.core && r.outcome == s.outcome &&
      r.calls == (if v.Proc? then [Procedure(name, m.context, params)] else []) + s.calls
  {
  }

  /** Proof plumbing: associativity of call logs, for the methods that build their log piece by piece. */
  lemma CallsRegroup(a: seq<Call>, b: seq<Call>, c: seq<Call>, d: seq<Call>)
    ensures a + b + c == a + (b + c)
    ensures a + b + c + d == a + (b + (c + d))
  {
  }

  /**
   * What `transition` does once the candidate is known: it never lets a fault
   * out; an invalid candidate leaves the machine as it was and is reported as
   * INVALID_STATE, or, under `throws`, as the MACHINE_ERROR that the re-caught
   * StateMachineError becomes; a valid one is entered, and a fault its
   * observer raises becomes a MACHINE_ERROR tagged with `name`.
   */
  lemma ApplyProperties(env: Env, m: Core, name: string, candidate: string)
    ensures var r := ApplySpec(env, m, name, candidate);
      && !r.outcome.Raised?
      && (r.outcome.Returned? ==> r.outcome.snapshot == r.core.GetState())
      && r.core.lastTransition == m.lastTransition
      && (candidate !in ValidStates(env.config) ==> r.core == m)
      && (candidate !in ValidStates(env.config) && !env.throws ==>
            r.outcome == ReturnedErr(MakeRecord(InvalidState(candidate), m)))
      && (candidate !in ValidStates(env.config) && env.throws ==>
            r.outcome == Thrown(MakeRecord(MachineError("StateMachineError: Error: Invalid new state: " + candidate, name), m)))
      && (candidate in ValidStates(env.config) ==> r.core.state == Some(candidate))
    ensures candidate in ValidStates(env.config) ==>
      var r := ApplySpec(env, m, name, candidate);
      var s := SetStateSpec(env, m, candidate);
      (s.outcome.Returned? ==> r == s) &&
      (s.outcome.Raised? ==>
        r.core == s.core && r.outcome.Reports(MachineError(ToString(s.outcome.fault), name)) &&
        r.outcome.record == MakeRecord(MachineError(ToString(s.outcome.fault), name), s.core))
  {
    SetStateProperties(env, m, candidate);
    var s := SetStateSpec(env, m, candidate);
    if candidate !in ValidStates(env.config) && env.throws {
      var rec := MakeRecord(InvalidState(candidate), m);
      assert s.outcome == Thrown(rec);
      assert ToString(Raise(rec)) == "StateMachineError: Error: Invalid new state: " + candidate;
    }
  }

  /** `transition` never lets a fault out, and a snapshot it returns is the machine's new state. */
  lemma TransitionNeverRaises(env: Env, m: Core, name: string, params: Params)
    ensures var r := TransitionSpec(env, m, name, params);
      !r.outcome.Raised? && (r.outcome.Returned? ==> r.outcome.snapshot == r.core.GetState())
  {
    var t := Resolve(env.config, m.state, name);
    if t.Some? {
      var reply := Evaluate(t.value, m.context, params);
      if reply.Returns? {
        ApplyProperties(env, m.(context := reply.ctx, lastTransition := Some(name)), name, reply.next);
      }
    }
  }

  /** A name the current state does not resolve is an INVALID_TRANSITION error that changes nothing and calls only the error handler. */
  lemma TransitionUnresolved(env: Env, m: Core, name: string, params: Params)
    requires Resolve(env.config, m.state, name).None?
    ensures var r := TransitionSpec(env, m, name, params);
      r.core == m && r.outcome.Reports(InvalidTransition(name)) &&
      r.outcome.record == MakeRecord(InvalidTransition(name), m) &&
      forall c :: c in r.calls ==> c.ErrorHandled?
  {
  }

  /** Applying a candidate calls observers and the error handler only. */
  lemma ApplyCallsNoProcedure(env: Env, m: Core, name: string, candidate: string)
    ensures forall c :: c in ApplySpec(env, m, name, candidate).calls ==> !c.Procedure?
  {
    var s := SetStateSpec(env, m, candidate);
    assert forall c :: c in s.calls ==> !c.Procedure?;
  }

  /**
   * A procedure is called exactly once, first, with the context as it was
   * and the parameters; a literal transition calls no procedure at all.
   */
  lemma TransitionCallsProcedureFirst(env: Env, m: Core, name: string, params: Params)
    requires Resolve(env.config, m.state, name).Some?
    ensures var r := TransitionSpec(env, m, name, params);
      var first := if Resolve(env.config, m.state, name).value.Proc? then 1 else 0;
      && |r.calls| >= first
      && (first == 1 ==> r.calls[0] == Procedure(name, m.context, params))
      && forall i :: first <= i < |r.calls| ==> !r.calls[i].Procedure?
  {
    var v := Resolve(env.config, m.state, name).value;
    var reply := Evaluate(v, m.context, params);
    TransitionUnfolds(env, m, name, params, v, reply);
    var rest := if reply.Raises? then
        HandleErrorSpec(env, m.(context := reply.ctx), MachineError(ToString(reply.fault), name)).calls
      else
        ApplySpec(env, m.(context := reply.ctx, lastTransition := Some(name)), name, reply.next).calls;
    if reply.Returns? {
      ApplyCallsNoProcedure(env, m.(context := reply.ctx, lastTransition := Some(name)), name, reply.next);
    }
    assert forall c :: c in rest ==> !c.Procedure?;
  }

  /**
   * A procedure that raises is a MACHINE_ERROR carrying the fault's string:
   * the state and last transition stay, and the context keeps what the
   * procedure did to it.
   */
  lemma TransitionProcedureRaises(env: Env, m: Core, name: string, params: Params)
    requires Resolve(env.config, m.state, name).Some?
    requires Evaluate(Resolve(env.config, m.state, name).value, m.context, params).Raises?
    ensures var reply := Evaluate(Resolve(env.config, m.state, name).value, m.context, params);
      var r := TransitionSpec(env, m, name, params);
      r.core == m.(context := reply.ctx) &&
      r.outcome.Reports(MachineError(ToString(reply.fault), name)) &&
      r.outcome.record == MakeRecord(MachineError(ToString(reply.fault), name), m.(context := reply.ctx))
  {
  }

  /**
   * A candidate that is computed becomes the last transition's result: the
   * name is recorded whatever happens next, a valid candidate is entered,
   * and an invalid one leaves the state as it was and is reported.
   */
  lemma TransitionApplies(env: Env, m: Core, name: string, params: Params)
    requires Resolve(env.config, m.state, name).Some?
    requires Evaluate(Resolve(env.config, m.state, name).value, m.context, params).Returns?
    ensures var reply := Evaluate(Resolve(env.config, m.state, name).value, m.context, params);
      var named := m.(context := reply.ctx, lastTransition := Some(name));
      var r := TransitionSpec(env, m, name, params);
      && r.core.lastTransition == Some(name)
      && (reply.next in ValidStates(env.config) ==> r.core.state == Some(reply.next))
      && (reply.next !in ValidStates(env.config) ==> r.core == named)
      && (reply.next !in ValidStates(env.config) && !env.throws ==>
            r.outcome == ReturnedErr(MakeRecord(InvalidState(reply.next), named)))
      && (reply.next !in ValidStates(env.config) && env.throws ==>
            r.outcome == Thrown(MakeRecord(MachineError("StateMachineError: Error: Invalid new state: " + reply.next, name), named)))
  {
    var reply := Evaluate(Resolve(env.config, m.state, name).value, m.context, params);
    ApplyProperties(env, m.(context := reply.ctx, lastTransition := Some(name)), name, reply.next);
  }

  /**
   * `_setState` rejects a candidate outside `validStates` without touching
   * the machine; it enters a valid one, keeps the last transition, and
   * notifies exactly one observer (the state's own, else the default one,
   * else none), whose fault it lets out and whose changes to the context it
   * keeps.
   */
  lemma SetStateProperties(env: Env, m: Core, candidate: string)
    ensures var r := SetStateSpec(env, m, candidate);
      candidate !in ValidStates(env.config) ==>
      r.core == m && r.outcome.Reports(InvalidState(candidate)) && r.outcome.record == MakeRecord(InvalidState(candidate), m)
    ensures var r := SetStateSpec(env, m, candidate);
      candidate in ValidStates(env.config) ==>
      r.core.state == Some(candidate) && r.core.lastTransition == m.lastTransition &&
      (r.outcome.Returned? || r.outcome.Raised?)
    ensures var r := SetStateSpec(env, m, candidate);
      r.outcome.Returned? ==> r.outcome.snapshot == r.core.GetState()
    ensures var r := SetStateSpec(env, m, candidate);
      candidate in ValidStates(env.config) && HasStateObserver(env.hooks, candidate) ==>
      var reply := env.hooks.stateHandlers[candidate].value(StatusOf(m));
      r.calls == [StateObserved(candidate, StatusOf(m))] && r.core.context == reply.Ctx() &&
      (reply.Fails? ==> r.outcome == Raised(reply.fault)) &&
      (reply.Completes? ==> r.outcome.Returned?)
    ensures var r := SetStateSpec(env, m, candidate);
      candidate in ValidStates(env.config) && !HasStateObserver(env.hooks, candidate) && env.hooks.defaultHandler.Some? ==>
      var reply := env.hooks.defaultHandler.value(candidate, StatusOf(m));
      r.calls == [DefaultObserved(candidate, StatusOf(m))] && r.core.context == reply.Ctx() &&
      (reply.Fails? ==> r.outcome == Raised(reply.fault)) &&
      (reply.Completes? ==> r.outcome.Returned?)
    ensures var r := SetStateSpec(env, m, candidate);
      candidate in ValidStates(env.config) && !HasStateObserver(env.hooks, candidate) && env.hooks.defaultHandler.None? ==>
      r.calls == [] && r.core == m.(state := Some(candidate)) && r.outcome.Returned?
  {
  }

  /**
   * `start(ctx)` clears the last transition and enters `config.initial` with
   * context `ctx`: an invalid initial state is reported as INVALID_STATE (or
   * raised, under `throws`, since nothing catches it), with no last
   * transition in the record; a successful start returns the initial state.
   */
  lemma StartProperties(env: Env, m: Core, ctx: Ctx)
    ensures var r := StartSpec(env, m, ctx);
      && r.core.lastTransition == None
      && (env.config.initial in ValidStates(env.config) ==> r.core.state == Some(env.config.initial))
      && (env.config.initial !in ValidStates(env.config) ==>
            r.core == Core(m.state, None, ctx) && r.outcome.Reports(InvalidState(env.config.initial)) &&
            r.outcome.record.lastTransition == None && r.outcome.record.context == ctx)
      && (r.outcome.Returned? ==> r.outcome.snapshot == Snapshot(Some(env.config.initial), None, r.core.context))
      && (!HasStateObserver(env.hooks, env.config.initial) && env.hooks.defaultHandler.None? ==> r.core.context == ctx)
      && (r.outcome.Returned? || r.outcome.Raised? || r.outcome.Reports(InvalidState(env.config.initial)))
    ensures var r := StartSpec(env, m, ctx);
      var status := Status(None, m.state, ctx);
      env.config.initial in ValidStates(env.config) && HasStateObserver(env.hooks, env.config.initial) ==>
      var reply := env.hooks.stateHandlers[env.config.initial].value(status);
      r.calls == [StateObserved(env.config.initial, status)] && r.core.context == reply.Ctx() &&
      (reply.Fails? ==> r.outcome == Raised(reply.fault))
    ensures var r := StartSpec(env, m, ctx);
      var status := Status(None, m.state, ctx);
      env.config.initial in ValidStates(env.config) && !HasStateObserver(env.hooks, env.config.initial) &&
      env.hooks.defaultHandler.Some? ==>
      var reply := env.hooks.defaultHandler.value(env.config.initial, status);
      r.calls == [DefaultObserved(env.config.initial, status)] && r.core.context == reply.Ctx() &&
      (reply.Fails? ==> r.outcome == Raised(reply.fault))
    ensures var r := StartSpec(env, m, ctx);
      !HasStateObserver(env.hooks, env.config.initial) && env.hooks.defaultHandler.None? ==>
      forall c :: c in r.calls ==> c.ErrorHandled?
  {
    SetStateProperties(env, Core(m.state, None, ctx), env.config.initial);
  }

  /**
   * The `try` of `transition` also covers `_setState`: an observer that
   * raises after the candidate was entered is reported as a MACHINE_ERROR
   * carrying the fault's string, and the record shows the new state and the
   * transition that led to it.
   */
  lemma TransitionObserverRaises(env: Env, m: Core, name: string, params: Params)
    requires Resolve(env.config, m.state, name).Some?
    requires Evaluate(Resolve(env.config, m.state, name).value, m.context, params).Returns?
    ensures var reply := Evaluate(Resolve(env.config, m.state, name).value, m.context, params);
      var named := m.(context := reply.ctx, lastTransition := Some(name));
      var s := SetStateSpec(env, named, reply.next);
      var r := TransitionSpec(env, m, name, params);
      reply.next in ValidStates(env.config) && s.outcome.Raised? ==>
      && r.outcome.Reports(MachineError(ToString(s.outcome.fault), name))
      && r.outcome.record.currentState == Some(reply.next)
      && (name != "" ==> r.outcome.record.lastTransition == Some(name))
      && r.core == s.core
  {
    var reply := Evaluate(Resolve(env.config, m.state, name).value, m.context, params);
    var named := m.(context := reply.ctx, lastTransition := Some(name));
    ApplyProperties(env, named, name, reply.next);
    SetStateProperties(env, named, reply.next);
    TransitionUnfolds(env, m, name, params, Resolve(env.config, m.state, name).value, reply);
  }
}
