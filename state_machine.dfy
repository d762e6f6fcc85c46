/**
 * The synchronous machine of src/state-machine.js. Its fields are the
 * instance's own properties; each method is proved to do what the step
 * specifications of `Engine` say, so that what is proved about those
 * functions holds of the class.
 */
module Machine {
  import opened Wrappers
  import opened Types
  import opened Binder
  import opened Engine

  class StateMachine {
    /** `_config`. */
    const config: Config
    /** `_options.throws`. */
    const throws: bool
    /** The class the instance was created as (what `Object.getPrototypeOf(this)` gives). */
    const proto: Proto
    /** `validStates`. */
    const validStates: seq<string>
    /** The shortcuts `_initializeStates` installs on the instance, by property name. */
    const methods: map<string, Shortcut>

    /** `_state`; `None` before the first successful `start`. */
    var state: Option<string>
    /** `_lastTransition`. */
    var lastTransition: Option<string>
    /** `_context`. */
    var context: Ctx
    /** `_stateChangeHandlers`. */
    var stateHandlers: map<string, Option<StateObserver>>
    /** `_defaultStateChangeHandler`. */
    var defaultHandler: Option<DefaultObserver>
    /** `_errorHandler`. */
    var errorHandler: Option<ErrorHandler>
    /** Every call into user code so far, in order. */
    ghost var calls: seq<Call>

    /** The construction-time fields are those the configuration determines. */
    ghost predicate Valid()
    {
      validStates == ValidStates(config) && methods == Bindings(proto, config)
    }

    /** The mutable part of the machine. */
    function Current(): Core
      reads this
    {
      Core(state, lastTransition, context)
    }

    /** What a step reads but does not change. */
    function Environment(): Env
      reads this
    {
      Env(config, throws, Hooks(stateHandlers, defaultHandler, errorHandler))
    }

    /**
     * `new StateMachine(config, options)`: no state yet, no callbacks, and
     * the shortcut table built by `_initializeStates`.
     */
    constructor (config: Config, throws: bool := false, proto: Proto := SyncProto)
      ensures Valid()
      ensures this.config == config && this.throws == throws && this.proto == proto
      ensures Current() == Core(None, None, map[])
      ensures stateHandlers == map[] && defaultHandler.None? && errorHandler.None?
      ensures calls == []
    {
      this.config := config;
      this.throws := throws;
      this.proto := proto;
      validStates := ValidStates(config);
      var table := InitializeStates(proto, config);
      methods := table;
      state, lastTransition, context := None, None, map[];
      stateHandlers, defaultHandler, errorHandler := map[], None, None;
      calls := [];
    }

    /** `getState()`: the current state, last transition and context. */
    function GetState(): (s: Snapshot)
      reads this
      ensures s.currentState == state && s.lastTransition == lastTransition && s.context == context
    {
      Current().GetState()
    }

    /** `onStateChanges(callback)`: replaces the default observer; returns the machine. */
    method OnStateChanges(callback: Option<DefaultObserver>) returns (self: StateMachine)
      modifies this`defaultHandler
      ensures self == this && defaultHandler == callback
    {
      defaultHandler := callback;
      self := this;
    }

    /** `onState(state, callback)`: replaces the observer of one state; returns the machine. */
    method OnState(s: string, callback: Option<StateObserver>) returns (self: StateMachine)
      modifies this`stateHandlers
      ensures self == this && stateHandlers == old(stateHandlers)[s := callback]
    {
      stateHandlers := stateHandlers[s := callback];
      self := this;
    }

    /** `onError(handler)`: replaces the error handler; returns the machine. */
    method OnError(handler: Option<ErrorHandler>) returns (self: StateMachine)
      modifies this`errorHandler
      ensures self == this && errorHandler == handler
    {
      errorHandler := handler;
      self := this;
    }

    /**
     * `_getTransition(name)`: nothing before the first start; otherwise a
     * truthy value declared under `name` in the current state's transitions.
     */
    function GetTransition(name: string): (t: Option<TVal>)
      reads this
      ensures state.None? ==> t.None?
      ensures t.Some? ==> Truthy(t.value) && EntryOf(config, state).Some? && EntryOf(config, state).value.Transitions?
      ensures t.Some? ==>
        var table := EntryOf(config, state).value.table;
        exists j :: 0 <= j < |table| && table[j].0 == name && table[j].1 == t.value
    {
      Resolve(config, state, name)
    }

    /** `_handleError`, reached through `_transitionError`, `_stateError` and `_machineError`. */
    method HandleError(kind: ErrorKind) returns (o: Outcome)
      modifies this`calls
      ensures var r := HandleErrorSpec(old(Environment()), old(Current()), kind);
        o == r.outcome && calls == old(calls) + r.calls
    {
      var rec := MakeRecord(kind, Current());
      if throws {
        return Thrown(rec);
      }
      if errorHandler.Some? {
        var _ := errorHandler.value(rec, context);
        calls := calls + [ErrorHandled(rec, context)];
      }
      o := ReturnedErr(rec);
    }

    /** `_setState(candidate)`. */
    method SetState(candidate: string) returns (o: Outcome)
      requires Valid()
      modifies this`state, this`context, this`calls
      ensures var r := SetStateSpec(old(Environment()), old(Current()), candidate);
        Current() == r.core && lastTransition == old(lastTransition) && o == r.outcome && calls == old(calls) + r.calls
    {
      if candidate !in validStates {
        o := HandleError(InvalidState(candidate));
        return;
      }
      var previousState := state;
      state := Some(candidate);
      var status := Status(lastTransition, previousState, context);
      if candidate in stateHandlers && stateHandlers[candidate].Some? {
        var reply := stateHandlers[candidate].value(status);
        calls := calls + [StateObserved(candidate, status)];
        context := reply.Ctx();
        if reply.Fails? {
          return Raised(reply.fault);
        }
      } else if defaultHandler.Some? {
        var reply := defaultHandler.value(candidate, status);
        calls := calls + [DefaultObserved(candidate, status)];
        context := reply.Ctx();
        if reply.Fails? {
          return Raised(reply.fault);
        }
      }
      o := Returned(GetState());
    }

    /** `start(context = {})`. */
    method Start(ctx: Ctx := map[]) returns (o: Outcome)
      requires Valid()
      modifies this`state, this`lastTransition, this`context, this`calls
      ensures var r := StartSpec(old(Environment()), old(Current()), ctx);
        Current() == r.core && o == r.outcome && calls == old(calls) + r.calls
    {
      context, lastTransition := ctx, None;
      o := SetState(config.initial);
    }

    /**
     * The rest of `transition`'s `try` once the candidate is known: `name`
     * becomes the last transition and the candidate is applied; whatever that
     * raises is caught and reported as a MACHINE_ERROR.
     */
    method Apply(name: string, candidate: string) returns (o: Outcome)
      requires Valid()
      modifies this`state, this`lastTransition, this`context, this`calls
      ensures var r := ApplySpec(old(Environment()), old(Current()).(lastTransition := Some(name)), name, candidate);
        Current() == r.core && o == r.outcome && calls == old(calls) + r.calls
    {
      ghost var env := Environment();
      lastTransition := Some(name);
      ghost var named := Current();
      o := SetState(candidate);
      ghost var s := SetStateSpec(env, named, candidate);
      // catch
      var caught := Caught(o);
      if caught.Some? {
        o := HandleError(MachineError(ToString(caught.value), name));
        CallsRegroup(old(calls), s.calls, HandleErrorSpec(env, s.core, MachineError(ToString(caught.value), name)).calls, []);
      }
    }

    /** `transition(name, params)`. */
    method Transition(name: string, params: Params := map[]) returns (o: Outcome)
      requires Valid()
      modifies this`state, this`lastTransition, this`context, this`calls
      ensures var r := TransitionSpec(old(Environment()), old(Current()), name, params);
        Current() == r.core && o == r.outcome && calls == old(calls) + r.calls
    {
      var t := GetTransition(name);
      if t.None? {
        o := HandleError(InvalidTransition(name));
      } else {
        o := Attempt(name, t.value, params);
      }
    }

    /** The `try` of `transition` and its `catch`, for a name that resolved to `v`. */
    method Attempt(name: string, v: TVal, params: Params) returns (o: Outcome)
      requires Valid() && GetTransition(name) == Some(v)
      modifies this`state, this`lastTransition, this`context, this`calls
      ensures var r := TransitionSpec(old(Environment()), old(Current()), name, params);
        Current() == r.core && o == r.outcome && calls == old(calls) + r.calls
    {
      ghost var env, m := Environment(), Current();
      var reply := if v.Proc? then v.run(context, params) else Returns(context, v.state);
      TransitionUnfolds(env, m, name, params, v, reply);
      ghost var pre := if v.Proc? then [Procedure(name, m.context, params)] else [];
      calls := calls + pre;
      context := reply.ctx;
      if reply.Raises? {
        // catch
        o := HandleError(MachineError(ToString(reply.fault), name));
        CallsRegroup(old(calls), pre, HandleErrorSpec(env, m.(context := reply.ctx), MachineError(ToString(reply.fault), name)).calls, []);
      } else {
        o := Apply(name, reply.next);
        CallsRegroup(old(calls), pre, ApplySpec(env, m.(context := reply.ctx, lastTransition := Some(name)), name, reply.next).calls, []);
      }
    }
  }
}
