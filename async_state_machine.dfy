/**
 * The asynchronous machine of src/async-state-machine.js. It extends the
 * synchronous one, overriding `transition`, `start` and `_setState` and adding
 * `_processTransition`; every `await` is taken to settle at once, so a
 * rejection behaves as a raise at the same point. The instance is the
 * synchronous machine it extends (`machine`, created with the asynchronous
 * prototype), whose inherited members (`getState`, `onState`,
 * `onStateChanges`, `onError`, `_getTransition`, `_handleError`) are used
 * unchanged. Each override is proved against the same step specification as
 * its synchronous counterpart: the two machines make the same moves.
 */
module AsyncMachine {
  import opened Wrappers
  import opened Types
  import opened Binder
  import opened Engine
  import opened Machine

  class AsyncStateMachine {
    /** The instance, seen through the members it inherits. */
    const machine: StateMachine

    /** The instance was built by the asynchronous class. */
    ghost predicate Valid()
    {
      machine.Valid() && machine.proto == AsyncProto
    }

    /** `new AsyncStateMachine(config, options)`: the inherited constructor, run for the subclass. */
    constructor (config: Config, throws: bool := false)
      ensures Valid() && fresh(machine)
      ensures machine.config == config && machine.throws == throws
      ensures machine.methods == Bindings(AsyncProto, config)
      ensures machine.Current() == Core(None, None, map[])
      ensures machine.stateHandlers == map[] && machine.defaultHandler.None? && machine.errorHandler.None?
      ensures machine.calls == []
    {
      machine := new StateMachine(config, throws, AsyncProto);
    }

    /**
     * `_processTransition(transition, params)`: a state name is the candidate
     * itself; a procedure is called with the current context and the
     * parameters, and what it settles with is the candidate.
     */
    method ProcessTransition(t: TVal, params: Params) returns (reply: ProcReply)
      ensures reply == Evaluate(t, machine.context, params)
      ensures t.Literal? ==> reply == Returns(machine.context, t.state)
      ensures t.Proc? ==> reply == t.run(machine.context, params)
    {
      if !t.Proc? {
        return Returns(machine.context, t.state);
      }
      reply := t.run(machine.context, params);
    }

    /** `_setState(state)`, awaiting the observer. */
    method SetState(candidate: string) returns (o: Outcome)
      requires Valid()
      modifies machine`state, machine`context, machine`calls
      ensures var r := SetStateSpec(old(machine.Environment()), old(machine.Current()), candidate);
        machine.Current() == r.core && machine.lastTransition == old(machine.lastTransition) &&
        o == r.outcome && machine.calls == old(machine.calls) + r.calls
    {
      if candidate !in machine.validStates {
        o := machine.HandleError(InvalidState(candidate));
        return;
      }
      var previousState := machine.state;
      machine.state := Some(candidate);
      var status := Status(machine.lastTransition, previousState, machine.context);
      if candidate in machine.stateHandlers && machine.stateHandlers[candidate].Some? {
        var reply := machine.stateHandlers[candidate].value(status);
        machine.calls := machine.calls + [StateObserved(candidate, status)];
        machine.context := reply.Ctx();
        if reply.Fails? {
          return Raised(reply.fault);
        }
      } else if machine.defaultHandler.Some? {
        var reply := machine.defaultHandler.value(candidate, status);
        machine.calls := machine.calls + [DefaultObserved(candidate, status)];
        machine.context := reply.Ctx();
        if reply.Fails? {
          return Raised(reply.fault);
        }
      }
      o := Returned(machine.GetState());
    }

    /** `start(context = {})`, awaiting `_setState`. */
    method Start(ctx: Ctx := map[]) returns (o: Outcome)
      requires Valid()
      modifies machine`state, machine`lastTransition, machine`context, machine`calls
      ensures var r := StartSpec(old(machine.Environment()), old(machine.Current()), ctx);
        machine.Current() == r.core && o == r.outcome && machine.calls == old(machine.calls) + r.calls
    {
      machine.context, machine.lastTransition := ctx, None;
      o := SetState(machine.config.initial);
    }

    /**
     * The rest of `transition`'s `try` once the candidate has settled: `name`
     * becomes the last transition and the candidate is applied; whatever that
     * rejects with is caught and reported as a MACHINE_ERROR.
     */
    method Apply(name: string, candidate: string) returns (o: Outcome)
      requires Valid()
      modifies machine`state, machine`lastTransition, machine`context, machine`calls
      ensures var r := ApplySpec(old(machine.Environment()), old(machine.Current()).(lastTransition := Some(name)), name, candidate);
        machine.Current() == r.core && o == r.outcome && machine.calls == old(machine.calls) + r.calls
    {
      ghost var env := machine.Environment();
      machine.lastTransition := Some(name);
      ghost var named := machine.Current();
      o := SetState(candidate);
      ghost var s := SetStateSpec(env, named, candidate);
      // catch
      var caught := Caught(o);
      if caught.Some? {
        o := machine.HandleError(MachineError(ToString(caught.value), name));
        CallsRegroup(old(machine.calls), s.calls, HandleErrorSpec(env, s.core, MachineError(ToString(caught.value), name)).calls, []);
      }
    }

    /** `transition(name, params)`, awaiting `_processTransition` and `_setState`. */
    method Transition(name: string, params: Params := map[]) returns (o: Outcome)
      requires Valid()
      modifies machine`state, machine`lastTransition, machine`context, machine`calls
      ensures var r := TransitionSpec(old(machine.Environment()), old(machine.Current()), name, params);
        machine.Current() == r.core && o == r.outcome && machine.calls == old(machine.calls) + r.calls
    {
      var t := machine.GetTransition(name);
      if t.None? {
        o := machine.HandleError(InvalidTransition(name));
      } else {
        o := Attempt(name, t.value, params);
      }
    }

    /** The `try` of `transition` and its `catch`, for a name that resolved to `v`. */
    method Attempt(name: string, v: TVal, params: Params) returns (o: Outcome)
      requires Valid() && machine.GetTransition(name) == Some(v)
      modifies machine`state, machine`lastTransition, machine`context, machine`calls
      ensures var r := TransitionSpec(old(machine.Environment()), old(machine.Current()), name, params);
        machine.Current() == r.core && o == r.outcome && machine.calls == old(machine.calls) + r.calls
    {
      ghost var env, m := machine.Environment(), machine.Current();
      var reply := ProcessTransition(v, params);
      TransitionUnfolds(env, m, name, params, v, reply);
      ghost var pre := if v.Proc? then [Procedure(name, m.context, params)] else [];
      machine.calls := machine.calls + pre;
      machine.context := reply.ctx;
      if reply.Raises? {
        // catch
        o := machine.HandleError(MachineError(ToString(reply.fault), name));
        CallsRegroup(old(machine.calls), pre, HandleErrorSpec(env, m.(context := reply.ctx), MachineError(ToString(reply.fault), name)).calls, []);
      } else {
        o := Apply(name, reply.next);
        CallsRegroup(old(machine.calls), pre, ApplySpec(env, m.(context := reply.ctx, lastTransition := Some(name)), name, reply.next).calls, []);
      }
    }
  }
}
