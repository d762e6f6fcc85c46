/**
 * The scenarios of tests/state-machine.spec.js and
 * tests/async-state-machine.spec.js, stated over the step specification that
 * both machine classes are proved to follow: each lemma takes a fresh machine
 * through the test's calls and states what the test expects of the results.
 */
module Scenarios {
  import opened Wrappers
  import opened Utils
  import opened Types
  import opened Binder
  import opened Engine

  /** The procedure under `waiting.next` in TEST_STATES_1: it returns 'end'. */
  function ToEnd(ctx: Ctx, params: Params): ProcReply { Returns(ctx, "end") }

  /** TEST_STATES_1: start --begin/next--> waiting --next()--> end (null). */
  function TestStates1(): Config
  {
    Config("test-states-1", "start", [
      ("start", Transitions([("begin", Literal("waiting")), ("next", Literal("waiting"))])),
      ("waiting", Transitions([("next", Proc(ToEnd))])),
      ("end", Terminal)])
  }

  /**
   * TEST_STATES_2: start --begin--> waiting --slide--> end, `bounce` leads
   * to the unknown state 'invalid', and `end.jumpOffACliff` is a procedure
   * (`cliff`).
   */
  function TestStates2(cliff: (Ctx, Params) -> ProcReply): Config
  {
    Config("test-states-2", "start", [
      ("start", Transitions([("begin", Literal("waiting"))])),
      ("waiting", Transitions([("bounce", Literal("invalid")), ("slide", Literal("end"))])),
      ("end", Transitions([("jumpOffACliff", Proc(cliff))]))])
  }

  /** How TEST_STATES_1 resolves the names the tests use. */
  lemma TestStates1Facts()
    ensures ValidStates(TestStates1()) == ["start", "waiting", "end"]
    ensures Resolve(TestStates1(), Some("start"), "begin") == Some(Literal("waiting"))
    ensures Resolve(TestStates1(), Some("waiting"), "next") == Some(Proc(ToEnd))
  {
  }

  /** The accessor of a name whose first letter is lower case and whose rest has no upper-case letter. */
  lemma AccessorOfLowerName(c: char, rest: string)
    requires IsLower(c)
    requires forall i :: 0 <= i < |rest| ==> !IsUpper(rest[i])
    ensures AccessorName([c] + rest) == "on" + [ToUpper(c)] + rest
  {
    LowerCaseKeepsLower(rest);
    assert ([c] + rest)[1..] == rest;
  }

  /** Every property name of `Object.prototype` is longer than five letters. */
  lemma ObjectNamesAreLong()
    ensures forall n :: n in ObjectPrototypeNames() ==> |n| > 5
  {
  }

  /** Every own property name of `StateMachine.prototype` but "start" is longer than five letters. */
  lemma ClassNamesAreLong()
    ensures forall n :: n in StateMachinePrototypeNames() ==> |n| > 5 || n == "start"
  {
  }

  /** Every name the binder treats as taken has at least five letters, and "start" is the only one with five. */
  lemma TakenNamesAreLong(p: Proto)
    ensures forall n :: n in Taken(p) ==> |n| > 5 || n == "start"
  {
    var own := {"_options", "_config", "_stateChangeHandlers", "validStates", "_processTransition"};
    assert forall n :: n in own ==> |n| > 5;
    assert Taken(p) <= StateMachinePrototypeNames() + ObjectPrototypeNames() + own;
    ObjectNamesAreLong();
    ClassNamesAreLong();
  }

  /** "Instantiation and initialization": TEST_STATES_1's transition `begin` gets a shortcut. */
  lemma InstantiationBegin(config: Config)
    requires config == TestStates1()
    ensures "begin" in Bindings(SyncProto, config)
  {
    assert "begin" in Declared(config.states[0].1);
    assert "begin" !in Taken(SyncProto) by {
      TakenNamesAreLong(SyncProto);
      assert "begin"[0] != "start"[0];
    }
    BindingsDomain(SyncProto, config, "begin");
  }

  /** "Instantiation and initialization": TEST_STATES_1's transition `next` gets a shortcut. */
  lemma InstantiationNext(config: Config)
    requires config == TestStates1()
    ensures "next" in Bindings(SyncProto, config)
  {
    assert "next" in Declared(config.states[0].1);
    assert "next" !in Taken(SyncProto) by {
      TakenNamesAreLong(SyncProto);
    }
    BindingsDomain(SyncProto, config, "next");
  }

  /** The accessor of the state `start`. */
  lemma AccessorOfStart()
    ensures AccessorName("start") == "onStart"
  {
    assert "start" == ['s'] + "tart";
    AccessorOfLowerName('s', "tart");
  }

  /** `onStart` is not an API method of the synchronous class, unlike `onState`. */
  lemma OnStartIsNotReserved()
    ensures "onStart" !in ApiMethods(SyncProto)
  {
    assert "onStart"[6] != "onState"[6] && "onStart"[2] != "onError"[2];
  }

  /** "Instantiation and initialization": the state `start` of TEST_STATES_1 gets its accessor `onStart`. */
  lemma InstantiationStart(config: Config)
    requires config == TestStates1()
    ensures "onStart" in Bindings(SyncProto, config) && Bindings(SyncProto, config)["onStart"].OnState?
  {
    assert "start" in ValidStates(config) && AccessorName("start") == "onStart" by {
      TestStates1Facts();
      AccessorOfStart();
    }
    OnStartIsNotReserved();
    BindingsDomain(SyncProto, config, "onStart");
  }

  /** The accessor of the state `waiting`. */
  lemma AccessorOfWaiting()
    ensures AccessorName("waiting") == "onWaiting"
  {
    assert "waiting" == ['w'] + "aiting";
    AccessorOfLowerName('w', "aiting");
  }

  /** "Instantiation and initialization": the state `waiting` of TEST_STATES_1 gets its accessor `onWaiting`. */
  lemma InstantiationWaiting(config: Config)
    requires config == TestStates1()
    ensures "onWaiting" in Bindings(SyncProto, config) && Bindings(SyncProto, config)["onWaiting"].OnState?
  {
    assert "waiting" in ValidStates(config) && AccessorName("waiting") == "onWaiting" by {
      TestStates1Facts();
      AccessorOfWaiting();
    }
    assert "onWaiting" !in ApiMethods(SyncProto);
    BindingsDomain(SyncProto, config, "onWaiting");
  }

  /** The accessor of the state `end`. */
  lemma AccessorOfEnd()
    ensures AccessorName("end") == "onEnd"
  {
    assert "end" == ['e'] + "nd";
    AccessorOfLowerName('e', "nd");
  }

  /** "Instantiation and initialization": the state `end` of TEST_STATES_1 gets its accessor `onEnd`. */
  lemma InstantiationEnd(config: Config)
    requires config == TestStates1()
    ensures "onEnd" in Bindings(SyncProto, config) && Bindings(SyncProto, config)["onEnd"].OnState?
  {
    assert "end" in ValidStates(config) && AccessorName("end") == "onEnd" by {
      TestStates1Facts();
      AccessorOfEnd();
    }
    assert "onEnd" !in ApiMethods(SyncProto) by {
      assert "onEnd"[0] != "start"[0];
    }
    BindingsDomain(SyncProto, config, "onEnd");
  }

  /** The configuration of "Convenience method naming collisions": `begin` is a bare name, `state.start` a procedure. */
  function Collisions(stateStart: (Ctx, Params) -> ProcReply): Config
  {
    Config("collisions", "begin", [("begin", Bare("state")), ("state", Transitions([("start", Proc(stateStart))]))])
  }

  /**
   * "Convenience method naming collisions": the transition `start` does not
   * replace `start()`, the state `state` gets no accessor since `onState` is
   * reserved, and `start()` enters `begin` without calling the procedure.
   */
  lemma NamingCollisions(stateStart: (Ctx, Params) -> ProcReply)
    ensures "start" !in Bindings(SyncProto, Collisions(stateStart))
    ensures "onState" !in Bindings(SyncProto, Collisions(stateStart))
    ensures var done := Core(Some("begin"), None, map[]);
      StartSpec(Fresh(Collisions(stateStart), false), Core(None, None, map[]), map[]) == Step(done, Returned(done.GetState()), [])
  {
    StartNeverBound(SyncProto, Collisions(stateStart));
    ApiMethodsNeverBound(SyncProto, Collisions(stateStart));
    assert ValidStates(Collisions(stateStart)) == ["begin", "state"];
    QuietStart(Fresh(Collisions(stateStart), false), Core(None, None, map[]), map[]);
  }

  /** With no observer registered, `start` enters a valid initial state and returns it. */
  lemma QuietStart(env: Env, m: Core, ctx: Ctx)
    requires env.hooks.stateHandlers == map[] && env.hooks.defaultHandler.None?
    requires env.config.initial in ValidStates(env.config)
    ensures var done := Core(Some(env.config.initial), None, ctx);
      StartSpec(env, m, ctx) == Step(done, Returned(done.GetState()), [])
  {
  }

  /**
   * With no observer registered, a transition whose candidate is a valid
   * state moves there and returns the new snapshot; the only user call is
   * the procedure's, if the transition has one.
   */
  lemma QuietTransition(env: Env, m: Core, name: string, params: Params, v: TVal)
    requires env.hooks.stateHandlers == map[] && env.hooks.defaultHandler.None?
    requires Resolve(env.config, m.state, name) == Some(v)
    requires Evaluate(v, m.context, params).Returns?
    requires Evaluate(v, m.context, params).next in ValidStates(env.config)
    ensures var reply := Evaluate(v, m.context, params);
      var done := Core(Some(reply.next), Some(name), reply.ctx);
      TransitionSpec(env, m, name, params) ==
      Step(done, Returned(done.GetState()), if v.Proc? then [Procedure(name, m.context, params)] else [])
  {
    var reply := Evaluate(v, m.context, params);
    TransitionUnfolds(env, m, name, params, v, reply);
    var named := m.(context := reply.ctx, lastTransition := Some(name));
    assert SetStateSpec(env, named, reply.next) == Step(Core(Some(reply.next), Some(name), reply.ctx), Returned(Core(Some(reply.next), Some(name), reply.ctx).GetState()), []);
  }

  /** The machine as constructed: no state, no last transition, no callbacks. */
  function Fresh(config: Config, throws: bool): Env
  {
    Env(config, throws, Hooks(map[], None, None))
  }

  /**
   * With no callback registered, a transition whose candidate is outside the
   * states leaves the state, records the name, and reports INVALID_STATE, or
   * under `throws` the MACHINE_ERROR the re-caught StateMachineError becomes.
   */
  lemma QuietRejection(env: Env, m: Core, name: string, params: Params, v: TVal)
    requires env.hooks == Hooks(map[], None, None)
    requires Resolve(env.config, m.state, name) == Some(v)
    requires Evaluate(v, m.context, params).Returns?
    requires Evaluate(v, m.context, params).next !in ValidStates(env.config)
    ensures var reply := Evaluate(v, m.context, params);
      var named := m.(context := reply.ctx, lastTransition := Some(name));
      var outcome := if env.throws
        then Thrown(MakeRecord(MachineError("StateMachineError: Error: Invalid new state: " + reply.next, name), named))
        else ReturnedErr(MakeRecord(InvalidState(reply.next), named));
      TransitionSpec(env, m, name, params) ==
      Step(named, outcome, if v.Proc? then [Procedure(name, m.context, params)] else [])
  {
    var reply := Evaluate(v, m.context, params);
    TransitionUnfolds(env, m, name, params, v, reply);
    ApplyProperties(env, m.(context := reply.ctx, lastTransition := Some(name)), name, reply.next);
  }

  /**
   * With no callback registered, a procedure that raises is reported as a
   * MACHINE_ERROR carrying the fault's string, returned or thrown, and
   * nothing but the context changes.
   */
  lemma QuietRaise(env: Env, m: Core, name: string, params: Params, v: TVal)
    requires env.hooks == Hooks(map[], None, None)
    requires Resolve(env.config, m.state, name) == Some(v)
    requires Evaluate(v, m.context, params).Raises?
    ensures var reply := Evaluate(v, m.context, params);
      var rec := MakeRecord(MachineError(ToString(reply.fault), name), m.(context := reply.ctx));
      TransitionSpec(env, m, name, params) ==
      Step(m.(context := reply.ctx), if env.throws then Thrown(rec) else ReturnedErr(rec),
        if v.Proc? then [Procedure(name, m.context, params)] else [])
  {
    TransitionUnfolds(env, m, name, params, v, Evaluate(v, m.context, params));
  }

  /** "Basic transitions": start, `begin`, then `next` through the procedure. */
  lemma BasicTransitions()
    ensures var env := Fresh(TestStates1(), false);
      var started := StartSpec(env, Core(None, None, map[]), map["data" := 1]);
      var begun := TransitionSpec(env, started.core, "begin", map[]);
      var ended := TransitionSpec(env, begun.core, "next", map[]);
      && started.outcome == Returned(Snapshot(Some("start"), None, map["data" := 1]))
      && begun.outcome == Returned(Snapshot(Some("waiting"), Some("begin"), map["data" := 1]))
      && ended.outcome == Returned(Snapshot(Some("end"), Some("next"), map["data" := 1]))
      && ended.calls == [Procedure("next", map["data" := 1], map[])]
  {
    var env := Fresh(TestStates1(), false);
    TestStates1Facts();
    QuietStart(env, Core(None, None, map[]), map["data" := 1]);
    var started := StartSpec(env, Core(None, None, map[]), map["data" := 1]);
    QuietTransition(env, started.core, "begin", map[], Literal("waiting"));
    var begun := TransitionSpec(env, started.core, "begin", map[]);
    QuietTransition(env, begun.core, "next", map[], Proc(ToEnd));
  }

  /** With no observer for the initial state and no default one, `start` enters it and calls no user code. */
  lemma UnobservedStart(env: Env, m: Core, ctx: Ctx)
    requires !HasStateObserver(env.hooks, env.config.initial) && env.hooks.defaultHandler.None?
    requires env.config.initial in ValidStates(env.config)
    ensures var done := Core(Some(env.config.initial), None, ctx);
      StartSpec(env, m, ctx) == Step(done, Returned(done.GetState()), [])
  {
  }

  /**
   * A transition to a valid state whose own observer completes without
   * touching the context: that observer is called once, with the status of
   * the move, after the procedure if there is one, and the new snapshot is
   * returned.
   */
  lemma ObservedTransition(env: Env, m: Core, name: string, params: Params, v: TVal)
    requires Resolve(env.config, m.state, name) == Some(v)
    requires Evaluate(v, m.context, params).Returns?
    requires Evaluate(v, m.context, params).next in ValidStates(env.config)
    requires HasStateObserver(env.hooks, Evaluate(v, m.context, params).next)
    requires var reply := Evaluate(v, m.context, params);
      env.hooks.stateHandlers[reply.next].value(Status(Some(name), m.state, reply.ctx)) == Completes(reply.ctx)
    ensures var reply := Evaluate(v, m.context, params);
      var done := Core(Some(reply.next), Some(name), reply.ctx);
      var observed := StateObserved(reply.next, Status(Some(name), m.state, reply.ctx));
      TransitionSpec(env, m, name, params) ==
      Step(done, Returned(done.GetState()), (if v.Proc? then [Procedure(name, m.context, params)] else []) + [observed])
  {
    var reply := Evaluate(v, m.context, params);
    TransitionUnfolds(env, m, name, params, v, reply);
    var named := m.(context := reply.ctx, lastTransition := Some(name));
    var done := Core(Some(reply.next), Some(name), reply.ctx);
    assert SetStateSpec(env, named, reply.next) ==
      Step(done, Returned(done.GetState()), [StateObserved(reply.next, Status(Some(name), m.state, reply.ctx))]);
  }

  /** The observers the "State change handlers" test registers for `waiting` and `end`. */
  function Observed(onWaiting: StateObserver, onEnd: StateObserver): Env
  {
    Env(TestStates1(), false, Hooks(map["waiting" := Some(onWaiting), "end" := Some(onEnd)], None, None))
  }

  /**
   * "State change handlers", first part: `start`, which has no observer,
   * notifies no one, and the observer of `waiting` sees the move from
   * `start` by `begin`.
   */
  lemma StateChangeHandlers(onWaiting: StateObserver, onEnd: StateObserver)
    requires onWaiting(Status(Some("begin"), Some("start"), map[])) == Completes(map[])
    ensures var env := Observed(onWaiting, onEnd);
      var started := StartSpec(env, Core(None, None, map[]), map[]);
      var begun := TransitionSpec(env, started.core, "begin", map[]);
      && started.calls == []
      && begun.calls == [StateObserved("waiting", Status(Some("begin"), Some("start"), map[]))]
      && begun.core == Core(Some("waiting"), Some("begin"), map[])
  {
    var env := Observed(onWaiting, onEnd);
    var started := StartSpec(env, Core(None, None, map[]), map[]);
    assert started == Step(Core(Some("start"), None, map[]), Returned(Snapshot(Some("start"), None, map[])), []) by {
      assert !HasStateObserver(env.hooks, "start") && "start" in ValidStates(env.config) by {
        TestStates1Facts();
      }
      UnobservedStart(env, Core(None, None, map[]), map[]);
    }
    assert Resolve(env.config, Some("start"), "begin") == Some(Literal("waiting")) && "waiting" in ValidStates(env.config) by {
      TestStates1Facts();
    }
    assert HasStateObserver(env.hooks, "waiting") && env.hooks.stateHandlers["waiting"].value == onWaiting;
    ObservedTransition(env, started.core, "begin", map[], Literal("waiting"));
  }

  /**
   * "State change handlers", second part: from where the first part leaves
   * the machine, `next` calls the procedure and then the observer of `end`,
   * which sees the move from `waiting` by `next`.
   */
  lemma StateChangeHandlersNext(onWaiting: StateObserver, onEnd: StateObserver)
    requires onEnd(Status(Some("next"), Some("waiting"), map[])) == Completes(map[])
    ensures var env := Observed(onWaiting, onEnd);
      var ended := TransitionSpec(env, Core(Some("waiting"), Some("begin"), map[]), "next", map[]);
      && ended.calls == [Procedure("next", map[], map[]), StateObserved("end", Status(Some("next"), Some("waiting"), map[]))]
      && ended.core == Core(Some("end"), Some("next"), map[])
  {
    var env, m := Observed(onWaiting, onEnd), Core(Some("waiting"), Some("begin"), map[]);
    var observed := StateObserved("end", Status(Some("next"), Some("waiting"), map[]));
    assert Resolve(env.config, m.state, "next") == Some(Proc(ToEnd)) && "end" in ValidStates(env.config) by {
      TestStates1Facts();
    }
    assert Evaluate(Proc(ToEnd), m.context, map[]) == Returns(map[], "end");
    assert HasStateObserver(env.hooks, "end") && env.hooks.stateHandlers["end"].value == onEnd;
    ObservedTransition(env, m, "next", map[], Proc(ToEnd));
    assert [Procedure("next", map[], map[])] + [observed] == [Procedure("next", map[], map[]), observed];
  }

  /**
   * "State change handlers", last part: once a default observer is set, a
   * restart enters `start`, which has no observer of its own, so the default
   * observer is called with the state's name.
   */
  lemma DefaultObserverOnRestart(onWaiting: StateObserver, onEnd: StateObserver, onChanges: DefaultObserver)
    requires onChanges("start", Status(None, Some("end"), map[])) == Completes(map[])
    ensures var env := Env(TestStates1(), false, Hooks(map["waiting" := Some(onWaiting), "end" := Some(onEnd)], Some(onChanges), None));
      var restarted := StartSpec(env, Core(Some("end"), Some("next"), map[]), map[]);
      && restarted.calls == [DefaultObserved("start", Status(None, Some("end"), map[]))]
      && restarted.outcome == Returned(Snapshot(Some("start"), None, map[]))
  {
    var env := Env(TestStates1(), false, Hooks(map["waiting" := Some(onWaiting), "end" := Some(onEnd)], Some(onChanges), None));
    TestStates1Facts();
    SetStateProperties(env, Core(Some("end"), None, map[]), "start");
  }

  /** The states of TEST_STATES_2 and their entries. */
  lemma TestStates2Entries(cliff: (Ctx, Params) -> ProcReply)
    ensures ValidStates(TestStates2(cliff)) == ["start", "waiting", "end"]
    ensures "invalid" !in ValidStates(TestStates2(cliff))
    ensures EntryOf(TestStates2(cliff), Some("start")) == Some(Transitions([("begin", Literal("waiting"))]))
    ensures EntryOf(TestStates2(cliff), Some("waiting")) == Some(Transitions([("bounce", Literal("invalid")), ("slide", Literal("end"))]))
    ensures EntryOf(TestStates2(cliff), Some("end")) == Some(Transitions([("jumpOffACliff", Proc(cliff))]))
  {
    var states := TestStates2(cliff).states;
    assert Keys(states[2..]) == ["end"];
    assert Keys(states[1..]) == ["waiting", "end"];
    assert Lookup(states, "waiting") == Lookup(states[1..], "waiting");
    assert Lookup(states, "end") == Lookup(states[1..], "end") == Lookup(states[2..], "end");
    assert "invalid"[0] != "waiting"[0];
  }

  /** How TEST_STATES_2 resolves the names the tests use in `start`. */
  lemma TestStates2FromStart(cliff: (Ctx, Params) -> ProcReply)
    ensures Resolve(TestStates2(cliff), Some("start"), "fail").None?
    ensures Resolve(TestStates2(cliff), Some("start"), "bounce").None?
    ensures Resolve(TestStates2(cliff), Some("start"), "begin") == Some(Literal("waiting"))
  {
    TestStates2Entries(cliff);
  }

  /** How TEST_STATES_2 resolves the names the tests use in `waiting`. */
  lemma TestStates2FromWaiting(cliff: (Ctx, Params) -> ProcReply)
    ensures Resolve(TestStates2(cliff), Some("waiting"), "bounce") == Some(Literal("invalid"))
    ensures Resolve(TestStates2(cliff), Some("waiting"), "slide") == Some(Literal("end"))
  {
    TestStates2Entries(cliff);
  }

  /** How TEST_STATES_2 resolves the name the tests use in `end`. */
  lemma TestStates2FromEnd(cliff: (Ctx, Params) -> ProcReply)
    ensures Resolve(TestStates2(cliff), Some("end"), "jumpOffACliff") == Some(Proc(cliff))
  {
    TestStates2Entries(cliff);
    assert Lookup([("jumpOffACliff", Proc(cliff))], "jumpOffACliff") == Some(Proc(cliff));
  }

  /**
   * What the error scenarios need of TEST_STATES_2: its states, its initial
   * state, and how it resolves the names the tests use.
   */
  ghost predicate LikeTestStates2(config: Config, cliff: (Ctx, Params) -> ProcReply)
  {
    && config.initial == "start"
    && ValidStates(config) == ["start", "waiting", "end"]
    && "invalid" !in ValidStates(config)
    && Resolve(config, Some("start"), "fail").None?
    && Resolve(config, Some("start"), "bounce").None?
    && Resolve(config, Some("start"), "begin") == Some(Literal("waiting"))
    && Resolve(config, Some("waiting"), "bounce") == Some(Literal("invalid"))
    && Resolve(config, Some("waiting"), "slide") == Some(Literal("end"))
    && Resolve(config, Some("end"), "jumpOffACliff") == Some(Proc(cliff))
  }

  /** TEST_STATES_2 is shaped as the error scenarios need. */
  lemma TestStates2Shape(cliff: (Ctx, Params) -> ProcReply)
    ensures LikeTestStates2(TestStates2(cliff), cliff)
  {
    TestStates2Entries(cliff);
    TestStates2FromStart(cliff);
    TestStates2FromWaiting(cliff);
    TestStates2FromEnd(cliff);
  }

  /**
   * "Returned errors", first half: an unknown name before any move and a
   * candidate outside the states are each returned as a record, and neither
   * moves the machine.
   */
  lemma ReturnedErrors(config: Config, cliff: (Ctx, Params) -> ProcReply)
    requires LikeTestStates2(config, cliff)
    ensures var env := Fresh(config, false);
      var started := StartSpec(env, Core(None, None, map[]), map[]);
      var fail := TransitionSpec(env, started.core, "fail", map[]);
      var begun := TransitionSpec(env, fail.core, "begin", map[]);
      var bounce := TransitionSpec(env, begun.core, "bounce", map[]);
      && fail.outcome == ReturnedErr(ErrorRecord(InvalidTransition("fail"), Some("start"), None, map[]))
      && bounce.outcome == ReturnedErr(ErrorRecord(InvalidState("invalid"), Some("waiting"), Some("bounce"), map[]))
      && bounce.core == Core(Some("waiting"), Some("bounce"), map[])
  {
    var env := Fresh(config, false);
    QuietStart(env, Core(None, None, map[]), map[]);
    var started := StartSpec(env, Core(None, None, map[]), map[]);
    TransitionUnresolved(env, started.core, "fail", map[]);
    var fail := TransitionSpec(env, started.core, "fail", map[]);
    assert fail.core == Core(Some("start"), None, map[]);
    QuietTransition(env, fail.core, "begin", map[], Literal("waiting"));
    var begun := TransitionSpec(env, fail.core, "begin", map[]);
    assert begun.core == Core(Some("waiting"), Some("begin"), map[]);
    QuietRejection(env, begun.core, "bounce", map[], Literal("invalid"));
  }

  /**
   * The second half of both error tests: from where the first half leaves the
   * machine, `slide` reaches `end` and a procedure that raises is reported as
   * a MACHINE_ERROR record carrying the fault's string form, returned or
   * thrown as the `throws` option says.
   */
  lemma ProcedureError(env: Env, cliff: (Ctx, Params) -> ProcReply, fault: Fault)
    requires env.hooks == Hooks(map[], None, None)
    requires Resolve(env.config, Some("waiting"), "slide") == Some(Literal("end"))
    requires "end" in ValidStates(env.config)
    requires Resolve(env.config, Some("end"), "jumpOffACliff") == Some(Proc(cliff))
    requires cliff(map[], map[]) == Raises(map[], fault)
    ensures var slid := TransitionSpec(env, Core(Some("waiting"), Some("bounce"), map[]), "slide", map[]);
      var jump := TransitionSpec(env, slid.core, "jumpOffACliff", map[]);
      var rec := ErrorRecord(MachineError(ToString(fault), "jumpOffACliff"), Some("end"), Some("slide"), map[]);
      jump.outcome == if env.throws then Thrown(rec) else ReturnedErr(rec)
  {
    QuietTransition(env, Core(Some("waiting"), Some("bounce"), map[]), "slide", map[], Literal("end"));
    var slid := TransitionSpec(env, Core(Some("waiting"), Some("bounce"), map[]), "slide", map[]);
    assert slid.core == Core(Some("end"), Some("slide"), map[]);
    QuietRaise(env, slid.core, "jumpOffACliff", map[], Proc(cliff));
  }

  /**
   * "Returned errors", last part: once an error handler is registered and the
   * machine restarted, an unknown name is passed to the handler, with the
   * context, and the record is still returned.
   */
  lemma HandledError(config: Config, cliff: (Ctx, Params) -> ProcReply, handler: ErrorHandler)
    requires LikeTestStates2(config, cliff)
    ensures var env := Env(config, false, Hooks(map[], None, Some(handler)));
      var restarted := StartSpec(env, Core(Some("end"), Some("slide"), map[]), map[]);
      var bounce := TransitionSpec(env, restarted.core, "bounce", map[]);
      var rec := ErrorRecord(InvalidTransition("bounce"), Some("start"), None, map[]);
      bounce.outcome == ReturnedErr(rec) && bounce.calls == [ErrorHandled(rec, map[])]
  {
    var env := Env(config, false, Hooks(map[], None, Some(handler)));
    QuietStart(env, Core(Some("end"), Some("slide"), map[]), map[]);
    var restarted := StartSpec(env, Core(Some("end"), Some("slide"), map[]), map[]);
    TransitionUnresolved(env, restarted.core, "bounce", map[]);
  }

  /**
   * "Thrown errors", first half: under `throws` the same failures are raised;
   * the invalid candidate, raised inside the `try` of `transition`, comes out
   * as the MACHINE_ERROR that the caught StateMachineError becomes.
   */
  lemma ThrownErrors(config: Config, cliff: (Ctx, Params) -> ProcReply)
    requires LikeTestStates2(config, cliff)
    ensures var env := Fresh(config, true);
      var started := StartSpec(env, Core(None, None, map[]), map[]);
      var early := TransitionSpec(env, started.core, "bounce", map[]);
      var begun := TransitionSpec(env, early.core, "begin", map[]);
      var bounce := TransitionSpec(env, begun.core, "bounce", map[]);
      && early.outcome == Thrown(ErrorRecord(InvalidTransition("bounce"), Some("start"), None, map[]))
      && bounce.outcome == Thrown(ErrorRecord(MachineError("StateMachineError: Error: Invalid new state: " + "invalid", "bounce"), Some("waiting"), Some("bounce"), map[]))
      && bounce.core == Core(Some("waiting"), Some("bounce"), map[])
  {
    var env := Fresh(config, true);
    QuietStart(env, Core(None, None, map[]), map[]);
    var started := StartSpec(env, Core(None, None, map[]), map[]);
    TransitionUnresolved(env, started.core, "bounce", map[]);
    var early := TransitionSpec(env, started.core, "bounce", map[]);
    assert early.core == Core(Some("start"), None, map[]);
    QuietTransition(env, early.core, "begin", map[], Literal("waiting"));
    var begun := TransitionSpec(env, early.core, "begin", map[]);
    assert begun.core == Core(Some("waiting"), Some("begin"), map[]);
    QuietRejection(env, begun.core, "bounce", map[], Literal("invalid"));
  }

  /** The messages the two test suites expect of their raising procedures. */
  lemma TestFaultMessages()
    ensures ToString(ErrorObject("Error", "error")) == "Error: error"
    ensures ToString(Plain("error")) == "error"
  {
  }
}
