/**
 * The accessor binder of src/state-machine.js (`_initializeStates`): at
 * construction the machine installs one `on<State>` shortcut per state and
 * one shortcut per transition name. Here the installed shortcuts are a
 * dispatch table from property name to the operation the shortcut runs.
 */
module Binder {
  import opened Utils
  import opened Types

  /**
   * A shortcut: `OnState(s)` is `onState` with `s` bound, `Run(t)` is
   * `transition` with `t` bound.
   */
  datatype Shortcut = OnState(state: string) | Run(transition: string)

  /** The class the instance was created as, i.e. `Object.getPrototypeOf(this)`. */
  datatype Proto = SyncProto | AsyncProto

  /**
   * `apiMethods`: the own property names of the immediate prototype that do
   * not start with '_' and are not "constructor".
   */
  function ApiMethods(p: Proto): (names: set<string>)
    ensures "transition" in names && "start" in names
  {
    match p
    case SyncProto => {"transition", "getState", "onStateChanges", "onState", "onError", "start"}
    case AsyncProto => {"transition", "start"}
  }

  /**
   * The API methods are public own methods of the prototype: none is
   * "constructor" and none starts with '_'.
   */
  lemma ApiMethodsArePublic(p: Proto, n: string)
    requires n in ApiMethods(p)
    ensures n != "constructor" && n != [] && n[0] != '_'
  {
  }

  /** Every property name of `Object.prototype`. */
  function ObjectPrototypeNames(): set<string>
  {
    {"constructor", "__defineGetter__", "__defineSetter__", "hasOwnProperty", "__lookupGetter__",
     "__lookupSetter__", "isPrototypeOf", "propertyIsEnumerable", "toString", "valueOf",
     "__proto__", "toLocaleString"}
  }

  /** Every own property name of `StateMachine.prototype`. */
  function StateMachinePrototypeNames(): set<string>
  {
    {"constructor", "transition", "getState", "onStateChanges", "onState", "onError", "start",
     "_initializeStates", "_getTransition", "_setState", "_transitionError", "_stateError",
     "_machineError", "_handleError"}
  }

  /**
   * The names under which `this[name]` is already truthy when the transition
   * shortcuts are bound, before any shortcut: the prototype chain and the own
   * fields the constructor set to objects.
   */
  function Taken(p: Proto): (names: set<string>)
    ensures ApiMethods(p) <= names
  {
    var own := {"_options", "_config", "_stateChangeHandlers", "validStates"};
    var chain := StateMachinePrototypeNames() + ObjectPrototypeNames();
    match p
    case SyncProto => chain + own
    case AsyncProto => chain + {"_processTransition"} + own
  }

  /**
   * The state loop of the binder: for each state in order, install its
   * accessor unless the accessor's name is an API method. A later state with
   * the same accessor replaces an earlier one.
   */
  function BindStates(p: Proto, states: seq<string>, table: map<string, Shortcut>): (r: map<string, Shortcut>)
    ensures forall k :: k in r <==>
      k in table || (k !in ApiMethods(p) && exists i :: 0 <= i < |states| && AccessorName(states[i]) == k)
    ensures forall k :: k in r ==>
      (k in table && r[k] == table[k]) || (r[k].OnState? && r[k].state in states && AccessorName(r[k].state) == k)
    decreases |states|
  {
    if states == [] then table
    else
      var name := AccessorName(states[0]);
      var next := if name in ApiMethods(p) then table else table[name := OnState(states[0])];
      var r := BindStates(p, states[1..], next);
      assert forall i :: 1 <= i < |states| ==> states[1..][i - 1] == states[i];
      r
  }

  /** The accessor of a state that no later state shares ends up bound to that state. */
  lemma {:induction false} BindStatesLastWins(p: Proto, states: seq<string>, table: map<string, Shortcut>, i: nat)
    requires i < |states|
    requires AccessorName(states[i]) !in ApiMethods(p)
    requires forall j :: i < j < |states| ==> AccessorName(states[j]) != AccessorName(states[i])
    ensures BindStates(p, states, table)[AccessorName(states[i])] == OnState(states[i])
  {
    var name := AccessorName(states[0]);
    var next := if name in ApiMethods(p) then table else table[name := OnState(states[0])];
    if i == 0 {
      var r := BindStates(p, states[1..], next);
      assert forall j :: 0 <= j < |states[1..]| ==> states[1..][j] == states[j + 1];
    } else {
      BindStatesLastWins(p, states[1..], next, i - 1);
    }
  }

  /**
   * The inner transition loop: install `Run(t)` under `t` unless `t` is an
   * API method or `this[t]` is already truthy. An earlier shortcut is never
   * replaced.
   */
  function BindNames(p: Proto, names: seq<string>, table: map<string, Shortcut>): (r: map<string, Shortcut>)
    ensures forall k :: k in r <==> k in table || (k in names && k !in Taken(p))
    ensures forall k :: k in table ==> r[k] == table[k]
    ensures forall k :: k in r && k !in table ==> r[k] == Run(k)
    decreases |names|
  {
    if names == [] then table
    else
      var t := names[0];
      var next := if t in ApiMethods(p) || t in Taken(p) || t in table then table else table[t := Run(t)];
      BindNames(p, names[1..], next)
  }

  /** The transition names an entry declares: the keys of a transition object, none for `null` or a bare name. */
  function Declared(e: Entry): (names: seq<string>)
  {
    match e
    case Transitions(ts) => Keys(ts)
    case _ => []
  }

  /** Every transition name the configuration declares, state by state. */
  function TransitionNames(entries: seq<(string, Entry)>): (names: seq<string>)
    ensures forall k :: k in names <==> exists i :: 0 <= i < |entries| && k in Declared(entries[i].1)
  {
    if entries == [] then []
    else
      var rest := TransitionNames(entries[1..]);
      assert forall i :: 1 <= i < |entries| ==> entries[1..][i - 1] == entries[i];
      Declared(entries[0].1) + rest
  }

  /** The outer transition loop: bind the declared names of each entry in turn. */
  function BindEntries(p: Proto, entries: seq<(string, Entry)>, table: map<string, Shortcut>): (r: map<string, Shortcut>)
    ensures forall k :: k in r <==> k in table || (k in TransitionNames(entries) && k !in Taken(p))
    ensures forall k :: k in table ==> r[k] == table[k]
    ensures forall k :: k in r && k !in table ==> r[k] == Run(k)
    decreases |entries|
  {
    if entries == [] then table
    else BindEntries(p, entries[1..], BindNames(p, Declared(entries[0].1), table))
  }

  /** The table `_initializeStates` builds: state accessors first, then transition shortcuts. */
  function Bindings(p: Proto, config: Config): (r: map<string, Shortcut>)
    ensures forall k :: k in r ==> k !in ApiMethods(p)
    ensures forall k :: k in r ==> r[k].OnState? || r[k] == Run(k)
  {
    BindEntries(p, config.states, BindStates(p, ValidStates(config), map[]))
  }

  /** The callback of the inner `forEach`: bind the transition names of one entry. */
  method BindDeclared(p: Proto, names: seq<string>, table0: map<string, Shortcut>) returns (table: map<string, Shortcut>)
    ensures table == BindNames(p, names, table0)
  {
    table := table0;
    var k := 0;
    while k < |names|
      invariant 0 <= k <= |names|
      invariant BindNames(p, names[k..], table) == BindNames(p, names, table0)
    {
      var t := names[k];
      if t !in ApiMethods(p) && !(t in Taken(p) || t in table) {
        table := table[t := Run(t)];
      }
      assert names[k..][1..] == names[k + 1..];
      k := k + 1;
    }
  }

  /** The first `forEach` of `_initializeStates`: one accessor per state, unless it names an API method. */
  method BindAccessors(p: Proto, states: seq<string>) returns (table: map<string, Shortcut>)
    ensures table == BindStates(p, states, map[])
  {
    table := map[];
    var i := 0;
    while i < |states|
      invariant 0 <= i <= |states|
      invariant BindStates(p, states[i..], table) == BindStates(p, states, map[])
    {
      var name := AccessorName(states[i]);
      if name !in ApiMethods(p) {
        table := table[name := OnState(states[i])];
      }
      assert states[i..][1..] == states[i + 1..];
      i := i + 1;
    }
  }

  /** `_initializeStates`, with its two `forEach` passes as loops. */
  method InitializeStates(p: Proto, config: Config) returns (table: map<string, Shortcut>)
    ensures table == Bindings(p, config)
  {
    table := BindAccessors(p, ValidStates(config));
    var j := 0;
    while j < |config.states|
      invariant 0 <= j <= |config.states|
      invariant BindEntries(p, config.states[j..], table) == Bindings(p, config)
    {
      assert config.states[j..][1..] == config.states[j + 1..];
      match config.states[j].1 {
        case Transitions(ts) =>
          table := BindDeclared(p, Keys(ts), table);
        case _ =>
      }
      j := j + 1;
    }
  }

  /**
   * What the table holds: a key is bound exactly when it is the accessor of
   * some state and not an API method, or a declared transition name that was
   * not already taken; an accessor always holds its state shortcut, and any
   * other key runs the transition of the same name.
   */
  lemma BindingsDomain(p: Proto, config: Config, k: string)
    ensures k in Bindings(p, config) <==>
      (k !in ApiMethods(p) && exists s :: s in ValidStates(config) && AccessorName(s) == k) ||
      (k !in Taken(p) && k in TransitionNames(config.states))
    ensures k in Bindings(p, config) ==>
      var b := Bindings(p, config)[k];
      (b.OnState? && b.state in ValidStates(config) && AccessorName(b.state) == k) || b == Run(k)
    ensures (k !in ApiMethods(p) && exists s :: s in ValidStates(config) && AccessorName(s) == k) ==>
      k in Bindings(p, config) && Bindings(p, config)[k].OnState?
  {
    var states := ValidStates(config);
    var s0 := BindStates(p, states, map[]);
    if k !in ApiMethods(p) && exists s :: s in states && AccessorName(s) == k {
      var s :| s in states && AccessorName(s) == k;
      var i :| 0 <= i < |states| && states[i] == s;
      assert k in s0;
    }
  }

  /** No API method is ever shadowed on the machine's own prototype: the registration calls stay reachable. */
  lemma ApiMethodsNeverBound(p: Proto, config: Config)
    ensures forall k :: k in ApiMethods(p) ==> k !in Bindings(p, config)
  {
  }

  /** A transition named "start" never replaces `start()`, in either class. */
  lemma StartNeverBound(p: Proto, config: Config)
    ensures "start" !in Bindings(p, config)
  {
    ApiMethodsNeverBound(p, config);
  }

  /**
   * Of several states with the same accessor name, the last one wins: its
   * accessor registers observers for it.
   */
  lemma LastStateWins(p: Proto, config: Config, i: nat)
    requires i < |config.states|
    requires AccessorName(config.states[i].0) !in ApiMethods(p)
    requires forall j :: i < j < |config.states| ==> AccessorName(config.states[j].0) != AccessorName(config.states[i].0)
    ensures Bindings(p, config)[AccessorName(config.states[i].0)] == OnState(config.states[i].0)
  {
    var states := ValidStates(config);
    assert states[i] == config.states[i].0;
    BindStatesLastWins(p, states, map[], i);
  }

  /**
   * In the async class only "transition" and "start" are reserved, so every
   * state gets its own accessor, and the one installed is for a state whose
   * name equals it up to letter case.
   */
  lemma {:induction false} AsyncBindsEveryAccessor(config: Config, s: string)
    requires s in ValidStates(config)
    ensures AccessorName(s) in Bindings(AsyncProto, config)
    ensures var b := Bindings(AsyncProto, config)[AccessorName(s)];
      b.OnState? && EqualIgnoringCase(b.state, s)
  {
    var k := AccessorName(s);
    if s != [] {
      AccessorStartsWithOn(s);
      assert k[0] == 'o';
      assert k != "transition" by { assert "transition"[0] == 't'; }
      assert k != "start" by { assert "start"[0] == 's'; }
    }
    BindingsDomain(AsyncProto, config, k);
    var b := Bindings(AsyncProto, config)[k];
    AccessorNameIgnoresCase(b.state, s);
  }

  /**
   * A state named "error" shadows the registration method `onError` in the
   * async class, while in the sync class `onError` stays the registration method.
   */
  lemma AsyncStateShadowsOnError(config: Config)
    requires "error" in ValidStates(config)
    ensures "onError" in Bindings(AsyncProto, config) && Bindings(AsyncProto, config)["onError"].OnState?
    ensures "onError" !in Bindings(SyncProto, config)
  {
    assert AccessorName("error") == "onError" by {
      assert LowerCase("rror") == "rror";
    }
    AsyncBindsEveryAccessor(config, "error");
    ApiMethodsNeverBound(SyncProto, config);
  }
}
