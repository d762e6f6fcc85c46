# state-machine, modelled in Dafny

A configuration-driven finite-state machine for JavaScript. A configuration
names an initial state and, for each state, its transitions: a transition
value is either the name of the next state or a procedure that computes it
from the machine's context and the call's parameters. The machine:

- installs shortcuts at construction: an `on<State>` accessor per state that
  registers an observer for it, and one method per transition name;
- moves between states with `transition(name, params)` and `start(context)`;
- notifies exactly one observer when it enters a state: the state's own,
  else the default one, else none;
- reports every failure as an error record with one of three kinds:
  INVALID_TRANSITION, INVALID_STATE or MACHINE_ERROR. The record is either
  returned (after the error handler, if one is registered, has seen it) or,
  under the `throws` option, raised as a `StateMachineError`.

`AsyncStateMachine` is the same machine with `transition`, `start` and
`_setState` rewritten around `await`.

The project is organised as follows:

- `wrappers.dfy`: `Option`.
- `utils.dfy` (`Utils`): `toMethodName`, with ASCII case mapping.
- `types.dfy` (`Types`): the configuration, faults and their `toString`,
  error records, snapshots, outcomes, and the log of calls into user code.
- `binder.dfy` (`Binder`): `_initializeStates`. The shortcuts it installs are
  a dispatch table from property name to `OnState(state)` or `Run(transition)`.
  It is built by two loops, proved equal to a recursive definition whose
  properties are lemmas.
- `engine.dfy` (`Engine`): pure step specifications. For each of
  `_handleError`, `_setState`, `start`, and the `try`/`catch` of `transition`,
  a function gives:
  - the new `_state`, `_lastTransition` and `_context`;
  - the outcome (returned snapshot, returned record, thrown record, or a
    fault of user code that propagates);
  - the calls made into user code, with their arguments.

  The properties the library promises are lemmas about these functions.
- `state_machine.dfy` (`Machine`): the class `StateMachine`. Its fields are
  the instance's properties. Each method is proved to change them exactly as
  the step specification says, and to log its calls into user code.
- `async_state_machine.dfy` (`AsyncMachine`): the class `AsyncStateMachine`.
  It wraps a `StateMachine` created with the asynchronous prototype, and its
  inherited members are used unchanged. Each override is proved against the
  same step specification as its synchronous counterpart. So, for user code
  that completes or fails without a promise, and for async user code read as
  settled (see below), the two classes make the same moves, return the same
  outcomes, and call user code in the same order.
- `scenarios.dfy` (`Scenarios`): the scenarios of the two test suites: the
  shortcut tables of the instantiation and naming-collision tests, stated over
  `Bindings`, and the runs of the other tests, stated over the step
  specifications.

User code appears as Dafny function values:

- transition procedures `(context, params) -> Returns(context', next) | Raises(context', fault)`;
- observers `status -> Completes(context') | Fails(context', fault)`.

An `await` is taken to settle at once, so a rejected promise is a raise at
the same point. `Raises` and `Fails` therefore stand for a synchronous throw
in `StateMachine` and for a throw or a rejection in `AsyncStateMachine`; a
callback that returns a promise is treated differently by the two classes
(see "## Left out"). Contexts and parameters are maps from names to integers.

The INVALID_TRANSITION message interpolates `this.state`
(src/state-machine.js:132). The machine never sets that property itself, so
the message ends in "current state: undefined", unless some state declares a
transition named `state`. Such a transition is bound as the shortcut
`this.state`, and the message then shows the shortcut function (see
"## Left out").

## Model

| member | source | states |
|---|---|---|
| Utils.ToUpper | src/utils.js:9 | upper-cases exactly the ASCII lower-case letters and leaves every other character alone |
| Utils.ToLower | src/utils.js:9 | lower-cases exactly the ASCII upper-case letters and leaves every other character alone |
| Utils.LowerCase | src/utils.js:9 | `toLowerCase` keeps the length and lower-cases each character in place |
| Utils.LowerCaseKeepsLower | src/utils.js:9 | a string with no upper-case letter is its own lower case |
| Utils.ToMethodName | src/utils.js:5-10 | a non-string or the empty string comes back unchanged; a non-empty string `s` becomes a string of length `|s|+2` that starts with "on", then upper-case `s[0]`, then `s[1..]` lower-cased |
| Utils.UpperLowerAgree | src/utils.js:9 | two characters have the same upper case exactly when they have the same lower case |
| Utils.AccessorNameIgnoresCase | src/utils.js:5-10 | two state names get the same accessor name if and only if they differ only in letter case, so "Red" and "red" collide |
| Utils.AccessorStartsWithOn | src/utils.js:9 | the accessor of a non-empty name starts with "on" |
| Utils.NeverOnStateChanges | src/utils.js:9 | no state name yields the accessor "onStateChanges", because everything after the third character of an accessor is lower case |
| Utils.ToMethodNameExamples | tests/utils.spec.js:17-24 | 'success' gives 'onSuccess', 'a' gives 'onA', and '', 2 and undefined come back unchanged |
| Types.ToString | src/state-machine.js:29-30 | `err.toString()` of an Error with a name and a message is "name: message"; any other raised value is its own text |
| Types.Keys | src/state-machine.js:69 | `Object.keys` lists one key per entry, in order |
| Types.Lookup | src/state-machine.js:97-103 | `obj[key]` is absent exactly when `key` is not an own key; when present it is the value stored under `key` |
| Types.Raise | src/state-machine.js:161-163 | the raised StateMachineError of an INVALID_STATE record prints as "StateMachineError: Error: Invalid new state: " + state |
| Types.Message | src/state-machine.js:129-151 | the INVALID_STATE message ends with the rejected state; the INVALID_TRANSITION message carries the transition name right after its 27-character prefix; a MACHINE_ERROR message is the text it was given |
| Binder.Taken | src/state-machine.js:90 | every API method name is already truthy on the instance when the transition shortcuts are bound |
| Binder.ApiMethods | src/state-machine.js:71-72 | `transition` and `start` are API methods of either class |
| Binder.ApiMethodsArePublic | src/state-machine.js:71-72 | every API method is a public name: not "constructor", not empty, and not starting with '_' |
| Binder.BindStates | src/state-machine.js:75-80 | after the state loop, a key is bound exactly when it was bound before or is the accessor of some state and not an API method; each new binding is `OnState` of a state whose accessor is that key |
| Binder.BindStatesLastWins | src/state-machine.js:75-80 | the accessor of a state that no later state shares is bound to that state |
| Binder.BindNames | src/state-machine.js:89-93 | a transition name is bound exactly when it was bound before or is not already taken; an existing binding is never replaced, and a new one runs the transition of the same name |
| Binder.TransitionNames | src/state-machine.js:84-89 | a name is listed exactly when some entry's transition object declares it; `null` and bare-name entries declare none |
| Binder.BindEntries | src/state-machine.js:84-94 | the outer loop binds exactly the declared names not already taken, keeps earlier bindings, and binds each new name to its own transition |
| Binder.BindDeclared | src/state-machine.js:89-93 | the inner `forEach` builds the same table as `BindNames` |
| Binder.InitializeStates | src/state-machine.js:67-95 | the two passes of `_initializeStates` build exactly the table `Bindings` defines |
| Binder.BindAccessors | src/state-machine.js:75-80 | the first `forEach` builds the same table as `BindStates` from an empty table |
| Binder.Bindings | src/state-machine.js:67-95 | no key of the shortcut table is an API method, and every entry is a state accessor or runs the transition of its own name; `BindingsDomain` says exactly which keys are bound |
| Binder.BindingsDomain | src/state-machine.js:67-95 | a key is bound if and only if it is a non-reserved state accessor or a declared transition name not already taken; an accessor is always bound to an `OnState` shortcut for a state with that accessor, and any other key runs the transition of its own name |
| Binder.ApiMethodsNeverBound | src/state-machine.js:71-80 | no API method of the instance's own class is ever shadowed by a shortcut |
| Binder.StartNeverBound | src/state-machine.js:71-72 | a transition or state that would install `start` never replaces `start()`, in either class |
| Binder.LastStateWins | src/state-machine.js:75-80 | of several states with the same accessor, the last one owns it |
| Binder.AsyncBindsEveryAccessor | src/state-machine.js:71-80 | in the async class (reserved names "transition" and "start" only), every state's accessor is installed and registers observers for a state equal to it up to letter case (except as under Binder.BindStates in "## Left out") |
| Binder.AsyncStateShadowsOnError | src/state-machine.js:71-80 | a state named "error" installs an `onError` shortcut that shadows the registration method in the async class, but not in the sync class |
| Engine.Resolve | src/state-machine.js:97-103 | a transition is found only when the current state's entry is a transition object holding a truthy value under the name, and then it is that value; no state, a `null` entry or a bare-name entry resolves nothing |
| Engine.Evaluate | src/state-machine.js:25 | a literal transition's candidate is the literal, with the context unchanged |
| Engine.MakeRecord | src/state-machine.js:154-159 | the record carries the kind's fields, the current state and the context, and carries `lastTransition` if and only if it is truthy |
| Engine.HandleErrorSpec | src/state-machine.js:153-170 | the machine is unchanged; the record is thrown exactly when `throws` is set, and then no handler is called; otherwise it is returned, and the handler, if registered, is called once with the record and the context |
| Engine.SetStateSpec | src/state-machine.js:105-127 | keeps the last transition, and a returned snapshot is the machine's new state; `SetStateProperties` states the rest |
| Engine.StartSpec | src/state-machine.js:58-65 | clears the last transition, and a returned snapshot is the machine's new state; `StartProperties` states the rest |
| Engine.ApplySpec | src/state-machine.js:27-31 | never lets a fault out and keeps the last transition; `ApplyProperties` states the rest |
| Engine.TransitionSpec | src/state-machine.js:18-32 | never lets a fault out; `TransitionNeverRaises`, `TransitionUnresolved`, `TransitionCallsProcedureFirst`, `TransitionProcedureRaises`, `TransitionApplies` and `TransitionObserverRaises` state the rest |
| Engine.ApplyProperties | src/state-machine.js:27-31 | applying a candidate never lets a fault out and keeps the last transition. An invalid candidate leaves the machine as it is and is returned as INVALID_STATE, or under `throws` comes back as the MACHINE_ERROR the re-caught StateMachineError becomes. A valid candidate is entered, and an observer fault becomes a MACHINE_ERROR over the entered state |
| Engine.TransitionNeverRaises | src/state-machine.js:18-32 | `transition` never lets a fault out, and a snapshot it returns is the machine's new state |
| Engine.TransitionUnresolved | src/state-machine.js:19-22 | an unresolved name is INVALID_TRANSITION carrying the name; the machine is unchanged and only the error handler is called |
| Engine.ApplyCallsNoProcedure | src/state-machine.js:105-127 | applying a candidate calls observers and the error handler only |
| Engine.TransitionCallsProcedureFirst | src/state-machine.js:24-28 | a procedure is called exactly once, first, with the context as it was and the parameters; a literal transition calls no procedure |
| Engine.TransitionProcedureRaises | src/state-machine.js:24-31 | a procedure that raises gives a MACHINE_ERROR with the fault's `toString()` and the name; the state and last transition stay, and the context keeps what the procedure did |
| Engine.TransitionApplies | src/state-machine.js:25-28 | a computed candidate records the name as the last transition whatever follows; a valid candidate is entered; an invalid one leaves the state and is reported as INVALID_STATE, or under `throws` as MACHINE_ERROR, with the name in the record |
| Engine.SetStateProperties | src/state-machine.js:105-127 | an invalid candidate is INVALID_STATE and changes nothing. A valid one is entered with the last transition kept, and exactly one observer is notified with the status of the move: the state's own, else the default one, else none. The observer's fault propagates, and its context is kept |
| Engine.StartProperties | src/state-machine.js:58-65 | `start(ctx)` clears the last transition and enters the initial state with context `ctx`. An invalid initial state is INVALID_STATE with no last transition in the record. A returned snapshot shows the initial state. Exactly one observer is called with the status of the move: the initial state's own, else the default one, else none (only the error handler may then be called). The called observer's context is kept, and its fault propagates out of `start` |
| Engine.TransitionObserverRaises | src/state-machine.js:24-31 | an observer that raises after a valid candidate was entered is reported as a MACHINE_ERROR whose record shows the new state and the transition's name |
| Machine.StateMachine.constructor | src/state-machine.js:7-16 | a new machine has no state, no last transition, no callbacks, the valid states of its configuration, and the shortcut table of `_initializeStates` |
| Machine.StateMachine.GetState | src/state-machine.js:34-41 | the snapshot is the current state, last transition and context |
| Machine.StateMachine.OnStateChanges | src/state-machine.js:43-46 | replaces the default observer, changes nothing else, and returns the machine |
| Machine.StateMachine.OnState | src/state-machine.js:48-51 | replaces the observer of one state only, changes nothing else, and returns the machine |
| Machine.StateMachine.OnError | src/state-machine.js:53-56 | replaces the error handler, changes nothing else, and returns the machine |
| Machine.StateMachine.GetTransition | src/state-machine.js:97-103 | nothing resolves before the first start; a resolved value is truthy and is declared under the name in the current state's transition object |
| Machine.StateMachine.HandleError | src/state-machine.js:153-170 | does what `Engine.HandleErrorSpec` specifies and logs the handler's call |
| Machine.StateMachine.SetState | src/state-machine.js:105-127 | moves the machine, returns and logs exactly as `Engine.SetStateSpec` specifies, and keeps the last transition |
| Machine.StateMachine.Start | src/state-machine.js:58-65 | moves the machine, returns and logs exactly as `Engine.StartSpec` specifies |
| Machine.StateMachine.Apply | src/state-machine.js:27-31 | after recording the name, moves the machine, returns and logs exactly as `Engine.ApplySpec` specifies |
| Machine.StateMachine.Transition | src/state-machine.js:18-32 | moves the machine, returns and logs exactly as `Engine.TransitionSpec` specifies |
| Machine.StateMachine.Attempt | src/state-machine.js:24-31 | for a resolved name, moves the machine, returns and logs exactly as `Engine.TransitionSpec` specifies |
| AsyncMachine.AsyncStateMachine.constructor | src/state-machine.js:7-16 | the inherited constructor, run for the async class, builds the shortcut table with the async reserved names |
| AsyncMachine.AsyncStateMachine.ProcessTransition | src/async-state-machine.js:35-42 | a literal settles as itself with the context unchanged; a procedure is called with the context and the parameters, and what it settles with is the candidate |
| AsyncMachine.AsyncStateMachine.SetState | src/async-state-machine.js:44-66 | makes the same move as the synchronous `_setState`, as `Engine.SetStateSpec` specifies |
| AsyncMachine.AsyncStateMachine.Start | src/async-state-machine.js:25-33 | makes the same move as the synchronous `start`, as `Engine.StartSpec` specifies; an observer's rejection propagates |
| AsyncMachine.AsyncStateMachine.Apply | src/async-state-machine.js:16-21 | makes the same move as the synchronous rest of the `try`, as `Engine.ApplySpec` specifies |
| AsyncMachine.AsyncStateMachine.Transition | src/async-state-machine.js:7-23 | makes the same move as the synchronous `transition`, as `Engine.TransitionSpec` specifies |
| AsyncMachine.AsyncStateMachine.Attempt | src/async-state-machine.js:13-22 | for a resolved name, makes the same move as the synchronous `try`/`catch` |
| Scenarios.TestStates1Facts | tests/state-machine.spec.js:11-24 | TEST_STATES_1 has the states start, waiting and end; `begin` leads from start to waiting, and `next` from waiting runs the procedure |
| Scenarios.AccessorOfLowerName | src/utils.js:5-10 | a name whose first letter is lower case and whose rest has no upper-case letter gets "on", its first letter upper-cased, then the rest unchanged |
| Scenarios.InstantiationBegin | tests/state-machine.spec.js:52 | TEST_STATES_1's transition `begin` gets a shortcut |
| Scenarios.InstantiationNext | tests/state-machine.spec.js:53 | TEST_STATES_1's transition `next` gets a shortcut |
| Scenarios.InstantiationStart | tests/state-machine.spec.js:54 | the state `start` gets the observer-registering accessor `onStart` |
| Scenarios.InstantiationWaiting | tests/state-machine.spec.js:55 | the state `waiting` gets the accessor `onWaiting` |
| Scenarios.InstantiationEnd | tests/state-machine.spec.js:56 | the state `end` gets the accessor `onEnd` |
| Scenarios.NamingCollisions | tests/state-machine.spec.js:59-73 | the transition `start` does not replace `start()`; the state `state` gets no accessor because `onState` is reserved; `start()` enters `begin`, calls no user code, and never runs the `state.start` procedure |
| Scenarios.QuietStart | src/state-machine.js:58-65 | with no observer, `start` enters a valid initial state and returns it, calling no user code |
| Scenarios.QuietTransition | src/state-machine.js:18-32 | with no observer, a transition to a valid candidate moves there and returns the new snapshot; it calls only the procedure, if there is one |
| Scenarios.QuietRejection | src/state-machine.js:105-108 | with no callback, an invalid candidate records the name, keeps the state, and is returned as INVALID_STATE or thrown as MACHINE_ERROR |
| Scenarios.QuietRaise | src/state-machine.js:29-31 | with no callback, a raising procedure is returned or thrown as a MACHINE_ERROR, and only the context changes |
| Scenarios.BasicTransitions | tests/state-machine.spec.js:75-86 | starting with `{data}` returns 'start'; `begin` returns 'waiting'; `next` calls the procedure once and returns 'end' |
| Scenarios.ObservedTransition | src/state-machine.js:113-126 | a transition into a state with its own observer calls that observer once, after the procedure, with the previous state, the transition and the context |
| Scenarios.UnobservedStart | src/state-machine.js:58-65 | with no observer for the initial state and no default observer, `start` enters a valid initial state, returns it and calls no user code |
| Scenarios.StateChangeHandlers | tests/state-machine.spec.js:88-99 | `start` notifies no one; `begin` enters 'waiting', and its observer alone is called, seeing previous state 'start' and transition 'begin' |
| Scenarios.StateChangeHandlersNext | tests/state-machine.spec.js:93-100 | `next` then calls the procedure and afterwards the observer of 'end', which sees previous state 'waiting' and transition 'next', and enters 'end' |
| Scenarios.DefaultObserverOnRestart | tests/state-machine.spec.js:102-106 | after `onStateChanges`, a restart calls the default observer with 'start' |
| Scenarios.TestStates2Entries | tests/state-machine.spec.js:26-41 | TEST_STATES_2 has the states start, waiting and end, not 'invalid', and the listed transition objects |
| Scenarios.TestStates2FromStart | tests/state-machine.spec.js:26-32 | from 'start', 'fail' and 'bounce' resolve to nothing and 'begin' leads to 'waiting' |
| Scenarios.TestStates2FromWaiting | tests/state-machine.spec.js:33-36 | from 'waiting', 'bounce' leads to 'invalid' and 'slide' to 'end' |
| Scenarios.TestStates2FromEnd | tests/state-machine.spec.js:37-39 | from 'end', 'jumpOffACliff' runs the procedure |
| Scenarios.TestStates2Shape | tests/state-machine.spec.js:26-41 | TEST_STATES_2 has every fact the error scenarios rely on |
| Scenarios.ReturnedErrors | tests/state-machine.spec.js:110-119 | 'fail' is returned as INVALID_TRANSITION, and after `begin`, `bounce` is returned as INVALID_STATE for 'invalid' with the transition recorded |
| Scenarios.ProcedureError | tests/state-machine.spec.js:121-124 | after `slide`, a raising `jumpOffACliff` is a MACHINE_ERROR with the fault's text ('Error: error', or 'error' in the async suite), returned or thrown as `throws` says |
| Scenarios.HandledError | tests/state-machine.spec.js:126-130 | with an error handler, a restarted machine reports `bounce` as INVALID_TRANSITION, calls the handler with that record and the context, and returns the record |
| Scenarios.ThrownErrors | tests/state-machine.spec.js:132-138 | under `throws`, `bounce` before `begin` throws INVALID_TRANSITION, and after `begin` it throws the MACHINE_ERROR carrying "StateMachineError: Error: Invalid new state: invalid" |
| Scenarios.TestFaultMessages | tests/state-machine.spec.js:7-9 | `new Error('error')` prints as 'Error: error', and a rejection with 'error' prints as 'error' |

## Left out

- Concurrency: several in-flight async calls on one instance, and promise scheduling, are not modelled; each `await` settles at once. In JavaScript, the async "Rejections" test (tests/async-state-machine.spec.js:106-116) does not await `begin()` and `slide()`. Their continuations have not run when `bounce()` and `jumpOffACliff()` are called, so those two reject as INVALID_TRANSITION from 'start' and from 'waiting'. The model runs each call to completion in order instead, so in it the second `bounce()` rejects with the MACHINE_ERROR of the invalid state and `jumpOffACliff()` with the procedure's.
- Promise-returning callbacks in the synchronous class: `StateMachine` never awaits. A procedure that returns a promise makes that promise the candidate state (src/state-machine.js:25). It fails `validStates.includes` (line 106) and comes out as INVALID_STATE with the message "Error: Invalid new state: [object Promise]". An observer's rejected promise is dropped (lines 120-124), and the move returns normally. `AsyncStateMachine` awaits both (src/async-state-machine.js:14, 40, 60, 62). There a procedure's resolved value is the candidate, and a rejection, such as `mockRejectedValue('error')`, is caught as a MACHINE_ERROR carrying 'error' (lines 13-22). The model has one reply type for both classes: `Returns`/`Completes` is the settled value, and `Raises`/`Fails` is a synchronous throw, or in the async class a throw or a rejection. So the synchronous class's handling of a promise, as a candidate or as an ignored rejection, is not modelled.
- Re-entrant user code: observers and procedures are functions of their arguments and cannot call back into the machine, as the example scripts' observers do.
- The error handler: it is called and logged, but its return value is ignored, and the model does not let it raise or change the context. A truthy non-function handler, which would raise a TypeError, is not modelled.
- JavaScript values:
  - Contexts and parameters are maps from names to integers, so `{ data: true }` is written `{ data: 1 }`.
  - Contexts are values, not shared objects. In JavaScript every snapshot from `getState`, `start` and `transition`, every observer status, every error record and the handler's second argument hold the same object as `_context` (src/state-machine.js:35-40, 114-118, 154-159, 166). An earlier snapshot therefore shows later changes that procedures and observers make to that object. In the model each of them is a copy of the context at the moment it was made.
  - A procedure's candidate is always a string.
  - A transition value is a state name or a function; other truthy values are not modelled.
  - `params` left out of a call is the empty map.
- Property lookup: `states[state]`, `transitions[name]` and `this._stateChangeHandlers[this._state]` (src/state-machine.js:100-102, 113; src/async-state-machine.js:52) see only own keys. Hits on `Object.prototype` (`transitions['toString']`) and indexing into a bare-name entry are not modelled. In particular, in JavaScript a state named "toString" or "constructor" finds an `Object.prototype` function as its observer: the source calls it and never calls the default observer. Entering a state named "valueOf" or "hasOwnProperty" raises a TypeError there. The model calls the default observer for these states as for any state without an observer of its own. Before the first `start`, `states[state]` looks up the key "undefined", so in JavaScript a state named "undefined" has its transitions resolved then; in the model nothing resolves before the first start. `Object.keys` order is the listed order, without the integer-keys-first rule. Keys are distinct in a JavaScript object; where a list repeats one, the first occurrence is found.
- Before the first `start` the context is the empty map where JavaScript has `undefined`. Before then, `getState()` (src/state-machine.js:34-41) returns `context: undefined`, and an error record and the error handler's second argument (lines 158, 166) get `undefined`; in the model each of them gets the empty map.
- Calling a shortcut: the table records which operation a shortcut runs (`onState` with the state bound, or `transition` with the name bound). Calling it is calling `OnState` or `Transition` with those arguments.
- Binder.BindStates: in the async class, a state whose accessor is `onState` (a state named "state", in any letter case) shadows the registration method. States after it then bind their accessors through that shortcut rather than through `onState`. The table still records them as `OnState` of their own state.
- Types.ToString: `Error.prototype.toString` of an error with an empty name or an empty message is defined in the body but not stated in the contract. `toString` of odd rejection values (`undefined`, `null`, objects) is not modelled; a fault is an error object or a string.
- Types.Raise: the contract states the printed form only for INVALID_STATE records, the one case the re-caught MACHINE_ERROR depends on. StateMachineError's other fields (src/state-machine-error.js) are not part of this model.
- Engine.Evaluate: the contract states only the literal case; a procedure's result is whatever the user function returns.
- `toMethodName` maps case for ASCII letters only; other characters are left as they are.
- `isObject` and `isFunction` (src/utils.js:3-4) are the datatype tags of `Entry`, `TVal` and the `Option` of each callback. src/index.js, the example scripts and the tests are not part of this model; the scenarios restate the tests' expectations.
- Options other than `throws` are not read by the machine and are not modelled.
- Transitions named after the machine's own fields: line 90 binds any declared transition name that is falsy on the instance when shortcuts are bound. Besides the names `Taken` lists, that includes `state` and the fields a fresh instance has not yet set or has set to `null`: `_errorHandler`, `_defaultStateChangeHandler`, `_state`, `_context` and `_lastTransition`. The shortcut table records such a binding, but the machine's fields are separate in the model. In JavaScript the shortcut is the field until the machine overwrites it. `_handleError` then calls a transition named `_errorHandler` as the error handler (line 166), and `_setState` calls one named `_defaultStateChangeHandler` as the default observer (line 123). A transition named `_state` would be read as the current state, and one named `state` is what the INVALID_TRANSITION message interpolates (line 132).
- Types.Message: the INVALID_TRANSITION text always ends in "current state: undefined". It does not show the shortcut function that a transition named `state` would put in `this.state`.
