/**
 * The values a state machine works with: its configuration, the context it
 * threads through user code, the records it reports, and the outcome of a
 * public operation (src/state-machine.js).
 */
module Types {
  import opened Wrappers

  /** A plain JavaScript object of named fields, for the context and for transition parameters. */
  type Ctx = map<string, int>
  type Params = map<string, int>

  /**
   * A value user code raises (throws or rejects with). `err.toString()` of an
   * `Error` joins its name and message; any other value is its own text.
   */
  datatype Fault = ErrorObject(name: string, message: string) | Plain(text: string)

  /** `err.toString()`, after `Error.prototype.toString`. */
  function ToString(f: Fault): (r: string)
    ensures f.ErrorObject? && f.name != "" && f.message != "" ==> r == f.name + ": " + f.message
    ensures f.Plain? ==> r == f.text
  {
    match f
    case ErrorObject(name, message) =>
      if name == "" then message else if message == "" then name else name + ": " + message
    case Plain(text) => text
  }

  /** What a transition procedure does: return a next state or raise, possibly after changing the context. */
  datatype ProcReply = Returns(ctx: Ctx, next: string) | Raises(ctx: Ctx, fault: Fault)

  /** What an observer does: complete or raise, possibly after changing the context. */
  datatype ObsReply = Completes(ctx: Ctx) | Fails(ctx: Ctx, fault: Fault)
  {
    function Ctx(): Ctx { match this case Completes(c) => c case Fails(c, _) => c }
  }

  /** A transition value: a literal next-state name or a procedure `(context, params) -> state`. */
  datatype TVal = Literal(state: string) | Proc(run: (Ctx, Params) -> ProcReply)

  /**
   * The entry of a state in `config.states`: `null`, a bare state name, or an
   * object mapping transition names to transition values (in key order).
   */
  datatype Entry = Terminal | Bare(next: string) | Transitions(table: seq<(string, TVal)>)

  /** `{ name, initial, states }`; `states` lists the keys in their `Object.keys` order. */
  datatype Config = Config(name: string, initial: string, states: seq<(string, Entry)>)

  /** The keys of an object, in order. */
  function Keys<X>(kvs: seq<(string, X)>): (ks: seq<string>)
    ensures |ks| == |kvs|
    ensures forall i :: 0 <= i < |kvs| ==> ks[i] == kvs[i].0
  {
    if kvs == [] then [] else [kvs[0].0] + Keys(kvs[1..])
  }

  /** `obj[key]` on an object with the given own keys: the value stored under the first occurrence of `key`. */
  function Lookup<X>(kvs: seq<(string, X)>, key: string): (r: Option<X>)
    ensures r.None? <==> key !in Keys(kvs)
    ensures r.Some? ==> exists i :: 0 <= i < |kvs| && kvs[i].0 == key && kvs[i].1 == r.value
  {
    if kvs == [] then None
    else if kvs[0].0 == key then Some(kvs[0].1)
    else Lookup(kvs[1..], key)
  }

  /** `validStates`: the keys of `config.states`. */
  function ValidStates(config: Config): (states: seq<string>)
  {
    Keys(config.states)
  }

  /** The status record handed to observers. */
  datatype Status = Status(lastTransition: Option<string>, previousState: Option<string>, context: Ctx)

  /** `getState()`: `{ currentState, lastTransition, context }`. */
  datatype Snapshot = Snapshot(currentState: Option<string>, lastTransition: Option<string>, context: Ctx)

  /**
   * The three machine error kinds, with their kind-specific fields; the
   * constructor stands for the record's `error` field (INVALID_TRANSITION,
   * INVALID_STATE, MACHINE_ERROR).
   */
  datatype ErrorKind =
    | InvalidTransition(transition: string)
    | InvalidState(state: string)
    | MachineError(message: string, transition: string)

  /**
   * The `message` of a record: the INVALID_STATE text ends with the rejected
   * state and the INVALID_TRANSITION text carries the transition name right
   * after its 27-character prefix. That text also interpolates `this.state`,
   * which is "undefined" unless some state declares a transition named
   * `state` (whose shortcut function then sits there); the model keeps the
   * "undefined" reading.
   */
  function Message(kind: ErrorKind): (m: string)
    ensures kind.InvalidState? ==> |m| >= |kind.state| && m[|m| - |kind.state|..] == kind.state
    ensures kind.InvalidTransition? ==> |m| >= 27 + |kind.transition| && m[27..27 + |kind.transition|] == kind.transition
    ensures kind.MachineError? ==> m == kind.message
  {
    match kind
    case InvalidTransition(t) => "Error: Invalid transition: " + t + ", current state: undefined"
    case InvalidState(s) => "Error: Invalid new state: " + s
    case MachineError(m, _) => m
  }

  /**
   * The error record: the kind-specific fields, `currentState` and `context`,
   * and `lastTransition` only when the machine's last transition is truthy.
   */
  datatype ErrorRecord = ErrorRecord(kind: ErrorKind, currentState: Option<string>, lastTransition: Option<string>, context: Ctx)

  /** The exception `throws: true` raises: a `StateMachineError` carrying the record. */
  function Raise(rec: ErrorRecord): (f: Fault)
    ensures rec.kind.InvalidState? ==> ToString(f) == "StateMachineError: Error: Invalid new state: " + rec.kind.state
  {
    ErrorObject("StateMachineError", Message(rec.kind))
  }

  /**
   * How a call into user code is recorded: a transition procedure, a
   * state-specific observer, the default observer, or the error handler,
   * each with the arguments it was given.
   */
  datatype Call =
    | Procedure(transition: string, context: Ctx, params: Params)
    | StateObserved(state: string, status: Status)
    | DefaultObserved(state: string, status: Status)
    | ErrorHandled(record: ErrorRecord, context: Ctx)

  /**
   * The outcome of a public operation: a snapshot or an error record returned
   * as a value, an error record raised as a `StateMachineError`, or a fault
   * of user code that propagates to the caller.
   */
  datatype Outcome =
    | Returned(snapshot: Snapshot)
    | ReturnedErr(record: ErrorRecord)
    | Thrown(record: ErrorRecord)
    | Raised(fault: Fault)
  {
    /** True when the outcome reports a machine error of the given kind, returned or thrown. */
    predicate Reports(kind: ErrorKind)
    {
      (ReturnedErr? || Thrown?) && record.kind == kind
    }
  }

  type StateObserver = Status -> ObsReply
  type DefaultObserver = (string, Status) -> ObsReply
  type ErrorHandler = (ErrorRecord, Ctx) -> ()
}
