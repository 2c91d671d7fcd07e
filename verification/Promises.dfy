/** Promises over the event loop. Handlers and user callbacks run from one first-in-first-out queue
    (`Callbacks.LatestGoesLast`: every call uses delay 0); what user code does is an arbitrary script. */
module Promises {
  import opened Options

  /** An R value: ordinary data, a character value, an error condition, the cycle error, or a promise. */
  datatype Value = Data(d: int) | Text(d: int) | Condition(d: int) | CycleError | Ref(p: nat)

  datatype Status = Pending | Fulfilled(value: Value) | Rejected(value: Value)

  /** What the report callback does: nothing, print, or fail because the reason has no message. */
  datatype Notice = Silent | Printed | Failed

  predicate IsCondition(v: Value) {
    v.Condition? || v.CycleError?
  }

  /** Settled, and with what promises can settle with. */
  predicate Final(status: Status) {
    !status.Pending? && !status.value.Ref? && !(status.Rejected? && status.value.Text?)
  }

  /** `reject` makes an error of a character reason. */
  function Wrapped(reason: Value): Value {
    if reason.Text? then Condition(reason.d) else reason
  }

  /** What `stop` signals: a condition as it is, or an error made of anything else. */
  function Signalled(v: Value): Value {
    match v
    case Condition(_) => v
    case CycleError => v
    case Data(d) => Condition(d)
    case Text(d) => Condition(d)
    case Ref(_) => Condition(0)
  }

  /** What a `then` registers: user functions, or the resolvers of a promise that adopts this one. */
  datatype Action = User(onFulfilled: Option<nat>, onRejected: Option<nat>) | Adopt(target: nat)

  /** `child` is the promise that the `then` call returns. */
  datatype Handler = Handler(action: Action, child: nat)

  /** The past of a promise, for the statements about it; no step reads it. */
  datatype Past = Past(
    thens: seq<Handler>,      // every registration, in order
    ran: seq<Handler>,        // those whose handler has run, in order
    flushed: bool,            // the callback queued at settlement has started
    early: bool,              // there was a registration before that
    adopting: Option<nat>,    // the child of the `then` that the adoption of another promise made
    origin: Option<(nat, nat)>, // the promise and position of the `then` that made this one
    reported: Option<Notice>) // what the report callback did, once it has run

  datatype Promise = Promise(
    status: Status,
    called: bool,             // resolve or reject has been called
    derived: bool,            // made by `then`, which keeps its resolvers to itself
    handlers: seq<Handler>,
    handled: bool,            // rejectionHandled
    past: Past)

  datatype Task = Flush(p: nat) | Late(p: nat, h: Handler) | Report(p: nat) | Run(k: nat)

  datatype Active = Idle | Flushing(p: nat, rest: seq<Handler>)

  datatype Sys = Sys(promises: seq<Promise>, tasks: seq<Task>, active: Active)

  datatype Op =
    | New
    | Resolve(p: nat, value: Value)
    | Reject(p: nat, value: Value)
    | Then(p: nat, onFulfilled: Option<nat>, onRejected: Option<nat>)
    | Later(k: nat)

  datatype Result = Returns(value: Value) | Throws(value: Value)

  datatype Body = Body(ops: seq<Op>, result: Result)

  /** The body of each user function, given its argument. */
  type Script = (nat, Value) -> Body

  function Fresh(derived: bool, origin: Option<(nat, nat)>): Promise {
    Promise(Pending, false, derived, [], false, Past([], [], false, false, None, origin, None))
  }

  function With(s: Sys, p: nat, promise: Promise): Sys
    requires p < |s.promises|
  {
    s.(promises := s.promises[p := promise])
  }

  function Queue(s: Sys, t: Task): Sys {
    s.(tasks := s.tasks + [t])
  }

  /** Code can only name promises that exist. */
  function Known(s: Sys, v: Value): Value {
    if v.Ref? && v.p >= |s.promises| then Data(0) else v
  }

  // ----- The operations -----

  /** Settles with a value that is no promise, and queues the callback that runs the handlers. */
  function Settle(s: Sys, p: nat, status: Status): Sys
    requires p < |s.promises|
  {
    Queue(With(s, p, s.promises[p].(status := status)), Flush(p))
  }

  /** `then`: a new promise, and a handler kept until settlement or queued at once after it. */
  function AddThen(s: Sys, q: nat, action: Action): Sys
    requires q < |s.promises|
  {
    var child := |s.promises|;
    var h := Handler(action, child);
    var on := s.promises[q];
    var made := s.promises[q := on.(handlers := if on.status.Pending? then on.handlers + [h] else on.handlers,
                                    past := on.past.(thens := on.past.thens + [h]))]
                + [Fresh(true, Some((q, |on.past.thens|)))];
    s.(promises := made, tasks := if on.status.Pending? then s.tasks else s.tasks + [Late(q, h)])
  }

  /** Makes `p` follow `q`. */
  function Follow(s: Sys, p: nat, q: nat): Sys
    requires p < |s.promises| && q < |s.promises|
  {
    AddThen(With(s, p, s.promises[p].(past := s.promises[p].past.(adopting := Some(|s.promises|)))), q, Adopt(p))
  }

  function DoReject(s: Sys, p: nat, reason: Value): Sys
    requires p < |s.promises| && Known(s, reason) == reason && !reason.Text?
  {
    if reason.Ref? then Follow(s, p, reason.p) else Settle(s, p, Rejected(reason))
  }

  function DoResolve(s: Sys, p: nat, value: Value): Sys
    requires p < |s.promises| && Known(s, value) == value
  {
    if value == Ref(p) then DoReject(s, p, CycleError)
    else if value.Ref? then Follow(s, p, value.p)
    else Settle(s, p, Fulfilled(value))
  }

  function Call(s: Sys, p: nat): Sys
    requires p < |s.promises|
  {
    With(s, p, s.promises[p].(called := true))
  }

  /** One thing that user code does; the resolvers of a promise made by `then` are out of its reach. */
  function Do(s: Sys, op: Op): Sys {
    match op
    case New => s.(promises := s.promises + [Fresh(false, None)])
    case Resolve(p, v) =>
      if p >= |s.promises| || s.promises[p].derived || s.promises[p].called then s
      else DoResolve(Call(s, p), p, Known(s, v))
    case Reject(p, v) =>
      if p >= |s.promises| || s.promises[p].derived || s.promises[p].called then s
      else DoReject(Call(s, p), p, Wrapped(Known(s, v)))
    case Then(p, onFulfilled, onRejected) =>
      if p >= |s.promises| then s else AddThen(s, p, User(onFulfilled, onRejected))
    case Later(k) => Queue(s, Run(k))
  }

  function DoAll(s: Sys, ops: seq<Op>): (n: Sys)
    ensures |s.promises| <= |n.promises|
    decreases |ops|
  {
    if ops == [] then s else DoAll(Do(s, ops[0]), ops[1..])
  }

  /** Resolves `p` with what the user function makes of `argument`, or rejects it with what it throws. */
  function Deliver(s: Sys, script: Script, p: nat, k: nat, argument: Value): Sys
    requires p < |s.promises|
  {
    var body := script(k, argument);
    var n := DoAll(s, body.ops);
    match body.result
    case Returns(v) => DoResolve(n, p, Known(n, v))
    case Throws(v) => DoReject(n, p, Signalled(v))
  }

  /** Notes that a handler of the settled `q` runs. */
  function Note(s: Sys, q: nat, h: Handler): Sys
    requires q < |s.promises|
  {
    var on := s.promises[q];
    With(s, q, on.(handled := on.handled || on.status.Rejected?, past := on.past.(ran := on.past.ran + [h])))
  }

  /** Runs a handler of the settled `q`: the child's guard goes up before anything is evaluated, and a
      child that was resolved already would keep the handler from running at all. */
  function RunNoted(s: Sys, script: Script, q: nat, h: Handler): Sys
    requires q < |s.promises| && Final(s.promises[q].status)
    requires SensibleHandler(s, h)
  {
    var v, fulfilled := s.promises[q].status.value, s.promises[q].status.Fulfilled?;
    if s.promises[h.child].called then s
    else
      var s1 := Call(s, h.child);
      match h.action
      case Adopt(p) =>
        var s2 := if fulfilled then DoResolve(s1, p, v) else DoReject(s1, p, v);
        // The resolvers return no promise.
        DoResolve(s2, h.child, Data(0))
      case User(onFulfilled, onRejected) =>
        if fulfilled then
          if onFulfilled.Some? then Deliver(s1, script, h.child, onFulfilled.value, v) else DoResolve(s1, h.child, v)
        else
          if onRejected.Some? then Deliver(s1, script, h.child, onRejected.value, v)
          else DoReject(s1, h.child, Wrapped(v))
  }

  function RunHandler(s: Sys, script: Script, q: nat, h: Handler): Sys
    requires q < |s.promises| && Final(s.promises[q].status)
    requires SensibleHandler(s, h)
  {
    RunNoted(Note(s, q, h), script, q, h)
  }

  // ----- Steps -----

  datatype Move =
    | Act(op: Op)   // code outside any callback
    | Pop           // the loop takes the next callback
    | Next          // the flush callback goes on to its next handler
    | EndFlush      // ... and, past the last, clears the list

  predicate Possible(s: Sys, m: Move) {
    match m
    case Act(_) => s.active.Idle?
    case Pop => s.active.Idle? && s.tasks != []
    case Next => s.active.Flushing? && s.active.rest != []
    case EndFlush => s.active.Flushing? && s.active.rest == []
  }

  /** The promise and handler that a move may run make sense. */
  predicate Sensible(s: Sys) {
    && (forall i :: 0 <= i < |s.tasks| ==> SensibleTask(s, s.tasks[i]))
    && (s.active.Flushing? ==>
          s.active.p < |s.promises| && Final(s.promises[s.active.p].status) &&
          forall i :: 0 <= i < |s.active.rest| ==> SensibleHandler(s, s.active.rest[i]))
  }

  predicate SensibleHandler(s: Sys, h: Handler) {
    h.child < |s.promises| && (h.action.Adopt? ==> h.action.target < |s.promises|)
  }

  predicate SensibleTask(s: Sys, t: Task) {
    match t
    case Flush(p) => p < |s.promises|
    case Late(p, h) =>
      p < |s.promises| && Final(s.promises[p].status) && SensibleHandler(s, h)
    case Report(p) => p < |s.promises| && !s.promises[p].status.Pending?
    case Run(_) => true
  }

  /** The report: `conditionMessage` is asked only of an unhandled reason, and only conditions have one. */
  function NoticeOf(on: Promise): Notice
    requires !on.status.Pending?
  {
    if on.handled then Silent else if IsCondition(on.status.value) then Printed else Failed
  }

  function StartFlush(s: Sys, p: nat): Sys
    requires p < |s.promises|
  {
    var on := s.promises[p];
    var noted := on.(past := on.past.(flushed := true, early := on.past.thens != []));
    With(s, p, noted).(active := Flushing(p, on.handlers))
  }

  function FinishFlush(s: Sys, p: nat): Sys
    requires p < |s.promises|
  {
    var cleared := With(s, p, s.promises[p].(handlers := [])).(active := Idle);
    if s.promises[p].status.Rejected? then Queue(cleared, Report(p)) else cleared
  }

  function RunTask(s: Sys, script: Script, t: Task): Sys
    requires SensibleTask(s, t)
  {
    match t
    case Flush(p) => StartFlush(s, p)
    case Late(p, h) => RunHandler(s, script, p, h)
    case Report(p) => With(s, p, s.promises[p].(past := s.promises[p].past.(reported := Some(NoticeOf(s.promises[p])))))
    case Run(k) => DoAll(s, script(k, Data(0)).ops)
  }

  function Moved(s: Sys, script: Script, m: Move): Sys
    requires Possible(s, m) && Sensible(s)
  {
    match m
    case Act(op) => Do(s, op)
    case Pop => RunTask(s.(tasks := s.tasks[1..]), script, s.tasks[0])
    case Next =>
      RunHandler(s.(active := Flushing(s.active.p, s.active.rest[1..])), script, s.active.p, s.active.rest[0])
    case EndFlush => FinishFlush(s, s.active.p)
  }
}
