/** Promises as they run: objects whose fields the methods assign, sharing one queue of callbacks.
    Every method is tied to the functions on values. */
module PromiseRuntime {
  import opened Options
  import opened Promises
  import opened PromiseTheorems
  import opened PromiseOutcomes
  import opened Adoption

  class PromiseObject {
    var status: Status
    var called: bool
    const derived: bool
    var handlers: seq<Handler>
    var handled: bool
    ghost var past: Past

    constructor (derived: bool, ghost origin: Option<(nat, nat)>)
      ensures View() == Fresh(derived, origin)
    {
      this.derived := derived;
      status, called, handlers, handled := Pending, false, [], false;
      past := Past([], [], false, false, None, origin, None);
    }

    ghost function View(): Promise
      reads this
    {
      Promise(status, called, derived, handlers, handled, past)
    }
  }

  ghost function Views(objects: seq<PromiseObject>): seq<Promise>
    reads objects
  {
    seq(|objects|, i requires 0 <= i < |objects| reads objects => objects[i].View())
  }

  /** The flush callback from any point on: its remaining handlers in turn, then the end. */
  ghost function Flushed(s: Sys, script: Script): (n: Sys)
    requires Inv(s) && s.active.Flushing?
    ensures Inv(n)
    decreases |s.active.rest|
  {
    if s.active.rest == [] then
      EndKeeps(s);
      FinishFlush(s, s.active.p)
    else
      NextMoveKeeps(s, script);
      QueueMovesOn(s, script, Next);
      Flushed(Moved(s, script, Next), script)
  }

  /** One callback of the loop, to its end. */
  ghost function Turned(s: Sys, script: Script): (n: Sys)
    requires Inv(s) && s.active.Idle? && s.tasks != []
    ensures Inv(n)
  {
    PopKeeps(s, script);
    QueueMovesOn(s, script, Pop);
    var n := Moved(s, script, Pop);
    if n.active.Flushing? then Flushed(n, script) else n
  }

  class Realm {
    var promises: seq<PromiseObject>
    var tasks: seq<Task>
    ghost var active: Active

    ghost predicate Valid()
      reads this
    {
      forall i, j :: 0 <= i < j < |promises| ==> promises[i] != promises[j]
    }

    ghost function View(): Sys
      reads this, promises
    {
      Sys(Views(promises), tasks, active)
    }

    constructor ()
      ensures Valid() && View() == Start()
    {
      promises, tasks, active := [], [], Idle;
    }

    /** Calls `later` with no delay. */
    method Enqueue(t: Task)
      requires Valid()
      modifies this`tasks
      ensures Valid() && View() == Queue(old(View()), t)
    {
      tasks := tasks + [t];
    }

    method SettleFinal(p: nat, status: Status)
      requires Valid() && p < |promises|
      modifies this`tasks, promises[p]
      ensures Valid() && View() == Settle(old(View()), p, status)
    {
      promises[p].status := status;
      tasks := tasks + [Flush(p)];
    }

    method Register(q: nat, action: Action)
      requires Valid() && q < |promises|
      modifies this`tasks, this`promises, promises[q]
      ensures Valid() && View() == AddThen(old(View()), q, action)
      ensures old(promises) <= promises && forall i :: |old(promises)| <= i < |promises| ==> fresh(promises[i])
    {
      ghost var s := View();
      var on, child := promises[q], |promises|;
      var h := Handler(action, child);
      var promise2 := new PromiseObject(true, Some((q, |on.past.thens|)));
      if on.status.Pending? {
        on.handlers := on.handlers + [h];
      } else {
        tasks := tasks + [Late(q, h)];
      }
      on.past := on.past.(thens := on.past.thens + [h]);
      promises := promises + [promise2];
      assert View().promises == AddThen(s, q, action).promises;
    }

    method FollowOther(p: nat, q: nat)
      requires Valid() && p < |promises| && q < |promises|
      modifies this`tasks, this`promises, promises[p], promises[q]
      ensures Valid() && View() == Follow(old(View()), p, q)
      ensures old(promises) <= promises && forall i :: |old(promises)| <= i < |promises| ==> fresh(promises[i])
    {
      ghost var s := View();
      promises[p].past := promises[p].past.(adopting := Some(|promises|));
      assert View().promises == Noted(s, p).promises;
      Register(q, Adopt(p));
    }

    method RejectWith(p: nat, reason: Value)
      requires Valid() && p < |promises| && Known(View(), reason) == reason && !reason.Text?
      modifies this`tasks, this`promises, promises
      ensures Valid() && View() == DoReject(old(View()), p, reason)
      ensures old(promises) <= promises && forall i :: |old(promises)| <= i < |promises| ==> fresh(promises[i])
    {
      if reason.Ref? {
        FollowOther(p, reason.p);
      } else {
        SettleFinal(p, Rejected(reason));
      }
    }

    method ResolveWith(p: nat, value: Value)
      requires Valid() && p < |promises| && Known(View(), value) == value
      modifies this`tasks, this`promises, promises
      ensures Valid() && View() == DoResolve(old(View()), p, value)
      ensures old(promises) <= promises && forall i :: |old(promises)| <= i < |promises| ==> fresh(promises[i])
    {
      if value == Ref(p) {
        RejectWith(p, CycleError);
      } else if value.Ref? {
        FollowOther(p, value.p);
      } else {
        SettleFinal(p, Fulfilled(value));
      }
    }

    method Guard(p: nat)
      requires Valid() && p < |promises|
      modifies promises[p]
      ensures Valid() && View() == Call(old(View()), p)
    {
      promises[p].called := true;
      assert View().promises == Call(old(View()), p).promises;
    }

    /** One thing that user code does. */
    method Perform(op: Op)
      requires Valid()
      modifies this`tasks, this`promises, promises
      ensures Valid() && View() == Do(old(View()), op)
      ensures old(promises) <= promises && forall i :: |old(promises)| <= i < |promises| ==> fresh(promises[i])
    {
      match op
      case New =>
        var made := new PromiseObject(false, None);
        promises := promises + [made];
        assert View().promises == Do(old(View()), op).promises;
      case Resolve(p, v) =>
        if p < |promises| && !promises[p].derived && !promises[p].called {
          Guard(p);
          ResolveWith(p, if v.Ref? && v.p >= |promises| then Data(0) else v);
        }
      case Reject(p, v) =>
        if p < |promises| && !promises[p].derived && !promises[p].called {
          Guard(p);
          RejectWith(p, Wrapped(if v.Ref? && v.p >= |promises| then Data(0) else v));
        }
      case Then(p, onFulfilled, onRejected) =>
        if p < |promises| {
          Register(p, User(onFulfilled, onRejected));
        }
      case Later(k) => Enqueue(Run(k));
    }

    method PerformAll(ops: seq<Op>)
      requires Valid()
      modifies this`tasks, this`promises, promises
      ensures Valid() && View() == DoAll(old(View()), ops)
      ensures old(promises) <= promises && forall i :: |old(promises)| <= i < |promises| ==> fresh(promises[i])
    {
      var i := 0;
      ghost var s := View();
      while i < |ops|
        invariant 0 <= i <= |ops| && Valid()
        invariant old(promises) <= promises && forall i :: |old(promises)| <= i < |promises| ==> fresh(promises[i])
        invariant DoAll(View(), ops[i..]) == DoAll(s, ops)
      {
        assert ops[i..][1..] == ops[i + 1..];
        Perform(ops[i]);
        i := i + 1;
      }
    }

    method Delivered(script: Script, p: nat, k: nat, argument: Value)
      requires Valid() && p < |promises|
      modifies this`tasks, this`promises, promises
      ensures Valid() && View() == Deliver(old(View()), script, p, k, argument)
      ensures old(promises) <= promises && forall i :: |old(promises)| <= i < |promises| ==> fresh(promises[i])
    {
      var body := script(k, argument);
      PerformAll(body.ops);
      match body.result
      case Returns(v) => ResolveWith(p, if v.Ref? && v.p >= |promises| then Data(0) else v);
      case Throws(v) => RejectWith(p, Signalled(v));
    }

    /** A handler of the settled `q`. */
    method Handle(script: Script, q: nat, h: Handler)
      requires Valid() && q < |promises| && Final(promises[q].status)
      requires SensibleHandler(View(), h)
      modifies this`tasks, this`promises, promises
      ensures Valid() && View() == RunHandler(old(View()), script, q, h)
      ensures old(promises) <= promises && forall i :: |old(promises)| <= i < |promises| ==> fresh(promises[i])
    {
      hide RunNoted, Note;
      NoteRun(q, h);
      HandleNoted(script, q, h);
    }

    method NoteRun(q: nat, h: Handler)
      requires Valid() && q < |promises|
      modifies promises[q]
      ensures Valid() && View() == Note(old(View()), q, h) && promises[q].status == old(promises[q].status)
    {
      ghost var s := View();
      promises[q].past := promises[q].past.(ran := promises[q].past.ran + [h]);
      if promises[q].status.Rejected? {
        promises[q].handled := true;
      }
      assert View().promises == Note(s, q, h).promises;
    }

    method HandleNoted(script: Script, q: nat, h: Handler)
      requires Valid() && q < |promises| && Final(promises[q].status)
      requires SensibleHandler(View(), h)
      modifies this`tasks, this`promises, promises
      ensures Valid() && View() == RunNoted(old(View()), script, q, h)
      ensures old(promises) <= promises && forall i :: |old(promises)| <= i < |promises| ==> fresh(promises[i])
    {
      hide DoResolve, DoReject, Deliver;
      var status := promises[q].status;
      if !promises[h.child].called {
        Guard(h.child);
        match h.action
        case Adopt(p) =>
          if status.Fulfilled? {
            ResolveWith(p, status.value);
          } else {
            RejectWith(p, status.value);
          }
          ResolveWith(h.child, Data(0));
        case User(onFulfilled, onRejected) =>
          if status.Fulfilled? {
            if onFulfilled.Some? {
              Delivered(script, h.child, onFulfilled.value, status.value);
            } else {
              ResolveWith(h.child, status.value);
            }
          } else if onRejected.Some? {
            Delivered(script, h.child, onRejected.value, status.value);
          } else {
            RejectWith(h.child, Wrapped(status.value));
          }
      }
    }

    /** The flush goes on to its next handler. */
    method HandleNext(script: Script, p: nat, h: Handler, ghost rest: seq<Handler>)
      requires Valid() && Inv(View()) && active == Flushing(p, [h] + rest)
      modifies this, promises
      ensures Valid() && View() == Moved(old(View()), script, Next) && Inv(View()) && active == Flushing(p, rest)
      ensures old(promises) <= promises && forall i :: |old(promises)| <= i < |promises| ==> fresh(promises[i])
    {
      ghost var s := View();
      assert ([h] + rest)[0] == h && ([h] + rest)[1..] == rest;
      assert SensibleHandler(s, h);
      NextMoveKeeps(s, script);
      QueueMovesOn(s, script, Next);
      active := Flushing(p, rest);
      assert View() == s.(active := Flushing(p, rest));
      hide Inv, RunHandler;
      Handle(script, p, h);
    }

    /** ... and past the last one clears the list, and after a rejection queues the report. */
    method EndOfFlush(p: nat)
      requires Valid() && p < |promises| && active == Flushing(p, [])
      modifies this`active, this`tasks, promises[p]
      ensures Valid() && View() == FinishFlush(old(View()), p)
    {
      promises[p].handlers := [];
      active := Idle;
      if promises[p].status.Rejected? {
        Enqueue(Report(p));
      }
      assert View().promises == FinishFlush(old(View()), p).promises;
    }

    method BeginFlush(p: nat) returns (handlers: seq<Handler>)
      requires Valid() && p < |promises|
      modifies this`active, promises[p]
      ensures Valid() && View() == StartFlush(old(View()), p) && active == Flushing(p, handlers)
    {
      ghost var s := StartFlush(View(), p);
      handlers := promises[p].handlers;
      promises[p].past := promises[p].past.(flushed := true, early := promises[p].past.thens != []);
      active := Flushing(p, handlers);
      assert View().promises == s.promises;
    }

    /** The callback queued at settlement. */
    method RunFlush(script: Script, p: nat)
      requires Valid() && p < |promises| && active.Idle? && Inv(StartFlush(View(), p))
      modifies this, promises
      ensures Valid() && View() == Flushed(StartFlush(old(View()), p), script)
      ensures old(promises) <= promises && forall i :: |old(promises)| <= i < |promises| ==> fresh(promises[i])
    {
      hide Inv, Moved, StartFlush, FinishFlush;
      ghost var s := StartFlush(View(), p);
      var handlers := BeginFlush(p);
      var i := 0;
      while i < |handlers|
        invariant 0 <= i <= |handlers| && Valid() && p < |promises|
        invariant old(promises) <= promises && forall i :: |old(promises)| <= i < |promises| ==> fresh(promises[i])
        invariant Inv(View()) && active == Flushing(p, handlers[i..])
        invariant Flushed(View(), script) == Flushed(s, script)
      {
        assert handlers[i..] == [handlers[i]] + handlers[i + 1..];
        HandleNext(script, p, handlers[i], handlers[i + 1..]);
        i := i + 1;
      }
      EndOfFlush(p);
    }

    /** The loop takes its next callback and runs it to the end. */
    method Turn(script: Script)
      requires Valid() && Inv(View()) && active.Idle? && tasks != []
      modifies this, promises
      ensures Valid() && View() == Turned(old(View()), script)
      ensures old(promises) <= promises && forall i :: |old(promises)| <= i < |promises| ==> fresh(promises[i])
    {
      ghost var s := View();
      var t := tasks[0];
      assert SensibleTask(s, t);
      PopKeeps(s, script);
      QueueMovesOn(s, script, Pop);
      tasks := tasks[1..];
      assert View() == s.(tasks := s.tasks[1..]);
      hide Inv, RunHandler, DoAll, StartFlush, Flushed;
      match t
      case Flush(p) => RunFlush(script, p);
      case Late(p, h) => Handle(script, p, h);
      case Report(p) =>
        ghost var notice := NoticeOf(promises[p].View());
        promises[p].past := promises[p].past.(reported := Some(notice));
        assert View().promises == RunTask(s.(tasks := s.tasks[1..]), script, t).promises;
      case Run(k) => PerformAll(script(k, Data(0)).ops);
    }
  }
}
