/** What follows for every run of the promise machinery: settlement, handlers, reports, and the promises that
    `then` and `finally` return. */
module PromiseOutcomes {
  import opened Options
  import opened Promises
  import opened PromiseTheorems

  // ----- Runs -----

  lemma NothingIsKept()
    ensures Inv(Sys([], [], Idle))
  {
  }

  /** No promise yet. */
  ghost function Start(): (s: Sys)
    ensures Inv(s)
  {
    NothingIsKept();
    Sys([], [], Idle)
  }

  ghost predicate CanRun(s: Sys, script: Script, moves: seq<Move>)
    requires Inv(s)
    decreases |moves|
  {
    moves == [] ||
    (Possible(s, moves[0]) &&
        (MoveKeepsInv(s, script, moves[0]); CanRun(Moved(s, script, moves[0]), script, moves[1..])))
  }

  ghost function After(s: Sys, script: Script, moves: seq<Move>): (n: Sys)
    requires Inv(s) && CanRun(s, script, moves)
    ensures Inv(n)
    decreases |moves|
  {
    if moves == [] then s
    else
      MoveKeepsInv(s, script, moves[0]);
      After(Moved(s, script, moves[0]), script, moves[1..])
  }

  // ----- What a move does to a promise -----

  /** The handler a move runs, and the promise it belongs to. */
  function Runs(s: Sys, m: Move): Option<(nat, Handler)>
    requires Possible(s, m)
  {
    if m.Next? then Some((s.active.p, s.active.rest[0]))
    else if m.Pop? && s.tasks[0].Late? then Some((s.tasks[0].p, s.tasks[0].h))
    else None
  }

  /** Outcomes stay, registrations and runs are only added, and a run handler is added as it runs. */
  predicate Onward(s: Sys, m: Move, a: Promise, b: Promise, q: nat)
    requires Possible(s, m)
  {
    && (!a.status.Pending? ==> b.status == a.status)
    && a.past.thens <= b.past.thens
    && b.past.ran == a.past.ran + (if Runs(s, m).Some? && Runs(s, m).value.0 == q then [Runs(s, m).value.1] else [])
    && b.past.flushed == (a.past.flushed || (m.Pop? && s.tasks[0] == Flush(q)))
    && (a.past.flushed ==> b.past.early == a.past.early)
    && (m.Pop? && s.tasks[0] == Flush(q) ==> b.past.early == (a.past.thens != []))
    && (a.past.reported.Some? ==> b.past.reported == a.past.reported)
    && (!a.status.Pending? ==> b.handlers == a.handlers || (m.EndFlush? && s.active.p == q && b.handlers == []))
  }

  lemma NotedMovesOn(s: Sys, noted: Sys, n: Sys, m: Move, q: nat)
    requires Possible(s, m) && Runs(s, m).Some? && q < |s.promises| == |noted.promises| <= |n.promises|
    requires Runs(s, m).value.0 < |s.promises| &&
        noted.promises == Note(s, Runs(s, m).value.0, Runs(s, m).value.1).promises
    requires Grows(noted, n)
    ensures Onward(s, m, s.promises[q], n.promises[q], q)
  {
    assert Older(noted.promises[q], n.promises[q]);
  }

  lemma MovesOn(s: Sys, script: Script, m: Move, q: nat)
    requires Inv(s) && Possible(s, m) && q < |s.promises|
    ensures q < |Moved(s, script, m).promises|
    ensures Onward(s, m, s.promises[q], Moved(s, script, m).promises[q], q)
  {
    hide RunNoted, Tracked, Children, Do, DoAll;
    assert s.promises[q].past.ran + [] == s.promises[q].past.ran;
    match m
    case Act(op) => DoKeeps(s, op); assert Older(s.promises[q], Moved(s, script, m).promises[q]);
    case Pop =>
      assert SensibleTask(s, s.tasks[0]);
      if s.tasks[0].Late? {
        LateMovesOn(s, script, q);
      } else if s.tasks[0].Run? {
        RunMovesOn(s, script, q);
      } else {
        MarkIsCounted(s);
      }
    case Next => NextMovesOn(s, script, q);
    case EndFlush =>
  }

  lemma LateMovesOn(s: Sys, script: Script, q: nat)
    requires Inv(s) && Possible(s, Pop) && q < |s.promises| && s.tasks[0].Late?
    ensures q < |Moved(s, script, Pop).promises|
    ensures Onward(s, Pop, s.promises[q], Moved(s, script, Pop).promises[q], q)
  {
    hide RunNoted, Tracked, Children, Onward;
    var t := s.tasks[0];
    assert SensibleTask(s, t);
    var noted := Note(s.(tasks := s.tasks[1..]), t.p, t.h);
    LateKeeps(s);
    RunNotedKeeps(noted, script, t.p, t.h);
    NotedMovesOn(s, noted, Moved(s, script, Pop), Pop, q);
  }

  lemma NextMovesOn(s: Sys, script: Script, q: nat)
    requires Inv(s) && Possible(s, Next) && q < |s.promises|
    ensures q < |Moved(s, script, Next).promises|
    ensures Onward(s, Next, s.promises[q], Moved(s, script, Next).promises[q], q)
  {
    hide RunNoted, Tracked, Children, Onward;
    var noted := Note(s.(active := Flushing(s.active.p, s.active.rest[1..])), s.active.p, s.active.rest[0]);
    NextKeeps(s);
    RunNotedKeeps(noted, script, s.active.p, s.active.rest[0]);
    NotedMovesOn(s, noted, Moved(s, script, Next), Next, q);
  }

  lemma MarkIsCounted(s: Sys)
    requires Inv(s) && s.active.Idle? && s.tasks != [] && (s.tasks[0].Flush? || s.tasks[0].Report?)
    ensures SensibleTask(s, s.tasks[0])
    ensures if s.tasks[0].Flush? then Unflushed(s.promises[s.tasks[0].p]) else Unreported(s, s.tasks[0].p)
  {
    assert SensibleTask(s, s.tasks[0]);
    assert Kept(s, s.tasks[0].p);
    if s.tasks[0].Flush? {
      FlushIsCounted(s, s.tasks[0].p);
    } else {
      ReportIsCounted(s, s.tasks[0].p);
    }
  }

  lemma PopRunGrows(s: Sys, script: Script)
    requires Inv(s) && s.active.Idle? && s.tasks != [] && s.tasks[0].Run?
    ensures Grows(s.(tasks := s.tasks[1..]), Moved(s, script, Pop))
  {
    hide Tracked, Children, Sensible;
    var popped := s.(tasks := s.tasks[1..]);
    PoppedIsSensible(s, popped);
    forall r: nat | r < |s.promises| ensures Tracked(popped, r) && Children(popped, r) {
      assert Kept(s, r);
      OthersPop(s, popped, r);
      ChildrenStay(s, popped, r);
    }
    DoAllKeeps(popped, script(s.tasks[0].k, Data(0)).ops);
  }

  lemma RunMovesOn(s: Sys, script: Script, q: nat)
    requires Inv(s) && s.active.Idle? && s.tasks != [] && s.tasks[0].Run? && q < |s.promises|
    ensures q < |Moved(s, script, Pop).promises|
    ensures Onward(s, Pop, s.promises[q], Moved(s, script, Pop).promises[q], q)
  {
    PopRunGrows(s, script);
    assert Older(s.(tasks := s.tasks[1..]).promises[q], Moved(s, script, Pop).promises[q]);
  }

  // ----- What follows for every run -----

  /** A promise settles at most once: status and value never change afterwards, the value is no promise. */
  lemma {:induction false} SettledForGood(s: Sys, script: Script, moves: seq<Move>, q: nat)
    requires Inv(s) && CanRun(s, script, moves) && q < |s.promises| && !s.promises[q].status.Pending?
    ensures Final(s.promises[q].status)
    ensures q < |After(s, script, moves).promises|
    ensures After(s, script, moves).promises[q].status == s.promises[q].status
    decreases |moves|
  {
    assert Kept(s, q);
    if moves != [] {
      MoveKeepsInv(s, script, moves[0]);
      MovesOn(s, script, moves[0], q);
      SettledForGood(Moved(s, script, moves[0]), script, moves[1..], q);
    }
  }

  /** What code does outside callbacks, and all that a handler's body does, runs no handler. */
  lemma NothingRunsSynchronously(s: Sys, ops: seq<Op>, q: nat)
    requires Inv(s) && MayAct(s) && q < |s.promises|
    ensures DoAll(s, ops).promises[q].past.ran == s.promises[q].past.ran
  {
    DoAllKeeps(s, ops);
    assert Older(s.promises[q], DoAll(s, ops).promises[q]);
  }

  /** Handlers run in the order of the `then` calls, none before settlement, and, once a settled
      promise's loop is drained, each registration has run exactly once. */
  lemma HandlersRunOnceInOrder(script: Script, moves: seq<Move>, q: nat)
    requires CanRun(Start(), script, moves) && q < |After(Start(), script, moves).promises|
    ensures var s := After(Start(), script, moves); var on := s.promises[q];
      && on.past.ran <= on.past.thens
      && (forall i, j :: 0 <= i < j < |on.past.thens| ==> on.past.thens[i].child != on.past.thens[j].child)
      && (on.status.Pending? ==> on.past.ran == [])
      && (!on.status.Pending? && s.tasks == [] && s.active.Idle? ==> on.past.ran == on.past.thens)
  {
    hide Inv;
    var s := After(Start(), script, moves);
    var on := s.promises[q];
    Registrations(s, q);
    forall i, j | 0 <= i < j < |on.past.thens| ensures on.past.thens[i].child != on.past.thens[j].child {
      ChildrenDiffer(s, q, i, j);
    }
  }

  lemma ChildrenDiffer(s: Sys, q: nat, i: nat, j: nat)
    requires Inv(s) && q < |s.promises| && i < j < |s.promises[q].past.thens|
    ensures s.promises[q].past.thens[i].child != s.promises[q].past.thens[j].child
  {
    assert Kept(s, q);
    assert Born(s, q, i) && Born(s, q, j);
  }

  lemma Registrations(s: Sys, q: nat)
    requires Inv(s) && q < |s.promises|
    ensures var on := s.promises[q];
      && on.past.ran <= on.past.thens
      && (on.status.Pending? ==> on.past.ran == [])
      && (!on.status.Pending? && s.tasks == [] && s.active.Idle? ==> on.past.ran == on.past.thens)
  {
    hide Inv, Waiting, Lates;
    var on, waiting, lates := s.promises[q].past, Waiting(s, q), Lates(s.tasks, q);
    if !s.promises[q].status.Pending? && s.tasks == [] && s.active.Idle? {
      DrainedIsEmpty(s, q);
    }
    LinedUp(s, q);
    PrefixOf(on.ran, waiting, lates, on.thens);
  }

  lemma LinedUp(s: Sys, q: nat)
    requires Inv(s) && q < |s.promises|
    ensures s.promises[q].past.thens == s.promises[q].past.ran + Waiting(s, q) + Lates(s.tasks, q)
    ensures s.promises[q].status.Pending? ==> s.promises[q].past.ran == []
  {
    assert Kept(s, q);
  }

  lemma DrainedIsEmpty(s: Sys, q: nat)
    requires Inv(s) && q < |s.promises| && !s.promises[q].status.Pending? && s.tasks == [] && s.active.Idle?
    ensures Waiting(s, q) == [] && Lates(s.tasks, q) == []
  {
    assert Kept(s, q);
  }

  lemma PrefixOf(a: seq<Handler>, b: seq<Handler>, c: seq<Handler>, whole: seq<Handler>)
    requires whole == a + b + c
    ensures a <= whole && (b == [] && c == [] ==> a == whole)
  {
  }

  /** Once a rejected promise's loop is drained, its report callback has run. */
  lemma ReportComes(s: Sys, q: nat)
    requires Inv(s) && q < |s.promises| && s.promises[q].status.Rejected? && s.tasks == [] && s.active.Idle?
    ensures s.promises[q].past.reported.Some?
  {
    assert Kept(s, q);
  }

  lemma {:induction false} EarlyStays(s: Sys, script: Script, moves: seq<Move>, q: nat)
    requires Inv(s) && CanRun(s, script, moves) && q < |s.promises| && s.promises[q].past.flushed
    ensures q < |After(s, script, moves).promises|
    ensures After(s, script, moves).promises[q].past.early == s.promises[q].past.early
    decreases |moves|
  {
    if moves != [] {
      MoveKeepsInv(s, script, moves[0]);
      MovesOn(s, script, moves[0], q);
      EarlyStays(Moved(s, script, moves[0]), script, moves[1..], q);
    }
  }

  /** The report callback stays silent exactly if some `then` was called before the flush callback ran; else it
      prints the message of the reason, or fails if the reason is no condition. `s` is the state in which the
      loop is about to run the flush, whatever happens afterwards. */
  lemma UnhandledIsReported(s: Sys, script: Script, moves: seq<Move>, q: nat)
    requires Inv(s) && s.active.Idle? && s.tasks != [] && s.tasks[0] == Flush(q) && q < |s.promises|
    requires Inv(Moved(s, script, Pop)) && CanRun(Moved(s, script, Pop), script, moves)
    ensures !s.promises[q].status.Pending? && q < |After(Moved(s, script, Pop), script, moves).promises|
    ensures var reported := After(Moved(s, script, Pop), script, moves).promises[q].past.reported;
      reported.Some? ==>
        reported.value == if s.promises[q].past.thens != [] then Silent
                          else if s.promises[q].status.value.Condition? || s.promises[q].status.value.CycleError?
                          then Printed else Failed
  {
    MarkIsCounted(s);
    MovesOn(s, script, Pop, q);
    EarlyStays(Moved(s, script, Pop), script, moves, q);
    SettledForGood(Moved(s, script, Pop), script, moves, q);
    assert Kept(After(Moved(s, script, Pop), script, moves), q);
  }

  // ----- What `then` returns -----

  /** The user function that a settled promise selects. */
  function Selected(action: Action, status: Status): Option<nat>
    requires action.User?
  {
    if status.Fulfilled? then action.onFulfilled else action.onRejected
  }

  /** What becomes in `n` of the promise that `then` returned, once its handler has run on the outcome `on`.
      Without a function for it, it takes the outcome over. Else it is fulfilled with what the function returns,
      follows that if it is a promise, is rejected if it is that very promise, and is rejected with what the
      function signals. A promise the function can return exists before the adoption registers its own child. */
  ghost predicate ChildHas(n: Sys, script: Script, on: Status, h: Handler)
    requires h.action.User? && !on.Pending?
  {
    && h.child < |n.promises|
    && var status := n.promises[h.child].status;
       match Selected(h.action, on)
       case None => status == on
       case Some(k) =>
         match script(k, on.value).result
         case Throws(v) => status == Rejected(Signalled(v))
         case Returns(v) =>
           if !v.Ref? then status == Fulfilled(v)
           else if v.p == h.child then status == Rejected(CycleError)
           else
             v.p + 1 < |n.promises| ==>
               && status.Pending?
               && var thens := n.promises[v.p].past.thens;
                  thens != [] && thens[|thens| - 1] == Handler(Adopt(h.child), |n.promises| - 1)
  }

  lemma ChildSettles(s: Sys, script: Script, q: nat, h: Handler)
    requires Inv(s) && MayAct(s) && Ready(s, h) && h.action.User?
    requires q < |s.promises| && Final(s.promises[q].status)
    ensures ChildHas(RunNoted(s, script, q, h), script, s.promises[q].status, h)
  {
    hide Sensible, Tracked, Children, NoParent, Deliver;
    var on := s.promises[q].status;
    var k := Selected(h.action, on);
    if k.Some? {
      CallKeeps(s, h.child);
      BodySettlesChild(Call(s, h.child), script, h, k.value, on);
    }
  }

  lemma BodySettlesChild(s: Sys, script: Script, h: Handler, k: nat, on: Status)
    requires Inv(s) && MayAct(s) && Held(s, h.child) && h.action.User? && !on.Pending? &&
        Selected(h.action, on) == Some(k)
    ensures ChildHas(Deliver(s, script, h.child, k, on.value), script, on, h)
  {
    hide Inv, MayAct, DoAll;
    var body := script(k, on.value);
    DoAllKeeps(s, body.ops);
    assert Held(DoAll(s, body.ops), h.child);
  }

  /** The state in which a move runs its handler: that of `s` with the handler taken and noted. */
  lemma RunsReady(s: Sys, script: Script, m: Move) returns (noted: Sys)
    requires Inv(s) && Possible(s, m) && Runs(s, m).Some?
    ensures var q, h := Runs(s, m).value.0, Runs(s, m).value.1;
      && Inv(noted) && MayAct(noted) && Ready(noted, h)
      && q < |s.promises| == |noted.promises| && Final(s.promises[q].status)
      && noted.promises[q].status == s.promises[q].status && noted.tasks == (if m.Pop? then s.tasks[1..] else s.tasks)
      && Moved(s, script, m) == RunNoted(noted, script, q, h)
  {
    var q, h := Runs(s, m).value.0, Runs(s, m).value.1;
    if m.Next? {
      NextKeeps(s);
      noted := Note(s.(active := Flushing(s.active.p, s.active.rest[1..])), q, h);
    } else {
      assert SensibleTask(s, s.tasks[0]);
      LateKeeps(s);
      noted := Note(s.(tasks := s.tasks[1..]), q, h);
    }
  }

  /** So whenever the loop runs a handler that user code registered, the promise of its `then` has what
      the settled promise and the function say. */
  lemma RunSettlesChild(s: Sys, script: Script, m: Move)
    requires Inv(s) && Possible(s, m) && Runs(s, m).Some? && Runs(s, m).value.1.action.User?
    ensures var q, h := Runs(s, m).value.0, Runs(s, m).value.1;
      && q < |s.promises| && !s.promises[q].status.Pending?
      && ChildHas(Moved(s, script, m), script, s.promises[q].status, h)
  {
    var noted := RunsReady(s, script, m);
    ChildSettles(noted, script, Runs(s, m).value.0, Runs(s, m).value.1);
  }

  // ----- finally -----

  /** The handlers that `finally` registers: they run `onFinally`, drop what it returns, and go on with
      what they were given, by `stop` if that is a reason, unless it throws. */
  function FinallyFulfilled(onFinally: Body, value: Value): Body {
    Body(onFinally.ops, if onFinally.result.Throws? then onFinally.result else Returns(value))
  }

  function FinallyRejected(onFinally: Body, reason: Value): Body {
    Body(onFinally.ops, if onFinally.result.Throws? then onFinally.result else Throws(reason))
  }

  /** Whenever the loop runs a handler of `finally`, the promise that `finally` returned is rejected with the
      error that `onFinally` signals, if it does; else it is fulfilled as the one it was called on, or rejected
      with the same reason, or with an error made of it if it is no condition. */
  lemma FinallyPassesOn(s: Sys, script: Script, m: Move, onFinally: Body)
    requires Inv(s) && Possible(s, m) && Runs(s, m).Some? && Runs(s, m).value.0 < |s.promises|
    requires !s.promises[Runs(s, m).value.0].status.Pending?
    requires var action := Runs(s, m).value.1.action; var value := s.promises[Runs(s, m).value.0].status.value;
      && action.User? && action.onFulfilled.Some? && action.onRejected.Some?
      && script(action.onFulfilled.value, value) == FinallyFulfilled(onFinally, value)
      && script(action.onRejected.value, value) == FinallyRejected(onFinally, value)
    ensures var on, n := s.promises[Runs(s, m).value.0].status, Moved(s, script, m);
      && Runs(s, m).value.1.child < |n.promises|
      && n.promises[Runs(s, m).value.1.child].status
         == if onFinally.result.Throws? then Rejected(Signalled(onFinally.result.value))
            else if on.Fulfilled? then on
            else Rejected(Signalled(on.value))
  {
    RunSettlesChild(s, script, m);
    assert Kept(s, Runs(s, m).value.0);
  }
}
