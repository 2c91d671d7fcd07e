/** What every run of the promise machinery keeps. */
module PromiseTheorems {
  import opened Options
  import opened Promises

  /** The late handlers of `q` in the queue, in order. */
  function Lates(tasks: seq<Task>, q: nat): seq<Handler> {
    if tasks == [] then []
    else (if tasks[0].Late? && tasks[0].p == q then [tasks[0].h] else []) + Lates(tasks[1..], q)
  }

  /** How often a callback is queued. */
  function Times(tasks: seq<Task>, t: Task): nat {
    multiset(tasks)[t]
  }

  /** The late handlers of `q` that come before the callback `mark`. */
  function Ahead(tasks: seq<Task>, q: nat, mark: Task): seq<Handler> {
    if tasks == [] || tasks[0] == mark then []
    else (if tasks[0].Late? && tasks[0].p == q then [tasks[0].h] else []) + Ahead(tasks[1..], q, mark)
  }

  /** The handlers of `q` that its flush has still to run. */
  function Waiting(s: Sys, q: nat): seq<Handler>
    requires q < |s.promises|
  {
    if s.active.Flushing? && s.active.p == q then s.active.rest else s.promises[q].handlers
  }

  predicate InFlush(s: Sys, q: nat) {
    s.active.Flushing? && s.active.p == q
  }

  // ----- The invariant -----

  /** Every registration has run, waits for the flush, or waits in the queue: in that order. */
  ghost predicate Lined(s: Sys, q: nat)
    requires q < |s.promises|
  {
    s.promises[q].past.thens == s.promises[q].past.ran + Waiting(s, q) + Lates(s.tasks, q)
  }

  ghost predicate Phased(s: Sys, q: nat)
    requires q < |s.promises|
  {
    var on := s.promises[q];
    && (on.status.Pending? ==> on.past.ran == [] && Lates(s.tasks, q) == [] && !on.past.flushed && !on.handled)
    && (!on.status.Pending? ==> on.called && Final(on.status))
    && (!on.called ==> on.past.adopting.None?)
    && (!on.past.flushed ==> on.past.ran == [] && !on.handled && !InFlush(s, q) && on.past.reported.None?)
    && (on.past.flushed && !InFlush(s, q) ==> on.handlers == [])
  }

  /** The `i`-th registration on `q` made its own child. */
  ghost predicate Born(s: Sys, q: nat, i: nat)
    requires q < |s.promises| && i < |s.promises[q].past.thens|
  {
    var h := s.promises[q].past.thens[i];
    && SensibleHandler(s, h)
    && s.promises[h.child].past.origin == Some((q, i)) && s.promises[h.child].derived
  }

  /** Until a handler runs, its child is untouched, and so is the promise it is to settle. */
  ghost predicate Untouched(s: Sys, h: Handler)
    requires SensibleHandler(s, h)
  {
    var c := s.promises[h.child];
    && !c.called && c.status.Pending? && c.past.adopting.None?
    && (h.action.Adopt? ==>
          var p := s.promises[h.action.target];
          p.status.Pending? && p.called && p.past.adopting == Some(h.child))
  }

  ghost predicate Children(s: Sys, q: nat)
    requires q < |s.promises|
  {
    forall i :: 0 <= i < |s.promises[q].past.thens| ==>
      Born(s, q, i) && (i >= |s.promises[q].past.ran| ==> Untouched(s, s.promises[q].past.thens[i]))
  }

  predicate Unflushed(promise: Promise) {
    !promise.status.Pending? && !promise.past.flushed
  }

  predicate Unreported(s: Sys, q: nat)
    requires q < |s.promises|
  {
    s.promises[q].status.Rejected? && s.promises[q].past.flushed && !InFlush(s, q) && s.promises[q].past.reported.None?
  }

  /** One flush callback between settlement and flush, ahead of all late handlers; one report callback
      between flush and report. */
  ghost predicate Queued(s: Sys, q: nat)
    requires q < |s.promises|
  {
    && Times(s.tasks, Flush(q)) == (if Unflushed(s.promises[q]) then 1 else 0)
    && (Unflushed(s.promises[q]) ==> Ahead(s.tasks, q, Flush(q)) == [])
    && Times(s.tasks, Report(q)) == (if Unreported(s, q) then 1 else 0)
  }

  /** The notice that is due: none if there was a `then` before the flush. */
  function Due(on: Promise): Notice
    requires !on.status.Pending?
  {
    if on.past.early then Silent else if IsCondition(on.status.value) then Printed else Failed
  }

  /** A rejection counts as handled by the time of its report exactly if there was a `then` before its flush. */
  ghost predicate Reporting(s: Sys, q: nat)
    requires q < |s.promises|
  {
    var on := s.promises[q];
    && (on.status.Rejected? && InFlush(s, q) ==>
          (on.past.early <==> on.handled || s.active.rest != [] || Lates(s.tasks, q) != []))
    && (Unreported(s, q) ==> (on.past.early <==> on.handled || Ahead(s.tasks, q, Report(q)) != []))
    && (on.past.reported.Some? ==>
          on.status.Rejected? && on.past.flushed && !InFlush(s, q) && on.past.reported.value == Due(on))
  }

  ghost predicate Tracked(s: Sys, q: nat)
    requires q < |s.promises|
  {
    Lined(s, q) && Phased(s, q) && Queued(s, q) && Reporting(s, q)
  }

  ghost predicate Kept(s: Sys, q: nat) {
    q < |s.promises| ==> Tracked(s, q) && Children(s, q)
  }

  ghost predicate Inv(s: Sys) {
    Sensible(s) && (forall q: nat :: Kept(s, q)) && (s.active.Flushing? ==> s.promises[s.active.p].past.flushed)
  }

  /** Inside a flush of a rejected promise, user code runs only once a handler has. */
  predicate MayAct(s: Sys) {
    s.active.Flushing? && s.active.p < |s.promises| && s.promises[s.active.p].status.Rejected? ==>
      s.promises[s.active.p].handled
  }

  // ----- Queues -----

  lemma {:induction false} LatesAppend(tasks: seq<Task>, t: Task, q: nat)
    ensures Lates(tasks + [t], q) == Lates(tasks, q) + if t.Late? && t.p == q then [t.h] else []
  {
    if tasks == [] {
      assert tasks + [t] == [t];
      assert [t][1..] == [];
    } else {
      LatesAppend(tasks[1..], t, q);
      assert (tasks + [t])[1..] == tasks[1..] + [t];
    }
  }

  lemma {:induction false} AheadAppend(tasks: seq<Task>, t: Task, q: nat, mark: Task)
    requires mark in tasks || t == mark
    requires !mark.Late?
    ensures Ahead(tasks + [t], q, mark) == if mark in tasks then Ahead(tasks, q, mark) else Lates(tasks, q)
  {
    if tasks == [] {
      assert tasks + [t] == [t];
    } else if tasks[0] != mark {
      assert tasks == [tasks[0]] + tasks[1..];
      AheadAppend(tasks[1..], t, q, mark);
      assert (tasks + [t])[1..] == tasks[1..] + [t];
    }
  }

  lemma {:induction false} AheadOfNothing(tasks: seq<Task>, q: nat, mark: Task)
    requires mark !in tasks
    ensures Ahead(tasks, q, mark) == Lates(tasks, q)
  {
    if tasks != [] {
      assert tasks == [tasks[0]] + tasks[1..];
      AheadOfNothing(tasks[1..], q, mark);
    }
  }

  /** What queueing a callback changes for `q`. */
  lemma AppendElse(s: Sys, t: Task, q: nat)
    requires q < |s.promises| && Queued(s, q)
    ensures Times(s.tasks + [t], Flush(q)) == Times(s.tasks, Flush(q)) + if t == Flush(q) then 1 else 0
    ensures Times(s.tasks + [t], Report(q)) == Times(s.tasks, Report(q)) + if t == Report(q) then 1 else 0
    ensures Lates(s.tasks + [t], q) == Lates(s.tasks, q) + if t.Late? && t.p == q then [t.h] else []
    ensures Unflushed(s.promises[q]) ==> Ahead(s.tasks + [t], q, Flush(q)) == []
    ensures Unreported(s, q) ==> Ahead(s.tasks + [t], q, Report(q)) == Ahead(s.tasks, q, Report(q))
    ensures !Unflushed(s.promises[q]) && t == Flush(q) ==> Ahead(s.tasks + [t], q, Flush(q)) == Lates(s.tasks, q)
    ensures !Unreported(s, q) && t == Report(q) ==> Ahead(s.tasks + [t], q, Report(q)) == Lates(s.tasks, q)
  {
    LatesAppend(s.tasks, t, q);
    if Unflushed(s.promises[q]) || t == Flush(q) {
      assert Flush(q) in s.tasks <==> Flush(q) in multiset(s.tasks);
      AheadAppend(s.tasks, t, q, Flush(q));
    }
    if Unreported(s, q) || t == Report(q) {
      assert Report(q) in s.tasks <==> Report(q) in multiset(s.tasks);
      AheadAppend(s.tasks, t, q, Report(q));
    }
  }

  // ----- The operations -----

  /** No handler still to run is there to settle `p`. */
  ghost predicate NoFollower(s: Sys, p: nat) {
    forall q: nat, i: nat :: q < |s.promises| && |s.promises[q].past.ran| <= i < |s.promises[q].past.thens| ==>
      s.promises[q].past.thens[i].action != Adopt(p)
  }

  /** `p` has been called and is about to settle or to follow another promise. */
  ghost predicate Free(s: Sys, p: nat) {
    p < |s.promises| && s.promises[p].status.Pending? && s.promises[p].called && NoFollower(s, p)
  }

  lemma SettleTracks(s: Sys, p: nat, status: Status, q: nat)
    requires p < |s.promises| && s.promises[p].status.Pending? && s.promises[p].called
    requires q < |s.promises| && Tracked(s, q)
    requires Final(status)
    ensures Tracked(Settle(s, p, status), q)
  {
    hide Lates, Ahead, Times;
    AppendElse(s, Flush(p), q);
  }

  lemma SettleBears(s: Sys, p: nat, status: Status, q: nat)
    requires Free(s, p) && q < |s.promises| && Children(s, q)
    ensures Children(Settle(s, p, status), q)
  {
    var n := Settle(s, p, status);
    forall i: nat | i < |s.promises[q].past.thens|
      ensures Born(n, q, i) && (i >= |s.promises[q].past.ran| ==> Untouched(n, s.promises[q].past.thens[i]))
    {
      assert Born(s, q, i);
    }
  }

  lemma SettleKeeps(s: Sys, p: nat, status: Status)
    requires Inv(s) && Free(s, p) && Final(status)
    ensures Inv(Settle(s, p, status))
  {
    hide Tracked, Children;
    var n := Settle(s, p, status);
    forall q: nat | q < |n.promises| ensures Tracked(n, q) && Children(n, q) {
      assert Kept(s, q);
      SettleTracks(s, p, status, q);
      SettleBears(s, p, status, q);
    }
    forall i | 0 <= i < |n.tasks| ensures SensibleTask(n, n.tasks[i]) {
      if i < |s.tasks| {
        assert SensibleTask(s, s.tasks[i]);
      }
    }
  }

  /** Noting which promise `p` is about to follow. */
  function Noted(s: Sys, p: nat): Sys
    requires p < |s.promises|
  {
    With(s, p, s.promises[p].(past := s.promises[p].past.(adopting := Some(|s.promises|))))
  }

  lemma NotingKeeps(s: Sys, p: nat)
    requires Inv(s) && Free(s, p)
    ensures Inv(Noted(s, p)) && Free(Noted(s, p), p)
  {
    hide Tracked, Children;
    var n := Noted(s, p);
    forall q: nat | q < |n.promises| ensures Tracked(n, q) && Children(n, q) {
      assert Kept(s, q);
      NotingTracks(s, p, q);
      NotingBears(s, p, q);
    }
    forall i | 0 <= i < |n.tasks| ensures SensibleTask(n, n.tasks[i]) {
      assert SensibleTask(s, s.tasks[i]);
    }
  }

  lemma NotingTracks(s: Sys, p: nat, q: nat)
    requires Free(s, p) && q < |s.promises| && Tracked(s, q)
    ensures Tracked(Noted(s, p), q)
  {
    hide Lates, Ahead, Times;
  }

  lemma NotingBears(s: Sys, p: nat, q: nat)
    requires Free(s, p) && q < |s.promises| && Children(s, q)
    ensures Children(Noted(s, p), q)
  {
    var n := Noted(s, p);
    forall i: nat | i < |n.promises[q].past.thens|
      ensures Born(n, q, i) && (i >= |n.promises[q].past.ran| ==> Untouched(n, n.promises[q].past.thens[i]))
    {
      assert Born(s, q, i);
    }
  }

  /** All that `Tracked` looks at is the same. */
  lemma SameTracks(s: Sys, n: Sys, r: nat)
    requires r < |s.promises| && r < |n.promises| && Tracked(s, r)
    requires n.promises[r] == s.promises[r]
    requires n.active == s.active || (!InFlush(s, r) && !InFlush(n, r))
    requires Lates(n.tasks, r) == Lates(s.tasks, r)
    requires Times(n.tasks, Flush(r)) == Times(s.tasks, Flush(r)) &&
        Times(n.tasks, Report(r)) == Times(s.tasks, Report(r))
    requires Ahead(n.tasks, r, Flush(r)) == Ahead(s.tasks, r, Flush(r)) &&
        Ahead(n.tasks, r, Report(r)) == Ahead(s.tasks, r, Report(r))
    ensures Tracked(n, r)
  {
    hide Lates, Ahead, Times;
  }

  lemma ThenTracks(s: Sys, p: nat, action: Action, q: nat)
    requires p < |s.promises| && q < |s.promises| && Tracked(s, q) && MayAct(s)
    ensures Tracked(AddThen(s, p, action), q)
  {
    if !s.promises[p].status.Pending? {
      LateThenTracks(s, p, action, q);
    } else if q == p {
      EarlyThenTracks(s, p, action);
    } else {
      hide Tracked, Lates, Ahead, Times;
      SameTracks(s, AddThen(s, p, action), q);
    }
  }

  lemma EarlyThenTracks(s: Sys, p: nat, action: Action)
    requires p < |s.promises| && Tracked(s, p) && s.promises[p].status.Pending?
    ensures Tracked(AddThen(s, p, action), p)
  {
    hide Lates, Ahead, Times;
    var on, h := s.promises[p], Handler(action, |s.promises|);
    assert on.past.thens + [h] == [] + (on.handlers + [h]) + [];
  }

  /** A callback queued for some other promise leaves `q` tracked. */
  lemma OthersTrack(s: Sys, n: Sys, t: Task, q: nat)
    requires q < |s.promises| <= |n.promises| && Tracked(s, q)
    requires n.promises[q] == s.promises[q] && n.tasks == s.tasks + [t]
    requires n.active == s.active || (!InFlush(s, q) && !InFlush(n, q))
    requires !(t.Late? && t.p == q) && t != Flush(q) && t != Report(q)
    ensures Tracked(n, q)
  {
    hide Lates, Ahead, Times;
    AppendElse(s, t, q);
    assert Lates(s.tasks, q) + [] == Lates(s.tasks, q);
  }

  lemma LateThenTracks(s: Sys, p: nat, action: Action, q: nat)
    requires p < |s.promises| && q < |s.promises| && Tracked(s, q) && MayAct(s) && !s.promises[p].status.Pending?
    ensures Tracked(AddThen(s, p, action), q)
  {
    if q == p {
      LateThenTracksSelf(s, p, action);
    } else {
      OthersTrack(s, AddThen(s, p, action), Late(p, Handler(action, |s.promises|)), q);
    }
  }

  lemma LateThenTracksSelf(s: Sys, q: nat, action: Action)
    requires q < |s.promises| && Tracked(s, q) && MayAct(s) && !s.promises[q].status.Pending?
    ensures Tracked(AddThen(s, q, action), q)
  {
    hide Lates, Ahead, Times, Lined;
    var n, h := AddThen(s, q, action), Handler(action, |s.promises|);
    LateIsLined(s, n, h, q);
    AppendElse(s, Late(q, h), q);
  }

  lemma LateIsLined(s: Sys, n: Sys, h: Handler, q: nat)
    requires q < |s.promises| <= |n.promises| && Lined(s, q) && n.tasks == s.tasks + [Late(q, h)] &&
        n.active == s.active
    requires n.promises[q].past.thens == s.promises[q].past.thens + [h] &&
        n.promises[q].past.ran == s.promises[q].past.ran
    requires n.promises[q].handlers == s.promises[q].handlers
    ensures Lined(n, q)
  {
    hide Lates;
    LatesAppend(s.tasks, Late(q, h), q);
    var ran, waiting, lates := s.promises[q].past.ran, Waiting(s, q), Lates(s.tasks, q);
    assert (ran + waiting + lates) + [h] == ran + waiting + (lates + [h]);
  }

  /** What an adoption must have noted before it registers. */
  predicate Announced(s: Sys, action: Action) {
    action.Adopt? ==>
      action.target < |s.promises| && s.promises[action.target].status.Pending? && s.promises[action.target].called &&
      s.promises[action.target].past.adopting == Some(|s.promises|)
  }

  lemma NewIsTracked(s: Sys, n: Sys, derived: bool, origin: Option<(nat, nat)>)
    requires Inv(s) && |n.promises| == |s.promises| + 1 && n.active == s.active
    requires n.promises[|s.promises|] == Fresh(derived, origin)
    requires n.tasks == s.tasks || exists p: nat, h :: p < |s.promises| && n.tasks == s.tasks + [Late(p, h)]
    ensures Tracked(n, |s.promises|) && Children(n, |s.promises|)
  {
    hide Lates, Ahead, Times, Inv;
    OlderTasks(s, n);
    NoTasks(n.tasks, |s.promises|);
  }

  lemma OlderTasks(s: Sys, n: Sys)
    requires Inv(s)
    requires n.tasks == s.tasks || exists p: nat, h :: p < |s.promises| && n.tasks == s.tasks + [Late(p, h)]
    ensures forall i :: 0 <= i < |n.tasks| ==> n.tasks[i].Run? || n.tasks[i].p < |s.promises|
    ensures s.active.Flushing? ==> s.active.p < |s.promises|
  {
    hide Tracked, Children;
    forall i | 0 <= i < |n.tasks| ensures n.tasks[i].Run? || n.tasks[i].p < |s.promises| {
      if i < |s.tasks| {
        assert SensibleTask(s, s.tasks[i]);
      }
    }
  }

  /** A promise that does not exist yet has no callbacks queued. */
  lemma {:induction false} NoTasks(tasks: seq<Task>, q: nat)
    requires forall i :: 0 <= i < |tasks| ==> tasks[i].Run? || tasks[i].p < q
    ensures Lates(tasks, q) == [] && Times(tasks, Flush(q)) == 0 && Times(tasks, Report(q)) == 0
  {
    if tasks != [] {
      assert tasks == [tasks[0]] + tasks[1..];
      NoTasks(tasks[1..], q);
    }
  }

  lemma ThenKeeps(s: Sys, p: nat, action: Action)
    requires Inv(s) && p < |s.promises| && MayAct(s) && Announced(s, action)
    ensures Inv(AddThen(s, p, action))
  {
    hide Tracked, Children, SensibleTask;
    var n := AddThen(s, p, action);
    ThenIsSensible(s, p, action);
    ThenMakesTracked(s, p, action);
    forall q: nat | q < |s.promises| ensures Tracked(n, q) && Children(n, q) {
      assert Kept(s, q);
      ThenTracks(s, p, action, q);
      ThenBears(s, p, action, q);
    }
  }

  lemma ThenMakesTracked(s: Sys, p: nat, action: Action)
    requires Inv(s) && p < |s.promises|
    ensures var n := AddThen(s, p, action);
      && |n.promises| == |s.promises| + 1 && n.active == s.active
      && Tracked(n, |s.promises|) && Children(n, |s.promises|)
  {
    hide Inv;
    var n := AddThen(s, p, action);
    NewIsTracked(s, n, true, Some((p, |s.promises[p].past.thens|)));
  }

  lemma ThenBears(s: Sys, p: nat, action: Action, q: nat)
    requires p < |s.promises| && q < |s.promises| && Children(s, q) && Announced(s, action)
    requires Tracked(s, q)
    ensures Children(AddThen(s, p, action), q)
  {
    hide AddThen, Untouched, Tracked;
    var n := AddThen(s, p, action);
    ThenLists(s, p, action, q);
    forall i: nat | i < |n.promises[q].past.thens|
      ensures Born(n, q, i) && (i >= |n.promises[q].past.ran| ==> Untouched(n, n.promises[q].past.thens[i]))
    {
      if i < |s.promises[q].past.thens| {
        ThenBearsOld(s, p, action, q, i);
      } else {
        ThenBearsNew(s, p, action);
      }
    }
  }

  /** The registrations on `q` after a `then` on `p`. */
  lemma ThenLists(s: Sys, p: nat, action: Action, q: nat)
    requires p < |s.promises| && q < |s.promises|
    ensures var n := AddThen(s, p, action);
      && |n.promises| == |s.promises| + 1 && n.promises[q].past.ran == s.promises[q].past.ran
      && n.promises[q].past.thens == s.promises[q].past.thens + if q == p then [Handler(action, |s.promises|)] else []
  {
  }

  lemma ThenBearsOld(s: Sys, p: nat, action: Action, q: nat, i: nat)
    requires p < |s.promises| && q < |s.promises| && Children(s, q) && i < |s.promises[q].past.thens|
    ensures var n := AddThen(s, p, action);
      && i < |n.promises[q].past.thens| && n.promises[q].past.thens[i] == s.promises[q].past.thens[i] && Born(n, q, i)
      && (i >= |s.promises[q].past.ran| ==> Untouched(n, n.promises[q].past.thens[i]))
  {
    assert Born(s, q, i);
  }

  lemma ThenBearsNew(s: Sys, p: nat, action: Action)
    requires p < |s.promises| && Announced(s, action)
    ensures var n, i := AddThen(s, p, action), |s.promises[p].past.thens|;
      && i < |n.promises[p].past.thens| && Born(n, p, i) && Untouched(n, n.promises[p].past.thens[i])
  {
  }

  lemma ThenIsSensible(s: Sys, p: nat, action: Action)
    requires Inv(s) && p < |s.promises| && Announced(s, action)
    ensures Sensible(AddThen(s, p, action))
  {
    var n := AddThen(s, p, action);
    assert Kept(s, p);
    forall i | 0 <= i < |n.tasks| ensures SensibleTask(n, n.tasks[i]) {
      if i < |s.tasks| {
        assert SensibleTask(s, s.tasks[i]);
      }
    }
    if s.active.Flushing? {
      forall i | 0 <= i < |s.active.rest| ensures SensibleHandler(n, s.active.rest[i]) {
        assert SensibleHandler(s, s.active.rest[i]);
      }
    }
  }

  /** No handler still to run made `c`. */
  ghost predicate NoParent(s: Sys, c: nat) {
    forall q: nat, i: nat :: q < |s.promises| && |s.promises[q].past.ran| <= i < |s.promises[q].past.thens| ==>
      s.promises[q].past.thens[i].child != c
  }

  lemma CallKeeps(s: Sys, p: nat)
    requires Inv(s) && p < |s.promises| && NoParent(s, p)
    ensures Inv(Call(s, p))
  {
    var n := Call(s, p);
    forall q: nat | q < |n.promises| ensures Tracked(n, q) && Children(n, q) {
      assert Kept(s, q);
      CallTracks(s, p, q);
      CallBears(s, p, q);
      hide Tracked, Children;
    }
    forall i | 0 <= i < |n.tasks| ensures SensibleTask(n, n.tasks[i]) {
      assert SensibleTask(s, s.tasks[i]);
    }
  }

  lemma CallTracks(s: Sys, p: nat, q: nat)
    requires p < |s.promises| && q < |s.promises| && Tracked(s, q)
    ensures Tracked(Call(s, p), q)
  {
    hide Lates, Ahead, Times;
  }

  lemma CallBears(s: Sys, p: nat, q: nat)
    requires p < |s.promises| && q < |s.promises| && Children(s, q) && NoParent(s, p)
    ensures Children(Call(s, p), q)
  {
    var n := Call(s, p);
    forall i: nat | i < |s.promises[q].past.thens|
      ensures Born(n, q, i) && (i >= |s.promises[q].past.ran| ==> Untouched(n, s.promises[q].past.thens[i]))
    {
      assert Born(s, q, i);
    }
  }

  lemma FollowKeeps(s: Sys, p: nat, q: nat)
    requires Inv(s) && Free(s, p) && q < |s.promises| && MayAct(s)
    ensures Inv(Follow(s, p, q))
  {
    hide Inv;
    NotingKeeps(s, p);
    ThenKeeps(Noted(s, p), q, Adopt(p));
  }

  lemma DoRejectKeeps(s: Sys, p: nat, reason: Value)
    requires Inv(s) && Free(s, p) && Known(s, reason) == reason && !reason.Text? && MayAct(s)
    ensures Inv(DoReject(s, p, reason))
  {
    hide Inv;
    if reason.Ref? {
      FollowKeeps(s, p, reason.p);
    } else {
      SettleKeeps(s, p, Rejected(reason));
    }
  }

  lemma DoResolveKeeps(s: Sys, p: nat, value: Value)
    requires Inv(s) && Free(s, p) && Known(s, value) == value && MayAct(s)
    ensures Inv(DoResolve(s, p, value))
  {
    hide Inv;
    if value == Ref(p) {
      DoRejectKeeps(s, p, CycleError);
    } else if value.Ref? {
      FollowKeeps(s, p, value.p);
    } else {
      SettleKeeps(s, p, Fulfilled(value));
    }
  }

  // ----- What operations change -----

  /** An operation settles only pending promises, and rewrites none of the past. */
  predicate Older(a: Promise, b: Promise) {
    && (!a.status.Pending? ==> b.status == a.status && b.handlers == a.handlers)
    && (a.called ==> b.called)
    && a.derived == b.derived && a.handled == b.handled
    && a.past.thens <= b.past.thens && a.past.ran == b.past.ran
    && a.past.flushed == b.past.flushed && a.past.early == b.past.early
    && a.past.origin == b.past.origin && a.past.reported == b.past.reported
  }

  /** Called, pending and following nobody, and out of the reach of user code. */
  predicate Held(s: Sys, c: nat) {
    && c < |s.promises|
    && s.promises[c].status.Pending? && s.promises[c].called && s.promises[c].derived &&
        s.promises[c].past.adopting.None?
  }

  ghost predicate Grows(s: Sys, n: Sys) {
    && |s.promises| <= |n.promises| && s.active == n.active && s.tasks <= n.tasks
    && forall p: nat :: p < |s.promises| ==> Older(s.promises[p], n.promises[p])
  }

  lemma GrowsOn(a: Sys, b: Sys, c: Sys)
    requires Grows(a, b) && Grows(b, c)
    ensures Grows(a, c)
  {
    forall p: nat | p < |a.promises| ensures Older(a.promises[p], c.promises[p]) {
      assert Older(a.promises[p], b.promises[p]) && Older(b.promises[p], c.promises[p]);
    }
  }

  lemma ThenGrows(s: Sys, p: nat, action: Action)
    requires p < |s.promises|
    ensures Grows(s, AddThen(s, p, action)) && forall c: nat :: Held(s, c) ==> Held(AddThen(s, p, action), c)
  {
  }

  lemma NotingGrows(s: Sys, p: nat)
    requires p < |s.promises|
    ensures Grows(s, Noted(s, p)) && forall c: nat :: c != p && Held(s, c) ==> Held(Noted(s, p), c)
  {
  }

  lemma FollowGrows(s: Sys, p: nat, q: nat)
    requires p < |s.promises| && q < |s.promises|
    ensures Grows(s, Follow(s, p, q))
    ensures forall c: nat :: c != p && Held(s, c) ==> Held(Follow(s, p, q), c)
  {
    hide Grows, Held, AddThen;
    NotingGrows(s, p);
    ThenGrows(Noted(s, p), q, Adopt(p));
    GrowsOn(s, Noted(s, p), Follow(s, p, q));
  }

  lemma RejectGrows(s: Sys, p: nat, reason: Value)
    requires p < |s.promises| && s.promises[p].status.Pending? && Known(s, reason) == reason && !reason.Text?
    ensures Grows(s, DoReject(s, p, reason))
    ensures forall c: nat :: c != p && Held(s, c) ==> Held(DoReject(s, p, reason), c)
  {
    if reason.Ref? {
      FollowGrows(s, p, reason.p);
    }
  }

  lemma ResolveGrows(s: Sys, p: nat, value: Value)
    requires p < |s.promises| && s.promises[p].status.Pending? && Known(s, value) == value
    ensures Grows(s, DoResolve(s, p, value))
    ensures forall c: nat :: c != p && Held(s, c) ==> Held(DoResolve(s, p, value), c)
  {
    if value.Ref? {
      FollowGrows(s, p, value.p);
    }
  }

  /** A promise that nobody has called is followed by nobody and may be called, if user code made it. */
  lemma UncalledIsFree(s: Sys, p: nat)
    requires Inv(s) && p < |s.promises| && !s.promises[p].called && !s.promises[p].derived
    ensures NoParent(s, p) && Inv(Call(s, p)) && Free(Call(s, p), p)
  {
    assert Kept(s, p);
    forall q: nat, i: nat | q < |s.promises| && |s.promises[q].past.ran| <= i < |s.promises[q].past.thens|
      ensures s.promises[q].past.thens[i].child != p && s.promises[q].past.thens[i].action != Adopt(p)
    {
      assert Kept(s, q);
      assert Born(s, q, i);
    }
    CallKeeps(s, p);
  }

  lemma QueueKeeps(s: Sys, k: nat)
    requires Inv(s)
    ensures Inv(Queue(s, Run(k)))
  {
    hide Tracked, Times, Lates, Ahead;
    var n := Queue(s, Run(k));
    forall q: nat | q < |n.promises| ensures Tracked(n, q) && Children(n, q) {
      assert Kept(s, q);
      OthersTrack(s, n, Run(k), q);
    }
    forall i | 0 <= i < |n.tasks| ensures SensibleTask(n, n.tasks[i]) {
      if i < |s.tasks| {
        assert SensibleTask(s, s.tasks[i]);
      }
    }
  }

  lemma NewKeeps(s: Sys)
    requires Inv(s)
    ensures Inv(Do(s, New))
  {
    hide Tracked, Children;
    var n := Do(s, New);
    NewIsTracked(s, n, false, None);
    NewIsSensible(s);
    forall q: nat | q < |s.promises| ensures Tracked(n, q) && Children(n, q) {
      assert Kept(s, q);
      SameTracks(s, n, q);
      ChildrenExtend(s, n, q);
    }
  }

  lemma NewIsSensible(s: Sys)
    requires Sensible(s)
    ensures Sensible(Do(s, New))
  {
    var n := Do(s, New);
    forall i | 0 <= i < |n.tasks| ensures SensibleTask(n, n.tasks[i]) {
      assert SensibleTask(s, s.tasks[i]);
    }
  }

  lemma ChildrenExtend(s: Sys, n: Sys, r: nat)
    requires s.promises <= n.promises && r < |s.promises| && Children(s, r)
    ensures Children(n, r)
  {
    forall i: nat | i < |n.promises[r].past.thens|
      ensures Born(n, r, i) && (i >= |n.promises[r].past.ran| ==> Untouched(n, n.promises[r].past.thens[i]))
    {
      assert Born(s, r, i);
    }
  }

  /** A public call of `resolve` or `reject`, once its guard is up. */
  lemma PublicKeeps(s: Sys, p: nat, v: Value)
    requires Inv(s) && MayAct(s) && p < |s.promises| && !s.promises[p].derived && !s.promises[p].called &&
        Known(s, v) == v
    ensures Inv(DoResolve(Call(s, p), p, v)) && Inv(DoReject(Call(s, p), p, Wrapped(v)))
  {
    hide Inv;
    UncalledIsFree(s, p);
    DoResolveKeeps(Call(s, p), p, v);
    DoRejectKeeps(Call(s, p), p, Wrapped(v));
  }

  lemma PublicGrows(s: Sys, p: nat, v: Value)
    requires p < |s.promises| && !s.promises[p].derived && s.promises[p].status.Pending? && Known(s, v) == v
    ensures Grows(s, DoResolve(Call(s, p), p, v)) && Grows(s, DoReject(Call(s, p), p, Wrapped(v)))
    ensures forall c: nat :: Held(s, c) ==>
              Held(DoResolve(Call(s, p), p, v), c) && Held(DoReject(Call(s, p), p, Wrapped(v)), c)
  {
    hide DoResolve, DoReject;
    var called := Call(s, p);
    assert Grows(s, called);
    assert forall c: nat :: Held(s, c) ==> c != p && Held(called, c);
    ResolveGrows(called, p, v);
    RejectGrows(called, p, Wrapped(v));
    GrowsOn(s, called, DoResolve(called, p, v));
    GrowsOn(s, called, DoReject(called, p, Wrapped(v)));
  }

  lemma GrowingMayAct(s: Sys, n: Sys)
    requires MayAct(s) && Grows(s, n) && Sensible(s)
    ensures MayAct(n)
  {
    if s.active.Flushing? {
      assert Older(s.promises[s.active.p], n.promises[s.active.p]);
    }
  }

  lemma UncalledIsPending(s: Sys, p: nat)
    requires Inv(s) && p < |s.promises| && !s.promises[p].called
    ensures s.promises[p].status.Pending?
  {
    assert Kept(s, p);
  }

  lemma DoKeeps(s: Sys, op: Op)
    requires Inv(s) && MayAct(s)
    ensures Inv(Do(s, op)) && MayAct(Do(s, op)) && Grows(s, Do(s, op))
    ensures forall c: nat :: Held(s, c) ==> Held(Do(s, op), c)
  {
    var n := Do(s, op);
    if (op.Resolve? || op.Reject?) && n != s {
      UncalledIsPending(s, op.p);
      hide Inv, Grows, Held, DoResolve, DoReject, Call;
      PublicKeeps(s, op.p, Known(s, op.value));
      PublicGrows(s, op.p, Known(s, op.value));
    } else if op.Then? && n != s {
      hide Inv, Grows, Held, AddThen;
      ThenKeeps(s, op.p, User(op.onFulfilled, op.onRejected));
      ThenGrows(s, op.p, User(op.onFulfilled, op.onRejected));
    } else if op.New? {
      NewKeeps(s);
    } else if op.Later? {
      QueueKeeps(s, op.k);
    }
    GrowingMayAct(s, n);
  }

  lemma {:induction false} DoAllKeeps(s: Sys, ops: seq<Op>)
    requires Inv(s) && MayAct(s)
    ensures Inv(DoAll(s, ops)) && MayAct(DoAll(s, ops)) && Grows(s, DoAll(s, ops))
    ensures forall c: nat :: Held(s, c) ==> Held(DoAll(s, ops), c)
    decreases |ops|
  {
    hide Inv, MayAct;
    if ops != [] {
      DoKeeps(s, ops[0]);
      DoAllKeeps(Do(s, ops[0]), ops[1..]);
      GrowsOn(s, Do(s, ops[0]), DoAll(s, ops));
    }
  }

  // ----- Running a handler -----

  lemma HeldIsFree(s: Sys, c: nat)
    requires Inv(s) && Held(s, c)
    ensures Free(s, c)
  {
    forall q: nat, i: nat | q < |s.promises| && |s.promises[q].past.ran| <= i < |s.promises[q].past.thens|
      ensures s.promises[q].past.thens[i].action != Adopt(c)
    {
      assert Kept(s, q);
      assert Born(s, q, i);
    }
  }

  lemma DeliverKeeps(s: Sys, script: Script, p: nat, k: nat, argument: Value)
    requires Inv(s) && MayAct(s) && Held(s, p)
    ensures Inv(Deliver(s, script, p, k, argument)) && Grows(s, Deliver(s, script, p, k, argument))
  {
    hide Inv, Grows, MayAct, Free, DoAll, DoResolve, DoReject;
    var body := script(k, argument);
    var n := DoAll(s, body.ops);
    DoAllKeeps(s, body.ops);
    HeldIsFree(n, p);
    match body.result
    case Returns(v) =>
      DoResolveKeeps(n, p, Known(n, v));
      ResolveGrows(n, p, Known(n, v));
      GrowsOn(s, n, DoResolve(n, p, Known(n, v)));
    case Throws(v) =>
      DoRejectKeeps(n, p, Signalled(v));
      RejectGrows(n, p, Signalled(v));
      GrowsOn(s, n, DoReject(n, p, Signalled(v)));
  }

  /** A handler that is about to run: its child is fresh, nobody else will settle what it settles. */
  ghost predicate Ready(s: Sys, h: Handler) {
    && SensibleHandler(s, h)
    && !s.promises[h.child].called && s.promises[h.child].derived && s.promises[h.child].status.Pending?
    && s.promises[h.child].past.adopting.None? && NoParent(s, h.child)
    && (h.action.Adopt? ==> Free(s, h.action.target))
  }

  /** The adopting promise takes over the outcome as it is. */
  lemma AdoptionKeeps(s: Sys, script: Script, q: nat, h: Handler)
    requires Inv(s) && MayAct(s) && Ready(s, h) && h.action.Adopt?
    requires q < |s.promises| && Final(s.promises[q].status)
    ensures Inv(RunNoted(s, script, q, h)) && Grows(s, RunNoted(s, script, q, h))
    ensures RunNoted(s, script, q, h).promises[h.action.target].status == s.promises[q].status
  {
    hide Inv;
    var p, v := h.action.target, s.promises[q].status.value;
    var s1 := Call(s, h.child);
    CallKeeps(s, h.child);
    assert Free(s1, p) && p != h.child;
    var s2 := Settle(s1, p, s.promises[q].status);
    SettleKeeps(s1, p, s.promises[q].status);
    assert Held(s2, h.child);
    HeldIsFree(s2, h.child);
    SettleKeeps(s2, h.child, Fulfilled(Data(0)));
    assert RunNoted(s, script, q, h) == Settle(s2, h.child, Fulfilled(Data(0)));
  }

  lemma CallGrows(s: Sys, p: nat)
    requires p < |s.promises|
    ensures Grows(s, Call(s, p))
  {
  }

  lemma RunNotedKeeps(s: Sys, script: Script, q: nat, h: Handler)
    requires Inv(s) && MayAct(s) && Ready(s, h)
    requires q < |s.promises| && Final(s.promises[q].status)
    ensures Inv(RunNoted(s, script, q, h)) && Grows(s, RunNoted(s, script, q, h))
  {
    if h.action.Adopt? {
      AdoptionKeeps(s, script, q, h);
    } else {
      var s1, v := Call(s, h.child), s.promises[q].status.value;
      CallKeeps(s, h.child);
      CallGrows(s, h.child);
      assert Held(s1, h.child);
      HeldIsFree(s1, h.child);
      assert MayAct(s1);
      hide Inv, Grows, Held, Free, MayAct, Call, Deliver, DoResolve, DoReject, NoParent;
      UserHandlerKeeps(s, s1, script, q, h);
    }
  }

  lemma UserHandlerKeeps(s: Sys, s1: Sys, script: Script, q: nat, h: Handler)
    requires h.action.User? && q < |s.promises| && Final(s.promises[q].status)
    requires SensibleHandler(s, h) && !s.promises[h.child].called
    requires s1 == Call(s, h.child) && Inv(s1) && Grows(s, s1) && Held(s1, h.child) && Free(s1, h.child) && MayAct(s1)
    ensures Inv(RunNoted(s, script, q, h)) && Grows(s, RunNoted(s, script, q, h))
  {
    hide Inv, Grows, Free, MayAct, Call, Deliver, DoResolve, DoReject;
    var v, n := s.promises[q].status.value, RunNoted(s, script, q, h);
    if s.promises[q].status.Fulfilled? {
      if h.action.onFulfilled.Some? {
        DeliverKeeps(s1, script, h.child, h.action.onFulfilled.value, v);
      } else {
        DoResolveKeeps(s1, h.child, v);
        ResolveGrows(s1, h.child, v);
      }
    } else if h.action.onRejected.Some? {
      DeliverKeeps(s1, script, h.child, h.action.onRejected.value, v);
    } else {
      DoRejectKeeps(s1, h.child, Wrapped(v));
      RejectGrows(s1, h.child, Wrapped(v));
    }
    GrowsOn(s, s1, n);
  }

  // ----- Taking the next handler -----

  lemma {:induction false} PopHead(tasks: seq<Task>, q: nat, mark: Task)
    requires tasks != []
    ensures Times(tasks[1..], mark) == Times(tasks, mark) - if tasks[0] == mark then 1 else 0
    ensures Lates(tasks, q) == (if tasks[0].Late? && tasks[0].p == q then [tasks[0].h] else []) + Lates(tasks[1..], q)
    ensures tasks[0] != mark ==>
              Ahead(tasks, q, mark) == (if tasks[0].Late? && tasks[0].p == q then [tasks[0].h] else [])
                  + Ahead(tasks[1..], q, mark)
    ensures tasks[0] == mark ==> Ahead(tasks, q, mark) == []
  {
    assert tasks == [tasks[0]] + tasks[1..];
  }

  /** `h` is the next registration of `q` to run. */
  ghost predicate IsNext(s: Sys, q: nat, h: Handler) {
    && q < |s.promises| && |s.promises[q].past.ran| < |s.promises[q].past.thens|
    && s.promises[q].past.thens[|s.promises[q].past.ran|] == h
  }

  lemma NoteBears(s: Sys, n: Sys, q: nat, h: Handler)
    requires (forall r: nat :: r < |s.promises| ==> Children(s, r)) && IsNext(s, q, h)
    requires n.promises == Note(s, q, h).promises
    requires !s.promises[q].status.Pending?
    ensures (forall r: nat :: r < |n.promises| ==> Children(n, r)) && Ready(n, h)
  {
    var at := |s.promises[q].past.ran|;
    assert Children(s, q);
    assert Born(s, q, at) && Untouched(s, h);
    forall r: nat | r < |n.promises| ensures Children(n, r) {
      assert Children(s, r);
      forall i: nat | i < |n.promises[r].past.thens|
        ensures Born(n, r, i) && (i >= |n.promises[r].past.ran| ==> Untouched(n, n.promises[r].past.thens[i]))
      {
        assert Born(s, r, i);
      }
    }
    forall r: nat, i: nat | r < |n.promises| && |n.promises[r].past.ran| <= i < |n.promises[r].past.thens|
      ensures n.promises[r].past.thens[i].child != h.child
      ensures h.action.Adopt? ==> n.promises[r].past.thens[i].action != Adopt(h.action.target)
    {
      assert Children(s, r);
      assert Born(s, r, i);
    }
  }

  lemma NextIsLined(s: Sys, n: Sys)
    requires s.active.Flushing? && s.active.rest != [] && s.active.p < |s.promises| && Lined(s, s.active.p)
    requires n == Note(s.(active := Flushing(s.active.p, s.active.rest[1..])), s.active.p, s.active.rest[0])
    ensures Lined(n, s.active.p) && IsNext(s, s.active.p, s.active.rest[0])
  {
    hide Lates;
    var q, h, rest := s.active.p, s.active.rest[0], s.active.rest[1..];
    var ran, lates := s.promises[q].past.ran, Lates(s.tasks, q);
    assert s.active.rest == [h] + rest;
    assert s.promises[q].past.thens == (ran + [h]) + rest + lates;
  }

  lemma NextKeeps(s: Sys)
    requires Inv(s) && s.active.Flushing? && s.active.rest != []
    ensures var n := Note(s.(active := Flushing(s.active.p, s.active.rest[1..])), s.active.p, s.active.rest[0]);
      Inv(n) && MayAct(n) && Ready(n, s.active.rest[0])
  {
    hide Lined, Phased, Queued, Reporting, Children, Ready;
    var q, h := s.active.p, s.active.rest[0];
    var n := Note(s.(active := Flushing(q, s.active.rest[1..])), q, h);
    assert Kept(s, q);
    NextIsLined(s, n);
    forall r: nat | r < |s.promises| ensures Children(s, r) && Tracked(n, r) {
      assert Kept(s, r);
      NextTracks(s, r);
    }
    NoteBears(s, n, q, h);
    forall i | 0 <= i < |n.tasks| ensures SensibleTask(n, n.tasks[i]) {
      assert SensibleTask(s, s.tasks[i]);
    }
  }

  lemma NextTracks(s: Sys, r: nat)
    requires s.active.Flushing? && s.active.rest != [] && s.active.p < |s.promises| &&
        s.promises[s.active.p].past.flushed
    requires !s.promises[s.active.p].status.Pending?
    requires r < |s.promises| && Tracked(s, r)
    ensures Tracked(Note(s.(active := Flushing(s.active.p, s.active.rest[1..])), s.active.p, s.active.rest[0]), r)
  {
    var n := Note(s.(active := Flushing(s.active.p, s.active.rest[1..])), s.active.p, s.active.rest[0]);
    if r == s.active.p {
      NextIsLined(s, n);
      hide Lates, Ahead, Times, Lined;
    } else {
      hide Lates, Ahead, Times;
    }
  }

  // ----- Taking a late handler -----

  lemma LateIsNext(s: Sys, n: Sys)
    requires s.active.Idle? && s.tasks != [] && s.tasks[0].Late? && s.tasks[0].p < |s.promises|
    requires Tracked(s, s.tasks[0].p) && !s.promises[s.tasks[0].p].status.Pending?
    requires n == Note(s.(tasks := s.tasks[1..]), s.tasks[0].p, s.tasks[0].h)
    ensures IsNext(s, s.tasks[0].p, s.tasks[0].h) && Lined(n, s.tasks[0].p) && s.promises[s.tasks[0].p].past.flushed
  {
    hide Lates, Ahead, Times;
    var q, h := s.tasks[0].p, s.tasks[0].h;
    PopHead(s.tasks, q, Flush(q));
    var ran, lates := s.promises[q].past.ran, Lates(s.tasks[1..], q);
    assert s.promises[q].past.thens == (ran + [h]) + [] + lates;
  }

  lemma LateTracks(s: Sys, r: nat)
    requires s.active.Idle? && s.tasks != [] && s.tasks[0].Late? && s.tasks[0].p < |s.promises|
    requires Tracked(s, s.tasks[0].p) && !s.promises[s.tasks[0].p].status.Pending?
    requires r < |s.promises| && Tracked(s, r)
    ensures Tracked(Note(s.(tasks := s.tasks[1..]), s.tasks[0].p, s.tasks[0].h), r)
  {
    if r == s.tasks[0].p {
      LateTracksSelf(s);
    } else {
      hide Tracked;
      OthersPop(s, Note(s.(tasks := s.tasks[1..]), s.tasks[0].p, s.tasks[0].h), r);
    }
  }

  lemma LateTracksSelf(s: Sys)
    requires s.active.Idle? && s.tasks != [] && s.tasks[0].Late? && s.tasks[0].p < |s.promises|
    requires Tracked(s, s.tasks[0].p) && !s.promises[s.tasks[0].p].status.Pending?
    ensures Tracked(Note(s.(tasks := s.tasks[1..]), s.tasks[0].p, s.tasks[0].h), s.tasks[0].p)
  {
    hide Lates, Ahead, Times, Lined;
    var q, h := s.tasks[0].p, s.tasks[0].h;
    var n := Note(s.(tasks := s.tasks[1..]), q, h);
    PopHead(s.tasks, q, Flush(q));
    PopHead(s.tasks, q, Report(q));
    LateIsNext(s, n);
  }

  lemma LateKeeps(s: Sys)
    requires Inv(s) && s.active.Idle? && s.tasks != [] && s.tasks[0].Late?
    ensures var q, h := s.tasks[0].p, s.tasks[0].h;
      SensibleTask(s, s.tasks[0]) &&
      var n := Note(s.(tasks := s.tasks[1..]), q, h); Inv(n) && MayAct(n) && Ready(n, h)
  {
    hide Tracked, Children, Ready;
    var q, h := s.tasks[0].p, s.tasks[0].h;
    assert SensibleTask(s, s.tasks[0]);
    var n := Note(s.(tasks := s.tasks[1..]), q, h);
    assert Kept(s, q);
    LateIsNext(s, n);
    forall r: nat | r < |s.promises| ensures Children(s, r) && Tracked(n, r) {
      assert Kept(s, r);
      LateTracks(s, r);
    }
    NoteBears(s, n, q, h);
    forall i | 0 <= i < |n.tasks| ensures SensibleTask(n, n.tasks[i]) {
      assert SensibleTask(s, s.tasks[i + 1]);
    }
  }

  // ----- The other callbacks -----

  /** Taking a callback of another promise leaves `r` tracked. */
  lemma OthersPop(s: Sys, n: Sys, r: nat)
    requires s.tasks != [] && r < |s.promises| && |n.promises| == |s.promises| && Tracked(s, r)
    requires n.promises[r] == s.promises[r] && n.tasks == s.tasks[1..] && !InFlush(s, r) && !InFlush(n, r)
    requires !(s.tasks[0].Late? && s.tasks[0].p == r) && s.tasks[0] != Flush(r) && s.tasks[0] != Report(r)
    ensures Tracked(n, r)
  {
    hide Tracked, Lates, Ahead, Times;
    PopElse(s.tasks, r);
    SameTracks(s, n, r);
  }

  lemma PopElse(tasks: seq<Task>, r: nat)
    requires tasks != [] && !(tasks[0].Late? && tasks[0].p == r) && tasks[0] != Flush(r) && tasks[0] != Report(r)
    ensures Lates(tasks[1..], r) == Lates(tasks, r)
    ensures Times(tasks[1..], Flush(r)) == Times(tasks, Flush(r)) &&
        Times(tasks[1..], Report(r)) == Times(tasks, Report(r))
    ensures Ahead(tasks[1..], r, Flush(r)) == Ahead(tasks, r, Flush(r)) &&
        Ahead(tasks[1..], r, Report(r)) == Ahead(tasks, r, Report(r))
  {
    hide Lates, Ahead, Times;
    PopHead(tasks, r, Flush(r));
    PopHead(tasks, r, Report(r));
    var rest := tasks[1..];
    assert [] + Lates(rest, r) == Lates(rest, r);
    assert [] + Ahead(rest, r, Flush(r)) == Ahead(rest, r, Flush(r));
    assert [] + Ahead(rest, r, Report(r)) == Ahead(rest, r, Report(r));
  }

  lemma StartTracks(s: Sys, r: nat)
    requires s.active.Idle? && s.tasks != [] && s.tasks[0].Flush? && s.tasks[0].p < |s.promises|
    requires r < |s.promises| && Tracked(s, r)
    ensures Tracked(StartFlush(s.(tasks := s.tasks[1..]), s.tasks[0].p), r)
  {
    var n := StartFlush(s.(tasks := s.tasks[1..]), s.tasks[0].p);
    if r == s.tasks[0].p {
      PopHead(s.tasks, r, Flush(r));
      PopHead(s.tasks, r, Report(r));
      hide Lates, Ahead, Times;
      assert Times(s.tasks, Flush(r)) == 1 by {
        FlushIsCounted(s, r);
      }
      var lates := Lates(s.tasks[1..], r);
      assert [] + lates == lates;
      assert Lates(n.tasks, r) == lates;
      assert n.promises[r].past.thens == [] + n.promises[r].handlers + lates;
    } else {
      hide Tracked;
      OthersPop(s, n, r);
    }
  }

  lemma FlushIsCounted(s: Sys, r: nat)
    requires r < |s.promises| && Queued(s, r) && s.tasks != [] && s.tasks[0] == Flush(r)
    ensures Times(s.tasks, Flush(r)) == 1
  {
    assert Flush(r) in multiset(s.tasks);
  }

  lemma ReportIsCounted(s: Sys, r: nat)
    requires r < |s.promises| && Queued(s, r) && s.tasks != [] && s.tasks[0] == Report(r)
    ensures Times(s.tasks, Report(r)) == 1
  {
    assert Report(r) in multiset(s.tasks);
  }

  lemma ReportTracks(s: Sys, script: Script, r: nat)
    requires s.active.Idle? && s.tasks != [] && s.tasks[0].Report? && s.tasks[0].p < |s.promises|
    requires SensibleTask(s, s.tasks[0])
    requires r < |s.promises| && Tracked(s, r)
    ensures Tracked(RunTask(s.(tasks := s.tasks[1..]), script, s.tasks[0]), r)
  {
    var n := RunTask(s.(tasks := s.tasks[1..]), script, s.tasks[0]);
    if r == s.tasks[0].p {
      ReportIsCounted(s, r);
      PopHead(s.tasks, r, Flush(r));
      PopHead(s.tasks, r, Report(r));
      hide Lates, Ahead, Times;
      var lates := Lates(s.tasks[1..], r);
      assert [] + lates == lates;
    } else {
      hide Tracked;
      OthersPop(s, n, r);
    }
  }

  lemma FinishTracks(s: Sys, r: nat)
    requires s.active.Flushing? && s.active.rest == [] && s.active.p < |s.promises| &&
        s.promises[s.active.p].past.flushed
    requires r < |s.promises| && Tracked(s, r)
    ensures Tracked(FinishFlush(s, s.active.p), r)
  {
    if r == s.active.p {
      FinishTracksSelf(s);
    } else if s.promises[s.active.p].status.Rejected? {
      OthersTrack(s, FinishFlush(s, s.active.p), Report(s.active.p), r);
    } else {
      hide Lates, Ahead, Times;
    }
  }

  lemma FinishTracksSelf(s: Sys)
    requires s.active.Flushing? && s.active.rest == [] && s.active.p < |s.promises| &&
        s.promises[s.active.p].past.flushed
    requires Tracked(s, s.active.p)
    ensures Tracked(FinishFlush(s, s.active.p), s.active.p)
  {
    hide Lates, Ahead, Times;
    var q := s.active.p;
    AppendElse(s, Report(q), q);
    var ran, lates := s.promises[q].past.ran, Lates(s.tasks, q);
    assert lates + [] == lates;
    assert ran + [] + lates == s.promises[q].past.thens;
  }

  // ----- Every move keeps the invariant -----

  /** The two promises agree in what `Children` looks at. */
  predicate Alike(a: Promise, b: Promise) {
    && a.status == b.status && a.called == b.called && a.derived == b.derived
    && a.past.thens == b.past.thens && a.past.ran == b.past.ran
    && a.past.adopting == b.past.adopting && a.past.origin == b.past.origin
  }

  lemma ChildrenStay(s: Sys, n: Sys, r: nat)
    requires |n.promises| == |s.promises| && forall p: nat :: p < |s.promises| ==> Alike(s.promises[p], n.promises[p])
    requires r < |s.promises| && Children(s, r)
    ensures Children(n, r)
  {
    assert Alike(s.promises[r], n.promises[r]);
    forall i: nat | i < |n.promises[r].past.thens|
      ensures Born(n, r, i) && (i >= |n.promises[r].past.ran| ==> Untouched(n, n.promises[r].past.thens[i]))
    {
      assert Born(s, r, i);
      var h := s.promises[r].past.thens[i];
      assert Alike(s.promises[h.child], n.promises[h.child]);
      if h.action.Adopt? {
        assert Alike(s.promises[h.action.target], n.promises[h.action.target]);
      }
    }
  }

  lemma PopKeeps(s: Sys, script: Script)
    requires Inv(s) && s.active.Idle? && s.tasks != []
    ensures Inv(Moved(s, script, Pop))
  {
    var t, n := s.tasks[0], Moved(s, script, Pop);
    assert SensibleTask(s, t);
    if t.Late? {
      LateKeeps(s);
      hide Inv, RunNoted;
      RunNotedKeeps(Note(s.(tasks := s.tasks[1..]), t.p, t.h), script, t.p, t.h);
    } else if t.Run? {
      PopRunKeeps(s, script);
    } else {
      PopMarkKeeps(s, script);
    }
  }

  lemma PoppedRunKeeps(s: Sys)
    requires Inv(s) && s.active.Idle? && s.tasks != [] && s.tasks[0].Run?
    ensures Inv(s.(tasks := s.tasks[1..]))
  {
    hide Tracked, Children, Sensible;
    var popped := s.(tasks := s.tasks[1..]);
    PoppedIsSensible(s, popped);
    forall r: nat | r < |s.promises| ensures Tracked(popped, r) && Children(popped, r) {
      assert Kept(s, r);
      OthersPop(s, popped, r);
      ChildrenStay(s, popped, r);
    }
  }

  lemma PopRunKeeps(s: Sys, script: Script)
    requires Inv(s) && s.active.Idle? && s.tasks != [] && s.tasks[0].Run?
    ensures Inv(Moved(s, script, Pop))
  {
    hide Tracked, Children;
    PoppedRunKeeps(s);
    DoAllKeeps(s.(tasks := s.tasks[1..]), script(s.tasks[0].k, Data(0)).ops);
  }

  lemma PopMarkKeeps(s: Sys, script: Script)
    requires Inv(s) && s.active.Idle? && s.tasks != [] && (s.tasks[0].Flush? || s.tasks[0].Report?)
    ensures Inv(Moved(s, script, Pop))
  {
    hide Tracked, Children, Sensible;
    var t, n := s.tasks[0], Moved(s, script, Pop);
    StartIsSensible(s, script);
    forall r: nat | r < |s.promises| ensures Tracked(n, r) && Children(n, r) {
      assert Kept(s, r);
      ChildrenStay(s, n, r);
      if t.Flush? {
        StartTracks(s, r);
      } else {
        ReportTracks(s, script, r);
      }
    }
  }

  lemma PoppedIsSensible(s: Sys, n: Sys)
    requires Sensible(s) && s.active.Idle? && s.tasks != [] && n == s.(tasks := s.tasks[1..])
    ensures Sensible(n)
  {
    forall i | 0 <= i < |n.tasks| ensures SensibleTask(n, n.tasks[i]) {
      assert SensibleTask(s, s.tasks[i + 1]);
    }
  }

  lemma StartIsSensible(s: Sys, script: Script)
    requires Inv(s) && s.active.Idle? && s.tasks != [] && (s.tasks[0].Flush? || s.tasks[0].Report?)
    ensures SensibleTask(s, s.tasks[0])
    ensures Sensible(RunTask(s.(tasks := s.tasks[1..]), script, s.tasks[0]))
  {
    var t, q := s.tasks[0], s.tasks[0].p;
    assert SensibleTask(s, t);
    var n := RunTask(s.(tasks := s.tasks[1..]), script, t);
    assert Kept(s, q);
    forall i | 0 <= i < |n.tasks| ensures SensibleTask(n, n.tasks[i]) {
      assert SensibleTask(s, s.tasks[i + 1]);
    }
    if t.Flush? {
      FlushIsCounted(s, q);
      hide Lates, Ahead, Times;
      var handlers := s.promises[q].handlers;
      forall i: nat | i < |handlers| ensures SensibleHandler(n, handlers[i]) {
        assert s.promises[q].past.thens[i] == handlers[i];
        assert Born(s, q, i);
      }
    }
  }

  lemma NextMoveKeeps(s: Sys, script: Script)
    requires Inv(s) && Possible(s, Next)
    ensures Inv(Moved(s, script, Next))
  {
    hide RunNoted, Tracked, Children;
    var q, h := s.active.p, s.active.rest[0];
    assert SensibleHandler(s, h);
    NextKeeps(s);
    RunNotedKeeps(Note(s.(active := Flushing(q, s.active.rest[1..])), q, h), script, q, h);
  }

  lemma EndKeeps(s: Sys)
    requires Inv(s) && Possible(s, EndFlush)
    ensures Inv(FinishFlush(s, s.active.p))
  {
    hide Tracked, Children, SensibleTask;
    var n := FinishFlush(s, s.active.p);
    EndIsSensible(s);
    forall r: nat | r < |s.promises| ensures Tracked(n, r) && Children(n, r) {
      assert Kept(s, r);
      FinishTracks(s, r);
      ChildrenStay(s, n, r);
    }
  }

  lemma EndIsSensible(s: Sys)
    requires Sensible(s) && Possible(s, EndFlush)
    ensures Sensible(FinishFlush(s, s.active.p))
  {
    var n := FinishFlush(s, s.active.p);
    forall i | 0 <= i < |n.tasks| ensures SensibleTask(n, n.tasks[i]) {
      if i < |s.tasks| {
        assert SensibleTask(s, s.tasks[i]);
      }
    }
  }

  lemma MoveKeepsInv(s: Sys, script: Script, m: Move)
    requires Inv(s) && Possible(s, m)
    ensures Inv(Moved(s, script, m))
  {
    match m
    case Act(op) => DoKeeps(s, op);
    case Pop => PopKeeps(s, script);
    case Next => NextMoveKeeps(s, script);
    case EndFlush => EndKeeps(s);
  }
}
