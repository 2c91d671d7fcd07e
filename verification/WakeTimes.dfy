/** For when the timer is set, and how long the blocking wait lasts: what a thread's own steps come to,
    with any steps of the other threads in between. */
module WakeTimes {
  import opened Options
  import opened WakeUp
  import opened WakeUpTheorems
  import opened LockOrder
  import opened Arming

  ghost predicate Elsewhere(steps: seq<Step>, t: Thread) {
    forall i :: 0 <= i < |steps| ==> By(steps[i]) != Some(t)
  }

  /** `t` takes this step in `s`; then the clock and the other threads move for a while, up to `n`. */
  ghost predicate Leads(s: State, t: Thread, step: Step, n: State) {
    && By(step) == Some(t) && Enabled(s, step)
    && exists others :: Elsewhere(others, t) && Possible(Apply(s, step), others) && n == After(Apply(s, step), others)
  }

  // ----- What the others leave alone -----

  lemma OtherLeaves(s: State, step: Step, t: Thread)
    requires Enabled(s, step) && By(step) != Some(t)
    ensures CallOf(Apply(s, step), t) == CallOf(s, t)
    ensures t.Main? && !s.main.Sleeping? ==> Apply(s, step).main == s.main && Apply(s, step).exec == s.exec
  {
  }

  lemma {:induction false} OthersLeave(s: State, steps: seq<Step>, t: Thread)
    requires Possible(s, steps) && Elsewhere(steps, t)
    ensures CallOf(After(s, steps), t) == CallOf(s, t)
    ensures t.Main? && !s.main.Sleeping? ==> After(s, steps).main == s.main && After(s, steps).exec == s.exec
    decreases |steps|
  {
    if steps != [] {
      OtherLeaves(s, steps[0], t);
      OthersLeave(Apply(s, steps[0]), steps[1..], t);
    }
  }

  /** Queued entries never change, and ids are not given out again. */
  ghost predicate EntriesStay(q: Queues, n: Queues) {
    && q.nextId <= n.nextId
    && forall id :: id in n.pending && id < q.nextId ==> id in q.pending && n.pending[id] == q.pending[id]
  }

  lemma StepKeepsEntries(s: State, step: Step)
    requires Enabled(s, step)
    ensures EntriesStay(s.queues, Apply(s, step).queues)
  {
  }

  lemma {:induction false} RunKeepsEntries(s: State, steps: seq<Step>)
    requires Possible(s, steps)
    ensures EntriesStay(s.queues, After(s, steps).queues)
    decreases |steps|
  {
    if steps != [] {
      StepKeepsEntries(s, steps[0]);
      RunKeepsEntries(Apply(s, steps[0]), steps[1..]);
    }
  }

  // ----- A scheduling call -----

  lemma CallLeads(s: State, t: Thread, m: CallMove, n: State)
    requires Inv(s) && Leads(s, t, InCall(t, m), n)
    ensures Inv(n) && CallOf(n, t) == NextCall(s, t, m)
    ensures EntriesStay(Apply(s, InCall(t, m)).queues, n.queues)
  {
    hide Inv;
    var step := InCall(t, m);
    var others :| Elsewhere(others, t) && Possible(Apply(s, step), others) && n == After(Apply(s, step), others);
    StepKeepsInv(s, step);
    RunKeepsInv(Apply(s, step), others);
    CallAfter(s, t, m, t);
    OthersLeave(Apply(s, step), others, t);
    RunKeepsEntries(Apply(s, step), others);
  }

  lemma CallLocks(a: State, b: State, c: State, d: State, t: Thread, loop: int, when: Instant, outer: bool)
    requires Inv(a) && Leads(a, t, InCall(t, Begin(loop, when, outer)), b) && loop in b.queues.tree
    requires Leads(b, t, InCall(t, LookUp), c) && Leads(c, t, InCall(t, LockToAdd), d)
    ensures Inv(d) && CallOf(d, t) == Adding(loop, when, outer)
  {
    hide Inv, Leads;
    CallLeads(a, t, Begin(loop, when, outer), b);
    CallLeads(b, t, LookUp, c);
    CallLeads(c, t, LockToAdd, d);
  }

  /** The callback that a call was made with is in its loop's queue when it comes to its read. */
  lemma CallInserts(a: State, b: State, c: State, t: Thread)
    requires Inv(a) && CallOf(a, t).Adding? && Leads(a, t, InCall(t, Add), b) && Leads(b, t, InCall(t, LockToRead), c)
    ensures Inv(c) && CallOf(c, t) == Reading(CallOf(a, t).loop, a.queues.nextId, CallOf(a, t).outer)
    ensures CallOf(a, t).loop in c.queues.tree && CallOf(a, t).loop in c.queues.tree[CallOf(a, t).loop]
    ensures a.queues.nextId in c.queues.pending
    ensures c.queues.pending[a.queues.nextId] == Entry(CallOf(a, t).loop, CallOf(a, t).when)
  {
    hide TableLocked, TimerLocked, PipeLocked, PipeKept, MainKept, TimerKept, SleepKept, Leads;
    CallLeads(a, t, Add, b);
    CallLeads(b, t, LockToRead, c);
    assert CallKept(c, CallOf(c, t));
  }

  lemma CallSets(a: State, b: State, c: State, t: Thread, next: Instant)
    requires Inv(a) && Leads(a, t, InCall(t, Read(next)), b) && Leads(b, t, InCall(t, LockTimer), c)
    ensures CallEnabled(c, t, Set) && Apply(c, InCall(t, Set)).timer.wakeAt == Some(next)
  {
    hide Inv;
    CallLeads(a, t, Read(next), b);
    CallLeads(b, t, LockTimer, c);
  }

  /** A whole scheduling call of `t`, state by state, up to the step that sets the timer. */
  ghost predicate Calls(s: seq<State>, t: Thread, loop: int, when: Instant, outer: bool, next: Instant) {
    && |s| == 8 && Inv(s[0])
    && Leads(s[0], t, InCall(t, Begin(loop, when, outer)), s[1]) && loop in s[1].queues.tree
    && Leads(s[1], t, InCall(t, LookUp), s[2]) && Leads(s[2], t, InCall(t, LockToAdd), s[3])
    && Leads(s[3], t, InCall(t, Add), s[4]) && Leads(s[4], t, InCall(t, LockToRead), s[5])
    && Leads(s[5], t, InCall(t, Read(next)), s[6]) && Leads(s[6], t, InCall(t, LockTimer), s[7])
  }

  /** What a scheduling call orders: the timer is set for a callback that was pending in the loop's tree when the
      call looked, and for none later than any of those, its own included. */
  lemma CallArms(s: seq<State>, t: Thread, loop: int, when: Instant, outer: bool, next: Instant)
    requires Calls(s, t, loop, when, outer, next)
    ensures CallEnabled(s[7], t, Set) && Apply(s[7], InCall(t, Set)).timer.wakeAt == Some(next)
    ensures var q := s[5].queues;
      && loop in q.tree
      && (exists id :: InLoops(q, q.tree[loop], id) && q.pending[id].when == next)
      && (forall id :: InLoops(q, q.tree[loop], id) ==> next <= q.pending[id].when)
      && (exists id :: InLoops(q, q.tree[loop], id) && q.pending[id] == Entry(loop, when))
      && next <= when
  {
    hide Inv, Apply, CallEnabled, NextCall, Leads, IsNext;
    CallLocks(s[0], s[1], s[2], s[3], t, loop, when, outer);
    CallInserts(s[3], s[4], s[5], t);
    ReadsTheNext(s[5], s[6], t, next);
    CallSets(s[5], s[6], s[7], t, next);
    assert InLoops(s[5].queues, s[5].queues.tree[loop], s[3].queues.nextId);
  }

  lemma ReadsTheNext(a: State, b: State, t: Thread, next: Instant)
    requires CallOf(a, t).Reading? && CallOf(a, t).loop in a.queues.tree && Leads(a, t, InCall(t, Read(next)), b)
    ensures var q := a.queues; var tree := q.tree[CallOf(a, t).loop];
      && (exists id :: InLoops(q, tree, id) && q.pending[id].when == next)
      && (forall id :: InLoops(q, tree, id) ==> next <= q.pending[id].when)
  {
  }

  // ----- Calls on other loops -----

  /** There is one timer, and every call sets it for its own loop's tree. So after a call on another loop it is set
      no later than anything pending below the global loop exactly if something in the call's tree is as early. */
  lemma CallCoversGlobal(s: seq<State>, t: Thread, loop: int, when: Instant, outer: bool, next: Instant)
    requires Calls(s, t, loop, when, outer, next)
    ensures var q := s[5].queues;
      && loop in q.tree && GLOBAL_LOOP in q.tree
      && ((forall id :: InLoops(q, q.tree[GLOBAL_LOOP], id) ==> next <= q.pending[id].when) <==>
          (exists k :: InLoops(q, q.tree[loop], k) &&
             forall id :: InLoops(q, q.tree[GLOBAL_LOOP], id) ==> q.pending[k].when <= q.pending[id].when))
  {
    hide Inv, Apply, CallEnabled, NextCall, Leads, IsNext;
    CallArms(s, t, loop, when, outer, next);
    CallLocks(s[0], s[1], s[2], s[3], t, loop, when, outer);
    CallInserts(s[3], s[4], s[5], t);
    GlobalStays(s[5]);
    var q := s[5].queues;
    if forall id :: InLoops(q, q.tree[GLOBAL_LOOP], id) ==> next <= q.pending[id].when {
      var k :| InLoops(q, q.tree[loop], k) && q.pending[k].when == next;
    }
  }

  lemma GlobalStays(s: State)
    requires Inv(s)
    ensures GLOBAL_LOOP in s.queues.tree
  {
  }

  predicate NoLocks(s: State) {
    s.main.Free? && s.table == Table(None, 0) && s.timer.owner.None?
  }

  function InTheCall(s: State, c: Call): State {
    s.(calls := s.calls[Main := c])
  }

  lemma MainEnters(s: State, loop: int, when: Instant)
    requires NoLocks(s) && CallOf(s, Main).NoCall? && loop in s.queues.tree
    ensures var steps := [InCall(Main, Begin(loop, when, false)), InCall(Main, LookUp)];
      Possible(s, steps) && After(s, steps) == InTheCall(s, Inside(loop, when, false))
  {
    TwoSteps(s, InCall(Main, Begin(loop, when, false)), InCall(Main, LookUp));
  }

  lemma MainLocksToAdd(s: State, loop: int, when: Instant)
    requires NoLocks(s) && CallOf(s, Main) == Inside(loop, when, false)
    ensures Enabled(s, InCall(Main, LockToAdd))
    ensures Apply(s, InCall(Main, LockToAdd)) == InTheCall(s, Adding(loop, when, false)).(table := Table(Some(Main), 1))
  {
  }

  lemma MainInserts(s: State, loop: int, when: Instant)
    requires s.main.Free? && s.table == Table(Some(Main), 1) && CallOf(s, Main) == Adding(loop, when, false)
    ensures Enabled(s, InCall(Main, Add))
    ensures Apply(s, InCall(Main, Add))
         == InTheCall(s.(queues := Enqueued(s.queues, Entry(loop, when)), table := Table(None, 0)),
                      Added(loop, s.queues.nextId, false))
  {
  }

  lemma MainAdds(s: State, loop: int, when: Instant)
    requires NoLocks(s) && CallOf(s, Main) == Inside(loop, when, false)
    ensures var steps := [InCall(Main, LockToAdd), InCall(Main, Add)];
      Possible(s, steps) &&
      After(s, steps) == InTheCall(s.(queues := Enqueued(s.queues, Entry(loop, when))),
                                   Added(loop, s.queues.nextId, false))
  {
    hide Enabled, Apply, Possible, After;
    MainLocksToAdd(s, loop, when);
    MainInserts(InTheCall(s, Adding(loop, when, false)).(table := Table(Some(Main), 1)), loop, when);
    TwoSteps(s, InCall(Main, LockToAdd), InCall(Main, Add));
  }

  lemma MainReads(s: State, next: Instant)
    requires NoLocks(s) && CallOf(s, Main).Added? && !CallOf(s, Main).outer
    requires CallOf(s, Main).loop in s.queues.tree
    requires IsNext(s.queues, s.queues.tree[CallOf(s, Main).loop], Some(next))
    ensures var steps := [InCall(Main, LockToRead), InCall(Main, Read(next))];
      Possible(s, steps) && After(s, steps) == InTheCall(s, Setting(next, false))
  {
    TwoSteps(s, InCall(Main, LockToRead), InCall(Main, Read(next)));
  }

  lemma MainSets(s: State, next: Instant)
    requires NoLocks(s) && CallOf(s, Main) == Setting(next, false)
    ensures var steps := [InCall(Main, LockTimer), InCall(Main, Set)];
      Possible(s, steps) && After(s, steps) == InTheCall(s.(timer := SetTimer(s.timer, next)), NoCall)
  {
    TwoSteps(s, InCall(Main, LockTimer), InCall(Main, Set));
  }

  /** A call of the main thread with nothing in between, from a state in which no lock is held. */
  lemma MainCalls(s: State, loop: int, when: Instant, next: Instant) returns (steps: seq<Step>)
    requires NoLocks(s) && CallOf(s, Main).NoCall? && loop in s.queues.tree
    requires IsNext(Enqueued(s.queues, Entry(loop, when)), s.queues.tree[loop], Some(next))
    ensures Possible(s, steps)
    ensures After(s, steps) == InTheCall(s.(queues := Enqueued(s.queues, Entry(loop, when)),
                                            timer := SetTimer(s.timer, next)), NoCall)
  {
    hide Possible, After, SetTimer, IsNext;
    var id, added := s.queues.nextId, s.(queues := Enqueued(s.queues, Entry(loop, when)));
    var a := [InCall(Main, Begin(loop, when, false)), InCall(Main, LookUp)];
    MainEnters(s, loop, when);
    var b := [InCall(Main, LockToAdd), InCall(Main, Add)];
    MainAdds(InTheCall(s, Inside(loop, when, false)), loop, when);
    var c := [InCall(Main, LockToRead), InCall(Main, Read(next))];
    assert After(InTheCall(s, Inside(loop, when, false)), b) == InTheCall(added, Added(loop, id, false));
    MainReads(InTheCall(added, Added(loop, id, false)), next);
    assert After(InTheCall(added, Added(loop, id, false)), c) == InTheCall(added, Setting(next, false));
    var d := [InCall(Main, LockTimer), InCall(Main, Set)];
    MainSets(InTheCall(added, Setting(next, false)), next);
    RunsJoin(s, a, b);
    RunsJoin(s, a + b, c);
    RunsJoin(s, a + b + c, d);
    steps := a + b + c + d;
  }

  const SECOND: Instant := 1_000_000_000

  /** It happens: a callback waits on the global loop for one second, and a later call on a private loop puts the
      timer off for an hour, with nothing else to wake the console up. */
  lemma PrivateCallPostpones() returns (steps: seq<Step>)
    ensures Possible(Start(0), steps)
    ensures var n := After(Start(0), steps);
      && GLOBAL_LOOP in n.queues.tree
      && (exists id :: InLoops(n.queues, n.queues.tree[GLOBAL_LOOP], id) && n.queues.pending[id].when == SECOND)
      && n.timer.wakeAt == Some(3600 * SECOND) && n.timer.bg.Starting?
      && n.main.Free? && !n.exec && n.pipe.bytes == 0 && forall t :: CallOf(n, t).NoCall?
  {
    var first, second := Entry(GLOBAL_LOOP, SECOND), Entry(1, 3600 * SECOND);
    var q1 := Enqueued(Start(0).queues, first);
    assert InLoops(q1, {GLOBAL_LOOP}, 1);
    steps := MainCalls(Start(0), GLOBAL_LOOP, SECOND, SECOND);
    var s1, tree := After(Start(0), steps), map[GLOBAL_LOOP := {GLOBAL_LOOP}, 1 := {1}];
    OneStep(s1, InMain(Reshape(tree)));
    RunsJoin(Start(0), steps, [InMain(Reshape(tree))]);
    steps := steps + [InMain(Reshape(tree))];
    var s2 := After(Start(0), steps);
    assert InLoops(Enqueued(s2.queues, second), {1}, 2);
    var more := MainCalls(s2, 1, 3600 * SECOND, 3600 * SECOND);
    RunsJoin(Start(0), steps, more);
    steps := steps + more;
    var n := After(Start(0), steps);
    assert InLoops(n.queues, n.queues.tree[GLOBAL_LOOP], 1);
  }

  // ----- The input handler -----

  lemma MainLeads(s: State, step: Step, n: State)
    requires Inv(s) && Leads(s, Main, step, n) && !Apply(s, step).main.Sleeping?
    ensures Inv(n) && n.main == Apply(s, step).main && n.exec == Apply(s, step).exec
  {
    hide Inv;
    var others :| Elsewhere(others, Main) && Possible(Apply(s, step), others) && n == After(Apply(s, step), others);
    StepKeepsInv(s, step);
    RunKeepsInv(Apply(s, step), others);
    OthersLeave(Apply(s, step), others, Main);
  }

  /** Called for the byte in the pipe, the handler has taken it out before it decides anything. */
  lemma HandlerDrainsFirst(s: seq<State>)
    requires |s| == 3 && Inv(s[0])
    requires Leads(s[0], Main, InHandler(Handle), s[1]) && Leads(s[1], Main, InHandler(LockPipe), s[2])
    ensures s[0].pipe.bytes == 1 && Enabled(s[2], InHandler(Drain))
    ensures var n := Apply(s[2], InHandler(Drain)); n.main.Deciding? && n.pipe == Pipe(None, false, 0)
  {
    hide TableLocked, TimerLocked, PipeLocked, CallsKept, LoopsKept, MainKept, TimerKept, SleepKept;
    MainLeads(s[0], InHandler(Handle), s[1]);
    MainLeads(s[1], InHandler(LockPipe), s[2]);
  }

  /** Only outside the execution of callbacks does it run callbacks, as user code, and by then no second handler can. */
  lemma TopLevelRunsCallbacks(s: State)
    requires s.main.Deciding?
    ensures Enabled(s, InHandler(Decide(true))) <==> !s.exec
    ensures !s.exec ==> var n := Apply(s, InHandler(Decide(true))); n.exec && n.main.Free? && n.timer == s.timer
    ensures Enabled(s, InHandler(Decide(false)))
  {
  }

  /** After the callbacks the handler looks for the earliest callback pending in the global loop's tree. If there is
      none it leaves the timer alone ... */
  lemma ResetReads(s: seq<State>, found: Option<Instant>)
    requires |s| == 3 && Inv(s[0])
    requires Leads(s[0], Main, InHandler(EndCallbacks), s[1]) && Leads(s[1], Main, InHandler(LockToReset), s[2])
    requires Enabled(s[2], InHandler(ReadToReset(found)))
    ensures var q := s[2].queues;
      && GLOBAL_LOOP in q.tree
      && (found.None? <==> forall id :: !InLoops(q, q.tree[GLOBAL_LOOP], id))
      && (found.Some? ==> exists id :: InLoops(q, q.tree[GLOBAL_LOOP], id) && q.pending[id].when == found.value)
      && (found.Some? ==> forall id :: InLoops(q, q.tree[GLOBAL_LOOP], id) ==> found.value <= q.pending[id].when)
    ensures found.None? ==>
      var n := Apply(s[2], InHandler(ReadToReset(found))); n.main.Free? && !n.exec && n.timer == s[2].timer
  {
    hide Inv;
    MainLeads(s[0], InHandler(EndCallbacks), s[1]);
    MainLeads(s[1], InHandler(LockToReset), s[2]);
  }

  /** ... and else sets it for exactly that one's time. */
  lemma ResetSets(s: seq<State>, next: Instant)
    requires |s| == 3 && Inv(s[0])
    requires Leads(s[0], Main, InHandler(ReadToReset(Some(next))), s[1])
    requires Leads(s[1], Main, InHandler(LockTimerToReset), s[2])
    ensures Enabled(s[2], InHandler(Reset))
    ensures var n := Apply(s[2], InHandler(Reset)); n.timer.wakeAt == Some(next) && n.main.Free? && !n.exec
  {
    hide Inv;
    MainLeads(s[0], InHandler(ReadToReset(Some(next))), s[1]);
    MainLeads(s[1], InHandler(LockTimerToReset), s[2]);
  }

  /** Away from the top level the handler runs no callbacks and orders the timer for one millisecond after it looked. */
  lemma RearmsInAMillisecond(s: seq<State>)
    requires |s| == 3 && Inv(s[0])
    requires Leads(s[0], Main, InHandler(Decide(false)), s[1])
    requires Leads(s[1], Main, InHandler(LockToRearm), s[2])
    ensures Enabled(s[2], InHandler(Rearm))
    ensures var n := Apply(s[2], InHandler(Rearm));
      n.timer.wakeAt == Some(s[0].now + 1_000_000) && n.main.Free? && n.exec == s[0].exec
  {
    hide Inv;
    MainLeads(s[0], InHandler(Decide(false)), s[1]);
    MainLeads(s[1], InHandler(LockToRearm), s[2]);
  }

  /** Whatever the handler does next, it has emptied the pipe first, so that it is not called again for the same
      byte; a firing puts one there, and one at most is ever in it. */
  lemma PipeIsSwitched(s: State)
    requires Inv(s)
    ensures s.pipe.bytes <= 1
    ensures s.main.Draining? ==> Apply(s, InHandler(Drain)).pipe == Pipe(None, false, 0)
    ensures s.timer.bg.Writing? ==> Apply(s, InTimerThread(BgWrite)).pipe == Pipe(None, true, 1)
  {
  }

  /** A timed wait that has run out fires as soon as the thread has the lock again, unless the timer has been stopped,
      even if the timer has been set for later by then. */
  lemma ElapsedWaitFires(s: State)
    requires Inv(s) && s.timer.bg == BackTimed(true) && BgEnabled(s, BgRelock)
    ensures var n := ApplyBg(s, BgRelock).timer;
      if s.timer.stopped then n.bg.Returned? else n.bg.Firing? && n.wakeAt.None? && n.owner == Some(Background)
  {
  }

  /** In every run, a wait counts as run out only if the time it was for had come. */
  lemma {:induction false} ElapsedWaitsHaveElapsed(start: Instant, steps: seq<Step>) returns (k: nat)
    requires Possible(Start(start), steps) && After(Start(start), steps).timer.bg == BackTimed(true)
    ensures k < |steps| && steps[k] == InTimerThread(BgTimeout) && Possible(Start(start), steps[..k])
    ensures var s := After(Start(start), steps[..k]); s.timer.bg.Timed? && s.timer.bg.deadline <= s.now
    decreases |steps|
  {
    var last := |steps| - 1;
    LastStep(Start(start), steps);
    var s := After(Start(start), steps[..last]);
    if steps[last] == InTimerThread(BgTimeout) {
      k := last;
    } else {
      OnlyTimeoutsElapse(s, steps[last]);
      k := ElapsedWaitsHaveElapsed(start, steps[..last]);
      assert steps[..last][..k] == steps[..k];
    }
  }

  lemma OnlyTimeoutsElapse(s: State, step: Step)
    requires Enabled(s, step) && Apply(s, step).timer.bg == BackTimed(true) && step != InTimerThread(BgTimeout)
    ensures s.timer.bg == BackTimed(true)
  {
    hide CallEnabled, HandlerEnabled, MainEnabled, NextCall, SetFd;
    match step
    case InCall(t, m) => CallElapsesNothing(s, t, m);
    case _ =>
  }

  lemma CallElapsesNothing(s: State, t: Thread, m: CallMove)
    requires CallEnabled(s, t, m) && ApplyCall(s, t, m).timer.bg == BackTimed(true)
    ensures s.timer.bg == BackTimed(true)
  {
    hide NextCall, CallEnabled;
  }

  /** How many of its own steps separate the timer thread from its firing, once the time has come. */
  function ToFire(bg: Bg): nat {
    match bg
    case Firing | Writing => 0
    case Looping => 1
    case Starting | BackUntimed | BackTimed(_) => 2
    case Untimed(_) | Timed(_, _) | Unborn | Returned => 3
  }

  /** When the ordered time has come, every step of the timer thread takes it closer to firing, and it can take one
      unless another thread holds the timer lock, which that thread gives up in its next step. */
  lemma DueTimerFires(s: State)
    requires Inv(s) && !s.timer.stopped && s.timer.wakeAt.Some? && s.timer.wakeAt.value <= s.now
    ensures !s.timer.bg.Firing? && !s.timer.bg.Writing?
    ensures forall m :: BgEnabled(s, m) ==> ToFire(ApplyBg(s, m).timer.bg) < ToFire(s.timer.bg)
    ensures (exists m :: BgEnabled(s, m)) || (s.timer.owner.Some? && s.timer.owner != Some(Background))
    ensures s.timer.owner.Some? && s.timer.owner != Some(Background) ==> GivesUpTheTimer(s)
  {
    hide TableLocked, PipeLocked, PipeKept, LoopsKept, MainKept, SleepKept, GivesUpTheTimer;
    assert CallFits(s, Background);
    assert BgEnabled(s, BgDecide) || BgEnabled(s, BgWake) || BgEnabled(s, BgLock) || BgEnabled(s, BgRelock)
           || s.timer.owner.Some?;
    assert TimerHeld(s, Background) <==> s.timer.owner == Some(Background);
    assert s.timer.owner == Some(Background) ==> BgEnabled(s, BgDecide);
    if s.timer.owner.Some? && s.timer.owner != Some(Background) {
      OthersGiveItUp(s);
    }
  }

  /** Some thread but the timer's own has a step that frees the timer lock. */
  ghost predicate GivesUpTheTimer(s: State) {
    || (exists t :: CallEnabled(s, t, Set) && ApplyCall(s, t, Set).timer.owner.None?)
    || (HandlerEnabled(s, Rearm) && ApplyHandler(s, Rearm).timer.owner.None?)
    || (HandlerEnabled(s, Reset) && ApplyHandler(s, Reset).timer.owner.None?)
    || (MainEnabled(s, RaiseStop) && ApplyMain(s, RaiseStop).timer.owner.None?)
  }

  lemma OthersGiveItUp(s: State)
    requires TimerLocked(s) && s.timer.owner.Some? && s.timer.owner != Some(Background)
    ensures GivesUpTheTimer(s)
  {
    var t := s.timer.owner.value;
    assert TimerHeld(s, t);
    assert CallOf(s, t).InTimer? ==> CallEnabled(s, t, Set);
  }

  /** Taking a callback out of its queue leaves all others there. */
  lemma TakenIsOut(s: State, id: nat)
    requires Enabled(s, InMain(TakeCallback(id)))
    ensures Apply(s, InMain(TakeCallback(id))) == s.(queues := s.queues.(pending := s.queues.pending - {id}))
  {
  }

  // ----- The blocking wait -----

  lemma TermsStay(s: State, step: Step)
    requires Enabled(s, step) && Waiting(Apply(s, step).main)
    requires forall expiry, over :: step != InMain(BeginWait(expiry, over))
    ensures Waiting(s.main)
    ensures Apply(s, step).main.expiry == s.main.expiry && Apply(s, step).main.loop == s.main.loop
  {
    hide CallEnabled, HandlerEnabled, NextCall, SetTimer, SetFd, Decided, Relocked;
    match step
    case InCall(t, m) => CallKeepsTerms(s, t, m);
    case InHandler(m) => HandlerDoesNotWait(s, m);
    case _ =>
  }

  lemma CallKeepsTerms(s: State, t: Thread, m: CallMove)
    requires CallEnabled(s, t, m) && Waiting(ApplyCall(s, t, m).main)
    ensures Waiting(s.main)
    ensures ApplyCall(s, t, m).main.expiry == s.main.expiry && ApplyCall(s, t, m).main.loop == s.main.loop
  {
    hide NextCall, CallEnabled;
  }

  lemma HandlerDoesNotWait(s: State, m: HandlerMove)
    requires HandlerEnabled(s, m)
    ensures !Waiting(ApplyHandler(s, m).main)
  {
  }

  lemma {:induction false} TermsStayAlong(s: State, steps: seq<Step>)
    requires Possible(s, steps) && Waiting(After(s, steps).main)
    requires forall i :: 0 <= i < |steps| ==> !(steps[i].InMain? && steps[i].main.BeginWait?)
    ensures Waiting(s.main)
    ensures After(s, steps).main.expiry == s.main.expiry && After(s, steps).main.loop == s.main.loop
    decreases |steps|
  {
    if steps != [] {
      TermsStayAlong(Apply(s, steps[0]), steps[1..]);
      TermsStay(s, steps[0]);
    }
  }

  /** A wait for this loop and until this expiry, in any run and however often it has slept: when it looks, it
      returns exactly if the expiry or a callback of the loop's tree has come; its answer is whether one is due
      then; and else it goes to sleep until the earliest of those, for two seconds at most. */
  lemma WaitLooksExactly(s: State, expiry: Instant, over: int, steps: seq<Step>, found: Option<Instant>, dueAt: Instant)
    requires Inv(s) && Enabled(s, InMain(BeginWait(expiry, over)))
    requires Possible(Apply(s, InMain(BeginWait(expiry, over))), steps)
    requires forall i :: 0 <= i < |steps| ==> !(steps[i].InMain? && steps[i].main.BeginWait?)
    requires Enabled(After(Apply(s, InMain(BeginWait(expiry, over))), steps), InMain(CheckWait(found, dueAt)))
    ensures var at := After(Apply(s, InMain(BeginWait(expiry, over))), steps);
            var q, n := at.queues, Apply(at, InMain(CheckWait(found, dueAt)));
      && over in q.tree
      && (n.main.Free? <==>
            expiry <= at.now || exists id :: InLoops(q, q.tree[over], id) && q.pending[id].when <= at.now)
      && (n.main.Free? ==>
            n.lastWait == Some(exists id :: InLoops(q, q.tree[over], id) && q.pending[id].when <= dueAt))
      && (!n.main.Free? ==>
            && n.main.WaitReady? && at.now < n.main.until <= at.now + 2_000_000_000 && n.main.until <= expiry
            && (forall id :: InLoops(q, q.tree[over], id) ==> n.main.until <= q.pending[id].when)
            && (n.main.until == at.now + 2_000_000_000 || n.main.until == expiry ||
                exists id :: InLoops(q, q.tree[over], id) && n.main.until == q.pending[id].when))
  {
    var begun := Apply(s, InMain(BeginWait(expiry, over)));
    TermsStayAlong(begun, steps);
    LooksExactly(After(begun, steps), found, dueAt);
  }

  lemma LooksExactly(s: State, found: Option<Instant>, dueAt: Instant)
    requires MainEnabled(s, CheckWait(found, dueAt))
    ensures var q, over, n := s.queues, s.main.loop, ApplyMain(s, CheckWait(found, dueAt));
      && (n.main.Free? <==>
            s.main.expiry <= s.now || exists id :: InLoops(q, q.tree[over], id) && q.pending[id].when <= s.now)
      && (n.main.Free? ==>
            n.lastWait == Some(exists id :: InLoops(q, q.tree[over], id) && q.pending[id].when <= dueAt))
      && (!n.main.Free? ==>
            && n.main.WaitReady? && s.now < n.main.until <= s.now + 2_000_000_000 && n.main.until <= s.main.expiry
            && (forall id :: InLoops(q, q.tree[over], id) ==> n.main.until <= q.pending[id].when)
            && (n.main.until == s.now + 2_000_000_000 || n.main.until == s.main.expiry ||
                exists id :: InLoops(q, q.tree[over], id) && n.main.until == q.pending[id].when))
  {
  }
}
