/** What every interleaving of the wake-up steps keeps, and what follows: locks never deadlock, the
    timer thread is never asleep on a stale order, the blocking wait never misses a schedule, and
    pending work on the global loop always has somebody about to act on it. */
module WakeUpTheorems {
  import opened Options
  import opened WakeUp

  // ----- Who holds what, by program position -----

  function TableHeldIn(c: Call): nat {
    match c
    case NoCall | Arriving(_, _, _) => 0
    case Inside(_, _, outer) => if outer then 1 else 0
    case Adding(_, _, outer) => if outer then 2 else 1
    case Added(_, _, outer) => if outer then 1 else 0
    case Reading(_, _, outer) => if outer then 2 else 1
    case Setting(_, outer) => if outer then 1 else 0
    case InTimer(_, outer) => if outer then 1 else 0
    case Leaving => 1
  }

  function TableHeldAt(main: MainPc): nat {
    match main
    case ResetReading | WaitHead(_, _) | WaitReady(_, _, _) => 1
    case WaitReading(_, _) => 2
    case _ => 0
  }

  /** How deep a thread holds the recursive table lock. */
  function TableHeld(s: State, t: Thread): nat {
    TableHeldIn(CallOf(s, t)) + if t.Main? then TableHeldAt(s.main) else 0
  }

  predicate TimerHeld(s: State, t: Thread) {
    || CallOf(s, t).InTimer?
    || (t.Main? && (s.main.RearmingIn? || s.main.ResetIn? || s.main.StoppingIn?))
    || (t.Background? && (s.timer.bg.Looping? || s.timer.bg.Firing? || s.timer.bg.Writing?))
  }

  predicate PipeHeld(s: State, t: Thread) {
    (t.Main? && s.main.Draining?) || (t.Background? && s.timer.bg.Writing?)
  }

  // ----- The invariant -----

  ghost predicate TableLocked(s: State) {
    && (s.table.owner.None? <==> s.table.depth == 0)
    && forall t :: TableHeld(s, t) == if s.table.owner == Some(t) then s.table.depth else 0
  }

  ghost predicate TimerLocked(s: State) {
    forall t :: TimerHeld(s, t) <==> s.timer.owner == Some(t)
  }

  ghost predicate PipeLocked(s: State) {
    forall t :: PipeHeld(s, t) <==> s.pipe.owner == Some(t)
  }

  /** The pipe holds a byte exactly when `hot` says so, and from the handler's start to its read. */
  ghost predicate PipeKept(s: State) {
    && s.pipe.bytes == (if s.pipe.hot then 1 else 0)
    && (s.main.Quieting? || s.main.Draining? ==> s.pipe.hot)
  }

  /** What a scheduling call relies on while it is under way. */
  ghost predicate CallKept(s: State, c: Call) {
    match c
    case Inside(loop, _, _) => loop in s.queues.tree
    case Adding(loop, _, _) => loop in s.queues.tree
    case Added(loop, id, _) => loop in s.queues.tree && id in s.queues.pending && s.queues.pending[id].loop == loop
    case Reading(loop, id, _) => loop in s.queues.tree && id in s.queues.pending && s.queues.pending[id].loop == loop
    case _ => true
  }

  /** Other threads schedule with the table locked throughout; the main thread only from user code. */
  ghost predicate CallFits(s: State, t: Thread) {
    match t
    case Background => CallOf(s, t).NoCall?
    case Main => CallOf(s, t).NoCall? || s.main.Free?
    case Worker(_) => CallOf(s, t).NoCall? || CallOf(s, t).Leaving? || CallOf(s, t).outer
  }

  ghost predicate CallsKept(s: State) {
    forall t :: CallKept(s, CallOf(s, t)) && CallFits(s, t)
  }

  ghost predicate LoopsKept(s: State) {
    && GLOBAL_LOOP in s.queues.tree
    && (forall k :: k in s.queues.tree ==> k in s.queues.tree[k])
    && (forall id :: id in s.queues.pending ==> id < s.queues.nextId)
  }

  predicate Waiting(main: MainPc) {
    main.WaitArriving? || main.WaitHead? || main.WaitReading? || main.WaitReady? || main.Sleeping? || main.Waking?
  }

  ghost predicate MainKept(s: State) {
    && (Waiting(s.main) ==> s.main.loop in s.queues.tree)
    && (s.main.Resetting? || s.main.ResetReading? || s.main.ResetSetting? || s.main.ResetIn? ==> s.exec)
    && (s.main.Stopping? || s.main.StoppingIn? || s.main.Joining? || s.main.Over? ==> !s.exec && !s.timer.bg.Unborn?)
    // The join outlasts the thread.
    && (s.main.Over? ==> s.timer.bg.Returned?)
  }

  /** The timer protocol: an unsignalled sleeper sleeps on the current order. */
  ghost predicate TimerKept(s: State) {
    && (s.timer.stopped <==> s.main.Joining? || s.main.Over?)
    && match s.timer.bg
       case Unborn => s.timer.wakeAt.None?
       case Untimed(signalled) => !signalled ==> s.timer.wakeAt.None? && !s.timer.stopped
       case Timed(deadline, signalled) =>
         s.timer.wakeAt.Some? && (!signalled ==> s.timer.wakeAt == Some(deadline) && !s.timer.stopped)
       case Starting | BackTimed(_) => s.timer.wakeAt.Some?
       case Firing => s.timer.wakeAt.None? && !s.timer.stopped
       case Writing => s.timer.wakeAt.None? && !s.timer.stopped
       case Returned => s.timer.stopped
       case _ => true
  }

  /** A waiter that nobody has signalled sleeps no longer than the earliest callback of its tree. */
  ghost predicate SleepKept(s: State) {
    s.main.WaitReady? || (s.main.Sleeping? && !s.main.signalled) ==>
      && s.main.loop in s.queues.tree
      && s.main.until <= s.main.expiry
      && forall id :: InLoops(s.queues, s.queues.tree[s.main.loop], id) ==> s.main.until <= s.queues.pending[id].when
  }

  ghost predicate Inv(s: State) {
    && TableLocked(s) && TimerLocked(s) && PipeLocked(s)
    && PipeKept(s) && CallsKept(s) && LoopsKept(s) && MainKept(s)
    && TimerKept(s) && SleepKept(s)
  }

  lemma StartIsKept(now: Instant)
    ensures Inv(Start(now))
  {
  }

  // ----- A step of a scheduling call -----

  lemma CallAfter(s: State, t: Thread, m: CallMove, u: Thread)
    requires CallEnabled(s, t, m)
    ensures CallOf(ApplyCall(s, t, m), u) == if u == t then NextCall(s, t, m) else CallOf(s, u)
  {
  }

  lemma CallKeepsTableLock(s: State, t: Thread, m: CallMove)
    requires TableLocked(s) && CallsKept(s) && CallEnabled(s, t, m)
    ensures TableLocked(ApplyCall(s, t, m))
  {
    var n := ApplyCall(s, t, m);
    assert TableHeld(s, t) == if s.table.owner == Some(t) then s.table.depth else 0;
    assert CallFits(s, t);
    forall u ensures TableHeld(n, u) == if n.table.owner == Some(u) then n.table.depth else 0 {
      CallAfter(s, t, m, u);
      assert TableHeld(s, u) == if s.table.owner == Some(u) then s.table.depth else 0;
    }
  }

  lemma CallKeepsTimerLock(s: State, t: Thread, m: CallMove)
    requires TimerLocked(s) && CallsKept(s) && CallEnabled(s, t, m)
    ensures TimerLocked(ApplyCall(s, t, m))
  {
    var n := ApplyCall(s, t, m);
    assert TimerHeld(s, t) <==> s.timer.owner == Some(t);
    assert CallFits(s, t);
    forall u ensures TimerHeld(n, u) <==> n.timer.owner == Some(u) {
      CallAfter(s, t, m, u);
      assert TimerHeld(s, u) <==> s.timer.owner == Some(u);
    }
  }

  lemma CallKeepsPipe(s: State, t: Thread, m: CallMove)
    requires PipeLocked(s) && PipeKept(s) && CallEnabled(s, t, m)
    ensures PipeLocked(ApplyCall(s, t, m)) && PipeKept(ApplyCall(s, t, m))
  {
    var n := ApplyCall(s, t, m);
    forall u ensures PipeHeld(n, u) <==> n.pipe.owner == Some(u) {
      assert PipeHeld(s, u) <==> s.pipe.owner == Some(u);
    }
  }

  lemma CallKeepsCalls(s: State, t: Thread, m: CallMove)
    requires CallsKept(s) && LoopsKept(s) && CallEnabled(s, t, m)
    ensures CallsKept(ApplyCall(s, t, m))
  {
    var n := ApplyCall(s, t, m);
    assert CallKept(s, CallOf(s, t)) && CallFits(s, t);
    forall u ensures CallKept(n, CallOf(n, u)) && CallFits(n, u) {
      CallAfter(s, t, m, u);
      assert CallKept(s, CallOf(s, u)) && CallFits(s, u);
    }
  }

  lemma CallKeepsLoops(s: State, t: Thread, m: CallMove)
    requires LoopsKept(s) && MainKept(s) && CallEnabled(s, t, m)
    ensures LoopsKept(ApplyCall(s, t, m)) && MainKept(ApplyCall(s, t, m))
  {
  }

  lemma CallKeepsTimer(s: State, t: Thread, m: CallMove)
    requires TimerLocked(s) && CallsKept(s) && TimerKept(s) && CallEnabled(s, t, m)
    ensures TimerKept(ApplyCall(s, t, m))
  {
    assert CallFits(s, t);
    assert TimerHeld(s, t) <==> s.timer.owner == Some(t);
    assert TimerHeld(s, Background) <==> s.timer.owner == Some(Background);
  }

  lemma CallKeepsSleep(s: State, t: Thread, m: CallMove)
    requires TableLocked(s) && CallsKept(s) && SleepKept(s) && CallEnabled(s, t, m)
    ensures SleepKept(ApplyCall(s, t, m))
  {
    assert TableHeld(s, t) == if s.table.owner == Some(t) then s.table.depth else 0;
    assert TableHeld(s, Main) == if s.table.owner == Some(Main) then s.table.depth else 0;
    assert CallFits(s, t);
  }

  lemma CallKeepsInv(s: State, t: Thread, m: CallMove)
    requires Inv(s) && CallEnabled(s, t, m)
    ensures Inv(ApplyCall(s, t, m))
  {
    hide ApplyCall, CallEnabled;
    CallKeepsTableLock(s, t, m);
    CallKeepsTimerLock(s, t, m);
    CallKeepsPipe(s, t, m);
    CallKeepsCalls(s, t, m);
    CallKeepsLoops(s, t, m);
    CallKeepsTimer(s, t, m);
    CallKeepsSleep(s, t, m);
  }

  // ----- A step of the timer thread -----

  lemma BgKeepsTable(s: State, m: BgMove)
    requires TableLocked(s) && BgEnabled(s, m)
    ensures TableLocked(ApplyBg(s, m))
  {
    var n := ApplyBg(s, m);
    forall u ensures TableHeld(n, u) == if n.table.owner == Some(u) then n.table.depth else 0 {
      assert TableHeld(s, u) == if s.table.owner == Some(u) then s.table.depth else 0;
    }
  }

  lemma BgKeepsTimerLock(s: State, m: BgMove)
    requires TimerLocked(s) && CallsKept(s) && BgEnabled(s, m)
    ensures TimerLocked(ApplyBg(s, m))
  {
    var n := ApplyBg(s, m);
    assert CallFits(s, Background);
    assert TimerHeld(s, Background) <==> s.timer.owner == Some(Background);
    forall u ensures TimerHeld(n, u) <==> n.timer.owner == Some(u) {
      assert TimerHeld(s, u) <==> s.timer.owner == Some(u);
    }
  }

  lemma BgKeepsPipeLock(s: State, m: BgMove)
    requires PipeLocked(s) && BgEnabled(s, m)
    ensures PipeLocked(ApplyBg(s, m))
  {
    var n := ApplyBg(s, m);
    assert PipeHeld(s, Background) <==> s.pipe.owner == Some(Background);
    forall u ensures PipeHeld(n, u) <==> n.pipe.owner == Some(u) {
      assert PipeHeld(s, u) <==> s.pipe.owner == Some(u);
    }
  }

  lemma BgKeepsTimer(s: State, m: BgMove)
    requires TimerLocked(s) && TimerKept(s) && BgEnabled(s, m)
    ensures TimerKept(ApplyBg(s, m))
  {
  }

  lemma BgKeepsRest(s: State, m: BgMove)
    requires PipeKept(s) && CallsKept(s) && LoopsKept(s) && MainKept(s) && SleepKept(s) && BgEnabled(s, m)
    ensures var n := ApplyBg(s, m); PipeKept(n) && CallsKept(n) && LoopsKept(n) && MainKept(n) && SleepKept(n)
  {
    var n := ApplyBg(s, m);
    forall t ensures CallKept(n, CallOf(n, t)) && CallFits(n, t) {
      assert CallKept(s, CallOf(s, t)) && CallFits(s, t);
    }
  }

  lemma BgKeepsInv(s: State, m: BgMove)
    requires Inv(s) && BgEnabled(s, m)
    ensures Inv(ApplyBg(s, m))
  {
    hide ApplyBg, BgEnabled;
    BgKeepsTable(s, m);
    BgKeepsTimerLock(s, m);
    BgKeepsPipeLock(s, m);
    BgKeepsTimer(s, m);
    BgKeepsRest(s, m);
  }

  // ----- A step of the input handler -----

  lemma HandlerKeepsTable(s: State, m: HandlerMove)
    requires TableLocked(s) && CallsKept(s) && HandlerEnabled(s, m)
    ensures TableLocked(ApplyHandler(s, m))
  {
    var n := ApplyHandler(s, m);
    assert CallFits(s, Main);
    assert TableHeld(s, Main) == if s.table.owner == Some(Main) then s.table.depth else 0;
    forall u ensures TableHeld(n, u) == if n.table.owner == Some(u) then n.table.depth else 0 {
      assert TableHeld(s, u) == if s.table.owner == Some(u) then s.table.depth else 0;
    }
  }

  lemma HandlerKeepsTimerLock(s: State, m: HandlerMove)
    requires TimerLocked(s) && CallsKept(s) && HandlerEnabled(s, m)
    ensures TimerLocked(ApplyHandler(s, m))
  {
    var n := ApplyHandler(s, m);
    assert CallFits(s, Main);
    assert TimerHeld(s, Main) <==> s.timer.owner == Some(Main);
    forall u ensures TimerHeld(n, u) <==> n.timer.owner == Some(u) {
      assert TimerHeld(s, u) <==> s.timer.owner == Some(u);
    }
  }

  lemma HandlerKeepsPipeLock(s: State, m: HandlerMove)
    requires PipeLocked(s) && HandlerEnabled(s, m)
    ensures PipeLocked(ApplyHandler(s, m))
  {
    var n := ApplyHandler(s, m);
    assert PipeHeld(s, Main) <==> s.pipe.owner == Some(Main);
    forall u ensures PipeHeld(n, u) <==> n.pipe.owner == Some(u) {
      assert PipeHeld(s, u) <==> s.pipe.owner == Some(u);
    }
  }

  lemma HandlerKeepsTimer(s: State, m: HandlerMove)
    requires TimerLocked(s) && TimerKept(s) && HandlerEnabled(s, m)
    ensures TimerKept(ApplyHandler(s, m))
  {
    assert TimerHeld(s, Main) <==> s.timer.owner == Some(Main);
    assert TimerHeld(s, Background) <==> s.timer.owner == Some(Background);
  }

  lemma HandlerKeepsRest(s: State, m: HandlerMove)
    requires PipeKept(s) && LoopsKept(s) && MainKept(s) && HandlerEnabled(s, m)
    ensures var n := ApplyHandler(s, m); PipeKept(n) && LoopsKept(n) && MainKept(n) && SleepKept(n)
  {
  }

  lemma HandlerKeepsCalls(s: State, m: HandlerMove)
    requires CallsKept(s) && HandlerEnabled(s, m)
    ensures CallsKept(ApplyHandler(s, m))
  {
    var n := ApplyHandler(s, m);
    assert CallFits(s, Main);
    forall t ensures CallKept(n, CallOf(n, t)) && CallFits(n, t) {
      assert CallKept(s, CallOf(s, t)) && CallFits(s, t);
    }
  }

  lemma HandlerKeepsInv(s: State, m: HandlerMove)
    requires Inv(s) && HandlerEnabled(s, m)
    ensures Inv(ApplyHandler(s, m))
  {
    hide ApplyHandler, HandlerEnabled;
    HandlerKeepsTable(s, m);
    HandlerKeepsTimerLock(s, m);
    HandlerKeepsPipeLock(s, m);
    HandlerKeepsTimer(s, m);
    HandlerKeepsRest(s, m);
    HandlerKeepsCalls(s, m);
  }

  // ----- A step of the main thread -----

  lemma MainKeepsTable(s: State, m: MainMove)
    requires TableLocked(s) && CallsKept(s) && MainEnabled(s, m)
    ensures TableLocked(ApplyMain(s, m))
  {
    hide TableHeld;
    MainKeepsOwnDepth(s, m);
    forall u | u != Main {
      MainKeepsOtherDepths(s, m, u);
    }
  }

  lemma MainKeepsOwnDepth(s: State, m: MainMove)
    requires TableLocked(s) && CallsKept(s) && MainEnabled(s, m)
    ensures var n := ApplyMain(s, m);
      && (n.table.owner.Some? <==> n.table.depth > 0)
      && TableHeld(n, Main) == if n.table.owner == Some(Main) then n.table.depth else 0
  {
    assert CallFits(s, Main);
    assert TableHeld(s, Main) == if s.table.owner == Some(Main) then s.table.depth else 0;
  }

  lemma MainKeepsOtherDepths(s: State, m: MainMove, u: Thread)
    requires TableLocked(s) && CallsKept(s) && MainEnabled(s, m) && u != Main
    ensures var n := ApplyMain(s, m); TableHeld(n, u) == if n.table.owner == Some(u) then n.table.depth else 0
  {
    hide CallKept;
    assert CallFits(s, Main);
    assert TableHeld(s, Main) == if s.table.owner == Some(Main) then s.table.depth else 0;
    assert TableHeld(s, u) == if s.table.owner == Some(u) then s.table.depth else 0;
  }

  lemma MainKeepsLocks(s: State, m: MainMove)
    requires TimerLocked(s) && PipeLocked(s) && CallsKept(s) && MainEnabled(s, m)
    ensures var n := ApplyMain(s, m); TimerLocked(n) && PipeLocked(n)
  {
    hide TimerLocked, PipeLocked;
    MainKeepsTimerLock(s, m);
    MainKeepsPipeLock(s, m);
  }

  lemma MainKeepsTimerLock(s: State, m: MainMove)
    requires TimerLocked(s) && CallsKept(s) && MainEnabled(s, m)
    ensures TimerLocked(ApplyMain(s, m))
  {
    var n := ApplyMain(s, m);
    assert CallFits(s, Main);
    assert TimerHeld(s, Main) <==> s.timer.owner == Some(Main);
    forall u ensures TimerHeld(n, u) <==> n.timer.owner == Some(u) {
      assert TimerHeld(s, u) <==> s.timer.owner == Some(u);
    }
  }

  lemma MainKeepsPipeLock(s: State, m: MainMove)
    requires PipeLocked(s) && CallsKept(s) && MainEnabled(s, m)
    ensures PipeLocked(ApplyMain(s, m))
  {
    var n := ApplyMain(s, m);
    forall u ensures PipeHeld(n, u) <==> n.pipe.owner == Some(u) {
      assert PipeHeld(s, u) <==> s.pipe.owner == Some(u);
    }
  }

  lemma MainKeepsTimer(s: State, m: MainMove)
    requires TimerLocked(s) && TimerKept(s) && MainEnabled(s, m)
    ensures TimerKept(ApplyMain(s, m))
  {
    assert TimerHeld(s, Main) <==> s.timer.owner == Some(Main);
    assert TimerHeld(s, Background) <==> s.timer.owner == Some(Background);
  }

  /** Calls in flight hold the table or are the main thread's, so no callback or loop goes away under them. */
  lemma MainKeepsCalls(s: State, m: MainMove)
    requires TableLocked(s) && CallsKept(s) && MainEnabled(s, m)
    ensures CallsKept(ApplyMain(s, m))
  {
    var n := ApplyMain(s, m);
    assert CallFits(s, Main);
    forall t ensures CallKept(n, CallOf(n, t)) && CallFits(n, t) {
      assert CallKept(s, CallOf(s, t)) && CallFits(s, t);
      assert TableHeld(s, t) == if s.table.owner == Some(t) then s.table.depth else 0;
    }
  }

  lemma MainKeepsRest(s: State, m: MainMove)
    requires PipeKept(s) && LoopsKept(s) && MainKept(s) && MainEnabled(s, m)
    ensures var n := ApplyMain(s, m); PipeKept(n) && LoopsKept(n) && MainKept(n)
  {
  }

  lemma MainKeepsSleep(s: State, m: MainMove)
    requires SleepKept(s) && MainEnabled(s, m)
    ensures SleepKept(ApplyMain(s, m))
  {
  }

  lemma MainKeepsInv(s: State, m: MainMove)
    requires Inv(s) && MainEnabled(s, m)
    ensures Inv(ApplyMain(s, m))
  {
    hide ApplyMain, MainEnabled;
    MainKeepsTable(s, m);
    MainKeepsLocks(s, m);
    MainKeepsTimer(s, m);
    MainKeepsCalls(s, m);
    MainKeepsRest(s, m);
    MainKeepsSleep(s, m);
  }

  // ----- Every run -----

  lemma StepKeepsInv(s: State, step: Step)
    requires Inv(s) && Enabled(s, step)
    ensures Inv(Apply(s, step))
  {
    match step
    case Tick(_) =>
      var n := Apply(s, step);
      assert forall t :: CallOf(n, t) == CallOf(s, t);
    case InCall(t, m) => CallKeepsInv(s, t, m);
    case InTimerThread(m) => BgKeepsInv(s, m);
    case InHandler(m) => HandlerKeepsInv(s, m);
    case InMain(m) => MainKeepsInv(s, m);
  }

  lemma {:induction false} RunKeepsInv(s: State, steps: seq<Step>)
    requires Inv(s) && Possible(s, steps)
    ensures Inv(After(s, steps))
    decreases |steps|
  {
    if steps != [] {
      StepKeepsInv(s, steps[0]);
      RunKeepsInv(Apply(s, steps[0]), steps[1..]);
    }
  }

  /** When the handler comes to its read there is a byte in the pipe, so the read does not block. */
  lemma HandlerReadFindsAByte(start: Instant, steps: seq<Step>)
    requires Possible(Start(start), steps) && After(Start(start), steps).main.Draining?
    ensures After(Start(start), steps).pipe == Pipe(Some(Main), true, 1)
  {
    StartIsKept(start);
    RunKeepsInv(Start(start), steps);
    assert PipeHeld(After(Start(start), steps), Main);
  }

  // ----- The timer protocol -----

  /** In every run, if the timer thread sleeps with no signal on its way, there is no request to stop,
      and it sleeps until the current wake time, or without limit because there is none. */
  lemma TimerSleepsOnItsOrder(start: Instant, steps: seq<Step>)
    requires Possible(Start(start), steps)
    ensures var timer := After(Start(start), steps).timer;
      && (timer.bg == Untimed(false) ==> timer.wakeAt.None? && !timer.stopped)
      && (timer.bg.Timed? && !timer.bg.signalled ==> timer.wakeAt == Some(timer.bg.deadline) && !timer.stopped)
  {
    StartIsKept(start);
    RunKeepsInv(Start(start), steps);
  }

  /** A wake time only goes away in the step that starts a firing, once it or an older one has come. */
  lemma OrderIsClearedOnlyByFiring(s: State, step: Step)
    requires Inv(s) && Enabled(s, step)
    requires s.timer.wakeAt.Some? && Apply(s, step).timer.wakeAt.None?
    ensures Apply(s, step).timer.bg.Firing? && !s.timer.stopped
    ensures s.timer.wakeAt.value <= s.now || s.timer.bg == BackTimed(true)
  {
    if !step.InTimerThread? {
      OrderOutlives(s, step);
    }
  }

  lemma OrderOutlives(s: State, step: Step)
    requires Enabled(s, step) && s.timer.wakeAt.Some? && !step.InTimerThread?
    ensures Apply(s, step).timer.wakeAt.Some?
  {
  }

  /** Once stopped, the timer stays stopped and never fires again, whatever happens. */
  lemma {:induction false} StoppedNeverFires(s: State, steps: seq<Step>)
    requires Inv(s) && s.timer.stopped && Possible(s, steps)
    ensures var n := After(s, steps); n.timer.stopped && !n.timer.bg.Firing? && !n.timer.bg.Writing?
    ensures After(s, steps).pipe.bytes <= s.pipe.bytes
    decreases |steps|
  {
    if steps != [] {
      StepKeepsInv(s, steps[0]);
      StoppedStays(s, steps[0]);
      StoppedNeverFires(Apply(s, steps[0]), steps[1..]);
    }
  }

  lemma StoppedStays(s: State, step: Step)
    requires Inv(s) && s.timer.stopped && Enabled(s, step)
    ensures Apply(s, step).timer.stopped && Apply(s, step).pipe.bytes <= s.pipe.bytes
  {
    hide TableLocked, TimerLocked, PipeLocked, CallsKept, LoopsKept, SleepKept;
    match step
    case InHandler(m) => StoppedHandler(s, m);
    case InMain(m) => StoppedMain(s, m);
    case _ =>
  }

  lemma StoppedHandler(s: State, m: HandlerMove)
    requires HandlerEnabled(s, m) && s.timer.stopped
    ensures ApplyHandler(s, m).timer.stopped && ApplyHandler(s, m).pipe.bytes <= s.pipe.bytes
  {
  }

  lemma StoppedMain(s: State, m: MainMove)
    requires MainEnabled(s, m) && s.timer.stopped
    ensures ApplyMain(s, m).timer.stopped && ApplyMain(s, m).pipe == s.pipe
  {
  }

  /** In every run, the process goes on past the stop only once the timer thread has returned. */
  lemma JoinWaitsForTheThread(start: Instant, steps: seq<Step>)
    requires Possible(Start(start), steps) && After(Start(start), steps).main.Over?
    ensures After(Start(start), steps).timer.stopped && After(Start(start), steps).timer.bg.Returned?
  {
    StartIsKept(start);
    RunKeepsInv(Start(start), steps);
  }

  /** How many of its own steps separate a stopped timer thread from its return. */
  function ToReturn(bg: Bg): nat {
    match bg
    case Untimed(_) => 4
    case Timed(_, _) => 4
    case Starting | BackUntimed => 3
    case BackTimed(_) => 3
    case Looping => 2
    case Firing | Writing | Unborn => 5
    case Returned => 0
  }

  /** A stopped thread gets strictly closer to its return with each step of its own, and can always take
      one unless another thread holds the timer lock, which that thread then releases in one step. */
  lemma StoppedThreadReturns(s: State)
    requires Inv(s) && s.timer.stopped && !s.timer.bg.Returned?
    ensures forall m :: BgEnabled(s, m) ==> ToReturn(ApplyBg(s, m).timer.bg) < ToReturn(s.timer.bg)
    ensures (exists m :: BgEnabled(s, m)) ||
            (exists t :: CallEnabled(s, t, Set) && ApplyCall(s, t, Set).timer.owner.None?)
  {
    assert BgEnabled(s, BgDecide) || BgEnabled(s, BgWake) || BgEnabled(s, BgLock) || BgEnabled(s, BgRelock)
           || s.timer.owner.Some?;
    if s.timer.owner.Some? {
      var t := s.timer.owner.value;
      assert TimerHeld(s, t);
      assert CallEnabled(s, t, Set) || BgEnabled(s, BgDecide);
    }
  }

  // ----- The blocking wait -----

  /** What the wait reports is the truth at the moment it looks, and it gives up only after the expiry. */
  lemma WaitAnswersTruly(s: State, found: Option<Instant>, dueAt: Instant)
    requires Inv(s) && MainEnabled(s, CheckWait(found, dueAt))
    ensures var n := ApplyMain(s, CheckWait(found, dueAt));
      n.main.Free? ==>
        && n.lastWait == Some(DueIn(n.queues, n.queues.tree[s.main.loop], n.now))
        && (n.lastWait == Some(false) ==> s.main.expiry <= s.now)
    ensures var n := ApplyMain(s, CheckWait(found, dueAt));
      !n.main.Free? ==> n.main.WaitReady? && s.now < n.main.until <= s.now + 2_000_000_000
  {
    if found.Some? {
      var id :| InLoops(s.queues, s.queues.tree[s.main.loop], id) && s.queues.pending[id].when == found.value;
      assert found.value <= dueAt ==> DueIn(s.queues, s.queues.tree[s.main.loop], dueAt);
    }
  }

  /** At any point of any run, a waiter nobody has signalled will wake no later than its expiry and than
      every callback of its tree. */
  lemma WaiterNeverOversleeps(start: Instant, steps: seq<Step>)
    requires Possible(Start(start), steps)
    ensures var s := After(Start(start), steps);
      s.main.Sleeping? && !s.main.signalled ==>
        && s.main.loop in s.queues.tree
        && s.main.until <= s.main.expiry
        && (s.main.until <= s.now ==> Enabled(s, InMain(SleepOver)))
        && forall id :: InLoops(s.queues, s.queues.tree[s.main.loop], id) ==> s.main.until <= s.queues.pending[id].when
  {
    StartIsKept(start);
    RunKeepsInv(Start(start), steps);
  }

  /** The wait goes to sleep holding the recursive lock exactly once, so its sleep frees it. */
  lemma SleepFreesTheTable(s: State)
    requires Inv(s) && MainEnabled(s, Sleep)
    ensures s.table == Table(Some(Main), 1) && ApplyMain(s, Sleep).table == Table(None, 0)
  {
    assert CallFits(s, Main);
    assert TableHeld(s, Main) == if s.table.owner == Some(Main) then s.table.depth else 0;
  }
}
