/** Who is about to act on pending work: in every run somebody is, but for one path of the input
    handler, and what that path leaves behind. */
module Arming {
  import opened Options
  import opened WakeUp
  import opened WakeUpTheorems

  /** A scheduling call between its insertion and its `set`. */
  predicate AboutToSet(c: Call) {
    c.Added? || c.Reading? || c.Setting? || c.InTimer?
  }

  ghost predicate SomeCallSets(s: State) {
    exists t :: AboutToSet(CallOf(s, t))
  }

  ghost predicate GlobalPending(s: State) {
    GLOBAL_LOOP in s.queues.tree && exists id :: InLoops(s.queues, s.queues.tree[GLOBAL_LOOP], id)
  }

  /** The timer has an order or is acting on one, the pipe holds its byte, or a call is on its way to `set`. */
  ghost predicate ArmedOutside(s: State) {
    || s.timer.wakeAt.Some? || s.timer.bg.Firing? || s.timer.bg.Writing? || s.pipe.hot
    || SomeCallSets(s)
  }

  /** That, or the handler is at work and will re-arm. */
  ghost predicate Armed(s: State) {
    ArmedOutside(s) || s.exec || s.main.Deciding? || s.main.Rearming? || s.main.RearmingIn?
  }

  /** Work is pending in the global loop's tree and nobody is going to act on it. */
  ghost predicate Stranded(s: State) {
    !s.timer.stopped && GlobalPending(s) && !Armed(s)
  }

  predicate IsInsertion(step: Step) {
    step.InCall? && step.call.Add?
  }

  // ----- One step -----

  lemma PendingShrinks(s: State, step: Step)
    requires Enabled(s, step) && !IsInsertion(step) && GlobalPending(Apply(s, step))
    ensures GlobalPending(s)
  {
    var n := Apply(s, step);
    var id :| InLoops(n.queues, n.queues.tree[GLOBAL_LOOP], id);
    assert InLoops(s.queues, s.queues.tree[GLOBAL_LOOP], id);
  }

  lemma StopIsForGood(s: State, step: Step)
    requires Inv(s) && Enabled(s, step) && s.timer.stopped
    ensures Apply(s, step).timer.stopped
  {
  }

  lemma CallKeepsArmed(s: State, t: Thread, m: CallMove)
    requires CallEnabled(s, t, m) && Armed(s)
    ensures Armed(ApplyCall(s, t, m))
  {
    var n := ApplyCall(s, t, m);
    CallAfter(s, t, m, t);
    if AboutToSet(CallOf(n, t)) {
      assert SomeCallSets(n);
    } else if SomeCallSets(s) && !m.Set? {
      var u :| AboutToSet(CallOf(s, u));
      CallAfter(s, t, m, u);
      assert SomeCallSets(n);
    }
  }

  lemma OthersKeepCalls(s: State, step: Step)
    requires Enabled(s, step) && !step.InCall?
    ensures SomeCallSets(Apply(s, step)) <==> SomeCallSets(s)
  {
    assert forall t :: CallOf(Apply(s, step), t) == CallOf(s, t);
    if t :| AboutToSet(CallOf(s, t)) {
      assert AboutToSet(CallOf(Apply(s, step), t));
    }
  }

  /** Only the failing frame request and the end of the callbacks leave the armed states; the latter
      only when nothing is pending. */
  lemma StepKeepsArmed(s: State, step: Step)
    requires Inv(s) && Enabled(s, step) && Armed(s) && step != InHandler(FrameFails)
    requires GlobalPending(Apply(s, step)) && !Apply(s, step).timer.stopped
    ensures Armed(Apply(s, step))
  {
    hide ApplyCall, ApplyHandler, ApplyBg, ApplyMain, HandlerEnabled, BgEnabled, MainEnabled, CallEnabled;
    match step
    case InCall(t, m) => CallKeepsArmed(s, t, m);
    case InHandler(m) => OthersKeepCalls(s, step); HandlerKeepsArmed(s, m);
    case InTimerThread(m) => OthersKeepCalls(s, step); BgKeepsArmed(s, m);
    case InMain(m) => OthersKeepCalls(s, step); MainKeepsArmed(s, m);
    case Tick(_) => OthersKeepCalls(s, step);
  }

  lemma BgKeepsArmed(s: State, m: BgMove)
    requires BgEnabled(s, m) && Armed(s) && !ApplyBg(s, m).timer.stopped
    requires SomeCallSets(ApplyBg(s, m)) <==> SomeCallSets(s)
    ensures Armed(ApplyBg(s, m))
  {
  }

  lemma MainKeepsArmed(s: State, m: MainMove)
    requires Inv(s) && MainEnabled(s, m) && Armed(s) && !ApplyMain(s, m).timer.stopped
    requires SomeCallSets(ApplyMain(s, m)) <==> SomeCallSets(s)
    ensures Armed(ApplyMain(s, m))
  {
    hide Inv;
  }

  lemma HandlerKeepsArmed(s: State, m: HandlerMove)
    requires Inv(s) && HandlerEnabled(s, m) && Armed(s) && m != FrameFails && GlobalPending(ApplyHandler(s, m))
    requires SomeCallSets(ApplyHandler(s, m)) <==> SomeCallSets(s)
    ensures Armed(ApplyHandler(s, m))
  {
    hide Inv;
  }

  /** Nobody but an insertion changes that nobody is armed. */
  lemma BareStays(s: State, step: Step)
    requires Inv(s) && Enabled(s, step) && !Armed(s) && !IsInsertion(step)
    ensures !Armed(Apply(s, step))
  {
    match step
    case InCall(t, m) => BareCallStays(s, t, m);
    case _ => OthersKeepCalls(s, step);
  }

  lemma BareCallStays(s: State, t: Thread, m: CallMove)
    requires CallEnabled(s, t, m) && !Armed(s) && !m.Add?
    ensures !Armed(ApplyCall(s, t, m))
  {
    var n := ApplyCall(s, t, m);
    assert !AboutToSet(CallOf(s, t));
    forall u ensures !AboutToSet(CallOf(n, u)) {
      CallAfter(s, t, m, u);
      assert !AboutToSet(CallOf(s, u));
    }
  }

  lemma InsertionArms(s: State, step: Step)
    requires Enabled(s, step) && IsInsertion(step)
    ensures Armed(Apply(s, step))
  {
    CallAfter(s, step.t, step.call, step.t);
    assert AboutToSet(CallOf(Apply(s, step), step.t));
  }

  /** After a failing frame request only what is armed outside the handler is left. */
  lemma FailureLeaves(s: State)
    requires HandlerEnabled(s, FrameFails)
    ensures Armed(ApplyHandler(s, FrameFails)) <==> ArmedOutside(s)
  {
    OthersKeepCalls(s, InHandler(FrameFails));
  }

  // ----- Every run -----

  lemma {:induction false} RunsSplit(s: State, a: seq<Step>, b: seq<Step>)
    requires Possible(s, a + b)
    ensures Possible(s, a) && Possible(After(s, a), b) && After(s, a + b) == After(After(s, a), b)
    decreases |a|
  {
    if a == [] {
      assert a + b == b;
    } else {
      assert (a + b)[0] == a[0] && (a + b)[1..] == a[1..] + b;
      RunsSplit(Apply(s, a[0]), a[1..], b);
    }
  }

  lemma OneStep(s: State, step: Step)
    requires Enabled(s, step)
    ensures Possible(s, [step]) && After(s, [step]) == Apply(s, step)
  {
    assert [step][1..] == [];
    assert Possible(Apply(s, step), []) && After(Apply(s, step), []) == Apply(s, step);
  }

  /** The frame request that step `k` makes fails while nothing outside the handler is armed, and no
      callback is inserted from then on. */
  ghost predicate StrandsAt(start: State, steps: seq<Step>, k: nat)
    requires Possible(start, steps)
  {
    && k < |steps| && steps[k] == InHandler(FrameFails)
    && Possible(start, steps[..k]) && !ArmedOutside(After(start, steps[..k]))
    && forall j :: k < j < |steps| ==> !IsInsertion(steps[j])
  }

  ghost predicate StrandsSomewhere(start: State, steps: seq<Step>)
    requires Possible(start, steps)
  {
    exists k :: StrandsAt(start, steps, k)
  }

  lemma LastStep(start: State, steps: seq<Step>)
    requires steps != [] && Possible(start, steps)
    ensures var last := |steps| - 1;
      && Possible(start, steps[..last]) && Enabled(After(start, steps[..last]), steps[last])
      && After(start, steps) == Apply(After(start, steps[..last]), steps[last])
  {
    var last := |steps| - 1;
    assert steps == steps[..last] + [steps[last]];
    RunsSplit(start, steps[..last], [steps[last]]);
    var s := After(start, steps[..last]);
    assert Possible(s, [steps[last]]);
    OneStep(s, steps[last]);
  }

  /** One more step that inserts nothing goes on stranding where the run strands. */
  lemma StrandsOn(start: State, steps: seq<Step>)
    requires steps != [] && Possible(start, steps) && Possible(start, steps[..|steps| - 1])
    requires !IsInsertion(steps[|steps| - 1])
    ensures StrandsSomewhere(start, steps[..|steps| - 1]) ==> StrandsSomewhere(start, steps)
  {
    var before := steps[..|steps| - 1];
    if k: nat :| StrandsAt(start, before, k) {
      assert before[..k] == steps[..k];
      assert StrandsAt(start, steps, k);
    }
  }

  /** From the step that strands on, nobody is armed. */
  lemma {:induction false} StrandingIsBare(start: State, steps: seq<Step>, k: nat)
    requires Inv(start) && Possible(start, steps) && StrandsAt(start, steps, k)
    ensures !Armed(After(start, steps))
    decreases |steps|
  {
    var last := |steps| - 1;
    LastStep(start, steps);
    var s := After(start, steps[..last]);
    RunKeepsInv(start, steps[..last]);
    if k == last {
      FailureLeaves(s);
    } else {
      assert steps[..last][..k] == steps[..k];
      assert StrandsAt(start, steps[..last], k);
      StrandingIsBare(start, steps[..last], k);
      BareStays(s, steps[last]);
    }
  }

  /** In a run that leaves pending work with nobody armed, some frame request stranded it. */
  lemma {:induction false} OnlyFailuresStrand(start: State, steps: seq<Step>)
    requires Inv(start) && !GlobalPending(start) && Possible(start, steps) && Stranded(After(start, steps))
    ensures StrandsSomewhere(start, steps)
    decreases |steps|
  {
    var last := |steps| - 1;
    if steps != [] {
      LastStep(start, steps);
      var s, step := After(start, steps[..last]), steps[last];
      RunKeepsInv(start, steps[..last]);
      if IsInsertion(step) {
        InsertionArms(s, step);
      }
      PendingShrinks(s, step);
      if s.timer.stopped {
        StopIsForGood(s, step);
      }
      if Armed(s) {
        if step != InHandler(FrameFails) {
          StepKeepsArmed(s, step);
        }
        FailureLeaves(s);
        assert StrandsAt(start, steps, last);
      } else {
        OnlyFailuresStrand(start, steps[..last]);
        StrandsOn(start, steps);
      }
    }
  }

  /** Every run ends with work stranded exactly if work is pending, the timer has not been stopped, and at
      some step asking R for its frame failed while the timer had no order, the pipe was empty and no call
      was between its insertion and its `set`, with no insertion since. */
  lemma StrandedExactly(start: Instant, steps: seq<Step>)
    requires Possible(Start(start), steps)
    ensures var s := After(Start(start), steps);
      Stranded(s) <==> !s.timer.stopped && GlobalPending(s) && StrandsSomewhere(Start(start), steps)
  {
    StartIsKept(start);
    if k: nat :| StrandsAt(Start(start), steps, k) {
      StrandingIsBare(Start(start), steps, k);
    }
    if Stranded(After(Start(start), steps)) {
      OnlyFailuresStrand(Start(start), steps);
    }
  }

  /** Nobody recovers from it: until a callback is inserted, no continuation gives the timer an order, puts
      a byte into the pipe or lets the handler in. */
  lemma {:induction false} StrandedStays(s: State, steps: seq<Step>)
    requires Inv(s) && !Armed(s) && Possible(s, steps)
    requires forall j :: 0 <= j < |steps| ==> !IsInsertion(steps[j])
    ensures var n := After(s, steps);
      !Armed(n) && n.timer.wakeAt.None? && n.pipe.bytes == 0 && !HandlerEnabled(n, Handle)
    ensures !After(s, steps).timer.stopped && GlobalPending(After(s, steps)) ==> Stranded(s)
    decreases |steps|
  {
    if steps != [] {
      StepKeepsInv(s, steps[0]);
      BareStays(s, steps[0]);
      var n := Apply(s, steps[0]);
      StrandedStays(n, steps[1..]);
      if Stranded(n) {
        PendingShrinks(s, steps[0]);
        if s.timer.stopped {
          StopIsForGood(s, steps[0]);
        }
      }
    }
  }

  /** The timer has an order and its thread will act on it: it is alive, and if it sleeps with no
      signal pending, it sleeps until exactly that time. */
  ghost predicate TimerWillFire(timer: Timer) {
    && timer.wakeAt.Some?
    && !timer.bg.Unborn? && !timer.bg.Returned?
    && (timer.bg.Untimed? ==> timer.bg.signalled)
    && (timer.bg.Timed? && !timer.bg.signalled ==> timer.bg.deadline == timer.wakeAt.value)
  }

  /** In every reachable state with work pending in the global loop's tree, somebody is about to act,
      unless a failing frame request has stranded it. */
  lemma SomebodyIsArmed(start: Instant, steps: seq<Step>)
    requires Possible(Start(start), steps)
    ensures var s := After(Start(start), steps);
      !s.timer.stopped && GlobalPending(s) ==>
        || TimerWillFire(s.timer)
        || s.pipe.bytes == 1
        || s.timer.bg.Firing? || s.timer.bg.Writing?
        || s.exec || s.main.Deciding? || s.main.Rearming? || s.main.RearmingIn?
        || SomeCallSets(s)
        || StrandsSomewhere(Start(start), steps)
  {
    StartIsKept(start);
    RunKeepsInv(Start(start), steps);
    StrandedExactly(start, steps);
  }

  // ----- A run that strands its work -----

  lemma TwoSteps(s: State, a: Step, b: Step)
    requires Enabled(s, a) && Enabled(Apply(s, a), b)
    ensures Possible(s, [a, b]) && After(s, [a, b]) == Apply(Apply(s, a), b)
  {
    OneStep(s, a);
    OneStep(Apply(s, a), b);
    RunsJoin(s, [a], [b]);
    assert [a] + [b] == [a, b];
  }

  lemma {:induction false} RunsJoin(s: State, a: seq<Step>, b: seq<Step>)
    requires Possible(s, a) && Possible(After(s, a), b)
    ensures Possible(s, a + b) && After(s, a + b) == After(After(s, a), b)
    decreases |a|
  {
    if a == [] {
      assert a + b == b;
    } else {
      RunsJoin(Apply(s, a[0]), a[1..], b);
      assert (a + b)[0] == a[0] && (a + b)[1..] == a[1..] + b;
    }
  }

  const NEW: Timer := Timer(None, None, false, Unborn)
  const ORDERED: Timer := Timer(None, Some(0), false, Starting)
  const ELAPSED: Timer := Timer(Some(Background), None, false, Firing)
  const BACK: Timer := Timer(Some(Background), None, false, Looping)
  const ASLEEP: Timer := Timer(None, None, false, Untimed(false))
  const COLD: Pipe := Pipe(None, false, 0)
  const HOT: Pipe := Pipe(None, true, 1)

  /** One callback on the global loop, due at instant 0, in the given phase of its wake-up. */
  function OnePending(call: Call, timer: Timer, pipe: Pipe, main: MainPc): State {
    State(0, Queues(map[1 := Entry(GLOBAL_LOOP, 0)], 2, map[GLOBAL_LOOP := {GLOBAL_LOOP}]), Table(None, 0),
          timer, pipe, main, false, map[Main := call], None)
  }

  lemma BeginOne() returns (steps: seq<Step>)
    ensures Possible(Start(0), steps)
    ensures After(Start(0), steps) == Start(0).(calls := map[Main := Inside(GLOBAL_LOOP, 0, false)])
  {
    steps := [InCall(Main, Begin(GLOBAL_LOOP, 0, false)), InCall(Main, LookUp)];
    TwoSteps(Start(0), steps[0], steps[1]);
  }

  lemma AddOne() returns (steps: seq<Step>)
    ensures var s := Start(0).(calls := map[Main := Inside(GLOBAL_LOOP, 0, false)]);
      && Possible(s, steps)
      && After(s, steps) == OnePending(Added(GLOBAL_LOOP, 1, false), NEW, COLD, Free)
  {
    var s := Start(0).(calls := map[Main := Inside(GLOBAL_LOOP, 0, false)]);
    steps := [InCall(Main, LockToAdd), InCall(Main, Add)];
    TwoSteps(s, steps[0], steps[1]);
  }

  lemma ReadOne() returns (steps: seq<Step>)
    ensures var s := OnePending(Added(GLOBAL_LOOP, 1, false), NEW, COLD, Free);
      && Possible(s, steps)
      && After(s, steps) == OnePending(Setting(0, false), NEW, COLD, Free)
  {
    var s := OnePending(Added(GLOBAL_LOOP, 1, false), NEW, COLD, Free);
    assert InLoops(s.queues, {GLOBAL_LOOP}, 1);
    steps := [InCall(Main, LockToRead), InCall(Main, Read(0))];
    TwoSteps(s, steps[0], steps[1]);
  }

  lemma SetOne() returns (steps: seq<Step>)
    ensures var s := OnePending(Setting(0, false), NEW, COLD, Free);
      && Possible(s, steps)
      && After(s, steps) == OnePending(NoCall, ORDERED, COLD, Free)
  {
    var s := OnePending(Setting(0, false), NEW, COLD, Free);
    steps := [InCall(Main, LockTimer), InCall(Main, Set)];
    TwoSteps(s, steps[0], steps[1]);
  }

  lemma FireOne() returns (steps: seq<Step>)
    ensures var s := OnePending(NoCall, ORDERED, COLD, Free);
      && Possible(s, steps)
      && After(s, steps) == OnePending(NoCall, ELAPSED, COLD, Free)
  {
    var s := OnePending(NoCall, ORDERED, COLD, Free);
    steps := [InTimerThread(BgLock), InTimerThread(BgDecide)];
    TwoSteps(s, steps[0], steps[1]);
  }

  lemma WriteOne() returns (steps: seq<Step>)
    ensures var s := OnePending(NoCall, ELAPSED, COLD, Free);
      && Possible(s, steps)
      && After(s, steps) == OnePending(NoCall, BACK, HOT, Free)
  {
    var s := OnePending(NoCall, ELAPSED, COLD, Free);
    steps := [InTimerThread(BgLockPipe), InTimerThread(BgWrite)];
    TwoSteps(s, steps[0], steps[1]);
  }

  lemma EnterOne() returns (steps: seq<Step>)
    ensures var s := OnePending(NoCall, BACK, HOT, Free);
      && Possible(s, steps)
      && After(s, steps) == OnePending(NoCall, ASLEEP, HOT, Quieting)
  {
    var s := OnePending(NoCall, BACK, HOT, Free);
    steps := [InTimerThread(BgDecide), InHandler(Handle)];
    TwoSteps(s, steps[0], steps[1]);
  }

  lemma DrainOne() returns (steps: seq<Step>)
    ensures var s := OnePending(NoCall, ASLEEP, HOT, Quieting);
      && Possible(s, steps)
      && After(s, steps) == OnePending(NoCall, ASLEEP, COLD, Deciding)
  {
    var s := OnePending(NoCall, ASLEEP, HOT, Quieting);
    steps := [InHandler(LockPipe), InHandler(Drain)];
    TwoSteps(s, steps[0], steps[1]);
  }

  lemma FailOne() returns (steps: seq<Step>)
    ensures var s := OnePending(NoCall, ASLEEP, COLD, Deciding);
      && Possible(s, steps)
      && After(s, steps) == OnePending(NoCall, ASLEEP, COLD, Free)
  {
    var s := OnePending(NoCall, ASLEEP, COLD, Deciding);
    steps := [InHandler(FrameFails)];
    OneStep(s, steps[0]);
  }

  /** It does happen: this run leaves a due callback pending and nobody armed. */
  lemma FrameErrorCanStrand() returns (steps: seq<Step>)
    ensures Possible(Start(0), steps) && Stranded(After(Start(0), steps))
  {
    steps := BeginOne();
    var more := AddOne();
    RunsJoin(Start(0), steps, more);
    steps := steps + more;
    more := ReadOne();
    RunsJoin(Start(0), steps, more);
    steps := steps + more;
    more := SetOne();
    RunsJoin(Start(0), steps, more);
    steps := steps + more;
    more := FireOne();
    RunsJoin(Start(0), steps, more);
    steps := steps + more;
    more := WriteOne();
    RunsJoin(Start(0), steps, more);
    steps := steps + more;
    more := EnterOne();
    RunsJoin(Start(0), steps, more);
    steps := steps + more;
    more := DrainOne();
    RunsJoin(Start(0), steps, more);
    steps := steps + more;
    more := FailOne();
    RunsJoin(Start(0), steps, more);
    steps := steps + more;
    var s := After(Start(0), steps);
    assert InLoops(s.queues, s.queues.tree[GLOBAL_LOOP], 1);
    assert forall t :: CallOf(s, t).NoCall?;
  }
}
