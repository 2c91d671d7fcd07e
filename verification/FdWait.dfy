/** Waiting on file descriptors: a detached thread polls, hands its arguments to the event loop as
    an ordinary callback, and races with cancellation. Each wait counts in its registry's `fdWaits`
    from its construction to its release. The rest of the loop goes on as in `Pass`. */
module FdWait {
  import opened Options
  import opened Timestamps
  import opened Callbacks
  import opened Forest
  import opened Pass
  import opened Ledger

  /** Where the arguments of a wait are. */
  datatype Phase =
    | Polling                     // with its thread, which polls
    | Answered                    // with its thread, about to be handed over
    | Handed(id: nat)             // with the callback of this id in the loop's queue
    | Running                     // with the callback that runs its body
    | Released
    | Lost(started: bool)         // with nobody: the thread was not created, or the loop was gone

  /** `active` is the shared flag; the counts record what has happened to this wait so far. */
  datatype Wait = Wait(loop: int, phase: Phase, active: bool, bodies: nat, cancels: nat, releases: nat)

  datatype State = State(world: World, waits: map<nat, Wait>, next: nat)

  datatype Move =
    | Loop(step: Pass.Step)
    | Open(loop: int, threadStarts: bool)
    | GiveUp(w: nat)
    | Answer(w: nat)
    | HandOff(w: nat, when: Timestamp)
    | Take(w: nat, cb: Callback, now: Timestamp)
    | Finish(w: nat)
    | FdCancel(w: nat)

  /** No wait's callback has this id. */
  ghost predicate Foreign(s: State, id: nat) {
    forall w :: w in s.waits ==> s.waits[w].phase != Handed(id)
  }

  predicate In(s: State, w: nat, phase: Phase) {
    w in s.waits && s.waits[w].phase == phase
  }

  ghost predicate Possible(s: State, m: Move) {
    match m
    case Loop(step) =>
      && Pass.Enabled(s.world, step)
      && (step.Pop? ==> Foreign(s, step.cb.id))
      // Hand-off discards the id, so no one can cancel that callback through the loop.
      && (step.Act? && step.effect.Cancel? ==> Foreign(s, step.effect.id))
    case Open(_, _) => true
    case GiveUp(w) => In(s, w, Polling) && !s.waits[w].active
    case Answer(w) => In(s, w, Polling) && s.waits[w].active
    case HandOff(w, _) => In(s, w, Answered)
    case Take(w, cb, now) => In(s, w, Handed(cb.id)) && Pass.Enabled(s.world, Pop(s.waits[w].loop, cb, now))
    case Finish(w) => In(s, w, Running)
    // A failed start hands no canceller out.
    case FdCancel(w) => w in s.waits && s.waits[w].phase != Lost(false)
  }

  function Counted(t: Table, loop: int, change: int): Table
    requires loop in t.objects
  {
    t.(objects := t.objects[loop := t.objects[loop].(fdWaits := t.objects[loop].fdWaits + change)])
  }

  /** Destroys the arguments, which takes the wait off its registry's count. */
  function Release(s: State, w: nat): State
    requires w in s.waits && s.waits[w].loop in s.world.table.objects
  {
    State(s.world.(table := Counted(s.world.table, s.waits[w].loop, -1)),
          s.waits[w := s.waits[w].(phase := Released, releases := s.waits[w].releases + 1)], s.next)
  }

  function WithWait(s: State, w: nat, wait: Wait): State {
    s.(waits := s.waits[w := wait])
  }

  /** Constructs the arguments and creates the thread. */
  function Opened(s: State, loop: int, threadStarts: bool): State
    requires loop in s.world.table.objects
  {
    State(s.world.(table := Counted(s.world.table, loop, 1)),
          s.waits[s.next := Wait(loop, if threadStarts then Polling else Lost(false), true, 0, 0, 0)], s.next + 1)
  }

  /** Schedules the arguments on their loop, or drops them when it is no longer registered. */
  function HandedOff(s: State, w: nat, when: Timestamp): State
    requires w in s.waits && Sound(s.world)
  {
    var call := Schedule(s.waits[w].loop, when);
    State(Perform(s.world, call),
          s.waits[w := s.waits[w].(phase := if Fails(s.world, call) then Lost(true) else Handed(s.world.nextCallback))],
          s.next)
  }

  /** The loop has popped the callback: the compare-and-swap decides whether the body runs. */
  function Taken(s: State, w: nat): State
    requires w in s.waits && s.waits[w].loop in s.world.table.objects
  {
    if s.waits[w].active then
      WithWait(s, w, s.waits[w].(phase := Running, active := false, bodies := s.waits[w].bodies + 1))
    else Release(s, w)
  }

  ghost function Moved(s: State, m: Move): State
    requires Inv(s) && Possible(s, m)
  {
    match m
    case Loop(step) => s.(world := Pass.Apply(s.world, step))
    case Open(loop, threadStarts) => if loop in s.world.table.handles then Opened(s, loop, threadStarts) else s
    case GiveUp(w) => Release(s, w)
    case Answer(w) => WithWait(s, w, s.waits[w].(phase := Answered))
    case HandOff(w, when) => HandedOff(s, w, when)
    case Take(w, cb, now) => Taken(s.(world := Pass.Apply(s.world, Pop(s.waits[w].loop, cb, now))), w)
    case Finish(w) => Release(s, w)
    case FdCancel(w) =>
      if s.waits[w].active then WithWait(s, w, s.waits[w].(active := false, cancels := s.waits[w].cancels + 1)) else s
  }

  // ----- The invariant -----

  /** The waits a registry's count stands for: made on it and not yet released. */
  function Holding(s: State, loop: int): set<nat> {
    set w | w in s.waits && s.waits[w].loop == loop && !s.waits[w].phase.Released?
  }

  /** Polling, handed off, queued or running. */
  function Live(s: State, loop: int): set<nat> {
    set w | w in s.waits && s.waits[w].loop == loop && !s.waits[w].phase.Released? && !s.waits[w].phase.Lost?
  }

  /** Waits whose thread could not be created. */
  function NeverStarted(s: State, loop: int): set<nat> {
    set w | w in s.waits && s.waits[w].loop == loop && s.waits[w].phase == Lost(false)
  }

  /** The body runs or the wait is cancelled, never both, and the flag is down exactly afterwards. */
  predicate Decided(wait: Wait) {
    && wait.bodies + wait.cancels <= 1
    && (wait.active <==> wait.bodies + wait.cancels == 0)
    && wait.releases == (if wait.phase.Released? then 1 else 0)
    && (wait.phase.Polling? || wait.phase.Answered? || wait.phase.Handed? || wait.phase.Lost? ==> wait.bodies == 0)
    && (wait.phase.Running? ==> wait.bodies == 1)
    && (wait.phase.Released? ==> !wait.active)
  }

  ghost predicate Placed(s: State, wait: Wait) {
    && wait.loop in s.world.table.objects
    && (wait.phase.Handed? ==> Waits(s.world, wait.loop, wait.phase.id))
    && (wait.phase == Lost(true) ==> wait.loop !in s.world.table.handles)
  }

  ghost predicate Kept(s: State, w: nat) {
    w in s.waits && w < s.next && Decided(s.waits[w]) && Placed(s, s.waits[w])
  }

  /** No two waits share a callback. */
  ghost predicate Apart(waits: map<nat, Wait>) {
    forall v, w :: v in waits && w in waits && v != w && waits[v].phase.Handed? ==> waits[v].phase != waits[w].phase
  }

  ghost predicate WaitsKept(s: State) {
    (forall w :: w in s.waits ==> Kept(s, w)) && Apart(s.waits)
  }

  ghost predicate Balanced(s: State) {
    forall l :: l in s.world.table.objects ==> s.world.table.objects[l].fdWaits == |Holding(s, l)|
  }

  ghost predicate Inv(s: State) {
    Valid(s.world) && WaitsKept(s) && Balanced(s)
  }

  // ----- What steps of the loop leave alone -----

  ghost predicate CountsKept(t: Table, t': Table) {
    && t.objects.Keys <= t'.objects.Keys
    && (forall l :: l in t.objects ==> t'.objects[l].fdWaits == t.objects[l].fdWaits)
    && (forall l :: l in t'.objects && l !in t.objects ==> t'.objects[l].fdWaits == 0)
  }

  lemma SweepKeepsCounts(t: Table)
    requires Shaped(t) && Linked(t)
    ensures CountsKept(t, PruneFrom(t, 0)) && PruneFrom(t, 0).handles.Keys <= t.handles.Keys
  {
    PruneReachesTheFixpoint(t);
    RestrictKeepsLinks(t, Survivors(t));
  }

  lemma StepKeepsCounts(w: World, step: Pass.Step)
    requires Valid(w) && Pass.Enabled(w, step)
    ensures CountsKept(w.table, Pass.Apply(w, step).table)
    ensures Pass.Apply(w, step).table.handles.Keys <= w.table.handles.Keys + {w.nextLoop}
  {
    if step.Sweep? {
      SweepKeepsCounts(w.table);
    } else if step.Act? {
      EffectKeepsCounts(w, step.effect);
    }
  }

  lemma EffectKeepsCounts(w: World, e: Effect)
    requires Sound(w)
    ensures CountsKept(w.table, Perform(w, e).table)
    ensures Perform(w, e).table.handles.Keys <= w.table.handles.Keys + {w.nextLoop}
  {
    if Perform(w, e) != w {
      match e
      case CreateLoop(parent) =>
        forall k | k in w.table.objects && !Fails(w, e)
          ensures Create(w.table, w.nextLoop, parent).objects[k].fdWaits == w.table.objects[k].fdWaits
        {
          CreateEffect(w.table, w.nextLoop, parent, k);
        }
      case DestroyLoop(loop) => RemoveKeepsLinks(w.table, loop);
      case DropHandle(loop) => SweepKeepsCounts(Lowered(w.table, loop));
      case _ =>
    }
  }

  /** A callback with this id stays queued unless the step pops or cancels it. */
  lemma StepKeepsWaiting(w: World, step: Pass.Step, loop: int, id: nat)
    requires Valid(w) && Pass.Enabled(w, step) && Waits(w, loop, id)
    requires step.Pop? ==> step.cb.id != id
    requires step.Act? && step.effect.Cancel? ==> step.effect.id != id
    ensures Waits(Pass.Apply(w, step), loop, id)
  {
    var x :| Queued(w, loop, x) && x.id == id;
    if step.Pop? {
      PopStep(w, step.loop, step.cb, step.now);
    } else if step.Act? && step.effect.Schedule? && !Fails(w, step.effect) {
      ScheduleStep(w, step.effect.loop, step.effect.when);
    } else if step.Act? && step.effect.Cancel? {
      if step.effect.loop in w.table.handles {
        CancelStep(w, step.effect.loop, step.effect.id);
      }
    } else {
      TableOnlySteps(w, step);
    }
    assert Queued(Pass.Apply(w, step), loop, x);
  }

  lemma CountedKeepsLinks(t: Table, loop: int, change: int)
    requires Shaped(t) && Linked(t) && loop in t.objects
    ensures var t' := Counted(t, loop, change);
      && Shaped(t') && Linked(t') && QueuesKept(t, t') && t'.objects.Keys == t.objects.Keys
  {
    var t' := Counted(t, loop, change);
    assert t'.objects.Keys == t.objects.Keys;
    assert forall k :: k in t.objects ==>
      && t'.objects[k].queue == t.objects[k].queue
      && t'.objects[k].parent == t.objects[k].parent
      && t'.objects[k].children == t.objects[k].children;
  }

  /** Changing a count changes nothing else. */
  lemma CountingKeepsValid(w: World, loop: int, change: int)
    requires Valid(w) && loop in w.table.objects
    ensures var w' := w.(table := Counted(w.table, loop, change));
      && Valid(w') && w'.table.objects.Keys == w.table.objects.Keys
      && (forall l, x :: Queued(w', l, x) <==> Queued(w, l, x))
  {
    hide Shaped, Linked;
    CountedKeepsLinks(w.table, loop, change);
    var w' := w.(table := Counted(w.table, loop, change));
    KeptMeansSame(w, w');
  }

  lemma WaitingIsIssued(w: World, loop: int, id: nat)
    requires Valid(w) && Waits(w, loop, id)
    ensures id < w.nextCallback
  {
  }

  // ----- Every move keeps the invariant -----

  /** A wait whose record stays as it is stays placed while its callback stays queued. */
  lemma StaysKept(s: State, n: State, w: nat)
    requires Kept(s, w) && w in n.waits && n.waits[w] == s.waits[w] && s.next <= n.next
    requires s.world.table.objects.Keys <= n.world.table.objects.Keys
    requires n.waits[w].phase == Lost(true) ==> n.waits[w].loop !in n.world.table.handles
    requires n.waits[w].phase.Handed? ==>
               (Waits(s.world, s.waits[w].loop, s.waits[w].phase.id) ==>
                   Waits(n.world, n.waits[w].loop, n.waits[w].phase.id))
    ensures Kept(n, w)
  {
  }

  lemma SameQueuesSameWaits(w: World, w': World)
    requires forall l, x :: Queued(w, l, x) ==> Queued(w', l, x)
    ensures forall l, id :: Waits(w, l, id) ==> Waits(w', l, id)
  {
  }

  lemma LoopKeepsInv(s: State, step: Pass.Step)
    requires Inv(s) && Possible(s, Loop(step))
    ensures Inv(s.(world := Pass.Apply(s.world, step)))
  {
    hide Linked, QueuesSorted, Handled, Pass.Apply, Waits, Queued, Decided;
    var n := s.(world := Pass.Apply(s.world, step));
    StepKeepsValid(s.world, step);
    StepKeepsCounts(s.world, step);
    forall w | w in n.waits ensures Kept(n, w) {
      assert Kept(s, w);
      var wait := s.waits[w];
      if wait.phase.Handed? {
        StepKeepsWaiting(s.world, step, wait.loop, wait.phase.id);
      }
    }
    forall l | l in n.world.table.objects ensures n.world.table.objects[l].fdWaits == |Holding(n, l)| {
      assert Holding(n, l) == Holding(s, l);
      if l !in s.world.table.objects {
        forall w | w in s.waits ensures s.waits[w].loop != l {
          assert Kept(s, w);
        }
        assert Holding(s, l) == {};
      }
    }
  }

  lemma OpenKeepsInv(s: State, loop: int, threadStarts: bool)
    requires Inv(s) && loop in s.world.table.handles && loop in s.world.table.objects
    ensures Inv(Opened(s, loop, threadStarts))
  {
    hide Shaped, Linked, QueuesSorted, Handled, Balanced, Apart;
    CountingKeepsValid(s.world, loop, 1);
    assert s.next !in s.waits by {
      assert s.next in s.waits ==> Kept(s, s.next);
    }
    OpenKeepsWaits(s, loop, threadStarts);
    OpenBalances(s, loop, threadStarts);
  }

  lemma OpenKeepsWaits(s: State, loop: int, threadStarts: bool)
    requires Inv(s) && loop in s.world.table.objects
    ensures WaitsKept(Opened(s, loop, threadStarts))
  {
    hide Shaped, Linked, QueuesSorted, Handled, Waits, Queued, Balanced;
    var n := Opened(s, loop, threadStarts);
    CountingKeepsValid(s.world, loop, 1);
    SameQueuesSameWaits(s.world, n.world);
    forall w | w in n.waits ensures Kept(n, w) {
      if w != s.next {
        StaysKept(s, n, w);
      }
    }
  }

  lemma OpenBalances(s: State, loop: int, threadStarts: bool)
    requires Balanced(s) && s.next !in s.waits && loop in s.world.table.objects
    ensures Balanced(Opened(s, loop, threadStarts))
  {
    hide Holding;
    var n := Opened(s, loop, threadStarts);
    forall l | l in n.world.table.objects ensures n.world.table.objects[l].fdWaits == |Holding(n, l)| {
      OpenHolding(s, loop, threadStarts, l);
    }
  }

  lemma OpenHolding(s: State, loop: int, threadStarts: bool, l: int)
    requires s.next !in s.waits && loop in s.world.table.objects
    ensures |Holding(Opened(s, loop, threadStarts), l)| == |Holding(s, l)| + if l == loop then 1 else 0
  {
    hide Holding;
    HoldingGrows(s, Opened(s, loop, threadStarts), s.next, l);
  }

  /** A wait more is one more on its own loop's count. */
  lemma HoldingGrows(s: State, n: State, w: nat, l: int)
    requires w !in s.waits && w in n.waits && n.waits == s.waits[w := n.waits[w]] && !n.waits[w].phase.Released?
    ensures |Holding(n, l)| == |Holding(s, l)| + if n.waits[w].loop == l then 1 else 0
  {
    assert w !in Holding(s, l);
    assert Holding(n, l) == Holding(s, l) + if n.waits[w].loop == l then {w} else {};
  }

  /** Everything but `Placed(s, s.waits[w])`: what is left once the loop has popped the callback of `w`. */
  ghost predicate AllBut(s: State, w: nat) {
    && Valid(s.world) && Balanced(s) && Apart(s.waits)
    && w in s.waits && w < s.next && Decided(s.waits[w]) && s.waits[w].loop in s.world.table.objects
    && forall v :: v in s.waits && v != w ==> Kept(s, v)
  }

  lemma ReleaseKeepsInv(s: State, w: nat)
    requires AllBut(s, w) && !s.waits[w].phase.Released? && !s.waits[w].active
    ensures Inv(Release(s, w))
  {
    hide Shaped, Linked, QueuesSorted, Handled, WaitsKept, Balanced, Kept;
    CountingKeepsValid(s.world, s.waits[w].loop, -1);
    ReleaseKeepsWaits(s, w);
    ReleaseBalances(s, w);
  }

  lemma ReleaseKeepsWaits(s: State, w: nat)
    requires AllBut(s, w) && !s.waits[w].phase.Released? && !s.waits[w].active
    ensures WaitsKept(Release(s, w))
  {
    hide Shaped, Linked, QueuesSorted, Handled, Waits, Queued, Balanced;
    var n := Release(s, w);
    CountingKeepsValid(s.world, s.waits[w].loop, -1);
    SameQueuesSameWaits(s.world, n.world);
    forall v | v in n.waits ensures Kept(n, v) {
      if v != w {
        StaysKept(s, n, v);
      }
    }
  }

  lemma ReleaseBalances(s: State, w: nat)
    requires Balanced(s) && w in s.waits && !s.waits[w].phase.Released? && s.waits[w].loop in s.world.table.objects
    ensures Balanced(Release(s, w))
  {
    var n, loop := Release(s, w), s.waits[w].loop;
    forall l | l in n.world.table.objects ensures n.world.table.objects[l].fdWaits == |Holding(n, l)| {
      assert w in Holding(s, loop);
      assert Holding(n, l) == if l == loop then Holding(s, l) - {w} else Holding(s, l);
    }
  }

  /** Changing one wait without releasing it keeps the balance. */
  lemma ChangeKeepsInv(s: State, w: nat, wait: Wait)
    requires AllBut(s, w) && !s.waits[w].phase.Released? && !wait.phase.Released? && wait.loop == s.waits[w].loop
    requires wait.phase == s.waits[w].phase || !wait.phase.Handed?
    requires Decided(wait) && Placed(s, wait)
    ensures Inv(WithWait(s, w, wait))
  {
    hide Shaped, Linked, QueuesSorted, Handled, WaitsKept, Kept, Placed, Decided;
    ChangeKeepsWaits(s, w, wait);
    var n := WithWait(s, w, wait);
    forall l | l in n.world.table.objects ensures n.world.table.objects[l].fdWaits == |Holding(n, l)| {
      assert Holding(n, l) == Holding(s, l);
    }
  }

  lemma ChangeKeepsWaits(s: State, w: nat, wait: Wait)
    requires AllBut(s, w) && wait.loop == s.waits[w].loop
    requires wait.phase == s.waits[w].phase || !wait.phase.Handed?
    requires Decided(wait) && Placed(s, wait)
    ensures WaitsKept(WithWait(s, w, wait))
  {
    hide Shaped, Linked, QueuesSorted, Handled, Waits, Queued, Balanced;
    var n := WithWait(s, w, wait);
    forall v | v in n.waits ensures Kept(n, v) {
      if v != w {
        StaysKept(s, n, v);
      }
    }
  }

  lemma HandOffKeepsInv(s: State, w: nat, when: Timestamp)
    requires Inv(s) && In(s, w, Answered)
    ensures Inv(HandedOff(s, w, when))
  {
    hide Shaped, Linked, QueuesSorted, Handled, Waits, Queued, Perform;
    var n := HandedOff(s, w, when);
    var call := Schedule(s.waits[w].loop, when);
    StepKeepsValid(s.world, Act(call));
    StepKeepsCounts(s.world, Act(call));
    HandOffQueues(s.world, s.waits[w].loop, when);
    HandOffKeepsWaits(s, w, when);
    forall l | l in n.world.table.objects ensures n.world.table.objects[l].fdWaits == |Holding(n, l)| {
      assert Holding(n, l) == Holding(s, l);
    }
  }

  lemma HandOffKeepsWaits(s: State, w: nat, when: Timestamp)
    requires Inv(s) && In(s, w, Answered)
    ensures WaitsKept(HandedOff(s, w, when))
  {
    hide Shaped, Linked, QueuesSorted, Handled, Waits, Queued, Perform, Balanced;
    var n := HandedOff(s, w, when);
    HandOffQueues(s.world, s.waits[w].loop, when);
    SameQueuesSameWaits(s.world, n.world);
    HandedAreIssued(s);
    forall v | v in n.waits ensures Kept(n, v) {
      if v == w {
        HandOffPlaces(s, w, when);
      } else {
        StaysKept(s, n, v);
      }
    }
  }

  lemma HandOffPlaces(s: State, w: nat, when: Timestamp)
    requires Inv(s) && In(s, w, Answered)
    ensures Kept(HandedOff(s, w, when), w)
  {
    hide Shaped, Linked, QueuesSorted, Handled, Waits, Queued, Perform, Balanced;
    assert Kept(s, w);
    HandOffQueues(s.world, s.waits[w].loop, when);
  }

  lemma HandedAreIssued(s: State)
    requires Inv(s)
    ensures forall v :: v in s.waits && s.waits[v].phase.Handed? ==> s.waits[v].phase.id < s.world.nextCallback
  {
    forall v | v in s.waits && s.waits[v].phase.Handed? ensures s.waits[v].phase.id < s.world.nextCallback {
      assert Kept(s, v);
      WaitingIsIssued(s.world, s.waits[v].loop, s.waits[v].phase.id);
    }
  }

  lemma HandOffQueues(w: World, loop: int, when: Timestamp)
    requires Valid(w)
    ensures var w' := Perform(w, Schedule(loop, when));
      && (forall l, x :: Queued(w, l, x) ==> Queued(w', l, x))
      && w'.table.objects.Keys == w.table.objects.Keys && w'.table.handles == w.table.handles
      && (loop in w.table.handles ==> Waits(w', loop, w.nextCallback))
  {
    if loop in w.table.handles {
      ScheduleStep(w, loop, when);
      assert Queued(Perform(w, Schedule(loop, when)), loop, Callback(when, w.nextCallback));
    }
  }

  lemma TakeKeepsInv(s: State, w: nat, cb: Callback, now: Timestamp)
    requires Inv(s) && Possible(s, Take(w, cb, now))
    ensures var popped := s.(world := Pass.Apply(s.world, Pop(s.waits[w].loop, cb, now)));
      AllBut(popped, w) && Inv(Taken(popped, w))
  {
    hide Shaped, Linked, QueuesSorted, Handled, Pass.Apply, AllBut, Balanced, Apart, Kept;
    var popped := s.(world := Pass.Apply(s.world, Pop(s.waits[w].loop, cb, now)));
    PopLeavesTheRest(s, w, cb, now);
    PoppedIsTaken(popped, w);
  }

  lemma PoppedIsTaken(s: State, w: nat)
    requires AllBut(s, w) && s.waits[w].phase.Handed?
    ensures Inv(Taken(s, w))
  {
    hide Inv, Valid, Kept, Balanced, Apart;
    if s.waits[w].active {
      ChangeKeepsInv(s, w, s.waits[w].(phase := Running, active := false, bodies := s.waits[w].bodies + 1));
    } else {
      ReleaseKeepsInv(s, w);
    }
  }

  lemma PopLeavesTheRest(s: State, w: nat, cb: Callback, now: Timestamp)
    requires Inv(s) && Possible(s, Take(w, cb, now))
    ensures AllBut(s.(world := Pass.Apply(s.world, Pop(s.waits[w].loop, cb, now))), w)
  {
    hide Linked, QueuesSorted, Handled, Pass.Apply, Waits, Queued, Decided;
    var step := Pop(s.waits[w].loop, cb, now);
    var popped := s.(world := Pass.Apply(s.world, step));
    StepKeepsValid(s.world, step);
    StepKeepsCounts(s.world, step);
    assert Kept(s, w);
    forall v | v in s.waits && v != w ensures Kept(popped, v) {
      assert Kept(s, v);
      if s.waits[v].phase.Handed? {
        StepKeepsWaiting(s.world, step, s.waits[v].loop, s.waits[v].phase.id);
      }
    }
    forall l | l in popped.world.table.objects ensures popped.world.table.objects[l].fdWaits == |Holding(popped, l)| {
      assert Holding(popped, l) == Holding(s, l);
    }
  }

  lemma AllKept(s: State, w: nat)
    requires Inv(s) && w in s.waits
    ensures AllBut(s, w) && Kept(s, w)
  {
    assert Kept(s, w);
  }

  lemma MoveKeepsInv(s: State, m: Move)
    requires Inv(s) && Possible(s, m)
    ensures Inv(Moved(s, m))
  {
    RegisteredAreObjects(s.world);
    match m
    case Loop(step) => LoopKeepsInv(s, step);
    case Open(loop, threadStarts) =>
      if loop in s.world.table.handles {
        OpenKeepsInv(s, loop, threadStarts);
      }
    case HandOff(w, when) => HandOffKeepsInv(s, w, when);
    case Take(w, cb, now) => TakeKeepsInv(s, w, cb, now);
    case _ => OwnMoveKeepsInv(s, m);
  }

  lemma OwnMoveKeepsInv(s: State, m: Move)
    requires Inv(s) && Possible(s, m) && (m.GiveUp? || m.Answer? || m.Finish? || m.FdCancel?)
    ensures Inv(Moved(s, m))
  {
    hide Shaped, Linked, QueuesSorted, Handled, Waits, Queued, Balanced, Apart;
    var w := m.w;
    AllKept(s, w);
    if m.Answer? {
      ChangeKeepsInv(s, w, s.waits[w].(phase := Answered));
    } else if !m.FdCancel? {
      ReleaseKeepsInv(s, w);
    } else if s.waits[w].active {
      ChangeKeepsInv(s, w, s.waits[w].(active := false, cancels := s.waits[w].cancels + 1));
    }
  }

  lemma RegisteredAreObjects(w: World)
    requires Valid(w)
    ensures w.table.handles.Keys <= w.table.objects.Keys
  {
  }
}
