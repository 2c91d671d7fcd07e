/** What holds of every run of the pass, by following its steps: the invariant of the loop's
    state, the ledger of callback ids, and the order of invocations. */
module Ledger {
  import opened Options
  import opened Timestamps
  import opened Callbacks
  import opened Forest
  import opened Pass

  predicate Queued(w: World, loop: int, cb: Callback) {
    loop in w.table.objects && cb in w.table.objects[loop].queue
  }

  /** The state between any two steps. */
  ghost predicate Valid(w: World) {
    && Sound(w)
    && Handled(w.table, GLOBAL_LOOP)
    && (forall id :: id in w.loops <==> Handled(w.table, id))
    && QueuesSorted(w)
    && (forall l, cb :: Queued(w, l, cb) ==> cb.id < w.nextCallback)
    && (forall l1, cb1, l2, cb2 :: Queued(w, l1, cb1) && Queued(w, l2, cb2) && cb1.id == cb2.id ==>
        l1 == l2 && cb1 == cb2)
  }

  /** The world once the package has loaded and made the global loop. */
  function Loaded(): World {
    World(Forest.Initial(), 1, 1, {GLOBAL_LOOP}, GLOBAL_LOOP, 0)
  }

  lemma LoadedIsValid()
    ensures Valid(Loaded())
  {
  }

  // ---- steps in sequence

  predicate Trace(w: World, steps: seq<Step>)
    requires Sound(w)
    decreases |steps|
  {
    steps == [] ||
    (Enabled(w, steps[0]) && (StepKeepsSound(w, steps[0]); Trace(Apply(w, steps[0]), steps[1..])))
  }

  function Replay(w: World, steps: seq<Step>): (w': World)
    requires Sound(w) && Trace(w, steps)
    ensures Sound(w')
    decreases |steps|
  {
    if steps == [] then w
    else
      StepKeepsSound(w, steps[0]);
      Replay(Apply(w, steps[0]), steps[1..])
  }

  function PopOf(s: Step): seq<(int, Callback)> {
    if s.Pop? then [(s.loop, s.cb)] else []
  }

  function Pops(steps: seq<Step>): seq<(int, Callback)> {
    if steps == [] then []
    else PopOf(steps[0]) + Pops(steps[1..])
  }

  lemma {:induction false} Concatenate(w: World, a: seq<Step>, b: seq<Step>)
    requires Sound(w) && Trace(w, a) && Trace(Replay(w, a), b)
    ensures Trace(w, a + b) && Replay(w, a + b) == Replay(Replay(w, a), b)
    decreases |a|
  {
    if a == [] {
      assert a + b == b;
    } else {
      StepKeepsSound(w, a[0]);
      Concatenate(Apply(w, a[0]), a[1..], b);
      assert (a + b)[1..] == a[1..] + b;
    }
  }

  lemma {:induction false} PopsConcatenate(a: seq<Step>, b: seq<Step>)
    ensures Pops(a + b) == Pops(a) + Pops(b)
  {
    if a == [] {
      assert a + b == b;
    } else {
      var s, rest := a[0], a[1..];
      assert a + b == [s] + (rest + b);
      PopsOfFirst(s, rest);
      PopsOfFirst(s, rest + b);
      assert a == [s] + rest;
      PopsConcatenate(rest, b);
      assert PopOf(s) + (Pops(rest) + Pops(b)) == (PopOf(s) + Pops(rest)) + Pops(b);
    }
  }

  lemma PopsOfFirst(s: Step, rest: seq<Step>)
    ensures Pops([s] + rest) == PopOf(s) + Pops(rest)
  {
    assert ([s] + rest)[1..] == rest;
  }

  lemma OneStep(w: World, s: Step)
    requires Sound(w) && Enabled(w, s)
    ensures Sound(Apply(w, s))
    ensures Trace(w, [s]) && Replay(w, [s]) == Apply(w, s)
  {
    StepKeepsSound(w, s);
    assert [s][1..] == [];
  }

  // ---- a run is the replay of its steps

  /** The run's steps can be taken in order, lead to its world, and pop once per unit of budget used. */
  predicate Faithful(w: World, b: nat, r: Run)
    requires Sound(w)
  {
    Trace(w, r.steps) && Replay(w, r.steps) == r.world && r.left <= b && |Pops(r.steps)| == b - r.left
  }

  lemma Join(w: World, b: nat, first: Run, rest: Run)
    requires Sound(w) && Faithful(w, b, first) && Sound(first.world) && Faithful(first.world, first.left, rest)
    ensures Faithful(w, b, rest.(steps := first.steps + rest.steps))
  {
    Concatenate(w, first.steps, rest.steps);
    PopsConcatenate(first.steps, rest.steps);
  }

  lemma JoinStep(w: World, b: nat, s: Step, rest: Run)
    requires Sound(w) && Enabled(w, s) && Sound(Apply(w, s))
    requires (s.Pop? ==> b > 0) && Faithful(Apply(w, s), if s.Pop? then b - 1 else b, rest)
    ensures Faithful(w, b, rest.(steps := [s] + rest.steps))
  {
    OneStep(w, s);
    Concatenate(w, [s], rest.steps);
    PopsConcatenate([s], rest.steps);
    assert [s][1..] == [];
  }

  lemma {:induction false} EffectsAreFaithful(w: World, script: Script, effects: seq<Effect>, b: nat)
    requires Sound(w)
    ensures Faithful(w, b, RunEffects(w, script, effects, b))
    decreases b, 1, |effects|, 0, 0
  {
    if effects != [] {
      var e := effects[0];
      if e.RunNow? {
        ExecIsFaithful(w, script, e.loop, e.all, e.checkedAt, e.now, b);
        var first := ExecCallbacks(w, script, e.loop, e.all, e.checkedAt, e.now, b);
        if first.outcome.Finished? {
          EffectsAreFaithful(first.world, script, effects[1..], first.left);
          Join(w, b, first, RunEffects(first.world, script, effects[1..], first.left));
        }
      } else {
        StepKeepsSound(w, Act(e));
        OneStep(w, Act(e));
        if !Fails(w, e) {
          var rest := RunEffects(Perform(w, e), script, effects[1..], b);
          EffectsAreFaithful(Perform(w, e), script, effects[1..], b);
          JoinStep(w, b, Act(e), rest);
        }
      }
    }
  }

  lemma {:induction false} QueueIsFaithful(w: World, script: Script, all: bool, id: int, now: Timestamp, b: nat)
    requires Sound(w) && id in w.table.objects
    ensures Faithful(w, b, RunQueue(w, script, all, id, now, b))
    decreases b, 0, w.table.limit - id, 0, 0
  {
    var q := w.table.objects[id].queue;
    if Due(q, now) && b > 0 {
      var pop := Pop(id, q[0], now);
      StepKeepsSound(w, pop);
      var w' := Apply(w, pop);
      EffectsAreFaithful(w', script, script(q[0].id), b - 1);
      var one := RunEffects(w', script, script(q[0].id), b - 1);
      JoinStep(w, b, pop, one);
      if one.outcome.Finished? && all {
        QueueIsFaithful(one.world, script, all, id, now, one.left);
        var rest := RunQueue(one.world, script, all, id, now, one.left);
        Join(w, b, one.(steps := [pop] + one.steps), rest);
      }
    }
  }

  lemma {:induction false} ChildrenAreFaithful(w: World, script: Script, above: int, kids: seq<int>, now: Timestamp,
        b: nat)
    requires Sound(w) && above < w.table.limit && Below(w.table, above, kids)
    ensures Faithful(w, b, RunChildren(w, script, above, kids, now, b))
    decreases b, 0, w.table.limit - above, 0, |kids|
  {
    if kids != [] {
      OneIsFaithful(w, script, true, kids[0], now, b);
      var first := RunOne(w, script, true, kids[0], now, b);
      if first.outcome.Finished? {
        ChildrenAreFaithful(first.world, script, above, kids[1..], now, first.left);
        Join(w, b, first, RunChildren(first.world, script, above, kids[1..], now, first.left));
      }
    }
  }

  lemma {:induction false} InsideIsFaithful(w: World, script: Script, all: bool, id: int, now: Timestamp, b: nat)
    requires Sound(w) && id in w.table.objects
    ensures Faithful(w, b, RunInside(w, script, all, id, now, b))
    decreases b, 0, w.table.limit - id, 1, 0
  {
    QueueIsFaithful(w, script, all, id, now, b);
    var own := RunQueue(w, script, all, id, now, b);
    if own.outcome.Finished? {
      var kids := own.world.table.objects[id].children;
      ChildrenAreBelow(own.world.table, id);
      ChildrenAreFaithful(own.world, script, id, kids, now, own.left);
      Join(w, b, own, RunChildren(own.world, script, id, kids, now, own.left));
    }
  }

  lemma {:induction false} OneIsFaithful(w: World, script: Script, all: bool, id: int, now: Timestamp, b: nat)
    requires Sound(w) && id in w.table.objects
    ensures Faithful(w, b, RunOne(w, script, all, id, now, b))
    decreases b, 0, w.table.limit - id, 2, 0
  {
    var entered := Apply(w, Enter(id));
    InsideIsFaithful(entered, script, all, id, now, b);
    var body := RunInside(entered, script, all, id, now, b);
    JoinStep(w, b, Enter(id), body);
    if !body.outcome.Suspended? {
      JoinLeave(w, b, body.(steps := [Enter(id)] + body.steps), w.current);
    }
  }

  lemma JoinLeave(w: World, b: nat, r: Run, saved: int)
    requires Sound(w) && Faithful(w, b, r) && Sound(r.world) && r.world.depth > 0
    ensures Faithful(w, b, r.(world := Apply(r.world, Leave(saved)), steps := r.steps + [Leave(saved)]))
  {
    var leave := Leave(saved);
    OneStep(r.world, leave);
    Join(w, b, r, Run(Apply(r.world, leave), [leave], r.outcome, r.left));
  }

  lemma {:induction false} ExecIsFaithful(w: World, script: Script, id: int, all: bool, checkedAt: Timestamp,
        now: Timestamp, b: nat)
    requires Sound(w)
    ensures Faithful(w, b, ExecCallbacks(w, script, id, all, checkedAt, now, b))
    decreases b, 0, if id < w.table.limit then w.table.limit - id else 0, 3, 0
  {
    if id in w.table.handles && DueTree(w.table, id, checkedAt) {
      OneIsFaithful(w, script, all, id, now, b);
      var r := RunOne(w, script, all, id, now, b);
      if r.outcome.Finished? {
        StepKeepsSound(r.world, Sweep);
        OneStep(r.world, Sweep);
        Join(w, b, r, Run(Apply(r.world, Sweep), [Sweep], Finished, r.left));
      }
    }
  }

  // ---- what each step does to the queues

  ghost predicate SameQueues(w: World, w': World) {
    && w.nextCallback == w'.nextCallback
    && forall l, cb :: Queued(w', l, cb) <==> Queued(w, l, cb)
  }

  ghost predicate QueuesSorted(w: World) {
    forall l :: l in w.table.objects ==> Sorted(w.table.objects[l].queue)
  }

  /** A callback with this id waits in this loop. */
  ghost predicate Waits(w: World, loop: int, id: nat) {
    exists cb :: Queued(w, loop, cb) && cb.id == id
  }

  /** Every queue stays as it is, and new registries start empty. */
  ghost predicate QueuesKept(t: Table, t': Table) {
    && t.objects.Keys <= t'.objects.Keys
    && (forall k :: k in t.objects ==> t'.objects[k].queue == t.objects[k].queue)
    && (forall k :: k in t'.objects && k !in t.objects ==> t'.objects[k].queue == [])
  }

  lemma KeptMeansSame(w: World, w': World)
    requires QueuesKept(w.table, w'.table) && w.nextCallback == w'.nextCallback && QueuesSorted(w)
    ensures SameQueues(w, w') && QueuesSorted(w')
  {
  }

  lemma SweepKeepsQueues(t: Table)
    requires Shaped(t) && Linked(t)
    ensures QueuesKept(t, PruneFrom(t, 0))
  {
    PruneReachesTheFixpoint(t);
    RestrictKeepsLinks(t, Survivors(t));
  }

  lemma CreateKeepsQueues(t: Table, id: int, parent: Option<int>)
    requires Shaped(t) && id >= t.limit && (parent.Some? ==> parent.value in t.objects)
    ensures QueuesKept(t, Create(t, id, parent))
  {
    forall k | k in t.objects ensures Create(t, id, parent).objects[k].queue == t.objects[k].queue {
      CreateEffect(t, id, parent, k);
    }
  }

  lemma TableOnlySteps(w: World, s: Step)
    requires Sound(w) && QueuesSorted(w) && Enabled(w, s)
    requires s.Enter? || s.Leave? || s.Sweep? ||
             (s.Act? && ((!s.effect.Schedule? && !s.effect.Cancel?) || Fails(w, s.effect)))
    ensures SameQueues(w, Apply(w, s)) && QueuesSorted(Apply(w, s))
  {
    hide QueuesKept, SameQueues, QueuesSorted, PruneFrom, Create, Remove, Lowered, WithQueue, Linked;
    NoQueueChanged(w.table);
    match s {
      case Sweep => SweepKeepsQueues(w.table);
      case Act(e) =>
        match e {
          case CreateLoop(parent) => if !Fails(w, e) { CreateKeepsQueues(w.table, w.nextLoop, parent); }
          case DestroyLoop(loop) => if loop in w.table.handles { RemoveKeepsQueues(w.table, loop); }
          case DropHandle(loop) => if loop in w.table.handles { LoweringKeepsQueues(w.table, loop); }
          case _ =>
        }
      case _ =>
    }
    KeptMeansSame(w, Apply(w, s));
  }

  lemma NoQueueChanged(t: Table)
    ensures QueuesKept(t, t)
  {
  }

  lemma RemoveKeepsQueues(t: Table, id: int)
    requires Shaped(t) && Linked(t) && id in t.handles
    ensures QueuesKept(t, Remove(t, id))
  {
    RemoveKeepsLinks(t, id);
  }

  lemma LoweringKeepsQueues(t: Table, loop: int)
    requires Shaped(t) && Linked(t) && loop in t.handles
    ensures QueuesKept(t, PruneFrom(Lowered(t, loop), 0))
  {
    SweepKeepsQueues(Lowered(t, loop));
  }

  lemma QueueChanged(w: World, loop: int, q: seq<Callback>)
    requires loop in w.table.objects
    ensures forall l, cb :: Queued(WithQueue(w, loop, q), l, cb) <==> if l == loop then cb in q else Queued(w, l, cb)
    ensures QueuesSorted(w) && Sorted(q) ==> QueuesSorted(WithQueue(w, loop, q))
  {
  }

  lemma ScheduleStep(w: World, loop: int, when: Timestamp)
    requires Valid(w) && !Fails(w, Schedule(loop, when))
    ensures var cb := Callback(when, w.nextCallback);
            var w' := Perform(w, Schedule(loop, when));
            QueuesSorted(w') && w'.nextCallback == w.nextCallback + 1 &&
            forall l, x :: Queued(w', l, x) <==> Queued(w, l, x) || (l == loop && x == cb)
  {
    var q, cb := w.table.objects[loop].queue, Callback(when, w.nextCallback);
    InsertKeepsOrder(q, cb);
    QueueChanged(w, loop, Insert(q, cb));
  }

  lemma IdsAreDistinct(w: World, loop: int)
    requires Valid(w) && loop in w.table.objects
    ensures var q := w.table.objects[loop].queue;
            forall i, j :: 0 <= i < |q| && 0 <= j < |q| && q[i].id == q[j].id ==> i == j
  {
    var q := w.table.objects[loop].queue;
    forall i, j | 0 <= i < |q| && 0 <= j < |q| && q[i].id == q[j].id ensures i == j {
      assert Queued(w, loop, q[i]) && Queued(w, loop, q[j]);
      assert Sorted(q);
    }
  }

  lemma CancelStep(w: World, loop: int, id: nat)
    requires Valid(w) && loop in w.table.handles
    ensures var w' := Perform(w, Cancel(loop, id));
            QueuesSorted(w') && w'.nextCallback == w.nextCallback &&
            forall l, x :: Queued(w', l, x) <==> Queued(w, l, x) && !(l == loop && x.id == id)
  {
    var q := w.table.objects[loop].queue;
    IdsAreDistinct(w, loop);
    EraseKeepsOrder(q, id);
    QueueChanged(w, loop, Erase(q, id));
  }

  lemma PopStep(w: World, loop: int, cb: Callback, now: Timestamp)
    requires Valid(w) && Enabled(w, Pop(loop, cb, now))
    ensures var w' := Apply(w, Pop(loop, cb, now));
            QueuesSorted(w') && w'.nextCallback == w.nextCallback &&
            Queued(w, loop, cb) && DueAt(cb, now) &&
            (forall l, x :: Queued(w', l, x) <==> Queued(w, l, x) && !(l == loop && x == cb)) &&
            (forall x :: Queued(w', loop, x) ==> Before(cb, x))
  {
    var q := w.table.objects[loop].queue;
    var rest := q[1..];
    assert q == [cb] + rest;
    assert Sorted(q);
    forall x | x in rest ensures Before(cb, x) {
      var i :| 0 <= i < |rest| && rest[i] == x;
      assert q[i + 1] == x;
    }
    QueueChanged(w, loop, rest);
  }

  lemma StepKeepsValid(w: World, s: Step)
    requires Valid(w) && Enabled(w, s)
    ensures Valid(Apply(w, s))
  {
    StepKeepsSound(w, s);
    StepKeepsHandles(w, s);
    if s.Pop? {
      PopStep(w, s.loop, s.cb, s.now);
    } else if s.Act? && s.effect.Schedule? && !Fails(w, s.effect) {
      ScheduleStep(w, s.effect.loop, s.effect.when);
    } else if s.Act? && s.effect.Cancel? {
      if s.effect.loop in w.table.handles {
        CancelStep(w, s.effect.loop, s.effect.id);
      }
    } else {
      TableOnlySteps(w, s);
    }
  }

  /** A loop is in the table with its handle flag up. */
  predicate Handled(t: Table, id: int) {
    id in t.handles && t.handles[id]
  }

  lemma SweepKeepsHandled(t: Table)
    requires Shaped(t) && Linked(t)
    ensures forall id :: Handled(PruneFrom(t, 0), id) <==> Handled(t, id)
  {
    PruneReachesTheFixpoint(t);
    forall id ensures Handled(Restrict(t, Survivors(t)), id) <==> Handled(t, id) {
      if Handled(t, id) {
        assert Survives(t, id);
      }
    }
  }

  /** The global loop stays, and the R side knows exactly the loops whose handle flag is up. */
  lemma StepKeepsHandles(w: World, s: Step)
    requires Sound(w) && Enabled(w, s)
    requires Handled(w.table, GLOBAL_LOOP) && forall id :: id in w.loops <==> Handled(w.table, id)
    ensures var w' := Apply(w, s);
            Handled(w'.table, GLOBAL_LOOP) && forall id :: id in w'.loops <==> Handled(w'.table, id)
  {
    hide PruneFrom, Linked;
    if s.Sweep? {
      SweepKeepsHandled(w.table);
    } else if s.Act? && s.effect.DropHandle? {
      var loop := s.effect.loop;
      if loop in w.table.handles {
        LoweringKeepsHandled(w.table, loop);
      }
    }
  }

  lemma LoweringKeepsHandled(t: Table, loop: int)
    requires Shaped(t) && Linked(t) && loop in t.handles
    ensures forall id :: Handled(PruneFrom(Lowered(t, loop), 0), id) <==> id != loop && Handled(t, id)
  {
    SweepKeepsHandled(Lowered(t, loop));
  }

  lemma {:induction false} ReplayKeepsValid(w: World, steps: seq<Step>)
    requires Valid(w) && Trace(w, steps)
    ensures Valid(Replay(w, steps))
    decreases |steps|
  {
    if steps != [] {
      StepKeepsValid(w, steps[0]);
      ReplayKeepsValid(Apply(w, steps[0]), steps[1..]);
    }
  }
}
