/** The promises of the pass: conservation of callbacks, order, termination, nothing due left
    behind, and the truth of run_now's answer. */
module PassTheorems {
  import opened Options
  import opened Timestamps
  import opened Callbacks
  import opened Forest
  import opened Pass
  import opened Ledger

  // ---- conservation

  ghost function Ids(w: World): set<nat> {
    set l, i | l in w.table.objects && 0 <= i < |w.table.objects[l].queue| :: w.table.objects[l].queue[i].id
  }

  lemma IdsAreQueued(w: World, id: nat)
    ensures id in Ids(w) <==> exists l, cb :: Queued(w, l, cb) && cb.id == id
  {
    if id in Ids(w) {
      var l, i :| l in w.table.objects && 0 <= i < |w.table.objects[l].queue| && w.table.objects[l].queue[i].id == id;
      assert Queued(w, l, w.table.objects[l].queue[i]);
    }
    if l, cb :| Queued(w, l, cb) && cb.id == id {
      var i :| 0 <= i < |w.table.objects[l].queue| && w.table.objects[l].queue[i] == cb;
    }
  }

  /** The id a step gives out, takes by popping, or takes by cancelling. */
  ghost function AddedBy(w: World, s: Step): set<nat> {
    if s.Act? && s.effect.Schedule? && !Fails(w, s.effect) then {w.nextCallback} else {}
  }

  ghost function InvokedBy(s: Step): set<nat> {
    if s.Pop? then {s.cb.id} else {}
  }

  ghost function CancelledBy(w: World, s: Step): set<nat> {
    if s.Act? && s.effect.Cancel? && s.effect.loop in w.table.handles && Waits(w, s.effect.loop, s.effect.id)
    then {s.effect.id} else {}
  }

  datatype Account = Account(added: set<nat>, invoked: set<nat>, cancelled: set<nat>)

  ghost function Tally(w: World, steps: seq<Step>): Account
    requires Sound(w) && Trace(w, steps)
    decreases |steps|
  {
    if steps == [] then Account({}, {}, {})
    else
      StepKeepsSound(w, steps[0]);
      var rest := Tally(Apply(w, steps[0]), steps[1..]);
      Account(AddedBy(w, steps[0]) + rest.added,
              InvokedBy(steps[0]) + rest.invoked,
              CancelledBy(w, steps[0]) + rest.cancelled)
  }

  /** What was queued or added is queued still, or was invoked, or was cancelled: exactly one of these. */
  ghost predicate Balanced(before: set<nat>, a: Account, after: set<nat>) {
    && before + a.added == after + a.invoked + a.cancelled
    && before !! a.added
    && after !! a.invoked && after !! a.cancelled && a.invoked !! a.cancelled
  }

  /** What a step does to the queues, callback by callback. */
  lemma StepMovesQueues(w: World, s: Step)
    requires Valid(w) && Enabled(w, s)
    ensures Apply(w, s).nextCallback >= w.nextCallback
    ensures forall id :: id in AddedBy(w, s) ==>
              w.nextCallback <= id < Apply(w, s).nextCallback &&
              exists l, cb :: Queued(Apply(w, s), l, cb) && cb.id == id
    ensures forall l, cb :: Queued(Apply(w, s), l, cb) ==> Queued(w, l, cb) || cb.id in AddedBy(w, s)
    ensures forall l, cb :: Queued(w, l, cb) ==>
              (Queued(Apply(w, s), l, cb) <==> cb.id !in InvokedBy(s) && cb.id !in CancelledBy(w, s))
    ensures forall id :: id in InvokedBy(s) || id in CancelledBy(w, s) ==>
              exists l, cb :: Queued(w, l, cb) && cb.id == id
    ensures InvokedBy(s) !! CancelledBy(w, s)
  {
    if s.Pop? {
      PopStep(w, s.loop, s.cb, s.now);
    } else if s.Act? && s.effect.Schedule? && !Fails(w, s.effect) {
      ScheduleStep(w, s.effect.loop, s.effect.when);
      assert Queued(Apply(w, s), s.effect.loop, Callback(s.effect.when, w.nextCallback));
    } else if s.Act? && s.effect.Cancel? {
      if s.effect.loop in w.table.handles {
        CancelStep(w, s.effect.loop, s.effect.id);
      }
    } else {
      TableOnlySteps(w, s);
    }
  }

  lemma StepBalances(w: World, s: Step)
    requires Valid(w) && Enabled(w, s)
    ensures Balanced(Ids(w), Account(AddedBy(w, s), InvokedBy(s), CancelledBy(w, s)), Ids(Apply(w, s)))
    ensures Apply(w, s).nextCallback >= w.nextCallback
    ensures forall id :: id in AddedBy(w, s) ==> w.nextCallback <= id < Apply(w, s).nextCallback
  {
    hide Ids, AddedBy, InvokedBy, CancelledBy, Apply, Enabled, Shaped, Linked, QueuesSorted, Handled;
    StepKeepsValid(w, s);
    StepMovesQueues(w, s);
    var w' := Apply(w, s);
    forall id: nat
      ensures id in Ids(w) || id in AddedBy(w, s) <==> id in Ids(w') || id in InvokedBy(s) || id in CancelledBy(w, s)
      ensures id in Ids(w) ==> id !in AddedBy(w, s)
      ensures id in Ids(w') ==> id !in InvokedBy(s) && id !in CancelledBy(w, s)
    {
      IdsAreQueued(w, id);
      IdsAreQueued(w', id);
    }
  }

  lemma {:induction false} TraceBalances(w: World, steps: seq<Step>)
    requires Valid(w) && Trace(w, steps)
    ensures Balanced(Ids(w), Tally(w, steps), Ids(Replay(w, steps)))
    ensures forall id :: id in Tally(w, steps).added ==> id >= w.nextCallback
    decreases |steps|
  {
    if steps != [] {
      var s, w' := steps[0], Apply(w, steps[0]);
      StepKeepsValid(w, s);
      StepBalances(w, s);
      TraceBalances(w', steps[1..]);
      var rest := Tally(w', steps[1..]);
      forall id | id in Ids(w) ensures id < w.nextCallback {
        IdsAreQueued(w, id);
      }
      BalanceAdds(Ids(w), Account(AddedBy(w, s), InvokedBy(s), CancelledBy(w, s)), Ids(w'), rest,
                  Ids(Replay(w', steps[1..])), w.nextCallback, w'.nextCallback);
    }
  }

  lemma BalanceAdds(before: set<nat>, a: Account, mid: set<nat>, b: Account, after: set<nat>, lo: nat, hi: nat)
    requires Balanced(before, a, mid) && Balanced(mid, b, after) && lo <= hi
    requires forall id :: id in before ==> id < lo
    requires forall id :: id in a.added ==> lo <= id < hi
    requires forall id :: id in b.added ==> id >= hi
    ensures Balanced(before, Account(a.added + b.added, a.invoked + b.invoked, a.cancelled + b.cancelled), after)
  {
  }

  /** Over a whole pass, nested passes included and however it ends, no callback is lost or
      invoked twice, and unless it is cut short the current loop and the depth are back. */
  lemma PassConserves(w: World, script: Script, id: int, all: bool, checkedAt: Timestamp, now: Timestamp, b: nat)
    requires Valid(w)
    ensures var r := ExecCallbacks(w, script, id, all, checkedAt, now, b);
            && Valid(r.world)
            && Trace(w, r.steps) && Replay(w, r.steps) == r.world
            && Balanced(Ids(w), Tally(w, r.steps), Ids(r.world))
            && |Pops(r.steps)| == |Tally(w, r.steps).invoked| == b - r.left
            && (!r.outcome.Suspended? ==> r.world.current == w.current && r.world.depth == w.depth)
  {
    var r := ExecCallbacks(w, script, id, all, checkedAt, now, b);
    ExecIsFaithful(w, script, id, all, checkedAt, now, b);
    ReplayKeepsValid(w, r.steps);
    TraceBalances(w, r.steps);
    InvokedOnce(w, r.steps);
  }

  lemma PoppedNeverAgain(w: World, s: Step, later: seq<Step>)
    requires Valid(w) && Enabled(w, s) && s.Pop?
    requires Valid(Apply(w, s)) && Trace(Apply(w, s), later)
    ensures s.cb.id !in Tally(Apply(w, s), later).invoked
  {
    var w' := Apply(w, s);
    PopStep(w, s.loop, s.cb, s.now);
    IdsAreQueued(w', s.cb.id);
    TraceBalances(w', later);
  }

  lemma {:induction false} InvokedOnce(w: World, steps: seq<Step>)
    requires Valid(w) && Trace(w, steps)
    ensures |Tally(w, steps).invoked| == |Pops(steps)|
    decreases |steps|
  {
    hide Apply, Enabled, AddedBy, CancelledBy, Shaped, Linked, QueuesSorted, Handled;
    if steps != [] {
      var s, later := steps[0], steps[1..];
      StepKeepsValid(w, s);
      var rest := Tally(Apply(w, s), later).invoked;
      InvokedOnce(Apply(w, s), later);
      if s.Pop? {
        PoppedNeverAgain(w, s, later);
        assert Tally(w, steps).invoked == {s.cb.id} + rest;
      } else {
        assert Tally(w, steps).invoked == rest;
      }
    }
  }

  // ---- order, and only what was due

  predicate SchedulesAfter(steps: seq<Step>, now: Timestamp) {
    forall i :: 0 <= i < |steps| && steps[i].Act? && steps[i].effect.Schedule? ==> Less(now, steps[i].effect.when)
  }

  predicate PopsAt(steps: seq<Step>, now: Timestamp) {
    forall i :: 0 <= i < |steps| && steps[i].Pop? ==> steps[i].now == now
  }

  /** Steps that schedule nothing at or before `now` make nothing more due. */
  lemma NothingMoreDue(w: World, s: Step, now: Timestamp, l: int, cb: Callback)
    requires Valid(w) && Enabled(w, s)
    requires s.Act? && s.effect.Schedule? ==> Less(now, s.effect.when)
    requires Queued(Apply(w, s), l, cb) && DueAt(cb, now)
    ensures Queued(w, l, cb)
  {
    if s.Pop? {
      PopStep(w, s.loop, s.cb, s.now);
    } else if s.Act? && s.effect.Schedule? && !Fails(w, s.effect) {
      ScheduleStep(w, s.effect.loop, s.effect.when);
    } else if s.Act? && s.effect.Cancel? {
      if s.effect.loop in w.table.handles {
        CancelStep(w, s.effect.loop, s.effect.id);
      }
    } else {
      TableOnlySteps(w, s);
    }
  }

  lemma {:induction false} NothingMoreDueAlong(w: World, steps: seq<Step>, now: Timestamp, l: int, cb: Callback)
    requires Valid(w) && Trace(w, steps) && SchedulesAfter(steps, now)
    requires Queued(Replay(w, steps), l, cb) && DueAt(cb, now)
    ensures Queued(w, l, cb)
    ensures forall i :: 0 <= i < |Pops(steps)| ==> Pops(steps)[i].1.id != cb.id
    decreases |steps|
  {
    if steps != [] {
      var s, w' := steps[0], Apply(w, steps[0]);
      StepKeepsValid(w, s);
      NothingMoreDueAlong(w', steps[1..], now, l, cb);
      NothingMoreDue(w, s, now, l, cb);
      if s.Pop? {
        PopStep(w, s.loop, s.cb, s.now);
      }
    }
  }

  /** Each invocation takes something that was due at entry; per loop they come in strictly
      increasing order; and none comes twice. */
  lemma {:induction false} InvokesWhatWasDueInOrder(w: World, steps: seq<Step>, now: Timestamp)
    requires Valid(w) && Trace(w, steps) && SchedulesAfter(steps, now) && PopsAt(steps, now)
    ensures forall i :: 0 <= i < |Pops(steps)| ==>
        Queued(w, Pops(steps)[i].0, Pops(steps)[i].1) && DueAt(Pops(steps)[i].1, now)
    ensures forall i, j :: 0 <= i < j < |Pops(steps)| ==>
              Pops(steps)[i].1.id != Pops(steps)[j].1.id &&
              (Pops(steps)[i].0 == Pops(steps)[j].0 ==> Before(Pops(steps)[i].1, Pops(steps)[j].1))
    decreases |steps|
  {
    hide Apply, Enabled, Shaped, Linked, QueuesSorted, Handled;
    if steps != [] {
      var s, w' := steps[0], Apply(w, steps[0]);
      StepKeepsValid(w, s);
      InvokesWhatWasDueInOrder(w', steps[1..], now);
      var rest := Pops(steps[1..]);
      forall i | 0 <= i < |rest| ensures Queued(w, rest[i].0, rest[i].1) {
        NothingMoreDue(w, s, now, rest[i].0, rest[i].1);
      }
      if s.Pop? {
        PopStep(w, s.loop, s.cb, s.now);
        assert Pops(steps) == [(s.loop, s.cb)] + rest;
        forall i | 0 <= i < |rest|
          ensures rest[i].1.id != s.cb.id && (rest[i].0 == s.loop ==> Before(s.cb, rest[i].1))
        {
          assert Queued(w', rest[i].0, rest[i].1);
        }
      } else {
        assert Pops(steps) == rest;
      }
    }
  }

  // ---- termination

  ghost predicate NoNesting(script: Script) {
    forall n: nat, i :: 0 <= i < |script(n)| ==> !script(n)[i].RunNow?
  }

  predicate Flat(effects: seq<Effect>) {
    forall i :: 0 <= i < |effects| ==> !effects[i].RunNow?
  }

  lemma {:induction false} FlatEffects(w: World, script: Script, effects: seq<Effect>, b: nat, now: Timestamp)
    requires Sound(w) && Flat(effects)
    ensures var r := RunEffects(w, script, effects, b);
            !r.outcome.Suspended? && PopsAt(r.steps, now)
    decreases |effects|
  {
    if effects != [] {
      StepKeepsSound(w, Act(effects[0]));
      if !Fails(w, effects[0]) {
        FlatEffects(Perform(w, effects[0]), script, effects[1..], b, now);
      }
    }
  }

  /** Without nested passes, every pop is made at the pass's own time, and a pass cut short was
      cut short in front of a due callback. */
  ghost predicate Undisturbed(r: Run, now: Timestamp) {
    && PopsAt(r.steps, now)
    && (r.outcome.Suspended? ==> r.left == 0 && exists l, cb :: Queued(r.world, l, cb) && DueAt(cb, now))
  }

  lemma {:induction false} QueueUndisturbed(w: World, script: Script, all: bool, id: int, now: Timestamp, b: nat)
    requires Sound(w) && id in w.table.objects && NoNesting(script)
    ensures Undisturbed(RunQueue(w, script, all, id, now, b), now)
    decreases b
  {
    hide RunEffects, Apply, Shaped, Linked;
    var q := w.table.objects[id].queue;
    if Due(q, now) && b == 0 {
      assert Queued(w, id, q[0]) && DueAt(q[0], now);
    } else if Due(q, now) {
      var pop := Pop(id, q[0], now);
      StepKeepsSound(w, pop);
      FlatEffects(Apply(w, pop), script, script(q[0].id), b - 1, now);
      var one := RunEffects(Apply(w, pop), script, script(q[0].id), b - 1);
      if one.outcome.Finished? && all {
        QueueUndisturbed(one.world, script, all, id, now, one.left);
        UndisturbedJoins([pop] + one.steps, RunQueue(one.world, script, all, id, now, one.left), now);
      }
    }
  }

  lemma UndisturbedJoins(steps: seq<Step>, rest: Run, now: Timestamp)
    requires PopsAt(steps, now) && Undisturbed(rest, now)
    ensures Undisturbed(rest.(steps := steps + rest.steps), now)
  {
  }

  lemma {:induction false} ChildrenUndisturbed(w: World, script: Script, above: int, kids: seq<int>, now: Timestamp,
        b: nat)
    requires Sound(w) && above < w.table.limit && Below(w.table, above, kids) && NoNesting(script)
    ensures Undisturbed(RunChildren(w, script, above, kids, now, b), now)
    decreases b, w.table.limit - above, 0, |kids|
  {
    if kids != [] {
      OneUndisturbed(w, script, true, kids[0], now, b);
      var first := RunOne(w, script, true, kids[0], now, b);
      if first.outcome.Finished? {
        ChildrenUndisturbed(first.world, script, above, kids[1..], now, first.left);
        UndisturbedJoins(first.steps, RunChildren(first.world, script, above, kids[1..], now, first.left), now);
      }
    }
  }

  lemma {:induction false} InsideUndisturbed(w: World, script: Script, all: bool, id: int, now: Timestamp, b: nat)
    requires Sound(w) && id in w.table.objects && NoNesting(script)
    ensures Undisturbed(RunInside(w, script, all, id, now, b), now)
    decreases b, w.table.limit - id, 1, 0
  {
    QueueUndisturbed(w, script, all, id, now, b);
    var own := RunQueue(w, script, all, id, now, b);
    if own.outcome.Finished? {
      var kids := own.world.table.objects[id].children;
      ChildrenAreBelow(own.world.table, id);
      ChildrenUndisturbed(own.world, script, id, kids, now, own.left);
      UndisturbedJoins(own.steps, RunChildren(own.world, script, id, kids, now, own.left), now);
    }
  }

  lemma {:induction false} OneUndisturbed(w: World, script: Script, all: bool, id: int, now: Timestamp, b: nat)
    requires Sound(w) && id in w.table.objects && NoNesting(script)
    ensures Undisturbed(RunOne(w, script, all, id, now, b), now)
    decreases b, w.table.limit - id, 2, 0
  {
    InsideUndisturbed(Apply(w, Enter(id)), script, all, id, now, b);
  }

  ghost function DueIds(w: World, now: Timestamp): set<nat> {
    set l, i | l in w.table.objects && 0 <= i < |w.table.objects[l].queue| && DueAt(w.table.objects[l].queue[i], now) ::
      w.table.objects[l].queue[i].id
  }

  lemma QueuedDueIds(w: World, now: Timestamp, l: int, cb: Callback)
    requires Queued(w, l, cb) && DueAt(cb, now)
    ensures cb.id in DueIds(w, now)
  {
    var i :| 0 <= i < |w.table.objects[l].queue| && w.table.objects[l].queue[i] == cb;
  }

  /** A pass whose callbacks schedule only for later ends after at most as many invocations as
      there were callbacks due when it began. */
  lemma PassTerminates(w: World, script: Script, all: bool, id: int, now: Timestamp, b: nat)
    requires Valid(w) && id in w.table.objects && NoNesting(script)
    requires SchedulesAfter(RunOne(w, script, all, id, now, b).steps, now)
    requires b >= |DueIds(w, now)|
    ensures !RunOne(w, script, all, id, now, b).outcome.Suspended?
  {
    var r := RunOne(w, script, all, id, now, b);
    OneIsFaithful(w, script, all, id, now, b);
    OneUndisturbed(w, script, all, id, now, b);
    if r.outcome.Suspended? {
      var l, cb :| Queued(r.world, l, cb) && DueAt(cb, now);
      PopsLeaveRoom(w, r.steps, now, l, cb);
      assert false;
    }
  }

  /** The order of invocations of a pass: each takes something that was queued and due when the
      pass began, in strictly increasing order within each loop, none twice. */
  lemma PassInvokesInOrder(w: World, script: Script, all: bool, id: int, now: Timestamp, b: nat)
    requires Valid(w) && id in w.table.objects && NoNesting(script)
    requires SchedulesAfter(RunOne(w, script, all, id, now, b).steps, now)
    ensures var pops := Pops(RunOne(w, script, all, id, now, b).steps);
      && (forall i :: 0 <= i < |pops| ==> Queued(w, pops[i].0, pops[i].1) && DueAt(pops[i].1, now))
      && (forall i, j :: 0 <= i < j < |pops| ==> pops[i].1.id != pops[j].1.id)
      && (forall i, j :: 0 <= i < j < |pops| && pops[i].0 == pops[j].0 ==> Before(pops[i].1, pops[j].1))
  {
    OneIsFaithful(w, script, all, id, now, b);
    OneUndisturbed(w, script, all, id, now, b);
    InvokesWhatWasDueInOrder(w, RunOne(w, script, all, id, now, b).steps, now);
  }

  /** While something is still due, fewer callbacks were invoked than were due at the start. */
  lemma PopsLeaveRoom(w: World, steps: seq<Step>, now: Timestamp, l: int, cb: Callback)
    requires Valid(w) && Trace(w, steps) && SchedulesAfter(steps, now) && PopsAt(steps, now)
    requires Queued(Replay(w, steps), l, cb) && DueAt(cb, now)
    ensures |Pops(steps)| < |DueIds(w, now)|
  {
    hide Tally, Trace, Pops, Queued, DueIds, SchedulesAfter, PopsAt, Shaped, Linked, QueuesSorted, Handled;
    InvokesWhatWasDueInOrder(w, steps, now);
    NothingMoreDueAlong(w, steps, now, l, cb);
    QueuedDueIds(w, now, l, cb);
    InvokedOnce(w, steps);
    TakenArePops(w, steps);
    var taken := Tally(w, steps).invoked;
    forall n | n in taken ensures n in DueIds(w, now) {
      var i :| 0 <= i < |Pops(steps)| && Pops(steps)[i].1.id == n;
      QueuedDueIds(w, now, Pops(steps)[i].0, Pops(steps)[i].1);
    }
    assert cb.id !in taken;
    SubsetSize(taken + {cb.id}, DueIds(w, now));
  }

  lemma {:induction false} TakenArePops(w: World, steps: seq<Step>)
    requires Sound(w) && Trace(w, steps)
    ensures forall n :: n in Tally(w, steps).invoked <==> exists i :: 0 <= i < |Pops(steps)| && Pops(steps)[i].1.id == n
    decreases |steps|
  {
    if steps != [] {
      StepKeepsSound(w, steps[0]);
      var rest := steps[1..];
      TakenArePops(Apply(w, steps[0]), rest);
      var offset := |PopOf(steps[0])|;
      forall n: nat
        ensures n in Tally(w, steps).invoked <==> exists i :: 0 <= i < |Pops(steps)| && Pops(steps)[i].1.id == n
      {
        if i :| 0 <= i < |Pops(rest)| && Pops(rest)[i].1.id == n {
          assert Pops(steps)[i + offset].1.id == n;
        }
        if i :| 0 <= i < |Pops(steps)| && Pops(steps)[i].1.id == n {
          if i >= offset {
            assert Pops(rest)[i - offset].1.id == n;
          }
        }
        if steps[0].Pop? {
          assert Pops(steps)[0].1 == steps[0].cb;
        }
      }
    }
  }

  lemma {:induction false} SubsetSize(a: set<nat>, b: set<nat>)
    requires a <= b
    ensures |a| <= |b|
  {
    if a != {} {
      var x :| x in a;
      SubsetSize(a - {x}, b - {x});
    }
  }

  // ---- nothing due is left behind

  lemma {:induction false} DueAmongMeans(t: Table, above: int, kids: seq<int>, now: Timestamp)
    requires Shaped(t) && above < t.limit && Below(t, above, kids)
    ensures DueAmong(t, above, kids, now) <==> exists i :: 0 <= i < |kids| && DueTree(t, kids[i], now)
    decreases |kids|
  {
    if kids != [] {
      var rest := kids[1..];
      DueAmongMeans(t, above, rest, now);
      if i :| 0 <= i < |rest| && DueTree(t, rest[i], now) {
        assert kids[i + 1] == rest[i];
      }
      if i :| 0 < i < |kids| && DueTree(t, kids[i], now) {
        assert rest[i - 1] == kids[i];
      }
    }
  }

  /** No queue got something due, and no registry got a child that was there before. */
  ghost predicate Calmer(t: Table, t': Table, now: Timestamp) {
    && Extends(t, t')
    && (forall k :: k in t.objects && Due(t'.objects[k].queue, now) ==> Due(t.objects[k].queue, now))
    && (forall k :: k in t'.objects && k !in t.objects ==> k >= t.limit && !Due(t'.objects[k].queue, now))
    && (forall k :: k in t.objects ==>
          forall c :: c in t'.objects[k].children ==> c in t.objects[k].children || c !in t.objects)
  }

  /** Objects keep or lose children, and gain only new ones. */
  ghost predicate ChildrenFade(t: Table, t': Table) {
    && Extends(t, t')
    && (forall n :: n in t'.objects && n !in t.objects ==> n >= t.limit)
    && (forall k :: k in t.objects ==>
          forall c :: c in t'.objects[k].children ==> c in t.objects[k].children || c !in t.objects)
  }

  lemma SweepFades(t: Table)
    requires Shaped(t) && Linked(t)
    ensures ChildrenFade(t, PruneFrom(t, 0))
  {
    PruneReachesTheFixpoint(t);
    RestrictKeepsLinks(t, Survivors(t));
  }

  lemma CreateFades(t: Table, id: int, parent: Option<int>)
    requires Shaped(t) && id >= t.limit && (parent.Some? ==> parent.value in t.objects)
    ensures ChildrenFade(t, Create(t, id, parent))
  {
    forall k | k in t.objects
      ensures forall c :: c in Create(t, id, parent).objects[k].children ==>
          c in t.objects[k].children || c !in t.objects
    {
      CreateEffect(t, id, parent, k);
    }
  }

  lemma RemoveFades(t: Table, id: int)
    requires Shaped(t) && Linked(t) && id in t.handles
    ensures ChildrenFade(t, Remove(t, id))
  {
    RemoveTables(t, id);
    RemoveKeepsLinks(t, id);
  }

  lemma LoweredFades(t: Table, loop: int)
    requires Shaped(t) && Linked(t) && loop in t.handles
    ensures ChildrenFade(t, PruneFrom(Lowered(t, loop), 0))
  {
    SweepFades(Lowered(t, loop));
  }

  lemma QueueFades(w: World, loop: int, q: seq<Callback>)
    requires loop in w.table.objects
    ensures ChildrenFade(w.table, WithQueue(w, loop, q).table)
  {
  }

  lemma NothingFades(t: Table)
    ensures ChildrenFade(t, t)
  {
  }

  lemma EffectFades(w: World, e: Effect)
    requires Sound(w)
    ensures ChildrenFade(w.table, Perform(w, e).table)
  {
    hide ChildrenFade, PruneFrom, Create, Remove, Lowered, WithQueue, Insert, Erase, Linked;
    NothingFades(w.table);
    match e
    case Schedule(loop, when) =>
      if !Fails(w, e) {
        QueueFades(w, loop, Insert(w.table.objects[loop].queue, Callback(when, w.nextCallback)));
      }
    case Cancel(loop, id) =>
      if loop in w.table.handles {
        QueueFades(w, loop, Erase(w.table.objects[loop].queue, id));
      }
    case CreateLoop(parent) => if !Fails(w, e) { CreateFades(w.table, w.nextLoop, parent); }
    case DestroyLoop(loop) => if loop in w.table.handles { RemoveFades(w.table, loop); }
    case DropHandle(loop) => if loop in w.table.handles { LoweredFades(w.table, loop); }
    case _ =>
  }

  lemma StepFades(w: World, s: Step)
    requires Sound(w) && Enabled(w, s)
    ensures ChildrenFade(w.table, Apply(w, s).table)
  {
    hide ChildrenFade, PruneFrom, Perform, WithQueue, Linked;
    match s
    case Sweep => SweepFades(w.table);
    case Act(e) => EffectFades(w, e);
    case Pop(loop, cb, _) => QueueFades(w, loop, w.table.objects[loop].queue[1..]);
    case _ => NothingFades(w.table);
  }

  lemma StepCalms(w: World, s: Step, now: Timestamp)
    requires Valid(w) && Enabled(w, s)
    requires s.Act? && s.effect.Schedule? ==> Less(now, s.effect.when)
    ensures Calmer(w.table, Apply(w, s).table, now)
  {
    var t, t' := w.table, Apply(w, s).table;
    StepKeepsValid(w, s);
    StepFades(w, s);
    forall k | k in t'.objects && Due(t'.objects[k].queue, now) ensures k in t.objects && Due(t.objects[k].queue, now) {
      var head := t'.objects[k].queue[0];
      assert Queued(Apply(w, s), k, head);
      NothingMoreDue(w, s, now, k, head);
      NothingDueBehindTheHead(t.objects[k].queue, now, head);
    }
  }

  lemma {:induction false} TraceCalms(w: World, steps: seq<Step>, now: Timestamp)
    requires Valid(w) && Trace(w, steps) && SchedulesAfter(steps, now)
    ensures Valid(Replay(w, steps)) && Calmer(w.table, Replay(w, steps).table, now)
    decreases |steps|
  {
    ReplayKeepsValid(w, steps);
    if steps != [] {
      var w' := Apply(w, steps[0]);
      StepKeepsValid(w, steps[0]);
      StepCalms(w, steps[0], now);
      TraceCalms(w', steps[1..], now);
      CalmerJoins(w.table, w'.table, Replay(w, steps).table, now);
    }
  }

  lemma CalmerJoins(a: Table, b: Table, c: Table, now: Timestamp)
    requires Calmer(a, b, now) && Calmer(b, c, now)
    ensures Calmer(a, c, now)
  {
  }

  lemma {:induction false} CalmKeepsSettled(t: Table, t': Table, id: int, now: Timestamp)
    requires Shaped(t) && Shaped(t') && Calmer(t, t', now) && id in t'.objects
    requires id in t.objects ==> !DueTree(t, id, now)
    ensures !DueTree(t', id, now)
    decreases t'.limit - id
  {
    var kids := t'.objects[id].children;
    ChildrenAreBelow(t', id);
    DueAmongMeans(t', id, kids, now);
    forall i | 0 <= i < |kids| ensures !DueTree(t', kids[i], now) {
      var c := kids[i];
      assert c in kids;
      if id in t.objects && c in t.objects {
        ChildrenAreBelow(t, id);
        DueAmongMeans(t, id, t.objects[id].children, now);
        var j :| 0 <= j < |t.objects[id].children| && t.objects[id].children[j] == c;
      }
      CalmKeepsSettled(t, t', c, now);
    }
  }

  lemma {:induction false} QueueSettles(w: World, script: Script, id: int, now: Timestamp, b: nat)
    requires Sound(w) && id in w.table.objects
    requires RunQueue(w, script, true, id, now, b).outcome.Finished?
    ensures !Due(RunQueue(w, script, true, id, now, b).world.table.objects[id].queue, now)
    decreases b
  {
    var q := w.table.objects[id].queue;
    if Due(q, now) {
      var pop := Pop(id, q[0], now);
      StepKeepsSound(w, pop);
      var one := RunEffects(Apply(w, pop), script, script(q[0].id), b - 1);
      QueueSettles(one.world, script, id, now, one.left);
    }
  }

  lemma RunCalms(w: World, b: nat, r: Run, now: Timestamp)
    requires Valid(w) && Faithful(w, b, r) && SchedulesAfter(r.steps, now)
    ensures Valid(r.world) && Calmer(w.table, r.world.table, now)
  {
    TraceCalms(w, r.steps, now);
  }

  /** The two halves of a normal run over a non-empty list of children. */
  lemma ChildrenHalves(w: World, script: Script, above: int, kids: seq<int>, now: Timestamp, b: nat)
        returns (first: Run, rest: Run)
    requires Valid(w) && above < w.table.limit && Below(w.table, above, kids) && kids != []
    requires RunChildren(w, script, above, kids, now, b).outcome.Finished?
    requires SchedulesAfter(RunChildren(w, script, above, kids, now, b).steps, now)
    ensures first == RunOne(w, script, true, kids[0], now, b)
    ensures first.outcome.Finished? && SchedulesAfter(first.steps, now)
    ensures Valid(first.world) && Calmer(w.table, first.world.table, now)
    ensures above < first.world.table.limit && Below(first.world.table, above, kids[1..])
    ensures first.left < b || first.world.table == w.table
    ensures rest == RunChildren(first.world, script, above, kids[1..], now, first.left)
    ensures rest.outcome.Finished? && SchedulesAfter(rest.steps, now)
    ensures Valid(rest.world) && Calmer(first.world.table, rest.world.table, now)
    ensures rest.world == RunChildren(w, script, above, kids, now, b).world
  {
    hide RunOne, Calmer, SchedulesAfter, Shaped, Linked;
    first := RunOne(w, script, true, kids[0], now, b);
    rest := RunChildren(first.world, script, above, kids[1..], now, first.left);
    SchedulesAfterParts(first.steps, rest.steps, now);
    OneIsFaithful(w, script, true, kids[0], now, b);
    RunCalms(w, b, first, now);
    ChildrenAreFaithful(first.world, script, above, kids[1..], now, first.left);
    RunCalms(first.world, first.left, rest, now);
  }

  ghost predicate AllSettled(t: Table, kids: seq<int>, now: Timestamp)
    requires Shaped(t)
  {
    forall i :: 0 <= i < |kids| ==> kids[i] in t.objects && !DueTree(t, kids[i], now)
  }

  lemma {:induction false} ChildrenSettle(w: World, script: Script, above: int, kids: seq<int>, now: Timestamp, b: nat)
    requires Valid(w) && above < w.table.limit && Below(w.table, above, kids)
    requires RunChildren(w, script, above, kids, now, b).outcome.Finished?
    requires SchedulesAfter(RunChildren(w, script, above, kids, now, b).steps, now)
    ensures AllSettled(RunChildren(w, script, above, kids, now, b).world.table, kids, now)
    decreases b, w.table.limit - above, 0, |kids|
  {
    if kids != [] {
      var first, rest := ChildrenHalves(w, script, above, kids, now, b);
      ChildrenSettle(first.world, script, above, kids[1..], now, first.left);
      OneSettles(w, script, kids[0], now, b);
      CalmKeepsSettled(first.world.table, rest.world.table, kids[0], now);
      AllSettledCons(rest.world.table, kids, now);
    }
  }

  lemma AllSettledCons(t: Table, kids: seq<int>, now: Timestamp)
    requires Shaped(t) && kids != [] && kids[0] in t.objects && !DueTree(t, kids[0], now)
    requires AllSettled(t, kids[1..], now)
    ensures AllSettled(t, kids, now)
  {
    forall i | 0 < i < |kids| ensures kids[i] in t.objects && !DueTree(t, kids[i], now) {
      assert kids[1..][i - 1] == kids[i];
    }
  }

  lemma SchedulesAfterParts(a: seq<Step>, b: seq<Step>, now: Timestamp)
    requires SchedulesAfter(a + b, now)
    ensures SchedulesAfter(a, now) && SchedulesAfter(b, now)
  {
    forall i | 0 <= i < |a| && a[i].Act? && a[i].effect.Schedule? ensures Less(now, a[i].effect.when) {
      assert (a + b)[i] == a[i];
    }
    forall i | 0 <= i < |b| && b[i].Act? && b[i].effect.Schedule? ensures Less(now, b[i].effect.when) {
      assert (a + b)[|a| + i] == b[i];
    }
  }

  /** The two halves of the work of a normal pass over one registry. */
  lemma InsideHalves(w: World, script: Script, all: bool, id: int, now: Timestamp, b: nat) returns (own: Run, rest: Run)
    requires Valid(w) && id in w.table.objects
    requires RunInside(w, script, all, id, now, b).outcome.Finished?
    requires SchedulesAfter(RunInside(w, script, all, id, now, b).steps, now)
    ensures own == RunQueue(w, script, all, id, now, b)
    ensures own.outcome.Finished? && Valid(own.world) && id in own.world.table.objects
    ensures id < own.world.table.limit && Below(own.world.table, id, own.world.table.objects[id].children)
    ensures rest == RunChildren(own.world, script, id, own.world.table.objects[id].children, now, own.left)
    ensures rest.outcome.Finished? && SchedulesAfter(rest.steps, now)
    ensures Valid(rest.world) && Calmer(own.world.table, rest.world.table, now)
    ensures RunInside(w, script, all, id, now, b) == rest.(steps := own.steps + rest.steps)
    ensures own.left < b || own.world.table == w.table
  {
    own := RunQueue(w, script, all, id, now, b);
    OwnPartIsValid(w, script, all, id, now, b);
    var kids := own.world.table.objects[id].children;
    ChildrenAreBelow(own.world.table, id);
    rest := RunChildren(own.world, script, id, kids, now, own.left);
    SchedulesAfterParts(own.steps, rest.steps, now);
    ChildrenPartCalms(own.world, script, id, kids, now, own.left);
  }

  /** A pass over one registry and its work. */
  lemma InsideOf(w: World, script: Script, all: bool, id: int, now: Timestamp, b: nat) returns (body: Run)
    requires Valid(w) && id in w.table.objects
    requires RunOne(w, script, all, id, now, b).outcome.Finished?
    requires SchedulesAfter(RunOne(w, script, all, id, now, b).steps, now)
    ensures Valid(Apply(w, Enter(id))) && Apply(w, Enter(id)).table == w.table
    ensures body == RunInside(Apply(w, Enter(id)), script, all, id, now, b)
    ensures body.outcome.Finished? && SchedulesAfter(body.steps, now)
    ensures body.world.table == RunOne(w, script, all, id, now, b).world.table
    ensures RunOne(w, script, all, id, now, b).steps == [Enter(id)] + body.steps + [Leave(w.current)]
  {
    StepKeepsValid(w, Enter(id));
    body := RunInside(Apply(w, Enter(id)), script, all, id, now, b);
    SchedulesAfterParts([Enter(id)] + body.steps, [Leave(w.current)], now);
    SchedulesAfterParts([Enter(id)], body.steps, now);
  }

  lemma OwnPartIsValid(w: World, script: Script, all: bool, id: int, now: Timestamp, b: nat)
    requires Valid(w) && id in w.table.objects
    ensures Valid(RunQueue(w, script, all, id, now, b).world)
  {
    QueueIsFaithful(w, script, all, id, now, b);
    ReplayKeepsValid(w, RunQueue(w, script, all, id, now, b).steps);
  }

  lemma ChildrenPartCalms(w: World, script: Script, above: int, kids: seq<int>, now: Timestamp, b: nat)
    requires Valid(w) && above < w.table.limit && Below(w.table, above, kids)
    requires SchedulesAfter(RunChildren(w, script, above, kids, now, b).steps, now)
    ensures var rest := RunChildren(w, script, above, kids, now, b);
      Valid(rest.world) && Calmer(w.table, rest.world.table, now)
  {
    ChildrenAreFaithful(w, script, above, kids, now, b);
    RunCalms(w, b, RunChildren(w, script, above, kids, now, b), now);
  }

  lemma {:induction false} InsideSettles(w: World, script: Script, id: int, now: Timestamp, b: nat)
    requires Valid(w) && id in w.table.objects
    requires RunInside(w, script, true, id, now, b).outcome.Finished?
    requires SchedulesAfter(RunInside(w, script, true, id, now, b).steps, now)
    ensures !DueTree(RunInside(w, script, true, id, now, b).world.table, id, now)
    decreases b, w.table.limit - id, 1, 0
  {
    hide RunInside, RunQueue, RunChildren, Calmer;
    var own, rest := InsideHalves(w, script, true, id, now, b);
    var kids := own.world.table.objects[id].children;
    QueueSettles(w, script, id, now, b);
    ChildrenSettle(own.world, script, id, kids, now, own.left);
    TreeSettled(own.world.table, rest.world.table, id, kids, now);
  }

  /** A run-all pass that ends normally leaves nothing due in the loop's tree as it then stands,
      whatever loops and callbacks came and went meanwhile. */
  lemma {:induction false} OneSettles(w: World, script: Script, id: int, now: Timestamp, b: nat)
    requires Valid(w) && id in w.table.objects
    requires RunOne(w, script, true, id, now, b).outcome.Finished?
    requires SchedulesAfter(RunOne(w, script, true, id, now, b).steps, now)
    ensures !DueTree(RunOne(w, script, true, id, now, b).world.table, id, now)
    decreases b, w.table.limit - id, 2, 0
  {
    hide RunInside;
    var body := InsideOf(w, script, true, id, now, b);
    InsideSettles(Apply(w, Enter(id)), script, id, now, b);
  }

  lemma TreeSettled(t: Table, t': Table, id: int, kids: seq<int>, now: Timestamp)
    requires Shaped(t) && Shaped(t') && id in t.objects && Calmer(t, t', now)
    requires kids == t.objects[id].children && !Due(t.objects[id].queue, now)
    requires AllSettled(t', kids, now)
    ensures !DueTree(t', id, now)
  {
    var kids' := t'.objects[id].children;
    ChildrenAreBelow(t', id);
    DueAmongMeans(t', id, kids', now);
    forall i | 0 <= i < |kids'| ensures !DueTree(t', kids'[i], now) {
      var c := kids'[i];
      assert c in kids';
      if c in kids {
        var j :| 0 <= j < |kids| && kids[j] == c;
      } else {
        CalmKeepsSettled(t, t', c, now);
      }
    }
  }
}
