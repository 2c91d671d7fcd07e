/** Asking a loop for one callback only. The documentation of `run_now` promises at most one for
    `all = FALSE`; the pass gives the child loops no such limit. */
module OneCallback {
  import opened Timestamps
  import opened Options
  import opened Callbacks
  import opened Forest
  import opened Pass
  import opened Ledger
  import opened PassTheorems
  import opened Answers

  // ---- passes that leave the loops alone

  predicate TameBody(effects: seq<Effect>, now: Timestamp) {
    forall i :: 0 <= i < |effects| ==> effects[i].Schedule? && Less(now, effects[i].when)
  }

  /** Every body only schedules, and only for later. */
  ghost predicate Tame(script: Script, now: Timestamp) {
    forall n: nat :: TameBody(script(n), now)
  }

  predicate TameStep(s: Step, now: Timestamp) {
    match s
    case Enter(_) => true
    case Leave(_) => true
    case Pop(_, _, at) => at == now
    case Act(e) => e.Schedule? && Less(now, e.when)
    case Sweep => false
  }

  predicate TameSteps(steps: seq<Step>, now: Timestamp) {
    forall i :: 0 <= i < |steps| ==> TameStep(steps[i], now)
  }

  /** Links and registrations are the same. */
  predicate SameShape(t: Table, t': Table) {
    && t.objects.Keys == t'.objects.Keys && t.limit == t'.limit && t.handles == t'.handles
    && forall k :: k in t.objects ==> t.objects[k].children == t'.objects[k].children
  }

  /** There is a path from `root` down to `l`. */
  ghost predicate Reaches(t: Table, root: int, l: int) {
    exists path :: Path(t, root, path, l)
  }

  ghost predicate ReachesFrom(t: Table, kids: seq<int>, l: int) {
    exists i :: 0 <= i < |kids| && Reaches(t, kids[i], l)
  }

  lemma {:induction false} PathSame(t: Table, t': Table, root: int, path: seq<int>, l: int)
    requires SameShape(t, t') && Path(t, root, path, l)
    ensures Path(t', root, path, l)
    decreases |path|
  {
    if path != [] {
      PathSame(t, t', path[0], path[1..], l);
    }
  }

  lemma ReachesSame(t: Table, t': Table, root: int, l: int)
    requires SameShape(t, t')
    ensures Reaches(t, root, l) ==> Reaches(t', root, l)
  {
    if path :| Path(t, root, path, l) {
      PathSame(t, t', root, path, l);
    }
  }

  lemma ReachesFromSame(t: Table, t': Table, kids: seq<int>, l: int)
    requires SameShape(t, t')
    ensures ReachesFrom(t, kids, l) ==> ReachesFrom(t', kids, l)
  {
    if i :| 0 <= i < |kids| && Reaches(t, kids[i], l) {
      ReachesSame(t, t', kids[i], l);
    }
  }

  lemma ReachesDown(t: Table, root: int, l: int)
    requires Shaped(t) && root in t.objects && ReachesFrom(t, t.objects[root].children, l)
    ensures Reaches(t, root, l)
  {
    var kids := t.objects[root].children;
    var i :| 0 <= i < |kids| && Reaches(t, kids[i], l);
    var c := kids[i];
    assert c in kids;
    var path :| Path(t, c, path, l);
    assert ([c] + path)[1..] == path;
    assert Path(t, root, [c] + path, l);
  }

  /** Paths lead to higher ids. */
  lemma {:induction false} PathsClimb(t: Table, root: int, path: seq<int>, l: int)
    requires Shaped(t) && Path(t, root, path, l)
    ensures root <= l
    decreases |path|
  {
    if path != [] {
      PathsClimb(t, path[0], path[1..], l);
    }
  }

  /** Where the due head of a queue can be reached, the tree is due. */
  lemma {:induction false} ReachedIsDue(t: Table, root: int, path: seq<int>, l: int, now: Timestamp)
    requires Shaped(t) && Path(t, root, path, l) && Due(t.objects[l].queue, now)
    ensures root in t.objects && DueTree(t, root, now)
    decreases |path|
  {
    if path != [] {
      var kids := t.objects[root].children;
      ReachedIsDue(t, path[0], path[1..], l, now);
      ChildrenAreBelow(t, root);
      DueAmongMeans(t, root, kids, now);
      var i :| 0 <= i < |kids| && kids[i] == path[0];
      assert DueTree(t, kids[i], now);
    }
  }

  // ---- what such a pass does

  lemma WithQueueKeepsShape(w: World, loop: int, q: seq<Callback>)
    requires loop in w.table.objects
    ensures SameShape(w.table, WithQueue(w, loop, q).table)
  {
  }

  lemma {:induction false} TameEffects(w: World, script: Script, effects: seq<Effect>, b: nat, now: Timestamp)
    requires Sound(w) && TameBody(effects, now)
    ensures var r := RunEffects(w, script, effects, b);
      r.left == b && !r.outcome.Suspended? && TameSteps(r.steps, now) && Pops(r.steps) == [] &&
          SameShape(w.table, r.world.table)
    decreases |effects|
  {
    if effects != [] {
      var e := effects[0];
      StepKeepsSound(w, Act(e));
      if !Fails(w, e) {
        WithQueueKeepsShape(w, e.loop, Insert(w.table.objects[e.loop].queue, Callback(e.when, w.nextCallback)));
        TameEffects(Perform(w, e), script, effects[1..], b, now);
        PopsConcatenate([Act(e)], RunEffects(Perform(w, e), script, effects[1..], b).steps);
      }
    }
  }

  /** All pops are made in this loop. */
  predicate PopsOf(steps: seq<Step>, loop: int) {
    forall i :: 0 <= i < |steps| && steps[i].Pop? ==> steps[i].loop == loop
  }

  ghost predicate PopsWithin(t: Table, kids: seq<int>, steps: seq<Step>) {
    forall i :: 0 <= i < |steps| && steps[i].Pop? ==> ReachesFrom(t, kids, steps[i].loop)
  }

  lemma {:induction false} NoPops(steps: seq<Step>)
    requires Pops(steps) == []
    ensures forall i :: 0 <= i < |steps| ==> !steps[i].Pop?
  {
    if steps != [] {
      assert steps == [steps[0]] + steps[1..];
      PopsOfFirst(steps[0], steps[1..]);
      NoPops(steps[1..]);
    }
  }

  /** The first turn pops the head, and its body neither pops nor touches a loop. */
  lemma TameTurn(w: World, script: Script, id: int, now: Timestamp, b: nat)
    requires Sound(w) && id in w.table.objects && Due(w.table.objects[id].queue, now) && b > 0 && Tame(script, now)
    ensures var one := FirstTurn(w, script, id, now, b);
      && TameSteps(one.steps, now) && PopsOf(one.steps, id) && Pops(one.steps) == [(id, w.table.objects[id].queue[0])]
      && SameShape(w.table, one.world.table)
  {
    hide RunEffects, Shaped, Linked;
    var q := w.table.objects[id].queue;
    var pop := Pop(id, q[0], now);
    StepKeepsSound(w, pop);
    assert TameBody(script(q[0].id), now);
    TameEffects(Apply(w, pop), script, script(q[0].id), b - 1, now);
    var one := RunEffects(Apply(w, pop), script, script(q[0].id), b - 1);
    NoPops(one.steps);
    PopsOfFirst(pop, one.steps);
    WithQueueKeepsShape(w, id, q[1..]);
  }

  lemma {:induction false} TameQueue(w: World, script: Script, all: bool, id: int, now: Timestamp, b: nat)
    requires Sound(w) && id in w.table.objects && Tame(script, now)
    ensures var r := RunQueue(w, script, all, id, now, b);
      TameSteps(r.steps, now) && PopsOf(r.steps, id) && SameShape(w.table, r.world.table)
    decreases b
  {
    hide FirstTurn, RunEffects, TameStep, Tame, Shaped, Linked;
    if Due(w.table.objects[id].queue, now) && b > 0 {
      TameTurn(w, script, id, now, b);
      QueueTurns(w, script, all, id, now, b);
      var one := FirstTurn(w, script, id, now, b);
      if one.outcome.Finished? && all {
        TameQueue(one.world, script, all, id, now, one.left);
      }
    }
  }

  /** With `all = FALSE` the loop's own part is the head of its queue, if that is due, and nothing else. */
  lemma OwnPart(w: World, script: Script, id: int, now: Timestamp, b: nat)
    requires Sound(w) && id in w.table.objects && Tame(script, now)
    ensures var q, r := w.table.objects[id].queue, RunQueue(w, script, false, id, now, b);
      r.outcome.Finished? ==> Pops(r.steps) == if Due(q, now) then [(id, q[0])] else []
  {
    hide FirstTurn, RunEffects, Tame, TameSteps, SameShape, PopsOf, Shaped, Linked;
    if Due(w.table.objects[id].queue, now) && b > 0 {
      TameTurn(w, script, id, now, b);
      QueueTurns(w, script, false, id, now, b);
    }
  }

  lemma {:induction false} TameChildren(w: World, script: Script, above: int, kids: seq<int>, now: Timestamp, b: nat)
    requires Sound(w) && above < w.table.limit && Below(w.table, above, kids) && Tame(script, now)
    ensures var r := RunChildren(w, script, above, kids, now, b);
      TameSteps(r.steps, now) && PopsWithin(w.table, kids, r.steps) && SameShape(w.table, r.world.table)
    decreases b, w.table.limit - above, 0, |kids|
  {
    hide RunOne, TameStep, Tame, Shaped, Linked;
    if kids != [] {
      TameOne(w, script, true, kids[0], now, b);
      var first := RunOne(w, script, true, kids[0], now, b);
      if first.outcome.Finished? {
        TameChildren(first.world, script, above, kids[1..], now, first.left);
        var rest := RunChildren(first.world, script, above, kids[1..], now, first.left);
        WithinLater(w.table, first.world.table, kids, rest.steps);
        WithinJoins(w.table, kids, first.steps, rest.steps);
      }
    }
  }

  lemma WithinLater(t: Table, t': Table, kids: seq<int>, steps: seq<Step>)
    requires kids != [] && SameShape(t, t') && PopsWithin(t', kids[1..], steps)
    ensures PopsWithin(t, kids, steps)
  {
    forall i | 0 <= i < |steps| && steps[i].Pop? ensures ReachesFrom(t, kids, steps[i].loop) {
      ReachesFromSame(t', t, kids[1..], steps[i].loop);
      var j :| 0 <= j < |kids[1..]| && Reaches(t, kids[1..][j], steps[i].loop);
      assert kids[j + 1] == kids[1..][j];
    }
  }

  lemma WithinJoins(t: Table, kids: seq<int>, a: seq<Step>, b: seq<Step>)
    requires PopsWithin(t, kids, b) && kids != []
    requires forall i :: 0 <= i < |a| && a[i].Pop? ==> Reaches(t, kids[0], a[i].loop)
    ensures PopsWithin(t, kids, a + b)
  {
  }

  ghost predicate PopsUnder(t: Table, root: int, steps: seq<Step>) {
    forall i :: 0 <= i < |steps| && steps[i].Pop? ==> Reaches(t, root, steps[i].loop)
  }

  lemma UnderJoins(t: Table, root: int, a: seq<Step>, b: seq<Step>, now: Timestamp)
    requires PopsUnder(t, root, a) && PopsUnder(t, root, b) && TameSteps(a, now) && TameSteps(b, now)
    ensures PopsUnder(t, root, a + b) && TameSteps(a + b, now)
  {
  }

  lemma OwnIsUnder(t: Table, id: int, steps: seq<Step>)
    requires id in t.objects && PopsOf(steps, id)
    ensures PopsUnder(t, id, steps)
  {
    assert Path(t, id, [], id);
  }

  lemma KidsAreUnder(t: Table, t': Table, id: int, steps: seq<Step>)
    requires Shaped(t') && SameShape(t', t) && id in t'.objects && PopsWithin(t', t'.objects[id].children, steps)
    ensures PopsUnder(t, id, steps)
  {
    forall i | 0 <= i < |steps| && steps[i].Pop? ensures Reaches(t, id, steps[i].loop) {
      ReachesDown(t', id, steps[i].loop);
      ReachesSame(t', t, id, steps[i].loop);
    }
  }

  lemma {:induction false} TameInside(w: World, script: Script, all: bool, id: int, now: Timestamp, b: nat)
    requires Sound(w) && id in w.table.objects && Tame(script, now)
    ensures var r := RunInside(w, script, all, id, now, b);
      TameSteps(r.steps, now) && SameShape(w.table, r.world.table) && PopsUnder(w.table, id, r.steps)
    decreases b, w.table.limit - id, 1, 0
  {
    var own := RunQueue(w, script, all, id, now, b);
    TameQueue(w, script, all, id, now, b);
    OwnIsUnder(w.table, id, own.steps);
    if own.outcome.Finished? {
      var kids := own.world.table.objects[id].children;
      ChildrenAreBelow(own.world.table, id);
      TameChildren(own.world, script, id, kids, now, own.left);
      var rest := RunChildren(own.world, script, id, kids, now, own.left);
      KidsAreUnder(w.table, own.world.table, id, rest.steps);
      UnderJoins(w.table, id, own.steps, rest.steps, now);
    }
  }

  lemma {:induction false} TameOne(w: World, script: Script, all: bool, id: int, now: Timestamp, b: nat)
    requires Sound(w) && id in w.table.objects && Tame(script, now)
    ensures var r := RunOne(w, script, all, id, now, b);
      TameSteps(r.steps, now) && SameShape(w.table, r.world.table) && PopsUnder(w.table, id, r.steps)
    decreases b, w.table.limit - id, 2, 0
  {
    hide RunInside, SameShape, PopsUnder, Tame, Shaped, Linked;
    TameInside(Apply(w, Enter(id)), script, all, id, now, b);
    var inside := RunInside(Apply(w, Enter(id)), script, all, id, now, b);
    ScopeIsTame(w.table, id, inside.steps, w.current, now);
  }

  lemma ScopeIsTame(t: Table, id: int, steps: seq<Step>, saved: int, now: Timestamp)
    requires TameSteps(steps, now) && PopsUnder(t, id, steps)
    ensures TameSteps([Enter(id)] + steps, now) && PopsUnder(t, id, [Enter(id)] + steps)
    ensures TameSteps([Enter(id)] + steps + [Leave(saved)], now) &&
        PopsUnder(t, id, [Enter(id)] + steps + [Leave(saved)])
  {
  }

  // ---- the exact number of invocations

  /** The ids due in the trees of the children. */
  ghost function DueBelow(t: Table, id: int, now: Timestamp): set<nat>
    requires id in t.objects
  {
    set l, i | l in t.objects && ReachesFrom(t, t.objects[id].children, l) &&
               0 <= i < |t.objects[l].queue| && DueAt(t.objects[l].queue[i], now) :: t.objects[l].queue[i].id
  }

  lemma {:induction false} KeptOrPopped(w: World, steps: seq<Step>, l: int, cb: Callback, now: Timestamp)
    requires Valid(w) && Trace(w, steps) && TameSteps(steps, now) && Queued(w, l, cb)
    ensures Queued(Replay(w, steps), l, cb) || cb.id in Tally(w, steps).invoked
    decreases |steps|
  {
    if steps != [] {
      var s := steps[0];
      StepKeepsValid(w, s);
      if s.Pop? {
        PopStep(w, s.loop, s.cb, s.now);
      } else if s.Act? && !Fails(w, s.effect) {
        ScheduleStep(w, s.effect.loop, s.effect.when);
      } else {
        TableOnlySteps(w, s);
      }
      if Queued(Apply(w, s), l, cb) {
        KeptOrPopped(Apply(w, s), steps[1..], l, cb, now);
      }
    }
  }

  lemma {:induction false} PopsAreSteps(steps: seq<Step>, i: nat) returns (j: nat)
    requires i < |Pops(steps)|
    ensures j < |steps| && steps[j].Pop? && Pops(steps)[i] == (steps[j].loop, steps[j].cb)
  {
    if i < |PopOf(steps[0])| {
      j := 0;
    } else {
      var k := PopsAreSteps(steps[1..], i - |PopOf(steps[0])|);
      j := k + 1;
    }
  }

  lemma TameMeansQuiet(steps: seq<Step>, now: Timestamp)
    requires TameSteps(steps, now)
    ensures SchedulesAfter(steps, now) && PopsAt(steps, now)
  {
  }

  /** Where every child's tree is settled, nothing due is queued below. */
  lemma SettledBelow(w: World, kids: seq<int>, now: Timestamp, l: int, cb: Callback)
    requires Valid(w) && AllSettled(w.table, kids, now) && ReachesFrom(w.table, kids, l) && DueAt(cb, now)
    ensures !Queued(w, l, cb)
  {
    if Queued(w, l, cb) {
      var i :| 0 <= i < |kids| && Reaches(w.table, kids[i], l);
      var path :| Path(w.table, kids[i], path, l);
      NothingDueBehindTheHead(w.table.objects[l].queue, now, cb);
      ReachedIsDue(w.table, kids[i], path, l, now);
    }
  }

  /** The work of a pass asked for one callback: the due head of the loop's own queue, then callbacks of its
      children's trees until those are settled. */
  lemma InsideOnce(w: World, script: Script, id: int, now: Timestamp, b: nat) returns (rest: seq<Step>)
    requires Valid(w) && id in w.table.objects && Tame(script, now)
    requires RunInside(w, script, false, id, now, b).outcome.Finished?
    ensures var q, r := w.table.objects[id].queue, RunInside(w, script, false, id, now, b);
      && Pops(r.steps) == (if Due(q, now) then [(id, q[0])] else []) + Pops(rest)
      && PopsWithin(w.table, w.table.objects[id].children, rest)
      && Valid(r.world) && AllSettled(r.world.table, w.table.objects[id].children, now)
      && SameShape(w.table, r.world.table)
  {
    hide RunChildren;
    hide RunInside, RunQueue, Calmer, TameSteps, PopsUnder;
    TameInside(w, script, false, id, now, b);
    TameMeansQuiet(RunInside(w, script, false, id, now, b).steps, now);
    var own, last := InsideHalves(w, script, false, id, now, b);
    var kids := w.table.objects[id].children;
    TameQueue(w, script, false, id, now, b);
    OwnPart(w, script, id, now, b);
    TameChildren(own.world, script, id, kids, now, own.left);
    ChildrenSettle(own.world, script, id, kids, now, own.left);
    rest := last.steps;
    PopsConcatenate(own.steps, rest);
    WithinSame(w.table, own.world.table, kids, rest);
  }

  lemma WithinSame(t: Table, t': Table, kids: seq<int>, steps: seq<Step>)
    requires SameShape(t, t') && PopsWithin(t', kids, steps)
    ensures PopsWithin(t, kids, steps)
  {
    forall i | 0 <= i < |steps| && steps[i].Pop? ensures ReachesFrom(t, kids, steps[i].loop) {
      ReachesFromSame(t', t, kids, steps[i].loop);
    }
  }

  /** ... and of the pass itself. */
  lemma PassOnce(w: World, script: Script, id: int, now: Timestamp, b: nat) returns (rest: seq<Step>)
    requires Valid(w) && id in w.table.objects && Tame(script, now)
    requires RunOne(w, script, false, id, now, b).outcome.Finished?
    ensures var q, r := w.table.objects[id].queue, RunOne(w, script, false, id, now, b);
      && Pops(r.steps) == (if Due(q, now) then [(id, q[0])] else []) + Pops(rest)
      && PopsWithin(w.table, w.table.objects[id].children, rest)
      && Valid(r.world) && AllSettled(r.world.table, w.table.objects[id].children, now)
      && SameShape(w.table, r.world.table) && TameSteps(r.steps, now)
  {
    hide RunInside, RunOne, TameSteps, PopsUnder;
    TameOne(w, script, false, id, now, b);
    var r := RunOne(w, script, false, id, now, b);
    TameMeansQuiet(r.steps, now);
    OneIsFaithful(w, script, false, id, now, b);
    ReplayKeepsValid(w, r.steps);
    var body := InsideOf(w, script, false, id, now, b);
    rest := InsideOnce(Apply(w, Enter(id)), script, id, now, b);
    PopsBetween(Enter(id), body.steps, Leave(w.current));
  }

  lemma PopsBetween(enter: Step, steps: seq<Step>, leave: Step)
    requires enter.Enter? && leave.Leave?
    ensures Pops([enter] + steps + [leave]) == Pops(steps)
  {
    PopsConcatenate([enter] + steps, [leave]);
    PopsConcatenate([enter], steps);
    assert [enter][1..] == [] && [leave][1..] == [];
    assert Pops([enter]) == [] && Pops([leave]) == [];
  }

  /** Due callbacks below are not the loop's own. */
  lemma OwnIsNotBelow(w: World, id: int, now: Timestamp)
    requires Valid(w) && id in w.table.objects && w.table.objects[id].queue != []
    ensures w.table.objects[id].queue[0].id !in DueBelow(w.table, id, now)
  {
    var own := w.table.objects[id].queue[0];
    if own.id in DueBelow(w.table, id, now) {
      var l, i :| l in w.table.objects && ReachesFrom(w.table, w.table.objects[id].children, l) &&
                  0 <= i < |w.table.objects[l].queue| && DueAt(w.table.objects[l].queue[i], now) &&
                  w.table.objects[l].queue[i].id == own.id;
      assert Queued(w, l, w.table.objects[l].queue[i]) && Queued(w, id, own);
      var kids := w.table.objects[id].children;
      ChildrenAreBelow(w.table, id);
      var k :| 0 <= k < |kids| && Reaches(w.table, kids[k], l);
      var path :| Path(w.table, kids[k], path, l);
      PathsClimb(w.table, kids[k], path, l);
    }
  }

  function OwnDue(w: World, id: int, now: Timestamp): set<nat>
    requires id in w.table.objects
  {
    if Due(w.table.objects[id].queue, now) then {w.table.objects[id].queue[0].id} else {}
  }

  /** The steps of such a pass, and what they leave. */
  ghost predicate OncePass(w: World, id: int, now: Timestamp, steps: seq<Step>, rest: seq<Step>, after: World)
    requires id in w.table.objects
  {
    var q, kids := w.table.objects[id].queue, w.table.objects[id].children;
    && Valid(w) && Trace(w, steps) && Replay(w, steps) == after && TameSteps(steps, now)
    && Pops(steps) == (if Due(q, now) then [(id, q[0])] else []) + Pops(rest) && PopsWithin(w.table, kids, rest)
    && Valid(after) && AllSettled(after.table, kids, now) && SameShape(w.table, after.table)
  }

  lemma DueBelowHas(t: Table, id: int, now: Timestamp, l: int, cb: Callback)
    requires id in t.objects && ReachesFrom(t, t.objects[id].children, l) && l in t.objects
    requires cb in t.objects[l].queue && DueAt(cb, now)
    ensures cb.id in DueBelow(t, id, now)
  {
    var k :| 0 <= k < |t.objects[l].queue| && t.objects[l].queue[k] == cb;
  }

  lemma OnceWasDue(w: World, id: int, now: Timestamp, steps: seq<Step>, rest: seq<Step>, after: World)
    requires id in w.table.objects && OncePass(w, id, now, steps, rest, after)
    ensures |Pops(steps)| == |OwnDue(w, id, now)| + |Pops(rest)|
    ensures |OwnDue(w, id, now)| > 0 ==> Pops(steps)[0].1.id in OwnDue(w, id, now)
    ensures forall i :: |OwnDue(w, id, now)| <= i < |Pops(steps)| ==>
        Pops(steps)[i] == Pops(rest)[i - |OwnDue(w, id, now)|]
    ensures forall i :: 0 <= i < |Pops(steps)| ==>
        Queued(w, Pops(steps)[i].0, Pops(steps)[i].1) && DueAt(Pops(steps)[i].1, now)
    ensures PopsWithin(w.table, w.table.objects[id].children, rest)
  {
    hide TameSteps, PopsAt, SchedulesAfter, AllSettled, SameShape, Pops, PopsWithin, Shaped, Linked, QueuesSorted,
        Handled;
    TameMeansQuiet(steps, now);
    InvokesWhatWasDueInOrder(w, steps, now);
  }

  /** Nothing else is invoked ... */
  lemma InvokesNoMore(w: World, id: int, now: Timestamp, steps: seq<Step>, rest: seq<Step>, after: World, i: nat)
    requires id in w.table.objects && OncePass(w, id, now, steps, rest, after) && i < |Pops(steps)|
    ensures Pops(steps)[i].1.id in OwnDue(w, id, now) + DueBelow(w.table, id, now)
  {
    hide OncePass, OwnDue, DueBelow, Pops;
    OnceWasDue(w, id, now, steps, rest, after);
    var own := |OwnDue(w, id, now)|;
    if i >= own {
      var p := Pops(steps)[i];
      var j := PopsAreSteps(rest, i - own);
      assert Queued(w, p.0, p.1) && DueAt(p.1, now);
      assert p == (rest[j].loop, rest[j].cb);
      DueBelowHas(w.table, id, now, rest[j].loop, rest[j].cb);
    } else {
      OwnIsOne(w, id, now);
    }
  }

  lemma OwnIsOne(w: World, id: int, now: Timestamp)
    requires id in w.table.objects
    ensures |OwnDue(w, id, now)| <= 1
  {
  }

  /** ... and all of that is. */
  lemma InvokesAll(w: World, id: int, now: Timestamp, steps: seq<Step>, rest: seq<Step>, after: World, n: nat)
    requires id in w.table.objects && OncePass(w, id, now, steps, rest, after)
    requires n in OwnDue(w, id, now) + DueBelow(w.table, id, now)
    ensures n in Tally(w, steps).invoked
  {
    hide TameSteps, AllSettled, PopsWithin, Shaped, Linked, QueuesSorted, Handled;
    TakenArePops(w, steps);
    if n in OwnDue(w, id, now) {
      assert Pops(steps)[0].1.id == n;
    } else {
      var kids := w.table.objects[id].children;
      var l, i :| l in w.table.objects && ReachesFrom(w.table, kids, l) && 0 <= i < |w.table.objects[l].queue| &&
                  DueAt(w.table.objects[l].queue[i], now) && w.table.objects[l].queue[i].id == n;
      var cb := w.table.objects[l].queue[i];
      assert Queued(w, l, cb);
      KeptOrPopped(w, steps, l, cb, now);
      ReachesFromSame(w.table, after.table, kids, l);
      SettledBelow(after, kids, now, l, cb);
    }
  }

  lemma InvokesExactly(w: World, id: int, now: Timestamp, steps: seq<Step>, rest: seq<Step>, after: World)
    requires id in w.table.objects && OncePass(w, id, now, steps, rest, after)
    ensures |Pops(steps)| == (if Due(w.table.objects[id].queue, now) then 1 else 0) + |DueBelow(w.table, id, now)|
  {
    hide Shaped, Linked, QueuesSorted, Handled, TameSteps, AllSettled, Pops, DueBelow;
    InvokedOnce(w, steps);
    var own, below := OwnDue(w, id, now), DueBelow(w.table, id, now);
    if Due(w.table.objects[id].queue, now) {
      OwnIsNotBelow(w, id, now);
    }
    InvokedAre(w, id, now, steps, rest, after);
    assert own * below == {};
    assert |own + below| == |own| + |below|;
  }

  lemma InvokedAre(w: World, id: int, now: Timestamp, steps: seq<Step>, rest: seq<Step>, after: World)
    requires id in w.table.objects && OncePass(w, id, now, steps, rest, after)
    ensures Sound(w) && Trace(w, steps)
    ensures Tally(w, steps).invoked == OwnDue(w, id, now) + DueBelow(w.table, id, now)
  {
    hide Shaped, Linked, QueuesSorted, Handled, TameSteps, AllSettled, Pops, DueBelow, OwnDue;
    TakenArePops(w, steps);
    assert Sound(w) && Trace(w, steps);
    forall n: nat | n in Tally(w, steps).invoked ensures n in OwnDue(w, id, now) + DueBelow(w.table, id, now) {
      var i: nat :| i < |Pops(steps)| && Pops(steps)[i].1.id == n;
      InvokesNoMore(w, id, now, steps, rest, after, i);
    }
    forall n: nat | n in OwnDue(w, id, now) + DueBelow(w.table, id, now) ensures n in Tally(w, steps).invoked {
      InvokesAll(w, id, now, steps, rest, after, n);
    }
  }

  /** With `all = FALSE` and bodies that only schedule for later, a pass that ends normally invokes one callback
      for its own due head, if there is one, and all that is due in the trees of its children. */
  lemma OneAndAllBelow(w: World, script: Script, id: int, now: Timestamp, b: nat)
    requires Valid(w) && id in w.table.objects && Tame(script, now)
    requires RunOne(w, script, false, id, now, b).outcome.Finished?
    ensures |Pops(RunOne(w, script, false, id, now, b).steps)|
         == (if Due(w.table.objects[id].queue, now) then 1 else 0) + |DueBelow(w.table, id, now)|
  {
    hide RunOne, Pops;
    var r := RunOne(w, script, false, id, now, b);
    OneIsFaithful(w, script, false, id, now, b);
    var rest := PassOnce(w, script, id, now, b);
    assert OncePass(w, id, now, r.steps, rest, r.world);
    InvokesExactly(w, id, now, r.steps, rest, r.world);
  }

  /** So the documented promise of at most one holds exactly if no more than one is due among the loop's own
      head and all callbacks below. */
  lemma AtMostOneExactly(w: World, script: Script, id: int, now: Timestamp, b: nat)
    requires Valid(w) && id in w.table.objects && Tame(script, now)
    requires RunOne(w, script, false, id, now, b).outcome.Finished?
    ensures |Pops(RunOne(w, script, false, id, now, b).steps)| <= 1 <==>
            (if Due(w.table.objects[id].queue, now) then 1 else 0) + |DueBelow(w.table, id, now)| <= 1
  {
    OneAndAllBelow(w, script, id, now, b);
  }

  /** The same of `run_now` itself: asked for one, it runs exactly that many when the loop is due. */
  lemma RunNowOnce(w: World, script: Script, id: int, checkedAt: Timestamp, now: Timestamp, b: nat)
    requires Valid(w) && id in w.table.handles && DueTree(w.table, id, checkedAt) && Tame(script, now)
    requires ExecCallbacks(w, script, id, false, checkedAt, now, b).outcome.Finished?
    ensures id in w.table.objects
    ensures |Pops(ExecCallbacks(w, script, id, false, checkedAt, now, b).steps)|
         == (if Due(w.table.objects[id].queue, now) then 1 else 0) + |DueBelow(w.table, id, now)|
  {
    hide RunOne, DueBelow, DueTree, Pops, Linked;
    OneAndAllBelow(w, script, id, now, b);
    PopsConcatenate(RunOne(w, script, false, id, now, b).steps, [Sweep]);
    SweepPopsNothing();
  }

  lemma SweepPopsNothing()
    ensures Pops([Sweep]) == []
  {
    assert [Sweep][1..] == [];
  }

  // ---- whatever the callback does

  predicate Childless(effects: seq<Effect>, id: int) {
    forall i :: 0 <= i < |effects| ==> !effects[i].RunNow? && effects[i] != CreateLoop(Some(id))
  }

  lemma SweepKeepsChildless(t: Table, id: int)
    requires Shaped(t) && Linked(t) && id in t.objects && t.objects[id].children == []
    ensures id in PruneFrom(t, 0).objects && PruneFrom(t, 0).objects[id].children == []
  {
    hide PruneFrom, Restrict, Shaped, Linked;
    PruneReachesTheFixpoint(t);
    RestrictKeepsLinks(t, Survivors(t));
    NoneLeft(PruneFrom(t, 0).objects[id].children);
  }

  lemma LoweringKeepsChildless(t: Table, loop: int, id: int)
    requires Shaped(t) && Linked(t) && loop in t.handles && id in t.objects && t.objects[id].children == []
    ensures id in PruneFrom(Lowered(t, loop), 0).objects && PruneFrom(Lowered(t, loop), 0).objects[id].children == []
  {
    hide PruneFrom;
    SweepKeepsChildless(Lowered(t, loop), id);
  }

  lemma PerformKeepsChildless(w: World, e: Effect, id: int)
    requires Sound(w) && id in w.table.objects && w.table.objects[id].children == [] && e != CreateLoop(Some(id))
    ensures id in Perform(w, e).table.objects && Perform(w, e).table.objects[id].children == []
  {
    hide PruneFrom, Insert, Erase, Linked;
    if Perform(w, e) != w {
      match e
      case CreateLoop(parent) => if !Fails(w, e) { CreateEffect(w.table, w.nextLoop, parent, id); }
      case DestroyLoop(loop) => RemoveKeepsLinks(w.table, loop); NoneLeft(Perform(w, e).table.objects[id].children);
      case DropHandle(loop) => LoweringKeepsChildless(w.table, loop, id);
      case _ =>
    }
  }

  lemma NoneLeft(s: seq<int>)
    requires forall x :: x !in s
    ensures s == []
  {
    var first := if s == [] then 0 else s[0];
    assert first !in s;
  }

  lemma {:induction false} EffectsKeepChildless(w: World, script: Script, effects: seq<Effect>, b: nat, id: int)
    requires Sound(w) && id in w.table.objects && w.table.objects[id].children == [] && Childless(effects, id)
    ensures var r := RunEffects(w, script, effects, b);
      r.left == b && id in r.world.table.objects && r.world.table.objects[id].children == []
    decreases |effects|
  {
    if effects != [] {
      var e := effects[0];
      StepKeepsSound(w, Act(e));
      PerformKeepsChildless(w, e, id);
      if !Fails(w, e) {
        EffectsKeepChildless(Perform(w, e), script, effects[1..], b, id);
      }
    }
  }

  /** Whatever the body of its callback does, a loop without children runs at most one, as long as the body
      creates no child for it and runs no pass of its own. */
  lemma AtMostOneChildless(w: World, script: Script, id: int, now: Timestamp, b: nat)
    requires Sound(w) && id in w.table.objects && w.table.objects[id].children == []
    requires Due(w.table.objects[id].queue, now) ==> Childless(script(w.table.objects[id].queue[0].id), id)
    ensures |Pops(RunOne(w, script, false, id, now, b).steps)| <= 1
  {
    OneIsFaithful(w, script, false, id, now, b);
    var entered := Apply(w, Enter(id));
    StepKeepsSound(w, Enter(id));
    ChildlessQueue(entered, script, id, now, b);
  }

  lemma ChildlessQueue(w: World, script: Script, id: int, now: Timestamp, b: nat)
    requires Sound(w) && id in w.table.objects && w.table.objects[id].children == []
    requires Due(w.table.objects[id].queue, now) ==> Childless(script(w.table.objects[id].queue[0].id), id)
    ensures RunInside(w, script, false, id, now, b).left >= b - 1
  {
    hide RunEffects, Childless, Shaped, Linked;
    var q := w.table.objects[id].queue;
    if Due(q, now) && b > 0 {
      var pop := Pop(id, q[0], now);
      StepKeepsSound(w, pop);
      EffectsKeepChildless(Apply(w, pop), script, script(q[0].id), b - 1, id);
    }
  }

  // ---- passes that run two

  const ZERO: Timestamp := Timespec(0, 0)

  /** Loop 0 and its child, loop 1, with these queues. */
  function Pair(own: seq<Callback>, below: seq<Callback>, current: int, depth: nat, next: nat): World {
    World(Table(map[0 := Registry(own, 0, None, [1]), 1 := Registry(below, 0, Some(0), [])],
                map[0 := true, 1 := true], 2),
          next, 2, {0, 1}, current, depth)
  }

  lemma PairIsSound(own: seq<Callback>, below: seq<Callback>, current: int, depth: nat, next: nat)
    ensures Sound(Pair(own, below, current, depth, next))
  {
  }

  lemma OwnOfPair(own: seq<Callback>, below: seq<Callback>, current: int, depth: nat, next: nat, q: seq<Callback>)
    ensures WithQueue(Pair(own, below, current, depth, next), 0, q) == Pair(q, below, current, depth, next)
  {
    assert WithQueue(Pair(own, below, current, depth, next), 0, q).table.objects
        == Pair(q, below, current, depth, next).table.objects;
  }

  lemma BelowOfPair(own: seq<Callback>, below: seq<Callback>, current: int, depth: nat, next: nat, q: seq<Callback>)
    ensures WithQueue(Pair(own, below, current, depth, next), 1, q) == Pair(own, q, current, depth, next)
  {
    assert WithQueue(Pair(own, below, current, depth, next), 1, q).table.objects
        == Pair(own, q, current, depth, next).table.objects;
  }

  predicate AllDueAndInert(script: Script, q: seq<Callback>) {
    forall i :: 0 <= i < |q| ==> DueAt(q[i], ZERO) && script(q[i].id) == []
  }

  lemma ChildOfPair(below: seq<Callback>, current: int, depth: nat, next: nat)
    ensures var w := Pair([], below, current, depth, next);
      Sound(w) && 1 in w.table.objects && w.table.objects[1].queue == below
  {
    PairIsSound([], below, current, depth, next);
  }

  lemma NothingDrains(script: Script, w: World, id: int)
    requires Sound(w) && id in w.table.objects && w.table.objects[id].queue == []
    ensures RunQueue(w, script, true, id, ZERO, 0) == Run(w, [], Finished, 0)
  {
  }

  lemma DrainTurn(script: Script, below: seq<Callback>, next: nat)
    requires AllDueAndInert(script, below) && below != []
    ensures var w := Pair([], below, 1, 2, next);
      && Sound(w) && 1 in w.table.objects && Due(w.table.objects[1].queue, ZERO)
      && var one := FirstTurn(w, script, 1, ZERO, |below|);
         one.world == Pair([], below[1..], 1, 2, next) && one.outcome.Finished? && one.left == |below| - 1
  {
    hide Pair, WithQueue, Sound;
    var w := Pair([], below, 1, 2, next);
    ChildOfPair(below, 1, 2, next);
    BelowOfPair([], below, 1, 2, next, below[1..]);
    StepKeepsSound(w, Pop(1, below[0], ZERO));
    assert RunEffects(Apply(w, Pop(1, below[0], ZERO)), script, [], |below| - 1).left == |below| - 1;
  }

  lemma {:induction false} ChildQueueDrains(script: Script, below: seq<Callback>, next: nat)
    requires AllDueAndInert(script, below)
    ensures Sound(Pair([], below, 1, 2, next))
    ensures var r := RunQueue(Pair([], below, 1, 2, next), script, true, 1, ZERO, |below|);
      r.world == Pair([], [], 1, 2, next) && r.outcome.Finished? && r.left == 0
    decreases |below|
  {
    hide Pair, FirstTurn, Sound;
    ChildOfPair(below, 1, 2, next);
    if below == [] {
      NothingDrains(script, Pair([], [], 1, 2, next), 1);
    } else {
      DrainTurn(script, below, next);
      QueueTurns(Pair([], below, 1, 2, next), script, true, 1, ZERO, |below|);
      ChildQueueDrains(script, below[1..], next);
    }
  }

  lemma InsideDrains(script: Script, below: seq<Callback>, next: nat)
    requires AllDueAndInert(script, below)
    ensures Sound(Pair([], below, 1, 2, next))
    ensures var r := RunInside(Pair([], below, 1, 2, next), script, true, 1, ZERO, |below|);
      r.outcome.Finished? && r.left == 0
  {
    hide RunQueue;
    ChildQueueDrains(script, below, next);
  }

  lemma ChildDrains(script: Script, below: seq<Callback>, next: nat)
    requires AllDueAndInert(script, below)
    ensures Sound(Pair([], below, 0, 1, next)) && Below(Pair([], below, 0, 1, next).table, 0, [1])
    ensures var r := RunOne(Pair([], below, 0, 1, next), script, true, 1, ZERO, |below|);
      r.outcome.Finished? && r.left == 0
  {
    hide RunInside, Pair, Sound, Below;
    PairIsSound([], below, 0, 1, next);
    InsideDrains(script, below, next);
    EnterChild(below, next);
  }

  lemma EnterChild(below: seq<Callback>, next: nat)
    ensures Sound(Pair([], below, 0, 1, next))
    ensures Apply(Pair([], below, 0, 1, next), Enter(1)) == Pair([], below, 1, 2, next)
    ensures Below(Pair([], below, 0, 1, next).table, 0, [1])
  {
    PairIsSound([], below, 0, 1, next);
  }

  lemma KidsDrain(script: Script, below: seq<Callback>, next: nat)
    requires AllDueAndInert(script, below)
    ensures Sound(Pair([], below, 0, 1, next)) && Below(Pair([], below, 0, 1, next).table, 0, [1])
    ensures RunChildren(Pair([], below, 0, 1, next), script, 0, [1], ZERO, |below|).left == 0
  {
    hide RunOne;
    ChildDrains(script, below, next);
  }

  /** Where the loop's own part leaves these callbacks in the child, the pass runs them all. */
  lemma PairRuns(w: World, script: Script, below: seq<Callback>, next: nat, b: nat)
    requires Sound(w) && 0 in w.table.objects && AllDueAndInert(script, below)
    requires var own := RunQueue(Apply(w, Enter(0)), script, false, 0, ZERO, b);
      own.outcome.Finished? && own.world == Pair([], below, 0, 1, next) && own.left == |below|
    ensures |Pops(RunOne(w, script, false, 0, ZERO, b).steps)| == b
  {
    hide RunQueue, RunChildren, Pops;
    OneIsFaithful(w, script, false, 0, ZERO, b);
    KidsDrain(script, below, next);
    assert RunInside(Apply(w, Enter(0)), script, false, 0, ZERO, b).left == 0;
  }

  /** A loop with one callback and a child with another: asked for one, the pass runs both. */
  lemma OneOfEachRunsTwo()
    ensures var w := Pair([Callback(ZERO, 1)], [Callback(ZERO, 2)], 0, 0, 3);
      Sound(w) && |Pops(RunOne(w, (id: nat) => [], false, 0, ZERO, 2).steps)| == 2
  {
    hide RunOne, Pops, Sound, WithQueue;
    var script, own, below := (id: nat) => [], [Callback(ZERO, 1)], [Callback(ZERO, 2)];
    PairIsSound(own, below, 0, 0, 3);
    PairIsSound(own, below, 0, 1, 3);
    OwnOfPair(own, below, 0, 1, 3, []);
    assert own[1..] == [];
    PairRuns(Pair(own, below, 0, 0, 3), script, below, 3, 2);
  }

  /** A loop with none of its own and a child with two: it runs both. */
  lemma NoneAndTwoRunsTwo()
    ensures var w := Pair([], [Callback(ZERO, 1), Callback(ZERO, 2)], 0, 0, 3);
      Sound(w) && |Pops(RunOne(w, (id: nat) => [], false, 0, ZERO, 2).steps)| == 2
  {
    var below := [Callback(ZERO, 1), Callback(ZERO, 2)];
    PairIsSound([], below, 0, 0, 3);
    PairIsSound([], below, 0, 1, 3);
    PairRuns(Pair([], below, 0, 0, 3), (id: nat) => [], below, 3, 2);
  }

  /** A callback that schedules another one on the child, without delay. */
  function Handing(): Script {
    (id: nat) => if id == 1 then [Schedule(1, ZERO)] else []
  }

  /** A loop with one callback whose body hands one to the child, where nothing was due: it runs both. */
  lemma HandingDownRunsTwo()
    ensures var w := Pair([Callback(ZERO, 1)], [], 0, 0, 3);
      && Sound(w) && DueBelow(w.table, 0, ZERO) == {}
      && |Pops(RunOne(w, Handing(), false, 0, ZERO, 2).steps)| == 2
  {
    hide RunOne, RunQueue, DueBelow, Pops, Sound;
    var own, below := [Callback(ZERO, 1)], [Callback(ZERO, 3)];
    var w := Pair(own, [], 0, 0, 3);
    PairIsSound(own, [], 0, 0, 3);
    NothingBelow(w);
    HandingQueue();
    PairRuns(w, Handing(), below, 4, 2);
  }

  lemma NothingBelow(w: World)
    requires w == Pair([Callback(ZERO, 1)], [], 0, 0, 3)
    ensures DueBelow(w.table, 0, ZERO) == {}
  {
    forall l | l in w.table.objects && ReachesFrom(w.table, w.table.objects[0].children, l)
      ensures w.table.objects[l].queue == []
    {
      var i :| 0 <= i < 1 && Reaches(w.table, w.table.objects[0].children[i], l);
      var path :| Path(w.table, 1, path, l);
      PathsClimb(w.table, 1, path, l);
    }
  }

  lemma HandingActs()
    ensures var popped, call := Pair([], [], 0, 1, 3), Schedule(1, ZERO);
      Sound(popped) && !Fails(popped, call) && Perform(popped, call) == Pair([], [Callback(ZERO, 3)], 0, 1, 4)
  {
    PairIsSound([], [], 0, 1, 3);
    BelowOfPair([], [], 0, 1, 3, [Callback(ZERO, 3)]);
    assert Insert([], Callback(ZERO, 3)) == [Callback(ZERO, 3)];
  }

  lemma HandingBody()
    ensures Sound(Pair([], [], 0, 1, 3))
    ensures var r := RunEffects(Pair([], [], 0, 1, 3), Handing(), Handing()(1), 1);
      r.outcome.Finished? && r.world == Pair([], [Callback(ZERO, 3)], 0, 1, 4) && r.left == 1
  {
    hide Perform, Fails, Pair, Sound;
    HandingActs();
    PairIsSound([], [Callback(ZERO, 3)], 0, 1, 4);
    assert [Schedule(1, ZERO)][1..] == [];
  }

  lemma HandingQueue()
    ensures Sound(Pair([Callback(ZERO, 1)], [], 0, 1, 3))
    ensures var own := RunQueue(Pair([Callback(ZERO, 1)], [], 0, 1, 3), Handing(), false, 0, ZERO, 2);
      own.outcome.Finished? && own.world == Pair([], [Callback(ZERO, 3)], 0, 1, 4) && own.left == 1
  {
    hide RunEffects, Handing, WithQueue, Sound;
    var own := [Callback(ZERO, 1)];
    PairIsSound(own, [], 0, 1, 3);
    OwnOfPair(own, [], 0, 1, 3, []);
    assert own[1..] == [];
    HandingBody();
    QueueTurns(Pair(own, [], 0, 1, 3), Handing(), false, 0, ZERO, 2);
  }
}
