/** The event loop on values: what scheduled callbacks may do, the pass that runs them, and the
    record of steps each pass leaves. A callback's body is an arbitrary list of effects chosen by
    its id, so a script may reschedule for ever; a run is observed up to a budget of invocations. */
module Pass {
  import opened Options
  import opened Timestamps
  import opened Callbacks
  import opened Forest

  const GLOBAL_LOOP: int := 0

  datatype World = World(
    table: Table,
    nextCallback: nat,  // the next callback id
    nextLoop: int,      // the next loop id on the R side
    loops: set<int>,    // the ids the R side holds a loop handle for
    current: int,       // the current registry
    depth: nat)         // how many passes are executing

  datatype Effect =
    | Schedule(loop: int, when: Timestamp)
    | Cancel(loop: int, id: nat)
    | CreateLoop(parent: Option<int>)
    | DestroyLoop(loop: int)
    | DropHandle(loop: int)
    | RunNow(loop: int, all: bool, checkedAt: Timestamp, now: Timestamp)
    | Fail

  type Script = nat -> seq<Effect>

  datatype Step =
    | Enter(loop: int)
    | Leave(saved: int)
    | Pop(loop: int, cb: Callback, now: Timestamp)
    | Act(effect: Effect)
    | Sweep

  datatype Outcome = Finished | Threw | Suspended

  datatype Run = Run(world: World, steps: seq<Step>, outcome: Outcome, left: nat)

  // ---- one step

  function WithQueue(w: World, loop: int, q: seq<Callback>): World
    requires loop in w.table.objects
  {
    w.(table := w.table.(objects := w.table.objects[loop := w.table.objects[loop].(queue := q)]))
  }

  /** The effect raises an error instead of succeeding. */
  predicate Fails(w: World, e: Effect) {
    match e
    case Schedule(loop, _) => loop !in w.table.handles
    case Cancel(_, _) => false
    case CreateLoop(parent) => parent.Some? && parent.value !in w.table.handles
    case DestroyLoop(loop) => loop == GLOBAL_LOOP || loop == w.current
    case DropHandle(_) => false
    case RunNow(loop, _, _, _) => loop !in w.table.handles
    case Fail => true
  }

  predicate Sound(w: World) {
    Shaped(w.table) && Linked(w.table) && w.table.limit <= w.nextLoop
  }

  /** The table with the handle flag of `loop` down. */
  function Lowered(t: Table, loop: int): Table {
    t.(handles := t.handles[loop := false])
  }

  function Perform(w: World, e: Effect): World
    requires Sound(w)
  {
    match e
    case Schedule(loop, when) =>
      if Fails(w, e) then w
      else WithQueue(w, loop, Insert(w.table.objects[loop].queue, Callback(when, w.nextCallback)))
        .(nextCallback := w.nextCallback + 1)
    case Cancel(loop, id) =>
      if loop !in w.table.handles then w
      else WithQueue(w, loop, Erase(w.table.objects[loop].queue, id))
    case CreateLoop(parent) =>
      if Fails(w, e) then w.(nextLoop := w.nextLoop + 1)
      else w.(table := Create(w.table, w.nextLoop, parent),
              nextLoop := w.nextLoop + 1, loops := w.loops + {w.nextLoop})
    case DestroyLoop(loop) =>
      if Fails(w, e) || loop !in w.table.handles then w
      else w.(table := Remove(w.table, loop), loops := w.loops - {loop})
    case DropHandle(loop) =>
      // An error in the finalizer is reported and swallowed.
      if loop == GLOBAL_LOOP || loop == w.current || loop !in w.table.handles || !w.table.handles[loop] then w
      else w.(table := PruneFrom(Lowered(w.table, loop), 0), loops := w.loops - {loop})
    case RunNow(_, _, _, _) => w
    case Fail => w
  }

  predicate Enabled(w: World, s: Step) {
    match s
    case Enter(loop) => loop in w.table.objects
    case Leave(_) => w.depth > 0
    case Pop(loop, cb, now) =>
      loop in w.table.objects && Due(w.table.objects[loop].queue, now) && w.table.objects[loop].queue[0] == cb
    case Act(e) => !e.RunNow?
    case Sweep => true
  }

  function Apply(w: World, s: Step): World
    requires Sound(w) && Enabled(w, s)
  {
    match s
    case Enter(loop) => w.(current := loop, depth := w.depth + 1)
    case Leave(saved) => w.(current := saved, depth := w.depth - 1)
    case Pop(loop, _, _) => WithQueue(w, loop, w.table.objects[loop].queue[1..])
    case Act(e) => Perform(w, e)
    case Sweep => w.(table := PruneFrom(w.table, 0))
  }

  /** What every step leaves alone, whatever it does to queues and links. */
  predicate Extends(t: Table, t': Table) {
    t.objects.Keys <= t'.objects.Keys && t.limit <= t'.limit
  }

  lemma WithQueueKeepsSound(w: World, loop: int, q: seq<Callback>)
    requires Sound(w) && loop in w.table.objects
    ensures Sound(WithQueue(w, loop, q)) && Extends(w.table, WithQueue(w, loop, q).table)
  {
    var t, t' := w.table, WithQueue(w, loop, q).table;
    assert t'.objects.Keys == t.objects.Keys;
    assert forall k :: k in t.objects ==>
             t'.objects[k].children == t.objects[k].children && t'.objects[k].parent == t.objects[k].parent;
  }

  lemma LoweredKeepsLinks(t: Table, loop: int)
    requires Shaped(t) && Linked(t) && loop in t.handles
    ensures Shaped(Lowered(t, loop)) && Linked(Lowered(t, loop)) && Lowered(t, loop).limit == t.limit
  {
  }

  lemma CreateStaysSound(t: Table, id: int, parent: Option<int>)
    requires Shaped(t) && Linked(t) && id >= t.limit && (parent.Some? ==> parent.value in t.handles)
    ensures var t' := Create(t, id, parent); Shaped(t') && Linked(t') && Extends(t, t') && t'.limit == id + 1
  {
    CreateTables(t, id, parent);
    CreateKeepsLinks(t, id, parent);
  }

  lemma RemoveStaysSound(t: Table, id: int)
    requires Shaped(t) && Linked(t) && id in t.handles
    ensures var t' := Remove(t, id); Shaped(t') && Linked(t') && Extends(t, t') && t'.limit == t.limit
  {
    RemoveTables(t, id);
    RemoveKeepsLinks(t, id);
  }

  lemma LoweringStaysSound(t: Table, loop: int)
    requires Shaped(t) && Linked(t) && loop in t.handles
    ensures var t' := PruneFrom(Lowered(t, loop), 0); Shaped(t') && Linked(t') && Extends(t, t') && t'.limit == t.limit
  {
    hide Linked;
    LoweredKeepsLinks(t, loop);
    SweepKeepsLinks(Lowered(t, loop));
  }

  lemma PerformKeepsSound(w: World, e: Effect)
    requires Sound(w)
    ensures Sound(Perform(w, e)) && Extends(w.table, Perform(w, e).table)
  {
    hide Create, Remove, PruneFrom, Lowered, WithQueue, Insert, Erase, Linked;
    match e
    case Schedule(loop, when) =>
      if !Fails(w, e) {
        WithQueueKeepsSound(w, loop, Insert(w.table.objects[loop].queue, Callback(when, w.nextCallback)));
      }
    case Cancel(loop, id) =>
      if loop in w.table.handles {
        WithQueueKeepsSound(w, loop, Erase(w.table.objects[loop].queue, id));
      }
    case CreateLoop(parent) => if !Fails(w, e) { CreateStaysSound(w.table, w.nextLoop, parent); }
    case DestroyLoop(loop) => if !Fails(w, e) && loop in w.table.handles { RemoveStaysSound(w.table, loop); }
    case DropHandle(loop) => if loop in w.table.handles { LoweringStaysSound(w.table, loop); }
    case RunNow(_, _, _, _) =>
    case Fail =>
  }

  lemma StepKeepsSound(w: World, s: Step)
    requires Sound(w) && Enabled(w, s)
    ensures Sound(Apply(w, s)) && Extends(w.table, Apply(w, s).table)
  {
    match s
    case Enter(_) =>
    case Leave(_) =>
    case Pop(loop, _, _) => WithQueueKeepsSound(w, loop, w.table.objects[loop].queue[1..]);
    case Act(e) => PerformKeepsSound(w, e);
    case Sweep => SweepKeepsLinks(w.table);
  }

  lemma SweepKeepsLinks(t: Table)
    requires Shaped(t) && Linked(t)
    ensures PruneFrom(t, 0) == Restrict(t, Survivors(t)) && PruneFrom(t, 0).limit == t.limit
    ensures Shaped(PruneFrom(t, 0)) && Linked(PruneFrom(t, 0)) && Extends(t, PruneFrom(t, 0))
  {
    PruneReachesTheFixpoint(t);
    RestrictKeepsLinks(t, Survivors(t));
  }

  // ---- the pass

  /** Something in the tree below `id` is due. */
  predicate DueTree(t: Table, id: int, now: Timestamp)
    requires Shaped(t) && id in t.objects
    decreases t.limit - id, 1
  {
    ChildrenAreBelow(t, id);
    Due(t.objects[id].queue, now) || DueAmong(t, id, t.objects[id].children, now)
  }

  predicate DueAmong(t: Table, above: int, kids: seq<int>, now: Timestamp)
    requires Shaped(t) && above < t.limit && Below(t, above, kids)
    decreases t.limit - above, 0, |kids|
  {
    kids != [] && (DueTree(t, kids[0], now) || DueAmong(t, above, kids[1..], now))
  }

  predicate Below(t: Table, above: int, kids: seq<int>) {
    forall i :: 0 <= i < |kids| ==> kids[i] in t.objects && above < kids[i]
  }

  lemma ChildrenAreBelow(t: Table, id: int)
    requires Shaped(t) && id in t.objects
    ensures Below(t, id, t.objects[id].children)
  {
    var kids := t.objects[id].children;
    forall i | 0 <= i < |kids| ensures kids[i] in t.objects && id < kids[i] {
      var c := kids[i];
      assert c in kids;
    }
  }

  /** The observable guarantee every part of a run gives its caller. */
  predicate Proper(w: World, b: nat, r: Run) {
    && Sound(r.world) && Extends(w.table, r.world.table) && r.left <= b
    && (!r.outcome.Suspended? ==> r.world.current == w.current && r.world.depth == w.depth)
  }

  /** One callback's effects, in order, up to the first that fails. */
  function RunEffects(w: World, script: Script, effects: seq<Effect>, b: nat): (r: Run)
    requires Sound(w)
    ensures Proper(w, b, r)
    decreases b, 1, |effects|, 0, 0
  {
    if effects == [] then Run(w, [], Finished, b)
    else
      var e := effects[0];
      var first := if e.RunNow? then ExecCallbacks(w, script, e.loop, e.all, e.checkedAt, e.now, b)
                   else (StepKeepsSound(w, Act(e));
                         Run(Perform(w, e), [Act(e)], if Fails(w, e) then Threw else Finished, b));
      if !first.outcome.Finished? then first
      else
        var rest := RunEffects(first.world, script, effects[1..], first.left);
        rest.(steps := first.steps + rest.steps)
  }

  /** The do-while loop of one registry: pop, invoke, and again while all are wanted. */
  function RunQueue(w: World, script: Script, all: bool, id: int, now: Timestamp, b: nat): (r: Run)
    requires Sound(w) && id in w.table.objects
    ensures Proper(w, b, r)
    ensures r.left == b ==> r.world == w && r.steps == []
    decreases b, 0, w.table.limit - id, 0, 0
  {
    var q := w.table.objects[id].queue;
    if !Due(q, now) then Run(w, [], Finished, b)
    else if b == 0 then Run(w, [], Suspended, b)
    else
      var pop := Pop(id, q[0], now);
      StepKeepsSound(w, pop);
      var one := RunEffects(Apply(w, pop), script, script(q[0].id), b - 1);
      if !one.outcome.Finished? || !all then one.(steps := [pop] + one.steps)
      else
        var rest := RunQueue(one.world, script, all, id, now, one.left);
        rest.(steps := [pop] + one.steps + rest.steps)
  }

  /** The loop over the snapshot of child registries. */
  function RunChildren(w: World, script: Script, above: int, kids: seq<int>, now: Timestamp, b: nat): (r: Run)
    requires Sound(w) && above < w.table.limit && Below(w.table, above, kids)
    ensures Proper(w, b, r)
    ensures r.left == b ==> r.world.table == w.table
    decreases b, 0, w.table.limit - above, 0, |kids|
  {
    if kids == [] then Run(w, [], Finished, b)
    else
      var first := RunOne(w, script, true, kids[0], now, b);
      if !first.outcome.Finished? then first
      else
        var rest := RunChildren(first.world, script, above, kids[1..], now, first.left);
        rest.(steps := first.steps + rest.steps)
  }

  /** The work of `execCallbacksOne`: the registry's own callbacks, then its children as they stand after that. */
  function RunInside(w: World, script: Script, all: bool, id: int, now: Timestamp, b: nat): (r: Run)
    requires Sound(w) && id in w.table.objects
    ensures Proper(w, b, r)
    ensures r.left == b ==> r.world.table == w.table
    decreases b, 0, w.table.limit - id, 1, 0
  {
    var own := RunQueue(w, script, all, id, now, b);
    if !own.outcome.Finished? then own
    else
      ChildrenAreBelow(own.world.table, id);
      var rest := RunChildren(own.world, script, id, own.world.table.objects[id].children, now, own.left);
      rest.(steps := own.steps + rest.steps)
  }

  /** `execCallbacksOne`: that work, with the loop made current around it. */
  function RunOne(w: World, script: Script, all: bool, id: int, now: Timestamp, b: nat): (r: Run)
    requires Sound(w) && id in w.table.objects
    ensures Proper(w, b, r)
    ensures r.left == b ==> r.world.table == w.table
    decreases b, 0, w.table.limit - id, 2, 0
  {
    var body := RunInside(Apply(w, Enter(id)), script, all, id, now, b);
    if body.outcome.Suspended? then body.(steps := [Enter(id)] + body.steps)
    else body.(world := Apply(body.world, Leave(w.current)), steps := [Enter(id)] + body.steps + [Leave(w.current)])
  }

  /** `execCallbacks`: run the loop's tree if something in it was due when the wait ended, then prune. */
  function ExecCallbacks(w: World, script: Script, id: int, all: bool, checkedAt: Timestamp, now: Timestamp, b: nat):
        (r: Run)
    requires Sound(w)
    ensures Proper(w, b, r)
    decreases b, 0, if id < w.table.limit then w.table.limit - id else 0, 3, 0
  {
    if id !in w.table.handles then Run(w, [], Threw, b)
    else if !DueTree(w.table, id, checkedAt) then Run(w, [], Finished, b)
    else
      var r := RunOne(w, script, all, id, now, b);
      if !r.outcome.Finished? then r
      else
        StepKeepsSound(r.world, Sweep);
        r.(world := Apply(r.world, Sweep), steps := r.steps + [Sweep])
  }

  /** The first turn of the loop over a queue whose head is due. */
  ghost function FirstTurn(w: World, script: Script, id: int, now: Timestamp, b: nat): (one: Run)
    requires Sound(w) && id in w.table.objects && Due(w.table.objects[id].queue, now) && b > 0
    ensures Sound(one.world) && id in one.world.table.objects && one.left < b
  {
    var cb := w.table.objects[id].queue[0];
    StepKeepsSound(w, Pop(id, cb, now));
    var one := RunEffects(Apply(w, Pop(id, cb, now)), script, script(cb.id), b - 1);
    one.(steps := [Pop(id, cb, now)] + one.steps)
  }

  lemma QueueTurns(w: World, script: Script, all: bool, id: int, now: Timestamp, b: nat)
    requires Sound(w) && id in w.table.objects && Due(w.table.objects[id].queue, now) && b > 0
    ensures var one := FirstTurn(w, script, id, now, b);
            RunQueue(w, script, all, id, now, b) ==
            if !one.outcome.Finished? || !all then one
            else var rest := RunQueue(one.world, script, all, id, now, one.left); rest.(steps := one.steps + rest.steps)
  {
    hide RunEffects, Shaped, Linked;
  }
}
