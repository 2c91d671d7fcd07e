/** What the loop reports: the earliest timestamp of a tree, whether the tree is due, and whether
    a pass did any work. */
module Answers {
  import opened Options
  import opened Timestamps
  import opened Callbacks
  import opened Forest
  import opened Pass
  import opened Ledger
  import opened PassTheorems

  /** A normal run-all `execCallbacks` leaves nothing due in the loop's tree, also after pruning. */
  lemma RunAllLeavesNothingDue(w: World, script: Script, id: int, checkedAt: Timestamp, now: Timestamp, b: nat)
    requires Valid(w) && id in w.table.handles && DueTree(w.table, id, checkedAt)
    requires ExecCallbacks(w, script, id, true, checkedAt, now, b).outcome.Finished?
    requires SchedulesAfter(ExecCallbacks(w, script, id, true, checkedAt, now, b).steps, now)
    ensures !DueTree(ExecCallbacks(w, script, id, true, checkedAt, now, b).world.table, id, now)
  {
    var r := RunOne(w, script, true, id, now, b);
    SchedulesAfterParts(r.steps, [Sweep], now);
    OneIsFaithful(w, script, true, id, now, b);
    RunCalms(w, b, r, now);
    OneSettles(w, script, id, now, b);
    StepKeepsValid(r.world, Sweep);
    StepCalms(r.world, Sweep, now);
    CalmKeepsSettled(r.world.table, Apply(r.world, Sweep).table, id, now);
  }

  // ---- the earliest timestamp of a tree

  function Earlier(a: Option<Timestamp>, b: Option<Timestamp>): Option<Timestamp> {
    if b.Some? && (a.None? || Less(b.value, a.value)) then b else a
  }

  function Head(q: seq<Callback>): Option<Timestamp> {
    if q == [] then None else Some(q[0].when)
  }

  function NextTimestamp(t: Table, id: int): Option<Timestamp>
    requires Shaped(t) && id in t.objects
    decreases t.limit - id, 1, 0
  {
    ChildrenAreBelow(t, id);
    NextAmong(t, id, t.objects[id].children, Head(t.objects[id].queue))
  }

  /** The loop over the children, with the minimum so far. */
  function NextAmong(t: Table, above: int, kids: seq<int>, least: Option<Timestamp>): Option<Timestamp>
    requires Shaped(t) && above < t.limit && Below(t, above, kids)
    decreases t.limit - above, 0, |kids|
  {
    if kids == [] then least
    else NextAmong(t, above, kids[1..], Earlier(least, NextTimestamp(t, kids[0])))
  }

  /** `path` leads from `root` down to `leaf`, each registry listing the next. */
  predicate Path(t: Table, root: int, path: seq<int>, leaf: int): (found: bool)
    ensures found ==> leaf in t.objects
    decreases |path|
  {
    if path == [] then root == leaf && root in t.objects
    else root in t.objects && path[0] in t.objects[root].children && Path(t, path[0], path[1..], leaf)
  }

  predicate NoLater(a: Option<Timestamp>, b: Option<Timestamp>) {
    b.Some? ==> a.Some? && !Greater(a.value, b.value)
  }

  lemma {:induction false} NextAmongIsLeast(t: Table, above: int, kids: seq<int>, least: Option<Timestamp>)
    requires Shaped(t) && above < t.limit && Below(t, above, kids)
    ensures var n := NextAmong(t, above, kids, least);
            && NoLater(n, least)
            && (forall i :: 0 <= i < |kids| ==> NoLater(n, NextTimestamp(t, kids[i])))
            && (n == least || exists i :: 0 <= i < |kids| && n == NextTimestamp(t, kids[i]))
    decreases |kids|
  {
    if kids != [] {
      var rest, sofar := kids[1..], Earlier(least, NextTimestamp(t, kids[0]));
      NextAmongIsLeast(t, above, rest, sofar);
      var n := NextAmong(t, above, kids, least);
      forall i | 0 <= i < |kids| ensures NoLater(n, NextTimestamp(t, kids[i])) {
        if i > 0 {
          assert kids[i] == rest[i - 1];
        }
      }
      if i :| 0 <= i < |rest| && n == NextTimestamp(t, rest[i]) {
        assert kids[i + 1] == rest[i];
      }
    }
  }

  /** Every callback in the tree is at or after the tree's next timestamp ... */
  lemma {:induction false} NextIsALowerBound(t: Table, root: int, path: seq<int>, leaf: int, cb: Callback)
    requires Shaped(t) && Path(t, root, path, leaf)
    requires Sorted(t.objects[leaf].queue) && cb in t.objects[leaf].queue
    ensures NextTimestamp(t, root).Some? && !Greater(NextTimestamp(t, root).value, cb.when)
    decreases |path|
  {
    var kids := t.objects[root].children;
    ChildrenAreBelow(t, root);
    NextAmongIsLeast(t, root, kids, Head(t.objects[root].queue));
    if path == [] {
      var q := t.objects[root].queue;
      var i :| 0 <= i < |q| && q[i] == cb;
      assert i > 0 ==> Before(q[0], q[i]);
    } else {
      var c := path[0];
      var i :| 0 <= i < |kids| && kids[i] == c;
      NextIsALowerBound(t, c, path[1..], leaf, cb);
    }
  }

  /** ... and some callback in the tree has it. */
  lemma {:induction false} NextIsAttained(t: Table, root: int) returns (path: seq<int>, leaf: int, cb: Callback)
    requires Shaped(t) && root in t.objects && NextTimestamp(t, root).Some?
    ensures Path(t, root, path, leaf) && cb in t.objects[leaf].queue && cb.when == NextTimestamp(t, root).value
    decreases t.limit - root
  {
    var q, kids := t.objects[root].queue, t.objects[root].children;
    ChildrenAreBelow(t, root);
    NextAmongIsLeast(t, root, kids, Head(q));
    if q != [] && q[0].when == NextTimestamp(t, root).value {
      path, leaf, cb := [], root, q[0];
    } else {
      var i :| 0 <= i < |kids| && NextTimestamp(t, root) == NextTimestamp(t, kids[i]);
      var c := kids[i];
      var rest;
      rest, leaf, cb := NextIsAttained(t, c);
      path := [c] + rest;
      assert path[1..] == rest;
    }
  }

  /** The recursive `due` is exactly: a next timestamp exists and is not in the future. */
  lemma {:induction false} DueIsNextReached(t: Table, id: int, now: Timestamp)
    requires Shaped(t) && id in t.objects
    ensures DueTree(t, id, now) <==> NextTimestamp(t, id).Some? && !Greater(NextTimestamp(t, id).value, now)
    decreases t.limit - id
  {
    var q, kids := t.objects[id].queue, t.objects[id].children;
    ChildrenAreBelow(t, id);
    DueAmongMeans(t, id, kids, now);
    NextAmongIsLeast(t, id, kids, Head(q));
    forall i | 0 <= i < |kids|
      ensures DueTree(t, kids[i], now) <==>
              NextTimestamp(t, kids[i]).Some? && !Greater(NextTimestamp(t, kids[i]).value, now)
    {
      DueIsNextReached(t, kids[i], now);
    }
  }

  lemma DueStaysDue(t: Table, id: int, earlier: Timestamp, later: Timestamp)
    requires Shaped(t) && id in t.objects && !Greater(earlier, later)
    requires DueTree(t, id, earlier)
    ensures DueTree(t, id, later)
  {
    DueIsNextReached(t, id, earlier);
    DueIsNextReached(t, id, later);
  }

  // ---- a pass works exactly when its tree is due

  lemma {:induction false} ChildrenWork(w: World, script: Script, above: int, kids: seq<int>, now: Timestamp, b: nat)
    requires Sound(w) && above < w.table.limit && Below(w.table, above, kids)
    requires RunChildren(w, script, above, kids, now, b).outcome.Finished?
    ensures RunChildren(w, script, above, kids, now, b).left < b <==> DueAmong(w.table, above, kids, now)
    decreases b, w.table.limit - above, 0, |kids|
  {
    if kids != [] {
      OneWorks(w, script, true, kids[0], now, b);
      var first := RunOne(w, script, true, kids[0], now, b);
      if first.left == b {
        ChildrenWork(first.world, script, above, kids[1..], now, b);
      }
    }
  }

  lemma {:induction false} InsideWorks(w: World, script: Script, all: bool, id: int, now: Timestamp, b: nat)
    requires Sound(w) && id in w.table.objects
    requires RunInside(w, script, all, id, now, b).outcome.Finished?
    ensures RunInside(w, script, all, id, now, b).left < b <==> DueTree(w.table, id, now)
    decreases b, w.table.limit - id, 1, 0
  {
    var own := RunQueue(w, script, all, id, now, b);
    if own.left == b {
      ChildrenAreBelow(own.world.table, id);
      ChildrenWork(own.world, script, id, own.world.table.objects[id].children, now, b);
    }
  }

  /** Whether all callbacks are wanted or only one, a pass that ends normally invoked something if
      and only if something in its tree was due. */
  lemma {:induction false} OneWorks(w: World, script: Script, all: bool, id: int, now: Timestamp, b: nat)
    requires Sound(w) && id in w.table.objects
    requires RunOne(w, script, all, id, now, b).outcome.Finished?
    ensures RunOne(w, script, all, id, now, b).left < b <==> DueTree(w.table, id, now)
    decreases b, w.table.limit - id, 2, 0
  {
    InsideWorks(Apply(w, Enter(id)), script, all, id, now, b);
  }

  /** What `execCallbacks` returns when it returns normally. */
  predicate Answer(w: World, id: int, checkedAt: Timestamp)
    requires Sound(w) && id in w.table.handles
  {
    DueTree(w.table, id, checkedAt)
  }

  lemma RunNowIsTruthful(w: World, script: Script, id: int, all: bool, checkedAt: Timestamp, now: Timestamp, b: nat)
    requires Sound(w) && id in w.table.handles && !Greater(checkedAt, now)
    requires ExecCallbacks(w, script, id, all, checkedAt, now, b).outcome.Finished?
    ensures Answer(w, id, checkedAt) <==> Pops(ExecCallbacks(w, script, id, all, checkedAt, now, b).steps) != []
  {
    ExecIsFaithful(w, script, id, all, checkedAt, now, b);
    if DueTree(w.table, id, checkedAt) {
      DueStaysDue(w.table, id, checkedAt, now);
      OneWorks(w, script, all, id, now, b);
    }
  }

  // ---- the top level

  const PASSES: nat := 20

  /** The two readings of the clock in each pass: when the wait ends, and when the pass starts. */
  type Clock = nat -> (Timestamp, Timestamp)

  /** Up to twenty passes over the global loop, from pass `i` on, until one finds no work. */
  function TopLevel(w: World, script: Script, clock: Clock, i: nat, b: nat): (r: (Run, bool))
    requires Sound(w) && i <= PASSES
    ensures Proper(w, b, r.0)
    decreases PASSES - i
  {
    if i == PASSES then (Run(w, [], Finished, b), false)
    else
      var r := ExecCallbacks(w, script, GLOBAL_LOOP, true, clock(i).0, clock(i).1, b);
      if !r.outcome.Finished? then (r, false)
      else if !DueTree(w.table, GLOBAL_LOOP, clock(i).0) then (r, false)
      else
        var rest := TopLevel(r.world, script, clock, i + 1, r.left);
        (rest.0.(steps := r.steps + rest.0.steps), true)
  }

  /** The answer of the top level inherits the truth of each pass's. */
  lemma {:induction false} TopLevelIsTruthful(w: World, script: Script, clock: Clock, i: nat, b: nat)
    requires Sound(w) && i <= PASSES
    requires forall k :: i <= k < PASSES ==> !Greater(clock(k).0, clock(k).1)
    requires TopLevel(w, script, clock, i, b).0.outcome.Finished?
    ensures TopLevel(w, script, clock, i, b).1 <==> Pops(TopLevel(w, script, clock, i, b).0.steps) != []
    decreases PASSES - i
  {
    if i < PASSES {
      var r := ExecCallbacks(w, script, GLOBAL_LOOP, true, clock(i).0, clock(i).1, b);
      RunNowIsTruthful(w, script, GLOBAL_LOOP, true, clock(i).0, clock(i).1, b);
      if DueTree(w.table, GLOBAL_LOOP, clock(i).0) {
        PopsConcatenate(r.steps, TopLevel(r.world, script, clock, i + 1, r.left).0.steps);
      }
    }
  }
}
