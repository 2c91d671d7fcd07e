/** The budget only says how long a pass is observed: a pass that is not cut short goes exactly the
    same way with more of it. */
module Budget {
  import opened Timestamps
  import opened Callbacks
  import opened Forest
  import opened Pass

  predicate SameButLonger(r: Run, r': Run, more: nat) {
    !r.outcome.Suspended? ==>
      r'.world == r.world && r'.steps == r.steps && r'.outcome == r.outcome && r'.left == r.left + more
  }

  lemma {:induction false} MoreForEffects(w: World, script: Script, effects: seq<Effect>, b: nat, more: nat)
    requires Sound(w)
    ensures SameButLonger(RunEffects(w, script, effects, b), RunEffects(w, script, effects, b + more), more)
    decreases b, 1, |effects|, 0, 0
  {
    hide ExecCallbacks, Perform, Fails, Shaped, Linked;
    if effects != [] {
      var e := effects[0];
      if e.RunNow? {
        MoreForExec(w, script, e.loop, e.all, e.checkedAt, e.now, b, more);
        var first := ExecCallbacks(w, script, e.loop, e.all, e.checkedAt, e.now, b);
        if first.outcome.Finished? {
          MoreForEffects(first.world, script, effects[1..], first.left, more);
        }
      } else {
        StepKeepsSound(w, Act(e));
        if !Fails(w, e) {
          MoreForEffects(Perform(w, e), script, effects[1..], b, more);
        }
      }
    }
  }

  lemma MoreForTurn(w: World, script: Script, id: int, now: Timestamp, b: nat, more: nat)
    requires Sound(w) && id in w.table.objects && Due(w.table.objects[id].queue, now) && b > 0
    ensures SameButLonger(FirstTurn(w, script, id, now, b), FirstTurn(w, script, id, now, b + more), more)
    decreases b, 0, w.table.limit - id, 0, 0
  {
    hide RunEffects, Shaped, Linked;
    var cb := w.table.objects[id].queue[0];
    StepKeepsSound(w, Pop(id, cb, now));
    MoreForEffects(Apply(w, Pop(id, cb, now)), script, script(cb.id), b - 1, more);
    assert b - 1 + more == b + more - 1;
  }

  lemma {:induction false} MoreForQueue(w: World, script: Script, all: bool, id: int, now: Timestamp, b: nat, more: nat)
    requires Sound(w) && id in w.table.objects
    ensures SameButLonger(RunQueue(w, script, all, id, now, b), RunQueue(w, script, all, id, now, b + more), more)
    decreases b, 0, w.table.limit - id, 0, 1
  {
    hide RunEffects, FirstTurn, Shaped, Linked;
    if Due(w.table.objects[id].queue, now) && b > 0 {
      QueueTurns(w, script, all, id, now, b);
      QueueTurns(w, script, all, id, now, b + more);
      MoreForTurn(w, script, id, now, b, more);
      var one := FirstTurn(w, script, id, now, b);
      if one.outcome.Finished? && all {
        MoreForQueue(one.world, script, all, id, now, one.left, more);
      }
    }
  }

  lemma {:induction false} MoreForChildren(w: World, script: Script, above: int, kids: seq<int>, now: Timestamp,
        b: nat, more: nat)
    requires Sound(w) && above < w.table.limit && Below(w.table, above, kids)
    ensures SameButLonger(RunChildren(w, script, above, kids, now, b),
        RunChildren(w, script, above, kids, now, b + more), more)
    decreases b, 0, w.table.limit - above, 0, |kids|
  {
    hide RunOne, Shaped, Linked;
    if kids != [] {
      MoreForOne(w, script, true, kids[0], now, b, more);
      var first := RunOne(w, script, true, kids[0], now, b);
      if first.outcome.Finished? {
        MoreForChildren(first.world, script, above, kids[1..], now, first.left, more);
      }
    }
  }

  lemma {:induction false} MoreForInside(w: World, script: Script, all: bool, id: int, now: Timestamp, b: nat,
        more: nat)
    requires Sound(w) && id in w.table.objects
    ensures SameButLonger(RunInside(w, script, all, id, now, b), RunInside(w, script, all, id, now, b + more), more)
    decreases b, 0, w.table.limit - id, 1, 0
  {
    hide RunQueue, RunChildren, Linked;
    var own := RunQueue(w, script, all, id, now, b);
    MoreForQueue(w, script, all, id, now, b, more);
    if own.outcome.Finished? {
      ChildrenAreBelow(own.world.table, id);
      MoreForChildren(own.world, script, id, own.world.table.objects[id].children, now, own.left, more);
    }
  }

  lemma {:induction false} MoreForOne(w: World, script: Script, all: bool, id: int, now: Timestamp, b: nat, more: nat)
    requires Sound(w) && id in w.table.objects
    ensures SameButLonger(RunOne(w, script, all, id, now, b), RunOne(w, script, all, id, now, b + more), more)
    decreases b, 0, w.table.limit - id, 2, 0
  {
    hide RunInside;
    MoreForInside(Apply(w, Enter(id)), script, all, id, now, b, more);
  }

  lemma {:induction false} MoreForExec(w: World, script: Script, id: int, all: bool, checkedAt: Timestamp,
        now: Timestamp, b: nat, more: nat)
    requires Sound(w)
    ensures SameButLonger(ExecCallbacks(w, script, id, all, checkedAt, now, b),
                          ExecCallbacks(w, script, id, all, checkedAt, now, b + more), more)
    decreases b, 0, if id < w.table.limit then w.table.limit - id else 0, 3, 0
  {
    hide RunOne;
    if id in w.table.handles && DueTree(w.table, id, checkedAt) {
      MoreForOne(w, script, all, id, now, b, more);
    }
  }
}
