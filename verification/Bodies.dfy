/** What a pass does with each callback it takes: the callback's own body, in order and up to its first failure,
    with the callback's loop made current around it; and what a pass that a body runs does. */
module Bodies {
  import opened Options
  import opened Timestamps
  import opened Callbacks
  import opened Forest
  import opened Pass
  import opened Ledger
  import opened PassTheorems
  import opened Answers

  // ---- the current loop

  /** Wherever a callback is taken, its loop is current and a pass is counted. */
  predicate Scoped(w: World, steps: seq<Step>)
    requires Sound(w) && Trace(w, steps)
    decreases |steps|
  {
    steps == [] ||
    (&& (steps[0].Pop? ==> w.current == steps[0].loop && w.depth > 0)
     && (StepKeepsSound(w, steps[0]); Scoped(Apply(w, steps[0]), steps[1..])))
  }

  predicate InScope(w: World, r: Run)
    requires Sound(w)
  {
    Trace(w, r.steps) && Replay(w, r.steps) == r.world && Scoped(w, r.steps)
  }

  lemma {:induction false} ScopedJoins(w: World, a: seq<Step>, b: seq<Step>)
    requires Sound(w) && Trace(w, a) && Scoped(w, a) && Trace(Replay(w, a), b) && Scoped(Replay(w, a), b)
    ensures Trace(w, a + b) && Replay(w, a + b) == Replay(Replay(w, a), b) && Scoped(w, a + b)
    decreases |a|
  {
    Concatenate(w, a, b);
    if a == [] {
      assert a + b == b;
    } else {
      StepKeepsSound(w, a[0]);
      ScopedJoins(Apply(w, a[0]), a[1..], b);
      assert (a + b)[1..] == a[1..] + b;
    }
  }

  lemma JoinScopes(w: World, first: Run, rest: Run)
    requires Sound(w) && InScope(w, first) && Sound(first.world) && InScope(first.world, rest)
    ensures InScope(w, rest.(steps := first.steps + rest.steps))
  {
    ScopedJoins(w, first.steps, rest.steps);
  }

  lemma StepInScope(w: World, s: Step)
    requires Sound(w) && Enabled(w, s) && (s.Pop? ==> w.current == s.loop && w.depth > 0)
    ensures Sound(Apply(w, s)) && InScope(w, Run(Apply(w, s), [s], Finished, 0))
  {
    OneStep(w, s);
    assert [s][1..] == [];
  }

  lemma {:induction false} EffectsInScope(w: World, script: Script, effects: seq<Effect>, b: nat)
    requires Sound(w)
    ensures InScope(w, RunEffects(w, script, effects, b))
    decreases b, 1, |effects|, 0, 0
  {
    if effects != [] {
      var e := effects[0];
      if e.RunNow? {
        ExecInScope(w, script, e.loop, e.all, e.checkedAt, e.now, b);
        var first := ExecCallbacks(w, script, e.loop, e.all, e.checkedAt, e.now, b);
        if first.outcome.Finished? {
          EffectsInScope(first.world, script, effects[1..], first.left);
          JoinScopes(w, first, RunEffects(first.world, script, effects[1..], first.left));
        }
      } else {
        StepInScope(w, Act(e));
        if !Fails(w, e) {
          EffectsInScope(Perform(w, e), script, effects[1..], b);
          JoinScopes(w, Run(Perform(w, e), [Act(e)], Finished, 0), RunEffects(Perform(w, e), script, effects[1..], b));
        }
      }
    }
  }

  lemma TurnInScope(w: World, script: Script, id: int, now: Timestamp, b: nat)
    requires Sound(w) && id in w.table.objects && Due(w.table.objects[id].queue, now) && b > 0
    requires w.current == id && w.depth > 0
    ensures InScope(w, FirstTurn(w, script, id, now, b))
    ensures var one := FirstTurn(w, script, id, now, b);
      one.outcome.Finished? ==> one.world.current == id && one.world.depth == w.depth
    decreases b, 0, w.table.limit - id, 0, 0
  {
    hide RunEffects, Shaped, Linked;
    var pop := Pop(id, w.table.objects[id].queue[0], now);
    StepKeepsSound(w, pop);
    StepInScope(w, pop);
    EffectsInScope(Apply(w, pop), script, script(pop.cb.id), b - 1);
    JoinScopes(w, Run(Apply(w, pop), [pop], Finished, 0), RunEffects(Apply(w, pop), script, script(pop.cb.id), b - 1));
  }

  lemma {:induction false} QueueInScope(w: World, script: Script, all: bool, id: int, now: Timestamp, b: nat)
    requires Sound(w) && id in w.table.objects && w.current == id && w.depth > 0
    ensures InScope(w, RunQueue(w, script, all, id, now, b))
    decreases b, 0, w.table.limit - id, 0, 1
  {
    hide RunEffects, FirstTurn, Scoped, Shaped, Linked;
    NoScope(w);
    if Due(w.table.objects[id].queue, now) && b > 0 {
      TurnInScope(w, script, id, now, b);
      QueueTurns(w, script, all, id, now, b);
      var one := FirstTurn(w, script, id, now, b);
      if one.outcome.Finished? && all {
        QueueInScope(one.world, script, all, id, now, one.left);
        JoinScopes(w, one, RunQueue(one.world, script, all, id, now, one.left));
      }
    }
  }

  lemma NoScope(w: World)
    requires Sound(w)
    ensures Trace(w, []) && Scoped(w, [])
  {
  }

  lemma {:induction false} ChildrenInScope(w: World, script: Script, above: int, kids: seq<int>, now: Timestamp, b: nat)
    requires Sound(w) && above < w.table.limit && Below(w.table, above, kids)
    ensures InScope(w, RunChildren(w, script, above, kids, now, b))
    decreases b, 0, w.table.limit - above, 0, |kids|
  {
    hide RunOne, Scoped;
    NoScope(w);
    if kids != [] {
      OneInScope(w, script, true, kids[0], now, b);
      var first := RunOne(w, script, true, kids[0], now, b);
      if first.outcome.Finished? {
        ChildrenInScope(first.world, script, above, kids[1..], now, first.left);
        JoinScopes(w, first, RunChildren(first.world, script, above, kids[1..], now, first.left));
      }
    }
  }

  lemma {:induction false} InsideInScope(w: World, script: Script, all: bool, id: int, now: Timestamp, b: nat)
    requires Sound(w) && id in w.table.objects && w.current == id && w.depth > 0
    ensures InScope(w, RunInside(w, script, all, id, now, b))
    decreases b, 0, w.table.limit - id, 1, 0
  {
    hide RunQueue, RunChildren, Scoped, Linked;
    QueueInScope(w, script, all, id, now, b);
    var own := RunQueue(w, script, all, id, now, b);
    if own.outcome.Finished? {
      var kids := own.world.table.objects[id].children;
      ChildrenAreBelow(own.world.table, id);
      ChildrenInScope(own.world, script, id, kids, now, own.left);
      JoinScopes(w, own, RunChildren(own.world, script, id, kids, now, own.left));
    }
  }

  lemma {:induction false} OneInScope(w: World, script: Script, all: bool, id: int, now: Timestamp, b: nat)
    requires Sound(w) && id in w.table.objects
    ensures InScope(w, RunOne(w, script, all, id, now, b))
    decreases b, 0, w.table.limit - id, 2, 0
  {
    hide RunInside, Scoped, Shaped, Linked;
    var entered := Apply(w, Enter(id));
    StepInScope(w, Enter(id));
    InsideInScope(entered, script, all, id, now, b);
    var body := RunInside(entered, script, all, id, now, b);
    var begun := body.(steps := [Enter(id)] + body.steps);
    JoinScopes(w, Run(entered, [Enter(id)], Finished, 0), body);
    if !body.outcome.Suspended? {
      var leave := Leave(w.current);
      StepInScope(body.world, leave);
      JoinScopes(w, begun, Run(Apply(body.world, leave), [leave], Finished, 0));
    }
  }

  lemma {:induction false} ExecInScope(w: World, script: Script, id: int, all: bool, checkedAt: Timestamp,
        now: Timestamp, b: nat)
    requires Sound(w)
    ensures InScope(w, ExecCallbacks(w, script, id, all, checkedAt, now, b))
    decreases b, 0, if id < w.table.limit then w.table.limit - id else 0, 3, 0
  {
    if id in w.table.handles && DueTree(w.table, id, checkedAt) {
      OneInScope(w, script, all, id, now, b);
      var r := RunOne(w, script, all, id, now, b);
      if r.outcome.Finished? {
        StepInScope(r.world, Sweep);
        JoinScopes(w, r, Run(Apply(r.world, Sweep), [Sweep], Finished, 0));
      }
    }
  }

  lemma {:induction false} ScopedAt(w: World, steps: seq<Step>, i: nat)
    requires Sound(w) && Trace(w, steps) && Scoped(w, steps) && i < |steps|
    ensures Trace(w, steps[..i])
    ensures steps[i].Pop? ==> Replay(w, steps[..i]).current == steps[i].loop && Replay(w, steps[..i]).depth > 0
    decreases |steps|
  {
    if i > 0 {
      StepKeepsSound(w, steps[0]);
      ScopedAt(Apply(w, steps[0]), steps[1..], i - 1);
      assert steps[..i][1..] == steps[1..][..i - 1];
    }
  }

  /** In a whole pass, nested ones included, each callback is taken while its own loop is the current one, and
      passes are then counted, so that the input handler keeps out. */
  lemma EachRunsInItsLoop(w: World, script: Script, id: int, all: bool, checkedAt: Timestamp, now: Timestamp, b: nat,
        i: nat)
    requires Sound(w) && i < |ExecCallbacks(w, script, id, all, checkedAt, now, b).steps|
    ensures var steps := ExecCallbacks(w, script, id, all, checkedAt, now, b).steps;
      && Trace(w, steps[..i])
      && (steps[i].Pop? ==> Replay(w, steps[..i]).current == steps[i].loop && Replay(w, steps[..i]).depth > 0)
  {
    ExecInScope(w, script, id, all, checkedAt, now, b);
    ScopedAt(w, ExecCallbacks(w, script, id, all, checkedAt, now, b).steps, i);
  }

  // ---- one body

  function Acts(effects: seq<Effect>): (steps: seq<Step>)
    ensures |steps| == |effects|
  {
    seq(|effects|, i requires 0 <= i < |effects| => Act(effects[i]))
  }

  /** Of these effects, done in turn from `w`, the `k`-th fails. */
  predicate FailsAt(w: World, effects: seq<Effect>, k: nat)
    requires Sound(w) && k < |effects|
  {
    Trace(w, Acts(effects[..k])) && Fails(Replay(w, Acts(effects[..k])), effects[k])
  }

  lemma FailsAtFirst(w: World, effects: seq<Effect>)
    requires Sound(w) && effects != []
    ensures FailsAt(w, effects, 0) <==> Fails(w, effects[0])
  {
    assert Acts(effects[..0]) == [];
  }

  lemma FailsAtNext(w: World, effects: seq<Effect>, k: nat)
    requires Sound(w) && k + 1 < |effects| && !effects[0].RunNow? && Sound(Perform(w, effects[0]))
    ensures FailsAt(w, effects, k + 1) <==> FailsAt(Perform(w, effects[0]), effects[1..], k)
  {
    hide Perform, Fails, Shaped, Linked;
    var first := Act(effects[0]);
    assert Acts(effects[..k + 1]) == [first] + Acts(effects[1..][..k]);
    assert Acts(effects[..k + 1])[1..] == Acts(effects[1..][..k]);
  }

  lemma ActsFurther(effects: seq<Effect>, n: nat)
    requires 0 < n <= |effects|
    ensures Acts(effects[..n]) == [Act(effects[0])] + Acts(effects[1..][..n - 1])
  {
  }

  /** A body without nested passes does its effects in order: all of them if none fails, else those up to and with the
      first that does. */
  lemma {:induction false} BodyInOrder(w: World, script: Script, effects: seq<Effect>, b: nat) returns (n: nat)
    requires Sound(w) && Flat(effects)
    ensures n <= |effects|
    ensures var r := RunEffects(w, script, effects, b);
      && r.left == b && r.steps == Acts(effects[..n])
      && (if r.outcome.Finished? then n == |effects| else r.outcome.Threw? && n > 0)
      && forall k :: 0 <= k < n ==> (FailsAt(w, effects, k) <==> r.outcome.Threw? && k == n - 1)
    decreases |effects|
  {
    hide Perform, Fails, FailsAt, Shaped, Linked;
    if effects == [] {
      n := 0;
    } else {
      var e := effects[0];
      StepKeepsSound(w, Act(e));
      FailsAtFirst(w, effects);
      ActsFurther(effects, 1);
      if Fails(w, e) {
        n := 1;
      } else {
        var m := BodyInOrder(Perform(w, e), script, effects[1..], b);
        n := m + 1;
        ActsFurther(effects, n);
        forall k | 0 <= k < n
          ensures FailsAt(w, effects, k) <==> RunEffects(w, script, effects, b).outcome.Threw? && k == n - 1
        {
          if k > 0 {
            FailsAtNext(w, effects, k - 1);
          }
        }
      }
    }
  }

  /** An effect that throws changes nothing that was queued; only a missing loop and an error of the user's make
      scheduling and plain code throw, and cancelling and collecting never do. */
  lemma WhatThrows(w: World, loop: int, when: Timestamp, id: nat)
    requires Sound(w)
    ensures Fails(w, Fail) && Perform(w, Fail) == w
    ensures Fails(w, Schedule(loop, when)) <==> loop !in w.table.handles
    ensures Fails(w, Schedule(loop, when)) ==> Perform(w, Schedule(loop, when)) == w
    ensures !Fails(w, Cancel(loop, id)) && !Fails(w, DropHandle(loop))
    ensures loop !in w.table.handles ==> Perform(w, Cancel(loop, id)) == w
  {
  }

  // ---- the bodies of a pass

  predicate OnlyLeaves(steps: seq<Step>) {
    forall i :: 0 <= i < |steps| ==> steps[i].Leave?
  }

  /** Read from the front, the steps are the scopes and, after each callback taken, its own body in full; only the last
      body may stop short, in a throw that nothing but the leaving of scopes follows. */
  ghost predicate Played(script: Script, steps: seq<Step>, threw: bool)
    decreases |steps|
  {
    if steps == [] then !threw
    else match steps[0]
      case Pop(_, cb, _) =>
        var body, rest := script(cb.id), steps[1..];
        || (Acts(body) <= rest && Played(script, rest[|body|..], threw))
        || (threw && exists n :: 0 < n <= |body| && Acts(body[..n]) <= rest && OnlyLeaves(rest[n..]))
      case Act(_) => false
      case _ => Played(script, steps[1..], threw)
  }

  lemma LeavesJoin(steps: seq<Step>, saved: int)
    requires OnlyLeaves(steps)
    ensures OnlyLeaves(steps + [Leave(saved)])
  {
  }

  lemma {:induction false} PlayedJoins(script: Script, a: seq<Step>, b: seq<Step>, threw: bool)
    requires Played(script, a, false) && Played(script, b, threw)
    ensures Played(script, a + b, threw)
    decreases |a|
  {
    if a == [] {
      assert a + b == b;
    } else {
      var rest := a[1..];
      assert (a + b)[1..] == rest + b;
      if a[0].Pop? {
        var body := script(a[0].cb.id);
        assert (rest + b)[|body|..] == rest[|body|..] + b;
        PlayedJoins(script, rest[|body|..], b, threw);
      } else {
        PlayedJoins(script, rest, b, threw);
      }
    }
  }

  /** Leaving a scope on the way out of a throw changes nothing. */
  lemma {:induction false} PlayedLeaves(script: Script, a: seq<Step>, saved: int)
    requires Played(script, a, true)
    ensures Played(script, a + [Leave(saved)], true)
    decreases |a|
  {
    hide Acts, OnlyLeaves;
    var rest, leave := a[1..], [Leave(saved)];
    assert (a + leave)[1..] == rest + leave;
    if a[0].Pop? {
      var body := script(a[0].cb.id);
      if Acts(body) <= rest && Played(script, rest[|body|..], true) {
        assert (rest + leave)[|body|..] == rest[|body|..] + leave;
        PlayedLeaves(script, rest[|body|..], saved);
      } else {
        var n :| 0 < n <= |body| && Acts(body[..n]) <= rest && OnlyLeaves(rest[n..]);
        LeavesJoin(rest[n..], saved);
        assert (rest + leave)[n..] == rest[n..] + leave;
      }
    } else {
      PlayedLeaves(script, rest, saved);
    }
  }

  lemma ScopePlays(script: Script, s: Step, steps: seq<Step>, threw: bool)
    requires (s.Enter? || s.Leave? || s.Sweep?) && Played(script, steps, threw)
    ensures Played(script, [s] + steps, threw)
  {
    assert ([s] + steps)[1..] == steps;
  }

  lemma TurnPlays(w: World, script: Script, id: int, now: Timestamp, b: nat)
    requires Sound(w) && id in w.table.objects && Due(w.table.objects[id].queue, now) && b > 0 && NoNesting(script)
    ensures var one := FirstTurn(w, script, id, now, b);
      !one.outcome.Suspended? && Played(script, one.steps, one.outcome.Threw?)
  {
    hide RunEffects, Shaped, Linked;
    var cb := w.table.objects[id].queue[0];
    var pop := Pop(id, cb, now);
    StepKeepsSound(w, pop);
    var body := script(cb.id);
    var n := BodyInOrder(Apply(w, pop), script, body, b - 1);
    var one := RunEffects(Apply(w, pop), script, body, b - 1);
    assert ([pop] + one.steps)[1..] == one.steps;
    if n == |body| {
      assert body[..n] == body && one.steps[|body|..] == [];
    }
    assert one.steps[n..] == [];
  }

  lemma {:induction false} QueuePlays(w: World, script: Script, all: bool, id: int, now: Timestamp, b: nat)
    requires Sound(w) && id in w.table.objects && NoNesting(script)
    ensures var r := RunQueue(w, script, all, id, now, b); Played(script, r.steps, r.outcome.Threw?)
    decreases b
  {
    hide RunEffects, FirstTurn, NoNesting, Shaped, Linked;
    if Due(w.table.objects[id].queue, now) && b > 0 {
      TurnPlays(w, script, id, now, b);
      QueueTurns(w, script, all, id, now, b);
      var one := FirstTurn(w, script, id, now, b);
      if one.outcome.Finished? && all {
        QueuePlays(one.world, script, all, id, now, one.left);
        var rest := RunQueue(one.world, script, all, id, now, one.left);
        PlayedJoins(script, one.steps, rest.steps, rest.outcome.Threw?);
      }
    }
  }

  lemma {:induction false} ChildrenPlay(w: World, script: Script, above: int, kids: seq<int>, now: Timestamp, b: nat)
    requires Sound(w) && above < w.table.limit && Below(w.table, above, kids) && NoNesting(script)
    ensures var r := RunChildren(w, script, above, kids, now, b); Played(script, r.steps, r.outcome.Threw?)
    decreases b, w.table.limit - above, 0, |kids|
  {
    hide RunOne, NoNesting;
    if kids != [] {
      OnePlays(w, script, true, kids[0], now, b);
      var first := RunOne(w, script, true, kids[0], now, b);
      if first.outcome.Finished? {
        ChildrenPlay(first.world, script, above, kids[1..], now, first.left);
        var rest := RunChildren(first.world, script, above, kids[1..], now, first.left);
        PlayedJoins(script, first.steps, rest.steps, rest.outcome.Threw?);
      }
    }
  }

  lemma {:induction false} InsidePlays(w: World, script: Script, all: bool, id: int, now: Timestamp, b: nat)
    requires Sound(w) && id in w.table.objects && NoNesting(script)
    ensures var r := RunInside(w, script, all, id, now, b); Played(script, r.steps, r.outcome.Threw?)
    decreases b, w.table.limit - id, 1, 0
  {
    hide RunQueue, RunChildren, NoNesting, Linked;
    QueuePlays(w, script, all, id, now, b);
    var own := RunQueue(w, script, all, id, now, b);
    if own.outcome.Finished? {
      var kids := own.world.table.objects[id].children;
      ChildrenAreBelow(own.world.table, id);
      ChildrenPlay(own.world, script, id, kids, now, own.left);
      var rest := RunChildren(own.world, script, id, kids, now, own.left);
      PlayedJoins(script, own.steps, rest.steps, rest.outcome.Threw?);
    }
  }

  /** So a pass without nested ones does, for each callback it takes and in that order, exactly what the callback's
      body says, and nothing else; a failure ends the pass. */
  lemma {:induction false} OnePlays(w: World, script: Script, all: bool, id: int, now: Timestamp, b: nat)
    requires Sound(w) && id in w.table.objects && NoNesting(script)
    ensures var r := RunOne(w, script, all, id, now, b); Played(script, r.steps, r.outcome.Threw?)
    decreases b, w.table.limit - id, 2, 0
  {
    hide RunInside, NoNesting, Played, Linked;
    var entered := Apply(w, Enter(id));
    InsidePlays(entered, script, all, id, now, b);
    var body := RunInside(entered, script, all, id, now, b);
    ScopePlays(script, Enter(id), body.steps, body.outcome.Threw?);
    NothingPlays(script);
    ScopePlays(script, Leave(w.current), [], false);
    if body.outcome.Threw? {
      PlayedLeaves(script, [Enter(id)] + body.steps, w.current);
    } else if body.outcome.Finished? {
      assert [Leave(w.current)] + [] == [Leave(w.current)];
      PlayedJoins(script, [Enter(id)] + body.steps, [Leave(w.current)], false);
    }
  }

  lemma NothingPlays(script: Script)
    ensures Played(script, [], false)
  {
  }

  // ---- a pass run by a body

  /** The effects of a body one after the other: the second part starts where the first ended, unless that did not
      end normally. */
  lemma {:induction false} EffectsInTurn(w: World, script: Script, a: seq<Effect>, z: seq<Effect>, b: nat)
    requires Sound(w)
    ensures var first, both := RunEffects(w, script, a, b), RunEffects(w, script, a + z, b);
      if !first.outcome.Finished? then both == first
      else var rest := RunEffects(first.world, script, z, first.left);
           both == rest.(steps := first.steps + rest.steps)
    decreases |a|
  {
    hide ExecCallbacks, Perform, Fails, Shaped, Linked;
    if a == [] {
      assert a + z == z;
      assert RunEffects(w, script, z, b).steps == [] + RunEffects(w, script, z, b).steps;
    } else {
      var e := a[0];
      assert (a + z)[0] == e && (a + z)[1..] == a[1..] + z;
      if e.RunNow? {
        var first := ExecCallbacks(w, script, e.loop, e.all, e.checkedAt, e.now, b);
        if first.outcome.Finished? {
          EffectsInTurn(first.world, script, a[1..], z, first.left);
          PartsJoin(first.steps, RunEffects(first.world, script, a[1..], first.left));
        }
      } else {
        StepKeepsSound(w, Act(e));
        if !Fails(w, e) {
          EffectsInTurn(Perform(w, e), script, a[1..], z, b);
        }
      }
    }
  }

  lemma PartsJoin(a: seq<Step>, r: Run)
    ensures forall c: seq<Step> :: a + (r.steps + c) == (a + r.steps) + c
  {
  }

  /** A pass that a body runs over loop `l`: an error if `l` is not in the table, nothing if nothing in its tree is due,
      and else, when all callbacks are wanted and those that run schedule only for later, nothing due is left there. */
  lemma NestedPassSettles(w: World, script: Script, l: int, all: bool, checkedAt: Timestamp, now: Timestamp, b: nat)
    requires Valid(w)
    ensures var r := RunEffects(w, script, [RunNow(l, all, checkedAt, now)], b);
      && (l !in w.table.handles ==> r.outcome.Threw? && r.world == w)
      && (l in w.table.handles && !DueTree(w.table, l, checkedAt) ==> r.outcome.Finished? && r.world == w)
    ensures var r := RunEffects(w, script, [RunNow(l, all, checkedAt, now)], b);
      l in w.table.handles && DueTree(w.table, l, checkedAt) && r.outcome.Finished? ==>
        && (!Greater(checkedAt, now) ==> Pops(r.steps) != [])
        && (all && SchedulesAfter(r.steps, now) ==> !DueTree(r.world.table, l, now))
  {
    var effects := [RunNow(l, all, checkedAt, now)];
    assert effects[1..] == [];
    var pass := ExecCallbacks(w, script, l, all, checkedAt, now, b);
    assert pass.steps + [] == pass.steps;
    if l in w.table.handles && DueTree(w.table, l, checkedAt) && pass.outcome.Finished? {
      if !Greater(checkedAt, now) {
        RunNowIsTruthful(w, script, l, all, checkedAt, now, b);
      }
      if all && SchedulesAfter(pass.steps, now) {
        RunAllLeavesNothingDue(w, script, l, checkedAt, now, b);
      }
    }
  }
}
