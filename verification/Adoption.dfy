/** Chains of promises: a promise resolved with another settles as that one does, after finitely many
    callbacks of the loop, whatever else goes on. */
module Adoption {
  import opened Options
  import opened Promises
  import opened PromiseTheorems
  import opened PromiseOutcomes

  /** The `i`-th registration on `q` is there to settle `p` as `q` settles, and has done so once it has run. */
  ghost predicate Follows(s: Sys, p: nat, q: nat, i: nat) {
    && p < |s.promises| && q < |s.promises| && i < |s.promises[q].past.thens|
    && s.promises[q].past.thens[i].action == Adopt(p)
    && (i < |s.promises[q].past.ran| ==> !s.promises[q].status.Pending? && s.promises[p].status == s.promises[q].status)
  }

  /** Resolving with another promise, or rejecting with any, makes the promise follow it. */
  lemma ResolvingFollows(s: Sys, p: nat, q: nat)
    requires Inv(s) && Free(s, p) && q < |s.promises|
    ensures p != q ==> Follows(DoResolve(s, p, Ref(q)), p, q, |s.promises[q].past.thens|)
    ensures Follows(DoReject(s, p, Ref(q)), p, q, |s.promises[q].past.thens|)
    ensures DoResolve(s, p, Ref(p)).promises[p].status == Rejected(CycleError)
  {
    assert Kept(s, q);
    assert |s.promises[q].past.ran| <= |s.promises[q].past.thens|;
  }

  // ----- What a move does to the queue -----

  /** The queue loses its head to `Pop` and otherwise only grows at the end. */
  lemma QueueMovesOn(s: Sys, script: Script, m: Move)
    requires Inv(s) && Possible(s, m)
    ensures (if m.Pop? then s.tasks[1..] else s.tasks) <= Moved(s, script, m).tasks
    ensures Moved(s, script, m).active ==
      match m
      case Act(_) => Idle
      case Pop =>
        var t := s.tasks[0];
        if t.Flush? && t.p < |s.promises| then Flushing(t.p, s.promises[t.p].handlers) else Idle
      case Next => Flushing(s.active.p, s.active.rest[1..])
      case EndFlush => Idle
  {
    match m
    case Act(op) => DoKeeps(s, op);
    case Pop =>
      var t := s.tasks[0];
      assert SensibleTask(s, t);
      if t.Late? {
        LateKeeps(s);
        hide Inv, RunNoted;
        RunNotedKeeps(Note(s.(tasks := s.tasks[1..]), t.p, t.h), script, t.p, t.h);
      } else if t.Run? {
        PopRunGrows(s, script);
      }
    case Next =>
      NextKeeps(s);
      hide Inv, RunNoted;
      RunNotedKeeps(Note(s.(active := Flushing(s.active.p, s.active.rest[1..])), s.active.p, s.active.rest[0]),
                    script, s.active.p, s.active.rest[0]);
    case EndFlush =>
  }

  /** The registration that a move runs is the next one due to. */
  lemma RunsTheNext(s: Sys, m: Move)
    requires Inv(s) && Possible(s, m) && Runs(s, m).Some?
    ensures IsNext(s, Runs(s, m).value.0, Runs(s, m).value.1)
    ensures !s.promises[Runs(s, m).value.0].status.Pending?
  {
    if m.Next? {
      assert Kept(s, s.active.p);
      NextIsLined(s, Note(s.(active := Flushing(s.active.p, s.active.rest[1..])), s.active.p, s.active.rest[0]));
    } else {
      assert SensibleTask(s, s.tasks[0]);
      assert Kept(s, s.tasks[0].p);
      LateIsNext(s, Note(s.(tasks := s.tasks[1..]), s.tasks[0].p, s.tasks[0].h));
    }
  }

  /** A handler that adopts gives the adopting promise the outcome of the promise it was registered on. */
  lemma RunningAdopts(s: Sys, script: Script, m: Move, p: nat)
    requires Inv(s) && Possible(s, m) && Runs(s, m).Some? && Runs(s, m).value.1.action == Adopt(p)
    ensures Runs(s, m).value.0 < |s.promises| && p < |Moved(s, script, m).promises|
    ensures Moved(s, script, m).promises[p].status == s.promises[Runs(s, m).value.0].status
  {
    hide RunNoted, Ready, MayAct, Tracked, Children;
    var noted := RunsReady(s, script, m);
    AdoptionKeeps(noted, script, Runs(s, m).value.0, Runs(s, m).value.1);
  }

  lemma FollowsOn(s: Sys, script: Script, m: Move, p: nat, q: nat, i: nat)
    requires Inv(s) && Possible(s, m) && Follows(s, p, q, i)
    ensures Follows(Moved(s, script, m), p, q, i)
  {
    MovesOn(s, script, m, q);
    MovesOn(s, script, m, p);
    if Runs(s, m).Some? && Runs(s, m).value.0 == q && i == |s.promises[q].past.ran| {
      RunsTheNext(s, m);
      RunningAdopts(s, script, m, p);
    }
  }

  // ----- Progress -----

  /** Among the first `r` callbacks of the queue are all that it takes to run the `i`-th registration. */
  ghost predicate Covered(s: Sys, q: nat, i: nat, r: nat) {
    && q < |s.promises| && !s.promises[q].status.Pending? && r <= |s.tasks|
    && i < |s.promises[q].past.ran| + |Waiting(s, q)| + |Lates(s.tasks[..r], q)|
    && (Unflushed(s.promises[q]) ==> Flush(q) in s.tasks[..r])
  }

  lemma CoverStarts(s: Sys, q: nat, i: nat)
    requires Inv(s) && q < |s.promises| && !s.promises[q].status.Pending? && i < |s.promises[q].past.thens|
    ensures Covered(s, q, i, |s.tasks|)
  {
    assert Kept(s, q);
    assert s.tasks[..|s.tasks|] == s.tasks;
    if Unflushed(s.promises[q]) {
      assert Flush(q) in multiset(s.tasks);
    }
  }

  lemma CoverEnds(s: Sys, q: nat, i: nat)
    requires Inv(s) && Covered(s, q, i, 0) && s.active.Idle?
    ensures i < |s.promises[q].past.ran|
  {
    assert Kept(s, q);
  }

  lemma WaitingMovesOn(s: Sys, script: Script, m: Move, q: nat)
    requires Inv(s) && Possible(s, m) && q < |s.promises| && !s.promises[q].status.Pending?
    ensures var n := Moved(s, script, m);
      && q < |n.promises|
      && |n.promises[q].past.ran| + |Waiting(n, q)|
         == |s.promises[q].past.ran| + |Waiting(s, q)|
            + if m.Pop? && s.tasks[0].Late? && s.tasks[0].p == q then 1 else 0
  {
    hide Children, Queued, Reporting;
    QueueMovesOn(s, script, m);
    MovesOn(s, script, m, q);
    assert Kept(s, q);
    if m.Pop? {
      assert SensibleTask(s, s.tasks[0]);
      if s.tasks[0].Late? {
        RunsTheNext(s, m);
      }
    } else if m.Next? {
      RunsTheNext(s, m);
    }
  }

  lemma CoverStep(s: Sys, script: Script, m: Move, q: nat, i: nat, r: nat)
    requires Inv(s) && Possible(s, m) && Covered(s, q, i, r)
    ensures Covered(Moved(s, script, m), q, i, if m.Pop? && r > 0 then r - 1 else r)
  {
    hide Moved, Waiting, Tracked, Children, Lates;
    var n := Moved(s, script, m);
    QueueMovesOn(s, script, m);
    MovesOn(s, script, m, q);
    WaitingMovesOn(s, script, m, q);
    if m.Pop? {
      LatesAfterPop(s.tasks, n.tasks, q, r);
    } else {
      assert n.tasks[..r] == s.tasks[..r];
    }
  }

  lemma LatesAfterPop(tasks: seq<Task>, rest: seq<Task>, q: nat, r: nat)
    requires tasks != [] && tasks[1..] <= rest && r <= |tasks|
    ensures r > 0 ==>
              |Lates(tasks[..r], q)|
              == (if tasks[0].Late? && tasks[0].p == q then 1 else 0) + |Lates(rest[..r - 1], q)|
    ensures r > 0 && Flush(q) in tasks[..r] ==> tasks[0] == Flush(q) || Flush(q) in rest[..r - 1]
    ensures r == 0 ==> Lates(tasks[..r], q) == [] == Lates(rest[..r], q)
  {
    if r > 0 {
      var head := tasks[..r];
      assert head[0] == tasks[0] && head[1..] == tasks[1..][..r - 1] == rest[..r - 1];
      assert head == [head[0]] + head[1..];
    }
  }

  function Pops(moves: seq<Move>): nat {
    if moves == [] then 0 else (if moves[0].Pop? then 1 else 0) + Pops(moves[1..])
  }

  lemma {:induction false} CoverRuns(s: Sys, script: Script, moves: seq<Move>, q: nat, i: nat, r: nat)
    requires Inv(s) && CanRun(s, script, moves) && Covered(s, q, i, r)
    ensures Covered(After(s, script, moves), q, i, if r > Pops(moves) then r - Pops(moves) else 0)
    decreases |moves|
  {
    hide Tracked, Children, SensibleTask, Covered, Moved;
    if moves != [] {
      MoveKeepsInv(s, script, moves[0]);
      CoverStep(s, script, moves[0], q, i, r);
      CoverRuns(Moved(s, script, moves[0]), script, moves[1..], q, i, if moves[0].Pop? && r > 0 then r - 1 else r);
    }
  }

  /** Everything registered on a settled promise has run once the loop has taken as many callbacks as
      are queued now, whatever else happens in between. */
  lemma RegisteredRunsInARound(s: Sys, script: Script, moves: seq<Move>, q: nat)
    requires Inv(s) && CanRun(s, script, moves) && q < |s.promises| && !s.promises[q].status.Pending?
    requires Pops(moves) >= |s.tasks| && After(s, script, moves).active.Idle?
    ensures q < |After(s, script, moves).promises|
    ensures |After(s, script, moves).promises[q].past.ran| >= |s.promises[q].past.thens|
  {
    var n := After(s, script, moves);
    if s.promises[q].past.thens == [] {
      SettledForGood(s, script, moves, q);
    } else {
      var last := |s.promises[q].past.thens| - 1;
      CoverStarts(s, q, last);
      CoverRuns(s, script, moves, q, last, |s.tasks|);
      CoverEnds(n, q, last);
    }
  }

  lemma {:induction false} FollowsAlong(s: Sys, script: Script, moves: seq<Move>, p: nat, q: nat, i: nat)
    requires Inv(s) && CanRun(s, script, moves) && Follows(s, p, q, i)
    ensures Follows(After(s, script, moves), p, q, i)
    decreases |moves|
  {
    if moves != [] {
      MoveKeepsInv(s, script, moves[0]);
      FollowsOn(s, script, moves[0], p, q, i);
      FollowsAlong(Moved(s, script, moves[0]), script, moves[1..], p, q, i);
    }
  }

  /** Runs of moves, each taking at least the callbacks queued at its start and ending between callbacks. */
  ghost predicate Rounds(s: Sys, script: Script, rounds: seq<seq<Move>>)
    requires Inv(s)
    decreases |rounds|
  {
    rounds == [] ||
    (&& CanRun(s, script, rounds[0]) && Pops(rounds[0]) >= |s.tasks| && After(s, script, rounds[0]).active.Idle?
     && Rounds(After(s, script, rounds[0]), script, rounds[1..]))
  }

  ghost function AfterRounds(s: Sys, script: Script, rounds: seq<seq<Move>>): (n: Sys)
    requires Inv(s) && Rounds(s, script, rounds)
    ensures Inv(n)
    decreases |rounds|
  {
    if rounds == [] then s else AfterRounds(After(s, script, rounds[0]), script, rounds[1..])
  }

  ghost predicate FollowsSomehow(s: Sys, p: nat, q: nat) {
    exists i: nat :: Follows(s, p, q, i)
  }

  /** Each promise of the chain follows the next. */
  ghost predicate Chain(s: Sys, chain: seq<nat>)
    decreases |chain|
  {
    && chain != [] && chain[|chain| - 1] < |s.promises|
    && (|chain| > 1 ==>
          FollowsSomehow(s, chain[|chain| - 2], chain[|chain| - 1]) && Chain(s, chain[..|chain| - 1]))
  }

  lemma {:induction false} ChainAlong(s: Sys, script: Script, moves: seq<Move>, chain: seq<nat>)
    requires Inv(s) && CanRun(s, script, moves) && Chain(s, chain)
    ensures Chain(After(s, script, moves), chain)
    decreases |chain|
  {
    StillThere(s, script, moves);
    if |chain| > 1 {
      FollowsSomehowAlong(s, script, moves, chain[|chain| - 2], chain[|chain| - 1]);
      ChainAlong(s, script, moves, chain[..|chain| - 1]);
    }
  }

  lemma FollowsSomehowAlong(s: Sys, script: Script, moves: seq<Move>, p: nat, q: nat)
    requires Inv(s) && CanRun(s, script, moves) && FollowsSomehow(s, p, q)
    ensures FollowsSomehow(After(s, script, moves), p, q)
  {
    var i: nat :| Follows(s, p, q, i);
    FollowsAlong(s, script, moves, p, q, i);
  }

  lemma {:induction false} StillThere(s: Sys, script: Script, moves: seq<Move>)
    requires Inv(s) && CanRun(s, script, moves)
    ensures |s.promises| <= |After(s, script, moves).promises|
    decreases |moves|
  {
    if moves != [] {
      MoveKeepsInv(s, script, moves[0]);
      if s.promises != [] {
        MovesOn(s, script, moves[0], |s.promises| - 1);
      }
      StillThere(Moved(s, script, moves[0]), script, moves[1..]);
    }
  }

  /** One link: in one round the follower of a settled promise settles alike. */
  lemma LinkSettles(s: Sys, script: Script, moves: seq<Move>, p: nat, q: nat)
    requires Inv(s) && CanRun(s, script, moves) && FollowsSomehow(s, p, q) && q < |s.promises| &&
        !s.promises[q].status.Pending?
    requires Pops(moves) >= |s.tasks| && After(s, script, moves).active.Idle?
    ensures p < |After(s, script, moves).promises| && After(s, script, moves).promises[p].status == s.promises[q].status
  {
    var i: nat :| Follows(s, p, q, i);
    RegisteredRunsInARound(s, script, moves, q);
    FollowsAlong(s, script, moves, p, q, i);
    SettledForGood(s, script, moves, q);
  }

  lemma {:induction false} OutcomeStays(s: Sys, script: Script, rounds: seq<seq<Move>>, q: nat)
    requires Inv(s) && Rounds(s, script, rounds) && q < |s.promises| && !s.promises[q].status.Pending?
    ensures q < |AfterRounds(s, script, rounds).promises|
    ensures AfterRounds(s, script, rounds).promises[q].status == s.promises[q].status
    decreases |rounds|
  {
    if rounds != [] {
      SettledForGood(s, script, rounds[0], q);
      OutcomeStays(After(s, script, rounds[0]), script, rounds[1..], q);
    }
  }

  /** A chain of promises, each resolved with the next, whose last is settled: after as many rounds as it
      has links, the first has settled with the outcome of the last. */
  lemma {:induction false} ChainSettles(s: Sys, script: Script, chain: seq<nat>, rounds: seq<seq<Move>>)
    requires Inv(s) && Chain(s, chain) && !s.promises[chain[|chain| - 1]].status.Pending?
    requires Rounds(s, script, rounds) && |rounds| >= |chain| - 1
    ensures chain[0] < |AfterRounds(s, script, rounds).promises|
    ensures AfterRounds(s, script, rounds).promises[chain[0]].status == s.promises[chain[|chain| - 1]].status
    decreases |chain|
  {
    var last := |chain| - 1;
    if last == 0 {
      OutcomeStays(s, script, rounds, chain[0]);
    } else {
      LinkSettles(s, script, rounds[0], chain[last - 1], chain[last]);
      ChainAlong(s, script, rounds[0], chain[..last]);
      hide Inv, Chain, Moved, CanRun, After, FollowsSomehow;
      ChainSettles(After(s, script, rounds[0]), script, chain[..last], rounds[1..]);
    }
  }
}
