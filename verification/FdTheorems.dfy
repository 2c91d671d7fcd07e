/** What every run of the descriptor waits keeps: the race between callback and cancellation, the ledger of
    waits, and how each wait ends. */
module FdTheorems {
  import opened Options
  import opened Timestamps
  import opened Callbacks
  import opened Forest
  import opened Pass
  import opened Ledger
  import opened FdWait

  // ----- Every run -----

  lemma FirstIsKept()
    ensures Inv(State(Loaded(), map[], 0))
  {
    LoadedIsValid();
    assert Holding(State(Loaded(), map[], 0), GLOBAL_LOOP) == {};
  }

  /** The package has just been loaded. */
  ghost function Begin(): (s: State)
    ensures Inv(s)
  {
    FirstIsKept();
    State(Loaded(), map[], 0)
  }

  ghost predicate CanRun(s: State, moves: seq<Move>)
    requires Inv(s)
    decreases |moves|
  {
    moves == [] || (Possible(s, moves[0]) && (MoveKeepsInv(s, moves[0]); CanRun(Moved(s, moves[0]), moves[1..])))
  }

  ghost function After(s: State, moves: seq<Move>): (n: State)
    requires Inv(s) && CanRun(s, moves)
    ensures Inv(n)
    decreases |moves|
  {
    if moves == [] then s
    else
      MoveKeepsInv(s, moves[0]);
      After(Moved(s, moves[0]), moves[1..])
  }

  // ----- What each move does -----

  /** Every other wait is as it was. */
  ghost predicate OthersSame(s: State, n: State, w: nat) {
    forall v :: v != w ==> (v in n.waits <==> v in s.waits) && (v in s.waits ==> n.waits[v] == s.waits[v])
  }

  /** How a registry's count changes, and no other's. */
  ghost predicate CountMoves(s: State, n: State, loop: int, change: int) {
    forall l :: l in s.world.table.objects ==>
      && l in n.world.table.objects
      && n.world.table.objects[l].fdWaits == s.world.table.objects[l].fdWaits + if l == loop then change else 0
  }

  /** A wait can be opened on a registered loop only; it starts polling, uncancelled, and counts at once. */
  lemma OpenStarts(s: State, loop: int, threadStarts: bool)
    requires Inv(s)
    ensures var n := Moved(s, Open(loop, threadStarts));
      if loop in s.world.table.handles then
        && s.next !in s.waits && s.next in n.waits && n.next == s.next + 1
        && n.waits[s.next] == Wait(loop, if threadStarts then Polling else Lost(false), true, 0, 0, 0)
        && OthersSame(s, n, s.next) && CountMoves(s, n, loop, 1)
      else n == s
  {
    RegisteredAreObjects(s.world);
    assert s.next in s.waits ==> Kept(s, s.next);
  }

  /** What `fd_cancel` does: if the flag was up it takes it down, which cancels a wait whose body has not run, and
      changes nothing else; if not, it changes nothing at all. */
  lemma CancelCancels(s: State, w: nat)
    requires Inv(s) && Possible(s, FdCancel(w))
    ensures var n := Moved(s, FdCancel(w));
      if CancelAnswers(s, w) then
        && w in n.waits && !n.waits[w].active && n.waits[w].cancels == 1 && n.waits[w].bodies == 0
        && n.waits[w].phase == s.waits[w].phase && n.waits[w].loop == s.waits[w].loop
        && n.world == s.world && OthersSame(s, n, w)
      else n == s
  {
    assert Kept(s, w);
  }

  /** A polling thread goes on to hand over exactly if the flag is up when it looks, and else gives up. */
  lemma PollLooks(s: State, w: nat)
    requires Inv(s) && In(s, w, Polling)
    ensures Possible(s, Answer(w)) <==> s.waits[w].active
    ensures Possible(s, GiveUp(w)) <==> !s.waits[w].active
    ensures s.waits[w].active ==>
      var n := Moved(s, Answer(w));
      w in n.waits && n.waits[w] == s.waits[w].(phase := Answered) && n.world == s.world && OthersSame(s, n, w)
    ensures !s.waits[w].active ==>
      var n := Moved(s, GiveUp(w));
      w in n.waits && n.waits[w].phase.Released? && n.waits[w].bodies == s.waits[w].bodies && OthersSame(s, n, w) &&
      CountMoves(s, n, s.waits[w].loop, -1)
  {
    assert Kept(s, w);
  }

  /** Handing over puts exactly one callback into the queue of the wait's loop, if that is still registered. */
  lemma HandOffSchedules(s: State, w: nat, when: Timestamp)
    requires Inv(s) && Possible(s, HandOff(w, when))
    ensures var n, l := Moved(s, HandOff(w, when)), s.waits[w].loop;
      if l in s.world.table.handles then
        && n.waits == s.waits[w := s.waits[w].(phase := Handed(s.world.nextCallback))]
        && (forall k, x :: Queued(n.world, k, x) <==>
              Queued(s.world, k, x) || (k == l && x == Callback(when, s.world.nextCallback)))
      else n.waits == s.waits[w := s.waits[w].(phase := Lost(true))] && n.world == s.world
  {
    if s.waits[w].loop in s.world.table.handles {
      ScheduleStep(s.world, s.waits[w].loop, when);
    }
  }

  /** When the loop takes the callback, the body runs, once, exactly if the flag was still up; it is down from then on.
      If it was not, the wait is released unrun. Either way the callback is out of the queue. */
  lemma TakenRunsOnce(s: State, w: nat, cb: Callback, now: Timestamp)
    requires Inv(s) && Possible(s, Take(w, cb, now))
    ensures var n, l := Moved(s, Take(w, cb, now)), s.waits[w].loop;
      && w in n.waits && !n.waits[w].active && OthersSame(s, n, w)
      && CountMoves(s, n, l, if s.waits[w].active then 0 else -1)
      && n.waits[w].bodies == (if s.waits[w].active then 1 else 0)
      && (s.waits[w].active ==> n.waits[w].phase.Running?) && (!s.waits[w].active ==> n.waits[w].phase.Released?)
      && (forall k, x :: Queued(n.world, k, x) <==> Queued(s.world, k, x) && !(k == l && x == cb))
  {
    hide Shaped, Linked, QueuesSorted, Handled, Balanced, Apart, Pass.Apply;
    assert Kept(s, w);
    StepKeepsCounts(s.world, Pop(s.waits[w].loop, cb, now));
    PopStep(s.world, s.waits[w].loop, cb, now);
  }

  /** After its body the wait is released and no longer counts. */
  lemma FinishReleases(s: State, w: nat)
    requires Inv(s) && Possible(s, Finish(w))
    ensures var n := Moved(s, Finish(w));
      && w in n.waits && n.waits[w].phase.Released? && n.waits[w].bodies == 1 && n.waits[w].releases == 1
      && OthersSame(s, n, w) && CountMoves(s, n, s.waits[w].loop, -1)
  {
    assert Kept(s, w);
  }

  // ----- The race -----

  /** What `fd_cancel` would return now. */
  predicate CancelAnswers(s: State, w: nat)
    requires w in s.waits
  {
    s.waits[w].active
  }

  lemma MoveKeepsDecision(s: State, m: Move, w: nat)
    requires Inv(s) && Possible(s, m) && w in s.waits && !s.waits[w].active
    ensures w in Moved(s, m).waits
    ensures var n := Moved(s, m).waits[w];
      !n.active && n.bodies == s.waits[w].bodies && n.cancels == s.waits[w].cancels
  {
    hide Shaped, Linked, QueuesSorted, Handled, Waits, Balanced, Apart, Pass.Apply, Perform;
    assert Kept(s, w);
  }

  /** In every interleaving at most one of body and successful cancel happens to a wait; once one has,
      nothing changes it: the callback never runs (again) and every later cancel answers false. */
  lemma {:induction false} DecidedForGood(s: State, moves: seq<Move>, w: nat)
    requires Inv(s) && CanRun(s, moves) && w in s.waits && !CancelAnswers(s, w)
    ensures s.waits[w].bodies + s.waits[w].cancels == 1
    ensures var n := After(s, moves);
      w in n.waits && !CancelAnswers(n, w) && n.waits[w].bodies == s.waits[w].bodies &&
          n.waits[w].cancels == s.waits[w].cancels
    decreases |moves|
  {
    assert Kept(s, w);
    if moves != [] {
      MoveKeepsInv(s, moves[0]);
      MoveKeepsDecision(s, moves[0], w);
      DecidedForGood(Moved(s, moves[0]), moves[1..], w);
    }
  }

  /** So after a cancel that answered true the body never runs, in no continuation, and no cancel answers true again. */
  lemma CancelledNeverRuns(s: State, w: nat, moves: seq<Move>)
    requires Inv(s) && Possible(s, FdCancel(w)) && CancelAnswers(s, w)
    requires Inv(Moved(s, FdCancel(w))) && CanRun(Moved(s, FdCancel(w)), moves)
    ensures var n := After(Moved(s, FdCancel(w)), moves);
      w in n.waits && n.waits[w].bodies == 0 && n.waits[w].cancels == 1 && !CancelAnswers(n, w)
  {
    CancelCancels(s, w);
    DecidedForGood(Moved(s, FdCancel(w)), moves, w);
  }

  lemma RunDecidesAtMostOnce(moves: seq<Move>, w: nat)
    requires CanRun(Begin(), moves) && w in After(Begin(), moves).waits
    ensures var wait := After(Begin(), moves).waits[w];
      && wait.bodies + wait.cancels <= 1
      && (wait.active <==> wait.bodies + wait.cancels == 0)
      && wait.releases <= 1
      && (wait.releases == 1 <==> wait.phase.Released?)
  {
    assert Kept(After(Begin(), moves), w);
  }

  // ----- The ledger -----

  /** On a registered loop the count is the number of waits under way, plus those that never started. */
  lemma CountIsLive(s: State, l: int)
    requires Inv(s) && l in s.world.table.handles
    ensures l in s.world.table.objects
    ensures s.world.table.objects[l].fdWaits == |Live(s, l)| + |NeverStarted(s, l)|
    ensures s.world.table.objects[l].fdWaits == |Live(s, l)| <==> NeverStarted(s, l) == {}
  {
    RegisteredAreObjects(s.world);
    forall w | w in Holding(s, l) ensures w in Live(s, l) + NeverStarted(s, l) {
      assert Kept(s, w);
    }
    assert Holding(s, l) == Live(s, l) + NeverStarted(s, l);
    assert Live(s, l) * NeverStarted(s, l) == {};
  }

  /** While a wait is under way, its loop never looks empty, whatever its queue holds. */
  lemma LiveLoopIsNotEmpty(s: State, w: nat)
    requires Inv(s) && w in s.waits && w in Live(s, s.waits[w].loop)
    ensures s.waits[w].loop in s.world.table.objects && s.world.table.objects[s.waits[w].loop].fdWaits > 0
    ensures !s.world.table.objects[s.waits[w].loop].Empty()
  {
    assert Kept(s, w);
    var l := s.waits[w].loop;
    assert w in Holding(s, l);
    assert Holding(s, l) != {};
  }

  /** So pruning takes such a loop only when it has no R handle and its parent goes as well, or it never
      had one: all the while, hand-off included, a parent that stays keeps it. */
  lemma PruningKeepsLiveLoops(s: State, w: nat)
    requires Inv(s) && w in s.waits && w in Live(s, s.waits[w].loop) && s.waits[w].loop in s.world.table.handles
    ensures var t, t', l := s.world.table, Moved(s, Loop(Sweep)).world.table, s.waits[w].loop;
      l in t.objects &&
      (l in t'.handles <==> t.handles[l] || (t.objects[l].parent.Some? && t.objects[l].parent.value in t'.handles))
  {
    hide Shaped, Linked, QueuesSorted, Handled, WaitsKept, PruneFrom, Survives, Survivors, Restrict;
    LiveLoopIsNotEmpty(s, w);
    StaysByHandleOrParent(s.world.table, s.waits[w].loop);
  }

  /** What the sweep does to a loop that is not empty. */
  lemma StaysByHandleOrParent(t: Table, l: int)
    requires Shaped(t) && Linked(t) && l in t.handles && l in t.objects && !t.objects[l].Empty()
    ensures var t' := PruneFrom(t, 0);
      l in t'.handles <==> t.handles[l] || (t.objects[l].parent.Some? && t.objects[l].parent.value in t'.handles)
  {
    hide PruneFrom;
    PruneReachesTheFixpoint(t);
  }

  lemma DroppingKeepsLiveLoops(s: State, w: nat, dropped: int)
    requires Inv(s) && w in s.waits && w in Live(s, s.waits[w].loop) && s.waits[w].loop in s.world.table.handles
    requires Moved(s, Loop(Act(DropHandle(dropped)))) != s
    ensures var t, t', l := s.world.table, Moved(s, Loop(Act(DropHandle(dropped)))).world.table, s.waits[w].loop;
      l in t.objects &&
      var held := t.handles[l] && l != dropped;
      (l in t'.handles <==> held || (t.objects[l].parent.Some? && t.objects[l].parent.value in t'.handles))
  {
    hide Shaped, Linked, QueuesSorted, Handled, WaitsKept, PruneFrom, Survives, Survivors, Restrict;
    LiveLoopIsNotEmpty(s, w);
    LoweredKeepsLinks(s.world.table, dropped);
    StaysByHandleOrParent(Lowered(s.world.table, dropped), s.waits[w].loop);
  }

  /** A start that fails leaves its count behind: the loop never looks empty again. */
  lemma {:induction false} FailedStartHoldsForGood(s: State, moves: seq<Move>, w: nat)
    requires Inv(s) && CanRun(s, moves) && In(s, w, Lost(false))
    ensures var n := After(s, moves);
      In(n, w, Lost(false)) && n.waits[w].loop == s.waits[w].loop &&
      n.waits[w].loop in n.world.table.objects && n.world.table.objects[n.waits[w].loop].fdWaits > 0 &&
      !n.world.table.objects[n.waits[w].loop].Empty()
    decreases |moves|
  {
    if moves == [] {
      assert Kept(s, w);
      assert w in Holding(s, s.waits[w].loop);
    } else {
      MoveKeepsInv(s, moves[0]);
      LostStaysLost(s, moves[0], w);
      FailedStartHoldsForGood(Moved(s, moves[0]), moves[1..], w);
    }
  }

  /** It happens: after this run the loop has no wait under way, and yet a count of one. */
  lemma FailedStartHappens() returns (moves: seq<Move>)
    ensures CanRun(Begin(), moves)
    ensures var n := After(Begin(), moves);
      && In(n, 0, Lost(false)) && n.waits[0].loop == GLOBAL_LOOP && Live(n, GLOBAL_LOOP) == {}
      && GLOBAL_LOOP in n.world.table.handles && GLOBAL_LOOP in n.world.table.objects
      && n.world.table.objects[GLOBAL_LOOP].fdWaits == 1
  {
    var s, open := Begin(), Open(GLOBAL_LOOP, false);
    moves := [open];
    MoveKeepsInv(s, open);
    var n := Moved(s, open);
    assert moves[1..] == [];
    assert CanRun(n, []) && After(n, []) == n;
    assert Live(n, GLOBAL_LOOP) == {};
  }

  lemma LostStaysLost(s: State, m: Move, w: nat)
    requires Inv(s) && Possible(s, m) && In(s, w, Lost(false))
    ensures In(Moved(s, m), w, Lost(false)) && Moved(s, m).waits[w].loop == s.waits[w].loop
  {
    hide Shaped, Linked, QueuesSorted, Handled, Waits, Balanced, Apart, Pass.Apply, Perform;
    assert Kept(s, w);
  }

  // ----- Progress -----

  function Stage(phase: Phase): nat {
    match phase
    case Polling => 0
    case Answered => 1
    case Handed(_) => 2
    case Running => 3
    case Released | Lost(_) => 4
  }

  /** A wait only ever moves on, and each of its own moves but a cancel takes it on. */
  lemma StagesRise(s: State, m: Move, w: nat)
    requires Inv(s) && Possible(s, m) && w in s.waits
    ensures w in Moved(s, m).waits
    ensures var before, after := Stage(s.waits[w].phase), Stage(Moved(s, m).waits[w].phase);
      if (m.GiveUp? || m.Answer? || m.HandOff? || m.Take? || m.Finish?) && m.w == w then before < after
      else before == after
  {
    hide Shaped, Linked, QueuesSorted, Handled, Waits, Balanced, Apart, Placed, Pass.Apply, Perform, Counted;
    assert Kept(s, w);
  }

  /** What the count of the wait's registry loses when the wait is released without a body. */
  ghost predicate ReleasedUnrun(s: State, n: State, w: nat)
    requires w in s.waits
  {
    var l := s.waits[w].loop;
    && w in n.waits && n.waits[w].phase.Released? && n.waits[w].bodies == 0 && n.waits[w].releases == 1
    && l in s.world.table.objects && l in n.world.table.objects
    && n.world.table.objects[l].fdWaits == s.world.table.objects[l].fdWaits - 1
  }

  /** All that can become of a cancelled wait. Polling, its thread's next look releases it; about to be handed
      over, it goes into its loop's queue, or is lost if the loop is gone by then; queued, it stays queued until
      the loop takes it, which releases it. Its body never runs. */
  lemma CancelledIsReleased(s: State, w: nat)
    requires Inv(s) && w in s.waits && s.waits[w].cancels == 1
    ensures s.waits[w].bodies == 0 && !s.waits[w].phase.Running?
    ensures s.waits[w].phase.Polling? ==>
              !Possible(s, Answer(w)) && Possible(s, GiveUp(w)) && ReleasedUnrun(s, Moved(s, GiveUp(w)), w)
    ensures s.waits[w].phase.Answered? ==>
              forall when :: Possible(s, HandOff(w, when)) && w in Moved(s, HandOff(w, when)).waits &&
                var phase := Moved(s, HandOff(w, when)).waits[w].phase;
                if s.waits[w].loop in s.world.table.handles then phase == Handed(s.world.nextCallback)
                else phase == Lost(true)
    ensures s.waits[w].phase.Handed? ==> Waits(s.world, s.waits[w].loop, s.waits[w].phase.id)
    ensures s.waits[w].phase.Handed? ==>
              forall cb, now :: Possible(s, Take(w, cb, now)) ==> ReleasedUnrun(s, Moved(s, Take(w, cb, now)), w)
  {
    hide Shaped, Linked, QueuesSorted, Handled, Balanced, Apart, Pass.Apply;
    assert Kept(s, w);
    if s.waits[w].phase.Handed? {
      forall cb, now | Possible(s, Take(w, cb, now)) ensures ReleasedUnrun(s, Moved(s, Take(w, cb, now)), w) {
        CancelledIsTaken(s, w, cb, now);
      }
    }
  }

  lemma CancelledIsTaken(s: State, w: nat, cb: Callback, now: Timestamp)
    requires Inv(s) && w in s.waits && s.waits[w].cancels == 1 && Possible(s, Take(w, cb, now))
    ensures ReleasedUnrun(s, Moved(s, Take(w, cb, now)), w)
  {
    hide Shaped, Linked, QueuesSorted, Handled, Balanced, Apart, Pass.Apply;
    assert Kept(s, w);
    StepKeepsCounts(s.world, Pop(s.waits[w].loop, cb, now));
  }

  /** In every run from there, no body, at most one release, and lost only with its loop out of the table. */
  lemma CancelledStaysCancelled(s: State, moves: seq<Move>, w: nat)
    requires Inv(s) && CanRun(s, moves) && w in s.waits && s.waits[w].cancels == 1
    ensures var n := After(s, moves);
      && w in n.waits && n.waits[w].cancels == 1 && n.waits[w].bodies == 0
      && n.waits[w].releases == (if n.waits[w].phase.Released? then 1 else 0)
      && (n.waits[w].phase == Lost(true) ==> n.waits[w].loop !in n.world.table.handles)
  {
    assert Kept(s, w);
    DecidedForGood(s, moves, w);
    assert Kept(After(s, moves), w);
  }
}
