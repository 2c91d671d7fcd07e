/** How loops come and go: what creating, destroying and collecting a loop does to it and to the others, and
    which loops pruning leaves. */
module LoopLife {
  import opened Options
  import opened Timestamps
  import opened Callbacks
  import opened Forest
  import opened Pass
  import opened Ledger
  import opened PassTheorems
  import opened Answers
  import opened OneCallback

  // ---- pruning

  /** A loop is still in the table after pruning exactly if it has its handle, or is busy below a parent that is
      still there. */
  lemma SweepLeavesExactly(t: Table, l: int)
    requires Shaped(t) && Linked(t) && l in t.handles
    ensures var t', r := PruneFrom(t, 0), t.objects[l];
      l in t'.handles <==> t.handles[l] || (Busy(t, l) && r.parent.Some? && r.parent.value in t'.handles)
  {
    hide PruneFrom;
    PruneReachesTheFixpoint(t);
  }

  /** Pruning never loses a callback that can still be reached: its loop stays as long as its parent does, and the
      callback stays queued on it. */
  lemma QueuedLoopsStay(w: World, l: int, cb: Callback)
    requires Valid(w) && Queued(w, l, cb) && l in w.table.handles
    requires w.table.objects[l].parent.Some? && w.table.objects[l].parent.value in Apply(w, Sweep).table.handles
    ensures l in Apply(w, Sweep).table.handles && Queued(Apply(w, Sweep), l, cb)
  {
    hide PruneFrom, Shaped, Linked;
    SweepLeavesExactly(w.table, l);
    TableOnlySteps(w, Sweep);
  }

  /** A loop without a handle, with nothing queued and no wait under way, is gone after pruning. */
  lemma IdleLoopsGo(w: World, l: int)
    requires Valid(w) && l in w.table.handles && !w.table.handles[l]
    requires w.table.objects[l].fdWaits == 0 && forall cb :: !Queued(w, l, cb)
    ensures l !in Apply(w, Sweep).table.handles
  {
    hide PruneFrom;
    SweepLeavesExactly(w.table, l);
    var q := w.table.objects[l].queue;
    assert |q| > 0 ==> Queued(w, l, q[0]);
  }

  /** A pass that did its work and ended normally has pruned: every loop left in the table has its handle, or is busy
      below a parent that is left. A pass that threw has not. */
  lemma PassesPrune(w: World, script: Script, id: int, all: bool, checkedAt: Timestamp, now: Timestamp, b: nat, l: int)
    requires Valid(w) && id in w.table.handles && DueTree(w.table, id, checkedAt)
    ensures var one, r := RunOne(w, script, all, id, now, b), ExecCallbacks(w, script, id, all, checkedAt, now, b);
      && (one.outcome.Finished? <==> r.outcome.Finished?)
      && (!r.outcome.Finished? ==> r.world == one.world)
      && (r.outcome.Finished? && l in r.world.table.handles ==>
            && l in r.world.table.objects
            && (r.world.table.handles[l] ||
                (Busy(r.world.table, l) && r.world.table.objects[l].parent.Some? &&
                 r.world.table.objects[l].parent.value in r.world.table.handles)))
  {
    hide RunOne, PruneFrom, DueTree;
    var one := RunOne(w, script, all, id, now, b);
    OneIsFaithful(w, script, all, id, now, b);
    ReplayKeepsValid(w, one.steps);
    if one.outcome.Finished? {
      LeftIsPruned(one.world.table, l);
    }
  }

  lemma LeftIsPruned(t: Table, l: int)
    requires Shaped(t) && Linked(t)
    ensures var t' := PruneFrom(t, 0);
      l in t'.handles ==>
        && l in t'.objects
        && (t'.handles[l] ||
            (Busy(t', l) && t'.objects[l].parent.Some? && t'.objects[l].parent.value in t'.handles))
  {
    hide PruneFrom;
    SweepKeepsLinks(t);
    PruneReachesTheFixpoint(t);
  }

  // ---- scheduling

  /** A callback scheduled for now or earlier makes every tree that its loop belongs to due. */
  lemma ScheduledIsDue(w: World, root: int, path: seq<int>, loop: int, when: Timestamp, now: Timestamp)
    requires Valid(w) && loop in w.table.handles && !Greater(when, now) && Path(w.table, root, path, loop)
    ensures var w' := Perform(w, Schedule(loop, when));
      Sound(w') && root in w'.table.objects && DueTree(w'.table, root, now)
  {
    var w' := Perform(w, Schedule(loop, when));
    PerformKeepsSound(w, Schedule(loop, when));
    ScheduleStep(w, loop, when);
    assert Queued(w', loop, Callback(when, w.nextCallback));
    NothingDueBehindTheHead(w'.table.objects[loop].queue, now, Callback(when, w.nextCallback));
    WithQueueKeepsShape(w, loop, Insert(w.table.objects[loop].queue, Callback(when, w.nextCallback)));
    PathSame(w.table, w'.table, root, path, loop);
    ReachedIsDue(w'.table, root, path, loop, now);
  }

  // ---- creating

  /** `create_loop` fails only for a parent that is gone. Else the new loop is registered with its handle, has nothing
      queued, and is listed by exactly the parent that was asked for. */
  lemma CreatedIsListed(w: World, parent: Option<int>)
    requires Valid(w)
    ensures Fails(w, CreateLoop(parent)) <==> parent.Some? && parent.value !in w.table.handles
    ensures var w', id := Perform(w, CreateLoop(parent)), w.nextLoop;
      && w'.nextLoop == id + 1
      && (Fails(w, CreateLoop(parent)) ==> w'.table == w.table && w'.loops == w.loops)
      && (!Fails(w, CreateLoop(parent)) ==>
            && id !in w.table.objects && Handled(w'.table, id) && w'.loops == w.loops + {id} && id in w'.table.objects
            && w'.table.objects[id] == Registry([], 0, parent, [])
            && w'.table.handles.Keys == w.table.handles.Keys + {id}
            && forall k :: k in w.table.objects ==>
                 && k in w'.table.objects && w'.table.objects[k].queue == w.table.objects[k].queue
                 && w'.table.objects[k].children
                    == w.table.objects[k].children + if parent == Some(k) then [id] else [])
  {
    if !Fails(w, CreateLoop(parent)) {
      forall k | k in w.table.objects {
        CreateEffect(w.table, w.nextLoop, parent, k);
      }
    }
  }

  /** So a callback due on the new loop makes its parent's tree due: a pass over the parent runs it. */
  lemma ParentRunsItsChild(w: World, parent: int, when: Timestamp, now: Timestamp)
    requires Valid(w) && parent in w.table.handles && !Greater(when, now)
    requires Valid(Perform(w, CreateLoop(Some(parent))))
    ensures var w' := Perform(Perform(w, CreateLoop(Some(parent))), Schedule(w.nextLoop, when));
      Sound(w') && parent in w'.table.objects && DueTree(w'.table, parent, now)
  {
    hide Perform, Handled, QueuesSorted, Path, Linked, DueTree;
    CreatedIsBelow(w, parent);
    ScheduledIsDue(Perform(w, CreateLoop(Some(parent))), parent, [w.nextLoop], w.nextLoop, when, now);
  }

  lemma CreatedIsBelow(w: World, parent: int)
    requires Valid(w) && parent in w.table.handles
    ensures var t := Perform(w, CreateLoop(Some(parent))).table;
      w.nextLoop in t.handles && Path(t, parent, [w.nextLoop], w.nextLoop)
  {
    hide Perform, Create, QueuesSorted;
    var t, id := Perform(w, CreateLoop(Some(parent))).table, w.nextLoop;
    CreatedIsListed(w, Some(parent));
    assert t.objects[parent].children[|w.table.objects[parent].children|] == id;
    assert Path(t, id, [], id) && [id][1..] == [];
  }

  /** A loop created without a parent is out of the reach of all others: no pass over them runs its callbacks. */
  lemma PrivateLoopIsApart(w: World, root: int)
    requires Valid(w) && root in w.table.objects
    ensures !Reaches(Perform(w, CreateLoop(None)).table, root, w.nextLoop)
  {
    CreatedIsListed(w, None);
    var t := Perform(w, CreateLoop(None)).table;
    if path :| Path(t, root, path, w.nextLoop) {
      NoneListsTheNewest(w.table, t, root, path, w.nextLoop);
    }
  }

  lemma {:induction false} NoneListsTheNewest(t: Table, t': Table, root: int, path: seq<int>, id: int)
    requires Shaped(t) && root in t.objects && id !in t.objects && Path(t', root, path, id)
    requires forall k :: k in t.objects ==> k in t'.objects && t'.objects[k].children == t.objects[k].children
    ensures false
    decreases |path|
  {
    if path != [] {
      assert path[0] in t.objects[root].children;
      NoneListsTheNewest(t, t', path[0], path[1..], id);
    }
  }

  // ---- destroying

  /** `destroy_loop` refuses the global and the current loop. Another loop it takes out of the table and out of its
      parent's list; its children stay, without a parent; no other loop changes, and nothing changes if it was not
      in the table. */
  lemma DestroyedIsGone(w: World, loop: int)
    requires Valid(w)
    ensures Fails(w, DestroyLoop(loop)) <==> loop == 0 || loop == w.current
    ensures var w' := Perform(w, DestroyLoop(loop));
      if Fails(w, DestroyLoop(loop)) || loop !in w.table.handles then w' == w
      else
        && w'.table.handles == w.table.handles - {loop} && w'.loops == w.loops - {loop}
        && Fails(w', Schedule(loop, Timespec(0, 0)))
        && forall k :: k in w.table.handles && k != loop ==>
             && k in w.table.objects && k in w'.table.objects
             && w'.table.objects[k].queue == w.table.objects[k].queue
             && w'.table.objects[k].fdWaits == w.table.objects[k].fdWaits
             && w'.table.objects[k].parent == (if w.table.objects[k].parent == Some(loop) then None
                                               else w.table.objects[k].parent)
             && forall c :: c in w'.table.objects[k].children <==> c in w.table.objects[k].children && c != loop
  {
    hide Remove, EraseFirst;
    if !Fails(w, DestroyLoop(loop)) && loop in w.table.handles {
      RemoveTables(w.table, loop);
      forall k | k in w.table.handles && k != loop {
        RemovedAt(w.table, loop, k);
      }
    }
  }

  /** So no pass over another loop in the table comes to its callbacks any more. */
  lemma DestroyedIsUnreached(w: World, loop: int, root: int)
    requires Valid(w) && !Fails(w, DestroyLoop(loop)) && loop in w.table.handles
    requires root in Perform(w, DestroyLoop(loop)).table.handles
    ensures !Reaches(Perform(w, DestroyLoop(loop)).table, root, loop)
  {
    DestroyedIsGone(w, loop);
    PerformKeepsSound(w, DestroyLoop(loop));
    var t := Perform(w, DestroyLoop(loop)).table;
    if path :| Path(t, root, path, loop) {
      PathsStayIn(t, root, path, loop);
    }
  }

  lemma {:induction false} PathsStayIn(t: Table, root: int, path: seq<int>, l: int)
    requires Linked(t) && root in t.handles && Path(t, root, path, l)
    ensures l in t.handles
    decreases |path|
  {
    if path != [] {
      PathsStayIn(t, path[0], path[1..], l);
    }
  }

  // ---- collecting a handle

  /** When the R handle of a loop is collected, the loop stays exactly while it is busy below a parent that stays, and
      is gone otherwise, and so is, by the same measure, every other loop without a handle. The global and the current
      loop, and one whose handle has gone before, are left alone. */
  lemma CollectedStaysWhileBusy(w: World, loop: int, l: int)
    requires Valid(w) && l in w.table.handles
    ensures !Fails(w, DropHandle(loop))
    ensures var t, w' := w.table, Perform(w, DropHandle(loop));
      if loop == 0 || loop == w.current || !Handled(t, loop) then w' == w
      else
        && w'.loops == w.loops - {loop} && !Handled(w'.table, loop)
        && l in t.objects
        && (l in w'.table.handles <==>
              || (t.handles[l] && l != loop)
              || (Busy(t, l) && t.objects[l].parent.Some? && t.objects[l].parent.value in w'.table.handles))
  {
    hide PruneFrom;
    if Handled(w.table, loop) {
      LoweredKeepsLinks(w.table, loop);
      SweepLeavesExactly(Lowered(w.table, loop), l);
      LoweringKeepsHandled(w.table, loop);
    }
  }
}
