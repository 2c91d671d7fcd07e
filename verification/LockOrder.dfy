/** The order in which threads take the three locks, and why no interleaving deadlocks. */
module LockOrder {
  import opened Options
  import opened WakeUp
  import opened WakeUpTheorems

  function Wants(s: State, t: Thread): Option<Lock> {
    var c := CallOf(s, t);
    if c.Arriving? || c.Inside? || c.Added? then Some(TableLock)
    else if c.Setting? then Some(TimerLock)
    else match t
      case Main =>
        if s.main.Quieting? then Some(PipeLock)
        else if s.main.Rearming? || s.main.ResetSetting? || s.main.Stopping? then Some(TimerLock)
        else if s.main.Resetting? || s.main.WaitArriving? || s.main.Waking? then Some(TableLock)
        else None
      case Background =>
        if s.timer.bg.Starting? || s.timer.bg.BackUntimed? || s.timer.bg.BackTimed? then Some(TimerLock)
        else if s.timer.bg.Firing? then Some(PipeLock)
        else None
      case Worker(_) => None
  }

  function OwnerOf(s: State, l: Lock): Option<Thread> {
    match l
    case TableLock => s.table.owner
    case TimerLock => s.timer.owner
    case PipeLock => s.pipe.owner
  }

  function Rank(l: Lock): nat {
    match l
    case TableLock => 0
    case TimerLock => 1
    case PipeLock => 2
  }

  predicate WaitsFor(s: State, t: Thread, u: Thread) {
    Wants(s, t).Some? && OwnerOf(s, Wants(s, t).value) == Some(u) && t != u
  }

  /** Locks are only ever requested upwards. */
  lemma LocksRise(s: State, t: Thread, held: Lock)
    requires Inv(s) && OwnerOf(s, held) == Some(t) && Wants(s, t).Some? && Wants(s, t).value != held
    ensures Rank(held) < Rank(Wants(s, t).value)
  {
    assert CallFits(s, t);
    assert TableHeld(s, t) == if s.table.owner == Some(t) then s.table.depth else 0;
    assert TimerHeld(s, t) <==> s.timer.owner == Some(t);
    assert PipeHeld(s, t) <==> s.pipe.owner == Some(t);
  }

  ghost predicate BlockedChain(s: State, chain: seq<Thread>) {
    forall i :: 0 < i < |chain| ==> WaitsFor(s, chain[i - 1], chain[i])
  }

  lemma {:induction false} ChainsRise(s: State, chain: seq<Thread>)
    requires Inv(s) && BlockedChain(s, chain) && |chain| >= 2
    ensures Wants(s, chain[0]).Some? && Wants(s, chain[|chain| - 2]).Some?
    ensures Rank(Wants(s, chain[|chain| - 2]).value) >= Rank(Wants(s, chain[0]).value) + |chain| - 2
  {
    var last := |chain| - 1;
    assert WaitsFor(s, chain[0], chain[1]) && WaitsFor(s, chain[last - 1], chain[last]);
    if |chain| > 2 {
      ChainsRise(s, chain[..last]);
      assert WaitsFor(s, chain[last - 2], chain[last - 1]);
      LocksRise(s, chain[last - 1], Wants(s, chain[last - 2]).value);
    }
  }

  /** No threads wait for each other in a circle, whatever its length. */
  lemma NoDeadlock(s: State, chain: seq<Thread>)
    requires Inv(s) && |chain| >= 2
    ensures !(BlockedChain(s, chain) && chain[0] == chain[|chain| - 1])
  {
    if BlockedChain(s, chain) && chain[0] == chain[|chain| - 1] {
      var last := |chain| - 1;
      ChainsRise(s, chain);
      assert WaitsFor(s, chain[last - 1], chain[last]) && WaitsFor(s, chain[0], chain[1]);
      LocksRise(s, chain[0], Wants(s, chain[last - 1]).value);
    }
  }

  lemma {:induction false} Earliest(q: Queues, loops: set<int>) returns (next: Option<Instant>)
    ensures IsNext(q, loops, next)
    decreases |q.pending|
  {
    if id :| InLoops(q, loops, id) {
      var rest := q.(pending := q.pending - {id});
      var other := Earliest(rest, loops);
      var w := q.pending[id].when;
      forall k | InLoops(q, loops, k) && k != id ensures InLoops(rest, loops, k) {
      }
      if other.Some? && other.value < w {
        var k :| InLoops(rest, loops, k) && rest.pending[k].when == other.value;
        assert InLoops(q, loops, k) && q.pending[k].when == other.value;
        next := other;
      } else {
        assert InLoops(q, loops, id) && q.pending[id].when == w;
        next := Some(w);
      }
    } else {
      next := None;
    }
  }

  /** Reading the next timestamp right after an insertion always finds one, so its value may be used. */
  lemma NextExistsAfterAdd(s: State, t: Thread)
    requires Inv(s) && CallOf(s, t).Reading?
    ensures exists next :: CallEnabled(s, t, Read(next))
  {
    var c := CallOf(s, t);
    assert CallKept(s, c);
    assert InLoops(s.queues, s.queues.tree[c.loop], c.id);
    var next := Earliest(s.queues, s.queues.tree[c.loop]);
    assert CallEnabled(s, t, Read(next.value));
  }

  function By(step: Step): Option<Thread> {
    match step
    case Tick(_) => None
    case InCall(t, _) => Some(t)
    case InTimerThread(_) => Some(Background)
    case InHandler(_) => Some(Main)
    case InMain(_) => Some(Main)
  }

  ghost predicate CanMove(s: State, t: Thread) {
    exists step :: Enabled(s, step) && By(step) == Some(t)
  }

  /** A thread inside a scheduling call can move unless it waits for a lock. */
  lemma CallerCanMove(s: State, t: Thread)
    requires Inv(s) && !CallOf(s, t).NoCall? && forall u :: !WaitsFor(s, t, u)
    ensures CanMove(s, t)
  {
    var c := CallOf(s, t);
    if c.Reading? {
      NextExistsAfterAdd(s, t);
      var next :| CallEnabled(s, t, Read(next));
      assert Enabled(s, InCall(t, Read(next)));
    } else {
      var l := Wants(s, t);
      if l.Some? && OwnerOf(s, l.value).Some? {
        assert !WaitsFor(s, t, OwnerOf(s, l.value).value);
      }
      var m := match c
               case Arriving(_, _, _) => LookUp
               case Inside(_, _, _) => LockToAdd
               case Adding(_, _, _) => Add
               case Added(_, _, _) => LockToRead
               case Setting(_, _) => LockTimer
               case InTimer(_, _) => Set
               case _ => Leave;
      if l.Some? && l.value != TableLock {
        OwnLockIsNotWanted(s, t);
      }
      assert Enabled(s, InCall(t, m));
    }
  }

  lemma OwnLockIsNotWanted(s: State, t: Thread)
    requires Inv(s) && Wants(s, t).Some? && Wants(s, t).value != TableLock
    ensures OwnerOf(s, Wants(s, t).value) != Some(t)
  {
    assert CallFits(s, t);
    assert TimerHeld(s, t) <==> s.timer.owner == Some(t);
    assert PipeHeld(s, t) <==> s.pipe.owner == Some(t);
  }

  /** The same for the timer thread and the main thread, once they hold a lock. */
  lemma HolderCanMove(s: State, t: Thread, held: Lock)
    requires Inv(s) && OwnerOf(s, held) == Some(t) && forall u :: !WaitsFor(s, t, u)
    ensures CanMove(s, t)
  {
    assert TableHeld(s, t) == if s.table.owner == Some(t) then s.table.depth else 0;
    assert TimerHeld(s, t) <==> s.timer.owner == Some(t);
    assert PipeHeld(s, t) <==> s.pipe.owner == Some(t);
    if !CallOf(s, t).NoCall? {
      CallerCanMove(s, t);
    } else if t.Background? {
      var m := if s.timer.bg.Looping? then BgDecide else if s.timer.bg.Firing? then BgLockPipe else BgWrite;
      assert s.timer.bg.Firing? && s.pipe.owner.Some? ==> WaitsFor(s, t, s.pipe.owner.value);
      assert Enabled(s, InTimerThread(m));
    } else {
      MainHolderCanMove(s, held);
    }
  }

  lemma MainHolderCanMove(s: State, held: Lock)
    requires Inv(s) && OwnerOf(s, held) == Some(Main) && CallOf(s, Main).NoCall?
    ensures CanMove(s, Main)
  {
    assert TableHeld(s, Main) == if s.table.owner == Some(Main) then s.table.depth else 0;
    assert TimerHeld(s, Main) <==> s.timer.owner == Some(Main);
    assert PipeHeld(s, Main) <==> s.pipe.owner == Some(Main);
    if s.main.Draining? {
      assert Enabled(s, InHandler(Drain));
    } else if s.main.RearmingIn? {
      assert Enabled(s, InHandler(Rearm));
    } else if s.main.ResetIn? {
      assert Enabled(s, InHandler(Reset));
    } else if s.main.ResetReading? {
      var found := Earliest(s.queues, s.queues.tree[GLOBAL_LOOP]);
      assert Enabled(s, InHandler(ReadToReset(found)));
    } else if s.main.WaitReading? {
      var found := Earliest(s.queues, s.queues.tree[s.main.loop]);
      assert Enabled(s, InMain(CheckWait(found, s.now)));
    } else if s.main.StoppingIn? {
      assert Enabled(s, InMain(RaiseStop));
    } else {
      assert Enabled(s, InMain(if s.main.WaitHead? then EnterWait else Sleep));
    }
  }

  /** Whenever a thread waits for a lock, following who holds what leads to a thread that can move. */
  lemma {:induction false} SomeHolderCanMove(s: State, t: Thread, u: Thread)
    requires Inv(s) && WaitsFor(s, t, u)
    ensures exists l, v :: OwnerOf(s, l) == Some(v) && CanMove(s, v)
    decreases 3 - Rank(Wants(s, t).value)
  {
    var l := Wants(s, t).value;
    if v :| WaitsFor(s, u, v) {
      OwnOrOther(s, u, v, l);
      LocksRise(s, u, l);
      SomeHolderCanMove(s, u, v);
    } else {
      HolderCanMove(s, u, l);
      assert OwnerOf(s, l) == Some(u);
    }
  }

  lemma OwnOrOther(s: State, u: Thread, v: Thread, held: Lock)
    requires WaitsFor(s, u, v) && OwnerOf(s, held) == Some(u)
    ensures Wants(s, u).value != held
  {
  }
}
