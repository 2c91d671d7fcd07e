/** The timer and the pipe as objects whose fields the threads assign under their locks. */
module WakeUpRuntime {
  import opened Options
  import opened WakeUp

  class TimerObject {
    var owner: Option<Thread>
    var wakeAt: Option<Instant>
    var stopped: bool
    var bg: Bg

    constructor ()
      ensures View() == Timer(None, None, false, Unborn)
    {
      owner, wakeAt, stopped, bg := None, None, false, Unborn;
    }

    function View(): Timer
      reads this
    {
      Timer(owner, wakeAt, stopped, bg)
    }

    /** `cond.signal()`. */
    method Signal()
      modifies this`bg
      ensures bg == SignalBg(old(bg))
    {
      if bg.Untimed? {
        bg := Untimed(true);
      } else if bg.Timed? {
        bg := Timed(bg.deadline, true);
      }
    }

    /** `Timer::set` by a thread that has the lock. */
    method Set(timestamp: Instant)
      requires owner.Some?
      modifies this
      ensures View() == SetTimer(old(View()), timestamp)
    {
      if bg.Unborn? {
        bg := Starting;
      }
      wakeAt := Some(timestamp);
      Signal();
      owner := None;
    }

    /** One turn of the service loop, from holding the lock to the next wait, callback or return. */
    method Serve(now: Instant)
      requires owner == Some(Background) && bg.Looping?
      modifies this
      ensures View() == Decided(old(View()), now)
    {
      if !(stopped || wakeAt.Some?) {
        owner, bg := None, Untimed(false);
        return;
      }
      if stopped {
        owner, bg := None, Returned;
        return;
      }
      if wakeAt.value > now {
        owner, bg := None, Timed(wakeAt.value, false);
        return;
      }
      wakeAt := None;
      bg := Firing;
    }

    /** A wait returns once the lock is free again. */
    method Resume()
      requires owner.None? && (bg.BackUntimed? || bg.BackTimed?)
      modifies this
      ensures View() == Relocked(old(View()))
    {
      if bg.BackTimed? {
        if stopped {
          bg := Returned;
          return;
        }
        if bg.timedOut {
          owner, wakeAt, bg := Some(Background), None, Firing;
          return;
        }
      }
      owner, bg := Some(Background), Looping;
    }
  }

  class SignalPipe {
    var owner: Option<Thread>
    var hot: bool
    var bytes: nat

    constructor ()
      ensures View() == Pipe(None, false, 0)
    {
      owner, hot, bytes := None, false, 0;
    }

    function View(): Pipe
      reads this
    {
      Pipe(owner, hot, bytes)
    }

    /** `set_fd` by a thread that has the lock: writes a byte or reads all there is, only on a change. */
    method Set(ready: bool)
      requires owner.Some?
      modifies this
      ensures View() == SetFd(old(View()), ready)
    {
      if ready != hot {
        if ready {
          bytes := bytes + 1;
          hot := true;
        } else {
          bytes := 0;
          hot := false;
        }
      }
      owner := None;
    }
  }
}
