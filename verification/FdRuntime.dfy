/** The arguments of a descriptor wait as they run: the object that counts itself in and out of its
    registry, the flag shared with the canceller, the polling thread and the callback. */
module FdRuntime {
  import opened Options
  import opened Timestamps
  import opened Runtime

  const NA_INTEGER: int := -2147483648
  const POLLIN: bv16 := 1
  const POLLOUT: bv16 := 4
  const LONGEST_POLL: real := 1.024
  const LONGEST_WAIT: real := 30_000_000_000.0

  /** The relative timeout that construction turns into a deadline. */
  function Bounded(timeout: real): real {
    if timeout > LONGEST_WAIT then LONGEST_WAIT else if timeout < 0.0 then 1.0 else timeout
  }

  /** The shared atomic flag. */
  class Flag {
    var up: bool

    constructor ()
      ensures up
    {
      up := true;
    }

    /** `compare_exchange_strong(true, false)`: takes the flag down, and tells whether it was up. */
    method TakeDown() returns (was: bool)
      modifies this
      ensures was == old(up) && !up
    {
      was := up;
      up := false;
    }
  }

  /** What polling says of one descriptor. */
  function Verdict(revents: bv16): int {
    if revents == 0 then 0 else if revents & (POLLIN | POLLOUT) != 0 then 1 else NA_INTEGER
  }

  function Verdicts(revents: seq<bv16>, ready: int): seq<int> {
    seq(|revents|, i requires 0 <= i < |revents| =>
      if ready > 0 then Verdict(revents[i]) else if ready < 0 then NA_INTEGER else 0)
  }

  datatype Poll = Poll(ready: int, active: bool, left: real)

  datatype End = Cancelled | Ready(ready: int)

  function Slice(left: real): int {
    ((if left < LONGEST_POLL then left else LONGEST_POLL) * 1000.0).Floor
  }

  /** The time left before the `k`-th poll. */
  function LeftBefore(first: real, polls: seq<Poll>, k: nat): real
    requires k <= |polls|
  {
    if k > 0 then polls[k - 1].left else if first > 0.0 then first else 0.0
  }

  class ThreadArgs {
    const registry: CallbackRegistry
    const active: Flag
    const results: array<int>
    const deadline: Timestamp

    /** Counts the wait in. The deadline is never in the past and never more than the longest wait away,
        whatever the timeout asked for. */
    constructor (registry: CallbackRegistry, n: nat, timeout: real, now: Timestamp)
      modifies registry`fdWaits
      ensures 0.0 <= timeout <= 30_000_000_000.0 ==> deadline == Later(now, timeout)
      ensures timeout < 0.0 ==> deadline == Later(now, 1.0)
      ensures timeout > 30_000_000_000.0 ==> deadline == Later(now, 30_000_000_000.0)
      ensures now.Nanos() <= deadline.Nanos() <= Later(now, LONGEST_WAIT).Nanos()
      ensures this.registry == registry && registry.fdWaits == old(registry.fdWaits) + 1
      ensures fresh(active) && active.up
      ensures fresh(results) && results.Length == n && forall i :: 0 <= i < n ==> results[i] == 0
    {
      var until := AddSeconds(now, Bounded(timeout));
      this.registry := registry;
      active := new Flag();
      results := new int[n](i => 0);
      deadline := until;
      new;
      NoDelayIsNow(now);
      LaterIsMonotone(now, now, 0.0, Bounded(timeout));
      LaterIsMonotone(now, now, Bounded(timeout), LONGEST_WAIT);
      registry.fdWaits := registry.fdWaits + 1;
    }

    /** Counts the wait out. */
    method Destroy()
      modifies registry`fdWaits
      ensures registry.fdWaits == old(registry.fdWaits) - 1
    {
      registry.fdWaits := registry.fdWaits - 1;
    }

    /** The callback on the loop: the body runs exactly if the flag was still up, and in every case the
        flag is down and the wait counted out at the end. */
    method LaterCallback() returns (given: Option<seq<int>>)
      modifies active, registry`fdWaits
      ensures given == if old(active.up) then Some(results[..]) else None
      ensures !active.up && registry.fdWaits == old(registry.fdWaits) - 1
    {
      var stillActive := active.TakeDown();
      if stillActive {
        given := Some(results[..]);
      } else {
        given := None;
      }
      Destroy();
    }

    /** Fills the results from what the last poll says; nothing ready leaves them all zero. */
    method Fill(revents: seq<bv16>, ready: int)
      requires |revents| == results.Length && forall i :: 0 <= i < results.Length ==> results[i] == 0
      modifies results
      ensures results[..] == Verdicts(revents, ready)
      ensures forall i :: 0 <= i < results.Length ==>
                && (ready == 0 ==> results[i] == 0)
                && (ready < 0 ==> results[i] == -2147483648)
                && (ready > 0 && revents[i] == 0 ==> results[i] == 0)
                && (ready > 0 && revents[i] & 5 != 0 ==> results[i] == 1)
                && (ready > 0 && revents[i] != 0 && revents[i] & 5 == 0 ==> results[i] == -2147483648)
    {
      if ready > 0 {
        var i := 0;
        while i < |revents|
          invariant 0 <= i <= |revents|
          invariant forall j :: 0 <= j < i ==> results[j] == Verdict(revents[j])
        {
          results[i] := if revents[i] == 0 then 0 else if revents[i] & (POLLIN | POLLOUT) != 0 then 1 else NA_INTEGER;
          i := i + 1;
        }
      } else if ready < 0 {
        var i := 0;
        while i < results.Length
          invariant 0 <= i <= results.Length
          invariant forall j :: 0 <= j < i ==> results[j] == NA_INTEGER
        {
          results[i] := NA_INTEGER;
          i := i + 1;
        }
      }
    }
  }

  /** The polling loop over the polls to come, `first` being the time left at its start. It stops at the
      first poll that ends it, looks at the flag before anything else, and never sleeps longer than
      1024 ms in one poll, so that a cancellation is seen by then. */
  method PollLoop(first: real, polls: seq<Poll>) returns (end: Option<End>, slices: seq<int>)
    ensures |slices| <= |polls| && (end.None? ==> |slices| == |polls|) && (end.Some? ==> |slices| > 0)
    ensures forall k :: 0 <= k < |slices| && (end.None? || k < |slices| - 1) ==>
              polls[k].active && polls[k].ready == 0 && polls[k].left > 0.0
    ensures end.Some? ==>
              var last := polls[|slices| - 1];
              if !last.active then end.value == Cancelled
              else end.value == Ready(last.ready) && (last.ready != 0 || last.left <= 0.0)
    ensures forall k :: 0 <= k < |slices| ==>
              var left := LeftBefore(first, polls, k);
              if left >= 1.024 then slices[k] == 1024
              else 0 <= slices[k] && slices[k] as real <= left * 1000.0 < slices[k] as real + 1.0
  {
    slices := [];
    var waitFor := if first > 0.0 then first else 0.0;
    var i := 0;
    while i < |polls|
      invariant 0 <= i <= |polls| && |slices| == i
      invariant waitFor == LeftBefore(first, polls, i) && waitFor >= 0.0
      invariant forall k :: 0 <= k < i ==> polls[k].active && polls[k].ready == 0 && polls[k].left > 0.0
      invariant forall k :: 0 <= k < |slices| ==> slices[k] == Slice(LeftBefore(first, polls, k))
    {
      var slice := Slice(waitFor);
      slices := slices + [slice];
      if !polls[i].active {
        return Some(Cancelled), slices;
      }
      if polls[i].ready != 0 {
        return Some(Ready(polls[i].ready)), slices;
      }
      waitFor := polls[i].left;
      i := i + 1;
      if waitFor <= 0.0 {
        return Some(Ready(0)), slices;
      }
    }
    end := None;
  }
}
