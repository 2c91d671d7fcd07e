/** How far the input handler goes: the passes over the global loop that it makes, one after the other. */
module TopPasses {
  import opened Options
  import opened Timestamps
  import opened Callbacks
  import opened Forest
  import opened Pass
  import opened Ledger
  import opened PassTheorems
  import opened Answers

  /** These runs are passes over loop 0, each taken up where the one before it ended, at the clock's next readings,
      and each of them ended normally and invoked something. */
  ghost predicate InTurn(w: World, script: Script, clock: Clock, from: nat, passes: seq<Run>, b: nat)
    requires Sound(w)
    decreases |passes|
  {
    passes == [] ||
    (&& passes[0] == ExecCallbacks(w, script, 0, true, clock(from).0, clock(from).1, b)
     && passes[0].outcome.Finished? && Pops(passes[0].steps) != []
     && InTurn(passes[0].world, script, clock, from + 1, passes[1..], passes[0].left))
  }

  function StepsOf(passes: seq<Run>): seq<Step> {
    if passes == [] then [] else passes[0].steps + StepsOf(passes[1..])
  }

  /** Where they leave the loop. */
  function EndOf(w: World, passes: seq<Run>): World {
    if passes == [] then w else passes[|passes| - 1].world
  }

  lemma NoPassLeft(w: World, script: Script, clock: Clock, b: nat)
    requires Sound(w)
    ensures TopLevel(w, script, clock, 20, b).0 == Run(w, [], Finished, b)
  {
  }

  lemma OnePass(w: World, script: Script, clock: Clock, i: nat, b: nat)
    requires Sound(w) && i < 20 && !Greater(clock(i).0, clock(i).1)
    requires TopLevel(w, script, clock, i, b).0.outcome.Finished?
    ensures 0 in w.table.objects
    ensures var r, all := ExecCallbacks(w, script, 0, true, clock(i).0, clock(i).1, b),
                     TopLevel(w, script, clock, i, b).0;
      if DueTree(w.table, 0, clock(i).0) then
        var rest := TopLevel(r.world, script, clock, i + 1, r.left).0;
        && r.outcome.Finished? && Pops(r.steps) != []
        && rest.outcome.Finished? && all.world == rest.world && all.steps == r.steps + rest.steps
      else all.world == w && all.steps == []
  {
    hide RunOne, Pops;
    RunNowIsTruthful(w, script, 0, true, clock(i).0, clock(i).1, b);
  }

  lemma {:induction false} GoesOnFrom(w: World, script: Script, clock: Clock, i: nat, b: nat) returns (passes: seq<Run>)
    requires Sound(w) && i <= 20
    requires forall k :: i <= k < 20 ==> !Greater(clock(k).0, clock(k).1)
    requires TopLevel(w, script, clock, i, b).0.outcome.Finished?
    ensures i + |passes| <= 20 && InTurn(w, script, clock, i, passes, b)
    ensures var r := TopLevel(w, script, clock, i, b).0;
      && r.steps == StepsOf(passes) && r.world == EndOf(w, passes)
      && (i + |passes| < 20 ==> 0 in r.world.table.objects && !DueTree(r.world.table, 0, clock(i + |passes|).0))
    decreases 20 - i
  {
    hide TopLevel, ExecCallbacks, DueTree, Pops, Shaped, Linked;
    passes := [];
    if i == 20 {
      NoPassLeft(w, script, clock, b);
    } else {
      OnePass(w, script, clock, i, b);
      if DueTree(w.table, 0, clock(i).0) {
        var r := ExecCallbacks(w, script, 0, true, clock(i).0, clock(i).1, b);
        var rest := GoesOnFrom(r.world, script, clock, i + 1, r.left);
        passes := [r] + rest;
        assert passes[1..] == rest;
      }
    }
  }

  /** From the idle console the handler makes passes over the global loop until one finds nothing due at its first look
      at the clock, but twenty at most; each but that one invokes something. */
  lemma TopLevelGoesOn(w: World, script: Script, clock: Clock, b: nat) returns (passes: seq<Run>)
    requires Sound(w)
    requires forall k :: 0 <= k < 20 ==> !Greater(clock(k).0, clock(k).1)
    requires TopLevel(w, script, clock, 0, b).0.outcome.Finished?
    ensures |passes| <= 20 && InTurn(w, script, clock, 0, passes, b)
    ensures var r := TopLevel(w, script, clock, 0, b).0;
      && r.steps == StepsOf(passes) && r.world == EndOf(w, passes)
      && (|passes| == 20 || (0 in r.world.table.objects && !DueTree(r.world.table, 0, clock(|passes|).0)))
  {
    passes := GoesOnFrom(w, script, clock, 0, b);
  }
}
