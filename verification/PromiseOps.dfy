/** What user code does to promises, operation by operation, and what comes of it in every run. */
module PromiseOps {
  import opened Options
  import opened Promises
  import opened PromiseTheorems
  import opened PromiseOutcomes
  import opened Adoption

  /** Every promise but `p` is as it was, and no others have come. */
  predicate OnlyChanges(s: Sys, n: Sys, p: nat) {
    && |n.promises| == |s.promises| && n.active == s.active
    && forall q: nat :: q < |s.promises| && q != p ==> n.promises[q] == s.promises[q]
  }

  /** `promise()`: one more promise, pending, that nobody has resolved yet. */
  lemma NewIsPending(s: Sys)
    ensures var n, p := Do(s, New), |s.promises|;
      && |n.promises| == p + 1 && n.tasks == s.tasks && n.active == s.active
      && n.promises[p].status.Pending? && !n.promises[p].called && !n.promises[p].derived
      && n.promises[p].handlers == [] && n.promises[p].past.thens == []
      && forall q: nat :: q < p ==> n.promises[q] == s.promises[q]
  {
  }

  /** The first `resolve` of a promise with a value that is no promise fulfils it with that value, and queues the
      callback that runs its handlers; nothing else happens yet. */
  lemma ResolveFulfils(s: Sys, p: nat, v: Value)
    requires Inv(s) && p < |s.promises| && !s.promises[p].derived && !s.promises[p].called && !v.Ref?
    ensures var n := Do(s, Resolve(p, v));
      && n.tasks == s.tasks + [Flush(p)] && OnlyChanges(s, n, p) && s.promises[p].status.Pending?
      && n.promises[p] == s.promises[p].(called := true, status := Fulfilled(v))
  {
    UncalledIsPending(s, p);
  }

  /** The first `reject` does the same with the reason, of which a character value becomes an error. */
  lemma RejectRejects(s: Sys, p: nat, v: Value)
    requires Inv(s) && p < |s.promises| && !s.promises[p].derived && !s.promises[p].called && !v.Ref?
    ensures var n := Do(s, Reject(p, v));
      && n.tasks == s.tasks + [Flush(p)] && OnlyChanges(s, n, p) && s.promises[p].status.Pending?
      && n.promises[p] == s.promises[p].(called := true,
                                         status := Rejected(if v.Text? then Condition(v.d) else v))
  {
    UncalledIsPending(s, p);
  }

  /** With another promise either makes it wait for that one; with itself `resolve` rejects it for the cycle. */
  lemma ResolveFollows(s: Sys, p: nat, q: nat)
    requires Inv(s) && p < |s.promises| && !s.promises[p].derived && !s.promises[p].called && q < |s.promises|
    ensures p != q ==> Follows(Do(s, Resolve(p, Ref(q))), p, q, |s.promises[q].past.thens|)
    ensures p != q ==> Do(s, Resolve(p, Ref(q))).promises[p].status.Pending?
    ensures Do(s, Resolve(p, Ref(p))).promises[p].status == Rejected(CycleError)
    ensures Follows(Do(s, Reject(p, Ref(q))), p, q, |s.promises[q].past.thens|)
    ensures Do(s, Reject(p, Ref(q))).promises[p].status.Pending?
  {
    hide Tracked, Children;
    UncalledIsFree(s, p);
    UncalledIsPending(s, p);
    ResolvingFollows(Call(s, p), p, q);
  }

  /** Every later `resolve` or `reject` of it is ignored, and so is any of a promise that `then` made. */
  lemma LaterCallsAreIgnored(s: Sys, p: nat, v: Value)
    requires p < |s.promises| && (s.promises[p].called || s.promises[p].derived)
    ensures Do(s, Resolve(p, v)) == s && Do(s, Reject(p, v)) == s
  {
  }

  /** `then` makes one promise and one registration, the first function for fulfilment and the second for rejection:
      kept while the promise is pending, queued at once after that. */
  lemma ThenRegisters(s: Sys, p: nat, f: Option<nat>, g: Option<nat>)
    requires p < |s.promises|
    ensures var n, c := Do(s, Then(p, f, g)), |s.promises|; var h := Handler(User(f, g), c);
      && |n.promises| == c + 1 && n.active == s.active
      && n.promises[c].status.Pending? && n.promises[c].derived && !n.promises[c].called
      && n.promises[p].past.thens == s.promises[p].past.thens + [h] && n.promises[p].status == s.promises[p].status
      && (s.promises[p].status.Pending? ==>
            n.promises[p].handlers == s.promises[p].handlers + [h] && n.tasks == s.tasks)
      && (!s.promises[p].status.Pending? ==>
            n.promises[p].handlers == s.promises[p].handlers && n.tasks == s.tasks + [Late(p, h)])
      && forall q: nat :: q < c && q != p ==> n.promises[q] == s.promises[q]
  {
  }

  /** `later` queues the function behind everything else, and nothing more. */
  lemma LaterQueues(s: Sys, k: nat)
    ensures Do(s, Later(k)) == s.(tasks := s.tasks + [Run(k)])
  {
  }

  // ----- In every run -----

  /** So in every run a promise resolved with a value stays fulfilled with it, and once the loop is drained all
      handlers registered on it have run. */
  lemma ResolvedForGood(s: Sys, script: Script, p: nat, v: Value, moves: seq<Move>)
    requires Inv(s) && s.active.Idle? && p < |s.promises| && !s.promises[p].derived && !s.promises[p].called && !v.Ref?
    requires Inv(Do(s, Resolve(p, v))) && CanRun(Do(s, Resolve(p, v)), script, moves)
    ensures var n := After(Do(s, Resolve(p, v)), script, moves);
      && p < |n.promises| && n.promises[p].status == Fulfilled(v)
      && (n.tasks == [] && n.active.Idle? ==> n.promises[p].past.ran == n.promises[p].past.thens)
  {
    hide Inv;
    ResolveFulfils(s, p, v);
    SettledForGood(Do(s, Resolve(p, v)), script, moves, p);
    Registrations(After(Do(s, Resolve(p, v)), script, moves), p);
  }

  lemma {:induction false} ThensStay(s: Sys, script: Script, moves: seq<Move>, q: nat)
    requires Inv(s) && CanRun(s, script, moves) && q < |s.promises|
    ensures q < |After(s, script, moves).promises|
    ensures s.promises[q].past.thens <= After(s, script, moves).promises[q].past.thens
    decreases |moves|
  {
    if moves != [] {
      MoveKeepsInv(s, script, moves[0]);
      MovesOn(s, script, moves[0], q);
      ThensStay(Moved(s, script, moves[0]), script, moves[1..], q);
    }
  }

  /** The registration with this child is unique, and its handler is the one that a move runs. */
  lemma RunIsTheRegistration(s: Sys, m: Move, p: nat, i: nat)
    requires Inv(s) && Possible(s, m) && Runs(s, m).Some? && p < |s.promises| && i < |s.promises[p].past.thens|
    requires Runs(s, m).value.1.child == s.promises[p].past.thens[i].child
    ensures Runs(s, m).value == (p, s.promises[p].past.thens[i])
    ensures !s.promises[p].status.Pending?
  {
    RunsTheNext(s, m);
    var q, h := Runs(s, m).value.0, Runs(s, m).value.1;
    assert Kept(s, p) && Kept(s, q);
    assert Born(s, p, i) && Born(s, q, |s.promises[q].past.ran|);
  }

  /** What a `then` comes to: whenever, after any run, the loop runs the handler it registered, the promise has
      settled by then, and the promise that `then` returned takes the outcome over if the call gave no function for
      it, or else gets what that function, given the value, returns or throws. */
  lemma ThenCallsItsFunction(s: Sys, script: Script, p: nat, f: Option<nat>, g: Option<nat>, moves: seq<Move>, m: Move)
    requires Inv(s) && s.active.Idle? && p < |s.promises|
    requires Inv(Do(s, Then(p, f, g))) && CanRun(Do(s, Then(p, f, g)), script, moves)
    requires var n := After(Do(s, Then(p, f, g)), script, moves);
      Possible(n, m) && Runs(n, m).Some? && Runs(n, m).value.1.child == |s.promises|
    ensures var n, c := After(Do(s, Then(p, f, g)), script, moves), |s.promises|;
      && p < |n.promises| && !n.promises[p].status.Pending? && c < |Moved(n, script, m).promises|
      && var on, became := n.promises[p].status, Moved(n, script, m).promises[c].status;
         var chosen := if on.Fulfilled? then f else g;
         && (chosen.None? ==> became == on)
         && (chosen.Some? ==>
               match script(chosen.value, on.value).result
               case Returns(v) =>
                 && (!v.Ref? ==> became == Fulfilled(v))
                 && (v == Ref(c) ==> became == Rejected(CycleError))
               case Throws(v) =>
                 && became.Rejected? && (became.value.Condition? || became.value.CycleError?)
                 && (v.Condition? || v.CycleError? ==> became.value == v))
  {
    var made, i := Do(s, Then(p, f, g)), |s.promises[p].past.thens|;
    ThenRegisters(s, p, f, g);
    ThensStay(made, script, moves, p);
    var n := After(made, script, moves);
    assert n.promises[p].past.thens[i] == made.promises[p].past.thens[i];
    RunIsTheRegistration(n, m, p, i);
    RunSettlesChild(n, script, m);
  }

  // ----- Bodies -----

  /** At some point between `s` and `n` this operation was done, and nothing it did is gone. */
  ghost predicate DoneBetween(s: Sys, op: Op, n: Sys) {
    exists mid :: Grows(s, mid) && Inv(mid) && Grows(Do(mid, op), n)
  }

  lemma {:induction false} AllAreDone(s: Sys, ops: seq<Op>, i: nat)
    requires Inv(s) && MayAct(s) && i < |ops|
    ensures DoneBetween(s, ops[i], DoAll(s, ops))
    decreases |ops|
  {
    var n := DoAll(s, ops);
    DoKeeps(s, ops[0]);
    DoAllKeeps(Do(s, ops[0]), ops[1..]);
    if i == 0 {
      assert Grows(s, s) && Inv(s) && Grows(Do(s, ops[0]), n);
    } else {
      AllAreDone(Do(s, ops[0]), ops[1..], i - 1);
      var mid :| Grows(Do(s, ops[0]), mid) && Inv(mid) && Grows(Do(mid, ops[i]), n);
      GrowsOn(s, Do(s, ops[0]), mid);
    }
  }

  /** A callback queued by `later` does everything its body says. */
  lemma CallbackDoesItsBody(s: Sys, script: Script, i: nat)
    requires Inv(s) && s.active.Idle? && s.tasks != [] && s.tasks[0].Run?
    requires i < |script(s.tasks[0].k, Data(0)).ops|
    ensures DoneBetween(s.(tasks := s.tasks[1..]), script(s.tasks[0].k, Data(0)).ops[i], Moved(s, script, Pop))
  {
    hide Tracked, Children;
    PoppedRunKeeps(s);
    AllAreDone(s.(tasks := s.tasks[1..]), script(s.tasks[0].k, Data(0)).ops, i);
  }
  /** So does a handler: its body is done in full before the promise of its `then` settles, in the state in which the
      callback has been taken from the queue and the handler's promise can no longer be resolved by others. */
  lemma HandlerDoesItsBody(s: Sys, script: Script, m: Move, k: nat, i: nat) returns (called: Sys)
    requires Inv(s) && Possible(s, m) && Runs(s, m).Some? && Runs(s, m).value.1.action.User?
    requires Runs(s, m).value.0 < |s.promises| && !s.promises[Runs(s, m).value.0].status.Pending?
    requires var on, action := s.promises[Runs(s, m).value.0].status, Runs(s, m).value.1.action;
      (if on.Fulfilled? then action.onFulfilled else action.onRejected) == Some(k)
    requires i < |script(k, s.promises[Runs(s, m).value.0].status.value).ops|
    ensures |called.promises| == |s.promises| && called.tasks == if m.Pop? then s.tasks[1..] else s.tasks
    ensures var v := s.promises[Runs(s, m).value.0].status.value;
      DoneBetween(called, script(k, v).ops[i], Moved(s, script, m))
  {
    hide Sensible, Tracked, Children, NoParent, Deliver, Grows;
    var q, h := Runs(s, m).value.0, Runs(s, m).value.1;
    var noted := RunsReady(s, script, m);
    called := Call(noted, h.child);
    CallKeeps(noted, h.child);
    DeliverDoesBody(called, script, h.child, k, noted.promises[q].status.value, i);
  }

  lemma DeliverDoesBody(s: Sys, script: Script, c: nat, k: nat, v: Value, i: nat)
    requires Inv(s) && MayAct(s) && Held(s, c) && i < |script(k, v).ops|
    ensures DoneBetween(s, script(k, v).ops[i], Deliver(s, script, c, k, v))
  {
    hide Inv, MayAct, DoAll, DoResolve, DoReject, Grows, Do;
    var body := script(k, v);
    var n := DoAll(s, body.ops);
    AllAreDone(s, body.ops, i);
    DoAllKeeps(s, body.ops);
    assert Held(n, c);
    match body.result {
      case Returns(w) => ResolveGrows(n, c, Known(n, w));
      case Throws(w) => RejectGrows(n, c, Signalled(w));
    }
    var mid :| Grows(s, mid) && Inv(mid) && Grows(Do(mid, body.ops[i]), n);
    GrowsOn(Do(mid, body.ops[i]), n, Deliver(s, script, c, k, v));
  }
}
