/** What one panic can stop. A message handler that dies stops its proxy from serving
    and taking fetches, and nothing else. Which transactions complete in some run, and
    which complete in every run, are properties of the commit sequence, its verdicts and
    the routing alone. */
module Containment {
  import opened Types
  import opened Protocol
  import opened ProtocolInvariant
  import opened ProtocolSteps
  import opened ProtocolKeeps
  import opened Progress
  import opened SerialExecution
  import opened Determinism

  // ------------------------------------------------- the conditions

  /** `a` is `i`, or a transaction that `i` waits for, directly or through others. */
  ghost predicate DependsOn(txns: seq<Txn>, i: nat, a: nat)
    requires i < |txns|
    decreases i
  {
    a == i || exists o :: o in txns[i].inputs && LastToucher(txns, i, o) >= 0
                          && DependsOn(txns, LastToucher(txns, i, o), a)
  }

  /** `x`'s object was last touched on another proxy. */
  predicate IsFetch(w: Workload, x: Slot)
    requires ValidWorkload(w)
  {
    && x.i < |w.txns| && x.o in w.txns[x.i].inputs
    && var j := LastToucher(w.txns, x.i, x.o);
    && j >= 0 && w.route[j] != w.route[x.i]
  }

  /** The transaction whose output `x` fetches. */
  function Source(w: Workload, x: Slot): nat
    requires ValidWorkload(w) && IsFetch(w, x)
  {
    LastToucher(w.txns, x.i, x.o)
  }

  /** `i`, or something it waits for, must fetch from a doomed transaction. */
  ghost predicate NeedsSkipped(w: Workload, i: nat)
    requires ValidWorkload(w) && i < |w.txns|
  {
    exists x: Slot ::
      IsFetch(w, x) && DependsOn(w.txns, i, x.i) && Doomed(w.txns, w.init, Source(w, x))
  }

  /** The reply to the fetch `sl` can kill the handler that receives it. */
  ghost predicate CanPanic(w: Workload, sl: Slot)
    requires ValidWorkload(w)
  {
    IsFetch(w, sl) && Doomed(w.txns, w.init, Source(w, sl)) && !NeedsSkipped(w, Source(w, sl))
  }

  /** The panic on `sl` can happen before the fetch `x` is served or taken: it kills the
      handler at one of `x`'s two proxies, and does not wait for `x`'s transaction. The
      two may be the same fetch. */
  ghost predicate CanStop(w: Workload, x: Slot, sl: Slot)
    requires ValidWorkload(w)
  {
    && IsFetch(w, x) && CanPanic(w, sl) && !DependsOn(w.txns, Source(w, sl), x.i)
    && (w.route[sl.i] == w.route[x.i] || w.route[sl.i] == w.route[Source(w, x)])
  }

  ghost predicate CanBeStopped(w: Workload, i: nat)
    requires ValidWorkload(w) && i < |w.txns|
  {
    exists x, sl :: CanStop(w, x, sl) && DependsOn(w.txns, i, x.i)
  }

  lemma {:induction false} DependenciesAreEarlier(txns: seq<Txn>, i: nat, a: nat)
    requires i < |txns| && DependsOn(txns, i, a)
    ensures a <= i
    decreases i
  {
    if a != i {
      var o :| o in txns[i].inputs && LastToucher(txns, i, o) >= 0 && DependsOn(txns, LastToucher(txns, i, o), a);
      DependenciesAreEarlier(txns, LastToucher(txns, i, o), a);
    }
  }

  // ------------------------------------------------- the messages fit the conditions

  /** The job comes from the workload, and its serial run skips the doomed transactions. */
  ghost predicate Fits(w: Workload, job: Job, ser: Serial)
  {
    && Explains(job, ser) && ValidWorkload(w) && job.txns == w.txns && job.route == w.route
    && forall j: nat {:trigger Ok(ser, j)} :: j < |w.txns| ==> (Ok(ser, j) <==> !Doomed(w.txns, w.init, j))
  }

  lemma {:induction false} DescribedFits(w: Workload, job: Job, ser: Serial)
    requires Describes(w, job, ser)
    ensures Fits(w, job, ser)
  {
    DescribedIsExplained(w, job, ser);
    forall j: nat | j < |w.txns| ensures Ok(ser, j) <==> !Doomed(w.txns, w.init, j) {
      SkippedIsDoomed(w.txns, w.init, j);
      assert ser.ok[j] <==> SerialOk(w.txns, w.init, j);
    }
  }

  lemma {:induction false} PreviousIsLastToucher(job: Job, ser: Serial, x: Slot)
    requires Explains(job, ser) && IsSlot(job, x)
    ensures Prev(ser, x) == LastToucher(job.txns, x.i, x.o)
  {
    var j := LastToucher(job.txns, x.i, x.o);
    assert SlotExplained(job, ser, x);
    assert j >= 0 ==> IsSlot(job, Slot(j, x.o));
  }

  lemma {:induction false} FetchIsRemote(w: Workload, job: Job, ser: Serial, x: Slot)
    requires Fits(w, job, ser) && IsSlot(job, x)
    ensures Remote(job, x) <==> IsFetch(w, x)
    ensures IsFetch(w, x) ==> Prev(ser, x) == Source(w, x) && job.owner[x.i][x.o].value == w.route[Source(w, x)]
  {
    PreviousIsLastToucher(job, ser, x);
    assert SlotExplained(job, ser, x);
  }

  // ------------------------------------------------- what has completed

  /** Whatever a finished transaction waited for has finished. */
  lemma {:induction false} DependenciesAreDone(job: Job, ser: Serial, s: State, i: nat, a: nat)
    requires Explains(job, ser) && Inv(job, ser, s) && i < |job.txns| && i in s.done && DependsOn(job.txns, i, a)
    ensures a in s.done
    decreases i
  {
    if a != i {
      var o :| o in job.txns[i].inputs && LastToucher(job.txns, i, o) >= 0
        && DependsOn(job.txns, LastToucher(job.txns, i, o), a);
      PreviousIsLastToucher(job, ser, Slot(i, o));
      PreviousIsFinished(job, ser, s, Slot(i, o));
      DependenciesAreDone(job, ser, s, LastToucher(job.txns, i, o), a);
    }
  }

  /** A transaction that waits for a doomed fetch finishes in no run. */
  lemma {:induction false} SkippedIsNeverDone(w: Workload, job: Job, ser: Serial, s: State, i: nat)
    requires Fits(w, job, ser) && Inv(job, ser, s) && i < |w.txns| && NeedsSkipped(w, i)
    ensures i !in s.done
  {
    var x: Slot :| IsFetch(w, x) && DependsOn(w.txns, i, x.i) && Doomed(w.txns, w.init, Source(w, x));
    FetchIsRemote(w, job, ser, x);
    NeverFinishes(job, ser, s, x);
    if i in s.done {
      DependenciesAreDone(job, ser, s, i, x.i);
    }
  }

  /** Among what an incomplete transaction waits for, one is incomplete with nothing
      incomplete before it. */
  lemma {:induction false} FirstIncomplete(job: Job, ser: Serial, s: State, i: nat) returns (k: nat)
    requires Explains(job, ser) && i < |job.txns| && !Completed(job, s, i)
    ensures k < |job.txns| && DependsOn(job.txns, i, k) && !Completed(job, s, k)
    ensures forall o :: o in job.txns[k].inputs && Prev(ser, Slot(k, o)) >= 0 ==>
              PrevSlot(ser, Slot(k, o)) in s.notified
    decreases i
  {
    if o :| o in job.txns[i].inputs && Prev(ser, Slot(i, o)) >= 0 && PrevSlot(ser, Slot(i, o)) !in s.notified {
      PreviousIsLastToucher(job, ser, Slot(i, o));
      assert SlotExplained(job, ser, Slot(i, o));
      k := FirstIncomplete(job, ser, s, LastToucher(job.txns, i, o));
    } else {
      k := i;
    }
  }

  // ------------------------------------------------- a run that completes a transaction

  lemma {:induction false} OnlyOwnStarts(job: Job, s: State, a: Action)
    requires WellShaped(job) && Enabled(job, s, a)
    ensures forall k :: k in Apply(job, s, a).started ==> k in s.started || k == TxnOf(a)
  {
  }

  lemma {:induction false} FetchesExecuted(w: Workload, job: Job, ser: Serial, i: nat, sl: Slot)
    requires Fits(w, job, ser) && i < |w.txns| && !NeedsSkipped(w, i)
    requires IsSlot(job, sl) && Remote(job, sl) && DependsOn(w.txns, i, sl.i)
    ensures Ok(ser, Prev(ser, sl))
  {
    FetchIsRemote(w, job, ser, sl);
  }

  lemma {:induction false} PanicIsRemote(job: Job, s: State, a: Action)
    requires WellShaped(job) && Phases(job, s) && Enabled(job, s, a) && a.Panic?
    ensures IsSlot(job, a.sl) && Remote(job, a.sl)
  {
  }

  /** Without a panic so far, a transaction that needs no doomed fetch can be completed
      by steps of its own and of what it waits for, without a panic. */
  lemma {:induction false} RunsTo(w: Workload, job: Job, ser: Serial, s: State, i: nat) returns (t: State)
    requires Fits(w, job, ser) && Reachable(job, s) && s.crashed == {}
    requires i < |w.txns| && !NeedsSkipped(w, i)
    ensures Reachable(job, t) && t.crashed == {} && Completed(job, t, i)
    ensures forall k :: k in t.started ==> k in s.started || DependsOn(w.txns, i, k)
    decreases |Remaining(job, s)|
  {
    if Completed(job, s, i) {
      return s;
    }
    ReachableKeeps(job, ser, s);
    var k := FirstIncomplete(job, ser, s, i);
    var a := TaskMoves(job, ser, s, k);
    if a.Panic? {
      PanicIsRemote(job, s, a);
      FetchesExecuted(w, job, ser, i, a.sl);
      assert false;
    }
    OnlyPanicCrashes(job, s, a);
    OnlyOwnStarts(job, s, a);
    StepStaysReachable(job, s, a);
    StepUsesUp(job, s, a);
    t := RunsTo(w, job, ser, Apply(job, s, a), i);
  }

  /** Exactly the transactions that need no doomed fetch are complete in some run. */
  lemma {:induction false} CompletesInSomeRun(w: Workload, job: Job, ser: Serial, i: nat)
    requires Describes(w, job, ser) && i < |w.txns|
    ensures (exists s :: Reachable(job, s) && Completed(job, s, i)) <==> !NeedsSkipped(w, i)
  {
    DescribedFits(w, job, ser);
    if !NeedsSkipped(w, i) {
      InitIsReachable(job);
      var t := RunsTo(w, job, ser, Init(job), i);
    } else if s :| Reachable(job, s) && Completed(job, s, i) {
      ReachableKeeps(job, ser, s);
      SkippedIsNeverDone(w, job, ser, s, i);
      assert false;
    }
  }

  // ------------------------------------------------- a run that stops a transaction

  /** The fetch `x` can no longer be served, or no longer be taken. */
  ghost predicate Stopped(job: Job, s: State, x: Slot)
    requires WellShaped(job)
  {
    && IsSlot(job, x) && Remote(job, x)
    && (|| (job.owner[x.i][x.o].value in s.crashed && (x in s.reqs ==> s.reqs[x].Sent?))
        || (job.route[x.i] in s.crashed && (x in s.reqs ==> !HoldsReplyHandle(s.reqs[x]))))
  }

  /** No step of a task or of another request touches the request `x`, except to send it. */
  lemma {:induction false} OtherStepLeavesRequest(job: Job, s: State, a: Action, x: Slot)
    requires WellShaped(job) && Phases(job, s) && Enabled(job, s, a) && (IsTaskStep(a) || a.sl != x)
    ensures var t := Apply(job, s, a);
            if x in s.reqs then x in t.reqs && t.reqs[x] == s.reqs[x] else x in t.reqs ==> t.reqs[x].Sent?
  {
    if x in s.reqs {
      OtherStepKeepsRequest(job, s, a, x);
    }
  }

  lemma {:induction false} OwnStepKeepsStopped(job: Job, s: State, a: Action)
    requires WellShaped(job) && Enabled(job, s, a) && !IsTaskStep(a) && Stopped(job, s, a.sl)
    ensures Stopped(job, Apply(job, s, a), a.sl)
  {
  }

  lemma {:induction false} StoppedStays(job: Job, s: State, a: Action, x: Slot)
    requires WellShaped(job) && Phases(job, s) && Enabled(job, s, a) && Stopped(job, s, x)
    ensures Stopped(job, Apply(job, s, a), x)
  {
    if IsTaskStep(a) || a.sl != x {
      OtherStepLeavesRequest(job, s, a, x);
      OnlyPanicCrashes(job, s, a);
    } else {
      OwnStepKeepsStopped(job, s, a);
    }
  }

  lemma {:induction false} StoppedIsNotDone(job: Job, ser: Serial, s: State, x: Slot)
    requires Explains(job, ser) && Inv(job, ser, s) && Stopped(job, s, x)
    ensures x.i !in s.done
  {
    RemoteAwaits(job, ser, x);
    assert SlotInv(job, ser, s, x);
    if x.i in s.done {
      DoneHasWaited(job, s, x);
    }
  }

  /** Every run can be continued until nothing can move, and what is stopped stays so. */
  lemma {:induction false} RunsToRest(job: Job, ser: Serial, s: State, x: Slot) returns (t: State)
    requires Explains(job, ser) && Reachable(job, s)
    ensures Reachable(job, t) && Stuck(job, t) && (Stopped(job, s, x) ==> Stopped(job, t, x))
    decreases |Remaining(job, s)|
  {
    if Stuck(job, s) {
      return s;
    }
    var a :| Enabled(job, s, a);
    ReachableKeeps(job, ser, s);
    StepStaysReachable(job, s, a);
    StepUsesUp(job, s, a);
    if Stopped(job, s, x) {
      StoppedStays(job, s, a, x);
    }
    t := RunsToRest(job, ser, Apply(job, s, a), x);
  }

  lemma {:induction false} RequestStepIsLocal(job: Job, s: State, a: Action)
    requires WellShaped(job) && Enabled(job, s, a) && !IsTaskStep(a)
    ensures var t := Apply(job, s, a);
            && t.notified == s.notified
            && forall x :: x != a.sl ==> (x in t.reqs <==> x in s.reqs) && (x in s.reqs ==> t.reqs[x] == s.reqs[x])
  {
  }

  /** A fetch from a finished but skipped transaction ends in a panic by its own steps. */
  lemma {:induction false} Panics(job: Job, ser: Serial, s: State, sl: Slot) returns (t: State)
    requires Explains(job, ser) && Reachable(job, s) && s.crashed == {}
    requires IsSlot(job, sl) && Remote(job, sl) && sl in s.reqs
    requires Prev(ser, sl) >= 0 && PrevSlot(ser, sl) in s.notified && !Ok(ser, Prev(ser, sl))
    ensures Reachable(job, t) && job.route[sl.i] in t.crashed
    ensures forall x :: x != sl ==> (x in t.reqs <==> x in s.reqs) && (x in s.reqs ==> t.reqs[x] == s.reqs[x])
    decreases |Remaining(job, s)|
  {
    ReachableKeeps(job, ser, s);
    assert SlotInv(job, ser, s, sl);
    var a := RequestMoves(job, ser, s, sl);
    t := Apply(job, s, a);
    RequestStepIsLocal(job, s, a);
    OnlyPanicCrashes(job, s, a);
    StepStaysReachable(job, s, a);
    if !a.Panic? {
      StepUsesUp(job, s, a);
      OwnRequestStays(job, s, a);
      t := Panics(job, ser, t, sl);
    }
  }

  lemma {:induction false} OwnRequestStays(job: Job, s: State, a: Action)
    requires WellShaped(job) && Enabled(job, s, a) && !IsTaskStep(a)
    ensures a.sl in Apply(job, s, a).reqs
  {
  }

  lemma {:induction false} StartSends(job: Job, s: State, i: nat, x: Slot)
    requires WellShaped(job) && Phases(job, s) && Enabled(job, s, Start(i)) && IsSlot(job, x) && Remote(job, x)
    requires x.i !in s.started
    ensures var t := Apply(job, s, Start(i));
            (x in t.reqs <==> x.i == i) && (x in t.reqs ==> t.reqs[x].Sent?) && t.notified == s.notified
  {
    assert x == Slot(x.i, x.o);
  }

  /** From a state in which `sl`'s source is complete and `x` has not been sent, `sl`'s
      panic stops `x`. */
  lemma {:induction false} PanicStops(job: Job, ser: Serial, s: State, x: Slot, sl: Slot) returns (t: State)
    requires Explains(job, ser) && Reachable(job, s) && s.crashed == {}
    requires IsSlot(job, x) && Remote(job, x) && IsSlot(job, sl) && Remote(job, sl) && x != sl
    requires Prev(ser, sl) >= 0 && PrevSlot(ser, sl) in s.notified && !Ok(ser, Prev(ser, sl))
    requires sl.i !in s.started && x.i !in s.started
    requires job.route[sl.i] == job.route[x.i] || job.route[sl.i] == job.owner[x.i][x.o].value
    ensures Reachable(job, t) && Stopped(job, t, x)
  {
    ReachableKeeps(job, ser, s);
    StartSends(job, s, sl.i, sl);
    StartSends(job, s, sl.i, x);
    OnlyPanicCrashes(job, s, Start(sl.i));
    StepStaysReachable(job, s, Start(sl.i));
    t := Panics(job, ser, Apply(job, s, Start(sl.i)), sl);
  }

  /** The run in which `sl`'s panic comes before the fetch `x`: only what `sl`'s source
      waits for is run, then `sl` is fetched. */
  lemma {:induction false} StoppingRun(w: Workload, job: Job, ser: Serial, x: Slot, sl: Slot) returns (t: State)
    requires Fits(w, job, ser) && CanStop(w, x, sl) && x != sl
    ensures Reachable(job, t) && Stopped(job, t, x)
  {
    var j := Source(w, sl);
    InitIsReachable(job);
    var u := RunsTo(w, job, ser, Init(job), j);
    if sl.i in u.started {
      DependenciesAreEarlier(w.txns, j, sl.i);
    }
    FetchIsRemote(w, job, ser, sl);
    FetchIsRemote(w, job, ser, x);
    assert IsSlot(job, sl) && IsSlot(job, Slot(j, sl.o));
    t := PanicStops(job, ser, u, x, sl);
  }

  // ------------------------------------------------- who completes in every run

  lemma {:induction false} FinishedNotifies(job: Job, s: State, k: nat) returns (a: Action)
    requires WellShaped(job) && Phases(job, s) && k < |job.txns| && k in s.done && !Completed(job, s, k)
    ensures Enabled(job, s, a)
  {
    var o :| o in job.txns[k].inputs && Slot(k, o) !in s.notified;
    a := Notify(Slot(k, o));
  }

  /** When nothing can move, an incomplete transaction waits for a fetch to or from a
      proxy whose handler died, and the fetch's transaction has not finished. */
  lemma {:induction false} StuckWaitsForCrashed(w: Workload, job: Job, ser: Serial, s: State, i: nat)
    returns (x: Slot)
    requires Fits(w, job, ser) && Reachable(job, s) && Stuck(job, s)
    requires i < |w.txns| && !Completed(job, s, i)
    ensures IsFetch(w, x) && DependsOn(w.txns, i, x.i) && x.i !in s.done
    ensures w.route[x.i] in s.crashed || w.route[Source(w, x)] in s.crashed
  {
    ReachableKeeps(job, ser, s);
    var k := FirstIncomplete(job, ser, s, i);
    if k in s.done {
      var a := FinishedNotifies(job, s, k);
      assert false;
    }
    if o :| o in job.txns[k].inputs && !FetchIsOpen(job, s, Slot(k, o)) {
      x := Slot(k, o);
      FetchIsRemote(w, job, ser, x);
    } else {
      var a := TaskMoves(job, ser, s, k);
      assert false;
    }
  }

  lemma {:induction false} DroppedIsFromFinished(job: Job, ser: Serial, s: State, sl: Slot)
    requires Explains(job, ser) && Inv(job, ser, s) && IsSlot(job, sl) && sl in s.reqs && s.reqs[sl].Dropped?
    ensures Remote(job, sl) && Prev(ser, sl) >= 0 && !Ok(ser, Prev(ser, sl)) && Prev(ser, sl) in s.done
  {
    assert SlotInv(job, ser, s, sl);
    DroppedIsFromSkipped(job, ser, s, sl);
    RemoteAwaits(job, ser, sl);
    WaitedIsAfterPrevious(job, ser, s, sl);
  }

  lemma {:induction false} PanicHasCause(w: Workload, job: Job, ser: Serial, s: State, sl: Slot)
    requires Fits(w, job, ser) && Inv(job, ser, s) && IsSlot(job, sl) && sl in s.reqs && s.reqs[sl].Dropped?
    ensures CanPanic(w, sl) && Source(w, sl) in s.done
  {
    DroppedIsFromFinished(job, ser, s, sl);
    FetchIsRemote(w, job, ser, sl);
    if NeedsSkipped(w, Source(w, sl)) {
      SkippedIsNeverDone(w, job, ser, s, Source(w, sl));
    }
  }

  /** A crash was caused by a fetch that can panic, whose source has finished. */
  lemma {:induction false} CrashHasCause(w: Workload, job: Job, ser: Serial, s: State, p: ProxyId) returns (sl: Slot)
    requires Fits(w, job, ser) && Reachable(job, s) && p in s.crashed
    ensures CanPanic(w, sl) && w.route[sl.i] == p && Source(w, sl) in s.done
  {
    ReachableKeeps(job, ser, s);
    ReachableKeepsPanics(job, ser, s);
    assert PanickedAt(job, s, p);
    sl :| IsSlot(job, sl) && job.route[sl.i] == p && sl in s.reqs && s.reqs[sl].Dropped?;
    PanicHasCause(w, job, ser, s, sl);
  }

  /** An incomplete transaction in a state where nothing can move has been stopped. */
  lemma {:induction false} StuckIsStopped(w: Workload, job: Job, ser: Serial, s: State, i: nat)
    requires Fits(w, job, ser) && Reachable(job, s) && Stuck(job, s)
    requires i < |w.txns| && !Completed(job, s, i)
    ensures CanBeStopped(w, i)
  {
    var x := StuckWaitsForCrashed(w, job, ser, s, i);
    var p := if w.route[x.i] in s.crashed then w.route[x.i] else w.route[Source(w, x)];
    var sl := CrashHasCause(w, job, ser, s, p);
    ReachableKeeps(job, ser, s);
    if DependsOn(w.txns, Source(w, sl), x.i) {
      DependenciesAreDone(job, ser, s, Source(w, sl), x.i);
    }
    assert CanStop(w, x, sl);
  }

  /** A transaction that a panic can stop is incomplete at the end of some maximal run. */
  lemma {:induction false} StoppedInSomeRun(w: Workload, job: Job, ser: Serial, i: nat) returns (t: State)
    requires Fits(w, job, ser) && i < |w.txns| && CanBeStopped(w, i)
    ensures Reachable(job, t) && Stuck(job, t) && !Completed(job, t, i)
  {
    var x, sl :| CanStop(w, x, sl) && DependsOn(w.txns, i, x.i);
    if x == sl {
      InitIsReachable(job);
      t := RunsToRest(job, ser, Init(job), x);
      ReachableKeeps(job, ser, t);
      SkippedIsNeverDone(w, job, ser, t, i);
    } else {
      var u := StoppingRun(w, job, ser, x, sl);
      t := RunsToRest(job, ser, u, x);
      ReachableKeeps(job, ser, t);
      StoppedIsNotDone(job, ser, t, x);
      if i in t.done {
        DependenciesAreDone(job, ser, t, i, x.i);
      }
    }
  }

  /** Exactly the transactions that no panic can stop are complete at the end of every
      maximal run. */
  lemma {:induction false} CompletesInEveryRun(w: Workload, job: Job, ser: Serial, i: nat)
    requires Describes(w, job, ser) && i < |w.txns|
    ensures (forall s :: Reachable(job, s) && Stuck(job, s) ==> Completed(job, s, i)) <==> !CanBeStopped(w, i)
  {
    DescribedFits(w, job, ser);
    if CanBeStopped(w, i) {
      var t := StoppedInSomeRun(w, job, ser, i);
    } else {
      forall s | Reachable(job, s) && Stuck(job, s) ensures Completed(job, s, i) {
        if !Completed(job, s, i) {
          StuckIsStopped(w, job, ser, s, i);
        }
      }
    }
  }

  /** However many handlers died: when nothing can move, a transaction is complete unless
      a fetch that it waits for has a dead handler at one of its ends. */
  lemma {:induction false} PanicIsContained(w: Workload, job: Job, ser: Serial, s: State, i: nat)
    requires Describes(w, job, ser) && Reachable(job, s) && Stuck(job, s) && i < |w.txns|
    requires forall x: Slot :: IsFetch(w, x) && DependsOn(w.txns, i, x.i) ==>
               w.route[x.i] !in s.crashed && w.route[Source(w, x)] !in s.crashed
    ensures Completed(job, s, i)
  {
    DescribedFits(w, job, ser);
    if !Completed(job, s, i) {
      var x := StuckWaitsForCrashed(w, job, ser, s, i);
      assert false;
    }
  }

  /** An object whose last transaction no panic can stop ends as the serial run leaves it,
      whatever became of the others. */
  lemma {:induction false} ContainedObjectIsSerial(w: Workload, job: Job, ser: Serial, s: State, p: ProxyId,
      o: ObjectId)
    requires Describes(w, job, ser) && Reachable(job, s) && Stuck(job, s) && p < w.proxies
    requires var k := LastToucher(w.txns, |w.txns|, o); k >= 0 ==> !CanBeStopped(w, k)
    requires var j := LastWriter(w.txns, w.init, |w.txns|, o); j >= 0 ==> w.route[j] == p
    ensures var serial := SerialStore(w.txns, w.init, |w.txns|);
            && (Place(p, o) in s.store <==> o in serial)
            && (o in serial ==> s.store[Place(p, o)] == serial[o])
  {
    var k := LastToucher(w.txns, |w.txns|, o);
    if k >= 0 {
      CompletesInEveryRun(w, job, ser, k);
    }
    FinalStateIsSerial(w, job, ser, s, p, o);
  }

  // ------------------------------------------------- a race

  /** On one proxy a transaction fails its verification and another updates `b`; the
      other proxy needs the outputs of both. */
  function Race(a: ObjectId, b: ObjectId, run: BusinessLogic): (w: Workload)
    ensures ValidWorkload(w)
  {
    Workload([Txn([a], false, run), Txn([b], true, run), Txn([a], true, run), Txn([b], true, run)],
             map[a := CoinOf(0), b := CoinOf(0)], 2, [0, 0, 1, 1])
  }

  lemma {:induction false} RaceShares(a: ObjectId, b: ObjectId, run: BusinessLogic)
    requires a != b
    ensures var w := Race(a, b, run);
            && LastToucher(w.txns, 2, a) == 0 && LastToucher(w.txns, 3, b) == 1
            && LastToucher(w.txns, 1, b) == LastToucher(w.txns, 0, a) == -1
    ensures var w := Race(a, b, run); Doomed(w.txns, w.init, 0) && !Doomed(w.txns, w.init, 1)
  {
    var txns := Race(a, b, run).txns;
    assert LastToucher(txns, 2, b) == 1;
    assert b !in txns[0].inputs;
  }

  lemma {:induction false} RaceDependencies(a: ObjectId, b: ObjectId, run: BusinessLogic, k: nat)
    requires a != b
    ensures var txns := Race(a, b, run).txns;
            (DependsOn(txns, 3, k) <==> k == 3 || k == 1) && (DependsOn(txns, 0, k) <==> k == 0)
  {
    RaceShares(a, b, run);
    var txns := Race(a, b, run).txns;
    assert DependsOn(txns, 1, k) <==> k == 1;
    assert b in txns[3].inputs;
  }

  /** Whether a fetch completes can depend on the interleaving: the update of `b` reaches
      the other proxy in some runs, and is stopped by the panic over `a` in others. */
  lemma {:induction false} RaceDecides(a: ObjectId, b: ObjectId, run: BusinessLogic)
    requires a != b
    ensures !NeedsSkipped(Race(a, b, run), 3) && CanBeStopped(Race(a, b, run), 3)
  {
    var w := Race(a, b, run);
    RaceShares(a, b, run);
    forall k: nat ensures DependsOn(w.txns, 3, k) <==> k == 3 || k == 1 {
      RaceDependencies(a, b, run, k);
    }
    forall k: nat ensures DependsOn(w.txns, 0, k) <==> k == 0 {
      RaceDependencies(a, b, run, k);
    }
    assert CanStop(w, Slot(3, b), Slot(2, a));
  }
}
