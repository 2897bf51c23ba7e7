/** Runs of the proxies are finite, never get stuck half-way unless a message
    handler has panicked, and panic exactly when a transaction must fetch from
    another proxy an object whose producer the serial run skips. */
module Progress {
  import opened Types
  import opened Protocol
  import opened ProtocolInvariant
  import opened ProtocolSteps
  import opened ProtocolKeeps

  // ------------------------------------------------- no deadlock

  /** Two handles created for the same key are the same handle. */
  lemma {:induction false} SameKeySameHandle(s: State, a: nat, b: nat)
    requires TableInv(s) && a < |s.alloc| && b < |s.alloc| && s.alloc[a] == s.alloc[b]
    ensures a == b
  {
  }

  /** A task that must wait for a completed transaction on its own proxy holds the
      very handle that transaction notified. */
  lemma {:induction false} LocalWaitFires(job: Job, ser: Serial, s: State, x: Slot)
    requires Explains(job, ser) && Inv(job, ser, s) && IsSlot(job, x) && !Remote(job, x)
    requires Prev(ser, x) >= 0 && PrevSlot(ser, x) in s.notified && x in s.prior && x !in s.waited
    ensures s.prior[x] in s.permits
  {
    assert SlotExplained(job, ser, x) && SlotInv(job, ser, s, x) && SlotInv(job, ser, s, PrevSlot(ser, x));
    SameKeySameHandle(s, s.prior[x], s.next[PrevSlot(ser, x)]);
  }

  /** The transaction that a step belongs to. */
  function TxnOf(a: Action): nat
  {
    match a
    case Start(i) => i
    case Wait(i, _) => i
    case Check(i) => i
    case Execute(i) => i
    case _ => a.sl.i
  }

  predicate IsTaskStep(a: Action)
  {
    a.Start? || a.RegisterPrior? || a.RegisterNext? || a.Wait? || a.Check? || a.Execute? || a.Notify?
  }

  /** If `x` is fetched, the message handlers of both proxies are alive. */
  predicate FetchIsOpen(job: Job, s: State, x: Slot)
    requires WellShaped(job) && IsSlot(job, x)
  {
    Remote(job, x) ==> job.owner[x.i][x.o].value !in s.crashed && job.route[x.i] !in s.crashed
  }

  /** The next step of a state request whose producer has completed. */
  lemma {:induction false} RequestMoves(job: Job, ser: Serial, s: State, x: Slot) returns (a: Action)
    requires Explains(job, ser) && Inv(job, ser, s) && IsSlot(job, x) && Remote(job, x) && x in s.reqs
    requires Prev(ser, x) >= 0 && PrevSlot(ser, x) in s.notified && !s.reqs[x].Closed? && FetchIsOpen(job, s, x)
    ensures Enabled(job, s, a) && !IsTaskStep(a) && a.sl == x
    ensures a.Panic? ==> !Ok(ser, Prev(ser, x))
  {
    assert SlotExplained(job, ser, x) && SlotInv(job, ser, s, x) && SlotInv(job, ser, s, PrevSlot(ser, x));
    match s.reqs[x]
    case Sent => a := Serve(x);
    case Serving(h) =>
      SameKeySameHandle(s, h, s.next[PrevSlot(ser, x)]);
      a := Answer(x);
    case Replied(reply) => a := if reply.Some? then Accept(x) else Panic(x);
    case Accepted(_, _) => a := Commit(x);
    case Committed(_) => a := Close(x);
  }

  /** The transaction before `x`'s on its object has notified, and a fetch is not cut off. */
  ghost predicate CanProceed(job: Job, ser: Serial, s: State, x: Slot)
    requires WellShaped(job) && IsSlot(job, x)
  {
    (Prev(ser, x) >= 0 ==> PrevSlot(ser, x) in s.notified) && FetchIsOpen(job, s, x)
  }

  /** The first wait a registered task has not passed can make progress once the
      transaction before it has completed. */
  lemma {:induction false} WaitMoves(job: Job, ser: Serial, s: State, i: nat, k: nat) returns (a: Action)
    requires Explains(job, ser) && Inv(job, ser, s)
    requires i < |job.txns| && i in s.started && Registered(job, s, i) && k < |job.txns[i].inputs|
    requires CanProceed(job, ser, s, Slot(i, job.txns[i].inputs[k]))
    requires Awaits(job, Slot(i, job.txns[i].inputs[k])) && Slot(i, job.txns[i].inputs[k]) !in s.waited
    requires forall m :: 0 <= m < k ==>
      Awaits(job, Slot(i, job.txns[i].inputs[m])) ==> Slot(i, job.txns[i].inputs[m]) in s.waited
    ensures Enabled(job, s, a) && !a.Start? && TxnOf(a) == i
    ensures a.Panic? ==> !Ok(ser, Prev(ser, a.sl))
  {
    var x := Slot(i, job.txns[i].inputs[k]);
    assert SlotExplained(job, ser, x) && SlotInv(job, ser, s, x);
    if !Remote(job, x) {
      LocalWaitFires(job, ser, s, x);
      a := Wait(i, k);
    } else if s.reqs[x].Closed? {
      SameKeySameHandle(s, s.prior[x], s.reqs[x].h);
      a := Wait(i, k);
    } else {
      a := RequestMoves(job, ser, s, x);
    }
  }

  /** The first wait that the task of `i` has not passed, if there is one. */
  lemma {:induction false} FirstWait(job: Job, s: State, i: nat) returns (k: nat)
    requires WellShaped(job) && i < |job.txns|
    ensures k <= |job.txns[i].inputs|
    ensures k < |job.txns[i].inputs| ==>
      Awaits(job, Slot(i, job.txns[i].inputs[k])) && Slot(i, job.txns[i].inputs[k]) !in s.waited
    ensures forall m :: 0 <= m < k ==>
      Awaits(job, Slot(i, job.txns[i].inputs[m])) ==> Slot(i, job.txns[i].inputs[m]) in s.waited
  {
    k := 0;
    while k < |job.txns[i].inputs|
      invariant k <= |job.txns[i].inputs|
      invariant forall m :: 0 <= m < k ==>
        Awaits(job, Slot(i, job.txns[i].inputs[m])) ==> Slot(i, job.txns[i].inputs[m]) in s.waited
    {
      if Awaits(job, Slot(i, job.txns[i].inputs[k])) && Slot(i, job.txns[i].inputs[k]) !in s.waited {
        return;
      }
      k := k + 1;
    }
  }

  /** A transaction that is not complete has a step to take once the transactions it
      waits for have completed and none of its fetches is cut off, whatever happened to
      the other proxies. */
  lemma {:induction false} TaskMoves(job: Job, ser: Serial, s: State, i: nat) returns (a: Action)
    requires Explains(job, ser) && Inv(job, ser, s) && i < |job.txns| && !Completed(job, s, i)
    requires forall o :: o in job.txns[i].inputs ==> CanProceed(job, ser, s, Slot(i, o))
    ensures Enabled(job, s, a) && TxnOf(a) == i
    ensures a.Panic? ==> !Ok(ser, Prev(ser, a.sl))
  {
    if i !in s.started {
      return Start(i);
    }
    if o :| o in job.txns[i].inputs && Slot(i, o) !in s.next {
      return RegisterNext(Slot(i, o));
    }
    if o :| o in job.txns[i].inputs && Awaits(job, Slot(i, o)) && Slot(i, o) !in s.prior {
      return RegisterPrior(Slot(i, o));
    }
    var k := FirstWait(job, s, i);
    if k < |job.txns[i].inputs| {
      a := WaitMoves(job, ser, s, i, k);
      return;
    }
    if i !in s.checked {
      return Check(i);
    }
    if i !in s.done {
      return Execute(i);
    }
    var o :| o in job.txns[i].inputs && Slot(i, o) !in s.notified;
    return Notify(Slot(i, o));
  }

  /** The earliest transaction that is not complete always has a step to take. */
  lemma {:induction false} EarliestMoves(job: Job, ser: Serial, s: State, i: nat) returns (a: Action)
    requires Explains(job, ser) && Inv(job, ser, s) && s.crashed == {}
    requires i < |job.txns| && !Completed(job, s, i)
    requires forall j: nat :: j < i ==> Completed(job, s, j)
    ensures Enabled(job, s, a) && TxnOf(a) == i
  {
    forall o | o in job.txns[i].inputs ensures CanProceed(job, ser, s, Slot(i, o)) {
      assert SlotExplained(job, ser, Slot(i, o));
      if Prev(ser, Slot(i, o)) >= 0 {
        assert Completed(job, s, Prev(ser, Slot(i, o)));
      }
    }
    a := TaskMoves(job, ser, s, i);
  }

  lemma {:induction false} EarliestIncomplete(job: Job, s: State, n: nat) returns (i: nat)
    requires n < |job.txns| && !Completed(job, s, n)
    ensures i <= n && !Completed(job, s, i) && forall j: nat :: j < i ==> Completed(job, s, j)
  {
    if j: nat :| j < n && !Completed(job, s, j) {
      i := EarliestIncomplete(job, s, j);
    } else {
      i := n;
    }
  }

  /** Without a panic, the proxies stop only when every transaction is complete. */
  lemma {:induction false} NoDeadlock(job: Job, ser: Serial, s: State)
    requires Explains(job, ser) && Reachable(job, s) && Stuck(job, s) && s.crashed == {}
    ensures AllCompleted(job, s)
  {
    ReachableKeeps(job, ser, s);
    if n: nat :| n < |job.txns| && !Completed(job, s, n) {
      var i := EarliestIncomplete(job, s, n);
      var a := EarliestMoves(job, ser, s, i);
      assert false;
    }
  }

  // ------------------------------------------------- longer runs

  lemma {:induction false} InitIsReachable(job: Job)
    requires WellShaped(job)
    ensures Reachable(job, Init(job))
  {
    assert IsRun(job, [], [Init(job)]);
  }

  lemma {:induction false} RunExtends(job: Job, acts: seq<Action>, states: seq<State>, a: Action)
    requires WellShaped(job) && IsRun(job, acts, states) && Enabled(job, states[|acts|], a)
    ensures var t := Apply(job, states[|acts|], a);
            IsRun(job, acts + [a], states + [t]) && (states + [t])[|acts + [a]|] == t
  {
    var acts', states' := acts + [a], states + [Apply(job, states[|acts|], a)];
    forall n | 0 <= n < |acts'|
      ensures Enabled(job, states'[n], acts'[n]) && states'[n + 1] == Apply(job, states'[n], acts'[n])
    {
      assert n < |acts| ==> acts'[n] == acts[n] && states'[n] == states[n] && states'[n + 1] == states[n + 1];
    }
  }

  lemma {:induction false} StepStaysReachable(job: Job, s: State, a: Action)
    requires WellShaped(job) && Reachable(job, s) && Enabled(job, s, a)
    ensures Reachable(job, Apply(job, s, a))
  {
    var acts, states :| IsRun(job, acts, states) && states[|acts|] == s;
    RunExtends(job, acts, states, a);
  }

  // ------------------------------------------------- termination

  /** Every step the proxies could ever take. */
  function AllActions(job: Job): set<Action>
  {
    var slots := set i, k | 0 <= i < |job.txns| && 0 <= k < |job.txns[i].inputs| :: Slot(i, job.txns[i].inputs[k]);
    (set i: nat | 0 <= i < |job.txns| :: Start(i)) + (set i: nat | 0 <= i < |job.txns| :: Check(i))
    + (set i: nat | 0 <= i < |job.txns| :: Execute(i))
    + (set i: nat, k: nat | 0 <= i < |job.txns| && 0 <= k < |job.txns[i].inputs| :: Wait(i, k))
    + (set sl | sl in slots :: RegisterPrior(sl)) + (set sl | sl in slots :: RegisterNext(sl))
    + (set sl | sl in slots :: Notify(sl)) + (set sl | sl in slots :: Serve(sl)) + (set sl | sl in slots :: Answer(sl))
    + (set sl | sl in slots :: Accept(sl)) + (set sl | sl in slots :: Panic(sl))
    + (set sl | sl in slots :: Commit(sl)) + (set sl | sl in slots :: Close(sl))
  }

  /** Step `a` lies behind state `s` and can never be taken again. */
  predicate Taken(job: Job, s: State, a: Action)
  {
    match a
    case Start(i) => i in s.started
    case RegisterPrior(sl) => sl in s.prior
    case RegisterNext(sl) => sl in s.next
    case Wait(i, k) => i < |job.txns| && k < |job.txns[i].inputs| && Slot(i, job.txns[i].inputs[k]) in s.waited
    case Check(i) => i in s.checked
    case Execute(i) => i in s.done
    case Notify(sl) => sl in s.notified
    case Serve(sl) => sl in s.reqs && !s.reqs[sl].Sent?
    case Answer(sl) => sl in s.reqs && Answered(s.reqs[sl])
    case Accept(sl) => sl in s.reqs && HoldsReplyHandle(s.reqs[sl])
    case Panic(sl) => sl in s.reqs && s.reqs[sl].Dropped?
    case Commit(sl) => sl in s.reqs && Arrived(s.reqs[sl])
    case Close(sl) => sl in s.reqs && s.reqs[sl].Closed?
  }

  function Remaining(job: Job, s: State): (r: set<Action>)
    ensures r <= AllActions(job)
  {
    set a | a in AllActions(job) && !Taken(job, s, a)
  }

  lemma {:induction false} TaskStepTakenOnce(job: Job, s: State, a: Action)
    requires WellShaped(job) && Phases(job, s) && Enabled(job, s, a) && IsTaskStep(a)
    ensures !Taken(job, s, a) && Taken(job, Apply(job, s, a), a)
  {
  }

  lemma {:induction false} RequestStepTakenOnce(job: Job, s: State, a: Action)
    requires WellShaped(job) && Phases(job, s) && Enabled(job, s, a) && !IsTaskStep(a)
    ensures !Taken(job, s, a) && Taken(job, Apply(job, s, a), a)
  {
  }

  lemma {:induction false} IsPossibleAction(job: Job, s: State, a: Action)
    requires WellShaped(job) && Enabled(job, s, a)
    ensures a in AllActions(job)
  {
    if !a.Start? && !a.Wait? && !a.Check? && !a.Execute? {
      var k :| 0 <= k < |job.txns[a.sl.i].inputs| && job.txns[a.sl.i].inputs[k] == a.sl.o;
      assert a.sl == Slot(a.sl.i, job.txns[a.sl.i].inputs[k]);
    }
  }

  lemma {:induction false} TakenOnce(job: Job, s: State, a: Action)
    requires WellShaped(job) && Phases(job, s) && Enabled(job, s, a)
    ensures a in AllActions(job) && !Taken(job, s, a) && Taken(job, Apply(job, s, a), a)
  {
    IsPossibleAction(job, s, a);
    if IsTaskStep(a) {
      TaskStepTakenOnce(job, s, a);
    } else {
      RequestStepTakenOnce(job, s, a);
    }
  }

  lemma {:induction false} TakenTaskStepStays(job: Job, s: State, a: Action, b: Action)
    requires WellShaped(job) && Phases(job, s) && Enabled(job, s, a) && Taken(job, s, b) && IsTaskStep(b)
    ensures Taken(job, Apply(job, s, a), b)
  {
  }

  lemma {:induction false} OtherStepKeepsRequest(job: Job, s: State, a: Action, sl: Slot)
    requires WellShaped(job) && Phases(job, s) && Enabled(job, s, a) && sl in s.reqs
    requires IsTaskStep(a) || a.sl != sl
    ensures sl in Apply(job, s, a).reqs && Apply(job, s, a).reqs[sl] == s.reqs[sl]
  {
  }

  lemma {:induction false} OwnRequestStepStays(job: Job, s: State, a: Action, b: Action)
    requires WellShaped(job) && Enabled(job, s, a) && Taken(job, s, b)
    requires !IsTaskStep(a) && !IsTaskStep(b) && a.sl == b.sl
    ensures Taken(job, Apply(job, s, a), b)
  {
  }

  lemma {:induction false} TakenRequestStepStays(job: Job, s: State, a: Action, b: Action)
    requires WellShaped(job) && Phases(job, s) && Enabled(job, s, a) && Taken(job, s, b) && !IsTaskStep(b)
    ensures Taken(job, Apply(job, s, a), b)
  {
    if IsTaskStep(a) || a.sl != b.sl {
      OtherStepKeepsRequest(job, s, a, b.sl);
    } else {
      OwnRequestStepStays(job, s, a, b);
    }
  }

  lemma {:induction false} TakenStays(job: Job, s: State, a: Action, b: Action)
    requires WellShaped(job) && Phases(job, s) && Enabled(job, s, a) && Taken(job, s, b)
    ensures Taken(job, Apply(job, s, a), b)
  {
    if IsTaskStep(b) {
      TakenTaskStepStays(job, s, a, b);
    } else {
      TakenRequestStepStays(job, s, a, b);
    }
  }

  /** Every step uses up at least one of the finitely many possible steps. */
  lemma {:induction false} StepUsesUp(job: Job, s: State, a: Action)
    requires WellShaped(job) && Phases(job, s) && Enabled(job, s, a)
    ensures |Remaining(job, Apply(job, s, a))| < |Remaining(job, s)|
  {
    var t := Apply(job, s, a);
    TakenOnce(job, s, a);
    forall b | b in Remaining(job, t) ensures b in Remaining(job, s) - {a} {
      if Taken(job, s, b) {
        TakenStays(job, s, a, b);
      }
    }
    SubsetIsSmaller(Remaining(job, t), Remaining(job, s) - {a});
  }

  lemma {:induction false} SubsetIsSmaller<T>(a: set<T>, b: set<T>)
    requires a <= b
    ensures |a| <= |b|
  {
    if a != {} {
      var x :| x in a;
      SubsetIsSmaller(a - {x}, b - {x});
    }
  }

  lemma {:induction false} RunKeepsPhases(job: Job, ser: Serial, acts: seq<Action>, states: seq<State>, n: nat)
    requires Explains(job, ser) && IsRun(job, acts, states) && n <= |acts|
    ensures Phases(job, states[n])
  {
    RunKeeps(job, ser, acts, states, n);
  }

  lemma {:induction false} StepInRunUsesUp(job: Job, ser: Serial, acts: seq<Action>, states: seq<State>, n: nat)
    requires Explains(job, ser) && IsRun(job, acts, states) && n < |acts|
    ensures |Remaining(job, states[n + 1])| < |Remaining(job, states[n])|
  {
    RunKeepsPhases(job, ser, acts, states, n);
    StepUsesUp(job, states[n], acts[n]);
  }

  /** Numbers that go down at every place are as many as the first at most. */
  lemma {:induction false} Descends(measures: seq<int>, n: nat)
    requires n < |measures| && forall k :: 0 <= k < |measures| - 1 ==> measures[k + 1] < measures[k]
    ensures n + measures[n] <= measures[0]
  {
    if n > 0 {
      Descends(measures, n - 1);
      assert measures[n - 1 + 1] < measures[n - 1];
    }
  }

  /** No run is longer than the number of distinct steps: there is no livelock. */
  lemma {:induction false} RunsAreFinite(job: Job, ser: Serial, acts: seq<Action>, states: seq<State>)
    requires Explains(job, ser) && IsRun(job, acts, states)
    ensures |acts| <= |AllActions(job)|
  {
    var measures := seq(|states|, k requires 0 <= k < |states| => |Remaining(job, states[k])|);
    forall k | 0 <= k < |acts| ensures measures[k + 1] < measures[k] {
      StepInRunUsesUp(job, ser, acts, states, k);
    }
    Descends(measures, |acts|);
    SubsetIsSmaller(Remaining(job, states[0]), AllActions(job));
  }

  // ------------------------------------------------- panics

  lemma {:induction false} OnlyPanicCrashes(job: Job, s: State, a: Action)
    requires WellShaped(job) && Enabled(job, s, a)
    ensures Apply(job, s, a).crashed == if a.Panic? then s.crashed + {job.route[a.sl.i]} else s.crashed
  {
  }

  /** The message handler of proxy `p` has received an empty reply. */
  ghost predicate PanickedAt(job: Job, s: State, p: ProxyId)
    requires WellShaped(job)
  {
    exists sl :: IsSlot(job, sl) && job.route[sl.i] == p && sl in s.reqs && s.reqs[sl].Dropped?
  }

  /** A message handler that panicked had received an empty reply. */
  ghost predicate PanicsExplained(job: Job, s: State)
    requires WellShaped(job)
  {
    forall p :: p in s.crashed ==> PanickedAt(job, s, p)
  }

  lemma {:induction false} PanickedStays(job: Job, s: State, a: Action, p: ProxyId)
    requires WellShaped(job) && Phases(job, s) && Enabled(job, s, a) && PanickedAt(job, s, p)
    ensures PanickedAt(job, Apply(job, s, a), p)
  {
    var sl :| IsSlot(job, sl) && job.route[sl.i] == p && sl in s.reqs && s.reqs[sl].Dropped?;
    TakenStays(job, s, a, Panic(sl));
  }

  lemma {:induction false} StepKeepsPanics(job: Job, s: State, a: Action)
    requires WellShaped(job) && Phases(job, s) && PanicsExplained(job, s) && Enabled(job, s, a)
    ensures PanicsExplained(job, Apply(job, s, a))
  {
    var t := Apply(job, s, a);
    OnlyPanicCrashes(job, s, a);
    forall p | p in t.crashed ensures PanickedAt(job, t, p) {
      if p in s.crashed {
        PanickedStays(job, s, a, p);
      } else {
        assert IsSlot(job, a.sl) && t.reqs[a.sl].Dropped?;
      }
    }
  }

  lemma {:induction false} RunKeepsPanics(job: Job, ser: Serial, acts: seq<Action>, states: seq<State>, n: nat)
    requires Explains(job, ser) && IsRun(job, acts, states) && n <= |acts|
    ensures PanicsExplained(job, states[n])
  {
    if n > 0 {
      RunKeepsPanics(job, ser, acts, states, n - 1);
      RunKeeps(job, ser, acts, states, n - 1);
      StepKeepsPanics(job, states[n - 1], acts[n - 1]);
    }
  }

  lemma {:induction false} ReachableKeepsPanics(job: Job, ser: Serial, s: State)
    requires Explains(job, ser) && Reachable(job, s)
    ensures PanicsExplained(job, s)
  {
    var acts, states :| IsRun(job, acts, states) && states[|acts|] == s;
    RunKeepsPanics(job, ser, acts, states, |acts|);
  }

  /** Some transaction must fetch an object whose producer the serial run skips. */
  ghost predicate FetchesFromSkipped(job: Job, ser: Serial)
    requires Explains(job, ser)
  {
    exists sl :: IsSlot(job, sl) && Remote(job, sl) && !Ok(ser, Prev(ser, sl))
  }

  /** A transaction that fetches from a skipped producer finishes in no run. */
  lemma {:induction false} NeverFinishes(job: Job, ser: Serial, s: State, sl: Slot)
    requires Explains(job, ser) && Inv(job, ser, s)
    requires IsSlot(job, sl) && Remote(job, sl) && !Ok(ser, Prev(ser, sl))
    ensures sl.i !in s.done && !Completed(job, s, sl.i)
  {
    RemoteAwaits(job, ser, sl);
    assert SlotInv(job, ser, s, sl);
    if sl.i in s.done {
      DoneHasWaited(job, s, sl);
      assert false;
    }
  }

  /** A handler panics only on the reply to a fetch from a skipped producer. */
  lemma {:induction false} DroppedIsFromSkipped(job: Job, ser: Serial, s: State, sl: Slot)
    requires Explains(job, ser) && Phases(job, s) && SlotInv(job, ser, s, sl)
    requires IsSlot(job, sl) && sl in s.reqs && s.reqs[sl].Dropped?
    ensures Remote(job, sl) && !Ok(ser, Prev(ser, sl))
  {
    RemoteAwaits(job, ser, sl);
  }

  /** When nobody fetches from a skipped producer, no message handler ever panics. */
  lemma {:induction false} NoPanic(job: Job, ser: Serial, s: State)
    requires Explains(job, ser) && Inv(job, ser, s) && PanicsExplained(job, s) && !FetchesFromSkipped(job, ser)
    ensures s.crashed == {}
  {
    if p :| p in s.crashed {
      var sl :| IsSlot(job, sl) && job.route[sl.i] == p && sl in s.reqs && s.reqs[sl].Dropped?;
      DroppedIsFromSkipped(job, ser, s, sl);
      assert false;
    }
  }

  /** Every maximal run completes every transaction if and only if nobody fetches
      from a skipped producer. The left side speaks of the proxies, the right side
      of the commit sequence, its verification verdicts and the routing alone. */
  lemma {:induction false} CompletesExactlyWhenFetchable(job: Job, ser: Serial, s: State)
    requires Explains(job, ser) && Reachable(job, s) && Stuck(job, s)
    ensures AllCompleted(job, s) <==> !FetchesFromSkipped(job, ser)
  {
    ReachableKeeps(job, ser, s);
    if FetchesFromSkipped(job, ser) {
      var sl :| IsSlot(job, sl) && Remote(job, sl) && !Ok(ser, Prev(ser, sl));
      NeverFinishes(job, ser, s, sl);
    } else {
      ReachableKeepsPanics(job, ser, s);
      NoPanic(job, ser, s);
      NoDeadlock(job, ser, s);
    }
  }
}
