/** The primary's forwarding pool: blocking FIFO workers that wait on the same
    kind of dependency handles as the proxies, keep the ownership map, and tell
    every transaction's proxy where to fetch its objects. */
module PrimaryPool {
  import opened Types
  import opened Protocol
  import opened ProtocolInvariant
  import opened ProtocolSteps
  import opened ProtocolKeeps
  import opened Progress
  import opened SerialExecution
  import HandleLifecycle

  /** The pool registers, waits, removes and notifies like a single proxy whose
      store is empty; its `Execute` step is the forwarding itself. */
  function PoolWorkload(w: Workload): Workload
  {
    Workload(w.txns, map[], 1, seq(|w.txns|, i => 0))
  }

  /** `core` is the dependency machinery, `arrived` the number of tasks dealt to the
      workers so far, `owners` the map from object versions to the proxies holding
      them, and `sent[i]` the owners reported to transaction `i`'s proxy. */
  datatype PoolState = PoolState(
    core: State,
    arrived: nat,
    owners: map<(ObjectId, Version), ProxyId>,
    sent: map<nat, map<ObjectId, Option<ProxyId>>>)

  datatype PoolAction = Deal | Step(a: Action)

  /** The owners that the forwarding of `required` reports, read off the map. */
  function Reported(owners: map<(ObjectId, Version), ProxyId>, required: map<ObjectId, Version>, p: ProxyId)
    : map<ObjectId, Option<ProxyId>>
  {
    map o | o in required ::
      if (o, required[o]) in owners && owners[(o, required[o])] != p then Some(owners[(o, required[o])]) else None
  }

  /** The map after forwarding: the new versions belong to `p`, the old ones to nobody. */
  function Moved(owners: map<(ObjectId, Version), ProxyId>, required: map<ObjectId, Version>, next: Version, p: ProxyId)
    : map<(ObjectId, Version), ProxyId>
  {
    (owners - set o | o in required :: (o, required[o])) + map o | o in required :: (o, next) := p
  }

  /** Tasks are dealt round robin, and a worker takes its next task only when it
      has finished all its earlier ones. */
  predicate WorkerIsFree(job: Job, workers: nat, s: State, i: nat)
    requires workers > 0
  {
    forall k: nat :: k < i && k < |job.txns| && k % workers == i % workers ==> Completed(job, s, k)
  }

  predicate PoolEnabled(w: Workload, job: Job, workers: nat, s: PoolState, a: PoolAction)
    requires WellShaped(job) && workers > 0
  {
    match a
    case Deal => s.arrived < |w.txns|
    case Step(a) =>
      Enabled(job, s.core, a) && (a.Start? ==> a.i < s.arrived && WorkerIsFree(job, workers, s.core, a.i))
  }

  function PoolApply(w: Workload, job: Job, workers: nat, s: PoolState, a: PoolAction): PoolState
    requires WellShaped(job) && workers > 0 && job.txns == w.txns && ValidWorkload(w)
    requires PoolEnabled(w, job, workers, s, a)
  {
    match a
    case Deal => s.(arrived := s.arrived + 1)
    case Step(a) =>
      if a.Execute? then
        s.(core := Apply(job, s.core, a),
           owners := Moved(s.owners, job.required[a.i], job.next[a.i], w.route[a.i]),
           sent := s.sent[a.i := Reported(s.owners, job.required[a.i], w.route[a.i])])
      else
        s.(core := Apply(job, s.core, a))
  }

  ghost predicate PoolIsRun(w: Workload, job: Job, workers: nat, acts: seq<PoolAction>, states: seq<PoolState>)
    requires WellShaped(job) && workers > 0 && job.txns == w.txns && ValidWorkload(w)
  {
    && |states| == |acts| + 1
    && states[0] == PoolState(Init(job), 0, map[], map[])
    && forall n :: 0 <= n < |acts| ==>
      && PoolEnabled(w, job, workers, states[n], acts[n])
      && states[n + 1] == PoolApply(w, job, workers, states[n], acts[n])
  }

  ghost predicate PoolStuck(w: Workload, job: Job, workers: nat, s: PoolState)
    requires WellShaped(job) && workers > 0
  {
    forall a: PoolAction :: !PoolEnabled(w, job, workers, s, a)
  }

  /** The versions and serial facts of the pool's dependency machinery. */
  ghost predicate PoolSetup(w: Workload, job: Job, ser: Serial, workers: nat)
  {
    && workers > 0 && ValidWorkload(w)
    && Describes(PoolWorkload(w), job, ser) && Explains(job, ser)
  }

  // ------------------------------------------------- the ownership map

  /** `j` is the latest forwarded transaction that touches `o`. */
  predicate IsLatest(job: Job, s: State, j: nat, o: ObjectId)
  {
    && j in s.done && IsSlot(job, Slot(j, o))
    && forall k: nat :: k in s.done && IsSlot(job, Slot(k, o)) ==> k <= j
  }

  /** Every entry names the proxy of the latest forwarded transaction on its object. */
  ghost predicate EntryIsHistory(w: Workload, job: Job, s: PoolState, key: (ObjectId, Version))
    requires WellShaped(job) && job.txns == w.txns && ValidWorkload(w)
  {
    key in s.owners ==>
      exists j: nat :: IsLatest(job, s.core, j, key.0) && key.1 == job.next[j] && s.owners[key] == w.route[j]
  }

  /** Every object touched so far has its entry. */
  ghost predicate HistoryHasEntry(w: Workload, job: Job, s: PoolState, j: nat, o: ObjectId)
    requires WellShaped(job) && job.txns == w.txns && ValidWorkload(w)
  {
    IsLatest(job, s.core, j, o) ==> (o, job.next[j]) in s.owners && s.owners[(o, job.next[j])] == w.route[j]
  }

  /** Every forwarded transaction was told the owners of the ownership history. */
  predicate SentIsHistory(w: Workload, s: PoolState)
    requires ValidWorkload(w)
  {
    && s.sent.Keys == s.core.done
    && forall i :: i in s.sent && i < |w.txns| ==> s.sent[i] == Owners(w.txns, w.route, i)
  }

  /** The ownership map and the messages sent agree with the ownership history. */
  ghost predicate PoolHistory(w: Workload, job: Job, s: PoolState)
    requires WellShaped(job) && job.txns == w.txns && ValidWorkload(w)
  {
    && (forall key :: EntryIsHistory(w, job, s, key))
    && (forall j: nat, o :: HistoryHasEntry(w, job, s, j, o))
    && SentIsHistory(w, s)
  }

  ghost predicate PoolInv(w: Workload, job: Job, ser: Serial, workers: nat, s: PoolState)
    requires PoolSetup(w, job, ser, workers)
  {
    Inv(job, ser, s.core) && PoolHistory(w, job, s) && s.core.crashed == {} && s.arrived <= |w.txns|
  }

  /** Transaction `i` comes right after the forwarded ones on object `o`. */
  ghost predicate InTurn(w: Workload, job: Job, s: State, i: nat, o: ObjectId)
    requires WellShaped(job) && job.txns == w.txns && i < |w.txns| && o in w.txns[i].inputs
  {
    var j := LastToucher(w.txns, i, o);
    && i !in s.done && job.required[i][o] < job.next[i]
    && (forall k: nat :: k in s.done && IsSlot(job, Slot(k, o)) ==> k < i)
    && (j >= 0 ==> IsLatest(job, s, j, o) && job.required[i][o] == job.next[j])
    && (j < 0 ==> job.required[i][o] == INITIAL_VERSION)
  }

  /** Among the transactions on one object, a later one is not forwarded first. */
  lemma {:induction false} NoneForwardedAhead(job: Job, ser: Serial, s: State, x: Slot, k: nat)
    requires Explains(job, ser) && Inv(job, ser, s) && IsSlot(job, x) && x.i !in s.done
    requires k in s.done && IsSlot(job, Slot(k, x.o))
    ensures k < x.i
  {
    if k > x.i {
      FinishesInOrder(job, ser, s, x, Slot(k, x.o));
    }
  }

  /** A transaction past its waits follows the latest forwarded one on each object. */
  lemma {:induction false} PreviousIsLatest(job: Job, ser: Serial, s: State, x: Slot)
    requires Explains(job, ser) && Inv(job, ser, s) && IsSlot(job, x) && x.i in s.checked && x.i !in s.done
    requires Prev(ser, x) >= 0
    ensures IsLatest(job, s, Prev(ser, x), x.o) && job.required[x.i][x.o] == job.next[Prev(ser, x)]
  {
    var j := Prev(ser, x);
    assert SlotExplained(job, ser, x) && TxnExplained(job, ser, j) && x == Slot(x.i, x.o);
    WaitedIsAfterPrevious(job, ser, s, x);
    forall k: nat | k in s.done && IsSlot(job, Slot(k, x.o)) ensures k <= j {
      NoneForwardedAhead(job, ser, s, x, k);
      if k > j {
        VersionsIncrease(job, ser, Slot(k, x.o), x);
        assert false;
      }
    }
  }

  /** The waits make transactions be forwarded in turn. */
  lemma {:induction false} ForwardedInTurn(w: Workload, job: Job, ser: Serial, s: State, i: nat, o: ObjectId)
    requires Describes(PoolWorkload(w), job, ser) && Explains(job, ser) && Inv(job, ser, s)
    requires Enabled(job, s, Execute(i)) && o in w.txns[i].inputs
    ensures InTurn(w, job, s, i, o)
  {
    var x := Slot(i, o);
    assert SlotExplained(job, ser, x);
    assert Prev(ser, x) == LastToucher(w.txns, i, o);
    forall k: nat | k in s.done && IsSlot(job, Slot(k, o)) ensures k < i {
      NoneForwardedAhead(job, ser, s, x, k);
    }
    if Prev(ser, x) >= 0 {
      PreviousIsLatest(job, ser, s, x);
    }
  }

  /** The map's entry for the required version of `o` names the proxy of the last
      transaction before `i` that touches `o`, and exists only if there is one. */
  predicate OwnerIsKnown(w: Workload, owners: map<(ObjectId, Version), ProxyId>, required: map<ObjectId, Version>,
      i: nat, o: ObjectId)
    requires ValidWorkload(w) && i < |w.txns| && o in required
  {
    var j := LastToucher(w.txns, i, o); var key := (o, required[o]);
    if j < 0 then key !in owners else key in owners && owners[key] == w.route[j]
  }

  lemma {:induction false} OwnerInTurn(w: Workload, job: Job, s: PoolState, i: nat, o: ObjectId)
    requires WellShaped(job) && job.txns == w.txns && ValidWorkload(w) && i < |w.txns| && o in w.txns[i].inputs
    requires InTurn(w, job, s.core, i, o) && forall j :: 0 <= j < |w.txns| ==> job.next[j] > INITIAL_VERSION
    requires EntryIsHistory(w, job, s, (o, job.required[i][o]))
    requires forall j: nat :: HistoryHasEntry(w, job, s, j, o)
    ensures OwnerIsKnown(w, s.owners, job.required[i], i, o)
  {
    var j := LastToucher(w.txns, i, o);
    if j >= 0 {
      assert HistoryHasEntry(w, job, s, j, o);
    }
  }

  lemma {:induction false} KnownOwnersAreReported(w: Workload, owners: map<(ObjectId, Version), ProxyId>,
      required: map<ObjectId, Version>, i: nat)
    requires ValidWorkload(w) && i < |w.txns| && forall o :: o in required <==> o in w.txns[i].inputs
    requires forall o :: o in required ==> OwnerIsKnown(w, owners, required, i, o)
    ensures Reported(owners, required, w.route[i]) == Owners(w.txns, w.route, i)
  {
    forall o | o in required ensures Reported(owners, required, w.route[i])[o] == Owners(w.txns, w.route, i)[o] {
      assert OwnerIsKnown(w, owners, required, i, o);
    }
  }

  lemma {:induction false} NextIsNotInitial(w: Workload, job: Job, ser: Serial, workers: nat)
    requires PoolSetup(w, job, ser, workers)
    ensures forall j :: 0 <= j < |w.txns| ==> job.next[j] > INITIAL_VERSION
  {
    forall j | 0 <= j < |w.txns| ensures job.next[j] > INITIAL_VERSION {
      assert TxnExplained(job, ser, j);
    }
  }

  /** The owners reported for a transaction are those of the ownership history. */
  lemma {:induction false} ReportIsHistory(w: Workload, job: Job, ser: Serial, workers: nat, s: PoolState, i: nat)
    requires PoolSetup(w, job, ser, workers) && PoolInv(w, job, ser, workers, s) && Enabled(job, s.core, Execute(i))
    ensures Reported(s.owners, job.required[i], w.route[i]) == Owners(w.txns, w.route, i)
  {
    assert job.required[i] == Required(w.txns, i);
    NextIsNotInitial(w, job, ser, workers);
    forall o | o in w.txns[i].inputs ensures OwnerIsKnown(w, s.owners, job.required[i], i, o) {
      ForwardedInTurn(w, job, ser, s.core, i, o);
      OwnerInTurn(w, job, s, i, o);
    }
    KnownOwnersAreReported(w, s.owners, job.required[i], i);
  }

  /** Moving the entries of transaction `i` keeps the map in step with history. */
  lemma {:induction false} MovedEntriesAreHistory(w: Workload, job: Job, s: PoolState, t: PoolState, i: nat,
      key: (ObjectId, Version))
    requires WellShaped(job) && job.txns == w.txns && ValidWorkload(w) && i < |w.txns|
    requires forall o :: o in job.required[i] <==> o in w.txns[i].inputs
    requires t.owners == Moved(s.owners, job.required[i], job.next[i], w.route[i]) && t.core.done == s.core.done + {i}
    requires key.0 in w.txns[i].inputs ==> InTurn(w, job, s.core, i, key.0)
    requires EntryIsHistory(w, job, s, key)
    ensures EntryIsHistory(w, job, t, key)
  {
    if key in t.owners {
      if key.0 in w.txns[i].inputs && key.1 == job.next[i] {
        assert IsLatest(job, t.core, i, key.0);
      } else {
        var j: nat :| IsLatest(job, s.core, j, key.0) && key.1 == job.next[j] && s.owners[key] == w.route[j];
        if key.0 in w.txns[i].inputs {
          assert false;
        }
        assert IsLatest(job, t.core, j, key.0);
      }
    }
  }

  lemma {:induction false} MovedEntriesAreComplete(w: Workload, job: Job, s: PoolState, t: PoolState, i: nat, j: nat,
      o: ObjectId)
    requires WellShaped(job) && job.txns == w.txns && ValidWorkload(w) && i < |w.txns|
    requires forall o :: o in job.required[i] <==> o in w.txns[i].inputs
    requires t.owners == Moved(s.owners, job.required[i], job.next[i], w.route[i]) && t.core.done == s.core.done + {i}
    requires o in w.txns[i].inputs ==> InTurn(w, job, s.core, i, o)
    requires HistoryHasEntry(w, job, s, j, o)
    ensures HistoryHasEntry(w, job, t, j, o)
  {
    if IsLatest(job, t.core, j, o) && j != i {
      assert i in t.core.done && (o in w.txns[i].inputs <==> IsSlot(job, Slot(i, o)));
      if o in w.txns[i].inputs {
        assert false;
      }
      forall k: nat | k in s.core.done && IsSlot(job, Slot(k, o)) ensures k <= j {
        assert k in t.core.done;
      }
      assert IsLatest(job, s.core, j, o);
    }
  }

  lemma {:induction false} ForwardKeepsHistory(w: Workload, job: Job, ser: Serial, workers: nat, s: PoolState, i: nat)
    requires PoolSetup(w, job, ser, workers) && PoolInv(w, job, ser, workers, s)
    requires PoolEnabled(w, job, workers, s, Step(Execute(i)))
    ensures var t := PoolApply(w, job, workers, s, Step(Execute(i)));
            && (forall key :: EntryIsHistory(w, job, t, key))
            && (forall j: nat, o :: HistoryHasEntry(w, job, t, j, o))
  {
    var t := PoolApply(w, job, workers, s, Step(Execute(i)));
    assert job.required[i] == Required(w.txns, i);
    forall o | o in w.txns[i].inputs ensures InTurn(w, job, s.core, i, o) {
      ForwardedInTurn(w, job, ser, s.core, i, o);
    }
    forall key ensures EntryIsHistory(w, job, t, key) {
      MovedEntriesAreHistory(w, job, s, t, i, key);
    }
    forall j: nat, o ensures HistoryHasEntry(w, job, t, j, o) {
      MovedEntriesAreComplete(w, job, s, t, i, j, o);
    }
  }

  lemma {:induction false} PoolStepKeepsCore(w: Workload, job: Job, ser: Serial, workers: nat, s: PoolState,
      a: PoolAction)
    requires PoolSetup(w, job, ser, workers) && PoolInv(w, job, ser, workers, s) && PoolEnabled(w, job, workers, s, a)
    ensures Inv(job, ser, PoolApply(w, job, workers, s, a).core) && PoolApply(w, job, workers, s, a).core.crashed == {}
  {
    if a.Step? {
      StepKeeps(job, ser, s.core, a.a);
      NobodyPanics(w, job, ser, workers, s.core, a.a);
    }
  }

  lemma {:induction false} OnlyExecuteForwards(job: Job, s: State, a: Action)
    requires WellShaped(job) && Enabled(job, s, a) && !a.Execute?
    ensures Apply(job, s, a).done == s.done
  {
  }

  lemma {:induction false} OtherStepKeepsHistory(w: Workload, job: Job, workers: nat, s: PoolState, a: PoolAction)
    requires WellShaped(job) && workers > 0 && job.txns == w.txns && ValidWorkload(w)
    requires PoolHistory(w, job, s) && PoolEnabled(w, job, workers, s, a) && (a.Step? ==> !a.a.Execute?)
    ensures PoolHistory(w, job, PoolApply(w, job, workers, s, a))
  {
    if a.Step? {
      OnlyExecuteForwards(job, s.core, a.a);
    }
    SameMapSameHistory(w, job, s, PoolApply(w, job, workers, s, a));
  }

  lemma {:induction false} OneMoreSent(w: Workload, s: PoolState, t: PoolState, i: nat)
    requires ValidWorkload(w) && SentIsHistory(w, s) && i < |w.txns|
    requires t.sent == s.sent[i := Owners(w.txns, w.route, i)] && t.core.done == s.core.done + {i}
    ensures SentIsHistory(w, t)
  {
  }

  lemma {:induction false} ForwardingAddsOne(job: Job, s: State, i: nat)
    requires WellShaped(job) && Enabled(job, s, Execute(i))
    ensures i < |job.txns| && Apply(job, s, Execute(i)).done == s.done + {i}
  {
  }

  lemma {:induction false} ForwardKeepsSent(w: Workload, job: Job, workers: nat, s: PoolState, i: nat)
    requires WellShaped(job) && workers > 0 && job.txns == w.txns && ValidWorkload(w) && SentIsHistory(w, s)
    requires PoolEnabled(w, job, workers, s, Step(Execute(i)))
    requires Reported(s.owners, job.required[i], w.route[i]) == Owners(w.txns, w.route, i)
    ensures SentIsHistory(w, PoolApply(w, job, workers, s, Step(Execute(i))))
  {
    ForwardingAddsOne(job, s.core, i);
    OneMoreSent(w, s, PoolApply(w, job, workers, s, Step(Execute(i))), i);
  }

  lemma {:induction false} ForwardStepKeepsHistory(w: Workload, job: Job, ser: Serial, workers: nat, s: PoolState,
      i: nat)
    requires PoolSetup(w, job, ser, workers) && PoolInv(w, job, ser, workers, s)
    requires PoolEnabled(w, job, workers, s, Step(Execute(i)))
    ensures PoolHistory(w, job, PoolApply(w, job, workers, s, Step(Execute(i))))
  {
    ReportIsHistory(w, job, ser, workers, s, i);
    ForwardKeepsSent(w, job, workers, s, i);
    ForwardKeepsHistory(w, job, ser, workers, s, i);
  }

  lemma {:induction false} PoolStepKeeps(w: Workload, job: Job, ser: Serial, workers: nat, s: PoolState, a: PoolAction)
    requires PoolSetup(w, job, ser, workers) && PoolInv(w, job, ser, workers, s) && PoolEnabled(w, job, workers, s, a)
    ensures PoolInv(w, job, ser, workers, PoolApply(w, job, workers, s, a))
  {
    PoolStepKeepsCore(w, job, ser, workers, s, a);
    if a.Step? && a.a.Execute? {
      ForwardStepKeepsHistory(w, job, ser, workers, s, a.a.i);
    } else {
      OtherStepKeepsHistory(w, job, workers, s, a);
    }
  }

  lemma {:induction false} SameMapSameHistory(w: Workload, job: Job, s: PoolState, t: PoolState)
    requires WellShaped(job) && job.txns == w.txns && ValidWorkload(w)
    requires t.owners == s.owners && t.core.done == s.core.done
    requires forall key :: EntryIsHistory(w, job, s, key)
    requires forall j: nat, o :: HistoryHasEntry(w, job, s, j, o)
    ensures forall key :: EntryIsHistory(w, job, t, key)
    ensures forall j: nat, o :: HistoryHasEntry(w, job, t, j, o)
  {
    forall j: nat, o ensures IsLatest(job, t.core, j, o) <==> IsLatest(job, s.core, j, o) {
    }
    forall key ensures EntryIsHistory(w, job, t, key) {
      assert EntryIsHistory(w, job, s, key);
    }
    forall j: nat, o ensures HistoryHasEntry(w, job, t, j, o) {
      assert HistoryHasEntry(w, job, s, j, o);
    }
  }

  /** On one node nothing is fetched. */
  lemma {:induction false} NothingIsRemote(w: Workload, job: Job, ser: Serial, workers: nat, sl: Slot)
    requires PoolSetup(w, job, ser, workers) && IsSlot(job, sl)
    ensures !Remote(job, sl)
  {
    if Remote(job, sl) {
      RemoteAwaits(job, ser, sl);
      assert false;
    }
  }

  /** So no message handler panics. */
  lemma {:induction false} NobodyPanics(w: Workload, job: Job, ser: Serial, workers: nat, s: State, a: Action)
    requires PoolSetup(w, job, ser, workers) && Enabled(job, s, a) && Phases(job, s)
    ensures Apply(job, s, a).crashed == s.crashed
  {
    if a.Panic? {
      NothingIsRemote(w, job, ser, workers, a.sl);
      assert false;
    }
    OnlyPanicCrashes(job, s, a);
  }

  lemma {:induction false} PoolInitHolds(w: Workload, job: Job, ser: Serial, workers: nat)
    requires PoolSetup(w, job, ser, workers)
    ensures PoolInv(w, job, ser, workers, PoolState(Init(job), 0, map[], map[]))
  {
    InitHolds(job, ser);
  }

  lemma {:induction false} PoolRunKeeps(w: Workload, job: Job, ser: Serial, workers: nat, acts: seq<PoolAction>,
      states: seq<PoolState>, n: nat)
    requires PoolSetup(w, job, ser, workers) && PoolIsRun(w, job, workers, acts, states) && n <= |acts|
    ensures PoolInv(w, job, ser, workers, states[n])
  {
    if n == 0 {
      PoolInitHolds(w, job, ser, workers);
    } else {
      PoolRunKeeps(w, job, ser, workers, acts, states, n - 1);
      PoolStepKeeps(w, job, ser, workers, states[n - 1], acts[n - 1]);
    }
  }

  ghost predicate PoolReachable(w: Workload, job: Job, workers: nat, s: PoolState)
    requires WellShaped(job) && workers > 0 && job.txns == w.txns && ValidWorkload(w)
  {
    exists acts: seq<PoolAction>, states: seq<PoolState> ::
      PoolIsRun(w, job, workers, acts, states) && states[|acts|] == s
  }

  lemma {:induction false} PoolReachableKeeps(w: Workload, job: Job, ser: Serial, workers: nat, s: PoolState)
    requires PoolSetup(w, job, ser, workers) && PoolReachable(w, job, workers, s)
    ensures PoolInv(w, job, ser, workers, s)
  {
    var acts, states :| PoolIsRun(w, job, workers, acts, states) && states[|acts|] == s;
    PoolRunKeeps(w, job, ser, workers, acts, states, |acts|);
  }

  /** In every reachable state the ownership map holds exactly one key per object
      touched by a forwarded transaction: its latest forwarded version, mapped to
      the proxy of the transaction that produces it. */
  lemma {:induction false} OwnershipAgreesWithHistory(w: Workload, job: Job, ser: Serial, workers: nat, s: PoolState,
      o: ObjectId, v: Version)
    requires PoolSetup(w, job, ser, workers) && PoolReachable(w, job, workers, s)
    ensures (o, v) in s.owners <==> exists j: nat :: IsLatest(job, s.core, j, o) && v == job.next[j]
    ensures (o, v) in s.owners ==> exists j: nat :: IsLatest(job, s.core, j, o) && s.owners[(o, v)] == w.route[j]
  {
    PoolReachableKeeps(w, job, ser, workers, s);
    assert EntryIsHistory(w, job, s, (o, v));
    if j: nat :| IsLatest(job, s.core, j, o) && v == job.next[j] {
      assert HistoryHasEntry(w, job, s, j, o);
    }
  }

  /** Every owner ever reported is the proxy of the last earlier transaction on the
      object, and no owner is reported when that is the transaction's own proxy. */
  lemma {:induction false} ReportedOwnersAreProducers(w: Workload, job: Job, ser: Serial, workers: nat, s: PoolState,
      i: nat, o: ObjectId)
    requires PoolSetup(w, job, ser, workers) && PoolReachable(w, job, workers, s)
    requires i < |w.txns| && i in s.core.done && o in w.txns[i].inputs
    ensures i in s.sent && o in s.sent[i]
    ensures var j := LastToucher(w.txns, i, o);
            s.sent[i][o] == if j < 0 || w.route[j] == w.route[i] then None else Some(w.route[j])
  {
    PoolReachableKeeps(w, job, ser, workers, s);
  }

  // ------------------------------------------------- the pool drains

  /** In every reachable state, the earliest unfinished task that was dealt is at the
      head of its worker's queue and has a step to take. */
  lemma {:induction false} EarliestTaskMoves(w: Workload, job: Job, ser: Serial, workers: nat, s: PoolState, i: nat)
    returns (a: Action)
    requires PoolSetup(w, job, ser, workers) && PoolReachable(w, job, workers, s)
    requires i < s.arrived && i < |w.txns| && !Completed(job, s.core, i)
    requires forall j: nat :: j < i ==> Completed(job, s.core, j)
    ensures WorkerIsFree(job, workers, s.core, i) && PoolEnabled(w, job, workers, s, Step(a))
  {
    PoolReachableKeeps(w, job, ser, workers, s);
    a := EarliestMoves(job, ser, s.core, i);
  }

  /** With any number of blocking workers, the pool stops only when every task has
      been dealt and forwarded. */
  lemma {:induction false} PoolDrains(w: Workload, job: Job, ser: Serial, workers: nat, s: PoolState)
    requires PoolSetup(w, job, ser, workers) && PoolReachable(w, job, workers, s) && PoolStuck(w, job, workers, s)
    ensures AllCompleted(job, s.core) && s.arrived >= |w.txns|
  {
    assert !PoolEnabled(w, job, workers, s, Deal);
    if n: nat :| n < |job.txns| && !Completed(job, s.core, n) {
      var i := EarliestIncomplete(job, s.core, n);
      var a := EarliestTaskMoves(w, job, ser, workers, s, i);
      assert false;
    }
  }

  /** How many steps the pool can still take at most. */
  ghost function PoolStepsLeft(w: Workload, job: Job, s: PoolState): int
  {
    |Remaining(job, s.core)| + |w.txns| - s.arrived
  }

  lemma {:induction false} PoolStepUsesUp(w: Workload, job: Job, workers: nat, s: PoolState, a: PoolAction)
    requires WellShaped(job) && workers > 0 && job.txns == w.txns && ValidWorkload(w) && Phases(job, s.core)
    requires PoolEnabled(w, job, workers, s, a)
    ensures PoolStepsLeft(w, job, PoolApply(w, job, workers, s, a)) < PoolStepsLeft(w, job, s)
  {
    if a.Step? {
      StepUsesUp(job, s.core, a.a);
    }
  }

  lemma {:induction false} PoolStepInRunUsesUp(w: Workload, job: Job, ser: Serial, workers: nat, acts: seq<PoolAction>,
      states: seq<PoolState>, n: nat)
    requires PoolSetup(w, job, ser, workers) && PoolIsRun(w, job, workers, acts, states) && n < |acts|
    ensures PoolStepsLeft(w, job, states[n + 1]) < PoolStepsLeft(w, job, states[n])
  {
    PoolRunKeeps(w, job, ser, workers, acts, states, n);
    PoolStepUsesUp(w, job, workers, states[n], acts[n]);
  }

  lemma {:induction false} PoolRunsAreFinite(w: Workload, job: Job, ser: Serial, workers: nat, acts: seq<PoolAction>,
      states: seq<PoolState>)
    requires PoolSetup(w, job, ser, workers) && PoolIsRun(w, job, workers, acts, states)
    ensures |acts| <= |AllActions(job)| + |w.txns|
  {
    var measures := seq(|states|, k requires 0 <= k < |states| => PoolStepsLeft(w, job, states[k]));
    forall k | 0 <= k < |acts| ensures measures[k + 1] < measures[k] {
      PoolStepInRunUsesUp(w, job, ser, workers, acts, states, k);
    }
    Descends(measures, |acts|);
    PoolRunKeeps(w, job, ser, workers, acts, states, |acts|);
    SubsetIsSmaller(Remaining(job, states[0].core), AllActions(job));
  }

  // ------------------------------------------------- one task at a time

  lemma {:induction false} CompletedStays(job: Job, s: State, a: Action, k: nat)
    requires WellShaped(job) && Enabled(job, s, a) && k < |job.txns| && Completed(job, s, k)
    ensures Completed(job, Apply(job, s, a), k)
  {
  }

  lemma {:induction false} OnlyStartStarts(job: Job, s: State, a: Action)
    requires WellShaped(job) && Enabled(job, s, a)
    ensures Apply(job, s, a).started == if a.Start? then s.started + {a.i} else s.started
  {
  }

  /** `k` is started only after `j` is finished. */
  predicate StartsAfter(job: Job, s: State, j: nat, k: nat)
    requires j < |job.txns|
  {
    k in s.started ==> Completed(job, s, j)
  }

  lemma {:induction false} StepKeepsOrder(w: Workload, job: Job, workers: nat, s: PoolState, a: PoolAction, j: nat,
      k: nat)
    requires WellShaped(job) && workers > 0 && job.txns == w.txns && ValidWorkload(w)
    requires PoolEnabled(w, job, workers, s, a) && j < k < |job.txns| && j % workers == k % workers
    requires StartsAfter(job, s.core, j, k)
    ensures StartsAfter(job, PoolApply(w, job, workers, s, a).core, j, k)
  {
    if a.Step? {
      OnlyStartStarts(job, s.core, a.a);
      if k in Apply(job, s.core, a.a).started {
        assert Completed(job, s.core, j);
        CompletedStays(job, s.core, a.a, j);
      }
    }
  }

  lemma {:induction false} WorkersKeepOrder(w: Workload, job: Job, workers: nat, acts: seq<PoolAction>,
      states: seq<PoolState>, n: nat, j: nat, k: nat)
    requires WellShaped(job) && workers > 0 && job.txns == w.txns && ValidWorkload(w)
    requires PoolIsRun(w, job, workers, acts, states) && n <= |acts|
    requires j < k < |job.txns| && j % workers == k % workers
    ensures StartsAfter(job, states[n].core, j, k)
  {
    if n > 0 {
      WorkersKeepOrder(w, job, workers, acts, states, n - 1, j, k);
      StepKeepsOrder(w, job, workers, states[n - 1], acts[n - 1], j, k);
    }
  }

  lemma {:induction false} StepStartsDealt(w: Workload, job: Job, workers: nat, s: PoolState, a: PoolAction, i: nat)
    requires WellShaped(job) && workers > 0 && job.txns == w.txns && ValidWorkload(w)
    requires PoolEnabled(w, job, workers, s, a) && (i in s.core.started ==> i < s.arrived)
    ensures var t := PoolApply(w, job, workers, s, a); i in t.core.started ==> i < t.arrived
  {
    if a.Step? {
      OnlyStartStarts(job, s.core, a.a);
    }
  }

  lemma {:induction false} StartedAreDealt(w: Workload, job: Job, workers: nat, acts: seq<PoolAction>,
      states: seq<PoolState>, n: nat, i: nat)
    requires WellShaped(job) && workers > 0 && job.txns == w.txns && ValidWorkload(w)
    requires PoolIsRun(w, job, workers, acts, states) && n <= |acts|
    ensures i in states[n].core.started ==> i < states[n].arrived
  {
    if n > 0 {
      StartedAreDealt(w, job, workers, acts, states, n - 1, i);
      StepStartsDealt(w, job, workers, states[n - 1], acts[n - 1], i);
    }
  }

  /** Workers do not hold each other up: a task can start exactly when it was dealt, has not
      started, and everything dealt to its own worker before is finished. */
  lemma {:induction false} StartsExactlyWhenFree(w: Workload, job: Job, workers: nat, s: PoolState, i: nat)
    requires WellShaped(job) && workers > 0 && job.txns == w.txns && s.arrived <= |w.txns|
    ensures PoolEnabled(w, job, workers, s, Step(Start(i))) <==>
              && i < s.arrived && i !in s.core.started
              && forall k: nat :: k < i && k % workers == i % workers ==> Completed(job, s.core, k)
  {
  }

  /** In every reachable state a worker has at most one task that it has started and not
      finished: it starts a dealt task only when all tasks dealt to it before are finished. */
  lemma {:induction false} OneTaskPerWorker(w: Workload, job: Job, workers: nat, s: PoolState, j: nat, k: nat)
    requires WellShaped(job) && workers > 0 && job.txns == w.txns && ValidWorkload(w)
    requires PoolReachable(w, job, workers, s)
    requires j < k < |w.txns| && j % workers == k % workers && k in s.core.started
    ensures k < s.arrived && Completed(job, s.core, j)
  {
    var acts, states :| PoolIsRun(w, job, workers, acts, states) && states[|acts|] == s;
    StartedAreDealt(w, job, workers, acts, states, |acts|, k);
    WorkersKeepOrder(w, job, workers, acts, states, |acts|, j, k);
  }

  // ------------------------------------------------- at rest

  /** The dependency machinery of the pool is one proxy of the protocol. */
  lemma {:induction false} PoolRunProjects(w: Workload, job: Job, workers: nat, acts: seq<PoolAction>,
      states: seq<PoolState>, n: nat)
    requires WellShaped(job) && workers > 0 && job.txns == w.txns && ValidWorkload(w)
    requires PoolIsRun(w, job, workers, acts, states) && n <= |acts|
    ensures Reachable(job, states[n].core)
  {
    if n == 0 {
      assert IsRun(job, [], [Init(job)]);
    } else {
      PoolRunProjects(w, job, workers, acts, states, n - 1);
      if acts[n - 1].Step? {
        StepStaysReachable(job, states[n - 1].core, acts[n - 1].a);
      }
    }
  }

  lemma {:induction false} LastSlot(job: Job, o: ObjectId, v: Version)
    requires WellShaped(job) && job.proxies == 1
    ensures var j := LastToucher(job.txns, |job.txns|, o);
            (exists sl :: HandleLifecycle.IsLastToucher(job, sl) && NextKey(job, sl) == Key(0, o, v))
            <==> j >= 0 && v == job.next[j]
  {
    var j := LastToucher(job.txns, |job.txns|, o);
    if j >= 0 {
      assert HandleLifecycle.IsLastToucher(job, Slot(j, o));
      assert NextKey(job, Slot(j, o)) == Key(0, o, job.next[j]);
    }
    forall sl | HandleLifecycle.IsLastToucher(job, sl) && NextKey(job, sl) == Key(0, o, v) ensures sl == Slot(j, o) {
      assert IsSlot(job, Slot(j, o));
    }
  }

  /** When the pool has drained, the primary's dependency map has exactly one entry
      per touched object, at the latest version the assigner gave it. */
  lemma {:induction false} PrimaryEntriesAtRest(w: Workload, job: Job, ser: Serial, workers: nat, s: PoolState,
      o: ObjectId, v: Version)
    requires PoolSetup(w, job, ser, workers) && PoolReachable(w, job, workers, s) && PoolStuck(w, job, workers, s)
    ensures var j := LastToucher(w.txns, |w.txns|, o);
            Key(0, o, v) in s.core.table <==> j >= 0 && v == Next(w.txns, j)
  {
    var acts, states :| PoolIsRun(w, job, workers, acts, states) && states[|acts|] == s;
    PoolRunProjects(w, job, workers, acts, states, |acts|);
    PoolDrains(w, job, ser, workers, s);
    HandleLifecycle.EntriesAtRest(job, ser, s.core, Key(0, o, v));
    LastSlot(job, o, v);
  }
}
