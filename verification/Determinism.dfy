/** Strict determinism: whatever the routing and however the proxies' steps
    interleave, the outcome is that of executing the commit sequence serially. */
module Determinism {
  import opened Types
  import opened Protocol
  import opened ProtocolInvariant
  import opened ProtocolSteps
  import opened ProtocolKeeps
  import opened Progress
  import opened SerialExecution

  /** In every reachable state, a transaction past its waits finds each of its
      objects in the local store at exactly the required version if the serial run
      has it ready, with the serial content, and never at a later version. */
  lemma {:induction false} ExactVersions(w: Workload, job: Job, ser: Serial, s: State, i: nat, o: ObjectId)
    requires Describes(w, job, ser) && Reachable(job, s)
    requires i < |w.txns| && o in w.txns[i].inputs && Enabled(job, s, Check(i))
    ensures var serial := SerialStore(w.txns, w.init, i); var place := Place(w.route[i], o);
            && (place in s.store ==> s.store[place].version <= Required(w.txns, i)[o])
            && (o in serial && serial[o].version == Required(w.txns, i)[o] <==>
                place in s.store && s.store[place].version == Required(w.txns, i)[o])
            && (place in s.store && s.store[place].version == Required(w.txns, i)[o] ==> s.store[place] == serial[o])
  {
    DescribedIsExplained(w, job, ser);
    ReachableKeeps(job, ser, s);
    var sl := Slot(i, o);
    assert i !in s.done;
    ReadyExactlyWhenStored(job, ser, s, sl);
    InputIsReady(w, job, ser, sl);
    if Place(w.route[i], o) in s.store {
      StoredBeforeFinish(job, ser, s, sl, w.route[i]);
    }
  }

  /** Every transaction that gets as far as the check is executed if and only if
      the serial run executes it, in every run. */
  lemma {:induction false} SameTransactionsExecute(w: Workload, job: Job, ser: Serial, s: State, i: nat)
    requires Describes(w, job, ser) && Reachable(job, s)
    requires i < |w.txns| && i in s.checked
    ensures s.checked[i] <==> SerialOk(w.txns, w.init, i)
  {
    DescribedIsExplained(w, job, ser);
    ReachableKeeps(job, ser, s);
  }

  /** A state reply in flight holds the requested version with the serial content,
      and it is empty exactly when the serial run skips the producer. */
  lemma {:induction false} RepliesAreExact(w: Workload, job: Job, ser: Serial, s: State, sl: Slot)
    requires Describes(w, job, ser) && Reachable(job, s)
    requires sl in s.reqs && s.reqs[sl].Replied?
    ensures IsSlot(job, sl)
    ensures var j := LastToucher(w.txns, sl.i, sl.o);
            && 0 <= j && w.route[j] != w.route[sl.i]
            && (s.reqs[sl].reply.Some? <==> SerialOk(w.txns, w.init, j))
            && (s.reqs[sl].reply.Some? ==>
                  s.reqs[sl].reply.value
                  == Object(Required(w.txns, sl.i)[sl.o], SerialOutput(w.txns, w.init, Slot(j, sl.o))))
  {
    DescribedIsExplained(w, job, ser);
    ReachableKeeps(job, ser, s);
    assert SlotInv(job, ser, s, sl);
    RemoteAwaits(job, ser, sl);
    VersionFromLastToucher(w.txns, sl.i, sl.o);
  }

  /** The last of the first `n` transactions touching `o` that the serial run executes. */
  ghost function LastWriter(txns: seq<Txn>, init: map<ObjectId, Content>, n: nat, o: ObjectId): (j: int)
    requires n <= |txns|
    ensures -1 <= j < n
    ensures j >= 0 ==> o in txns[j].inputs && SerialOk(txns, init, j)
    ensures forall k :: j < k < n && o in txns[k].inputs ==> !SerialOk(txns, init, k)
  {
    if n == 0 then -1
    else if o in txns[n - 1].inputs && SerialOk(txns, init, n - 1) then n - 1
    else LastWriter(txns, init, n - 1, o)
  }

  /** The serial store holds what the last writer left. */
  lemma {:induction false} SerialStoreIsLastWrite(txns: seq<Txn>, init: map<ObjectId, Content>, n: nat, o: ObjectId)
    requires n <= |txns|
    ensures var j := LastWriter(txns, init, n, o); var serial := SerialStore(txns, init, n);
            if j < 0 then (o in serial <==> o in init) && (o in init ==> serial[o] == Object(INITIAL_VERSION, init[o]))
            else o in serial && serial[o] == Object(Next(txns, j), SerialOutput(txns, init, Slot(j, o)))
  {
    if n > 0 {
      SerialStoreIsLastWrite(txns, init, n - 1, o);
      SerialStepAt(txns, SerialStore(txns, init, n - 1), n - 1, o);
    }
  }

  /** A stored object is the initial one or was left by a transaction that the serial
      run executes. */
  lemma {:induction false} FinalPlace(w: Workload, job: Job, ser: Serial, s: State, p: ProxyId, o: ObjectId)
    returns (j: int)
    requires Describes(w, job, ser) && Reachable(job, s) && p < w.proxies
    ensures -1 <= j < |w.txns|
    ensures j < 0 ==> (Place(p, o) in s.store <==> o in w.init)
    ensures j < 0 && o in w.init ==> s.store[Place(p, o)] == Object(INITIAL_VERSION, w.init[o])
    ensures j >= 0 ==> o in w.txns[j].inputs && SerialOk(w.txns, w.init, j) && Place(p, o) in s.store
    ensures j >= 0 ==> s.store[Place(p, o)] == Object(Next(w.txns, j), SerialOutput(w.txns, w.init, Slot(j, o)))
  {
    DescribedIsExplained(w, job, ser);
    ReachableKeeps(job, ser, s);
    assert PlaceInv(job, ser, s, Place(p, o));
    if Place(p, o) !in s.store || (o in w.init && s.store[Place(p, o)] == Object(INITIAL_VERSION, w.init[o])) {
      j := -1;
    } else {
      j :| j in s.done && j >= 0 && IsOutput(job, ser, Slot(j, o), s.store[Place(p, o)]);
    }
  }

  /** A write is still there, or has been replaced by something newer. */
  lemma {:induction false} WriteSurvives(w: Workload, job: Job, ser: Serial, s: State, j: nat, o: ObjectId)
    requires Describes(w, job, ser) && Reachable(job, s) && j in s.done
    requires j < |w.txns| && o in w.txns[j].inputs && SerialOk(w.txns, w.init, j)
    ensures Place(w.route[j], o) in s.store
    ensures s.store[Place(w.route[j], o)].version >= Next(w.txns, j) > INITIAL_VERSION
  {
    DescribedIsExplained(w, job, ser);
    ReachableKeeps(job, ser, s);
    assert SlotInv(job, ser, s, Slot(j, o));
  }

  /** Once a transaction on an object is done, so are the earlier ones on it. */
  lemma {:induction false} TouchersAreDone(job: Job, ser: Serial, s: State, j: nat, k: nat, o: ObjectId)
    requires Explains(job, ser) && Reachable(job, s) && j <= k && k in s.done
    requires IsSlot(job, Slot(j, o)) && IsSlot(job, Slot(k, o))
    ensures j in s.done
  {
    ReachableKeeps(job, ser, s);
    if j < k {
      FinishesInOrder(job, ser, s, Slot(j, o), Slot(k, o));
    }
  }

  /** At the proxy that last wrote an object, or anywhere if nobody did, a run leaves
      exactly the serial object once the last transaction on it is complete, whatever
      became of transactions on other objects. */
  lemma {:induction false} FinalStateIsSerial(w: Workload, job: Job, ser: Serial, s: State, p: ProxyId, o: ObjectId)
    requires Describes(w, job, ser) && Reachable(job, s) && p < w.proxies
    requires var k := LastToucher(w.txns, |w.txns|, o); k >= 0 ==> Completed(job, s, k)
    requires var j := LastWriter(w.txns, w.init, |w.txns|, o); j >= 0 ==> w.route[j] == p
    ensures var serial := SerialStore(w.txns, w.init, |w.txns|);
            && (Place(p, o) in s.store <==> o in serial)
            && (o in serial ==> s.store[Place(p, o)] == serial[o])
  {
    SerialStoreIsLastWrite(w.txns, w.init, |w.txns|, o);
    var last := LastWriter(w.txns, w.init, |w.txns|, o);
    var j := FinalPlace(w, job, ser, s, p, o);
    if last >= 0 {
      DescribedIsExplained(w, job, ser);
      TouchersAreDone(job, ser, s, last, LastToucher(w.txns, |w.txns|, o), o);
      WriteSurvives(w, job, ser, s, last, o);
      if 0 <= j < last {
        VersionChain(w.txns, j, last, o);
      }
    }
    assert j == last;
  }

  /** Some transaction must fetch an object whose last toucher is doomed. This speaks of
      the verification verdicts, the objects shared and the routing alone. */
  ghost predicate FetchesSkipped(w: Workload)
    requires ValidWorkload(w)
  {
    exists sl: Slot :: sl.i < |w.txns| && sl.o in w.txns[sl.i].inputs && FetchIsSkipped(w, sl)
  }

  ghost predicate FetchIsSkipped(w: Workload, sl: Slot)
    requires ValidWorkload(w) && sl.i < |w.txns|
  {
    var j := LastToucher(w.txns, sl.i, sl.o);
    j >= 0 && w.route[j] != w.route[sl.i] && Doomed(w.txns, w.init, j)
  }

  /** The proxies can go no further exactly when every transaction is complete,
      unless the commit sequence, its verdicts and the routing make somebody fetch
      an object whose producer is skipped: then that transaction never completes. */
  lemma {:induction false} MaximalRuns(w: Workload, job: Job, ser: Serial, s: State)
    requires Describes(w, job, ser) && Reachable(job, s) && Stuck(job, s)
    ensures AllCompleted(job, s) <==> !FetchesSkipped(w)
  {
    DescribedIsExplained(w, job, ser);
    CompletesExactlyWhenFetchable(job, ser, s);
    forall sl | IsSlot(job, sl)
      ensures Remote(job, sl) && !Ok(ser, Prev(ser, sl)) <==> FetchIsSkipped(w, sl)
    {
      assert job.owner[sl.i] == Owners(w.txns, w.route, sl.i);
      if LastToucher(w.txns, sl.i, sl.o) >= 0 {
        SkippedIsDoomed(w.txns, w.init, LastToucher(w.txns, sl.i, sl.o));
      }
    }
    if FetchesSkipped(w) {
      var sl: Slot :| sl.i < |w.txns| && sl.o in w.txns[sl.i].inputs && FetchIsSkipped(w, sl);
      assert IsSlot(job, sl);
    }
  }

  /** A transaction that must fetch from a doomed one is complete in no reachable state. */
  lemma {:induction false} DoomedFetchNeverCompletes(w: Workload, job: Job, ser: Serial, s: State, sl: Slot)
    requires Describes(w, job, ser) && Reachable(job, s)
    requires sl.i < |w.txns| && sl.o in w.txns[sl.i].inputs && FetchIsSkipped(w, sl)
    ensures !Completed(job, s, sl.i)
  {
    DescribedIsExplained(w, job, ser);
    ReachableKeeps(job, ser, s);
    SkippedIsDoomed(w.txns, w.init, LastToucher(w.txns, sl.i, sl.o));
    assert IsSlot(job, sl) && job.owner[sl.i] == Owners(w.txns, w.route, sl.i);
    NeverFinishes(job, ser, s, sl);
  }

  /** Two transactions on the same object, on different proxies; the first fails its
      verification. */
  function TwoApart(run: BusinessLogic): (w: Workload)
    ensures ValidWorkload(w)
  {
    var o := PlainId(0);
    Workload([Txn([o], false, run), Txn([o], true, run)], map[o := CoinOf(0)], 2, [0, 1])
  }

  /** Completion can fail: the second of those transactions must fetch what the first
      never wrote, and is complete in no reachable state. */
  lemma {:induction false} CompletionCanFail(run: BusinessLogic, s: State)
    requires Reachable(JobOf(TwoApart(run)), s)
    ensures FetchesSkipped(TwoApart(run)) && !Completed(JobOf(TwoApart(run)), s, 1)
  {
    var w := TwoApart(run);
    var sl := Slot(1, PlainId(0));
    assert LastToucher(w.txns, 1, PlainId(0)) == 0 && Doomed(w.txns, w.init, 0);
    assert FetchIsSkipped(w, sl) && sl.o in w.txns[sl.i].inputs;
    JobIsDescribed(w);
    DoomedFetchNeverCompletes(w, JobOf(w), SerialOf(w.txns, w.init), s, sl);
  }

  /** If every transaction passes verification and every object exists, nothing is
      doomed and the serial run executes everything. */
  lemma {:induction false} NothingIsSkipped(txns: seq<Txn>, init: map<ObjectId, Content>, i: nat)
    requires i < |txns|
    requires forall k, o :: 0 <= k < |txns| && o in txns[k].inputs ==> o in init
    requires forall k :: 0 <= k < |txns| ==> txns[k].verified
    ensures !Doomed(txns, init, i) && SerialOk(txns, init, i)
    decreases i
  {
    forall k: nat | k < i ensures !Doomed(txns, init, k) {
      NothingIsSkipped(txns, init, k);
    }
    SkippedIsDoomed(txns, init, i);
  }

  /** With successful verification, the version check of every transaction succeeds
      whenever it is made: its proxy holds each object at exactly the assigned version. */
  lemma {:induction false} VerifiedCheckSucceeds(w: Workload, job: Job, ser: Serial, s: State, i: nat)
    requires Describes(w, job, ser) && Reachable(job, s) && i < |w.txns| && Enabled(job, s, Check(i))
    requires forall k, o :: 0 <= k < |w.txns| && o in w.txns[k].inputs ==> o in w.init
    requires forall k :: 0 <= k < |w.txns| ==> w.txns[k].verified
    ensures VersionsMatch(job, s, i)
  {
    NothingIsSkipped(w.txns, w.init, i);
    forall o | o in w.txns[i].inputs
      ensures Place(w.route[i], o) in s.store && s.store[Place(w.route[i], o)].version == Required(w.txns, i)[o]
    {
      ExactVersions(w, job, ser, s, i, o);
    }
  }

  /** With successful verification, every maximal run on any number of proxies,
      under any routing, completes every transaction. */
  lemma {:induction false} VerifiedWorkloadsComplete(w: Workload, job: Job, ser: Serial, s: State)
    requires Describes(w, job, ser) && Reachable(job, s) && Stuck(job, s)
    requires forall k, o :: 0 <= k < |w.txns| && o in w.txns[k].inputs ==> o in w.init
    requires forall k :: 0 <= k < |w.txns| ==> w.txns[k].verified
    ensures AllCompleted(job, s)
  {
    MaximalRuns(w, job, ser, s);
    if FetchesSkipped(w) {
      var sl: Slot :| sl.i < |w.txns| && sl.o in w.txns[sl.i].inputs && FetchIsSkipped(w, sl);
      NothingIsSkipped(w.txns, w.init, LastToucher(w.txns, sl.i, sl.o));
    }
  }

  /** On a single proxy, every maximal run completes every transaction, whatever
      the verification verdicts. */
  lemma {:induction false} SingleProxyCompletes(w: Workload, job: Job, ser: Serial, s: State)
    requires Describes(w, job, ser) && Reachable(job, s) && Stuck(job, s) && w.proxies == 1
    ensures AllCompleted(job, s)
  {
    MaximalRuns(w, job, ser, s);
  }
}
