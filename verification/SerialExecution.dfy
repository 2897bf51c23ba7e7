/** Version assignment over a commit sequence, serial execution with the version
    check, and the proof that the messages built from them explain themselves. */
module SerialExecution {
  import opened Types
  import opened Protocol
  import opened ProtocolInvariant

  // ------------------------------------------------- version assignment

  function CurrentVersion(versions: map<ObjectId, Version>, o: ObjectId): Version
  {
    if o in versions then versions[o] else INITIAL_VERSION
  }

  /** The versions at which a transaction touching `inputs` requires its objects. */
  function RequiredVersions(versions: map<ObjectId, Version>, inputs: seq<ObjectId>): map<ObjectId, Version>
  {
    map o | o in inputs :: CurrentVersion(versions, o)
  }

  function MaxVersion(versions: map<ObjectId, Version>, inputs: seq<ObjectId>): (m: Version)
    ensures m >= INITIAL_VERSION
    ensures forall o :: o in inputs ==> CurrentVersion(versions, o) <= m
    ensures m == INITIAL_VERSION || exists o :: o in inputs && CurrentVersion(versions, o) == m
  {
    if inputs == [] then INITIAL_VERSION
    else
      var last := inputs[|inputs| - 1];
      var m := MaxVersion(versions, inputs[..|inputs| - 1]);
      if CurrentVersion(versions, last) > m then CurrentVersion(versions, last) else m
  }

  /** The version to which a transaction touching `inputs` moves all of them. */
  function AssignedVersion(versions: map<ObjectId, Version>, inputs: seq<ObjectId>): (n: Version)
    ensures IsNextVersion(RequiredVersions(versions, inputs), n)
  {
    var n := MaxVersion(versions, inputs) + 1;
    assert n > INITIAL_VERSION + 1 ==>
        exists o :: o in RequiredVersions(versions, inputs) && RequiredVersions(versions, inputs)[o] + 1 == n by {
      if n > INITIAL_VERSION + 1 {
        var o :| o in inputs && CurrentVersion(versions, o) == n - 1;
        assert RequiredVersions(versions, inputs)[o] + 1 == n;
      }
    }
    n
  }

  function Assign(versions: map<ObjectId, Version>, inputs: seq<ObjectId>): map<ObjectId, Version>
  {
    versions + map o | o in inputs :: AssignedVersion(versions, inputs)
  }

  /** The assigner's version map after the first `n` transactions. */
  function VersionsAfter(txns: seq<Txn>, n: nat): map<ObjectId, Version>
    requires n <= |txns|
  {
    if n == 0 then map[] else Assign(VersionsAfter(txns, n - 1), txns[n - 1].inputs)
  }

  function Required(txns: seq<Txn>, i: nat): map<ObjectId, Version>
    requires i < |txns|
  {
    RequiredVersions(VersionsAfter(txns, i), txns[i].inputs)
  }

  function Next(txns: seq<Txn>, i: nat): Version
    requires i < |txns|
  {
    AssignedVersion(VersionsAfter(txns, i), txns[i].inputs)
  }

  /** The last of the first `n` transactions that touches `o`, or -1. */
  function LastToucher(txns: seq<Txn>, n: nat, o: ObjectId): (j: int)
    requires n <= |txns|
    ensures -1 <= j < n
    ensures j >= 0 ==> o in txns[j].inputs
    ensures forall k :: j < k < n ==> o !in txns[k].inputs
  {
    if n == 0 then -1
    else if o in txns[n - 1].inputs then n - 1
    else LastToucher(txns, n - 1, o)
  }

  /** The assigner's current version of an object is what its last toucher assigned. */
  lemma {:induction false} VersionFromLastToucher(txns: seq<Txn>, n: nat, o: ObjectId)
    requires n <= |txns|
    ensures var j := LastToucher(txns, n, o);
            CurrentVersion(VersionsAfter(txns, n), o) == if j < 0 then INITIAL_VERSION else Next(txns, j)
  {
    if n > 0 {
      VersionFromLastToucher(txns, n - 1, o);
    }
  }

  // ------------------------------------------------- serial execution

  predicate SerialMatch(txns: seq<Txn>, store: map<ObjectId, Object>, i: nat)
    requires i < |txns|
  {
    txns[i].verified
    && forall o :: o in txns[i].inputs ==> o in store && store[o].version == Required(txns, i)[o]
  }

  function SerialContents(store: map<ObjectId, Object>, inputs: seq<ObjectId>): map<ObjectId, Content>
  {
    map o | o in inputs && o in store :: store[o].content
  }

  type BusinessLogic = (ObjectId, map<ObjectId, Content>) -> Content

  /** The store after a transaction touching `inputs` has run and committed. */
  function Executed(store: map<ObjectId, Object>, inputs: seq<ObjectId>, next: Version, run: BusinessLogic)
    : map<ObjectId, Object>
  {
    store + map o | o in inputs :: Object(next, run(o, SerialContents(store, inputs)))
  }

  function SerialStep(txns: seq<Txn>, store: map<ObjectId, Object>, i: nat): map<ObjectId, Object>
    requires i < |txns|
  {
    if SerialMatch(txns, store, i) then Executed(store, txns[i].inputs, Next(txns, i), txns[i].run) else store
  }

  /** One store, one transaction at a time, in commit order, after `n` transactions. */
  function SerialStore(txns: seq<Txn>, init: map<ObjectId, Content>, n: nat): map<ObjectId, Object>
    requires n <= |txns|
  {
    if n == 0 then map o | o in init :: Object(INITIAL_VERSION, init[o])
    else SerialStep(txns, SerialStore(txns, init, n - 1), n - 1)
  }

  predicate SerialOk(txns: seq<Txn>, init: map<ObjectId, Content>, i: nat)
    requires i < |txns|
  {
    SerialMatch(txns, SerialStore(txns, init, i), i)
  }

  function SerialOutput(txns: seq<Txn>, init: map<ObjectId, Content>, sl: Slot): Content
    requires sl.i < |txns|
  {
    txns[sl.i].run(sl.o, SerialContents(SerialStore(txns, init, sl.i), txns[sl.i].inputs))
  }

  /** What one serial step leaves at an object. */
  lemma {:induction false} SerialStepAt(txns: seq<Txn>, store: map<ObjectId, Object>, i: nat, o: ObjectId)
    requires i < |txns|
    ensures var t := SerialStep(txns, store, i);
            if o in txns[i].inputs && SerialMatch(txns, store, i) then
              o in t && t[o] == Object(Next(txns, i), txns[i].run(o, SerialContents(store, txns[i].inputs)))
            else
              (o in t <==> o in store) && (o in store ==> t[o] == store[o])
  {
  }

  /** What a store holds of an object last touched by `j`, or by nobody if `j` is -1. */
  ghost predicate HoldsFrom(txns: seq<Txn>, init: map<ObjectId, Content>, store: map<ObjectId, Object>, j: int,
      o: ObjectId)
    requires j < |txns|
  {
    if j < 0 then
      (o in store <==> o in init) && (o in init ==> store[o] == Object(INITIAL_VERSION, init[o]))
    else if SerialOk(txns, init, j) then
      o in store && store[o] == Object(Next(txns, j), SerialOutput(txns, init, Slot(j, o)))
    else
      o in store ==> store[o].version < Next(txns, j)
  }

  /** What an object's last toucher left is older than what the next one assigns. */
  lemma {:induction false} HeldIsOlder(txns: seq<Txn>, init: map<ObjectId, Content>, store: map<ObjectId, Object>,
      n: nat, o: ObjectId)
    requires n < |txns| && o in txns[n].inputs && HoldsFrom(txns, init, store, LastToucher(txns, n, o), o)
    ensures o in store ==> store[o].version < Next(txns, n)
  {
    VersionFromLastToucher(txns, n, o);
    assert o in Required(txns, n) && Required(txns, n)[o] < Next(txns, n);
  }

  /** What the serial store says about an object, in terms of its last toucher. */
  lemma {:induction false} SerialStoreAt(txns: seq<Txn>, init: map<ObjectId, Content>, n: nat, o: ObjectId)
    requires n <= |txns|
    ensures HoldsFrom(txns, init, SerialStore(txns, init, n), LastToucher(txns, n, o), o)
  {
    if n > 0 {
      var before := SerialStore(txns, init, n - 1);
      SerialStoreAt(txns, init, n - 1, o);
      SerialStepAt(txns, before, n - 1, o);
      if o in txns[n - 1].inputs {
        HeldIsOlder(txns, init, before, n - 1, o);
      }
    }
  }

  // ------------------------------------------------- the job and its explanation

  /** Where transaction `i` must fetch each of its objects from, by ownership history. */
  function Owners(txns: seq<Txn>, route: seq<ProxyId>, i: nat): map<ObjectId, Option<ProxyId>>
    requires i < |txns| == |route|
  {
    map o | o in txns[i].inputs ::
      var j := LastToucher(txns, i, o);
      if j < 0 || route[j] == route[i] then None else Some(route[j])
  }

  /** A commit sequence, the initial objects, and a proxy for every transaction. */
  datatype Workload = Workload(txns: seq<Txn>, init: map<ObjectId, Content>, proxies: nat, route: seq<ProxyId>)

  /** Every transaction has a proxy. */
  predicate ValidWorkload(w: Workload)
  {
    |w.route| == |w.txns| && forall i :: 0 <= i < |w.route| ==> w.route[i] < w.proxies
  }

  /** The messages the primary sends for a workload. */
  function JobOf(w: Workload): (job: Job)
    requires ValidWorkload(w)
    ensures WellShaped(job)
  {
    Job(w.txns, w.proxies, w.route, w.init,
        seq(|w.txns|, i requires 0 <= i < |w.txns| => Required(w.txns, i)),
        seq(|w.txns|, i requires 0 <= i < |w.txns| => Next(w.txns, i)),
        seq(|w.txns|, i requires 0 <= i < |w.txns| => Owners(w.txns, w.route, i)))
  }

  function SerialOf(txns: seq<Txn>, init: map<ObjectId, Content>): Serial
  {
    Serial(
      map i, k | 0 <= i < |txns| && 0 <= k < |txns[i].inputs| ::
        Slot(i, txns[i].inputs[k]) := LastToucher(txns, i, txns[i].inputs[k]),
      seq(|txns|, i requires 0 <= i < |txns| => SerialOk(txns, init, i)),
      map i, k | 0 <= i < |txns| && 0 <= k < |txns[i].inputs| ::
        Slot(i, txns[i].inputs[k]) := SerialOutput(txns, init, Slot(i, txns[i].inputs[k])))
  }

  /** `job` holds the assigner's versions and the ownership history of `w`, and
      `ser` its serial execution. */
  ghost predicate Describes(w: Workload, job: Job, ser: Serial)
  {
    var txns, init := w.txns, w.init;
    && ValidWorkload(w) && WellShaped(job) && |ser.ok| == |txns|
    && job.txns == txns && job.proxies == w.proxies && job.route == w.route && job.init == init
    && (forall i {:trigger job.required[i]} :: 0 <= i < |txns| ==> job.required[i] == Required(txns, i))
    && (forall i {:trigger job.next[i]} :: 0 <= i < |txns| ==> job.next[i] == Next(txns, i))
    && (forall i {:trigger job.owner[i]} :: 0 <= i < |txns| ==> job.owner[i] == Owners(txns, w.route, i))
    && (forall i: nat {:trigger ser.ok[i]} :: i < |txns| ==> (ser.ok[i] <==> SerialOk(txns, init, i)))
    && (forall sl {:trigger Prev(ser, sl)} :: IsSlot(job, sl) ==> Prev(ser, sl) == LastToucher(txns, sl.i, sl.o))
    && (forall sl {:trigger ser.out[sl]} {:trigger sl in ser.out} :: IsSlot(job, sl) ==>
          sl in ser.out && ser.out[sl] == SerialOutput(txns, init, sl))
  }

  lemma {:induction false} SerialOfAt(txns: seq<Txn>, init: map<ObjectId, Content>, sl: Slot)
    requires sl.i < |txns| && sl.o in txns[sl.i].inputs
    ensures Prev(SerialOf(txns, init), sl) == LastToucher(txns, sl.i, sl.o)
    ensures sl in SerialOf(txns, init).out && SerialOf(txns, init).out[sl] == SerialOutput(txns, init, sl)
  {
    var k :| 0 <= k < |txns[sl.i].inputs| && txns[sl.i].inputs[k] == sl.o;
    assert sl == Slot(sl.i, txns[sl.i].inputs[k]);
  }

  lemma {:induction false} JobIsDescribed(w: Workload)
    requires ValidWorkload(w)
    ensures Describes(w, JobOf(w), SerialOf(w.txns, w.init))
  {
    var txns, init := w.txns, w.init;
    var job, ser := JobOf(w), SerialOf(txns, init);
    forall sl | IsSlot(job, sl)
      ensures Prev(ser, sl) == LastToucher(txns, sl.i, sl.o)
      ensures sl in ser.out && ser.out[sl] == SerialOutput(txns, init, sl)
    {
      SerialOfAt(txns, init, sl);
    }
  }

  lemma {:induction false} SlotIsExplained(w: Workload, job: Job, ser: Serial, sl: Slot)
    requires Describes(w, job, ser) && IsSlot(job, sl)
    ensures SlotExplained(job, ser, sl)
  {
    var txns := w.txns;
    VersionFromLastToucher(txns, sl.i, sl.o);
  }

  /** A slot's input is ready in the explanation exactly when the serial store
      holds it at the required version, and then with the same content. */
  lemma {:induction false} InputIsReady(w: Workload, job: Job, ser: Serial, sl: Slot)
    requires Describes(w, job, ser) && IsSlot(job, sl)
    ensures var txns := w.txns; var store := SerialStore(txns, w.init, sl.i);
            && (InputReady(job, ser, sl) <==> sl.o in store && store[sl.o].version == Required(txns, sl.i)[sl.o])
            && (InputReady(job, ser, sl) && Prev(ser, sl) >= 0 ==> PrevSlot(ser, sl) in ser.out)
            && (InputReady(job, ser, sl) ==> InputContent(job, ser, sl) == store[sl.o].content)
  {
    var txns, init := w.txns, w.init;
    VersionFromLastToucher(txns, sl.i, sl.o);
    SerialStoreAt(txns, init, sl.i, sl.o);
    assert Prev(ser, sl) >= 0 ==> IsSlot(job, PrevSlot(ser, sl));
  }

  lemma {:induction false} ReadsAreSerialContents(w: Workload, job: Job, ser: Serial, i: nat,
      ins: map<ObjectId, Content>)
    requires Describes(w, job, ser) && i < |w.txns| && SerialReads(job, ser, i, ins)
    ensures ins == SerialContents(SerialStore(w.txns, w.init, i), w.txns[i].inputs)
  {
    var store := SerialStore(w.txns, w.init, i);
    forall o | o in ins ensures o in store && ins[o] == store[o].content {
      InputIsReady(w, job, ser, Slot(i, o));
    }
  }

  lemma {:induction false} TxnIsExplained(w: Workload, job: Job, ser: Serial, i: nat)
    requires Describes(w, job, ser) && i < |w.txns|
    ensures TxnExplained(job, ser, i)
  {
    var txns, init := w.txns, w.init;
    var store := SerialStore(txns, init, i);
    forall o | o in txns[i].inputs
      ensures Slot(i, o) in ser.out && ser.out[Slot(i, o)] == SerialOutput(txns, init, Slot(i, o))
      ensures InputReady(job, ser, Slot(i, o)) <==> o in store && store[o].version == Required(txns, i)[o]
      ensures InputReady(job, ser, Slot(i, o)) && Prev(ser, Slot(i, o)) >= 0 ==> PrevSlot(ser, Slot(i, o)) in ser.out
      ensures InputReady(job, ser, Slot(i, o)) ==> InputContent(job, ser, Slot(i, o)) == store[o].content
    {
      InputIsReady(w, job, ser, Slot(i, o));
    }
    forall o, ins | Ok(ser, i) && o in txns[i].inputs && SerialReads(job, ser, i, ins)
      ensures ser.out[Slot(i, o)] == txns[i].run(o, ins)
    {
      ReadsAreSerialContents(w, job, ser, i, ins);
    }
  }

  /** The primary's messages for a commit sequence agree with its serial execution. */
  lemma {:induction false} DescribedIsExplained(w: Workload, job: Job, ser: Serial)
    requires Describes(w, job, ser)
    ensures Explains(job, ser)
  {
    forall sl | IsSlot(job, sl) ensures SlotExplained(job, ser, sl) {
      SlotIsExplained(w, job, ser, sl);
    }
    forall i: nat | i < |w.txns| ensures TxnExplained(job, ser, i) {
      TxnIsExplained(w, job, ser, i);
    }
  }

  // ------------------------------------------------- consequences for the commit order

  /** The first transaction on an object requires version 2, at which objects start. */
  lemma {:induction false} FirstVersion(txns: seq<Txn>, k: nat, o: ObjectId)
    requires k < |txns| && o in txns[k].inputs && forall j :: 0 <= j < k ==> o !in txns[j].inputs
    ensures Required(txns, k)[o] == 2 && Next(txns, k) >= 3
  {
    VersionFromLastToucher(txns, k, o);
  }

  /** Over any commit sequence, the versions of one object strictly increase, and a
      transaction requires exactly what the previous one on that object assigned. */
  lemma {:induction false} VersionChain(txns: seq<Txn>, i: nat, k: nat, o: ObjectId)
    requires i < k < |txns| && o in txns[i].inputs && o in txns[k].inputs
    ensures Next(txns, i) <= Required(txns, k)[o] < Next(txns, k)
    ensures Required(txns, k)[o] == Next(txns, i) <==> LastToucher(txns, k, o) == i
    decreases k
  {
    VersionFromLastToucher(txns, k, o);
    var j := LastToucher(txns, k, o);
    assert Required(txns, k)[o] < Next(txns, k);
    if i < j {
      VersionChain(txns, i, j, o);
    }
  }

  /** Once a transaction is skipped, so is every later one that shares an object. */
  lemma {:induction false} SkipsCascade(txns: seq<Txn>, init: map<ObjectId, Content>, i: nat, k: nat, o: ObjectId)
    requires i < k < |txns| && o in txns[i].inputs && o in txns[k].inputs
    requires !SerialOk(txns, init, i)
    ensures !SerialOk(txns, init, k)
    decreases k
  {
    VersionFromLastToucher(txns, k, o);
    SerialStoreAt(txns, init, k, o);
    var j := LastToucher(txns, k, o);
    if i < j {
      SkipsCascade(txns, init, i, j, o);
    }
  }

  // ------------------------------------------------- which transactions are skipped

  predicate Shares(txns: seq<Txn>, k: nat, i: nat)
    requires k < |txns| && i < |txns|
  {
    exists o :: o in txns[k].inputs && o in txns[i].inputs
  }

  /** Transaction `i` fails its own verification, declares an object that does not
      exist, or shares an object with an earlier transaction of this kind. Versions
      and executions do not enter. */
  ghost predicate Doomed(txns: seq<Txn>, init: map<ObjectId, Content>, i: nat)
    requires i < |txns|
    decreases i
  {
    || !txns[i].verified
    || (exists o :: o in txns[i].inputs && o !in init)
    || exists k: nat :: k < i && Shares(txns, k, i) && Doomed(txns, init, k)
  }

  /** A transaction that passes verification is skipped exactly if one of its objects
      is missing and nobody touched it before, or was last touched by a skipped one. */
  lemma {:induction false} SkippedLocally(txns: seq<Txn>, init: map<ObjectId, Content>, i: nat)
    requires i < |txns|
    ensures !SerialOk(txns, init, i) <==>
              !txns[i].verified || exists o :: o in txns[i].inputs && IsUnavailable(txns, init, i, o)
  {
    forall o | o in txns[i].inputs
      ensures IsUnavailable(txns, init, i, o) <==>
                !(o in SerialStore(txns, init, i) && SerialStore(txns, init, i)[o].version == Required(txns, i)[o])
    {
      VersionFromLastToucher(txns, i, o);
      SerialStoreAt(txns, init, i, o);
    }
  }

  predicate IsUnavailable(txns: seq<Txn>, init: map<ObjectId, Content>, i: nat, o: ObjectId)
    requires i < |txns|
  {
    var j := LastToucher(txns, i, o);
    if j < 0 then o !in init else !SerialOk(txns, init, j)
  }

  /** The serial run skips exactly the doomed transactions. */
  lemma {:induction false} SkippedIsDoomed(txns: seq<Txn>, init: map<ObjectId, Content>, i: nat)
    requires i < |txns|
    ensures !SerialOk(txns, init, i) <==> Doomed(txns, init, i)
    decreases i
  {
    SkippedLocally(txns, init, i);
    if !SerialOk(txns, init, i) && txns[i].verified {
      var o :| o in txns[i].inputs && IsUnavailable(txns, init, i, o);
      var j := LastToucher(txns, i, o);
      if j >= 0 {
        SkippedIsDoomed(txns, init, j);
        assert Shares(txns, j, i);
      }
    }
    if Doomed(txns, init, i) && txns[i].verified {
      DoomedIsSkipped(txns, init, i);
    }
  }

  lemma {:induction false} DoomedIsSkipped(txns: seq<Txn>, init: map<ObjectId, Content>, i: nat)
    requires i < |txns| && txns[i].verified && Doomed(txns, init, i)
    ensures !SerialOk(txns, init, i)
    decreases i, 0
  {
    if k: nat :| k < i && Shares(txns, k, i) && Doomed(txns, init, k) {
      var o :| o in txns[k].inputs && o in txns[i].inputs;
      if txns[k].verified {
        DoomedIsSkipped(txns, init, k);
      }
      SkipsCascade(txns, init, k, i, o);
    } else {
      var o :| o in txns[i].inputs && o !in init;
      var j := LastToucher(txns, i, o);
      if j >= 0 {
        assert Shares(txns, j, i) && Doomed(txns, init, j);
        assert false;
      }
      SkippedLocally(txns, init, i);
      assert IsUnavailable(txns, init, i, o);
    }
  }
}
