/** What the executors share: the object store of a proxy, the version check before
    execution, the next version, and the commit of a transaction's outputs. The
    specification here is the one that the protocol and the serial run use. */
module Executor {
  import opened Types
  import opened Protocol
  import opened SerialExecution
  import Forwarder

  type ObjectVersion = Forwarder.ObjectVersion

  /** The first version listed for `o`. */
  function Find(required: seq<ObjectVersion>, o: ObjectId): Option<Version>
  {
    if required == [] then None
    else if required[0].0 == o then Some(required[0].1)
    else Find(required[1..], o)
  }

  /** Every declared object is there, at the version listed for it if there is one. */
  predicate Matches(objects: map<ObjectId, Object>, inputs: seq<ObjectId>, required: seq<ObjectVersion>)
  {
    forall o :: o in inputs ==>
      o in objects && (Find(required, o).Some? ==> objects[o].version == Find(required, o).value)
  }

  class ObjectStore {
    var objects: map<ObjectId, Object>

    constructor ()
      ensures objects == map[]
    {
      objects := map[];
    }

    method ReadObject(o: ObjectId) returns (r: Option<Object>)
      ensures r == if o in objects then Some(objects[o]) else None
    {
      r := if o in objects then Some(objects[o]) else None;
    }

    method WriteObject(o: ObjectId, obj: Object)
      modifies this
      ensures objects == old(objects)[o := obj]
    {
      objects := objects[o := obj];
    }

    /** Inserts the new objects one by one; the order does not matter. */
    method CommitNewObjects(newState: map<ObjectId, Object>)
      modifies this
      ensures objects == old(objects) + newState
    {
      var todo := newState.Keys;
      while todo != {}
        invariant todo <= newState.Keys
        invariant objects == old(objects) + map o | o in newState && o !in todo :: newState[o]
        decreases |todo|
      {
        var o :| o in todo;
        objects := objects[o := newState[o]];
        todo := todo - {o};
      }
    }

    /** The check made just before execution. */
    method PreExecuteCheck(inputs: seq<ObjectId>, required: seq<ObjectVersion>) returns (ok: bool)
      ensures ok <==> Matches(objects, inputs, required)
    {
      var n := 0;
      while n < |inputs|
        invariant 0 <= n <= |inputs|
        invariant Matches(objects, inputs[..n], required)
      {
        var found := ReadObject(inputs[n]);
        if found.None? {
          return false;
        }
        var expected := Find(required, inputs[n]);
        if expected.Some? && found.value.version != expected.value {
          return false;
        }
        n := n + 1;
      }
      return true;
    }
  }

  /** One above the highest listed version, and never below one above the initial one. */
  method NextVersion(required: seq<ObjectVersion>) returns (next: Version)
    ensures Forwarder.IsNextOfList(required, next)
  {
    var maxVersion := INITIAL_VERSION;
    var n := 0;
    while n < |required|
      invariant 0 <= n <= |required|
      invariant maxVersion >= INITIAL_VERSION && forall m :: 0 <= m < n ==> required[m].1 <= maxVersion
      invariant maxVersion == INITIAL_VERSION || exists m :: 0 <= m < n && required[m].1 == maxVersion
    {
      if required[n].1 > maxVersion {
        maxVersion := required[n].1;
      }
      n := n + 1;
    }
    next := maxVersion + 1;
  }

  lemma {:induction false} FindIsFirst(required: seq<ObjectVersion>, o: ObjectId)
    ensures Find(required, o).None? <==> forall n :: 0 <= n < |required| ==> required[n].0 != o
    ensures forall n :: 0 <= n < |required| && required[n].0 == o && (forall m :: 0 <= m < n ==> required[m].0 != o) ==>
              Find(required, o) == Some(required[n].1)
  {
    if required != [] && required[0].0 != o {
      FindIsFirst(required[1..], o);
      assert forall n :: 0 < n < |required| ==> required[n] == required[1..][n - 1];
      assert forall n :: 0 <= n < |required| - 1 ==> required[1..][n] == required[n + 1];
    }
  }

  /** An object that is not listed only has to be there; for one that is, the first
      version listed counts. */
  lemma {:induction false} CheckCountsFirst(objects: map<ObjectId, Object>, required: seq<ObjectVersion>, o: ObjectId,
      n: nat)
    requires n <= |required| && forall m :: 0 <= m < n ==> required[m].0 != o
    requires n < |required| ==> required[n].0 == o
    ensures Matches(objects, [o], required) <==>
              o in objects && (n < |required| ==> objects[o].version == required[n].1)
  {
    FindIsFirst(required, o);
    assert o in [o];
  }

  // ------------------------------------------------- the executors do what the protocol assumes

  lemma {:induction false} FindListed(required: seq<ObjectVersion>, n: nat)
    requires n < |required| && forall a, b :: 0 <= a < b < |required| ==> required[a].0 != required[b].0
    ensures Find(required, required[n].0) == Some(required[n].1)
  {
    if n > 0 {
      FindListed(required[1..], n - 1);
    }
  }

  /** With a list of the assigned versions, in any order, the check on the executor's
      own list of inputs is the check of the serial run. */
  lemma {:induction false} CheckIsSerialMatch(txns: seq<Txn>, store: map<ObjectId, Object>, i: nat,
      inputs: seq<ObjectId>, required: seq<ObjectVersion>)
    requires i < |txns| && SameObjects(inputs, txns[i].inputs) && Forwarder.ListsOnce(required, Required(txns, i))
    ensures txns[i].verified && Matches(store, inputs, required) <==> SerialMatch(txns, store, i)
  {
    forall o | o in inputs ensures Find(required, o) == Some(Required(txns, i)[o]) {
      assert o in Required(txns, i);
      var n :| 0 <= n < |required| && required[n].0 == o;
      FindListed(required, n);
    }
  }

  /** With such a list, the executor's next version is the assigned one. */
  lemma {:induction false} ExecutorNextIsAssigned(txns: seq<Txn>, i: nat, required: seq<ObjectVersion>, next: Version)
    requires i < |txns| && Forwarder.ListsOnce(required, Required(txns, i)) && Forwarder.IsNextOfList(required, next)
    ensures next == Next(txns, i)
  {
    Forwarder.OwnershipNextAgrees(required, Required(txns, i), next, Next(txns, i));
  }

  /** What an execution does depends on which objects are declared, not on their order. */
  lemma {:induction false} ExecutedSameObjects(store: map<ObjectId, Object>, a: seq<ObjectId>, b: seq<ObjectId>,
      next: Version, run: BusinessLogic)
    requires SameObjects(a, b)
    ensures Executed(store, a, next, run) == Executed(store, b, next, run)
  {
    assert SerialContents(store, a) == SerialContents(store, b);
  }

  /** The store of one proxy. */
  function LocalStore(s: State, p: ProxyId): map<ObjectId, Object>
  {
    map place | place in s.store && place.p == p :: place.o := s.store[place]
  }

  lemma {:induction false} LocalStoreAt(s: State, p: ProxyId, o: ObjectId)
    ensures o in LocalStore(s, p) <==> Place(p, o) in s.store
    ensures Place(p, o) in s.store ==> LocalStore(s, p)[o] == s.store[Place(p, o)]
  {
    if o in LocalStore(s, p) {
      var place :| place in s.store && place.p == p && place.o == o;
      assert place == Place(p, o);
    }
  }

  lemma {:induction false} ReadSetIsLocal(job: Job, s: State, i: nat)
    requires WellShaped(job) && i < |job.txns|
    ensures ReadSet(job, s, i) == SerialContents(LocalStore(s, job.route[i]), job.txns[i].inputs)
  {
    var p := job.route[i];
    forall o | o in job.txns[i].inputs
      ensures o in LocalStore(s, p) <==> Place(p, o) in s.store
      ensures Place(p, o) in s.store ==> LocalStore(s, p)[o] == s.store[Place(p, o)]
    {
      LocalStoreAt(s, p, o);
    }
  }

  /** What an execution step leaves at one place. */
  lemma {:induction false} ExecuteStepAt(job: Job, s: State, i: nat, p: ProxyId, o: ObjectId)
    requires WellShaped(job) && Enabled(job, s, Execute(i))
    ensures var t := Apply(job, s, Execute(i));
            if s.checked[i] && p == job.route[i] && o in job.txns[i].inputs then
              Place(p, o) in t.store
              && t.store[Place(p, o)] == Object(job.next[i], job.txns[i].run(o, ReadSet(job, s, i)))
            else
              (Place(p, o) in t.store <==> Place(p, o) in s.store)
              && (Place(p, o) in s.store ==> t.store[Place(p, o)] == s.store[Place(p, o)])
  {
  }

  /** The store of proxy `p` after an execution step. */
  function ExecutedLocally(job: Job, s: State, i: nat, p: ProxyId): map<ObjectId, Object>
    requires WellShaped(job) && Enabled(job, s, Execute(i))
  {
    if s.checked[i] && p == job.route[i] then
      Executed(LocalStore(s, p), job.txns[i].inputs, job.next[i], job.txns[i].run)
    else LocalStore(s, p)
  }

  lemma {:induction false} ExecutedLocallyAt(job: Job, s: State, i: nat, p: ProxyId, o: ObjectId)
    requires WellShaped(job) && Enabled(job, s, Execute(i))
    ensures var t := Apply(job, s, Execute(i)); var spec := ExecutedLocally(job, s, i, p);
            (Place(p, o) in t.store <==> o in spec) && (o in spec ==> t.store[Place(p, o)] == spec[o])
  {
    ReadSetIsLocal(job, s, i);
    LocalStoreAt(s, p, o);
    ExecuteStepAt(job, s, i, p, o);
  }

  lemma {:induction false} ExecutedLocallyAgrees(job: Job, s: State, i: nat, p: ProxyId, o: ObjectId)
    requires WellShaped(job) && Enabled(job, s, Execute(i))
    ensures var after, spec := LocalStore(Apply(job, s, Execute(i)), p), ExecutedLocally(job, s, i, p);
            (o in after <==> o in spec) && (o in spec ==> after[o] == spec[o])
  {
    LocalStoreAt(Apply(job, s, Execute(i)), p, o);
    ExecutedLocallyAt(job, s, i, p, o);
  }

  lemma {:induction false} SameMaps(a: map<ObjectId, Object>, b: map<ObjectId, Object>)
    requires forall o :: (o in a <==> o in b) && (o in b ==> a[o] == b[o])
    ensures a == b
  {
  }

  /** The protocol's execution step is the executor's, on the transaction's proxy, and
      leaves the stores of the other proxies alone. */
  lemma {:induction false} ExecuteStepExecutes(job: Job, s: State, i: nat, p: ProxyId)
    requires WellShaped(job) && Enabled(job, s, Execute(i))
    ensures LocalStore(Apply(job, s, Execute(i)), p) == ExecutedLocally(job, s, i, p)
  {
    var after, spec := LocalStore(Apply(job, s, Execute(i)), p), ExecutedLocally(job, s, i, p);
    forall o ensures (o in after <==> o in spec) && (o in spec ==> after[o] == spec[o]) {
      ExecutedLocallyAgrees(job, s, i, p, o);
    }
    SameMaps(after, spec);
  }
}
