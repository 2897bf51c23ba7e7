/** The synthetic executor: every declared object becomes a gas coin of the same value. */
module FakeExecutor {
  import opened Types
  import opened SerialExecution
  import opened Executor
  import Forwarder

  /** The value of the coin that replaces every input. */
  const COIN_VALUE: nat := 10

  function UpdateObjectWithVersion(version: Version): Object
  {
    Object(version, CoinOf(COIN_VALUE))
  }

  /** The business logic as the protocol sees it. */
  function Logic(o: ObjectId, contents: map<ObjectId, Content>): Content
  {
    CoinOf(COIN_VALUE)
  }

  /** Runs a transaction on the store and commits it. An unknown object makes the
      original panic, which is the `false` here; then nothing is committed. */
  method Execute(store: ObjectStore, inputs: seq<ObjectId>, required: seq<ObjectVersion>) returns (ok: bool)
    modifies store
    ensures ok <==> forall o :: o in inputs ==> o in old(store.objects)
    ensures !ok ==> store.objects == old(store.objects)
    ensures ok ==> exists next ::
      Forwarder.IsNextOfList(required, next) && store.objects == Executed(old(store.objects), inputs, next, Logic)
    ensures ok ==> forall o :: o in inputs ==> o in store.objects && store.objects[o].content == CoinOf(10)
  {
    var next := NextVersion(required);
    var newState: map<ObjectId, Object> := map[];
    var n := 0;
    while n < |inputs|
      invariant 0 <= n <= |inputs| && store.objects == old(store.objects)
      invariant forall o :: o in inputs[..n] ==> o in store.objects
      invariant newState == map o | o in inputs[..n] :: UpdateObjectWithVersion(next)
    {
      var input := store.ReadObject(inputs[n]);
      if input.None? {
        return false;
      }
      newState := newState[inputs[n] := UpdateObjectWithVersion(next)];
      n := n + 1;
    }
    assert inputs[..n] == inputs;
    store.CommitNewObjects(newState);
    return true;
  }

  /** Check and execution together are one step of the serial run, for the inputs in
      the transaction's own order and the assigned versions in any order. */
  method CheckAndExecute(store: ObjectStore, txns: seq<Txn>, i: nat, inputs: seq<ObjectId>,
      required: seq<ObjectVersion>)
    returns (executed: bool)
    requires i < |txns| && txns[i].run == Logic && SameObjects(inputs, txns[i].inputs)
    requires Forwarder.ListsOnce(required, Required(txns, i))
    modifies store
    ensures store.objects == SerialStep(txns, old(store.objects), i)
    ensures executed <==> SerialMatch(txns, old(store.objects), i)
  {
    CheckIsSerialMatch(txns, store.objects, i, inputs, required);
    if !txns[i].verified {
      return false;
    }
    executed := store.PreExecuteCheck(inputs, required);
    if executed {
      ghost var before := store.objects;
      executed := Execute(store, inputs, required);
      ghost var next :| Forwarder.IsNextOfList(required, next) &&
        store.objects == Executed(before, inputs, next, Logic);
      ExecutorNextIsAssigned(txns, i, required, next);
      ExecutedSameObjects(before, inputs, txns[i].inputs, next, Logic);
    }
  }
}
