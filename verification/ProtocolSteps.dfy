/** Every step of the proxies keeps the invariant. */
module ProtocolSteps {
  import opened Types
  import opened Protocol
  import opened ProtocolInvariant

  // ------------------------------------------------- what the invariant implies

  /** A task that passed a wait comes after the transaction it waited for. */
  lemma {:induction false} WaitedIsAfterPrevious(job: Job, ser: Serial, s: State, sl: Slot)
    requires Explains(job, ser) && Inv(job, ser, s)
    requires IsSlot(job, sl) && Prev(ser, sl) >= 0 && (sl in s.waited || (sl in s.reqs && Answered(s.reqs[sl])))
    ensures Prev(ser, sl) in s.done
  {
    assert SlotExplained(job, ser, sl) && SlotInv(job, ser, s, sl);
    if sl in s.waited {
      assert Produced(job, ser, s, sl);
    }
    assert PrevSlot(ser, sl) in s.notified;
  }

  lemma {:induction false} PreviousIsFinished(job: Job, ser: Serial, s: State, sl: Slot)
    requires Explains(job, ser) && Inv(job, ser, s)
    requires IsSlot(job, sl) && sl.i in s.done && Prev(ser, sl) >= 0
    ensures Prev(ser, sl) in s.done
  {
    assert SlotExplained(job, ser, sl) && TxnExplained(job, ser, Prev(ser, sl));
    assert Slot(sl.i, sl.o) == sl && Awaits(job, sl);
    WaitedIsAfterPrevious(job, ser, s, sl);
  }

  /** Along one object, transactions finish in commit order. */
  lemma {:induction false} FinishesInOrder(job: Job, ser: Serial, s: State, a: Slot, b: Slot)
    requires Explains(job, ser) && Inv(job, ser, s)
    requires IsSlot(job, a) && IsSlot(job, b) && a.o == b.o && a.i < b.i && b.i in s.done
    ensures a.i in s.done
    decreases b.i
  {
    VersionsIncrease(job, ser, a, b);
    PreviousIsFinished(job, ser, s, b);
    if Prev(ser, b) > a.i {
      assert SlotExplained(job, ser, b);
      FinishesInOrder(job, ser, s, a, PrevSlot(ser, b));
    }
  }

  /** An earlier transaction's version is required exactly when it comes just before. */
  lemma {:induction false} EarlierVersion(job: Job, ser: Serial, sl: Slot, j: nat)
    requires Explains(job, ser) && IsSlot(job, sl) && IsSlot(job, Slot(j, sl.o)) && j < sl.i
    ensures job.next[j] <= job.required[sl.i][sl.o]
    ensures job.next[j] == job.required[sl.i][sl.o] ==> Prev(ser, sl) == j
  {
    assert SlotExplained(job, ser, sl);
    VersionsIncrease(job, ser, Slot(j, sl.o), sl);
    if Prev(ser, sl) > j {
      VersionsIncrease(job, ser, Slot(j, sl.o), PrevSlot(ser, sl));
    }
  }

  lemma {:induction false} ProducedBeforeFinish(job: Job, ser: Serial, s: State, sl: Slot, obj: Object, j: nat)
    requires Explains(job, ser) && Inv(job, ser, s)
    requires IsSlot(job, sl) && sl.i !in s.done && j in s.done && IsOutput(job, ser, Slot(j, sl.o), obj)
    ensures obj.version <= job.required[sl.i][sl.o]
    ensures obj.version == job.required[sl.i][sl.o] ==> Prev(ser, sl) == j
  {
    if j > sl.i {
      FinishesInOrder(job, ser, s, sl, Slot(j, sl.o));
    }
    EarlierVersion(job, ser, sl, j);
  }

  /** Until a transaction finishes, no store holds its objects beyond the versions
      it requires, and an object at the required version is the serial one. */
  lemma {:induction false} StoredBeforeFinish(job: Job, ser: Serial, s: State, sl: Slot, p: ProxyId)
    requires Explains(job, ser) && Inv(job, ser, s)
    requires IsSlot(job, sl) && sl.i !in s.done && Place(p, sl.o) in s.store
    ensures s.store[Place(p, sl.o)].version <= job.required[sl.i][sl.o]
    ensures s.store[Place(p, sl.o)].version == job.required[sl.i][sl.o] ==>
              && InputReady(job, ser, sl)
              && (Prev(ser, sl) >= 0 ==> IsOutput(job, ser, PrevSlot(ser, sl), s.store[Place(p, sl.o)]))
              && (Prev(ser, sl) < 0 ==> s.store[Place(p, sl.o)].content == job.init[sl.o])
  {
    var obj := s.store[Place(p, sl.o)];
    assert SlotExplained(job, ser, sl);
    assert PlaceInv(job, ser, s, Place(p, sl.o));
    if sl.o in job.init && obj == Object(INITIAL_VERSION, job.init[sl.o]) {
      if Prev(ser, sl) >= 0 {
        assert TxnExplained(job, ser, Prev(ser, sl));
      }
    } else {
      var j: nat :| j in s.done && IsOutput(job, ser, Slot(j, sl.o), obj);
      ProducedBeforeFinish(job, ser, s, sl, obj, j);
    }
  }

  /** A stored version is never below the initial one. */
  lemma {:induction false} StoredIsInitialized(job: Job, ser: Serial, s: State, place: Place)
    requires Explains(job, ser) && Inv(job, ser, s) && place in s.store
    ensures s.store[place].version >= INITIAL_VERSION
  {
    assert PlaceInv(job, ser, s, place);
    if !(place.o in job.init && s.store[place] == Object(INITIAL_VERSION, job.init[place.o])) {
      var j: nat :| j in s.done && IsOutput(job, ser, Slot(j, place.o), s.store[place]);
      assert TxnExplained(job, ser, j);
    }
  }

  /** After the wait, whatever the serial run has ready has reached the local store. */
  lemma {:induction false} ReadyIsStored(job: Job, ser: Serial, s: State, sl: Slot)
    requires Explains(job, ser) && Inv(job, ser, s)
    requires IsSlot(job, sl) && (Awaits(job, sl) ==> sl in s.waited) && InputReady(job, ser, sl)
    ensures Place(job.route[sl.i], sl.o) in s.store
    ensures s.store[Place(job.route[sl.i], sl.o)].version >= job.required[sl.i][sl.o]
  {
    assert SlotExplained(job, ser, sl);
    if Prev(ser, sl) < 0 {
      assert PlaceInv(job, ser, s, Place(job.route[sl.i], sl.o));
      StoredIsInitialized(job, ser, s, Place(job.route[sl.i], sl.o));
    } else {
      assert TxnExplained(job, ser, Prev(ser, sl));
      WaitedIsAfterPrevious(job, ser, s, sl);
      assert SlotInv(job, ser, s, sl) && SlotInv(job, ser, s, PrevSlot(ser, sl));
      assert Produced(job, ser, s, sl);
    }
  }

  /** Once the wait is over, the required version is in the local store exactly
      when the serial run has it ready. */
  lemma {:induction false} ReadyExactlyWhenStored(job: Job, ser: Serial, s: State, sl: Slot)
    requires Explains(job, ser) && Inv(job, ser, s)
    requires IsSlot(job, sl) && sl.i !in s.done && (Awaits(job, sl) ==> sl in s.waited)
    ensures InputReady(job, ser, sl) <==>
              Place(job.route[sl.i], sl.o) in s.store
              && s.store[Place(job.route[sl.i], sl.o)].version == job.required[sl.i][sl.o]
  {
    if Place(job.route[sl.i], sl.o) in s.store {
      StoredBeforeFinish(job, ser, s, sl, job.route[sl.i]);
    }
    if InputReady(job, ser, sl) {
      ReadyIsStored(job, ser, s, sl);
    }
  }
}
