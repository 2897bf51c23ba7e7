/** The life of a notify handle: both sides of a version obtain the same handle
    whichever looks it up first, each handle has one waiter and one notifier, and
    an entry stays in the dependency map exactly until its consumer is served. */
module HandleLifecycle {
  import opened Types
  import opened Protocol
  import opened ProtocolInvariant
  import opened ProtocolSteps
  import opened ProtocolKeeps
  import opened Progress

  /** Slot `x` waits on handle `h`, as a task or through the owner's request handler. */
  predicate WaitsOn(s: State, x: Slot, h: nat)
  {
    (x in s.prior && s.prior[x] == h) || (x in s.reqs && s.reqs[x].Serving? && s.reqs[x].h == h)
  }

  /** Slot `x` notifies handle `h`, as a producing task or through a fetched object. */
  predicate Signals(s: State, x: Slot, h: nat)
  {
    (x in s.next && s.next[x] == h) || (x in s.reqs && HoldsReplyHandle(s.reqs[x]) && s.reqs[x].h == h)
  }

  /** The two sides of a version that are on the same proxy hold the same handle. */
  lemma {:induction false} BothSidesShareHandle(job: Job, ser: Serial, s: State, x: Slot)
    requires Explains(job, ser) && Reachable(job, s) && IsSlot(job, x) && Prev(ser, x) >= 0
    ensures !Remote(job, x) && x in s.prior && PrevSlot(ser, x) in s.next ==> s.prior[x] == s.next[PrevSlot(ser, x)]
    ensures x in s.reqs && s.reqs[x].Serving? && PrevSlot(ser, x) in s.next ==> s.reqs[x].h == s.next[PrevSlot(ser, x)]
    ensures x in s.reqs && HoldsReplyHandle(s.reqs[x]) && x in s.prior ==> s.reqs[x].h == s.prior[x]
  {
    ReachableKeeps(job, ser, s);
    assert SlotExplained(job, ser, x) && SlotInv(job, ser, s, x) && SlotInv(job, ser, s, PrevSlot(ser, x));
    if !Remote(job, x) && x in s.prior && PrevSlot(ser, x) in s.next {
      SameKeySameHandle(s, s.prior[x], s.next[PrevSlot(ser, x)]);
    }
    if x in s.reqs && s.reqs[x].Serving? && PrevSlot(ser, x) in s.next {
      SameKeySameHandle(s, s.reqs[x].h, s.next[PrevSlot(ser, x)]);
    }
    if x in s.reqs && HoldsReplyHandle(s.reqs[x]) && x in s.prior {
      SameKeySameHandle(s, s.reqs[x].h, s.prior[x]);
    }
  }

  /** No two slots wait on, and no two slots notify, the same handle. */
  lemma {:induction false} OneWaiterOneNotifier(job: Job, ser: Serial, s: State, x: Slot, y: Slot, h: nat)
    requires Explains(job, ser) && Reachable(job, s) && IsSlot(job, x) && IsSlot(job, y)
    ensures WaitsOn(s, x, h) && WaitsOn(s, y, h) ==> x == y
    ensures Signals(s, x, h) && Signals(s, y, h) ==> x == y
  {
    ReachableKeeps(job, ser, s);
    assert SlotInv(job, ser, s, x) && SlotInv(job, ser, s, y);
    assert SlotExplained(job, ser, x) && SlotExplained(job, ser, y);
    if WaitsOn(s, x, h) && WaitsOn(s, y, h) {
      ConsumerIsUnique(job, ser, x, y);
    }
    if Signals(s, x, h) && Signals(s, y, h) {
      SignalKeys(job, ser, s, x, y, h);
    }
  }

  lemma {:induction false} SignalKeys(job: Job, ser: Serial, s: State, x: Slot, y: Slot, h: nat)
    requires Explains(job, ser) && IsSlot(job, x) && IsSlot(job, y) && SlotInv(job, ser, s, x)
    requires SlotInv(job, ser, s, y)
    requires Phases(job, s) && Signals(s, x, h) && Signals(s, y, h)
    ensures x == y
  {
    var byTaskX, byTaskY := x in s.next && s.next[x] == h, y in s.next && s.next[y] == h;
    if byTaskX && byTaskY {
      if x.i < y.i {
        VersionsIncrease(job, ser, x, y);
      } else if y.i < x.i {
        VersionsIncrease(job, ser, y, x);
      }
    } else if !byTaskX && !byTaskY {
      ConsumerIsUnique(job, ser, x, y);
    } else if byTaskY {
      ProducerIsPrevious(job, ser, x, y);
      RemoteAwaits(job, ser, x);
      assert false;
    } else {
      ProducerIsPrevious(job, ser, y, x);
      RemoteAwaits(job, ser, y);
      assert false;
    }
  }

  // ------------------------------------------------- entries of the dependency map

  predicate Consumes(job: Job, s: State, x: Slot, k: Key)
    requires WellShaped(job)
  {
    && IsSlot(job, x)
    && ((x.i in s.checked && PriorKey(job, x) == k)
        || (Remote(job, x) && x in s.reqs && Answered(s.reqs[x]) && ServeKey(job, x) == k))
  }

  predicate Concerns(job: Job, x: Slot, k: Key)
    requires WellShaped(job)
  {
    && IsSlot(job, x)
    && (PriorKey(job, x) == k || NextKey(job, x) == k || (Remote(job, x) && ServeKey(job, x) == k))
  }

  /** A created handle's entry is in the map exactly until its consumer is served. */
  ghost predicate EntryInv(job: Job, s: State, h: nat)
    requires WellShaped(job)
  {
    h < |s.alloc| ==>
      && (exists x :: Concerns(job, x, s.alloc[h]))
      && (s.alloc[h] in s.table <==> forall x :: !Consumes(job, s, x, s.alloc[h]))
  }

  /** A key with an open role has not been consumed. */
  lemma {:induction false} OpenRoleIsUnconsumed(job: Job, ser: Serial, s: State, y: Slot, k: Key, x: Slot)
    requires Explains(job, ser) && Inv(job, ser, s) && IsSlot(job, y) && !RolesTaken(job, s, y, k)
    requires k.v > INITIAL_VERSION
    ensures !Consumes(job, s, x, k)
  {
    if Consumes(job, s, x, k) {
      assert SlotExplained(job, ser, x) && SlotInv(job, ser, s, x);
      if x.i in s.checked && PriorKey(job, x) == k {
        assert Slot(x.i, x.o) == x && Awaits(job, x);
        CheckTakesRoles(job, ser, s, x, y);
      } else {
        AnsweredTakesRoles(job, ser, s, x, y);
      }
    }
  }

  lemma {:induction false} AnsweredTakesRoles(job: Job, ser: Serial, s: State, x: Slot, sl: Slot)
    requires Explains(job, ser) && Inv(job, ser, s) && IsSlot(job, x) && IsSlot(job, sl)
    requires Remote(job, x) && x in s.reqs && Answered(s.reqs[x])
    ensures RolesTaken(job, s, sl, ServeKey(job, x))
  {
    RemoteAwaits(job, ser, x);
    assert SlotInv(job, ser, s, x);
    if sl.o == x.o {
      if job.required[sl.i][sl.o] == job.required[x.i][x.o] {
        ConsumerIsUnique(job, ser, sl, x);
      }
      if job.next[sl.i] == job.required[x.i][x.o] {
        ProducerIsPrevious(job, ser, x, sl);
      }
    }
  }

  /** Which key a registering step looks up. */
  function LookedUp(job: Job, s: State, a: Action): Key
    requires WellShaped(job) && Enabled(job, s, a) && (a.RegisterPrior? || a.RegisterNext? || a.Serve? || a.Accept?)
  {
    match a
    case RegisterPrior(sl) => PriorKey(job, sl)
    case RegisterNext(sl) => NextKey(job, sl)
    case Serve(sl) => ServeKey(job, sl)
    case Accept(sl) => Key(job.route[sl.i], sl.o, s.reqs[sl].reply.value.version)
  }

  /** A registering step looks up a key in a role that was still open. */
  lemma {:induction false} LookedUpIsOpen(job: Job, ser: Serial, s: State, a: Action)
    requires Explains(job, ser) && Inv(job, ser, s) && Enabled(job, s, a)
    requires a.RegisterPrior? || a.RegisterNext? || a.Serve? || a.Accept?
    ensures !RolesTaken(job, s, a.sl, LookedUp(job, s, a)) && LookedUp(job, s, a).v > INITIAL_VERSION
    ensures Concerns(job, a.sl, LookedUp(job, s, a))
  {
    if a.Accept? {
      ReplyIsForWaiter(job, ser, s, a.sl);
      RemoteAwaits(job, ser, a.sl);
    } else if a.Serve? {
      RemoteAwaits(job, ser, a.sl);
    } else {
      assert TxnExplained(job, ser, a.sl.i);
    }
  }

  lemma {:induction false} RequestStaysAnswered(job: Job, s: State, a: Action, x: Slot)
    requires WellShaped(job) && Phases(job, s) && Enabled(job, s, a) && !a.Answer?
    ensures var t := Apply(job, s, a);
            x in t.reqs && Answered(t.reqs[x]) <==> x in s.reqs && Answered(s.reqs[x])
  {
  }

  lemma {:induction false} OnlyCheckChecks(job: Job, s: State, a: Action)
    requires WellShaped(job) && Enabled(job, s, a) && !a.Check?
    ensures Apply(job, s, a).checked == s.checked
  {
  }

  /** Only a check or an answer consumes. */
  lemma {:induction false} ConsumersKept(job: Job, s: State, a: Action)
    requires WellShaped(job) && Phases(job, s) && Enabled(job, s, a) && !a.Check? && !a.Answer?
    ensures forall x, k :: Consumes(job, Apply(job, s, a), x, k) <==> Consumes(job, s, x, k)
  {
    OnlyCheckChecks(job, s, a);
    forall x, k ensures Consumes(job, Apply(job, s, a), x, k) <==> Consumes(job, s, x, k) {
      RequestStaysAnswered(job, s, a, x);
    }
  }

  lemma {:induction false} RegisteringEffect(job: Job, s: State, a: Action)
    requires WellShaped(job) && Enabled(job, s, a) && (a.RegisterPrior? || a.RegisterNext? || a.Serve? || a.Accept?)
    ensures var t := Apply(job, s, a); var k := LookedUp(job, s, a);
            t.table == s.table[k := HandleOf(s, k)] && t.alloc == AllocWith(s, k)
  {
  }

  lemma {:induction false} RegisteringKeepsEntries(job: Job, ser: Serial, s: State, t: State, y: Slot, k: Key, h: nat)
    requires Explains(job, ser) && Inv(job, ser, s) && EntryInv(job, s, h)
    requires Concerns(job, y, k) && !RolesTaken(job, s, y, k) && k.v > INITIAL_VERSION
    requires t.table == s.table[k := HandleOf(s, k)] && t.alloc == AllocWith(s, k)
    requires forall x, key :: Consumes(job, t, x, key) <==> Consumes(job, s, x, key)
    ensures EntryInv(job, t, h)
  {
    forall x ensures !Consumes(job, s, x, k) {
      OpenRoleIsUnconsumed(job, ser, s, y, k, x);
    }
    assert h == |s.alloc| < |t.alloc| ==> t.alloc[h] == k;
  }

  /** A check consumes only the keys that its transaction requires. */
  lemma {:induction false} CheckConsumesOwn(job: Job, s: State, i: nat, x: Slot, k: Key)
    requires WellShaped(job) && Enabled(job, s, Check(i))
    requires !exists o :: o in job.txns[i].inputs && PriorKey(job, Slot(i, o)) == k
    ensures Consumes(job, Apply(job, s, Check(i)), x, k) <==> Consumes(job, s, x, k)
  {
    assert x == Slot(x.i, x.o);
  }

  lemma {:induction false} CheckKeepsEntries(job: Job, ser: Serial, s: State, i: nat, h: nat)
    requires Explains(job, ser) && Inv(job, ser, s) && Enabled(job, s, Check(i)) && EntryInv(job, s, h)
    ensures EntryInv(job, Apply(job, s, Check(i)), h)
  {
    var t := Apply(job, s, Check(i));
    if h < |s.alloc| {
      var k := s.alloc[h];
      if o :| o in job.txns[i].inputs && PriorKey(job, Slot(i, o)) == k {
        assert Consumes(job, t, Slot(i, o), k);
      } else {
        forall x ensures Consumes(job, t, x, k) <==> Consumes(job, s, x, k) {
          CheckConsumesOwn(job, s, i, x, k);
        }
      }
    }
  }

  /** An answer consumes only the key it serves. */
  lemma {:induction false} AnswerConsumesOwn(job: Job, s: State, y: Slot, x: Slot, k: Key)
    requires WellShaped(job) && Enabled(job, s, Answer(y)) && ServeKey(job, y) != k
    ensures Consumes(job, Apply(job, s, Answer(y)), x, k) <==> Consumes(job, s, x, k)
  {
  }

  lemma {:induction false} AnswerKeepsEntries(job: Job, ser: Serial, s: State, y: Slot, h: nat)
    requires Explains(job, ser) && Inv(job, ser, s) && Enabled(job, s, Answer(y)) && EntryInv(job, s, h)
    ensures EntryInv(job, Apply(job, s, Answer(y)), h)
  {
    var t := Apply(job, s, Answer(y));
    if h < |s.alloc| {
      var k := s.alloc[h];
      if ServeKey(job, y) == k {
        assert Consumes(job, t, y, k);
      } else {
        forall x ensures Consumes(job, t, x, k) <==> Consumes(job, s, x, k) {
          AnswerConsumesOwn(job, s, y, x, k);
        }
      }
    }
  }

  lemma {:induction false} OtherStepsKeepEntries(job: Job, ser: Serial, s: State, a: Action, h: nat)
    requires Explains(job, ser) && Inv(job, ser, s) && Enabled(job, s, a) && EntryInv(job, s, h)
    requires a.Start? || a.Wait? || a.Execute? || a.Notify? || a.Panic? || a.Commit? || a.Close?
    ensures EntryInv(job, Apply(job, s, a), h)
  {
    ConsumersKept(job, s, a);
  }

  lemma {:induction false} RunKeepsEntries(job: Job, ser: Serial, acts: seq<Action>, states: seq<State>, n: nat)
    requires Explains(job, ser) && IsRun(job, acts, states) && n <= |acts|
    ensures forall h: nat :: EntryInv(job, states[n], h)
  {
    if n > 0 {
      RunKeepsEntries(job, ser, acts, states, n - 1);
      RunKeeps(job, ser, acts, states, n - 1);
      var s, a := states[n - 1], acts[n - 1];
      forall h: nat ensures EntryInv(job, states[n], h) {
        assert EntryInv(job, s, h);
        if a.Check? {
          CheckKeepsEntries(job, ser, s, a.i, h);
        } else if a.Answer? {
          AnswerKeepsEntries(job, ser, s, a.sl, h);
        } else if a.RegisterPrior? || a.RegisterNext? || a.Serve? || a.Accept? {
          LookedUpIsOpen(job, ser, s, a);
          RegisteringEffect(job, s, a);
          ConsumersKept(job, s, a);
          RegisteringKeepsEntries(job, ser, s, states[n], a.sl, LookedUp(job, s, a), h);
        } else {
          OtherStepsKeepEntries(job, ser, s, a, h);
        }
      }
    }
  }

  /** No later transaction touches `sl`'s object. */
  ghost predicate IsLastToucher(job: Job, sl: Slot)
  {
    IsSlot(job, sl) && forall k: nat :: k > sl.i ==> !IsSlot(job, Slot(k, sl.o))
  }

  lemma {:induction false} LastIsUnconsumed(job: Job, ser: Serial, s: State, sl: Slot, x: Slot)
    requires Explains(job, ser) && IsLastToucher(job, sl)
    ensures !Consumes(job, s, x, NextKey(job, sl))
  {
    if Consumes(job, s, x, NextKey(job, sl)) {
      assert SlotExplained(job, ser, x) && x == Slot(x.i, sl.o);
      ProducerIsPrevious(job, ser, x, sl);
      assert false;
    }
  }

  lemma {:induction false} EntryBelongsToLast(job: Job, ser: Serial, s: State, x: Slot, k: Key)
    requires Explains(job, ser) && Inv(job, ser, s) && AllCompleted(job, s)
    requires Concerns(job, x, k) && forall y :: !Consumes(job, s, y, k)
    ensures IsLastToucher(job, x) && NextKey(job, x) == k
  {
    assert Completed(job, s, x.i) && !Consumes(job, s, x, k);
    if Remote(job, x) && ServeKey(job, x) == k {
      FinishedIsAnswered(job, ser, s, x);
    }
    if j: nat :| j > x.i && IsSlot(job, Slot(j, x.o)) {
      var y := NextToucher(job, ser, x, Slot(j, x.o));
      assert SlotExplained(job, ser, y) && Completed(job, s, y.i) && !Consumes(job, s, y, k);
      if Remote(job, y) {
        FinishedIsAnswered(job, ser, s, y);
      }
    }
  }

  lemma {:induction false} FinishedIsAnswered(job: Job, ser: Serial, s: State, x: Slot)
    requires Explains(job, ser) && Inv(job, ser, s) && IsSlot(job, x) && Remote(job, x) && x.i in s.done
    ensures x in s.reqs && Answered(s.reqs[x])
  {
    RemoteAwaits(job, ser, x);
    assert Slot(x.i, x.o) == x && SlotInv(job, ser, s, x);
  }

  /** The transaction just after `x` on the same object. */
  lemma {:induction false} NextToucher(job: Job, ser: Serial, x: Slot, z: Slot) returns (y: Slot)
    requires Explains(job, ser) && IsSlot(job, x) && IsSlot(job, z) && x.o == z.o && x.i < z.i
    ensures IsSlot(job, y) && Prev(ser, y) >= 0 && PrevSlot(ser, y) == x
    decreases z.i
  {
    VersionsIncrease(job, ser, x, z);
    assert SlotExplained(job, ser, z);
    if Prev(ser, z) == x.i {
      y := z;
    } else {
      y := NextToucher(job, ser, x, PrevSlot(ser, z));
    }
  }

  /** Every entry is for the version that an object's last toucher produced. */
  lemma {:induction false} EntryIsOfLast(job: Job, ser: Serial, s: State, k: Key) returns (x: Slot)
    requires Explains(job, ser) && Inv(job, ser, s) && AllCompleted(job, s)
    requires k in s.table && EntryInv(job, s, s.table[k])
    ensures IsLastToucher(job, x) && NextKey(job, x) == k
  {
    x :| Concerns(job, x, k);
    EntryBelongsToLast(job, ser, s, x, k);
  }

  /** The entry of the version that an object's last toucher produced is still there. */
  lemma {:induction false} LastHasEntry(job: Job, ser: Serial, s: State, sl: Slot)
    requires Explains(job, ser) && Inv(job, ser, s) && AllCompleted(job, s)
    requires IsLastToucher(job, sl) && forall h: nat :: EntryInv(job, s, h)
    ensures NextKey(job, sl) in s.table
  {
    assert Completed(job, s, sl.i) && Slot(sl.i, sl.o) == sl;
    assert SlotInv(job, ser, s, sl) && EntryInv(job, s, s.next[sl]);
    forall x ensures !Consumes(job, s, x, NextKey(job, sl)) {
      LastIsUnconsumed(job, ser, s, sl, x);
    }
  }

  /** When every transaction is complete, the dependency maps of all proxies hold
      exactly one entry for each object ever touched: its latest version, at the
      proxy of the last transaction that touched it. */
  lemma {:induction false} EntriesAtRest(job: Job, ser: Serial, s: State, k: Key)
    requires Explains(job, ser) && Reachable(job, s) && AllCompleted(job, s)
    ensures k in s.table <==> exists sl :: IsLastToucher(job, sl) && NextKey(job, sl) == k
  {
    ReachableKeeps(job, ser, s);
    var acts, states :| IsRun(job, acts, states) && states[|acts|] == s;
    RunKeepsEntries(job, ser, acts, states, |acts|);
    if k in s.table {
      var x := EntryIsOfLast(job, ser, s, k);
    }
    if sl :| IsLastToucher(job, sl) && NextKey(job, sl) == k {
      LastHasEntry(job, ser, s, sl);
    }
  }

  // ------------------------------------------------- the order of waits

  /** The task of `x`'s transaction was past all waits before `x`'s when it passed that. */
  ghost predicate WaitedInOrder(job: Job, s: State, x: Slot)
    requires WellShaped(job)
  {
    IsSlot(job, x) && x in s.waited ==>
      var inputs := job.txns[x.i].inputs;
      exists k :: 0 <= k < |inputs| && inputs[k] == x.o
                  && forall m :: 0 <= m < k && Awaits(job, Slot(x.i, inputs[m])) ==> Slot(x.i, inputs[m]) in s.waited
  }

  lemma {:induction false} OnlyWaitWaits(job: Job, s: State, a: Action)
    requires WellShaped(job) && Enabled(job, s, a)
    ensures Apply(job, s, a).waited
            == if a.Wait? then s.waited + {Slot(a.i, job.txns[a.i].inputs[a.k])} else s.waited
  {
  }

  lemma {:induction false} StepWaitsInOrder(job: Job, s: State, a: Action, x: Slot)
    requires WellShaped(job) && Enabled(job, s, a) && WaitedInOrder(job, s, x)
    ensures WaitedInOrder(job, Apply(job, s, a), x)
  {
    OnlyWaitWaits(job, s, a);
    if IsSlot(job, x) && x in Apply(job, s, a).waited && x !in s.waited {
      assert job.txns[x.i].inputs[a.k] == x.o;
    }
  }

  /** In every run, a task passes its waits in the order of its objects. */
  lemma {:induction false} WaitsAreInOrder(job: Job, acts: seq<Action>, states: seq<State>, n: nat, x: Slot)
    requires WellShaped(job) && IsRun(job, acts, states) && n <= |acts|
    ensures WaitedInOrder(job, states[n], x)
  {
    if n > 0 {
      WaitsAreInOrder(job, acts, states, n - 1, x);
      StepWaitsInOrder(job, states[n - 1], acts[n - 1], x);
    }
  }
}
