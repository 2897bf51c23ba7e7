/** Every step of the proxies keeps the invariant, so every reachable state has it. */
module ProtocolKeeps {
  import opened Types
  import opened Protocol
  import opened ProtocolInvariant
  import opened ProtocolSteps

  lemma {:induction false} InitHolds(job: Job, ser: Serial)
    requires Explains(job, ser)
    ensures Inv(job, ser, Init(job))
  {
  }

  // ------------------------------------------------- what a step leaves alone

  /** Steps that leave the stores alone keep what is said about them. */
  lemma {:induction false} PlacesKept(job: Job, ser: Serial, s: State, t: State)
    requires Explains(job, ser) && Inv(job, ser, s) && t.store == s.store && s.done <= t.done
    ensures forall place :: PlaceInv(job, ser, t, place)
  {
    forall place ensures PlaceInv(job, ser, t, place) {
      assert PlaceInv(job, ser, s, place);
    }
  }

  /** Steps of the state requests leave the tasks' bookkeeping alone. */
  lemma {:induction false} PhasesKept(job: Job, s: State, t: State)
    requires WellShaped(job) && Phases(job, s)
    requires t.started == s.started && t.prior == s.prior && t.next == s.next && t.waited == s.waited
    requires t.checked == s.checked && t.done == s.done && t.notified == s.notified && t.reqs.Keys == s.reqs.Keys
    ensures Phases(job, t)
  {
    assert forall sl :: sl in t.reqs <==> sl in t.reqs.Keys;
  }

  lemma {:induction false} StaysRegistered(job: Job, s: State, t: State, i: nat)
    requires WellShaped(job) && i < |job.txns| && Registered(job, s, i)
    requires s.prior.Keys <= t.prior.Keys && s.next.Keys <= t.next.Keys
    ensures Registered(job, t, i)
  {
  }

  /** Registering and waiting leave the rest of the bookkeeping alone. */
  lemma {:induction false} PhasesGrow(job: Job, s: State, t: State)
    requires WellShaped(job) && Phases(job, s)
    requires t.started == s.started && t.checked == s.checked && t.done == s.done && t.notified == s.notified
    requires t.reqs == s.reqs && s.prior.Keys <= t.prior.Keys && s.next.Keys <= t.next.Keys && s.waited <= t.waited
    requires forall sl :: sl in t.prior ==> IsSlot(job, sl) && Awaits(job, sl)
    requires forall sl :: sl in t.next ==> IsSlot(job, sl)
    requires forall sl :: sl in t.waited ==> sl in t.prior
    ensures Phases(job, t)
  {
    forall i | i in t.checked ensures i < |job.txns| && Registered(job, t, i) {
      StaysRegistered(job, s, t, i);
    }
  }

  /** Tasks and requests only move forward from `s` to `t`. */
  ghost predicate Advances(s: State, t: State)
  {
    && s.prior.Keys <= t.prior.Keys && s.next.Keys <= t.next.Keys && s.notified <= t.notified
    && forall sl :: sl in s.reqs ==>
      && sl in t.reqs
      && (t.reqs[sl].Sent? ==> s.reqs[sl].Sent?)
      && (HoldsReplyHandle(s.reqs[sl]) ==> HoldsReplyHandle(t.reqs[sl]))
      && (s.reqs[sl].Closed? ==> t.reqs[sl].Closed?)
  }

  /** Steps that neither remove an entry nor add a notification keep what is said
      about handles. */
  lemma {:induction false} HandlesKept(job: Job, ser: Serial, s: State, t: State)
    requires Explains(job, ser) && Inv(job, ser, s) && Advances(s, t)
    requires s.alloc <= t.alloc && s.table.Keys <= t.table.Keys && t.permits <= s.permits
    requires forall h :: |s.alloc| <= h < |t.alloc| ==> t.alloc[h] in t.table
    ensures forall h: nat, sl :: HandleInv(job, ser, t, h, sl)
  {
    forall h: nat, sl ensures HandleInv(job, ser, t, h, sl) {
      assert HandleInv(job, ser, s, h, sl);
    }
  }

  /** Nothing that concerns `sl` changes from `s` to `t`. */
  ghost predicate Untouched(ser: Serial, s: State, t: State, sl: Slot)
  {
    && s.alloc <= t.alloc && s.store == t.store && s.notified <= t.notified && s.crashed <= t.crashed
    && (sl in s.prior <==> sl in t.prior) && (sl in s.prior ==> s.prior[sl] == t.prior[sl])
    && (sl in s.next <==> sl in t.next) && (sl in s.next ==> s.next[sl] == t.next[sl])
    && (sl in s.waited <==> sl in t.waited)
    && (sl in s.reqs <==> sl in t.reqs) && (sl in s.reqs ==> s.reqs[sl] == t.reqs[sl])
    && (sl.i in s.done <==> sl.i in t.done)
    && (sl in s.reqs && s.reqs[sl].Closed? && s.reqs[sl].h in s.permits ==> s.reqs[sl].h in t.permits)
    && (Prev(ser, sl) >= 0 && PrevSlot(ser, sl) in t.notified && PrevSlot(ser, sl) in t.next ==>
          && PrevSlot(ser, sl) in s.notified && PrevSlot(ser, sl) in s.next
          && t.next[PrevSlot(ser, sl)] == s.next[PrevSlot(ser, sl)]
          && (s.next[PrevSlot(ser, sl)] in s.permits ==> s.next[PrevSlot(ser, sl)] in t.permits))
  }

  lemma {:induction false} SlotKept(job: Job, ser: Serial, s: State, t: State, sl: Slot)
    requires Explains(job, ser) && SlotInv(job, ser, s, sl) && Untouched(ser, s, t, sl)
    ensures SlotInv(job, ser, t, sl)
  {
  }

  // ------------------------------------------------- registration

  /** A slot keeps its invariant when its state request is sent. */
  lemma {:induction false} SlotSends(job: Job, ser: Serial, s: State, sl: Slot)
    requires Explains(job, ser) && IsSlot(job, sl) && SlotInv(job, ser, s, sl) && sl !in s.reqs
    ensures SlotInv(job, ser, s.(reqs := s.reqs[sl := Sent]), sl)
  {
  }

  lemma {:induction false} StartSlot(job: Job, ser: Serial, s: State, i: nat, sl: Slot)
    requires Explains(job, ser) && Phases(job, s) && SlotInv(job, ser, s, sl) && Enabled(job, s, Start(i))
    ensures SlotInv(job, ser, Apply(job, s, Start(i)), sl)
  {
    var t := Apply(job, s, Start(i));
    if sl in s.reqs <==> sl in t.reqs {
      SlotKept(job, ser, s, t, sl);
    } else {
      SlotSends(job, ser, s, sl);
      SlotKept(job, ser, s.(reqs := s.reqs[sl := Sent]), t, sl);
    }
  }

  lemma {:induction false} StartPhases(job: Job, s: State, i: nat)
    requires WellShaped(job) && Phases(job, s) && Enabled(job, s, Start(i))
    ensures Phases(job, Apply(job, s, Start(i)))
  {
  }

  lemma {:induction false} StartKeeps(job: Job, ser: Serial, s: State, i: nat)
    requires Explains(job, ser) && Inv(job, ser, s) && Enabled(job, s, Start(i))
    ensures Inv(job, ser, Apply(job, s, Start(i)))
  {
    var t := Apply(job, s, Start(i));
    forall sl ensures SlotInv(job, ser, t, sl) {
      assert SlotInv(job, ser, s, sl);
      StartSlot(job, ser, s, i, sl);
    }
    StartPhases(job, s, i);
    HandlesKept(job, ser, s, t);
    PlacesKept(job, ser, s, t);
  }

  /** Looking up `k` gives a handle that was created for `k`. */
  predicate LookupIsRight(s: State, k: Key)
  {
    HandleOf(s, k) < |AllocWith(s, k)| && AllocWith(s, k)[HandleOf(s, k)] == k
  }

  /** A role that is still open finds the key's handle, or is the first to create it. */
  lemma {:induction false} OpenRoleIsSafe(job: Job, ser: Serial, s: State, x: Slot, k: Key)
    requires Explains(job, ser) && Inv(job, ser, s) && IsSlot(job, x) && !RolesTaken(job, s, x, k)
    requires k.v > INITIAL_VERSION
    ensures TableInv(s.(table := s.table[k := HandleOf(s, k)], alloc := AllocWith(s, k)))
    ensures LookupIsRight(s, k)
  {
    forall h: nat | h < |s.alloc| && k !in s.table ensures s.alloc[h] != k {
      assert HandleInv(job, ser, s, h, x);
    }
  }

  /** Only produced versions are fetched, never initial ones. */
  lemma {:induction false} RemoteAwaits(job: Job, ser: Serial, sl: Slot)
    requires Explains(job, ser) && IsSlot(job, sl) && Remote(job, sl)
    ensures 0 <= Prev(ser, sl) < sl.i && Awaits(job, sl)
    ensures job.owner[sl.i][sl.o].value == job.route[Prev(ser, sl)] != job.route[sl.i]
  {
    assert SlotExplained(job, ser, sl) && TxnExplained(job, ser, Prev(ser, sl));
  }

  lemma {:induction false} RegisterPriorSlot(job: Job, ser: Serial, s: State, x: Slot, sl: Slot)
    requires Explains(job, ser) && SlotInv(job, ser, s, sl) && Enabled(job, s, RegisterPrior(x))
    requires LookupIsRight(s, PriorKey(job, x))
    ensures SlotInv(job, ser, Apply(job, s, RegisterPrior(x)), sl)
  {
    if sl != x {
      SlotKept(job, ser, s, Apply(job, s, RegisterPrior(x)), sl);
    }
  }

  lemma {:induction false} RegisterPriorPhases(job: Job, s: State, x: Slot)
    requires WellShaped(job) && Phases(job, s) && Enabled(job, s, RegisterPrior(x))
    ensures Phases(job, Apply(job, s, RegisterPrior(x)))
  {
    PhasesGrow(job, s, Apply(job, s, RegisterPrior(x)));
  }

  lemma {:induction false} RegisterPriorKeepsSlots(job: Job, ser: Serial, s: State, x: Slot)
    requires Explains(job, ser) && Inv(job, ser, s) && Enabled(job, s, RegisterPrior(x))
    requires LookupIsRight(s, PriorKey(job, x))
    ensures forall sl :: SlotInv(job, ser, Apply(job, s, RegisterPrior(x)), sl)
  {
    forall sl ensures SlotInv(job, ser, Apply(job, s, RegisterPrior(x)), sl) {
      assert SlotInv(job, ser, s, sl);
      RegisterPriorSlot(job, ser, s, x, sl);
    }
  }

  lemma {:induction false} RegisterPriorKeeps(job: Job, ser: Serial, s: State, x: Slot)
    requires Explains(job, ser) && Inv(job, ser, s) && Enabled(job, s, RegisterPrior(x))
    ensures Inv(job, ser, Apply(job, s, RegisterPrior(x)))
  {
    var t := Apply(job, s, RegisterPrior(x));
    OpenRoleIsSafe(job, ser, s, x, PriorKey(job, x));
    RegisterPriorKeepsSlots(job, ser, s, x);
    RegisterPriorPhases(job, s, x);
    HandlesKept(job, ser, s, t);
    PlacesKept(job, ser, s, t);
  }

  /** A slot keeps its invariant when it gets the right handle to signal. */
  lemma {:induction false} SlotGetsNext(job: Job, ser: Serial, s: State, sl: Slot, h: nat)
    requires Explains(job, ser) && IsSlot(job, sl) && SlotInv(job, ser, s, sl) && HandleFor(s, h, NextKey(job, sl))
    ensures SlotInv(job, ser, s.(next := s.next[sl := h]), sl)
  {
    assert SlotExplained(job, ser, sl);
  }

  lemma {:induction false} RegisterNextOwnSlot(job: Job, ser: Serial, s: State, x: Slot)
    requires Explains(job, ser) && SlotInv(job, ser, s, x)
    requires Enabled(job, s, RegisterNext(x)) && LookupIsRight(s, NextKey(job, x))
    ensures SlotInv(job, ser, Apply(job, s, RegisterNext(x)), x)
  {
    var h := HandleOf(s, NextKey(job, x));
    var u := Apply(job, s, RegisterNext(x)).(next := s.next);
    SlotKept(job, ser, s, u, x);
    SlotGetsNext(job, ser, u, x, h);
  }

  lemma {:induction false} RegisterNextSlot(job: Job, ser: Serial, s: State, x: Slot, sl: Slot)
    requires Explains(job, ser) && Phases(job, s) && SlotInv(job, ser, s, sl)
    requires Enabled(job, s, RegisterNext(x)) && LookupIsRight(s, NextKey(job, x))
    ensures SlotInv(job, ser, Apply(job, s, RegisterNext(x)), sl)
  {
    if sl == x {
      RegisterNextOwnSlot(job, ser, s, x);
    } else {
      SlotKept(job, ser, s, Apply(job, s, RegisterNext(x)), sl);
    }
  }

  lemma {:induction false} RegisterNextPhases(job: Job, s: State, x: Slot)
    requires WellShaped(job) && Phases(job, s) && Enabled(job, s, RegisterNext(x))
    ensures Phases(job, Apply(job, s, RegisterNext(x)))
  {
    PhasesGrow(job, s, Apply(job, s, RegisterNext(x)));
  }

  lemma {:induction false} RegisterNextKeeps(job: Job, ser: Serial, s: State, x: Slot)
    requires Explains(job, ser) && Inv(job, ser, s) && Enabled(job, s, RegisterNext(x))
    ensures Inv(job, ser, Apply(job, s, RegisterNext(x)))
  {
    var t := Apply(job, s, RegisterNext(x));
    assert TxnExplained(job, ser, x.i);
    OpenRoleIsSafe(job, ser, s, x, NextKey(job, x));
    forall sl ensures SlotInv(job, ser, t, sl) {
      assert SlotInv(job, ser, s, sl);
      RegisterNextSlot(job, ser, s, x, sl);
    }
    RegisterNextPhases(job, s, x);
    HandlesKept(job, ser, s, t);
    PlacesKept(job, ser, s, t);
  }

  lemma {:induction false} ServeSlot(job: Job, ser: Serial, s: State, x: Slot, sl: Slot)
    requires Explains(job, ser) && SlotInv(job, ser, s, sl) && Enabled(job, s, Serve(x))
    requires LookupIsRight(s, ServeKey(job, x))
    ensures SlotInv(job, ser, Apply(job, s, Serve(x)), sl)
  {
    if sl != x {
      SlotKept(job, ser, s, Apply(job, s, Serve(x)), sl);
    }
  }

  lemma {:induction false} ServeKeepsHandles(job: Job, ser: Serial, s: State, x: Slot)
    requires Explains(job, ser) && Inv(job, ser, s) && Enabled(job, s, Serve(x))
    ensures forall h: nat, sl :: HandleInv(job, ser, Apply(job, s, Serve(x)), h, sl)
  {
    var t := Apply(job, s, Serve(x));
    RemoteAwaits(job, ser, x);
    OpenRoleIsSafe(job, ser, s, x, ServeKey(job, x));
    HandlesKept(job, ser, s, t);
  }

  lemma {:induction false} ServeKeeps(job: Job, ser: Serial, s: State, x: Slot)
    requires Explains(job, ser) && Inv(job, ser, s) && Enabled(job, s, Serve(x))
    ensures Inv(job, ser, Apply(job, s, Serve(x)))
  {
    var t := Apply(job, s, Serve(x));
    RemoteAwaits(job, ser, x);
    OpenRoleIsSafe(job, ser, s, x, ServeKey(job, x));
    forall sl ensures SlotInv(job, ser, t, sl) {
      assert SlotInv(job, ser, s, sl);
      ServeSlot(job, ser, s, x, sl);
    }
    ServeKeepsHandles(job, ser, s, x);
    PlacesKept(job, ser, s, t);
    PhasesKept(job, s, Apply(job, s, Serve(x)));
  }

  /** A non-empty reply registers exactly the version its requester waits for. */
  lemma {:induction false} ReplyIsForWaiter(job: Job, ser: Serial, s: State, x: Slot)
    requires Explains(job, ser) && Inv(job, ser, s) && Enabled(job, s, Accept(x))
    ensures Key(job.route[x.i], x.o, s.reqs[x].reply.value.version) == PriorKey(job, x)
    ensures Prev(ser, x) >= 0 && IsOutput(job, ser, PrevSlot(ser, x), s.reqs[x].reply.value)
    ensures var k := PriorKey(job, x);
            && TableInv(s.(table := s.table[k := HandleOf(s, k)], alloc := AllocWith(s, k)))
            && LookupIsRight(s, k)
  {
    assert SlotExplained(job, ser, x) && SlotInv(job, ser, s, x);
    RemoteAwaits(job, ser, x);
    OpenRoleIsSafe(job, ser, s, x, PriorKey(job, x));
  }

  lemma {:induction false} AcceptSlot(job: Job, ser: Serial, s: State, x: Slot, sl: Slot)
    requires Explains(job, ser) && SlotInv(job, ser, s, sl) && Enabled(job, s, Accept(x))
    requires Key(job.route[x.i], x.o, s.reqs[x].reply.value.version) == PriorKey(job, x)
    requires LookupIsRight(s, PriorKey(job, x))
    requires Prev(ser, x) >= 0 && IsOutput(job, ser, PrevSlot(ser, x), s.reqs[x].reply.value)
    ensures SlotInv(job, ser, Apply(job, s, Accept(x)), sl)
  {
    if sl != x {
      SlotKept(job, ser, s, Apply(job, s, Accept(x)), sl);
    }
  }

  lemma {:induction false} AcceptKeepsSlots(job: Job, ser: Serial, s: State, x: Slot)
    requires Explains(job, ser) && Inv(job, ser, s) && Enabled(job, s, Accept(x))
    ensures forall sl :: SlotInv(job, ser, Apply(job, s, Accept(x)), sl)
  {
    ReplyIsForWaiter(job, ser, s, x);
    forall sl ensures SlotInv(job, ser, Apply(job, s, Accept(x)), sl) {
      assert SlotInv(job, ser, s, sl);
      AcceptSlot(job, ser, s, x, sl);
    }
  }

  lemma {:induction false} AcceptKeepsHandles(job: Job, ser: Serial, s: State, x: Slot)
    requires Explains(job, ser) && Inv(job, ser, s) && Enabled(job, s, Accept(x))
    ensures forall h: nat, sl :: HandleInv(job, ser, Apply(job, s, Accept(x)), h, sl)
  {
    HandlesKept(job, ser, s, Apply(job, s, Accept(x)));
  }

  lemma {:induction false} AcceptKeeps(job: Job, ser: Serial, s: State, x: Slot)
    requires Explains(job, ser) && Inv(job, ser, s) && Enabled(job, s, Accept(x))
    ensures Inv(job, ser, Apply(job, s, Accept(x)))
  {
    var t := Apply(job, s, Accept(x));
    ReplyIsForWaiter(job, ser, s, x);
    AcceptKeepsSlots(job, ser, s, x);
    AcceptKeepsHandles(job, ser, s, x);
    PlacesKept(job, ser, s, t);
    PhasesKept(job, s, Apply(job, s, Accept(x)));
  }

  lemma {:induction false} PanicSlot(job: Job, ser: Serial, s: State, x: Slot, sl: Slot)
    requires Explains(job, ser) && SlotInv(job, ser, s, sl) && Enabled(job, s, Panic(x))
    ensures SlotInv(job, ser, Apply(job, s, Panic(x)), sl)
  {
    if sl != x {
      SlotKept(job, ser, s, Apply(job, s, Panic(x)), sl);
    }
  }

  lemma {:induction false} PanicKeepsSlots(job: Job, ser: Serial, s: State, x: Slot)
    requires Explains(job, ser) && Inv(job, ser, s) && Enabled(job, s, Panic(x))
    ensures forall sl :: SlotInv(job, ser, Apply(job, s, Panic(x)), sl)
  {
    forall sl ensures SlotInv(job, ser, Apply(job, s, Panic(x)), sl) {
      assert SlotInv(job, ser, s, sl);
      PanicSlot(job, ser, s, x, sl);
    }
  }

  lemma {:induction false} PanicKeepsHandles(job: Job, ser: Serial, s: State, x: Slot)
    requires Explains(job, ser) && Inv(job, ser, s) && Enabled(job, s, Panic(x))
    ensures forall h: nat, sl :: HandleInv(job, ser, Apply(job, s, Panic(x)), h, sl)
  {
    HandlesKept(job, ser, s, Apply(job, s, Panic(x)));
  }

  lemma {:induction false} PanicKeeps(job: Job, ser: Serial, s: State, x: Slot)
    requires Explains(job, ser) && Inv(job, ser, s) && Enabled(job, s, Panic(x))
    ensures Inv(job, ser, Apply(job, s, Panic(x)))
  {
    var t := Apply(job, s, Panic(x));
    PanicKeepsSlots(job, ser, s, x);
    PanicKeepsHandles(job, ser, s, x);
    PlacesKept(job, ser, s, t);
    PhasesKept(job, s, Apply(job, s, Panic(x)));
  }

  // ------------------------------------------------- waiting and notifying

  /** Slot `sl` does not need the handle `h`. */
  predicate Spares(ser: Serial, s: State, h: nat, sl: Slot)
  {
    && (Prev(ser, sl) >= 0 && PrevSlot(ser, sl) in s.next ==> s.next[PrevSlot(ser, sl)] != h)
    && (sl in s.reqs && s.reqs[sl].Closed? ==> s.reqs[sl].h != h)
  }

  /** The handle that `x` consumes, at its own proxy or at the owner's, is not one
      that another slot still needs. */
  lemma {:induction false} OtherConsumer(job: Job, ser: Serial, s: State, x: Slot, h: nat, sl: Slot)
    requires Explains(job, ser) && Inv(job, ser, s) && IsSlot(job, x) && IsSlot(job, sl) && sl != x
    requires h < |s.alloc|
    requires s.alloc[h].o == x.o && s.alloc[h].v == job.required[x.i][x.o]
    ensures Spares(ser, s, h, sl)
  {
    assert SlotInv(job, ser, s, sl);
    if sl.o == x.o && job.required[sl.i][sl.o] == job.required[x.i][x.o] {
      ConsumerIsUnique(job, ser, sl, x);
    }
    if Prev(ser, sl) >= 0 {
      assert SlotExplained(job, ser, sl);
      assert SlotInv(job, ser, s, PrevSlot(ser, sl));
    }
  }

  lemma {:induction false} WaitSlot(job: Job, ser: Serial, s: State, i: nat, k: nat, sl: Slot)
    requires Explains(job, ser) && SlotInv(job, ser, s, sl) && Enabled(job, s, Wait(i, k))
    requires var x := Slot(i, job.txns[i].inputs[k]);
             if sl == x then HandleInv(job, ser, s, s.prior[x], x)
             else IsSlot(job, sl) ==> Spares(ser, s, s.prior[x], sl)
    ensures SlotInv(job, ser, Apply(job, s, Wait(i, k)), sl)
  {
    if sl != Slot(i, job.txns[i].inputs[k]) && IsSlot(job, sl) {
      SlotKept(job, ser, s, Apply(job, s, Wait(i, k)), sl);
    }
  }

  lemma {:induction false} WaitPhases(job: Job, s: State, i: nat, k: nat)
    requires WellShaped(job) && Phases(job, s) && Enabled(job, s, Wait(i, k))
    ensures Phases(job, Apply(job, s, Wait(i, k)))
  {
    PhasesGrow(job, s, Apply(job, s, Wait(i, k)));
  }

  lemma {:induction false} WaitKeepsSlots(job: Job, ser: Serial, s: State, i: nat, k: nat)
    requires Explains(job, ser) && Inv(job, ser, s) && Enabled(job, s, Wait(i, k))
    ensures forall sl :: SlotInv(job, ser, Apply(job, s, Wait(i, k)), sl)
  {
    var x := Slot(i, job.txns[i].inputs[k]);
    assert SlotInv(job, ser, s, x);
    forall sl ensures SlotInv(job, ser, Apply(job, s, Wait(i, k)), sl) {
      assert SlotInv(job, ser, s, sl) && HandleInv(job, ser, s, s.prior[x], x);
      if sl != x && IsSlot(job, sl) {
        OtherConsumer(job, ser, s, x, s.prior[x], sl);
      }
      WaitSlot(job, ser, s, i, k, sl);
    }
  }

  lemma {:induction false} WaitKeeps(job: Job, ser: Serial, s: State, i: nat, k: nat)
    requires Explains(job, ser) && Inv(job, ser, s) && Enabled(job, s, Wait(i, k))
    ensures Inv(job, ser, Apply(job, s, Wait(i, k)))
  {
    var t := Apply(job, s, Wait(i, k));
    var x := Slot(i, job.txns[i].inputs[k]);
    assert SlotInv(job, ser, s, x);
    WaitKeepsSlots(job, ser, s, i, k);
    WaitPhases(job, s, i, k);
    HandlesKept(job, ser, s, t);
    PlacesKept(job, ser, s, t);
  }

  /** A notification sent under the key of the version that `x` produces or that
      was fetched for `x` comes from the right producer. */
  lemma {:induction false} NotifyHandle(job: Job, ser: Serial, s: State, x: Slot, h: nat, sl: Slot)
    requires Explains(job, ser) && SlotInv(job, ser, s, x) && HandleInv(job, ser, s, h, sl)
    requires Enabled(job, s, Notify(x))
    ensures HandleInv(job, ser, Apply(job, s, Notify(x)), h, sl)
  {
    if IsSlot(job, sl) && sl.o == x.o && job.required[sl.i][sl.o] == job.next[x.i] {
      ProducerIsPrevious(job, ser, sl, x);
      assert SlotExplained(job, ser, sl);
    }
  }

  lemma {:induction false} NotifySlot(job: Job, ser: Serial, s: State, x: Slot, sl: Slot)
    requires Explains(job, ser) && SlotInv(job, ser, s, sl) && Enabled(job, s, Notify(x))
    ensures SlotInv(job, ser, Apply(job, s, Notify(x)), sl)
  {
    if !(Prev(ser, sl) >= 0 && PrevSlot(ser, sl) == x) {
      SlotKept(job, ser, s, Apply(job, s, Notify(x)), sl);
    }
  }

  lemma {:induction false} NotifyPhases(job: Job, s: State, x: Slot)
    requires WellShaped(job) && Phases(job, s) && Enabled(job, s, Notify(x))
    ensures Phases(job, Apply(job, s, Notify(x)))
  {
  }

  lemma {:induction false} NotifyKeepsSlots(job: Job, ser: Serial, s: State, x: Slot)
    requires Explains(job, ser) && Inv(job, ser, s) && Enabled(job, s, Notify(x))
    ensures forall sl :: SlotInv(job, ser, Apply(job, s, Notify(x)), sl)
  {
    forall sl ensures SlotInv(job, ser, Apply(job, s, Notify(x)), sl) {
      assert SlotInv(job, ser, s, sl);
      NotifySlot(job, ser, s, x, sl);
    }
  }

  lemma {:induction false} NotifyKeepsHandles(job: Job, ser: Serial, s: State, x: Slot)
    requires Explains(job, ser) && Inv(job, ser, s) && Enabled(job, s, Notify(x))
    ensures forall h: nat, sl :: HandleInv(job, ser, Apply(job, s, Notify(x)), h, sl)
  {
    assert SlotInv(job, ser, s, x);
    forall h: nat, sl ensures HandleInv(job, ser, Apply(job, s, Notify(x)), h, sl) {
      assert HandleInv(job, ser, s, h, sl);
      NotifyHandle(job, ser, s, x, h, sl);
    }
  }

  lemma {:induction false} NotifyKeepsTable(job: Job, ser: Serial, s: State, x: Slot)
    requires Explains(job, ser) && TableInv(s) && SlotInv(job, ser, s, x) && Enabled(job, s, Notify(x))
    ensures TableInv(Apply(job, s, Notify(x)))
  {
  }

  lemma {:induction false} NotifyKeeps(job: Job, ser: Serial, s: State, x: Slot)
    requires Explains(job, ser) && Inv(job, ser, s) && Enabled(job, s, Notify(x))
    ensures Inv(job, ser, Apply(job, s, Notify(x)))
  {
    var t := Apply(job, s, Notify(x));
    NotifyKeepsTable(job, ser, s, x);
    NotifyKeepsSlots(job, ser, s, x);
    NotifyKeepsHandles(job, ser, s, x);
    NotifyPhases(job, s, x);
    PlacesKept(job, ser, s, t);
  }

  lemma {:induction false} CloseHandle(job: Job, ser: Serial, s: State, x: Slot, h: nat, sl: Slot)
    requires Explains(job, ser) && SlotInv(job, ser, s, x) && HandleInv(job, ser, s, h, sl) && Enabled(job, s, Close(x))
    ensures HandleInv(job, ser, Apply(job, s, Close(x)), h, sl)
  {
    assert SlotExplained(job, ser, x);
    if IsSlot(job, sl) && sl.o == x.o && job.required[sl.i][sl.o] == job.required[x.i][x.o] {
      ConsumerIsUnique(job, ser, sl, x);
    }
  }

  lemma {:induction false} CloseSlot(job: Job, ser: Serial, s: State, x: Slot, sl: Slot)
    requires Explains(job, ser) && SlotInv(job, ser, s, sl) && Enabled(job, s, Close(x))
    ensures SlotInv(job, ser, Apply(job, s, Close(x)), sl)
  {
    if sl != x {
      SlotKept(job, ser, s, Apply(job, s, Close(x)), sl);
    }
  }

  lemma {:induction false} CloseKeepsSlots(job: Job, ser: Serial, s: State, x: Slot)
    requires Explains(job, ser) && Inv(job, ser, s) && Enabled(job, s, Close(x))
    ensures forall sl :: SlotInv(job, ser, Apply(job, s, Close(x)), sl)
  {
    forall sl ensures SlotInv(job, ser, Apply(job, s, Close(x)), sl) {
      assert SlotInv(job, ser, s, sl);
      CloseSlot(job, ser, s, x, sl);
    }
  }

  lemma {:induction false} CloseKeepsHandles(job: Job, ser: Serial, s: State, x: Slot)
    requires Explains(job, ser) && Inv(job, ser, s) && Enabled(job, s, Close(x))
    ensures forall h: nat, sl :: HandleInv(job, ser, Apply(job, s, Close(x)), h, sl)
  {
    assert SlotInv(job, ser, s, x);
    forall h: nat, sl ensures HandleInv(job, ser, Apply(job, s, Close(x)), h, sl) {
      assert HandleInv(job, ser, s, h, sl);
      CloseHandle(job, ser, s, x, h, sl);
    }
  }

  lemma {:induction false} CloseKeeps(job: Job, ser: Serial, s: State, x: Slot)
    requires Explains(job, ser) && Inv(job, ser, s) && Enabled(job, s, Close(x))
    ensures Inv(job, ser, Apply(job, s, Close(x)))
  {
    var t := Apply(job, s, Close(x));
    assert SlotInv(job, ser, s, x);
    CloseKeepsSlots(job, ser, s, x);
    CloseKeepsHandles(job, ser, s, x);
    PlacesKept(job, ser, s, t);
    PhasesKept(job, s, Apply(job, s, Close(x)));
  }

  // ------------------------------------------------- replying and fetching

  lemma {:induction false} DoneHasWaited(job: Job, s: State, x: Slot)
    requires WellShaped(job) && Phases(job, s) && IsSlot(job, x) && Awaits(job, x) && x.i in s.done
    ensures x in s.waited
  {
    assert x == Slot(x.i, x.o);
  }

  /** When a state request is answered, the owner's store holds the requested
      version exactly if the serial run executed its producer. */
  lemma {:induction false} AnswerIsRight(job: Job, ser: Serial, s: State, x: Slot)
    requires Explains(job, ser) && Inv(job, ser, s) && Enabled(job, s, Answer(x))
    ensures Prev(ser, x) >= 0 && PrevSlot(ser, x) in s.notified && x !in s.waited
    ensures ServeKey(job, x) == NextKey(job, PrevSlot(ser, x))
    ensures var place := Place(job.owner[x.i][x.o].value, x.o);
            if Ok(ser, Prev(ser, x)) then
              place in s.store && IsOutput(job, ser, PrevSlot(ser, x), s.store[place])
            else
              !(place in s.store && s.store[place].version == job.required[x.i][x.o])
  {
    assert SlotExplained(job, ser, x) && SlotInv(job, ser, s, x) && HandleInv(job, ser, s, s.reqs[x].h, x);
    RemoteAwaits(job, ser, x);
    if x.i in s.done {
      DoneHasWaited(job, s, x);
      assert false;
    }
    var place := Place(job.owner[x.i][x.o].value, x.o);
    if place in s.store {
      StoredBeforeFinish(job, ser, s, x, place.p);
    }
    assert SlotInv(job, ser, s, PrevSlot(ser, x));
  }

  /** Removing the entry of a version whose only consumer is `x` is safe. */
  lemma {:induction false} AnswerHandle(job: Job, ser: Serial, s: State, x: Slot, h: nat, sl: Slot)
    requires Explains(job, ser) && Phases(job, s) && HandleInv(job, ser, s, h, sl) && Enabled(job, s, Answer(x))
    requires Prev(ser, x) >= 0 && PrevSlot(ser, x) in s.notified
    ensures HandleInv(job, ser, Apply(job, s, Answer(x)), h, sl)
  {
    RemoteAwaits(job, ser, x);
    assert SlotExplained(job, ser, x);
    if IsSlot(job, sl) && sl.o == x.o {
      if job.required[sl.i][sl.o] == job.required[x.i][x.o] {
        ConsumerIsUnique(job, ser, sl, x);
      }
      if job.next[sl.i] == job.required[x.i][x.o] {
        ProducerIsPrevious(job, ser, x, sl);
      }
    }
  }

  lemma {:induction false} AnswerSlot(job: Job, ser: Serial, s: State, x: Slot, sl: Slot)
    requires Explains(job, ser) && SlotInv(job, ser, s, sl) && Enabled(job, s, Answer(x))
    requires sl != x && IsSlot(job, sl) ==> Spares(ser, s, s.reqs[x].h, sl)
    requires Prev(ser, x) >= 0 && PrevSlot(ser, x) in s.notified && x !in s.waited
    requires var place := Place(job.owner[x.i][x.o].value, x.o);
             if Ok(ser, Prev(ser, x)) then
               place in s.store && IsOutput(job, ser, PrevSlot(ser, x), s.store[place])
               && s.store[place].version == job.required[x.i][x.o]
             else
               !(place in s.store && s.store[place].version == job.required[x.i][x.o])
    ensures SlotInv(job, ser, Apply(job, s, Answer(x)), sl)
  {
    if sl != x && IsSlot(job, sl) {
      SlotKept(job, ser, s, Apply(job, s, Answer(x)), sl);
    }
  }

  lemma {:induction false} AnswerKeepsSlots(job: Job, ser: Serial, s: State, x: Slot)
    requires Explains(job, ser) && Inv(job, ser, s) && Enabled(job, s, Answer(x))
    ensures forall sl :: SlotInv(job, ser, Apply(job, s, Answer(x)), sl)
  {
    AnswerIsRight(job, ser, s, x);
    assert SlotInv(job, ser, s, x) && SlotExplained(job, ser, x);
    forall sl ensures SlotInv(job, ser, Apply(job, s, Answer(x)), sl) {
      assert SlotInv(job, ser, s, sl);
      if sl != x && IsSlot(job, sl) {
        OtherConsumer(job, ser, s, x, s.reqs[x].h, sl);
      }
      AnswerSlot(job, ser, s, x, sl);
    }
  }

  lemma {:induction false} AnswerKeeps(job: Job, ser: Serial, s: State, x: Slot)
    requires Explains(job, ser) && Inv(job, ser, s) && Enabled(job, s, Answer(x))
    ensures Inv(job, ser, Apply(job, s, Answer(x)))
  {
    AnswerIsRight(job, ser, s, x);
    forall h: nat, sl ensures HandleInv(job, ser, Apply(job, s, Answer(x)), h, sl) {
      assert HandleInv(job, ser, s, h, sl);
      AnswerHandle(job, ser, s, x, h, sl);
    }
    AnswerKeepsSlots(job, ser, s, x);
    PlacesKept(job, ser, s, Apply(job, s, Answer(x)));
    PhasesKept(job, s, Apply(job, s, Answer(x)));
  }

  // ------------------------------------------------- checking

  /** Two slots with the same key are the same slot, and nothing else that
      involves the key of a version `x` has waited for is still outstanding. */
  lemma {:induction false} CheckTakesRoles(job: Job, ser: Serial, s: State, x: Slot, sl: Slot)
    requires Explains(job, ser) && Inv(job, ser, s) && IsSlot(job, x) && IsSlot(job, sl)
    requires x in s.prior && x in s.waited && Awaits(job, x)
    ensures RolesTaken(job, s, sl, PriorKey(job, x))
  {
    assert SlotExplained(job, ser, x) && SlotInv(job, ser, s, x) && SlotExplained(job, ser, sl);
    if sl.o == x.o {
      if job.required[sl.i][sl.o] == job.required[x.i][x.o] {
        ConsumerIsUnique(job, ser, sl, x);
      }
      if job.next[sl.i] == job.required[x.i][x.o] {
        ProducerIsPrevious(job, ser, x, sl);
      }
    }
  }

  lemma {:induction false} CheckKeepsHandles(job: Job, ser: Serial, s: State, i: nat)
    requires Explains(job, ser) && Inv(job, ser, s) && Enabled(job, s, Check(i))
    ensures forall h: nat, sl :: HandleInv(job, ser, Apply(job, s, Check(i)), h, sl)
  {
    var t := Apply(job, s, Check(i));
    forall h: nat, sl ensures HandleInv(job, ser, t, h, sl) {
      assert HandleInv(job, ser, s, h, sl);
      if h < |s.alloc| && IsSlot(job, sl) && s.alloc[h] in s.table && s.alloc[h] !in t.table {
        var o :| o in job.txns[i].inputs && s.alloc[h] == PriorKey(job, Slot(i, o));
        CheckTakesRoles(job, ser, s, Slot(i, o), sl);
      }
    }
  }

  lemma {:induction false} CheckSlot(job: Job, ser: Serial, s: State, i: nat, sl: Slot)
    requires Explains(job, ser) && SlotInv(job, ser, s, sl) && Enabled(job, s, Check(i))
    ensures SlotInv(job, ser, Apply(job, s, Check(i)), sl)
  {
    SlotKept(job, ser, s, Apply(job, s, Check(i)), sl);
  }

  /** A transaction is checked when it has registered everything and waited for it. */
  lemma {:induction false} PhasesWithChecked(job: Job, s: State, t: State, i: nat)
    requires WellShaped(job) && Phases(job, s) && i < |job.txns| && Registered(job, s, i)
    requires forall o :: o in job.txns[i].inputs && Awaits(job, Slot(i, o)) ==> Slot(i, o) in s.waited
    requires t.started == s.started && t.prior == s.prior && t.next == s.next && t.waited == s.waited
    requires t.done == s.done && t.notified == s.notified && t.reqs == s.reqs && t.checked.Keys == s.checked.Keys + {i}
    ensures Phases(job, t)
  {
    forall j | j in t.checked.Keys ensures j < |job.txns| && Registered(job, t, j) {
      StaysRegistered(job, s, t, j);
    }
  }

  lemma {:induction false} CheckPhases(job: Job, s: State, i: nat)
    requires WellShaped(job) && Phases(job, s) && Enabled(job, s, Check(i))
    ensures Phases(job, Apply(job, s, Check(i)))
  {
    PhasesWithChecked(job, s, Apply(job, s, Check(i)), i);
  }

  lemma {:induction false} CheckKeepsSlots(job: Job, ser: Serial, s: State, i: nat)
    requires Explains(job, ser) && Inv(job, ser, s) && Enabled(job, s, Check(i))
    ensures forall sl :: SlotInv(job, ser, Apply(job, s, Check(i)), sl)
  {
    forall sl ensures SlotInv(job, ser, Apply(job, s, Check(i)), sl) {
      assert SlotInv(job, ser, s, sl);
      CheckSlot(job, ser, s, i, sl);
    }
  }

  /** The check compares versions exactly as the serial run does. */
  lemma {:induction false} CheckIsRight(job: Job, ser: Serial, s: State, i: nat)
    requires Explains(job, ser) && Inv(job, ser, s) && i < |job.txns| && i !in s.done
    requires forall o :: o in job.txns[i].inputs && Awaits(job, Slot(i, o)) ==> Slot(i, o) in s.waited
    ensures job.txns[i].verified && VersionsMatch(job, s, i) <==> Ok(ser, i)
  {
    assert TxnExplained(job, ser, i);
    forall o | o in job.txns[i].inputs
      ensures InputReady(job, ser, Slot(i, o)) <==>
                Place(job.route[i], o) in s.store && s.store[Place(job.route[i], o)].version == job.required[i][o]
    {
      ReadyExactlyWhenStored(job, ser, s, Slot(i, o));
    }
  }

  lemma {:induction false} CheckKeeps(job: Job, ser: Serial, s: State, i: nat)
    requires Explains(job, ser) && Inv(job, ser, s) && Enabled(job, s, Check(i))
    ensures Inv(job, ser, Apply(job, s, Check(i)))
  {
    var t := Apply(job, s, Check(i));
    CheckIsRight(job, ser, s, i);
    CheckKeepsHandles(job, ser, s, i);
    CheckKeepsSlots(job, ser, s, i);
    PlacesKept(job, ser, s, t);
    CheckPhases(job, s, i);
  }

  // ------------------------------------------------- storing

  /** An executing transaction reads the serial contents and leaves the serial outputs. */
  lemma {:induction false} ExecuteIsRight(job: Job, ser: Serial, s: State, i: nat)
    requires Explains(job, ser) && Inv(job, ser, s) && Enabled(job, s, Execute(i)) && s.checked[i]
    ensures Ok(ser, i) && VersionsMatch(job, s, i)
    ensures forall o :: o in job.txns[i].inputs ==>
              IsOutput(job, ser, Slot(i, o), Effects(job, s, i)[Place(job.route[i], o)])
  {
    CheckIsRight(job, ser, s, i);
    assert TxnExplained(job, ser, i);
    var ins := ReadSet(job, s, i);
    forall o | o in job.txns[i].inputs
      ensures InputReady(job, ser, Slot(i, o)) && (Prev(ser, Slot(i, o)) >= 0 ==> PrevSlot(ser, Slot(i, o)) in ser.out)
      ensures o in ins && ins[o] == InputContent(job, ser, Slot(i, o))
    {
      StoredBeforeFinish(job, ser, s, Slot(i, o), job.route[i]);
    }
    assert SerialReads(job, ser, i, ins);
  }

  /** A store only moves forward: `t` differs from `s` by objects at `p` that are
      newer than what was there. */
  ghost predicate StoreAdvances(s: State, t: State)
  {
    && s.store.Keys <= t.store.Keys
    && forall place :: place in s.store ==> s.store[place].version <= t.store[place].version
  }

  lemma {:induction false} SlotKeptAsStoreAdvances(job: Job, ser: Serial, s: State, t: State, sl: Slot)
    requires Explains(job, ser) && SlotInv(job, ser, s, sl) && StoreAdvances(s, t)
    requires Untouched(ser, s, t.(store := s.store), sl)
    ensures SlotInv(job, ser, t, sl)
  {
    SlotKept(job, ser, s, t.(store := s.store), sl);
  }

  lemma {:induction false} ExecuteAdvancesStore(job: Job, ser: Serial, s: State, i: nat)
    requires Explains(job, ser) && Inv(job, ser, s) && Enabled(job, s, Execute(i))
    ensures StoreAdvances(s, Apply(job, s, Execute(i)))
  {
    var t := Apply(job, s, Execute(i));
    forall place | place in s.store ensures s.store[place].version <= t.store[place].version {
      if s.checked[i] && place in Effects(job, s, i) {
        StoredBeforeFinish(job, ser, s, Slot(i, place.o), place.p);
        assert SlotExplained(job, ser, Slot(i, place.o));
      }
    }
  }

  /** Slots of other transactions see at most newer objects. */
  lemma {:induction false} ExecuteOtherSlot(job: Job, ser: Serial, s: State, i: nat, sl: Slot)
    requires Explains(job, ser) && SlotInv(job, ser, s, sl) && Enabled(job, s, Execute(i)) && sl.i != i
    requires StoreAdvances(s, Apply(job, s, Execute(i)))
    ensures SlotInv(job, ser, Apply(job, s, Execute(i)), sl)
  {
    SlotKeptAsStoreAdvances(job, ser, s, Apply(job, s, Execute(i)), sl);
  }

  /** Once its object is delivered, finishing changes nothing else for a slot. */
  lemma {:induction false} SlotFinishes(job: Job, ser: Serial, s: State, sl: Slot)
    requires Explains(job, ser) && IsSlot(job, sl) && SlotInv(job, ser, s, sl)
    requires var place := Place(job.route[sl.i], sl.o);
             Ok(ser, sl.i) ==> place in s.store && s.store[place].version >= job.next[sl.i]
    ensures SlotInv(job, ser, s.(done := s.done + {sl.i}), sl)
  {
  }

  /** The slots of the executed transaction have their objects delivered. */
  lemma {:induction false} ExecuteOwnSlot(job: Job, ser: Serial, s: State, i: nat, sl: Slot)
    requires Explains(job, ser) && SlotInv(job, ser, s, sl) && Enabled(job, s, Execute(i)) && sl.i == i
    requires StoreAdvances(s, Apply(job, s, Execute(i))) && s.checked[i] == Ok(ser, i)
    ensures SlotInv(job, ser, Apply(job, s, Execute(i)), sl)
  {
    var t := Apply(job, s, Execute(i));
    SlotKeptAsStoreAdvances(job, ser, s, t.(done := s.done), sl);
    if IsSlot(job, sl) {
      assert Ok(ser, i) ==> Place(job.route[i], sl.o) in Effects(job, s, i);
      SlotFinishes(job, ser, t.(done := s.done), sl);
      assert t == t.(done := s.done).(done := s.done + {i});
    }
  }

  lemma {:induction false} ExecutePhases(job: Job, s: State, i: nat)
    requires WellShaped(job) && Phases(job, s) && Enabled(job, s, Execute(i))
    ensures Phases(job, Apply(job, s, Execute(i)))
  {
  }

  lemma {:induction false} ExecuteKeepsPlaces(job: Job, ser: Serial, s: State, i: nat)
    requires Explains(job, ser) && Inv(job, ser, s) && Enabled(job, s, Execute(i))
    ensures forall place :: PlaceInv(job, ser, Apply(job, s, Execute(i)), place)
  {
    var t := Apply(job, s, Execute(i));
    if s.checked[i] {
      ExecuteIsRight(job, ser, s, i);
    }
    forall place ensures PlaceInv(job, ser, t, place) {
      assert PlaceInv(job, ser, s, place);
      if s.checked[i] && place in Effects(job, s, i) {
        assert i in t.done && IsOutput(job, ser, Slot(i, place.o), t.store[place]);
      }
    }
  }

  lemma {:induction false} ExecuteKeeps(job: Job, ser: Serial, s: State, i: nat)
    requires Explains(job, ser) && Inv(job, ser, s) && Enabled(job, s, Execute(i))
    ensures Inv(job, ser, Apply(job, s, Execute(i)))
  {
    var t := Apply(job, s, Execute(i));
    ExecuteAdvancesStore(job, ser, s, i);
    forall sl ensures SlotInv(job, ser, t, sl) {
      assert SlotInv(job, ser, s, sl);
      if sl.i == i {
        ExecuteOwnSlot(job, ser, s, i, sl);
      } else {
        ExecuteOtherSlot(job, ser, s, i, sl);
      }
    }
    ExecuteKeepsPlaces(job, ser, s, i);
    HandlesKept(job, ser, s, t);
    ExecutePhases(job, s, i);
  }

  /** A fetched object replaces something older. */
  lemma {:induction false} CommitAdvancesStore(job: Job, ser: Serial, s: State, x: Slot)
    requires Explains(job, ser) && Inv(job, ser, s) && Enabled(job, s, Commit(x))
    ensures StoreAdvances(s, Apply(job, s, Commit(x)))
    ensures Prev(ser, x) >= 0 && IsOutput(job, ser, PrevSlot(ser, x), s.reqs[x].obj) && Prev(ser, x) in s.done
    ensures s.reqs[x].obj.version == job.required[x.i][x.o]
  {
    assert SlotInv(job, ser, s, x) && SlotExplained(job, ser, x);
    RemoteAwaits(job, ser, x);
    if x.i in s.done {
      DoneHasWaited(job, s, x);
      assert false;
    }
    if Place(job.route[x.i], x.o) in s.store {
      StoredBeforeFinish(job, ser, s, x, job.route[x.i]);
    }
    WaitedIsAfterPrevious(job, ser, s, x);
  }

  lemma {:induction false} CommitSlot(job: Job, ser: Serial, s: State, x: Slot, sl: Slot)
    requires Explains(job, ser) && SlotInv(job, ser, s, sl) && Enabled(job, s, Commit(x))
    requires StoreAdvances(s, Apply(job, s, Commit(x))) && s.reqs[x].obj.version == job.required[x.i][x.o]
    requires Prev(ser, x) >= 0 && Ok(ser, Prev(ser, x))
    ensures SlotInv(job, ser, Apply(job, s, Commit(x)), sl)
  {
    if sl != x {
      SlotKeptAsStoreAdvances(job, ser, s, Apply(job, s, Commit(x)), sl);
    }
  }

  lemma {:induction false} CommitKeepsPlaces(job: Job, ser: Serial, s: State, x: Slot)
    requires Explains(job, ser) && Inv(job, ser, s) && Enabled(job, s, Commit(x))
    ensures forall place :: PlaceInv(job, ser, Apply(job, s, Commit(x)), place)
  {
    var t := Apply(job, s, Commit(x));
    CommitAdvancesStore(job, ser, s, x);
    forall place ensures PlaceInv(job, ser, t, place) {
      assert PlaceInv(job, ser, s, place);
      if place == Place(job.route[x.i], x.o) {
        assert IsOutput(job, ser, Slot(Prev(ser, x), place.o), t.store[place]);
      }
    }
  }

  lemma {:induction false} CommitKeepsSlots(job: Job, ser: Serial, s: State, x: Slot)
    requires Explains(job, ser) && Inv(job, ser, s) && Enabled(job, s, Commit(x))
    ensures forall sl :: SlotInv(job, ser, Apply(job, s, Commit(x)), sl)
  {
    CommitAdvancesStore(job, ser, s, x);
    forall sl ensures SlotInv(job, ser, Apply(job, s, Commit(x)), sl) {
      assert SlotInv(job, ser, s, sl);
      CommitSlot(job, ser, s, x, sl);
    }
  }

  lemma {:induction false} CommitKeepsHandles(job: Job, ser: Serial, s: State, x: Slot)
    requires Explains(job, ser) && Inv(job, ser, s) && Enabled(job, s, Commit(x))
    ensures forall h: nat, sl :: HandleInv(job, ser, Apply(job, s, Commit(x)), h, sl)
  {
    HandlesKept(job, ser, s, Apply(job, s, Commit(x)));
  }

  lemma {:induction false} CommitKeeps(job: Job, ser: Serial, s: State, x: Slot)
    requires Explains(job, ser) && Inv(job, ser, s) && Enabled(job, s, Commit(x))
    ensures Inv(job, ser, Apply(job, s, Commit(x)))
  {
    var t := Apply(job, s, Commit(x));
    CommitAdvancesStore(job, ser, s, x);
    CommitKeepsSlots(job, ser, s, x);
    CommitKeepsHandles(job, ser, s, x);
    CommitKeepsPlaces(job, ser, s, x);
    PhasesKept(job, s, Apply(job, s, Commit(x)));
  }

  // ------------------------------------------------- every step, every run

  lemma {:induction false} StepKeeps(job: Job, ser: Serial, s: State, a: Action)
    requires Explains(job, ser) && Inv(job, ser, s) && Enabled(job, s, a)
    ensures Inv(job, ser, Apply(job, s, a))
  {
    match a
    case Start(i) => StartKeeps(job, ser, s, i);
    case RegisterPrior(sl) => RegisterPriorKeeps(job, ser, s, sl);
    case RegisterNext(sl) => RegisterNextKeeps(job, ser, s, sl);
    case Wait(i, k) => WaitKeeps(job, ser, s, i, k);
    case Check(i) => CheckKeeps(job, ser, s, i);
    case Execute(i) => ExecuteKeeps(job, ser, s, i);
    case Notify(sl) => NotifyKeeps(job, ser, s, sl);
    case Serve(sl) => ServeKeeps(job, ser, s, sl);
    case Answer(sl) => AnswerKeeps(job, ser, s, sl);
    case Accept(sl) => AcceptKeeps(job, ser, s, sl);
    case Panic(sl) => PanicKeeps(job, ser, s, sl);
    case Commit(sl) => CommitKeeps(job, ser, s, sl);
    case Close(sl) => CloseKeeps(job, ser, s, sl);
  }

  lemma {:induction false} RunKeeps(job: Job, ser: Serial, acts: seq<Action>, states: seq<State>, n: nat)
    requires Explains(job, ser) && IsRun(job, acts, states) && n <= |acts|
    ensures Inv(job, ser, states[n])
  {
    if n == 0 {
      InitHolds(job, ser);
    } else {
      RunKeeps(job, ser, acts, states, n - 1);
      StepKeeps(job, ser, states[n - 1], acts[n - 1]);
    }
  }

  /** The invariant holds in every reachable state. */
  lemma {:induction false} ReachableKeeps(job: Job, ser: Serial, s: State)
    requires Explains(job, ser) && Reachable(job, s)
    ensures Inv(job, ser, s)
  {
    var acts, states :| IsRun(job, acts, states) && states[|acts|] == s;
    RunKeeps(job, ser, acts, states, |acts|);
  }
}
