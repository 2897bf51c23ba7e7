/** What holds in every reachable state of the proxies, and the facts about the
    version chain that it rests on. */
module ProtocolInvariant {
  import opened Types
  import opened Protocol

  // ------------------------------------------------- the serial explanation

  /** The serial run behind a job: the previous transaction touching each slot's
      object (-1 when there is none), whether each transaction executes, and what
      an executing transaction gives each of its objects. */
  datatype Serial = Serial(prev: map<Slot, int>, ok: seq<bool>, out: map<Slot, Content>)

  function Prev(ser: Serial, sl: Slot): int
  {
    if sl in ser.prev then ser.prev[sl] else -1
  }

  predicate Ok(ser: Serial, i: int)
  {
    0 <= i < |ser.ok| && ser.ok[i]
  }

  /** The slot through which the previous transaction touched the same object. */
  function PrevSlot(ser: Serial, sl: Slot): Slot
    requires Prev(ser, sl) >= 0
  {
    Slot(Prev(ser, sl), sl.o)
  }

  /** What the primary promises about one slot. */
  ghost predicate SlotExplained(job: Job, ser: Serial, sl: Slot)
    requires WellShaped(job) && IsSlot(job, sl)
  {
    && -1 <= Prev(ser, sl) < sl.i
    && (forall k: nat :: Prev(ser, sl) < k < sl.i ==> !IsSlot(job, Slot(k, sl.o)))
    && job.required[sl.i][sl.o] < job.next[sl.i]
    && if Prev(ser, sl) < 0 then
         job.required[sl.i][sl.o] == INITIAL_VERSION && job.owner[sl.i][sl.o] == None
       else
         && IsSlot(job, PrevSlot(ser, sl))
         && job.required[sl.i][sl.o] == job.next[Prev(ser, sl)]
         && job.owner[sl.i][sl.o] ==
            if job.route[Prev(ser, sl)] == job.route[sl.i] then None else Some(job.route[Prev(ser, sl)])
  }

  /** In the serial run, `sl`'s object is present at the required version when its turn comes. */
  ghost predicate InputReady(job: Job, ser: Serial, sl: Slot)
  {
    if Prev(ser, sl) < 0 then sl.o in job.init else Ok(ser, Prev(ser, sl))
  }

  ghost function InputContent(job: Job, ser: Serial, sl: Slot): Content
    requires InputReady(job, ser, sl)
    requires Prev(ser, sl) >= 0 ==> PrevSlot(ser, sl) in ser.out
  {
    if Prev(ser, sl) < 0 then job.init[sl.o] else ser.out[PrevSlot(ser, sl)]
  }

  /** `ins` are the contents transaction `i` finds in the serial run. */
  ghost predicate SerialReads(job: Job, ser: Serial, i: nat, ins: map<ObjectId, Content>)
    requires i < |job.txns|
  {
    && (forall o :: o in ins <==> o in job.txns[i].inputs)
    && forall o :: o in job.txns[i].inputs ==>
      && InputReady(job, ser, Slot(i, o))
      && (Prev(ser, Slot(i, o)) >= 0 ==> PrevSlot(ser, Slot(i, o)) in ser.out)
      && ins[o] == InputContent(job, ser, Slot(i, o))
  }

  ghost predicate TxnExplained(job: Job, ser: Serial, i: nat)
    requires WellShaped(job) && i < |job.txns| == |ser.ok|
  {
    && job.next[i] > INITIAL_VERSION
    && (Ok(ser, i) <==>
          job.txns[i].verified && forall o :: o in job.txns[i].inputs ==> InputReady(job, ser, Slot(i, o)))
    && (Ok(ser, i) ==> forall o :: o in job.txns[i].inputs ==> Slot(i, o) in ser.out)
    && (forall o, ins :: Ok(ser, i) && o in job.txns[i].inputs && SerialReads(job, ser, i, ins) ==>
          ser.out[Slot(i, o)] == job.txns[i].run(o, ins))
  }

  /** The job's messages agree with the serial run `ser`. */
  ghost predicate Explains(job: Job, ser: Serial)
  {
    && WellShaped(job)
    && |ser.ok| == |job.txns|
    && (forall sl {:trigger SlotExplained(job, ser, sl)} :: IsSlot(job, sl) ==> SlotExplained(job, ser, sl))
    && (forall i: nat {:trigger TxnExplained(job, ser, i)} :: i < |job.txns| ==> TxnExplained(job, ser, i))
  }

  /** Versions of one object strictly increase along the transactions touching it. */
  lemma {:induction false} VersionsIncrease(job: Job, ser: Serial, a: Slot, b: Slot)
    requires Explains(job, ser) && IsSlot(job, a) && IsSlot(job, b) && a.o == b.o && a.i < b.i
    ensures Prev(ser, b) >= a.i
    ensures job.next[a.i] <= job.required[b.i][b.o] < job.next[b.i]
    decreases b.i
  {
    assert SlotExplained(job, ser, b) && a == Slot(a.i, b.o);
    if Prev(ser, b) < a.i {
      assert false;
    } else if Prev(ser, b) > a.i {
      VersionsIncrease(job, ser, a, PrevSlot(ser, b));
    }
  }

  /** An object version has at most one consumer. */
  lemma {:induction false} ConsumerIsUnique(job: Job, ser: Serial, a: Slot, b: Slot)
    requires Explains(job, ser) && IsSlot(job, a) && IsSlot(job, b) && a.o == b.o
    requires job.required[a.i][a.o] == job.required[b.i][b.o]
    ensures a == b
  {
    assert SlotExplained(job, ser, a) && SlotExplained(job, ser, b);
    if a.i < b.i {
      VersionsIncrease(job, ser, a, b);
    } else if b.i < a.i {
      VersionsIncrease(job, ser, b, a);
    }
  }

  /** An object version has at most one producer, the one just before its consumer. */
  lemma {:induction false} ProducerIsPrevious(job: Job, ser: Serial, consumer: Slot, producer: Slot)
    requires Explains(job, ser) && IsSlot(job, consumer) && IsSlot(job, producer) && consumer.o == producer.o
    requires job.required[consumer.i][consumer.o] == job.next[producer.i]
    ensures Prev(ser, consumer) >= 0 && PrevSlot(ser, consumer) == producer
  {
    assert SlotExplained(job, ser, consumer) && SlotExplained(job, ser, producer) && TxnExplained(job, ser, producer.i);
    if consumer.i <= producer.i {
      if consumer.i < producer.i {
        VersionsIncrease(job, ser, consumer, producer);
      }
      assert false;
    } else {
      VersionsIncrease(job, ser, producer, consumer);
      if Prev(ser, consumer) > producer.i {
        VersionsIncrease(job, ser, producer, PrevSlot(ser, consumer));
      }
    }
  }

  // ------------------------------------------------- the invariant

  predicate Answered(r: Request)
  {
    !r.Sent? && !r.Serving?
  }

  predicate Arrived(r: Request)
  {
    r.Committed? || r.Closed?
  }

  predicate HoldsReplyHandle(r: Request)
  {
    r.Accepted? || r.Committed? || r.Closed?
  }

  /** Whoever produces the version that `sl` requires has signalled it at `sl`'s proxy. */
  ghost predicate Produced(job: Job, ser: Serial, s: State, sl: Slot)
    requires Explains(job, ser) && IsSlot(job, sl) && Prev(ser, sl) >= 0
  {
    if Remote(job, sl) then sl in s.reqs && s.reqs[sl].Closed?
    else PrevSlot(ser, sl) in s.notified
  }

  /** Bookkeeping: which steps a task or request has behind it. */
  ghost predicate Phases(job: Job, s: State)
    requires WellShaped(job)
  {
    && (forall i :: i in s.started ==> i < |job.txns|)
    && (forall sl :: sl in s.prior ==> IsSlot(job, sl) && Awaits(job, sl))
    && (forall sl :: sl in s.next ==> IsSlot(job, sl))
    && (forall sl :: sl in s.waited ==> sl in s.prior)
    && (forall i :: i in s.checked ==> i < |job.txns| && Registered(job, s, i))
    && (forall i, o :: i in s.checked && i < |job.txns| && o in job.txns[i].inputs && Awaits(job, Slot(i, o)) ==>
          Slot(i, o) in s.waited)
    && (forall i :: i in s.done ==> i in s.checked)
    && (forall sl :: sl in s.notified ==> IsSlot(job, sl) && sl.i in s.done && sl in s.next)
    && (forall sl :: sl in s.reqs ==> IsSlot(job, sl) && Remote(job, sl) && sl.i in s.started)
    && (forall sl {:trigger sl in s.reqs} :: IsSlot(job, sl) && Remote(job, sl) && sl.i in s.started ==> sl in s.reqs)
  }

  /** No key ever gets a second handle, and the map points at the key's handle. */
  ghost predicate TableInv(s: State)
  {
    && (forall a, b :: 0 <= a < b < |s.alloc| ==> s.alloc[a] != s.alloc[b])
    && (forall k :: k in s.table ==> s.table[k] < |s.alloc| && s.alloc[s.table[k]] == k)
    && (forall h :: h in s.permits ==> h < |s.alloc|)
    && (forall h :: 0 <= h < |s.alloc| ==> s.alloc[h].v > INITIAL_VERSION)
  }

  predicate HandleFor(s: State, h: nat, k: Key)
  {
    h < |s.alloc| && s.alloc[h] == k
  }

  /** Every handle is held under the key it was created for. */
  ghost predicate HoldsRightHandles(job: Job, s: State, sl: Slot)
    requires WellShaped(job) && IsSlot(job, sl)
  {
    && (sl in s.prior ==> HandleFor(s, s.prior[sl], PriorKey(job, sl)))
    && (sl in s.next ==> HandleFor(s, s.next[sl], NextKey(job, sl)))
    && (sl in s.reqs && s.reqs[sl].Serving? && Remote(job, sl) ==> HandleFor(s, s.reqs[sl].h, ServeKey(job, sl)))
    && (sl in s.reqs && HoldsReplyHandle(s.reqs[sl]) ==> HandleFor(s, s.reqs[sl].h, PriorKey(job, sl)))
  }

  /** If `sl` has any business with key `k`, it has already looked it up. */
  ghost predicate RolesTaken(job: Job, s: State, sl: Slot, k: Key)
    requires WellShaped(job) && IsSlot(job, sl)
  {
    && (PriorKey(job, sl) == k && Awaits(job, sl) ==> sl in s.prior)
    && (NextKey(job, sl) == k ==> sl in s.next)
    && (Remote(job, sl) && ServeKey(job, sl) == k ==> sl in s.reqs && !s.reqs[sl].Sent?)
    && (Remote(job, sl) && PriorKey(job, sl) == k ==> sl in s.reqs && HoldsReplyHandle(s.reqs[sl]))
  }

  /** A notification under key `k` comes from the producer that `sl` depends on. */
  ghost predicate SentByProducer(job: Job, ser: Serial, s: State, sl: Slot, k: Key)
    requires Explains(job, ser) && IsSlot(job, sl)
  {
    Prev(ser, sl) >= 0 ==>
      && (PriorKey(job, sl) == k ==> Produced(job, ser, s, sl))
      && (Remote(job, sl) && ServeKey(job, sl) == k ==> PrevSlot(ser, sl) in s.notified)
  }

  /** A dependency entry is removed only when both of its sides hold the handle,
      and a pending notification was sent by the right producer. */
  ghost predicate HandleInv(job: Job, ser: Serial, s: State, h: nat, sl: Slot)
    requires Explains(job, ser)
  {
    h < |s.alloc| && IsSlot(job, sl) ==>
      && (s.alloc[h] !in s.table ==> RolesTaken(job, s, sl, s.alloc[h]))
      && (h in s.permits ==> SentByProducer(job, ser, s, sl, s.alloc[h]))
  }

  /** A notification that was sent and not yet consumed is pending: none is lost. */
  ghost predicate NotificationKept(job: Job, ser: Serial, s: State, sl: Slot)
    requires Explains(job, ser) && IsSlot(job, sl)
  {
    && (Prev(ser, sl) >= 0 && PrevSlot(ser, sl) in s.notified && PrevSlot(ser, sl) in s.next ==>
          if Remote(job, sl) then
            (sl in s.reqs && Answered(s.reqs[sl])) || s.next[PrevSlot(ser, sl)] in s.permits
          else
            sl in s.waited || s.next[PrevSlot(ser, sl)] in s.permits)
    && (sl in s.reqs && s.reqs[sl].Closed? && sl !in s.waited ==> s.reqs[sl].h in s.permits)
  }

  /** Waits and replies happen after the production they depend on. */
  ghost predicate Ordered(job: Job, ser: Serial, s: State, sl: Slot)
    requires Explains(job, ser) && IsSlot(job, sl)
  {
    Prev(ser, sl) >= 0 ==>
      && (sl in s.waited ==> Produced(job, ser, s, sl))
      && (sl in s.reqs && Answered(s.reqs[sl]) ==> PrevSlot(ser, sl) in s.notified)
  }

  /** The object that `sl`'s transaction leaves behind in the serial run. */
  ghost predicate IsOutput(job: Job, ser: Serial, sl: Slot, obj: Object)
    requires WellShaped(job)
  {
    && IsSlot(job, sl) && Ok(ser, sl.i) && sl in ser.out
    && obj == Object(job.next[sl.i], ser.out[sl])
  }

  /** A state reply carries exactly the requested version, and it is empty exactly
      when the serial run skips the producer. */
  ghost predicate RightReply(job: Job, ser: Serial, s: State, sl: Slot)
    requires Explains(job, ser) && IsSlot(job, sl)
  {
    Prev(ser, sl) >= 0 && sl in s.reqs ==>
      match s.reqs[sl]
      case Replied(reply) =>
        if Ok(ser, Prev(ser, sl)) then reply.Some? && IsOutput(job, ser, PrevSlot(ser, sl), reply.value)
        else reply.None?
      case Accepted(_, obj) => IsOutput(job, ser, PrevSlot(ser, sl), obj)
      case Committed(_) => Ok(ser, Prev(ser, sl))
      case Closed(_) => Ok(ser, Prev(ser, sl))
      case Dropped => !Ok(ser, Prev(ser, sl)) && job.route[sl.i] in s.crashed
      case _ => true
  }

  /** What a transaction produced or fetched is in its proxy's store, or has been
      replaced by something newer. */
  ghost predicate Delivered(job: Job, ser: Serial, s: State, sl: Slot)
    requires Explains(job, ser) && IsSlot(job, sl)
  {
    var place := Place(job.route[sl.i], sl.o);
    && (sl.i in s.done && Ok(ser, sl.i) ==> place in s.store && s.store[place].version >= job.next[sl.i])
    && (sl in s.reqs && Arrived(s.reqs[sl]) ==>
          place in s.store && s.store[place].version >= job.required[sl.i][sl.o])
  }

  ghost predicate SlotInv(job: Job, ser: Serial, s: State, sl: Slot)
    requires Explains(job, ser)
  {
    IsSlot(job, sl) ==>
      && HoldsRightHandles(job, s, sl)
      && NotificationKept(job, ser, s, sl)
      && Ordered(job, ser, s, sl)
      && RightReply(job, ser, s, sl)
      && Delivered(job, ser, s, sl)
  }

  /** A stored object is the initial one or the serial output of a finished transaction. */
  ghost predicate PlaceInv(job: Job, ser: Serial, s: State, place: Place)
    requires WellShaped(job)
  {
    && (place in s.store ==>
          || (place.o in job.init && s.store[place] == Object(INITIAL_VERSION, job.init[place.o]))
          || (exists j: nat :: j in s.done && IsOutput(job, ser, Slot(j, place.o), s.store[place])))
    && (place.p < job.proxies && place.o in job.init ==> place in s.store)
  }

  /** The version check passes exactly for the transactions the serial run executes. */
  ghost predicate Verdicts(job: Job, ser: Serial, s: State)
    requires Explains(job, ser)
  {
    forall i :: i in s.checked && i < |job.txns| ==> s.checked[i] == Ok(ser, i)
  }

  ghost predicate Inv(job: Job, ser: Serial, s: State)
    requires Explains(job, ser)
  {
    && Phases(job, s)
    && TableInv(s)
    && Verdicts(job, ser, s)
    && (forall h: nat, sl :: HandleInv(job, ser, s, h, sl))
    && (forall sl :: SlotInv(job, ser, s, sl))
    && (forall place :: PlaceInv(job, ser, s, place))
  }
}
