/** The versioned execution protocol of the proxies, as a state machine over its
    atomic steps. Every step of every task may interleave with every other, and
    messages may be delivered in any order. */
module Protocol {
  import opened Types

  /** One (transaction, declared object) pair. */
  datatype Slot = Slot(i: nat, o: ObjectId)

  /** A key of the dependency map of one proxy. */
  datatype Key = Key(p: ProxyId, o: ObjectId, v: Version)

  /** An object as held by one proxy's store. */
  datatype Place = Place(p: ProxyId, o: ObjectId)

  /** Everything the primary tells the proxies: transaction `i` goes to proxy
      `route[i]`, requires `required[i]`, moves its objects to version `next[i]`,
      and must fetch object `o` from `owner[i][o]` when that is a proxy. `init` is
      the content every proxy's store starts with. */
  datatype Job = Job(
    txns: seq<Txn>,
    proxies: nat,
    route: seq<ProxyId>,
    init: map<ObjectId, Content>,
    required: seq<map<ObjectId, Version>>,
    next: seq<Version>,
    owner: seq<map<ObjectId, Option<ProxyId>>>)

  predicate IsSlot(job: Job, sl: Slot)
  {
    sl.i < |job.txns| && sl.o in job.txns[sl.i].inputs
  }

  ghost predicate WellShaped(job: Job)
  {
    && |job.route| == |job.required| == |job.next| == |job.owner| == |job.txns|
    && (forall i :: 0 <= i < |job.txns| ==> job.route[i] < job.proxies)
    && (forall i, o :: 0 <= i < |job.txns| && o in job.txns[i].inputs ==> o in job.required[i] && o in job.owner[i])
  }

  // ---------------------------------------------------------------- state

  /** Life of a state request that one transaction sends for one object. */
  datatype Request =
    | Sent
    | Serving(h: nat)
    | Replied(reply: Option<Object>)
    | Accepted(h: nat, obj: Object)
    | Committed(h: nat)
    | Closed(h: nat)
    | Dropped

  /** `table` is the union of the proxies' dependency maps; `alloc[h]` is the key
      for which the notify handle `h` was created; `permits` are the handles
      holding an unconsumed notification. `prior` and `next` are the handles a
      task has obtained. */
  datatype State = State(
    started: set<nat>,
    table: map<Key, nat>,
    alloc: seq<Key>,
    permits: set<nat>,
    prior: map<Slot, nat>,
    next: map<Slot, nat>,
    waited: set<Slot>,
    checked: map<nat, bool>,
    done: set<nat>,
    notified: set<Slot>,
    reqs: map<Slot, Request>,
    store: map<Place, Object>,
    crashed: set<ProxyId>)

  function Init(job: Job): State
  {
    State({}, map[], [], {}, map[], map[], {}, map[], {}, {}, map[],
          map p, o | 0 <= p < job.proxies && o in job.init :: Place(p, o) := Object(INITIAL_VERSION, job.init[o]),
          {})
  }

  // ---------------------------------------------------------------- steps

  datatype Action =
    | Start(i: nat)                // the primary's message reaches the proxy
    | RegisterPrior(sl: Slot)      // the task obtains the handle it will wait on
    | RegisterNext(sl: Slot)       // the task obtains the handle it will notify
    | Wait(i: nat, k: nat)         // the k-th awaited handle fires
    | Check(i: nat)                // dependency entries removed, versions compared
    | Execute(i: nat)              // the transaction runs and commits, or is skipped
    | Notify(sl: Slot)             // the task notifies one of its handles
    | Serve(sl: Slot)              // the owner's message handler registers a state request
    | Answer(sl: Slot)             // the owner's task reads its store and replies
    | Accept(sl: Slot)             // the requester's message handler takes a reply
    | Panic(sl: Slot)              // an empty reply makes the message handler panic
    | Commit(sl: Slot)             // the fetched object enters the requester's store
    | Close(sl: Slot)              // the requester's waiting task is notified

  function PriorKey(job: Job, sl: Slot): Key
    requires WellShaped(job) && IsSlot(job, sl)
  {
    Key(job.route[sl.i], sl.o, job.required[sl.i][sl.o])
  }

  function NextKey(job: Job, sl: Slot): Key
    requires WellShaped(job) && IsSlot(job, sl)
  {
    Key(job.route[sl.i], sl.o, job.next[sl.i])
  }

  predicate Remote(job: Job, sl: Slot)
    requires WellShaped(job) && IsSlot(job, sl)
  {
    job.owner[sl.i][sl.o].Some?
  }

  function ServeKey(job: Job, sl: Slot): Key
    requires WellShaped(job) && IsSlot(job, sl) && Remote(job, sl)
  {
    Key(job.owner[sl.i][sl.o].value, sl.o, job.required[sl.i][sl.o])
  }

  predicate Awaits(job: Job, sl: Slot)
    requires WellShaped(job) && IsSlot(job, sl)
  {
    job.required[sl.i][sl.o] > INITIAL_VERSION
  }

  predicate Registered(job: Job, s: State, i: nat)
    requires WellShaped(job) && i < |job.txns|
  {
    forall o :: o in job.txns[i].inputs ==>
      Slot(i, o) in s.next && (Awaits(job, Slot(i, o)) ==> Slot(i, o) in s.prior)
  }

  /** The version check made just before execution. */
  predicate VersionsMatch(job: Job, s: State, i: nat)
    requires WellShaped(job) && i < |job.txns|
  {
    forall o :: o in job.txns[i].inputs ==>
      && Place(job.route[i], o) in s.store
      && s.store[Place(job.route[i], o)].version == job.required[i][o]
  }

  /** The contents transaction `i` reads from its proxy's store. */
  function ReadSet(job: Job, s: State, i: nat): map<ObjectId, Content>
    requires WellShaped(job) && i < |job.txns|
  {
    map o | o in job.txns[i].inputs && Place(job.route[i], o) in s.store :: s.store[Place(job.route[i], o)].content
  }

  function Effects(job: Job, s: State, i: nat): map<Place, Object>
    requires WellShaped(job) && i < |job.txns|
  {
    map o | o in job.txns[i].inputs ::
      Place(job.route[i], o) := Object(job.next[i], job.txns[i].run(o, ReadSet(job, s, i)))
  }

  predicate Enabled(job: Job, s: State, a: Action)
    requires WellShaped(job)
  {
    match a
    case Start(i) => i < |job.txns| && i !in s.started
    case RegisterPrior(sl) => IsSlot(job, sl) && sl.i in s.started && Awaits(job, sl) && sl !in s.prior
    case RegisterNext(sl) => IsSlot(job, sl) && sl.i in s.started && sl !in s.next
    case Wait(i, k) =>
      && i < |job.txns| && i in s.started && k < |job.txns[i].inputs| && Registered(job, s, i)
      && var sl := Slot(i, job.txns[i].inputs[k]);
      && Awaits(job, sl) && sl in s.prior && sl !in s.waited && s.prior[sl] in s.permits
      && forall m :: 0 <= m < k ==>
        Awaits(job, Slot(i, job.txns[i].inputs[m])) ==> Slot(i, job.txns[i].inputs[m]) in s.waited
    case Check(i) =>
      && i < |job.txns| && i in s.started && i !in s.checked && Registered(job, s, i)
      && forall o :: o in job.txns[i].inputs && Awaits(job, Slot(i, o)) ==> Slot(i, o) in s.waited
    case Execute(i) => i < |job.txns| && i in s.checked && i !in s.done
    case Notify(sl) => IsSlot(job, sl) && sl.i in s.done && sl in s.next && sl !in s.notified
    case Serve(sl) =>
      && IsSlot(job, sl) && Remote(job, sl) && sl in s.reqs && s.reqs[sl].Sent?
      && job.owner[sl.i][sl.o].value !in s.crashed
    case Answer(sl) =>
      IsSlot(job, sl) && Remote(job, sl) && sl in s.reqs && s.reqs[sl].Serving? && s.reqs[sl].h in s.permits
    case Accept(sl) =>
      IsSlot(job, sl) && sl in s.reqs && s.reqs[sl].Replied? && s.reqs[sl].reply.Some? && job.route[sl.i] !in s.crashed
    case Panic(sl) =>
      IsSlot(job, sl) && sl in s.reqs && s.reqs[sl].Replied? && s.reqs[sl].reply.None? && job.route[sl.i] !in s.crashed
    case Commit(sl) => IsSlot(job, sl) && sl in s.reqs && s.reqs[sl].Accepted?
    case Close(sl) => IsSlot(job, sl) && sl in s.reqs && s.reqs[sl].Committed?
  }

  /** The handle stored under `k`, or the one created for it when there is none. */
  function HandleOf(s: State, k: Key): nat
  {
    if k in s.table then s.table[k] else |s.alloc|
  }

  /** The handles created so far, after looking up `k`. */
  function AllocWith(s: State, k: Key): seq<Key>
  {
    if k in s.table then s.alloc else s.alloc + [k]
  }

  function Apply(job: Job, s: State, a: Action): State
    requires WellShaped(job) && Enabled(job, s, a)
  {
    match a
    case Start(i) =>
      s.(started := s.started + {i},
         reqs := s.reqs + map o | o in job.txns[i].inputs && Remote(job, Slot(i, o)) :: Slot(i, o) := Sent)
    case RegisterPrior(sl) =>
      var k := PriorKey(job, sl);
      s.(table := s.table[k := HandleOf(s, k)], alloc := AllocWith(s, k), prior := s.prior[sl := HandleOf(s, k)])
    case RegisterNext(sl) =>
      var k := NextKey(job, sl);
      s.(table := s.table[k := HandleOf(s, k)], alloc := AllocWith(s, k), next := s.next[sl := HandleOf(s, k)])
    case Wait(i, k) =>
      var sl := Slot(i, job.txns[i].inputs[k]);
      s.(permits := s.permits - {s.prior[sl]}, waited := s.waited + {sl})
    case Check(i) =>
      s.(table := s.table - (set o | o in job.txns[i].inputs :: PriorKey(job, Slot(i, o))),
         checked := s.checked[i := job.txns[i].verified && VersionsMatch(job, s, i)])
    case Execute(i) =>
      s.(done := s.done + {i},
         store := if s.checked[i] then s.store + Effects(job, s, i) else s.store)
    case Notify(sl) =>
      s.(permits := s.permits + {s.next[sl]}, notified := s.notified + {sl})
    case Serve(sl) =>
      var k := ServeKey(job, sl);
      s.(table := s.table[k := HandleOf(s, k)], alloc := AllocWith(s, k), reqs := s.reqs[sl := Serving(HandleOf(s, k))])
    case Answer(sl) =>
      var place := Place(job.owner[sl.i][sl.o].value, sl.o);
      var found := place in s.store && s.store[place].version == job.required[sl.i][sl.o];
      s.(permits := s.permits - {s.reqs[sl].h},
         table := s.table - {ServeKey(job, sl)},
         reqs := s.reqs[sl := Replied(if found then Some(s.store[place]) else None)])
    case Accept(sl) =>
      var obj := s.reqs[sl].reply.value;
      var k := Key(job.route[sl.i], sl.o, obj.version);
      s.(table := s.table[k := HandleOf(s, k)], alloc := AllocWith(s, k),
         reqs := s.reqs[sl := Accepted(HandleOf(s, k), obj)])
    case Panic(sl) =>
      // The next version of an empty list of objects does not exist.
      s.(crashed := s.crashed + {job.route[sl.i]}, reqs := s.reqs[sl := Dropped])
    case Commit(sl) =>
      s.(store := s.store[Place(job.route[sl.i], sl.o) := s.reqs[sl].obj],
         reqs := s.reqs[sl := Committed(s.reqs[sl].h)])
    case Close(sl) =>
      s.(permits := s.permits + {s.reqs[sl].h},
         reqs := s.reqs[sl := Closed(s.reqs[sl].h)])
  }

  // ---------------------------------------------------------------- runs

  /** `states` is a run of the proxies taking the steps `acts` in that order. */
  ghost predicate IsRun(job: Job, acts: seq<Action>, states: seq<State>)
    requires WellShaped(job)
  {
    && |states| == |acts| + 1
    && states[0] == Init(job)
    && forall n :: 0 <= n < |acts| ==>
      Enabled(job, states[n], acts[n]) && states[n + 1] == Apply(job, states[n], acts[n])
  }

  ghost predicate Reachable(job: Job, s: State)
    requires WellShaped(job)
  {
    exists acts: seq<Action>, states: seq<State> ::
      IsRun(job, acts, states) && states[|acts|] == s
  }

  /** No step is possible. */
  ghost predicate Stuck(job: Job, s: State)
    requires WellShaped(job)
  {
    forall a: Action :: !Enabled(job, s, a)
  }

  /** Transaction `i` has run or been skipped, and has told its successors. */
  predicate Completed(job: Job, s: State, i: nat)
    requires i < |job.txns|
  {
    i in s.done && forall o :: o in job.txns[i].inputs ==> Slot(i, o) in s.notified
  }

  predicate AllCompleted(job: Job, s: State)
  {
    forall i: nat :: i < |job.txns| ==> Completed(job, s, i)
  }
}
