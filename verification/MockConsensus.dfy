/** The mock consensus loop: it assembles transactions into batches, seals a batch when
    it is full or the timer fires, and commits sealed batches in any order. */
module MockConsensus {

  /** The loop's state. `received`, `sealed` and `committed` are its history; `waiter`
      holds the sealed batches that consensus has not committed yet. */
  datatype Loop<T> = Loop(
    current: seq<T>,
    inflight: int,
    waiter: seq<seq<T>>,
    received: seq<T>,
    sealed: seq<seq<T>>,
    committed: seq<seq<T>>,
    running: bool)

  /** A commit may be that of any waiting batch; `delivered` says whether the primary
      executor still takes it, and `closed` whether it has dropped the channel. */
  datatype Event<T> = Receive(transaction: T) | Timer(closed: bool) | Commit(k: nat, delivered: bool)

  datatype Parameters = Parameters(batchSize: nat, maxInflight: nat)

  predicate ValidParameters(p: Parameters)
  {
    p.batchSize > 0 && p.maxInflight > 0
  }

  function Start<T>(): Loop<T>
  {
    Loop([], 0, [], [], [], [], true)
  }

  predicate Enabled<T>(p: Parameters, s: Loop<T>, e: Event<T>)
  {
    s.running
    && match e
       case Receive(_) => s.inflight < p.maxInflight
       case Timer(_) => true
       case Commit(k, _) => k < |s.waiter|
  }

  function Seal<T>(s: Loop<T>): Loop<T>
  {
    s.(current := [], inflight := s.inflight + 1, waiter := s.waiter + [s.current], sealed := s.sealed + [s.current])
  }

  function Step<T>(p: Parameters, s: Loop<T>, e: Event<T>): Loop<T>
    requires Enabled(p, s, e)
  {
    match e
    case Receive(t) =>
      var r := s.(current := s.current + [t], received := s.received + [t]);
      if |r.current| >= p.batchSize then Seal(r) else r
    case Timer(closed) =>
      if s.current != [] then Seal(s) else if closed then s.(running := false) else s
    case Commit(k, delivered) =>
      var r := s.(inflight := s.inflight - 1, waiter := s.waiter[..k] + s.waiter[k + 1..]);
      if delivered then r.(committed := r.committed + [s.waiter[k]]) else r.(running := false)
  }

  function Concat<T>(batches: seq<seq<T>>): seq<T>
  {
    if batches == [] then [] else Concat(batches[..|batches| - 1]) + batches[|batches| - 1]
  }

  lemma {:induction false} ConcatOneMore<T>(batches: seq<seq<T>>, batch: seq<T>)
    ensures Concat(batches + [batch]) == Concat(batches) + batch
  {
    assert (batches + [batch])[..|batches|] == batches;
  }

  /** What every reachable state satisfies, stopped or running. */
  ghost predicate Inv<T>(p: Parameters, s: Loop<T>)
  {
    && s.inflight == |s.waiter| <= p.maxInflight
    && (s.inflight == p.maxInflight ==> s.current == [])
    && |s.current| < p.batchSize
    && (forall n :: 0 <= n < |s.sealed| ==> 1 <= |s.sealed[n]| <= p.batchSize)
    && Concat(s.sealed) + s.current == s.received
    && (s.running ==> multiset(s.sealed) == multiset(s.committed) + multiset(s.waiter))
  }

  lemma {:induction false} SealKeeps<T>(p: Parameters, s: Loop<T>)
    requires ValidParameters(p) && 1 <= |s.current| <= p.batchSize && s.inflight == |s.waiter| < p.maxInflight
    requires forall n :: 0 <= n < |s.sealed| ==> 1 <= |s.sealed[n]| <= p.batchSize
    requires Concat(s.sealed) + s.current == s.received
    requires s.running && multiset(s.sealed) == multiset(s.committed) + multiset(s.waiter)
    ensures Inv(p, Seal(s))
  {
    ConcatOneMore(s.sealed, s.current);
    assert Concat(Seal(s).sealed) + [] == s.received;
  }

  lemma {:induction false} CommitKeeps<T>(p: Parameters, s: Loop<T>, k: nat, delivered: bool)
    requires Inv(p, s) && Enabled(p, s, Commit(k, delivered))
    ensures Inv(p, Step(p, s, Commit(k, delivered)))
  {
    assert s.waiter == s.waiter[..k] + ([s.waiter[k]] + s.waiter[k + 1..]);
  }

  /** Every event keeps the invariant: the timer too, though its seal is not guarded,
      because a full pipeline leaves nothing to seal. */
  lemma {:induction false} StepKeeps<T>(p: Parameters, s: Loop<T>, e: Event<T>)
    requires ValidParameters(p) && Inv(p, s) && Enabled(p, s, e)
    ensures Inv(p, Step(p, s, e))
  {
    match e
    case Receive(t) =>
      var r := s.(current := s.current + [t], received := s.received + [t]);
      assert Concat(r.sealed) + r.current == r.received;
      if |r.current| >= p.batchSize {
        SealKeeps(p, r);
      }
    case Timer(closed) =>
      if s.current != [] {
        SealKeeps(p, s);
      }
    case Commit(k, delivered) =>
      CommitKeeps(p, s, k, delivered);
  }

  ghost predicate IsRun<T>(p: Parameters, events: seq<Event<T>>, states: seq<Loop<T>>)
  {
    && |states| == |events| + 1
    && states[0] == Start()
    && forall n :: 0 <= n < |events| ==>
      Enabled(p, states[n], events[n]) && states[n + 1] == Step(p, states[n], events[n])
  }

  /** In every reachable state of the running loop: in-flight batches never exceed the
      maximum, sealed batches have 1 to `batchSize` transactions, sealed batches plus the
      current one are exactly what was received, in order, and every sealed batch is
      either committed or in flight, never both. */
  lemma {:induction false} RunKeeps<T>(p: Parameters, events: seq<Event<T>>, states: seq<Loop<T>>, n: nat)
    requires ValidParameters(p) && IsRun(p, events, states) && n <= |events|
    ensures Inv(p, states[n])
  {
    if n > 0 {
      RunKeeps(p, events, states, n - 1);
      StepKeeps(p, states[n - 1], events[n - 1]);
    } else {
      assert Concat<T>([]) == [];
    }
  }

  function Count<T(==)>(batches: seq<seq<T>>, t: T): nat
  {
    if batches == [] then 0 else Count(batches[..|batches| - 1], t) + multiset(batches[|batches| - 1])[t]
  }

  lemma {:induction false} CountIsConcat<T>(batches: seq<seq<T>>, t: T)
    ensures Count(batches, t) == multiset(Concat(batches))[t]
  {
    if batches != [] {
      CountIsConcat(batches[..|batches| - 1], t);
    }
  }

  lemma {:induction false} CountRemove<T>(batches: seq<seq<T>>, k: nat, t: T)
    requires k < |batches|
    ensures Count(batches, t) == Count(batches[..k] + batches[k + 1..], t) + multiset(batches[k])[t]
  {
    var n := |batches| - 1;
    var without := batches[..k] + batches[k + 1..];
    if k < n {
      CountRemove(batches[..n], k, t);
      assert without[..n - 1] == batches[..n][..k] + batches[..n][k + 1..];
    } else {
      assert without == batches[..n];
    }
  }

  lemma {:induction false} MultisetWithout<T>(s: seq<seq<T>>, k: nat)
    requires k < |s|
    ensures multiset(s[..k] + s[k + 1..]) == multiset(s) - multiset{s[k]}
  {
    assert s == s[..k] + ([s[k]] + s[k + 1..]);
    assert multiset(s) == multiset(s[..k]) + (multiset{s[k]} + multiset(s[k + 1..]));
  }

  /** The order of batches does not matter to how often a transaction occurs in them. */
  lemma {:induction false} CountPermuted<T>(a: seq<seq<T>>, b: seq<seq<T>>, t: T)
    requires multiset(a) == multiset(b)
    ensures Count(a, t) == Count(b, t)
    decreases |a|
  {
    if a == [] {
      assert |multiset(b)| == |b| && |multiset(a)| == 0;
    } else {
      var n := |a| - 1;
      var last := a[n];
      assert last in multiset(a);
      var k :| 0 <= k < |b| && b[k] == last;
      MultisetWithout(a, n);
      MultisetWithout(b, k);
      assert a[..n] + a[n + 1..] == a[..n];
      CountPermuted(a[..n], b[..k] + b[k + 1..], t);
      CountRemove(b, k, t);
    }
  }

  lemma {:induction false} CountAppend<T>(a: seq<seq<T>>, b: seq<seq<T>>, t: T)
    ensures Count(a + b, t) == Count(a, t) + Count(b, t)
    decreases |b|
  {
    if b == [] {
      assert a + b == a;
    } else {
      CountAppend(a, b[..|b| - 1], t);
      assert (a + b)[..|a + b| - 1] == a + b[..|b| - 1];
    }
  }

  /** No transaction is lost or duplicated: each is committed, in flight or waiting in the
      current batch exactly as often as it was received. */
  lemma {:induction false} NothingIsLost<T>(p: Parameters, events: seq<Event<T>>, states: seq<Loop<T>>, t: T)
    requires ValidParameters(p) && IsRun(p, events, states) && states[|events|].running
    ensures var s := states[|events|];
            multiset(s.received)[t] == Count(s.committed, t) + Count(s.waiter, t) + multiset(s.current)[t]
  {
    RunKeeps(p, events, states, |events|);
    var s := states[|events|];
    CountIsConcat(s.sealed, t);
    assert multiset(s.committed + s.waiter) == multiset(s.committed) + multiset(s.waiter);
    CountPermuted(s.sealed, s.committed + s.waiter, t);
    CountAppend(s.committed, s.waiter, t);
    assert multiset(s.received) == multiset(Concat(s.sealed)) + multiset(s.current);
  }

  /** The loop never stalls: when it cannot receive, there is a batch to commit. */
  lemma {:induction false} NeverStalls<T>(p: Parameters, events: seq<Event<T>>, states: seq<Loop<T>>, t: T)
    requires ValidParameters(p) && IsRun(p, events, states) && states[|events|].running
    ensures Enabled(p, states[|events|], Receive(t)) || Enabled(p, states[|events|], Commit(0, true))
  {
    RunKeeps(p, events, states, |events|);
  }

  // ------------------------------------------------- every transaction is committed in the end

  /** `states` is what the loop goes through from `s` on the events `events`. */
  ghost predicate Steps<T>(p: Parameters, s: Loop<T>, events: seq<Event<T>>, states: seq<Loop<T>>)
  {
    && |states| == |events| + 1
    && states[0] == s
    && forall n :: 0 <= n < |events| ==>
      Enabled(p, states[n], events[n]) && states[n + 1] == Step(p, states[n], events[n])
  }

  /** Batches are pipelined: a running loop receives exactly while fewer batches than the
      maximum are in flight. */
  lemma {:induction false} ReceivesWhilePipelining<T>(p: Parameters, events: seq<Event<T>>, states: seq<Loop<T>>, x: T)
    requires ValidParameters(p) && IsRun(p, events, states) && states[|events|].running
    ensures Enabled(p, states[|events|], Receive(x)) <==> |states[|events|].waiter| < p.maxInflight
  {
    RunKeeps(p, events, states, |events|);
  }

  /** The timer leaves no partial batch: what was in the current batch is one new batch,
      the last that was sealed, and it is in flight. */
  lemma {:induction false} TimerSeals<T>(p: Parameters, events: seq<Event<T>>, states: seq<Loop<T>>, closed: bool)
    requires ValidParameters(p) && IsRun(p, events, states)
    requires states[|events|].running && states[|events|].current != []
    ensures Enabled(p, states[|events|], Timer(closed))
    ensures var s := states[|events|]; var t := Step(p, s, Timer(closed));
            && t.running && t.current == [] && t.received == s.received && t.committed == s.committed
            && t.sealed == s.sealed + [s.current] && t.waiter == s.waiter + [s.current]
            && t.inflight == |s.waiter| + 1 <= p.maxInflight
  {
    RunKeeps(p, events, states, |events|);
    StepKeeps(p, states[|events|], Timer(closed));
  }

  /** A batch that is sealed on a receipt has exactly `batchSize` transactions, the last
      of which is the received one; otherwise the receipt only extends the current batch. */
  lemma {:induction false} ReceiveSealsFull<T>(p: Parameters, events: seq<Event<T>>, states: seq<Loop<T>>, x: T)
    requires ValidParameters(p) && IsRun(p, events, states) && Enabled(p, states[|events|], Receive(x))
    ensures var s := states[|events|]; var t := Step(p, s, Receive(x));
            && t.running && t.received == s.received + [x] && t.committed == s.committed
            && (if |s.current| + 1 == p.batchSize then
                  var batch := s.current + [x];
                  t.current == [] && t.sealed == s.sealed + [batch] && t.waiter == s.waiter + [batch]
                else
                  t.current == s.current + [x] && t.sealed == s.sealed && t.waiter == s.waiter)
  {
    RunKeeps(p, events, states, |events|);
  }

  /** A commit that is delivered moves that batch, whichever it is, from those in flight
      to the committed ones, and leaves the others in flight as they were. */
  lemma {:induction false} CommitMovesBatch<T>(p: Parameters, s: Loop<T>, k: nat)
    requires Inv(p, s) && Enabled(p, s, Commit(k, true))
    ensures var t := Step(p, s, Commit(k, true));
            && t.running && t.committed == s.committed + [s.waiter[k]]
            && multiset(s.waiter) == multiset(t.waiter) + multiset{s.waiter[k]} && t.inflight == |t.waiter|
            && t.current == s.current && t.sealed == s.sealed && t.received == s.received
  {
    MultisetWithout(s.waiter, k);
    CommitKeeps(p, s, k, true);
  }

  /** The loop stops exactly when the primary executor is found to be gone: by the timer
      while there is nothing to seal, or by a commit that is not delivered. */
  lemma {:induction false} StopsExactlyWhenGone<T>(p: Parameters, s: Loop<T>, e: Event<T>)
    requires Enabled(p, s, e)
    ensures !Step(p, s, e).running <==> (e == Timer(true) && s.current == []) || (e.Commit? && !e.delivered)
  {
  }

  /** With nothing in flight and an empty current batch, what was received has been
      committed, every transaction as often as it was received. */
  lemma {:induction false} AllCommitted<T>(p: Parameters, s: Loop<T>)
    requires Inv(p, s) && s.running && s.waiter == [] && s.current == []
    ensures multiset(Concat(s.committed)) == multiset(s.received)
  {
    assert multiset(s.sealed) == multiset(s.committed);
    var committed, received := multiset(Concat(s.committed)), multiset(s.received);
    assert s.received == Concat(s.sealed);
    forall t | t in committed + received ensures committed[t] == received[t] {
      CountPermuted(s.sealed, s.committed, t);
      CountIsConcat(s.sealed, t);
      CountIsConcat(s.committed, t);
    }
    assert committed == received;
  }

  /** Delivering the commits of all batches in flight leaves none. */
  lemma {:induction false} CommitsDrain<T>(p: Parameters, s: Loop<T>)
    returns (events: seq<Event<T>>, states: seq<Loop<T>>)
    requires ValidParameters(p) && Inv(p, s) && s.running && s.current == []
    ensures Steps(p, s, events, states) && forall n :: 0 <= n < |events| ==> events[n] == Commit(0, true)
    ensures var t := states[|events|];
            Inv(p, t) && t.running && t.waiter == [] && t.current == [] && t.received == s.received
    decreases |s.waiter|
  {
    if s.waiter == [] {
      return [], [s];
    }
    var e: Event<T> := Commit(0, true);
    StepKeeps(p, s, e);
    events, states := CommitsDrain(p, Step(p, s, e));
    StepsBefore(p, s, e, events, states);
    events, states := [e] + events, [s] + states;
  }

  lemma {:induction false} StepsBefore<T>(p: Parameters, s: Loop<T>, e: Event<T>, events: seq<Event<T>>,
      states: seq<Loop<T>>)
    requires Enabled(p, s, e) && Steps(p, Step(p, s, e), events, states)
    ensures Steps(p, s, [e] + events, [s] + states) && ([s] + states)[|[e] + events|] == states[|events|]
  {
    var all, through := [e] + events, [s] + states;
    forall n | 0 <= n < |all| ensures Enabled(p, through[n], all[n]) && through[n + 1] == Step(p, through[n], all[n]) {
      if n > 0 {
        assert all[n] == events[n - 1] && through[n] == states[n - 1] && through[n + 1] == states[n];
      }
    }
  }

  /** From every reachable state of the running loop, the timer and then the delivered
      commits of the batches in flight commit every transaction received, none of them
      lost or duplicated. */
  lemma {:induction false} EverythingIsCommitted<T>(p: Parameters, events: seq<Event<T>>, states: seq<Loop<T>>)
    returns (more: seq<Event<T>>, after: seq<Loop<T>>)
    requires ValidParameters(p) && IsRun(p, events, states) && states[|events|].running
    ensures Steps(p, states[|events|], [Timer(false)] + more, after)
    ensures forall n :: 0 <= n < |more| ==> more[n] == Commit(0, true)
    ensures var t := after[1 + |more|];
            && t.running && t.current == [] && t.waiter == [] && t.received == states[|events|].received
            && multiset(Concat(t.committed)) == multiset(states[|events|].received)
  {
    var s := states[|events|];
    RunKeeps(p, events, states, |events|);
    StepKeeps(p, s, Timer(false));
    more, after := CommitsDrain(p, Step(p, s, Timer(false)));
    AllCommitted(p, after[|more|]);
    StepsBefore(p, s, Timer(false), more, after);
    after := [s] + after;
  }

  // ------------------------------------------------- the loop

  class MockConsensus<T> {
    const parameters: Parameters
    var currentBatch: seq<T>
    var currentInflightBatches: int
    var waiter: seq<seq<T>>
    /** What has been sent to the scheduler and to the primary executor. */
    var scheduled: seq<seq<T>>
    var committed: seq<seq<T>>
    ghost var received: seq<T>

    ghost function Contents(running: bool): Loop<T>
      reads this
    {
      Loop(currentBatch, currentInflightBatches, waiter, received, scheduled, committed, running)
    }

    constructor (parameters: Parameters)
      ensures this.parameters == parameters && Contents(true) == Start()
    {
      this.parameters := parameters;
      currentBatch, currentInflightBatches, waiter, scheduled, committed, received := [], 0, [], [], [], [];
    }

    method SealBatch()
      modifies this
      ensures forall running :: Contents(running) == Seal(old(Contents(running)))
    {
      currentInflightBatches := currentInflightBatches + 1;
      var batch := currentBatch;
      currentBatch := [];
      waiter := waiter + [batch];
      scheduled := scheduled + [batch];
    }

    /** One turn of the select loop. */
    method HandleEvent(e: Event<T>) returns (running: bool)
      requires Enabled(parameters, Contents(true), e)
      modifies this
      ensures Contents(running) == Step(parameters, old(Contents(true)), e)
    {
      running := true;
      match e
      case Receive(transaction) =>
        currentBatch := currentBatch + [transaction];
        received := received + [transaction];
        if |currentBatch| >= parameters.batchSize {
          SealBatch();
        }
      case Timer(closed) =>
        if |currentBatch| > 0 {
          SealBatch();
        } else if closed {
          running := false;
        }
      case Commit(k, delivered) =>
        var commit := waiter[k];
        waiter := waiter[..k] + waiter[k + 1..];
        currentInflightBatches := currentInflightBatches - 1;
        if delivered {
          committed := committed + [commit];
        } else {
          running := false;
        }
    }

    /** The loop, on the events that select picks; an event whose guard is off is not picked. */
    method Run(events: seq<Event<T>>) returns (running: bool)
      requires ValidParameters(parameters) && Contents(true) == Start()
      modifies this
      ensures Inv(parameters, Contents(running))
    {
      running := true;
      assert Concat<T>([]) == [];
      var n := 0;
      while n < |events| && running
        invariant 0 <= n <= |events| && Inv(parameters, Contents(running))
      {
        var e := events[n];
        if e.Timer? || (e.Receive? && currentInflightBatches < parameters.maxInflight)
           || (e.Commit? && e.k < |waiter|) {
          StepKeeps(parameters, Contents(true), e);
          running := HandleEvent(e);
        }
        n := n + 1;
      }
    }
  }
}
