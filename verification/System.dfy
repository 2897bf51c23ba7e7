/** Primary and proxies together: the pool forwards while the proxies already work on
    what it has sent. Every interleaving of the two ends as the serial run does. */
module System {
  import opened Types
  import opened Protocol
  import opened ProtocolInvariant
  import opened ProtocolKeeps
  import opened Progress
  import opened SerialExecution
  import opened Determinism
  import opened Containment
  import opened PrimaryPool

  datatype SystemState = SystemState(pool: PoolState, proxies: State)

  datatype SystemAction = AtPrimary(pa: PoolAction) | AtProxies(a: Action)

  /** What is fixed: the workload, the number of pool workers, the messages that the
      workload determines for the pool's own machinery and for the proxies, and the
      serial facts about both. */
  ghost predicate Setup(w: Workload, workers: nat, poolJob: Job, poolSer: Serial, job: Job, ser: Serial)
  {
    && PoolSetup(w, poolJob, poolSer, workers)
    && Describes(w, job, ser) && Explains(job, ser)
  }

  /** Every workload determines its messages. */
  lemma {:induction false} SetupExists(w: Workload, workers: nat)
    requires ValidWorkload(w) && workers > 0
    ensures var pw := PoolWorkload(w);
            Setup(w, workers, JobOf(pw), SerialOf(pw.txns, pw.init), JobOf(w), SerialOf(w.txns, w.init))
  {
    var pw := PoolWorkload(w);
    JobIsDescribed(pw);
    DescribedIsExplained(pw, JobOf(pw), SerialOf(pw.txns, pw.init));
    JobIsDescribed(w);
    DescribedIsExplained(w, JobOf(w), SerialOf(w.txns, w.init));
  }

  /** A proxy can start a transaction once the pool has sent it. */
  predicate SystemEnabled(w: Workload, workers: nat, poolJob: Job, job: Job, s: SystemState, a: SystemAction)
    requires WellShaped(poolJob) && WellShaped(job) && workers > 0
  {
    match a
    case AtPrimary(pa) => PoolEnabled(w, poolJob, workers, s.pool, pa)
    case AtProxies(a) => Enabled(job, s.proxies, a) && (a.Start? ==> a.i in s.pool.sent)
  }

  function SystemApply(w: Workload, workers: nat, poolJob: Job, job: Job, s: SystemState, a: SystemAction): SystemState
    requires WellShaped(poolJob) && WellShaped(job) && workers > 0 && poolJob.txns == w.txns && ValidWorkload(w)
    requires SystemEnabled(w, workers, poolJob, job, s, a)
  {
    match a
    case AtPrimary(pa) => s.(pool := PoolApply(w, poolJob, workers, s.pool, pa))
    case AtProxies(a) => s.(proxies := Apply(job, s.proxies, a))
  }

  ghost predicate SystemIsRun(w: Workload, workers: nat, poolJob: Job, job: Job, acts: seq<SystemAction>,
      states: seq<SystemState>)
    requires WellShaped(poolJob) && WellShaped(job) && workers > 0 && poolJob.txns == w.txns && ValidWorkload(w)
  {
    && |states| == |acts| + 1
    && states[0] == SystemState(PoolState(Init(poolJob), 0, map[], map[]), Init(job))
    && forall n :: 0 <= n < |acts| ==>
      && SystemEnabled(w, workers, poolJob, job, states[n], acts[n])
      && states[n + 1] == SystemApply(w, workers, poolJob, job, states[n], acts[n])
  }

  ghost predicate SystemStuck(w: Workload, workers: nat, poolJob: Job, job: Job, s: SystemState)
    requires WellShaped(poolJob) && WellShaped(job) && workers > 0
  {
    forall a: SystemAction :: !SystemEnabled(w, workers, poolJob, job, s, a)
  }

  // ------------------------------------------------- what each side sees

  lemma {:induction false} PoolStepStaysReachable(w: Workload, job: Job, workers: nat, s: PoolState, a: PoolAction)
    requires WellShaped(job) && workers > 0 && job.txns == w.txns && ValidWorkload(w)
    requires PoolReachable(w, job, workers, s) && PoolEnabled(w, job, workers, s, a)
    ensures PoolReachable(w, job, workers, PoolApply(w, job, workers, s, a))
  {
    var acts, states :| PoolIsRun(w, job, workers, acts, states) && states[|acts|] == s;
    PoolRunExtends(w, job, workers, acts, states, a);
  }

  lemma {:induction false} PoolRunExtends(w: Workload, job: Job, workers: nat, acts: seq<PoolAction>,
      states: seq<PoolState>, a: PoolAction)
    requires WellShaped(job) && workers > 0 && job.txns == w.txns && ValidWorkload(w)
    requires PoolIsRun(w, job, workers, acts, states) && PoolEnabled(w, job, workers, states[|acts|], a)
    ensures var t := PoolApply(w, job, workers, states[|acts|], a);
            PoolIsRun(w, job, workers, acts + [a], states + [t]) && (states + [t])[|acts + [a]|] == t
  {
    var t := PoolApply(w, job, workers, states[|acts|], a);
    var acts', states' := acts + [a], states + [t];
    forall n | 0 <= n < |acts'|
      ensures PoolEnabled(w, job, workers, states'[n], acts'[n])
      ensures states'[n + 1] == PoolApply(w, job, workers, states'[n], acts'[n])
    {
      assert n < |acts| ==> acts'[n] == acts[n] && states'[n] == states[n] && states'[n + 1] == states[n + 1];
    }
  }

  /** The primary alone has seen a run of the pool, the proxies alone a run of the protocol. */
  lemma {:induction false} SystemProjects(w: Workload, workers: nat, poolJob: Job, job: Job, acts: seq<SystemAction>,
      states: seq<SystemState>, n: nat)
    requires WellShaped(poolJob) && WellShaped(job) && workers > 0 && poolJob.txns == w.txns && ValidWorkload(w)
    requires SystemIsRun(w, workers, poolJob, job, acts, states) && n <= |acts|
    ensures PoolReachable(w, poolJob, workers, states[n].pool) && Reachable(job, states[n].proxies)
  {
    if n == 0 {
      assert PoolIsRun(w, poolJob, workers, [], [states[0].pool]);
      assert IsRun(job, [], [states[0].proxies]);
    } else {
      SystemProjects(w, workers, poolJob, job, acts, states, n - 1);
      match acts[n - 1]
      case AtPrimary(pa) => PoolStepStaysReachable(w, poolJob, workers, states[n - 1].pool, pa);
      case AtProxies(a) => StepStaysReachable(job, states[n - 1].proxies, a);
    }
  }

  lemma {:induction false} SentStays(w: Workload, job: Job, workers: nat, s: PoolState, a: PoolAction)
    requires WellShaped(job) && workers > 0 && job.txns == w.txns && ValidWorkload(w)
    requires PoolEnabled(w, job, workers, s, a)
    ensures s.sent.Keys <= PoolApply(w, job, workers, s, a).sent.Keys
  {
  }

  lemma {:induction false} StepStartsSent(w: Workload, workers: nat, poolJob: Job, job: Job, s: SystemState,
      a: SystemAction)
    requires WellShaped(poolJob) && WellShaped(job) && workers > 0 && poolJob.txns == w.txns && ValidWorkload(w)
    requires SystemEnabled(w, workers, poolJob, job, s, a) && s.proxies.started <= s.pool.sent.Keys
    ensures var t := SystemApply(w, workers, poolJob, job, s, a); t.proxies.started <= t.pool.sent.Keys
  {
    match a
    case AtPrimary(pa) => SentStays(w, poolJob, workers, s.pool, pa);
    case AtProxies(a) => OnlyStartStarts(job, s.proxies, a);
  }

  /** In every run, a proxy has started only what the pool has sent. */
  lemma {:induction false} StartedIsSent(w: Workload, workers: nat, poolJob: Job, job: Job, acts: seq<SystemAction>,
      states: seq<SystemState>, n: nat)
    requires WellShaped(poolJob) && WellShaped(job) && workers > 0 && poolJob.txns == w.txns && ValidWorkload(w)
    requires SystemIsRun(w, workers, poolJob, job, acts, states) && n <= |acts|
    ensures states[n].proxies.started <= states[n].pool.sent.Keys
  {
    if n > 0 {
      StartedIsSent(w, workers, poolJob, job, acts, states, n - 1);
      StepStartsSent(w, workers, poolJob, job, states[n - 1], acts[n - 1]);
    }
  }

  /** Whenever a message is sent, it holds the assigner's versions and the owners of the
      ownership history, so a proxy that starts a transaction acts on `job`. */
  lemma {:induction false} MessagesAreTheJob(w: Workload, workers: nat, poolJob: Job, poolSer: Serial, job: Job,
      ser: Serial, acts: seq<SystemAction>, states: seq<SystemState>, i: nat)
    requires Setup(w, workers, poolJob, poolSer, job, ser) && SystemIsRun(w, workers, poolJob, job, acts, states)
    requires i < |w.txns| && i in states[|acts|].pool.sent
    ensures states[|acts|].pool.sent[i] == job.owner[i]
    ensures poolJob.required[i] == job.required[i] && poolJob.next[i] == job.next[i]
  {
    SystemProjects(w, workers, poolJob, job, acts, states, |acts|);
    PoolReachableKeeps(w, poolJob, poolSer, workers, states[|acts|].pool);
  }

  // ------------------------------------------------- the system comes to rest, as the serial run

  lemma {:induction false} AllAreSent(w: Workload, workers: nat, poolJob: Job, poolSer: Serial, pool: PoolState, i: nat)
    requires PoolSetup(w, poolJob, poolSer, workers) && PoolReachable(w, poolJob, workers, pool)
    requires PoolStuck(w, poolJob, workers, pool)
    requires i < |w.txns|
    ensures i in pool.sent
  {
    PoolReachableKeeps(w, poolJob, poolSer, workers, pool);
    PoolDrains(w, poolJob, poolSer, workers, pool);
    assert Completed(poolJob, pool.core, i);
  }

  /** The system stops only when the pool has drained and the proxies have come to rest. */
  lemma {:induction false} BothSidesStop(w: Workload, workers: nat, poolJob: Job, poolSer: Serial, job: Job,
      ser: Serial, s: SystemState)
    requires Setup(w, workers, poolJob, poolSer, job, ser) && PoolReachable(w, poolJob, workers, s.pool)
    requires SystemStuck(w, workers, poolJob, job, s)
    ensures PoolStuck(w, poolJob, workers, s.pool) && Stuck(job, s.proxies)
  {
    forall pa: PoolAction ensures !PoolEnabled(w, poolJob, workers, s.pool, pa) {
      assert !SystemEnabled(w, workers, poolJob, job, s, AtPrimary(pa));
    }
    forall a: Action ensures !Enabled(job, s.proxies, a) {
      assert !SystemEnabled(w, workers, poolJob, job, s, AtProxies(a));
      if a.Start? && a.i < |w.txns| {
        AllAreSent(w, workers, poolJob, poolSer, s.pool, a.i);
      }
    }
  }

  /** End to end, for any number of pool workers and proxies, any routing and any
      interleaving of primary and proxies: when the system stops, everything has been
      forwarded, every transaction is complete unless one had to fetch from a skipped
      producer, and then each object is at the proxy that last wrote it as the serial
      run leaves it. */
  lemma {:induction false} SystemIsSerial(w: Workload, workers: nat, poolJob: Job, poolSer: Serial, job: Job,
      ser: Serial, acts: seq<SystemAction>, states: seq<SystemState>, p: ProxyId, o: ObjectId)
    requires Setup(w, workers, poolJob, poolSer, job, ser) && SystemIsRun(w, workers, poolJob, job, acts, states)
    requires SystemStuck(w, workers, poolJob, job, states[|acts|]) && p < w.proxies
    ensures var s := states[|acts|].proxies;
            && AllCompleted(poolJob, states[|acts|].pool.core)
            && (AllCompleted(job, s) <==> !FetchesSkipped(w))
    ensures var s := states[|acts|].proxies; var serial := SerialStore(w.txns, w.init, |w.txns|);
            var j := LastWriter(w.txns, w.init, |w.txns|, o);
            !FetchesSkipped(w) && (j >= 0 ==> w.route[j] == p) ==>
              && (Place(p, o) in s.store <==> o in serial)
              && (o in serial ==> s.store[Place(p, o)] == serial[o])
  {
    var last := states[|acts|];
    SystemProjects(w, workers, poolJob, job, acts, states, |acts|);
    BothSidesStop(w, workers, poolJob, poolSer, job, ser, last);
    PoolDrains(w, poolJob, poolSer, workers, last.pool);
    MaximalRuns(w, job, ser, last.proxies);
    var j := LastWriter(w.txns, w.init, |w.txns|, o);
    if !FetchesSkipped(w) && (j >= 0 ==> w.route[j] == p) {
      FinalStateIsSerial(w, job, ser, last.proxies, p, o);
    }
  }

  /** When the system stops after panics, each transaction that no panic could stop is
      complete, and each object whose last transaction is such a one is at the proxy that
      last wrote it as the serial run leaves it. */
  lemma {:induction false} SystemContainsPanics(w: Workload, workers: nat, poolJob: Job, poolSer: Serial, job: Job,
      ser: Serial, acts: seq<SystemAction>, states: seq<SystemState>, p: ProxyId, o: ObjectId)
    requires Setup(w, workers, poolJob, poolSer, job, ser) && SystemIsRun(w, workers, poolJob, job, acts, states)
    requires SystemStuck(w, workers, poolJob, job, states[|acts|]) && p < w.proxies
    ensures forall i: nat :: i < |w.txns| && !CanBeStopped(w, i) ==> Completed(job, states[|acts|].proxies, i)
    ensures var s := states[|acts|].proxies; var serial := SerialStore(w.txns, w.init, |w.txns|);
            var k := LastToucher(w.txns, |w.txns|, o); var j := LastWriter(w.txns, w.init, |w.txns|, o);
            (k >= 0 ==> !CanBeStopped(w, k)) && (j >= 0 ==> w.route[j] == p) ==>
              && (Place(p, o) in s.store <==> o in serial)
              && (o in serial ==> s.store[Place(p, o)] == serial[o])
  {
    var last := states[|acts|];
    SystemProjects(w, workers, poolJob, job, acts, states, |acts|);
    BothSidesStop(w, workers, poolJob, poolSer, job, ser, last);
    forall i: nat | i < |w.txns| && !CanBeStopped(w, i) ensures Completed(job, last.proxies, i) {
      CompletesInEveryRun(w, job, ser, i);
    }
    var k, j := LastToucher(w.txns, |w.txns|, o), LastWriter(w.txns, w.init, |w.txns|, o);
    if (k >= 0 ==> !CanBeStopped(w, k)) && (j >= 0 ==> w.route[j] == p) {
      ContainedObjectIsSerial(w, job, ser, last.proxies, p, o);
    }
  }

  // ------------------------------------------------- termination

  /** How many steps the system can still take at most. */
  ghost function StepsLeft(w: Workload, poolJob: Job, job: Job, s: SystemState): int
  {
    PoolStepsLeft(w, poolJob, s.pool) + |Remaining(job, s.proxies)|
  }

  lemma {:induction false} SystemStepUsesUp(w: Workload, workers: nat, poolJob: Job, job: Job, s: SystemState,
      a: SystemAction)
    requires WellShaped(poolJob) && WellShaped(job) && workers > 0 && poolJob.txns == w.txns && ValidWorkload(w)
    requires Phases(poolJob, s.pool.core) && Phases(job, s.proxies)
    requires SystemEnabled(w, workers, poolJob, job, s, a)
    ensures StepsLeft(w, poolJob, job, SystemApply(w, workers, poolJob, job, s, a)) < StepsLeft(w, poolJob, job, s)
  {
    match a
    case AtPrimary(pa) => PoolStepUsesUp(w, poolJob, workers, s.pool, pa);
    case AtProxies(a) => StepUsesUp(job, s.proxies, a);
  }

  lemma {:induction false} ReachedInvariants(w: Workload, workers: nat, poolJob: Job, poolSer: Serial, job: Job,
      ser: Serial, acts: seq<SystemAction>, states: seq<SystemState>, n: nat)
    requires Setup(w, workers, poolJob, poolSer, job, ser)
    requires SystemIsRun(w, workers, poolJob, job, acts, states) && n <= |acts|
    ensures PoolInv(w, poolJob, poolSer, workers, states[n].pool) && Inv(job, ser, states[n].proxies)
  {
    SystemProjects(w, workers, poolJob, job, acts, states, n);
    PoolReachableKeeps(w, poolJob, poolSer, workers, states[n].pool);
    ReachableKeeps(job, ser, states[n].proxies);
  }

  lemma {:induction false} SystemStepInRunUsesUp(w: Workload, workers: nat, poolJob: Job, poolSer: Serial, job: Job,
      ser: Serial, acts: seq<SystemAction>, states: seq<SystemState>, n: nat)
    requires Setup(w, workers, poolJob, poolSer, job, ser)
    requires SystemIsRun(w, workers, poolJob, job, acts, states) && n < |acts|
    ensures StepsLeft(w, poolJob, job, states[n + 1]) < StepsLeft(w, poolJob, job, states[n])
  {
    ReachedInvariants(w, workers, poolJob, poolSer, job, ser, acts, states, n);
    SystemStepUsesUp(w, workers, poolJob, job, states[n], acts[n]);
  }

  /** No run of the system is infinite: it always comes to rest. */
  lemma {:induction false} SystemComesToRest(w: Workload, workers: nat, poolJob: Job, poolSer: Serial, job: Job,
      ser: Serial, acts: seq<SystemAction>, states: seq<SystemState>)
    requires Setup(w, workers, poolJob, poolSer, job, ser)
    requires SystemIsRun(w, workers, poolJob, job, acts, states)
    ensures |acts| <= |AllActions(poolJob)| + |AllActions(job)| + |w.txns|
  {
    var measures := seq(|states|, k requires 0 <= k < |states| => StepsLeft(w, poolJob, job, states[k]));
    forall k | 0 <= k < |acts| ensures measures[k + 1] < measures[k] {
      SystemStepInRunUsesUp(w, workers, poolJob, poolSer, job, ser, acts, states, k);
    }
    Descends(measures, |acts|);
    ReachedInvariants(w, workers, poolJob, poolSer, job, ser, acts, states, |acts|);
    SubsetIsSmaller(Remaining(poolJob, states[0].pool.core), AllActions(poolJob));
    SubsetIsSmaller(Remaining(job, states[0].proxies), AllActions(job));
  }
}
