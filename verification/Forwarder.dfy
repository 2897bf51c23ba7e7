/** The primary's imperative parts: the version assigner, the ownership map, the
    choice of the proxy that holds most states, and the round-robin worker pool. */
module Forwarder {
  import opened Types
  import opened Protocol
  import opened SerialExecution
  import DependencyController
  import PrimaryPool

  type ObjectVersion = DependencyController.ObjectVersion

  // ------------------------------------------------- version assignment

  /** Each input with its current version, in the order of the inputs. */
  predicate ListsCurrent(versions: map<ObjectId, Version>, inputs: seq<ObjectId>, required: seq<ObjectVersion>)
  {
    && |required| == |inputs|
    && forall n :: 0 <= n < |inputs| ==> required[n] == (inputs[n], CurrentVersion(versions, inputs[n]))
  }

  function InsertAll(versions: map<ObjectId, Version>, inputs: seq<ObjectId>, v: Version): map<ObjectId, Version>
  {
    versions + map o | o in inputs :: v
  }

  lemma {:induction false} InsertOneMore(versions: map<ObjectId, Version>, inputs: seq<ObjectId>, v: Version, n: nat)
    requires n < |inputs|
    ensures InsertAll(versions, inputs[..n + 1], v) == InsertAll(versions, inputs[..n], v)[inputs[n] := v]
  {
    assert inputs[..n + 1] == inputs[..n] + [inputs[n]];
  }

  lemma {:induction false} AssignNothing(versions: map<ObjectId, Version>)
    ensures Assign(versions, []) == versions
  {
  }

  lemma {:induction false} AssignInsertsAll(versions: map<ObjectId, Version>, inputs: seq<ObjectId>)
    ensures Assign(versions, inputs) == InsertAll(versions, inputs, MaxVersion(versions, inputs) + 1)
  {
    assert AssignedVersion(versions, inputs) == MaxVersion(versions, inputs) + 1;
  }

  /** The lists of the first transactions, each with the versions that its prefix leaves. */
  ghost predicate AreAssigned(txns: seq<Txn>, required: seq<seq<ObjectVersion>>)
    requires |required| <= |txns|
  {
    forall i {:trigger required[i]} :: 0 <= i < |required| ==>
      ListsCurrent(VersionsAfter(txns, i), txns[i].inputs, required[i])
  }

  lemma {:induction false} OneMoreAssigned(txns: seq<Txn>, required: seq<seq<ObjectVersion>>, list: seq<ObjectVersion>)
    requires |required| < |txns| && AreAssigned(txns, required)
    requires ListsCurrent(VersionsAfter(txns, |required|), txns[|required|].inputs, list)
    ensures AreAssigned(txns, required + [list])
  {
  }

  lemma {:induction false} OneMoreCurrent(versions: map<ObjectId, Version>, inputs: seq<ObjectId>, n: nat,
      required: seq<ObjectVersion>)
    requires n < |inputs| && ListsCurrent(versions, inputs[..n], required)
    ensures var current := CurrentVersion(versions, inputs[n]); var highest := MaxVersion(versions, inputs[..n]);
            && ListsCurrent(versions, inputs[..n + 1], required + [(inputs[n], current)])
            && MaxVersion(versions, inputs[..n + 1]) == if current > highest then current else highest
  {
    assert inputs[..n + 1][..n] == inputs[..n];
  }

  class VersionAssignmentTask {
    var sharedObjectVersions: map<ObjectId, Version>

    constructor ()
      ensures sharedObjectVersions == map[]
    {
      sharedObjectVersions := map[];
    }

    /** The current version of each object, and the highest of them. */
    method CollectCurrent(sharedObjects: seq<ObjectId>) returns (result: seq<ObjectVersion>, maxVersion: Version)
      ensures ListsCurrent(sharedObjectVersions, sharedObjects, result)
      ensures maxVersion == MaxVersion(sharedObjectVersions, sharedObjects)
    {
      maxVersion := INITIAL_VERSION;
      result := [];
      var n := 0;
      while n < |sharedObjects|
        invariant 0 <= n <= |sharedObjects|
        invariant ListsCurrent(sharedObjectVersions, sharedObjects[..n], result)
        invariant maxVersion == MaxVersion(sharedObjectVersions, sharedObjects[..n])
      {
        var o := sharedObjects[n];
        var current := if o in sharedObjectVersions then sharedObjectVersions[o] else INITIAL_VERSION;
        OneMoreCurrent(sharedObjectVersions, sharedObjects, n, result);
        result := result + [(o, current)];
        if current > maxVersion {
          maxVersion := current;
        }
        n := n + 1;
      }
      assert sharedObjects[..n] == sharedObjects;
    }

    /** Assigns versions to one transaction. */
    method AssignSharedObjectVersions(sharedObjects: seq<ObjectId>) returns (required: seq<ObjectVersion>)
      modifies this
      ensures ListsCurrent(old(sharedObjectVersions), sharedObjects, required)
      ensures sharedObjectVersions == Assign(old(sharedObjectVersions), sharedObjects)
    {
      if |sharedObjects| == 0 {
        AssignNothing(sharedObjectVersions);
        return [];
      }
      AssignInsertsAll(sharedObjectVersions, sharedObjects);
      var maxVersion;
      required, maxVersion := CollectCurrent(sharedObjects);
      UpdateAll(sharedObjects, maxVersion + 1);
    }

    /** Moves all objects to the new version. */
    method UpdateAll(sharedObjects: seq<ObjectId>, newVersion: Version)
      modifies this
      ensures sharedObjectVersions == InsertAll(old(sharedObjectVersions), sharedObjects, newVersion)
    {
      var n := 0;
      while n < |sharedObjects|
        invariant 0 <= n <= |sharedObjects|
        invariant sharedObjectVersions == InsertAll(old(sharedObjectVersions), sharedObjects[..n], newVersion)
      {
        InsertOneMore(old(sharedObjectVersions), sharedObjects, newVersion, n);
        sharedObjectVersions := sharedObjectVersions[sharedObjects[n] := newVersion];
        n := n + 1;
      }
      assert sharedObjects[..n] == sharedObjects;
    }

    /** Assigns versions to a whole commit sequence, one transaction after another. */
    method ProcessVersionAssignments(txns: seq<Txn>) returns (required: seq<seq<ObjectVersion>>)
      requires sharedObjectVersions == map[]
      modifies this
      ensures |required| == |txns| && AreAssigned(txns, required)
      ensures sharedObjectVersions == VersionsAfter(txns, |txns|)
    {
      required := [];
      var i := 0;
      while i < |txns|
        invariant 0 <= i <= |txns| && |required| == i
        invariant sharedObjectVersions == VersionsAfter(txns, i) && AreAssigned(txns, required)
      {
        var list := AssignSharedObjectVersions(txns[i].inputs);
        OneMoreAssigned(txns, required, list);
        required := required + [list];
        i := i + 1;
      }
    }
  }

  /** The lists that the assigner attaches are the ones the job carries. */
  lemma {:induction false} AssignedListIsRequired(w: Workload, i: nat, required: seq<ObjectVersion>)
    requires ValidWorkload(w) && i < |w.txns|
    requires ListsCurrent(VersionsAfter(w.txns, i), w.txns[i].inputs, required)
    ensures required == DependencyController.RequiredList(JobOf(w), i)
  {
    var list := DependencyController.RequiredList(JobOf(w), i);
    forall n | 0 <= n < |required| ensures required[n] == list[n] {
    }
  }

  /** They list each object once, at the version that the serial run requires. */
  lemma {:induction false} AssignedListsOnce(txns: seq<Txn>, i: nat, required: seq<ObjectVersion>)
    requires i < |txns| && DeclaresOnce(txns[i].inputs)
    requires ListsCurrent(VersionsAfter(txns, i), txns[i].inputs, required)
    ensures ListsOnce(required, Required(txns, i))
  {
    var inputs := txns[i].inputs;
    forall o | o in Required(txns, i) ensures exists n :: 0 <= n < |required| && required[n].0 == o {
      var n :| 0 <= n < |inputs| && inputs[n] == o;
      assert required[n].0 == o;
    }
  }

  // ------------------------------------------------- the ownership map

  type Owners = map<(ObjectId, Version), ProxyId>

  /** A required object version and the other proxy to fetch it from, if any. */
  type RequiredState = (ObjectVersion, Option<ProxyId>)

  function OwnerElsewhere(owners: Owners, v: ObjectVersion, p: ProxyId): Option<ProxyId>
  {
    if v in owners && owners[v] != p then Some(owners[v]) else None
  }

  /** The ownership map after the first `n` required versions have been moved to `p`. */
  function MovedUpTo(owners: Owners, required: seq<ObjectVersion>, next: Version, p: ProxyId, n: nat): Owners
    requires n <= |required|
  {
    if n == 0 then owners
    else MovedUpTo(owners, required, next, p, n - 1)[(required[n - 1].0, next) := p] - {required[n - 1]}
  }

  /** The states reported for the first `n` required versions. */
  function ReportedUpTo(owners: Owners, required: seq<ObjectVersion>, next: Version, p: ProxyId, n: nat)
    : (states: seq<RequiredState>)
    requires n <= |required|
    ensures |states| == n
  {
    if n == 0 then []
    else
      ReportedUpTo(owners, required, next, p, n - 1)
      + [(required[n - 1], OwnerElsewhere(MovedUpTo(owners, required, next, p, n - 1), required[n - 1], p))]
  }

  class OwnershipMap {
    var statesToProxy: Owners

    constructor ()
      ensures statesToProxy == map[]
    {
      statesToProxy := map[];
    }

    /** Reports where the required versions are, and moves them to `proxyIndex`. */
    method GetMissingStatesForTransaction(required: seq<ObjectVersion>, proxyIndex: ProxyId)
      returns (states: seq<RequiredState>)
      modifies this
      ensures exists next: Version ::
        && IsNextOfList(required, next)
        && states == ReportedUpTo(old(statesToProxy), required, next, proxyIndex, |required|)
        && statesToProxy == MovedUpTo(old(statesToProxy), required, next, proxyIndex, |required|)
    {
      var maxVersion := INITIAL_VERSION;
      var n := 0;
      while n < |required|
        invariant 0 <= n <= |required|
        invariant maxVersion >= INITIAL_VERSION && forall m :: 0 <= m < n ==> required[m].1 <= maxVersion
        invariant maxVersion == INITIAL_VERSION || exists m :: 0 <= m < n && required[m].1 == maxVersion
      {
        if required[n].1 > maxVersion {
          maxVersion := required[n].1;
        }
        n := n + 1;
      }
      var nextVersion: Version := maxVersion + 1;
      states := [];
      n := 0;
      while n < |required|
        invariant 0 <= n <= |required|
        invariant states == ReportedUpTo(old(statesToProxy), required, nextVersion, proxyIndex, n)
        invariant statesToProxy == MovedUpTo(old(statesToProxy), required, nextVersion, proxyIndex, n)
      {
        var v := required[n];
        var previousOwner := None;
        if v in statesToProxy {
          if statesToProxy[v] != proxyIndex {
            previousOwner := Some(statesToProxy[v]);
          }
        }
        states := states + [(v, previousOwner)];
        statesToProxy := statesToProxy[(v.0, nextVersion) := proxyIndex];
        statesToProxy := statesToProxy - {v};
        n := n + 1;
      }
      assert IsNextOfList(required, nextVersion);
    }

    /** The places in the list whose versions proxy `p` holds. */
    static function Held(owners: Owners, required: seq<ObjectVersion>, p: ProxyId): set<nat>
    {
      set n: nat | 0 <= n < |required| && required[n] in owners && owners[required[n]] == p
    }

    static lemma {:induction false} HeldOneMore(owners: Owners, required: seq<ObjectVersion>, p: ProxyId, n: nat)
      requires n < |required|
      ensures |Held(owners, required[..n + 1], p)|
              == |Held(owners, required[..n], p)| + if required[n] in owners && owners[required[n]] == p then 1 else 0
    {
      SetGains(Held(owners, required[..n], p), Held(owners, required[..n + 1], p),
        n, required[n] in owners && owners[required[n]] == p);
    }

    /** `best` lists the proxies that hold most of the required versions, in order. */
    static ghost predicate AreBest(owners: Owners, required: seq<ObjectVersion>, proxyCount: nat, best: seq<ProxyId>)
    {
      && (forall a, b :: 0 <= a < b < |best| ==> best[a] < best[b])
      && (forall p: ProxyId :: p in best <==>
            p < proxyCount &&
            forall q: ProxyId :: q < proxyCount ==> |Held(owners, required, q)| <= |Held(owners, required, p)|)
    }

    /** One of the best holds at least as many of the required versions as any other proxy. */
    static lemma {:induction false} BestHoldsMost(owners: Owners, required: seq<ObjectVersion>, proxyCount: nat,
        best: seq<ProxyId>, p: ProxyId, q: ProxyId)
      requires AreBest(owners, required, proxyCount, best) && p in best && q < proxyCount
      ensures p < proxyCount
      ensures |set n: nat | 0 <= n < |required| && required[n] in owners && owners[required[n]] == q|
              <= |set n: nat | 0 <= n < |required| && required[n] in owners && owners[required[n]] == p|
    {
      var held := set n: nat | 0 <= n < |required| && required[n] in owners && owners[required[n]] == q;
      assert held == Held(owners, required, q);
      assert |Held(owners, required, q)| <= |Held(owners, required, p)|;
    }

    /** Counts how many of the required versions each proxy has. */
    method CountHeld(proxyCount: nat, required: seq<ObjectVersion>) returns (counts: array<nat>)
      ensures counts.Length == proxyCount && fresh(counts)
      ensures forall p :: 0 <= p < proxyCount ==> counts[p] == |Held(statesToProxy, required, p)|
    {
      counts := new nat[proxyCount](_ => 0);
      var n := 0;
      while n < |required|
        invariant 0 <= n <= |required|
        invariant forall p :: 0 <= p < proxyCount ==> counts[p] == |Held(statesToProxy, required[..n], p)|
      {
        forall p: ProxyId | p < proxyCount {
          HeldOneMore(statesToProxy, required, p, n);
        }
        if required[n] in statesToProxy {
          var owner := statesToProxy[required[n]];
          if owner < proxyCount {
            counts[owner] := counts[owner] + 1;
          }
        }
        n := n + 1;
      }
      assert required[..n] == required;
    }

    /** The indices of the highest count, in order. */
    static method FindBest(counts: array<nat>) returns (best: seq<nat>)
      requires counts.Length > 0
      ensures best != [] && forall a, b :: 0 <= a < b < |best| ==> best[a] < best[b]
      ensures forall p: nat :: p in best <==>
        p < counts.Length && forall q: nat :: q < counts.Length ==> counts[q] <= counts[p]
    {
      var maxCount := 0;
      best := [];
      var index := 0;
      while index < counts.Length
        invariant 0 <= index <= counts.Length
        invariant forall p :: 0 <= p < index ==> counts[p] <= maxCount
        invariant forall a, b :: 0 <= a < b < |best| ==> best[a] < best[b]
        invariant forall p :: p in best <==> 0 <= p < index && counts[p] == maxCount
        invariant forall a :: 0 <= a < |best| ==> best[a] < index
        invariant if index == 0 then maxCount == 0 else |best| > 0
      {
        if counts[index] > maxCount {
          maxCount := counts[index];
          best := [index];
        } else if counts[index] == maxCount {
          best := best + [index];
        }
        index := index + 1;
      }
      assert best[0] in best;
    }

    /** The proxy that holds most of the required versions; ties go round by the
        transaction's number. */
    method GetProxyForSharedObjectsMostStates(proxyCount: nat, required: seq<ObjectVersion>, txnCount: nat)
      returns (r: Option<ProxyId>)
      ensures r.None? <==> proxyCount == 0
      ensures r.Some? && required == [] ==> r.value == 0
      ensures r.Some? && required != [] ==> exists best ::
        AreBest(statesToProxy, required, proxyCount, best) && best != [] && r.value == best[txnCount % |best|]
    {
      if proxyCount == 0 {
        return None;
      }
      if |required| == 0 {
        return Some(0);
      }
      var counts := CountHeld(proxyCount, required);
      var bestProxies := FindBest(counts);
      assert AreBest(statesToProxy, required, proxyCount, bestProxies);
      var chosen := if |bestProxies| > 1 then bestProxies[txnCount % |bestProxies|] else bestProxies[0];
      return Some(chosen);
    }
  }

  predicate IsNextOfList(required: seq<ObjectVersion>, next: Version)
  {
    && next > INITIAL_VERSION
    && (forall n :: 0 <= n < |required| ==> required[n].1 < next)
    && (next == INITIAL_VERSION + 1 || exists n :: 0 <= n < |required| && required[n].1 + 1 == next)
  }

  /** `required` lists the versions in the map `versions`, each object once. */
  ghost predicate ListsOnce(required: seq<ObjectVersion>, versions: map<ObjectId, Version>)
  {
    && (forall a, b :: 0 <= a < b < |required| ==> required[a].0 != required[b].0)
    && (forall n :: 0 <= n < |required| ==> required[n].0 in versions && versions[required[n].0] == required[n].1)
    && (forall o :: o in versions ==> exists n :: 0 <= n < |required| && required[n].0 == o)
  }

  /** The ownership map and the assigner compute the same next version. */
  lemma {:induction false} OwnershipNextAgrees(required: seq<ObjectVersion>, versions: map<ObjectId, Version>,
      n: Version, m: Version)
    requires ListsOnce(required, versions)
    requires IsNextOfList(required, n) && IsNextVersion(versions, m)
    ensures n == m
  {
    if o :| o in versions && versions[o] + 1 == m {
      var k :| 0 <= k < |required| && required[k].0 == o;
    }
  }

  /** What the loop leaves at a key after `n` objects. */
  lemma {:induction false} MovedUpToAt(owners: Owners, required: seq<ObjectVersion>, next: Version, p: ProxyId, n: nat,
      key: ObjectVersion)
    requires n <= |required| && forall a, b :: 0 <= a < b < |required| ==> required[a].0 != required[b].0
    requires forall m :: 0 <= m < |required| ==> required[m].1 < next
    ensures var moved := MovedUpTo(owners, required, next, p, n);
            if exists m :: 0 <= m < n && key == (required[m].0, next) then key in moved && moved[key] == p
            else if exists m :: 0 <= m < n && key == required[m] then key !in moved
            else (key in moved <==> key in owners) && (key in owners ==> moved[key] == owners[key])
  {
    if n > 0 {
      MovedUpToAt(owners, required, next, p, n - 1, key);
      if key == (required[n - 1].0, next) {
        assert key != required[n - 1];
      }
    }
  }

  lemma {:induction false} LoopMovesAt(owners: Owners, required: seq<ObjectVersion>, versions: map<ObjectId, Version>,
      next: Version, p: ProxyId, key: ObjectVersion)
    requires ListsOnce(required, versions) && IsNextOfList(required, next)
    ensures var moved := MovedUpTo(owners, required, next, p, |required|);
            var spec := PrimaryPool.Moved(owners, versions, next, p);
            (key in moved <==> key in spec) && (key in moved ==> moved[key] == spec[key])
  {
    MovedUpToAt(owners, required, next, p, |required|, key);
    if key.0 in versions {
      var n :| 0 <= n < |required| && required[n].0 == key.0;
      assert required[n] == (key.0, versions[key.0]);
    }
  }

  /** On a list without repetitions, the loop moves exactly the required versions. */
  lemma {:induction false} LoopMoves(owners: Owners, required: seq<ObjectVersion>, versions: map<ObjectId, Version>,
      next: Version, p: ProxyId)
    requires ListsOnce(required, versions) && IsNextOfList(required, next)
    ensures MovedUpTo(owners, required, next, p, |required|) == PrimaryPool.Moved(owners, versions, next, p)
  {
    var moved, spec := MovedUpTo(owners, required, next, p, |required|), PrimaryPool.Moved(owners, versions, next, p);
    forall key ensures (key in moved <==> key in spec) && (key in moved ==> moved[key] == spec[key]) {
      LoopMovesAt(owners, required, versions, next, p, key);
    }
  }

  /** The `m`-th report is made when the `m` objects before it have been moved. */
  lemma {:induction false} ReportedUpToAt(owners: Owners, required: seq<ObjectVersion>, next: Version, p: ProxyId,
      n: nat, m: nat)
    requires m < n <= |required|
    ensures ReportedUpTo(owners, required, next, p, n)[m]
            == (required[m], OwnerElsewhere(MovedUpTo(owners, required, next, p, m), required[m], p))
  {
    if m < n - 1 {
      ReportedUpToAt(owners, required, next, p, n - 1, m);
    } else if m > 0 {
      ReportedUpToAt(owners, required, next, p, n - 1, m - 1);
    }
  }

  /** Moving the objects before it leaves a required version where it was. */
  lemma {:induction false} NotYetMoved(owners: Owners, required: seq<ObjectVersion>, next: Version, p: ProxyId, m: nat)
    requires m < |required| && forall a, b :: 0 <= a < b < |required| ==> required[a].0 != required[b].0
    requires forall n :: 0 <= n < |required| ==> required[n].1 < next
    ensures OwnerElsewhere(MovedUpTo(owners, required, next, p, m), required[m], p)
            == OwnerElsewhere(owners, required[m], p)
  {
    MovedUpToAt(owners, required, next, p, m, required[m]);
    assert required[m].1 != next;
  }

  /** On a list without repetitions, the loop reports each owner as it was before the call. */
  lemma {:induction false} LoopReports(owners: Owners, required: seq<ObjectVersion>, versions: map<ObjectId, Version>,
      next: Version, p: ProxyId, n: nat, m: nat)
    requires ListsOnce(required, versions) && IsNextOfList(required, next) && m < n <= |required|
    ensures ReportedUpTo(owners, required, next, p, n)[m]
            == (required[m], PrimaryPool.Reported(owners, versions, p)[required[m].0])
  {
    ReportedUpToAt(owners, required, next, p, n, m);
    NotYetMoved(owners, required, next, p, m);
  }

  // ------------------------------------------------- the worker pool

  /** What is dealt to worker `q` when tasks are dealt in turn. */
  function Dealt<T>(sent: seq<T>, workers: nat, q: nat): seq<T>
    requires workers > 0
  {
    if sent == [] then []
    else
      var n := |sent| - 1;
      Dealt(sent[..n], workers, q) + if n % workers == q then [sent[n]] else []
  }

  /** Tasks by number, as they come from the assigner. */
  function Numbers(n: nat): (s: seq<nat>)
    ensures |s| == n
  {
    if n == 0 then [] else Numbers(n - 1) + [n - 1]
  }

  /** `queue` holds the numbers below `n` that equal `q` modulo `workers`, in order. */
  ghost predicate HoldsInTurn(queue: seq<nat>, n: nat, workers: nat, q: nat)
    requires workers > 0
  {
    && (forall a :: 0 <= a < |queue| ==> queue[a] < n && queue[a] % workers == q)
    && (forall i: nat :: i < n && i % workers == q ==> exists a :: 0 <= a < |queue| && queue[a] == i)
    && (forall a, b :: 0 <= a < b < |queue| ==> queue[a] < queue[b])
  }

  lemma {:induction false} HoldsOneMore(queue: seq<nat>, longer: seq<nat>, n: nat, workers: nat, q: nat)
    requires workers > 0 && HoldsInTurn(queue, n, workers, q)
    requires longer == if n % workers == q then queue + [n] else queue
    ensures HoldsInTurn(longer, n + 1, workers, q)
  {
    forall i: nat | i < n + 1 && i % workers == q ensures exists a :: 0 <= a < |longer| && longer[a] == i {
      if i < n {
        var a :| 0 <= a < |queue| && queue[a] == i;
        assert longer[a] == i;
      } else {
        assert longer[|queue|] == i;
      }
    }
  }

  lemma {:induction false} DealtOneMore<T>(sent: seq<T>, task: T, workers: nat, q: nat)
    requires workers > 0
    ensures Dealt(sent + [task], workers, q)
            == if |sent| % workers == q then Dealt(sent, workers, q) + [task] else Dealt(sent, workers, q)
  {
    assert (sent + [task])[..|sent|] == sent;
  }

  /** A worker gets exactly the tasks whose number is its own modulo the number of
      workers, in order: before task `i` of a worker come its tasks `k < i`, no others. */
  lemma {:induction false} DealtInOrder(n: nat, workers: nat, q: nat)
    requires workers > 0
    ensures HoldsInTurn(Dealt(Numbers(n), workers, q), n, workers, q)
  {
    if n > 0 {
      DealtInOrder(n - 1, workers, q);
      DealtOneMore(Numbers(n - 1), n - 1, workers, q);
      HoldsOneMore(Dealt(Numbers(n - 1), workers, q), Dealt(Numbers(n), workers, q), n - 1, workers, q);
    }
  }

  lemma {:induction false} NextInTurn(n: nat, workers: nat)
    requires workers > 0
    ensures (n % workers + 1) % workers == (n + 1) % workers
  {
    var quotient, rest := n / workers, n % workers;
    assert n == workers * quotient + rest;
    if rest + 1 < workers {
      Remainder(n + 1, workers, quotient, rest + 1);
      Remainder(rest + 1, workers, 0, rest + 1);
    } else {
      assert workers * (quotient + 1) == workers * quotient + workers;
      Remainder(n + 1, workers, quotient + 1, 0);
      Remainder(workers, workers, 1, 0);
    }
  }

  lemma {:induction false} MultipleIsLarge(workers: int, d: int)
    requires workers > 0
    ensures d >= 1 ==> workers * d >= workers
    ensures d <= -1 ==> workers * d <= -workers
  {
    assert workers * d == workers * (d - 1) + workers == workers * (d + 1) - workers;
    assert d >= 1 ==> workers * (d - 1) >= 0;
    assert d <= -1 ==> workers * (d + 1) <= 0;
  }

  lemma {:induction false} Remainder(n: nat, workers: nat, quotient: nat, rest: nat)
    requires workers > 0 && rest < workers && n == workers * quotient + rest
    ensures n % workers == rest
  {
    var d := n / workers - quotient;
    assert workers * d == rest - n % workers by {
      assert n == workers * (n / workers) + n % workers;
      assert workers * (n / workers) == workers * quotient + workers * d;
    }
    MultipleIsLarge(workers, d);
  }

  /** The pool of workers. `taken[q]` counts the tasks that worker `q` has received. */
  class GenericWorkerPool<T> {
    var queues: seq<seq<T>>
    var nextWorker: nat
    ghost var sent: seq<T>
    ghost var taken: seq<nat>

    ghost predicate Valid()
      reads this
    {
      && |queues| == |taken| > 0
      && nextWorker == |sent| % |queues|
      && forall q :: 0 <= q < |queues| ==>
        taken[q] <= |Dealt(sent, |queues|, q)| && queues[q] == Dealt(sent, |queues|, q)[taken[q]..]
    }

    constructor (numWorkers: nat)
      requires numWorkers > 0
      ensures Valid() && sent == [] && |queues| == numWorkers
    {
      queues := seq(numWorkers, _ => []);
      nextWorker := 0;
      sent := [];
      taken := seq(numWorkers, _ => 0);
    }

    /** Hands the task to the next worker in turn. */
    method SendTask(task: T)
      requires Valid()
      modifies this
      ensures Valid() && sent == old(sent) + [task] && |queues| == |old(queues)| && taken == old(taken)
    {
      var workerIndex := nextWorker;
      NextInTurn(|sent|, |queues|);
      nextWorker := (nextWorker + 1) % |queues|;
      queues := queues[workerIndex := queues[workerIndex] + [task]];
      forall q | 0 <= q < |queues| {
        DealtOneMore(sent, task, |queues|, q);
      }
      sent := sent + [task];
    }

    /** A worker's receive: the next task dealt to it, or nothing yet. */
    method Receive(q: nat) returns (task: Option<T>)
      requires Valid() && q < |queues|
      modifies this`queues, this`taken
      ensures Valid() && |queues| == |old(queues)|
      ensures task.None? <==> old(taken)[q] == |Dealt(sent, |queues|, q)|
      ensures task.Some? ==>
        task.value == Dealt(sent, |queues|, q)[old(taken)[q]] && taken == old(taken)[q := old(taken)[q] + 1]
      ensures task.None? ==> taken == old(taken)
    {
      if queues[q] == [] {
        return None;
      }
      task := Some(queues[q][0]);
      queues := queues[q := queues[q][1..]];
      taken := taken[q := taken[q] + 1];
    }
  }
}
