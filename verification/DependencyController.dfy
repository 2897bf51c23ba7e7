/** The dependency controller: a map from object versions to notify handles,
    created by whichever side of a version asks first, and the proof that one call
    on it is a sequence of registering steps of the protocol. */
module DependencyController {
  import opened Types
  import opened Protocol
  import opened ProtocolInvariant
  import opened ProtocolKeeps

  type ObjectVersion = (ObjectId, Version)

  /** The map and the handles created so far. A handle is the number of the notify
      object that the controller created for it. */
  datatype Dependencies = Dependencies(table: map<Key, nat>, alloc: seq<Key>)

  predicate WellFormed(d: Dependencies)
  {
    forall k :: k in d.table ==> d.table[k] < |d.alloc| && d.alloc[d.table[k]] == k
  }

  function Lookup(d: Dependencies, k: Key): nat
  {
    if k in d.table then d.table[k] else |d.alloc|
  }

  function LookedUp(d: Dependencies, k: Key): Dependencies
  {
    Dependencies(d.table[k := Lookup(d, k)], if k in d.table then d.alloc else d.alloc + [k])
  }

  // ------------------------------------------------- the whole call, as a fold

  /** The controller, and the handles to wait for and to signal, during one call. */
  datatype Call = Call(deps: Dependencies, prior: seq<nat>, nexts: seq<nat>)

  function PriorLookedUp(c: Call, p: ProxyId, v: ObjectVersion, ignorePrior: bool): Call
  {
    if v.1 > INITIAL_VERSION && !ignorePrior then
      Call(LookedUp(c.deps, Key(p, v.0, v.1)), c.prior + [Lookup(c.deps, Key(p, v.0, v.1))], c.nexts)
    else c
  }

  function NextLookedUp(c: Call, p: ProxyId, o: ObjectId, next: Version, ignoreNext: bool): Call
  {
    if ignoreNext then c
    else Call(LookedUp(c.deps, Key(p, o, next)), c.prior, c.nexts + [Lookup(c.deps, Key(p, o, next))])
  }

  /** The call after its first `n` objects. */
  function CallAfter(d: Dependencies, p: ProxyId, vs: seq<ObjectVersion>, next: Version, ignorePrior: bool,
      ignoreNext: bool, n: nat): Call
    requires n <= |vs|
  {
    if n == 0 then Call(d, [], [])
    else
      NextLookedUp(PriorLookedUp(CallAfter(d, p, vs, next, ignorePrior, ignoreNext, n - 1), p, vs[n - 1], ignorePrior),
                   p, vs[n - 1].0, next, ignoreNext)
  }

  lemma {:induction false} CallAfterOneMore(d: Dependencies, p: ProxyId, vs: seq<ObjectVersion>, next: Version,
      ignorePrior: bool, ignoreNext: bool, n: nat)
    requires n < |vs|
    ensures CallAfter(d, p, vs, next, ignorePrior, ignoreNext, n + 1)
            == NextLookedUp(PriorLookedUp(CallAfter(d, p, vs, next, ignorePrior, ignoreNext, n), p, vs[n], ignorePrior),
                 p, vs[n].0, next, ignoreNext)
  {
  }

  /** How many of the first `n` objects have a prior version to wait for. */
  function PriorCount(vs: seq<ObjectVersion>, ignorePrior: bool, n: nat): nat
    requires n <= |vs|
  {
    if n == 0 then 0
    else
      PriorCount(vs, ignorePrior, n - 1) + if vs[n - 1].1 > INITIAL_VERSION && !ignorePrior then 1 else 0
  }

  /** `h` is the handle under `k`. */
  predicate IsHandle(d: Dependencies, k: Key, h: nat)
  {
    k in d.table && d.table[k] == h
  }

  /** A lookup never changes the handle of a version that has one, in any map. */
  predicate Extends(small: Dependencies, big: Dependencies)
  {
    forall k :: k in small.table ==> IsHandle(big, k, small.table[k])
  }

  /** `b` is a later point of the same call than `a`. */
  predicate Continues(a: Call, b: Call)
  {
    && Extends(a.deps, b.deps) && a.prior <= b.prior && a.nexts <= b.nexts
    && a.deps.alloc <= b.deps.alloc && (WellFormed(a.deps) ==> WellFormed(b.deps))
  }

  lemma {:induction false} LookupContinues(d: Dependencies, k: Key)
    ensures Extends(d, LookedUp(d, k)) && d.alloc <= LookedUp(d, k).alloc
    ensures WellFormed(d) ==> WellFormed(LookedUp(d, k))
  {
  }

  lemma {:induction false} ObjectContinues(c: Call, p: ProxyId, v: ObjectVersion, next: Version, ignorePrior: bool,
      ignoreNext: bool)
    ensures Continues(c, NextLookedUp(PriorLookedUp(c, p, v, ignorePrior), p, v.0, next, ignoreNext))
  {
    var mid := PriorLookedUp(c, p, v, ignorePrior);
    LookupContinues(c.deps, Key(p, v.0, v.1));
    LookupContinues(mid.deps, Key(p, v.0, next));
  }

  lemma {:induction false} ContinuesIsTransitive(a: Call, b: Call, c: Call)
    requires Continues(a, b) && Continues(b, c)
    ensures Continues(a, c)
  {
    forall k | k in a.deps.table ensures IsHandle(c.deps, k, a.deps.table[k]) {
      assert IsHandle(b.deps, k, a.deps.table[k]);
    }
  }

  /** Each of `calls` continues the one before. */
  predicate IsChain(calls: seq<Call>)
  {
    forall k :: 0 <= k < |calls| - 1 ==> Continues(calls[k], calls[k + 1])
  }

  lemma {:induction false} ChainContinues(calls: seq<Call>, m: nat, n: nat)
    requires m <= n < |calls| && IsChain(calls)
    ensures Continues(calls[m], calls[n])
  {
    if m < n {
      ChainContinues(calls, m, n - 1);
      assert Continues(calls[n - 1], calls[n - 1 + 1]);
      ContinuesIsTransitive(calls[m], calls[n - 1], calls[n]);
    }
  }

  lemma {:induction false} NextContinues(d: Dependencies, p: ProxyId, vs: seq<ObjectVersion>, next: Version,
      ignorePrior: bool, ignoreNext: bool, n: nat)
    requires n < |vs|
    ensures Continues(CallAfter(d, p, vs, next, ignorePrior, ignoreNext, n),
                  CallAfter(d, p, vs, next, ignorePrior, ignoreNext, n + 1))
  {
    ObjectContinues(CallAfter(d, p, vs, next, ignorePrior, ignoreNext, n), p, vs[n], next, ignorePrior, ignoreNext);
  }

  lemma {:induction false} CallsAreChain(d: Dependencies, p: ProxyId, vs: seq<ObjectVersion>, next: Version,
      ignorePrior: bool, ignoreNext: bool, calls: seq<Call>)
    requires |calls| == |vs| + 1
    requires forall k {:trigger calls[k]} :: 0 <= k <= |vs| ==>
      calls[k] == CallAfter(d, p, vs, next, ignorePrior, ignoreNext, k)
    ensures IsChain(calls)
  {
    forall k | 0 <= k < |vs| ensures Continues(calls[k], calls[k + 1]) {
      NextContinues(d, p, vs, next, ignorePrior, ignoreNext, k);
    }
  }

  lemma {:induction false} CallContinues(d: Dependencies, p: ProxyId, vs: seq<ObjectVersion>, next: Version,
      ignorePrior: bool, ignoreNext: bool, m: nat, n: nat)
    requires m <= n <= |vs|
    ensures Continues(CallAfter(d, p, vs, next, ignorePrior, ignoreNext, m),
                  CallAfter(d, p, vs, next, ignorePrior, ignoreNext, n))
  {
    var calls := seq(|vs| + 1, k requires 0 <= k <= |vs| => CallAfter(d, p, vs, next, ignorePrior, ignoreNext, k));
    CallsAreChain(d, p, vs, next, ignorePrior, ignoreNext, calls);
    ChainContinues(calls, m, n);
  }

  lemma {:induction false} ObjectHandsOut(c: Call, p: ProxyId, v: ObjectVersion, next: Version, ignorePrior: bool,
      ignoreNext: bool)
    ensures var after := NextLookedUp(PriorLookedUp(c, p, v, ignorePrior), p, v.0, next, ignoreNext);
            && (v.1 > INITIAL_VERSION && !ignorePrior ==>
                  |after.prior| == |c.prior| + 1 && IsHandle(after.deps, Key(p, v.0, v.1), after.prior[|c.prior|]))
            && (!ignoreNext ==>
                  |after.nexts| == |c.nexts| + 1 && IsHandle(after.deps, Key(p, v.0, next), after.nexts[|c.nexts|]))
  {
  }

  /** What one object is handed stays in its place to the end of the call. */
  lemma {:induction false} HandedOutStays(c: Call, end: Call, p: ProxyId, v: ObjectVersion, next: Version,
      ignorePrior: bool, ignoreNext: bool)
    requires Continues(NextLookedUp(PriorLookedUp(c, p, v, ignorePrior), p, v.0, next, ignoreNext), end)
    ensures v.1 > INITIAL_VERSION && !ignorePrior ==>
              |c.prior| < |end.prior| && IsHandle(end.deps, Key(p, v.0, v.1), end.prior[|c.prior|])
    ensures !ignoreNext ==> |c.nexts| < |end.nexts| && IsHandle(end.deps, Key(p, v.0, next), end.nexts[|c.nexts|])
  {
    ObjectHandsOut(c, p, v, next, ignorePrior, ignoreNext);
  }

  lemma {:induction false} CallSizes(d: Dependencies, p: ProxyId, vs: seq<ObjectVersion>, next: Version,
      ignorePrior: bool, ignoreNext: bool, n: nat)
    requires n <= |vs|
    ensures |CallAfter(d, p, vs, next, ignorePrior, ignoreNext, n).prior| == PriorCount(vs, ignorePrior, n)
    ensures |CallAfter(d, p, vs, next, ignorePrior, ignoreNext, n).nexts| == if ignoreNext then 0 else n
  {
    if n > 0 {
      CallSizes(d, p, vs, next, ignorePrior, ignoreNext, n - 1);
    }
  }

  /** The `m`-th object is waited for through the handle of its prior version, unless
      it has none, and it is signalled through the handle of the next version. */
  lemma {:induction false} CallHandsOut(d: Dependencies, p: ProxyId, vs: seq<ObjectVersion>, next: Version,
      ignorePrior: bool, ignoreNext: bool, m: nat)
    requires m < |vs|
    ensures var c := CallAfter(d, p, vs, next, ignorePrior, ignoreNext, |vs|); var at := PriorCount(vs, ignorePrior, m);
            && |c.prior| == PriorCount(vs, ignorePrior, |vs|)
            && |c.nexts| == (if ignoreNext then 0 else |vs|)
            && (vs[m].1 > INITIAL_VERSION && !ignorePrior ==>
                  at < |c.prior| && IsHandle(c.deps, Key(p, vs[m].0, vs[m].1), c.prior[at]))
            && (!ignoreNext ==> IsHandle(c.deps, Key(p, vs[m].0, next), c.nexts[m]))
  {
    CallSizes(d, p, vs, next, ignorePrior, ignoreNext, |vs|);
    CallSizes(d, p, vs, next, ignorePrior, ignoreNext, m);
    CallContinues(d, p, vs, next, ignorePrior, ignoreNext, m + 1, |vs|);
    var before := CallAfter(d, p, vs, next, ignorePrior, ignoreNext, m);
    var end := CallAfter(d, p, vs, next, ignorePrior, ignoreNext, |vs|);
    HandedOutStays(before, end, p, vs[m], next, ignorePrior, ignoreNext);
  }

  lemma {:induction false} ObjectAdds(c: Call, p: ProxyId, v: ObjectVersion, next: Version, ignorePrior: bool,
      ignoreNext: bool, k: Key)
    ensures k in NextLookedUp(PriorLookedUp(c, p, v, ignorePrior), p, v.0, next, ignoreNext).deps.table <==>
              || k in c.deps.table
              || (!ignorePrior && v.1 > INITIAL_VERSION && k == Key(p, v.0, v.1))
              || (!ignoreNext && k == Key(p, v.0, next))
  {
  }

  /** The entries after the first `n` objects are those from before, one for each prior
      version above the initial one unless priors are ignored, and one for the next
      version of each object unless that is ignored. */
  lemma {:induction false} CallAddsExactly(d: Dependencies, p: ProxyId, vs: seq<ObjectVersion>, next: Version,
      ignorePrior: bool, ignoreNext: bool, n: nat, k: Key)
    requires n <= |vs|
    ensures k in CallAfter(d, p, vs, next, ignorePrior, ignoreNext, n).deps.table <==>
              || k in d.table
              || (!ignorePrior && exists m :: 0 <= m < n && vs[m].1 > INITIAL_VERSION && k == Key(p, vs[m].0, vs[m].1))
              || (!ignoreNext && exists m :: 0 <= m < n && k == Key(p, vs[m].0, next))
  {
    if n > 0 {
      CallAddsExactly(d, p, vs, next, ignorePrior, ignoreNext, n - 1, k);
      ObjectAdds(CallAfter(d, p, vs, next, ignorePrior, ignoreNext, n - 1),
        p, vs[n - 1], next, ignorePrior, ignoreNext, k);
    }
  }

  /** One above the highest listed version. */
  predicate IsAboveAll(vs: seq<ObjectVersion>, next: Version)
  {
    (forall v :: v in vs ==> v.1 < next) && exists v :: v in vs && v.1 + 1 == next
  }

  class VersionedDependencyController {
    const proxy: ProxyId
    var objTaskMap: map<Key, nat>
    var handles: seq<Key>

    ghost predicate Valid()
      reads this
    {
      WellFormed(Contents())
    }

    ghost function Contents(): Dependencies
      reads this
    {
      Dependencies(objTaskMap, handles)
    }

    constructor (proxy: ProxyId)
      ensures Valid() && this.proxy == proxy && Contents() == Dependencies(map[], [])
    {
      this.proxy := proxy;
      objTaskMap := map[];
      handles := [];
    }

    /** The handle of an object version, created if nobody has asked for it yet. */
    method EntryHelper(o: ObjectId, v: Version) returns (h: nat)
      requires Valid()
      modifies this
      ensures Valid()
      ensures h == Lookup(old(Contents()), Key(proxy, o, v))
      ensures Contents() == LookedUp(old(Contents()), Key(proxy, o, v))
    {
      var key := Key(proxy, o, v);
      if key in objTaskMap {
        h := objTaskMap[key];
      } else {
        h := |handles|;
        handles := handles + [key];
        objTaskMap := objTaskMap[key := h];
      }
    }

    /** One above the highest version; there is no such version of an empty list. */
    static method CalculateNextVersion(vs: seq<ObjectVersion>) returns (next: Option<Version>)
      ensures next.None? <==> vs == []
      ensures next.Some? ==> IsAboveAll(vs, next.value)
    {
      if |vs| == 0 {
        return None;
      }
      var highest := vs[0].1;
      var n := 1;
      while n < |vs|
        invariant 1 <= n <= |vs|
        invariant forall m :: 0 <= m < n ==> vs[m].1 <= highest
        invariant exists m :: 0 <= m < n && vs[m].1 == highest
      {
        if vs[n].1 > highest {
          highest := vs[n].1;
        }
        n := n + 1;
      }
      return Some(highest + 1);
    }

    /** One object of a call: the handle of its prior version, unless there is nothing to
        wait for, and then the handle of its next version, unless that is ignored. */
    method LookUpObject(v: ObjectVersion, next: Version, ignorePrior: bool, ignoreNext: bool, prior: seq<nat>,
        nexts: seq<nat>)
      returns (prior': seq<nat>, nexts': seq<nat>)
      requires Valid()
      modifies this
      ensures Valid()
      ensures Call(Contents(), prior', nexts')
              == NextLookedUp(PriorLookedUp(Call(old(Contents()), prior, nexts), proxy, v, ignorePrior),
                   proxy, v.0, next, ignoreNext)
    {
      prior', nexts' := prior, nexts;
      if v.1 > INITIAL_VERSION && !ignorePrior {
        var h := EntryHelper(v.0, v.1);
        prior' := prior' + [h];
      }
      if !ignoreNext {
        var h := EntryHelper(v.0, next);
        nexts' := nexts' + [h];
      }
    }

    /** Obtains the handles to wait for and the handles to signal. An empty list
        makes the original panic, which is the `None` here. */
    method GetPriorDependencyAndUpdate(vs: seq<ObjectVersion>, ignorePrior: bool, ignoreNext: bool)
      returns (r: Option<(seq<nat>, seq<nat>)>)
      requires Valid()
      modifies this
      ensures Valid()
      ensures r.None? <==> vs == []
      ensures r.None? ==> Contents() == old(Contents())
      ensures r.Some? ==> exists next ::
        IsAboveAll(vs, next)
        && Call(Contents(), r.value.0, r.value.1)
           == CallAfter(old(Contents()), proxy, vs, next, ignorePrior, ignoreNext, |vs|)
    {
      var nextVersion := CalculateNextVersion(vs);
      if nextVersion.None? {
        return None;
      }
      var next := nextVersion.value;
      var prior, nexts := [], [];
      var n := 0;
      while n < |vs|
        invariant 0 <= n <= |vs| && Valid()
        invariant Call(Contents(), prior, nexts)
                  == CallAfter(old(Contents()), proxy, vs, next, ignorePrior, ignoreNext, n)
      {
        CallAfterOneMore(old(Contents()), proxy, vs, next, ignorePrior, ignoreNext, n);
        prior, nexts := LookUpObject(vs[n], next, ignorePrior, ignoreNext, prior, nexts);
        n := n + 1;
      }
      return Some((prior, nexts));
    }

    /** Forgets the entries of the given object versions. */
    method RemoveDependency(vs: seq<ObjectVersion>)
      requires Valid()
      modifies this`objTaskMap
      ensures Valid()
      ensures objTaskMap == old(objTaskMap) - set v | v in vs :: Key(proxy, v.0, v.1)
    {
      var n := 0;
      while n < |vs|
        invariant 0 <= n <= |vs| && Valid()
        invariant objTaskMap == old(objTaskMap) - set v | v in vs[..n] :: Key(proxy, v.0, v.1)
      {
        objTaskMap := objTaskMap - {Key(proxy, vs[n].0, vs[n].1)};
        n := n + 1;
      }
      assert vs[..n] == vs;
    }
  }

  // ------------------------------------------------- one call, as steps of the protocol

  /** The versions that transaction `i`'s task passes to the controller. */
  function RequiredList(job: Job, i: nat): (vs: seq<ObjectVersion>)
    requires WellShaped(job) && i < |job.txns|
    ensures |vs| == |job.txns[i].inputs|
  {
    var inputs := job.txns[i].inputs;
    seq(|inputs|, n requires 0 <= n < |inputs| => (inputs[n], job.required[i][inputs[n]]))
  }

  function DependenciesOf(s: State): Dependencies
  {
    Dependencies(s.table, s.alloc)
  }

  /** `states` is what the proxies go through when they take the steps `acts` from `s`. */
  ghost predicate Steps(job: Job, s: State, acts: seq<Action>, states: seq<State>)
    requires WellShaped(job)
  {
    && |states| == |acts| + 1
    && states[0] == s
    && forall n :: 0 <= n < |acts| ==>
      Enabled(job, states[n], acts[n]) && states[n + 1] == Apply(job, states[n], acts[n])
  }

  /** In `t`, the task of transaction `i` holds the handles that `c` hands out for its `m`-th object. */
  predicate Obtained(job: Job, t: State, i: nat, m: nat, c: Call)
    requires WellShaped(job) && i < |job.txns| && m < |job.txns[i].inputs|
  {
    var sl := Slot(i, job.txns[i].inputs[m]); var at := PriorCount(RequiredList(job, i), false, m);
    && m < |c.nexts| && sl in t.next && t.next[sl] == c.nexts[m]
    && (Awaits(job, sl) ==> at < |c.prior| && sl in t.prior && t.prior[sl] == c.prior[at])
  }

  /** In `t`, that task has registered its first `n` objects as `c` says. */
  ghost predicate RegisteredUpTo(job: Job, t: State, i: nat, n: nat, c: Call)
    requires WellShaped(job) && i < |job.txns| && n <= |job.txns[i].inputs|
  {
    var inputs := job.txns[i].inputs;
    && i in t.started && DependenciesOf(t) == c.deps
    && |c.nexts| == n && |c.prior| == PriorCount(RequiredList(job, i), false, n)
    && (forall m :: 0 <= m < n ==> Obtained(job, t, i, m, c))
    && (forall m :: n <= m < |inputs| ==> Slot(i, inputs[m]) !in t.prior && Slot(i, inputs[m]) !in t.next)
  }

  lemma {:induction false} RegisterPriorOne(job: Job, t: State, i: nat, n: nat, c: Call)
    requires WellShaped(job) && i < |job.txns| && n < |job.txns[i].inputs| && DeclaresOnce(job.txns[i].inputs)
    requires RegisteredUpTo(job, t, i, n, c) && Awaits(job, Slot(i, job.txns[i].inputs[n]))
    ensures var sl := Slot(i, job.txns[i].inputs[n]); var v := RequiredList(job, i)[n];
            && Enabled(job, t, RegisterPrior(sl))
            && var u := Apply(job, t, RegisterPrior(sl)); var d := PriorLookedUp(c, job.route[i], v, false);
            && DependenciesOf(u) == d.deps && sl in u.prior && d.prior == c.prior + [u.prior[sl]]
            && (forall m :: 0 <= m < n ==> Obtained(job, u, i, m, d))
  {
    var sl := Slot(i, job.txns[i].inputs[n]);
    var u := Apply(job, t, RegisterPrior(sl));
    var d := PriorLookedUp(c, job.route[i], RequiredList(job, i)[n], false);
    forall m | 0 <= m < n ensures Obtained(job, u, i, m, d) {
      assert Obtained(job, t, i, m, c);
    }
  }

  lemma {:induction false} RegisterNextOne(job: Job, u: State, i: nat, n: nat, c: Call, d: Call)
    requires WellShaped(job) && i < |job.txns| && n < |job.txns[i].inputs| && DeclaresOnce(job.txns[i].inputs)
    requires i in u.started && DependenciesOf(u) == d.deps && |d.nexts| == n
    requires |d.prior| == PriorCount(RequiredList(job, i), false, n + 1)
    requires forall m :: 0 <= m < n ==> Obtained(job, u, i, m, d)
    requires var sl := Slot(i, job.txns[i].inputs[n]);
             && sl !in u.next
             && (Awaits(job, sl) ==> sl in u.prior && |d.prior| > 0 && d.prior[|d.prior| - 1] == u.prior[sl])
    requires forall m :: n < m < |job.txns[i].inputs| ==>
               Slot(i, job.txns[i].inputs[m]) !in u.prior && Slot(i, job.txns[i].inputs[m]) !in u.next
    ensures var sl := Slot(i, job.txns[i].inputs[n]);
            && Enabled(job, u, RegisterNext(sl))
            && RegisteredUpTo(job, Apply(job, u, RegisterNext(sl)), i, n + 1,
                 NextLookedUp(d, job.route[i], sl.o, job.next[i], false))
  {
    var sl := Slot(i, job.txns[i].inputs[n]);
    var t := Apply(job, u, RegisterNext(sl));
    var e := NextLookedUp(d, job.route[i], sl.o, job.next[i], false);
    forall m | 0 <= m < n + 1 ensures Obtained(job, t, i, m, e) {
      assert m < n ==> Obtained(job, u, i, m, d);
    }
  }

  /** The next version's and, if there is one, the prior version's step for one object. */
  lemma {:induction false} RegisterOne(job: Job, t: State, i: nat, n: nat, c: Call)
    returns (acts: seq<Action>, states: seq<State>)
    requires WellShaped(job) && i < |job.txns| && n < |job.txns[i].inputs| && DeclaresOnce(job.txns[i].inputs)
    requires RegisteredUpTo(job, t, i, n, c)
    ensures Steps(job, t, acts, states)
    ensures var v := RequiredList(job, i)[n];
            RegisteredUpTo(job, states[|acts|], i, n + 1,
              NextLookedUp(PriorLookedUp(c, job.route[i], v, false), job.route[i], v.0, job.next[i], false))
  {
    var sl := Slot(i, job.txns[i].inputs[n]);
    var d := PriorLookedUp(c, job.route[i], RequiredList(job, i)[n], false);
    if Awaits(job, sl) {
      RegisterPriorOne(job, t, i, n, c);
      var u := Apply(job, t, RegisterPrior(sl));
      RegisterNextOne(job, u, i, n, c, d);
      return [RegisterPrior(sl), RegisterNext(sl)], [t, u, Apply(job, u, RegisterNext(sl))];
    } else {
      RegisterNextOne(job, t, i, n, c, d);
      return [RegisterNext(sl)], [t, Apply(job, t, RegisterNext(sl))];
    }
  }

  /** One call of a started task on its proxy's controller has exactly the effect of
      the protocol's registering steps for the task's objects, one after another, and
      hands out the same handles. */
  lemma {:induction false} CallIsRegisteringSteps(job: Job, s: State, i: nat, n: nat)
    returns (acts: seq<Action>, states: seq<State>)
    requires WellShaped(job) && i < |job.txns| && i in s.started && DeclaresOnce(job.txns[i].inputs)
    requires n <= |job.txns[i].inputs|
    requires forall o :: o in job.txns[i].inputs ==> Slot(i, o) !in s.prior && Slot(i, o) !in s.next
    ensures Steps(job, s, acts, states)
    ensures RegisteredUpTo(job, states[|acts|], i, n,
              CallAfter(DependenciesOf(s), job.route[i], RequiredList(job, i), job.next[i], false, false, n))
  {
    if n == 0 {
      return [], [s];
    }
    acts, states := CallIsRegisteringSteps(job, s, i, n - 1);
    var before := CallAfter(DependenciesOf(s), job.route[i], RequiredList(job, i), job.next[i], false, false, n - 1);
    var acts', states' := RegisterOne(job, states[|acts|], i, n - 1, before);
    StepsAppend(job, s, acts, states, acts', states');
    acts, states := acts + acts', states + states'[1..];
  }

  lemma {:induction false} StepsAppend(job: Job, s: State, acts: seq<Action>, states: seq<State>, acts': seq<Action>,
      states': seq<State>)
    requires WellShaped(job) && Steps(job, s, acts, states) && Steps(job, states[|acts|], acts', states')
    ensures Steps(job, s, acts + acts', states + states'[1..])
    ensures (states + states'[1..])[|acts + acts'|] == states'[|acts'|]
  {
    var all, through := acts + acts', states + states'[1..];
    forall n | 0 <= n < |all|
      ensures Enabled(job, through[n], all[n]) && through[n + 1] == Apply(job, through[n], all[n])
    {
      if n >= |acts| {
        assert all[n] == acts'[n - |acts|] && through[n] == states'[n - |acts|]
               && through[n + 1] == states'[n - |acts| + 1];
      }
    }
  }

  /** Handling a state reply calls the controller with the fetched version's predecessor
      and ignores priors: that is the protocol's accepting step. It hands out no handle to
      wait for, and the one to notify is the one the step holds. */
  lemma {:induction false} ReplyCallIsAccept(job: Job, s: State, sl: Slot, next: Version)
    requires WellShaped(job) && Enabled(job, s, Accept(sl)) && s.reqs[sl].reply.value.version > 0
    requires IsAboveAll([(sl.o, s.reqs[sl].reply.value.version - 1)], next)
    ensures var t := Apply(job, s, Accept(sl)); var vs := [(sl.o, s.reqs[sl].reply.value.version - 1)];
            CallAfter(DependenciesOf(s), job.route[sl.i], vs, next, true, false, |vs|)
            == Call(DependenciesOf(t), [], [t.reqs[sl].h])
  {
    var vs := [(sl.o, s.reqs[sl].reply.value.version - 1)];
    CallAfterOneMore(DependenciesOf(s), job.route[sl.i], vs, next, true, false, 0);
    assert vs[0] in vs;
  }

  /** Handling a state request calls the controller with the requested version and ignores
      the next one: that is the protocol's serving step. It hands out the handle to wait
      for that the step holds, and none to notify. */
  lemma {:induction false} RequestCallIsServe(job: Job, ser: Serial, s: State, sl: Slot, next: Version)
    requires Explains(job, ser) && Enabled(job, s, Serve(sl))
    ensures var t := Apply(job, s, Serve(sl)); var vs := [(sl.o, job.required[sl.i][sl.o])];
            CallAfter(DependenciesOf(s), job.owner[sl.i][sl.o].value, vs, next, false, true, |vs|)
            == Call(DependenciesOf(t), [t.reqs[sl].h], [])
  {
    RemoteAwaits(job, ser, sl);
    var vs := [(sl.o, job.required[sl.i][sl.o])];
    CallAfterOneMore(DependenciesOf(s), job.owner[sl.i][sl.o].value, vs, next, false, true, 0);
  }

  /** The controller's next version is the one the primary assigned. */
  lemma {:induction false} ControllerAgreesWithAssigner(required: map<ObjectId, Version>, vs: seq<ObjectVersion>,
      n: Version, m: Version)
    requires forall o, v :: (o, v) in vs <==> o in required && required[o] == v
    requires forall o :: o in required ==> required[o] >= INITIAL_VERSION
    requires IsNextVersion(required, n) && IsAboveAll(vs, m)
    ensures n == m
  {
    var v :| v in vs && v.1 + 1 == m;
    assert (v.0, v.1) in vs;
    if o :| o in required && required[o] + 1 == n {
      assert (o, required[o]) in vs;
    }
  }
}
