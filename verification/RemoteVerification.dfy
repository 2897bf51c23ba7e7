/** Stateless verification on another proxy than the one that executes. The executing
    proxy sends a request and then registers; the verifying proxy runs the local
    rendezvous and replies; the executing proxy handles the reply. Nothing orders the
    registration before the handling of the reply. */
module RemoteVerification {
  import opened Types
  import opened OneshotController

  /** Every digest has one verifying and one executing proxy, and the two differ, so
      `verifier` holds the controllers of the verifying proxies and `table` those of the
      executing ones, for any number of proxies. `registered` gives the channel whose
      receiver a waiting task holds, `delivered` the channels a result was sent on. */
  datatype RemoteState = RemoteState(
    verifier: State,
    requested: set<Digest>,
    table: Table,
    channels: nat,
    registered: map<Digest, nat>,
    handled: set<Digest>,
    delivered: set<nat>,
    finished: set<Digest>)

  datatype RemoteAction =
    | Request(txn: Digest)     // the executing proxy asks the verifying proxy
    | Register(txn: Digest)    // and then sets its remote dependency
    | Verify(a: Action)        // a step of the rendezvous on the verifying proxy
    | Handle(txn: Digest)      // the executing proxy's message handler takes the reply
    | Complete(txn: Digest)    // the waiting task receives the result, removes the entry

  /** The request makes the verifying proxy ask for its receiver; the reply is sent when
      the verifying proxy's side of the rendezvous is finished. */
  predicate RemoteEnabled(s: RemoteState, a: RemoteAction)
  {
    match a
    case Request(d) => d !in s.requested
    case Register(d) => d in s.requested && d !in s.registered
    case Verify(a) => Enabled(s.verifier, a) && (a.GetSide? ==> a.txn in s.requested)
    case Handle(d) => d in s.verifier.removed && d !in s.handled
    case Complete(d) => d in s.registered && s.registered[d] in s.delivered && d !in s.finished
  }

  function RemoteApply(s: RemoteState, a: RemoteAction): RemoteState
    requires RemoteEnabled(s, a)
  {
    match a
    case Request(d) => s.(requested := s.requested + {d})
    case Register(d) =>
      s.(table := SetRemote(s.table, s.channels, d), channels := s.channels + 1,
         registered := s.registered[d := s.channels])
    case Verify(a) => s.(verifier := Apply(s.verifier, a))
    case Handle(d) =>
      var (table, sender) := HandleReply(s.table, d);
      s.(table := table, handled := s.handled + {d},
         delivered := if sender.Some? then s.delivered + {sender.value} else s.delivered)
    case Complete(d) => s.(table := s.table - {d}, finished := s.finished + {d})
  }

  ghost predicate IsRemoteRun(acts: seq<RemoteAction>, states: seq<RemoteState>)
  {
    && |states| == |acts| + 1
    && states[0] == RemoteState(State(map[], 0, map[], map[], {}, {}), {}, map[], 0, map[], {}, {}, {})
    && forall n :: 0 <= n < |acts| ==>
      RemoteEnabled(states[n], acts[n]) && states[n + 1] == RemoteApply(states[n], acts[n])
  }

  /** The reply for `d` is handled, and only after the waiting task has registered. */
  ghost predicate HandledAfterRegistration(acts: seq<RemoteAction>, d: Digest)
  {
    exists m, n :: 0 <= m < n < |acts| && acts[m] == Register(d) && acts[n] == Handle(d)
  }

  // ------------------------------------------------- the invariant

  /** One digest on its executing proxy. */
  predicate RemoteDigestInv(s: RemoteState, d: Digest)
  {
    var waiting := d in s.registered && s.registered[d] !in s.delivered;
    && (d in s.registered ==> d in s.requested && s.registered[d] < s.channels)
    && (d in s.table <==> waiting)
    && (waiting ==> s.table[d] == Some(Entry(None, Some(s.registered[d]))))
    && (d in s.registered && s.registered[d] in s.delivered ==> d in s.handled)
    && (d in s.finished ==> d in s.registered && s.registered[d] in s.delivered)
    && (d in s.handled ==> d in s.verifier.removed)
  }

  predicate OwnRemoteChannel(s: RemoteState, d: Digest, e: Digest)
  {
    d != e && d in s.registered && e in s.registered ==> s.registered[d] != s.registered[e]
  }

  ghost predicate RemoteInv(s: RemoteState)
  {
    && Inv(s.verifier)
    && (forall d :: RemoteDigestInv(s, d))
    && (forall d, e :: OwnRemoteChannel(s, d, e))
    && (forall c :: c in s.delivered ==> c < s.channels)
  }

  lemma {:induction false} VerifierNeverForgets(s: State, a: Action)
    requires Enabled(s, a)
    ensures s.removed <= Apply(s, a).removed && s.sent <= Apply(s, a).sent
    ensures s.senders.Keys <= Apply(s, a).senders.Keys && s.receivers.Keys <= Apply(s, a).receivers.Keys
  {
  }

  lemma {:induction false} RemoteStepKeeps(s: RemoteState, a: RemoteAction)
    requires RemoteInv(s) && RemoteEnabled(s, a)
    ensures RemoteInv(RemoteApply(s, a))
  {
    var t := RemoteApply(s, a);
    if a.Verify? {
      StepKeeps(s.verifier, a.a);
      VerifierNeverForgets(s.verifier, a.a);
    } else {
      assert RemoteDigestInv(s, a.txn);
    }
    forall d ensures RemoteDigestInv(t, d) {
      assert RemoteDigestInv(s, d);
      if !a.Verify? {
        assert OwnRemoteChannel(s, a.txn, d);
      }
    }
    forall d, e ensures OwnRemoteChannel(t, d, e) {
      assert OwnRemoteChannel(s, d, e) && RemoteDigestInv(s, d) && RemoteDigestInv(s, e);
    }
  }

  lemma {:induction false} RemoteRunKeeps(acts: seq<RemoteAction>, states: seq<RemoteState>, n: nat)
    requires IsRemoteRun(acts, states) && n <= |acts|
    ensures RemoteInv(states[n])
  {
    if n > 0 {
      RemoteRunKeeps(acts, states, n - 1);
      RemoteStepKeeps(states[n - 1], acts[n - 1]);
    }
  }

  // ------------------------------------------------- history

  lemma {:induction false} RegisteredInHistory(acts: seq<RemoteAction>, states: seq<RemoteState>, n: nat, d: Digest)
    requires IsRemoteRun(acts, states) && n <= |acts|
    ensures d in states[n].registered <==> exists m :: 0 <= m < n && acts[m] == Register(d)
  {
    if n > 0 {
      RegisteredInHistory(acts, states, n - 1, d);
      assert RemoteEnabled(states[n - 1], acts[n - 1]) && states[n - 1 + 1] == RemoteApply(states[n - 1], acts[n - 1]);
      if acts[n - 1] == Register(d) {
        assert 0 <= n - 1 < n && acts[n - 1] == Register(d);
      }
    }
  }

  lemma {:induction false} HistoryGrows(acts: seq<RemoteAction>, n: nat, d: Digest)
    requires 0 < n <= |acts|
    ensures HandledAfterRegistration(acts[..n], d) <==>
              || HandledAfterRegistration(acts[..n - 1], d)
              || (acts[n - 1] == Handle(d) && exists m :: 0 <= m < n - 1 && acts[m] == Register(d))
  {
    var long, short := acts[..n], acts[..n - 1];
    if HandledAfterRegistration(short, d) {
      var m, k :| 0 <= m < k < |short| && short[m] == Register(d) && short[k] == Handle(d);
      assert long[m] == Register(d) && long[k] == Handle(d);
    }
    if m :| acts[n - 1] == Handle(d) && 0 <= m < n - 1 && acts[m] == Register(d) {
      assert long[m] == Register(d) && long[n - 1] == Handle(d);
    }
    if HandledAfterRegistration(long, d) {
      var m, k :| 0 <= m < k < |long| && long[m] == Register(d) && long[k] == Handle(d);
      if k < n - 1 {
        assert short[m] == Register(d) && short[k] == Handle(d);
      } else {
        assert acts[m] == Register(d);
      }
    }
  }

  lemma {:induction false} DeliveryInRun(acts: seq<RemoteAction>, states: seq<RemoteState>, n: nat, d: Digest)
    requires IsRemoteRun(acts, states) && n < |acts|
    ensures var s, t := states[n], states[n + 1];
            d in t.registered && t.registered[d] in t.delivered <==>
              (d in s.registered && s.registered[d] in s.delivered) || (acts[n] == Handle(d) && d in s.registered)
  {
    RemoteRunKeeps(acts, states, n);
    DeliveryStep(states[n], acts[n], d);
  }

  /** A result reaches the waiting task's channel exactly when the reply is handled after
      the registration. */
  lemma {:induction false} DeliveredInTime(acts: seq<RemoteAction>, states: seq<RemoteState>, n: nat, d: Digest)
    requires IsRemoteRun(acts, states) && n <= |acts|
    ensures var s := states[n];
            d in s.registered && s.registered[d] in s.delivered <==> HandledAfterRegistration(acts[..n], d)
  {
    if n > 0 {
      DeliveredInTime(acts, states, n - 1, d);
      RegisteredInHistory(acts, states, n - 1, d);
      HistoryGrows(acts, n, d);
      DeliveryInRun(acts, states, n - 1, d);
    }
  }

  lemma {:induction false} DeliveryStep(s: RemoteState, a: RemoteAction, d: Digest)
    requires RemoteInv(s) && RemoteEnabled(s, a)
    ensures var t := RemoteApply(s, a);
            d in t.registered && t.registered[d] in t.delivered <==>
              (d in s.registered && s.registered[d] in s.delivered) || (a == Handle(d) && d in s.registered)
  {
    assert RemoteDigestInv(s, d);
    if !a.Verify? {
      assert RemoteDigestInv(s, a.txn) && OwnRemoteChannel(s, a.txn, d);
    }
  }

  // ------------------------------------------------- what a remotely verified task can count on

  /** In every reachable state, for any interleaving over any digests: a waiting task has
      received its result only if its reply was handled after its registration, and if it
      was, it has received it or can do so now. */
  lemma {:induction false} RemoteResult(acts: seq<RemoteAction>, states: seq<RemoteState>, d: Digest)
    requires IsRemoteRun(acts, states)
    ensures var s := states[|acts|];
            d in s.finished || RemoteEnabled(s, Complete(d)) <==> HandledAfterRegistration(acts, d)
  {
    DeliveredInTime(acts, states, |acts|, d);
    assert acts[..|acts|] == acts;
    RemoteRunKeeps(acts, states, |acts|);
    assert RemoteDigestInv(states[|acts|], d);
  }

  /** No step concerning `d` is possible. */
  predicate AtRest(s: RemoteState, d: Digest)
  {
    && !RemoteEnabled(s, Request(d)) && !RemoteEnabled(s, Register(d)) && !RemoteEnabled(s, Handle(d))
    && !RemoteEnabled(s, Complete(d))
    && !RemoteEnabled(s, Verify(SetSide(d))) && !RemoteEnabled(s, Verify(GetSide(d)))
    && !RemoteEnabled(s, Verify(Send(d))) && !RemoteEnabled(s, Verify(Finish(d)))
  }

  /** When nothing more can happen to a digest, its reply has been handled, and its task
      has finished if and only if that was after the registration. Otherwise the reply
      reached nobody, the task waits for ever, and its entry stays in the map. */
  lemma {:induction false} RemoteTaskFinishes(acts: seq<RemoteAction>, states: seq<RemoteState>, d: Digest)
    requires IsRemoteRun(acts, states) && AtRest(states[|acts|], d)
    ensures d in states[|acts|].registered && d in states[|acts|].handled
    ensures d in states[|acts|].finished <==> HandledAfterRegistration(acts, d)
    ensures d in states[|acts|].table <==> !HandledAfterRegistration(acts, d)
  {
    RemoteResult(acts, states, d);
    RemoteRunKeeps(acts, states, |acts|);
    var s := states[|acts|];
    assert RemoteDigestInv(s, d) && DigestInv(s.verifier, d);
  }

  /** The losing order does occur: the reply overtakes the registration, although the
      request was sent first and every step was taken as soon as it could be. */
  lemma {:induction false} ReplyCanOvertake(d: Digest) returns (acts: seq<RemoteAction>, states: seq<RemoteState>)
    ensures IsRemoteRun(acts, states) && AtRest(states[|acts|], d)
    ensures d in states[|acts|].registered && d !in states[|acts|].finished
  {
    var s0 := RemoteState(State(map[], 0, map[], map[], {}, {}), {}, map[], 0, map[], {}, {}, {});
    var s1 := RemoteApply(s0, Request(d));
    var s2 := RemoteApply(s1, Verify(SetSide(d)));
    var s3 := RemoteApply(s2, Verify(GetSide(d)));
    var s4 := RemoteApply(s3, Verify(Send(d)));
    assert d in s4.verifier.sent && s4.verifier.senders[d] == s4.verifier.receivers[d].value;
    var s5 := RemoteApply(s4, Verify(Finish(d)));
    var s6 := RemoteApply(s5, Handle(d));
    var s7 := RemoteApply(s6, Register(d));
    acts := [Request(d), Verify(SetSide(d)), Verify(GetSide(d)), Verify(Send(d)), Verify(Finish(d)), Handle(d)];
    acts := acts + [Register(d)];
    states := [s0, s1, s2, s3, s4, s5, s6, s7];
  }
}
