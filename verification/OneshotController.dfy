/** The rendezvous for stateless verification results: whichever of the verifying task
    and the waiting task comes first creates the channel, the other takes its end. */
module OneshotController {
  import opened Types

  type Digest = nat

  /** Channels are numbered in the order of creation; an entry holds the ends that
      nobody has taken yet. */
  datatype Entry = Entry(receiver: Option<nat>, sender: Option<nat>)

  type Table = map<Digest, Option<Entry>>

  class OneshotDependencyController {
    var objTaskMap: Table
    /** The number of channels created. */
    var channels: nat

    constructor ()
      ensures objTaskMap == map[] && channels == 0
    {
      objTaskMap := map[];
      channels := 0;
    }

    method SetRemoteDependency(txn: Digest) returns (receiver: nat)
      modifies this
      ensures receiver == old(channels) && channels == old(channels) + 1
      ensures objTaskMap == SetRemote(old(objTaskMap), old(channels), txn)
    {
      receiver := channels;
      channels := channels + 1;
      objTaskMap := objTaskMap[txn := Some(Entry(None, Some(receiver)))];
    }

    method SetLocalDependency(txn: Digest) returns (sender: nat)
      modifies this
      ensures (objTaskMap, channels, sender) == SetLocal(old(objTaskMap), old(channels), txn)
    {
      if txn in objTaskMap {
        var entry := objTaskMap[txn];
        if entry.Some? && entry.value.sender.Some? {
          sender := entry.value.sender.value;
          objTaskMap := objTaskMap[txn := Some(entry.value.(sender := None))];
          return sender;
        }
        // If no sender exists, a new channel replaces whatever is there.
        sender := channels;
        channels := channels + 1;
        objTaskMap := objTaskMap[txn := Some(Entry(Some(sender), None))];
      } else {
        sender := channels;
        channels := channels + 1;
        objTaskMap := objTaskMap[txn := Some(Entry(Some(sender), None))];
      }
    }

    method GetDependency(txn: Digest) returns (receiver: Option<nat>)
      modifies this
      ensures (objTaskMap, channels, receiver) == GetLocal(old(objTaskMap), old(channels), txn)
    {
      if txn in objTaskMap {
        var entry := objTaskMap[txn];
        if entry.Some? {
          if entry.value.sender.Some? {
            objTaskMap := objTaskMap[txn := Some(Entry(None, entry.value.sender))];
          } else {
            objTaskMap := objTaskMap - {txn};
          }
          receiver := entry.value.receiver;
        } else {
          receiver := None;
        }
      } else {
        receiver := Some(channels);
        objTaskMap := objTaskMap[txn := Some(Entry(None, Some(channels)))];
        channels := channels + 1;
      }
    }

    method TakeSignal(txn: Digest) returns (sender: Option<nat>)
      modifies this`objTaskMap
      ensures (objTaskMap, sender) == Take(old(objTaskMap), txn)
    {
      sender := None;
      if txn in objTaskMap {
        var entry := objTaskMap[txn];
        if entry.Some? {
          if entry.value.receiver.Some? {
            objTaskMap := objTaskMap[txn := Some(Entry(entry.value.receiver, None))];
          } else {
            objTaskMap := objTaskMap - {txn};
          }
          sender := entry.value.sender;
        }
      }
    }

    /** Handles a remote reply: the sender to deliver it on, if there is one; then the
        digest is forgotten. */
    method HandleStatelessReply(txn: Digest) returns (sender: Option<nat>)
      modifies this`objTaskMap
      ensures (objTaskMap, sender) == HandleReply(old(objTaskMap), txn)
    {
      sender := TakeSignal(txn);
      RemoveDependency(txn);
    }

    method RemoveDependency(txn: Digest)
      modifies this`objTaskMap
      ensures objTaskMap == old(objTaskMap) - {txn}
    {
      objTaskMap := objTaskMap - {txn};
    }
  }

  // ------------------------------------------------- the operations, as functions of the table

  /** The table, the number of channels and the sender after `set_local_dependency`. */
  function SetLocal(table: Table, channels: nat, txn: Digest): (Table, nat, nat)
  {
    if txn in table && table[txn].Some? && table[txn].value.sender.Some? then
      (table[txn := Some(table[txn].value.(sender := None))], channels, table[txn].value.sender.value)
    else
      (table[txn := Some(Entry(Some(channels), None))], channels + 1, channels)
  }

  /** The table, the number of channels and the receiver after `get_dependency`. */
  function GetLocal(table: Table, channels: nat, txn: Digest): (Table, nat, Option<nat>)
  {
    if txn !in table then (table[txn := Some(Entry(None, Some(channels)))], channels + 1, Some(channels))
    else if table[txn].None? then (table, channels, None)
    else if table[txn].value.sender.Some? then
      (table[txn := Some(Entry(None, table[txn].value.sender))], channels, table[txn].value.receiver)
    else (table - {txn}, channels, table[txn].value.receiver)
  }

  function Take(table: Table, txn: Digest): (Table, Option<nat>)
  {
    if txn !in table || table[txn].None? then (table, None)
    else if table[txn].value.receiver.Some? then
      (table[txn := Some(Entry(table[txn].value.receiver, None))], table[txn].value.sender)
    else (table - {txn}, table[txn].value.sender)
  }

  /** The table after `set_remote_dependency`, which makes a new channel. */
  function SetRemote(table: Table, channels: nat, txn: Digest): Table
  {
    table[txn := Some(Entry(None, Some(channels)))]
  }

  /** The table and the sender found when a remote reply is handled. */
  function HandleReply(table: Table, txn: Digest): (Table, Option<nat>)
  {
    var (after, sender) := Take(table, txn);
    (after - {txn}, sender)
  }

  /** Whatever is stored for a digest, setting its local dependency when no sender is
      stored makes a new channel, whose receiver the next to ask gets. */
  lemma {:induction false} SetThenGet(table: Table, channels: nat, txn: Digest)
    requires txn in table && table[txn].Some? ==> table[txn].value.sender.None?
    ensures var (set', channels', sender) := SetLocal(table, channels, txn);
            && sender == channels && channels' == channels + 1
            && GetLocal(set', channels', txn) == (table - {txn}, channels', Some(sender))
  {
    assert SetLocal(table, channels, txn).0 - {txn} == table - {txn};
  }

  /** Asking for the receiver first makes a new channel, whose sender the next to set the
      dependency gets; a second receiver is not handed out. */
  lemma {:induction false} GetThenSet(table: Table, channels: nat, txn: Digest)
    requires txn !in table
    ensures var (got, channels', receiver) := GetLocal(table, channels, txn);
            var (set', channels'', sender) := SetLocal(got, channels', txn);
            && receiver == Some(channels) && channels' == channels'' == channels + 1 && sender == channels
            && GetLocal(set', channels'', txn).2.None?
  {
  }

  /** Taking a stored sender leaves a stored receiver for whoever asks for it, and no
      second sender; taking a stored receiver leaves a stored sender in the same way. */
  lemma {:induction false} OtherEndStays(table: Table, channels: nat, txn: Digest)
    requires txn in table && table[txn].Some?
    ensures var entry := table[txn].value; var (taken, sender) := Take(table, txn);
            && sender == entry.sender && Take(taken, txn).1.None?
            && (entry.receiver.Some? ==> GetLocal(taken, channels, txn) == (table - {txn}, channels, entry.receiver))
    ensures var entry := table[txn].value; var (got, _, receiver) := GetLocal(table, channels, txn);
            receiver == entry.receiver && Take(got, txn).1 == entry.sender
  {
    assert Take(table, txn).0 - {txn} == table - {txn};
  }

  /** No operation touches what is stored for other digests. */
  lemma {:induction false} OthersUntouched(table: Table, channels: nat, txn: Digest)
    ensures SetLocal(table, channels, txn).0 - {txn} == GetLocal(table, channels, txn).0 - {txn} == table - {txn}
    ensures Take(table, txn).0 - {txn} == SetRemote(table, channels, txn) - {txn} == table - {txn}
    ensures HandleReply(table, txn) == (table - {txn}, Take(table, txn).1)
  {
  }

  // ------------------------------------------------- local rendezvous

  /** What the tasks of one proxy have obtained so far, over all digests. `sent` are the
      digests whose result has been sent, `removed` those whose waiting task has received
      it and removed the entry. */
  datatype State = State(
    table: Table,
    channels: nat,
    senders: map<Digest, nat>,
    receivers: map<Digest, Option<nat>>,
    sent: set<Digest>,
    removed: set<Digest>)

  datatype Action =
    | SetSide(txn: Digest)   // the verifying task asks for its sender
    | GetSide(txn: Digest)   // the waiting task asks for its receiver
    | Send(txn: Digest)      // the verification result is sent
    | Finish(txn: Digest)    // the waiting task receives it and removes the entry

  /** Each side asks once per digest, and a result can be received only after it has been
      sent on the channel that the receiver belongs to. */
  predicate Enabled(s: State, a: Action)
  {
    match a
    case SetSide(d) => d !in s.senders
    case GetSide(d) => d !in s.receivers
    case Send(d) => d in s.senders && d !in s.sent
    case Finish(d) =>
      d in s.receivers && s.receivers[d].Some? && d !in s.removed
      && exists e :: e in s.sent && e in s.senders && s.senders[e] == s.receivers[d].value
  }

  function Apply(s: State, a: Action): State
    requires Enabled(s, a)
  {
    match a
    case SetSide(d) =>
      var (table, channels, sender) := SetLocal(s.table, s.channels, d);
      s.(table := table, channels := channels, senders := s.senders[d := sender])
    case GetSide(d) =>
      var (table, channels, receiver) := GetLocal(s.table, s.channels, d);
      s.(table := table, channels := channels, receivers := s.receivers[d := receiver])
    case Send(d) => s.(sent := s.sent + {d})
    case Finish(d) => s.(table := s.table - {d}, removed := s.removed + {d})
  }

  /** The state of one digest's rendezvous. */
  predicate DigestInv(s: State, d: Digest)
  {
    var set', got := d in s.senders, d in s.receivers;
    && (set' ==> s.senders[d] < s.channels)
    && (got ==> s.receivers[d].Some? && s.receivers[d].value < s.channels)
    && (set' && got ==> s.receivers[d] == Some(s.senders[d]))
    && (!set' && !got ==> d !in s.table)
    && (set' && !got ==> d in s.table && s.table[d] == Some(Entry(Some(s.senders[d]), None)))
    && (!set' && got ==> d in s.table && s.table[d] == Some(Entry(None, s.receivers[d])))
    && (set' && got && d in s.table ==> s.table[d] == Some(Entry(None, None)))
    && (d in s.sent ==> set')
    && (d in s.removed ==> set' && got && d !in s.table)
  }

  /** A channel serves one digest only. */
  predicate OwnChannel(s: State, d: Digest, e: Digest)
  {
    d != e ==>
      && (d in s.senders && e in s.senders ==> s.senders[d] != s.senders[e])
      && (d in s.receivers && e in s.receivers ==> s.receivers[d] != s.receivers[e])
      && (d in s.senders && e in s.receivers ==> Some(s.senders[d]) != s.receivers[e])
  }

  ghost predicate Inv(s: State)
  {
    && (forall d :: DigestInv(s, d))
    && (forall d, e :: OwnChannel(s, d, e))
  }

  lemma {:induction false} StepKeeps(s: State, a: Action)
    requires Inv(s) && Enabled(s, a)
    ensures Inv(Apply(s, a))
  {
    var t := Apply(s, a);
    assert DigestInv(s, a.txn);
    forall d ensures DigestInv(t, d) {
      assert DigestInv(s, d);
      if a.Finish? && d == a.txn {
        ReceivedIsOwn(s, d);
      }
    }
    forall d, e ensures OwnChannel(t, d, e) {
      assert OwnChannel(s, d, e) && OwnChannel(s, e, d) && DigestInv(s, d) && DigestInv(s, e);
    }
  }

  /** What a waiting task receives was sent for its own digest. */
  lemma {:induction false} ReceivedIsOwn(s: State, d: Digest)
    requires Inv(s) && Enabled(s, Finish(d))
    ensures d in s.sent && d in s.senders && s.receivers[d] == Some(s.senders[d])
  {
    var e :| e in s.sent && e in s.senders && s.senders[e] == s.receivers[d].value;
    assert OwnChannel(s, e, d) && DigestInv(s, d) && DigestInv(s, e);
  }

  ghost predicate IsRun(acts: seq<Action>, states: seq<State>)
  {
    && |states| == |acts| + 1
    && states[0] == State(map[], 0, map[], map[], {}, {})
    && forall n :: 0 <= n < |acts| ==> Enabled(states[n], acts[n]) && states[n + 1] == Apply(states[n], acts[n])
  }

  lemma {:induction false} RunKeeps(acts: seq<Action>, states: seq<State>, n: nat)
    requires IsRun(acts, states) && n <= |acts|
    ensures Inv(states[n])
  {
    if n > 0 {
      RunKeeps(acts, states, n - 1);
      StepKeeps(states[n - 1], acts[n - 1]);
    }
  }

  /** In every reachable state, for any interleaving over any digests: once both sides
      of a digest have asked, in either order, they hold the two ends of the same
      channel, no other digest has an end of it, and after the waiting task has removed
      the entry none is left. */
  lemma {:induction false} LocalRendezvous(acts: seq<Action>, states: seq<State>, d: Digest, e: Digest)
    requires IsRun(acts, states)
    ensures var s := states[|acts|];
            && (d in s.senders && d in s.receivers ==> s.receivers[d] == Some(s.senders[d]))
            && (d != e && d in s.senders && e in s.receivers ==> s.receivers[e] != Some(s.senders[d]))
            && (d in s.removed ==> d in s.sent && d !in s.table)
  {
    RunKeeps(acts, states, |acts|);
    var s := states[|acts|];
    assert DigestInv(s, d) && OwnChannel(s, d, e);
    RemovedIsSent(acts, states, |acts|, d);
  }

  lemma {:induction false} RemovedIsSent(acts: seq<Action>, states: seq<State>, n: nat, d: Digest)
    requires IsRun(acts, states) && n <= |acts|
    ensures d in states[n].removed ==> d in states[n].sent
  {
    if n > 0 {
      RemovedIsSent(acts, states, n - 1, d);
      RunKeeps(acts, states, n - 1);
      if acts[n - 1] == Finish(d) {
        ReceivedIsOwn(states[n - 1], d);
      }
    }
  }

  /** Once both sides have asked and the result has been sent, the waiting task can
      finish: no result is lost. */
  lemma {:induction false} NoResultIsLost(acts: seq<Action>, states: seq<State>, d: Digest)
    requires IsRun(acts, states)
    requires d in states[|acts|].receivers && d in states[|acts|].sent && d !in states[|acts|].removed
    ensures Enabled(states[|acts|], Finish(d))
  {
    RunKeeps(acts, states, |acts|);
    assert DigestInv(states[|acts|], d);
  }
}
