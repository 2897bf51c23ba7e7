/** The TPC-C executor: business logic on a store with a read cache, merge of the
    updated and the merely read objects, and commit. */
module TpccExecutor {
  import opened Types
  import opened SerialExecution
  import opened Executor
  import opened TpccTransactions
  import Forwarder

  /** Rows decode as the kind that their identifier names. */
  predicate RightKind(o: ObjectId, content: Content)
  {
    match o
    case PlainId(_) => content.CoinOf?
    case WarehouseId(_) => content.WarehouseOf?
    case DistrictId(_, _) => content.DistrictOf?
    case CustomerId(_, _, _) => content.CustomerOf?
    case StockId(_, _) => content.StockOf?
    case ItemId(_) => content.ItemOf?
  }

  predicate WellTyped(objects: map<ObjectId, Object>)
  {
    forall o :: o in objects ==> RightKind(o, objects[o].content)
  }

  /** The cache holds objects as they are in the store. */
  predicate Caches(objects: map<ObjectId, Object>, cache: map<ObjectId, Object>)
  {
    forall o :: o in cache ==> o in objects && cache[o] == objects[o]
  }

  /** The immutable items of an order, which are read but not declared. */
  predicate ItemsPresent(ids: set<ObjectId>, txn: TpccTransaction)
  {
    txn.NewOrder? ==> forall n :: 0 <= n < |txn.items| ==> ItemId(txn.items[n].i_id) in ids
  }

  /** What an execution reads: the declared objects, and the items. */
  predicate Present(objects: map<ObjectId, Object>, txn: TpccTransaction)
  {
    (forall o :: o in ReadsOf(txn) ==> o in objects) && ItemsPresent(objects.Keys, txn)
  }

  /** The objects that the business logic computes. */
  function Updated(objects: map<ObjectId, Object>, txn: TpccTransaction, next: Version): map<ObjectId, Object>
  {
    map o | o in WritesOf(txn) && o in objects :: Object(next, OutcomeOf(txn, o, objects[o].content))
  }

  function Logic(txn: TpccTransaction): (ObjectId, map<ObjectId, Content>) -> Content
  {
    (o, contents) => Outcome(txn, o, contents)
  }

  /** Reads through the cache; `None` is the original's panic on an unknown object. */
  method GetObject(store: ObjectStore, cache: map<ObjectId, Object>, id: ObjectId)
    returns (r: Option<Object>, cache': map<ObjectId, Object>)
    requires Caches(store.objects, cache)
    ensures Caches(store.objects, cache')
    ensures r == if id in store.objects then Some(store.objects[id]) else None
  {
    if id in cache {
      return Some(cache[id]), cache;
    }
    r := store.ReadObject(id);
    cache' := if r.Some? then cache[id := r.value] else cache;
  }

  /** Row `id` is one of the first `n` lines' rows and `s` is what they leave in it. */
  predicate RowDone(objects: map<ObjectId, Object>, w: nat, items: seq<OrderItem>, n: nat, id: ObjectId, s: Stock)
    requires n <= |items| && WellTyped(objects)
  {
    && id in objects && id.StockId?
    && (exists k :: 0 <= k < n && StockOfLine(items[k]) == id)
    && s == AfterLines(w, items, id, objects[id].content.stock, n)
  }

  /** The state of the loop over order lines after the first `n`. */
  predicate LinesDone(objects: map<ObjectId, Object>, w: nat, items: seq<OrderItem>, n: nat,
      updates: map<ObjectId, Stock>)
    requires n <= |items| && WellTyped(objects)
  {
    && (forall k :: 0 <= k < n ==> ItemId(items[k].i_id) in objects && StockOfLine(items[k]) in updates)
    && forall id :: id in updates ==> RowDone(objects, w, items, n, id, updates[id])
  }

  lemma {:induction false} OtherRowStays(objects: map<ObjectId, Object>, w: nat, items: seq<OrderItem>, n: nat,
      id: ObjectId, s: Stock)
    requires n < |items| && WellTyped(objects) && RowDone(objects, w, items, n, id, s) && id != StockOfLine(items[n])
    ensures RowDone(objects, w, items, n + 1, id, s)
  {
    var k :| 0 <= k < n && StockOfLine(items[k]) == id;
    assert k < n + 1;
  }

  lemma {:induction false} OwnRowDone(objects: map<ObjectId, Object>, w: nat, items: seq<OrderItem>, n: nat, was: Stock)
    requires n < |items| && WellTyped(objects) && StockOfLine(items[n]) in objects
    requires var id := StockOfLine(items[n]);
             || RowDone(objects, w, items, n, id, was)
             || (was == objects[id].content.stock && forall k :: 0 <= k < n ==> StockOfLine(items[k]) != id)
    ensures RowDone(objects, w, items, n + 1, StockOfLine(items[n]),
              AfterLine(was, items[n].quantity, items[n].supply_w_id != w))
  {
    var id := StockOfLine(items[n]);
    if !RowDone(objects, w, items, n, id, was) {
      UnorderedStockStays(w, items, id, objects[id].content.stock, n);
    }
    assert n < n + 1;
  }

  lemma {:induction false} LineDone(objects: map<ObjectId, Object>, w: nat, items: seq<OrderItem>, n: nat,
      updates: map<ObjectId, Stock>, entry: Stock)
    requires n < |items| && WellTyped(objects) && LinesDone(objects, w, items, n, updates)
    requires var id := StockOfLine(items[n]);
             && ItemId(items[n].i_id) in objects && id in objects
             && var was := if id in updates then updates[id] else objects[id].content.stock;
             && entry == AfterLine(was, items[n].quantity, items[n].supply_w_id != w)
    ensures LinesDone(objects, w, items, n + 1, updates[StockOfLine(items[n]) := entry])
  {
    var id := StockOfLine(items[n]);
    var after := updates[id := entry];
    forall o | o in after ensures RowDone(objects, w, items, n + 1, o, after[o]) {
      if o == id {
        OwnRowDone(objects, w, items, n, if id in updates then updates[id] else objects[id].content.stock);
      } else {
        OtherRowStays(objects, w, items, n, o, updates[o]);
      }
    }
  }

  /** One order line: the updated stock row, or `None` on an unknown item or row. */
  method OrderLine(store: ObjectStore, cache: map<ObjectId, Object>, w: nat, line: OrderItem,
      updates: map<ObjectId, Stock>)
    returns (r: Option<Stock>, cache': map<ObjectId, Object>)
    requires WellTyped(store.objects) && Caches(store.objects, cache)
    requires forall id :: id in updates ==> id in store.objects
    ensures Caches(store.objects, cache')
    ensures r.Some? <==> ItemId(line.i_id) in store.objects && StockOfLine(line) in store.objects
    ensures r.Some? ==>
      var id := StockOfLine(line); var was := if id in updates then updates[id] else store.objects[id].content.stock;
      r.value == AfterLine(was, line.quantity, line.supply_w_id != w)
  {
    var item;
    item, cache' := GetObject(store, cache, ItemId(line.i_id));
    if item.None? {
      return None, cache';
    }
    var stockId := StockId(line.supply_w_id, line.i_id);
    var entry;
    if stockId in updates {
      entry := updates[stockId];
    } else {
      var found;
      found, cache' := GetObject(store, cache', stockId);
      if found.None? {
        return None, cache';
      }
      entry := found.value.content.stock;
    }
    if entry.s_quantity >= line.quantity + 10 {
      entry := entry.(s_quantity := entry.s_quantity - line.quantity);
    } else {
      entry := entry.(s_quantity := entry.s_quantity + (91 - line.quantity));
    }
    entry := entry.(s_ytd := entry.s_ytd + line.quantity);
    entry := entry.(s_order_cnt := entry.s_order_cnt + 1);
    if line.supply_w_id != w {
      entry := entry.(s_remote_cnt := entry.s_remote_cnt + 1);
    }
    return Some(entry), cache';
  }

  /** The loop over the order lines: every stock row of the order, updated. */
  method OrderLines(store: ObjectStore, cache: map<ObjectId, Object>, w: nat, items: seq<OrderItem>)
    returns (updates: Option<map<ObjectId, Stock>>, cache': map<ObjectId, Object>)
    requires WellTyped(store.objects) && Caches(store.objects, cache)
    ensures Caches(store.objects, cache')
    ensures updates.None? ==>
      exists k :: 0 <= k < |items| &&
        (ItemId(items[k].i_id) !in store.objects || StockOfLine(items[k]) !in store.objects)
    ensures updates.Some? ==> LinesDone(store.objects, w, items, |items|, updates.value)
  {
    var stockUpdates: map<ObjectId, Stock> := map[];
    cache' := cache;
    var n := 0;
    while n < |items|
      invariant 0 <= n <= |items| && Caches(store.objects, cache')
      invariant LinesDone(store.objects, w, items, n, stockUpdates)
    {
      var entry;
      entry, cache' := OrderLine(store, cache', w, items[n], stockUpdates);
      if entry.None? {
        return None, cache';
      }
      LineDone(store.objects, w, items, n, stockUpdates, entry.value);
      stockUpdates := stockUpdates[StockId(items[n].supply_w_id, items[n].i_id) := entry.value];
      n := n + 1;
    }
    return Some(stockUpdates), cache';
  }

  /** The rows among `ids` as objects at the version `next`. */
  function Encoded(updates: map<ObjectId, Stock>, next: Version, ids: set<ObjectId>): map<ObjectId, Object>
    requires ids <= updates.Keys
  {
    map o | o in ids :: Object(next, StockOf(updates[o]))
  }

  lemma {:induction false} EncodeOneMore(updates: map<ObjectId, Stock>, next: Version, todo: set<ObjectId>,
      id: ObjectId)
    requires todo <= updates.Keys && id in todo
    ensures Encoded(updates, next, updates.Keys - (todo - {id}))
            == Encoded(updates, next, updates.Keys - todo)[id := Object(next, StockOf(updates[id]))]
  {
  }

  /** Adds the updated stock rows to the updated objects. */
  method EncodeStocks(updates: map<ObjectId, Stock>, next: Version, objects: map<ObjectId, Object>)
    returns (updated: map<ObjectId, Object>)
    ensures updated == objects + Encoded(updates, next, updates.Keys)
  {
    updated := objects;
    var todo := updates.Keys;
    while todo != {}
      invariant todo <= updates.Keys
      invariant updated == objects + Encoded(updates, next, updates.Keys - todo)
      decreases |todo|
    {
      var id :| id in todo;
      EncodeOneMore(updates, next, todo, id);
      updated := updated[id := Object(next, StockOf(updates[id]))];
      todo := todo - {id};
    }
    assert updates.Keys - todo == updates.Keys;
  }

  method ExecuteNewOrder(store: ObjectStore, cache: map<ObjectId, Object>, next: Version, w: nat, d: nat, c: nat,
      items: seq<OrderItem>)
    returns (updated: Option<map<ObjectId, Object>>, cache': map<ObjectId, Object>)
    requires WellTyped(store.objects) && Caches(store.objects, cache)
    ensures Caches(store.objects, cache')
    ensures updated.Some? <==> Present(store.objects, NewOrder(w, d, c, items))
    ensures updated.Some? ==> updated.value == Updated(store.objects, NewOrder(w, d, c, items), next)
  {
    ghost var txn := NewOrder(w, d, c, items);
    NeededByOrder(store.objects, txn);
    var warehouse, found, customer;
    warehouse, cache' := GetObject(store, cache, WarehouseId(w));
    if warehouse.None? {
      return None, cache';
    }
    found, cache' := GetObject(store, cache', DistrictId(w, d));
    if found.None? {
      return None, cache';
    }
    var district := found.value.content.district;
    district := district.(d_next_o_id := district.d_next_o_id + 1);
    customer, cache' := GetObject(store, cache', CustomerId(w, d, c));
    if customer.None? {
      return None, cache';
    }
    var updates;
    updates, cache' := OrderLines(store, cache', w, items);
    if updates.None? {
      return None, cache';
    }
    var updatedObjects: map<ObjectId, Object> := map[DistrictId(w, d) := Object(next, DistrictOf(district))];
    assert updatedObjects == DistrictUpdate(store.objects, txn, next);
    updatedObjects := EncodeStocks(updates.value, next, updatedObjects);
    UpdatesAreOutcomes(store.objects, txn, next, updates.value);
    return Some(updatedObjects), cache';
  }

  lemma {:induction false} NeededByOrder(objects: map<ObjectId, Object>, txn: TpccTransaction)
    requires txn.NewOrder?
    ensures Present(objects, txn) <==>
              && WarehouseId(txn.w_id) in objects && DistrictId(txn.w_id, txn.d_id) in objects
              && CustomerId(txn.w_id, txn.d_id, txn.c_id) in objects
              && forall n :: 0 <= n < |txn.items| ==>
                   ItemId(txn.items[n].i_id) in objects && StockOfLine(txn.items[n]) in objects
  {
    var head := [WarehouseId(txn.w_id), DistrictId(txn.w_id, txn.d_id), CustomerId(txn.w_id, txn.d_id, txn.c_id)];
    assert forall o :: o in ReadsOf(txn) <==> o in head || o in StocksOf(txn.items);
    assert head[0] in head && head[1] in head && head[2] in head;
    forall n | 0 <= n < |txn.items| ensures StockOfLine(txn.items[n]) in StocksOf(txn.items) {
      assert StocksOf(txn.items)[n] == StockOfLine(txn.items[n]);
    }
  }

  lemma {:induction false} WrittenIsUpdated(objects: map<ObjectId, Object>, txn: TpccTransaction,
      updates: map<ObjectId, Stock>, o: ObjectId)
    requires WellTyped(objects) && txn.NewOrder? && LinesDone(objects, txn.w_id, txn.items, |txn.items|, updates)
    ensures o in WritesOf(txn) <==> o == DistrictId(txn.w_id, txn.d_id) || o in updates
  {
    assert WritesOf(txn)[0] == DistrictId(txn.w_id, txn.d_id);
    if o in updates {
      var k :| 0 <= k < |txn.items| && StockOfLine(txn.items[k]) == o;
      assert WritesOf(txn)[k + 1] == o;
    }
  }

  lemma {:induction false} StockOutcome(objects: map<ObjectId, Object>, txn: TpccTransaction,
      updates: map<ObjectId, Stock>, o: ObjectId)
    requires WellTyped(objects) && txn.NewOrder? && LinesDone(objects, txn.w_id, txn.items, |txn.items|, updates)
    requires o in updates
    ensures o in objects && OutcomeOf(txn, o, objects[o].content) == StockOf(updates[o])
  {
  }

  /** What the order leaves in the district, as an update. */
  function DistrictUpdate(objects: map<ObjectId, Object>, txn: TpccTransaction, next: Version): map<ObjectId, Object>
    requires WellTyped(objects) && txn.NewOrder? && DistrictId(txn.w_id, txn.d_id) in objects
  {
    var was := objects[DistrictId(txn.w_id, txn.d_id)].content.district;
    map[DistrictId(txn.w_id, txn.d_id) := Object(next, DistrictOf(was.(d_next_o_id := was.d_next_o_id + 1)))]
  }

  lemma {:induction false} UpdateIsOutcome(objects: map<ObjectId, Object>, txn: TpccTransaction, next: Version,
      updates: map<ObjectId, Stock>, o: ObjectId)
    requires WellTyped(objects) && txn.NewOrder? && DistrictId(txn.w_id, txn.d_id) in objects
    requires LinesDone(objects, txn.w_id, txn.items, |txn.items|, updates)
    ensures var updated := DistrictUpdate(objects, txn, next) + Encoded(updates, next, updates.Keys);
            var spec := Updated(objects, txn, next);
            (o in updated <==> o in spec) && (o in spec ==> updated[o] == spec[o])
  {
    WrittenIsUpdated(objects, txn, updates, o);
    if o in updates {
      StockOutcome(objects, txn, updates, o);
    } else if o == DistrictId(txn.w_id, txn.d_id) {
      assert OutcomeOf(txn, o, objects[o].content) == DistrictUpdate(objects, txn, next)[o].content;
    }
  }

  lemma {:induction false} UpdatesAreOutcomes(objects: map<ObjectId, Object>, txn: TpccTransaction, next: Version,
      updates: map<ObjectId, Stock>)
    requires WellTyped(objects) && txn.NewOrder? && DistrictId(txn.w_id, txn.d_id) in objects
    requires LinesDone(objects, txn.w_id, txn.items, |txn.items|, updates)
    ensures DistrictUpdate(objects, txn, next) + Encoded(updates, next, updates.Keys) == Updated(objects, txn, next)
  {
    var updated := DistrictUpdate(objects, txn, next) + Encoded(updates, next, updates.Keys);
    var spec := Updated(objects, txn, next);
    forall o ensures (o in updated <==> o in spec) && (o in spec ==> updated[o] == spec[o]) {
      UpdateIsOutcome(objects, txn, next, updates, o);
    }
    SameMaps(updated, spec);
  }

  method ExecutePayment(store: ObjectStore, cache: map<ObjectId, Object>, next: Version, w: nat, d: nat, cw: nat,
      cd: nat, c: nat, amount: int)
    returns (updated: Option<map<ObjectId, Object>>, cache': map<ObjectId, Object>)
    requires WellTyped(store.objects) && Caches(store.objects, cache)
    ensures Caches(store.objects, cache')
    ensures updated.Some? <==> Present(store.objects, Payment(w, d, cw, cd, c, amount))
    ensures updated.Some? ==> updated.value == Updated(store.objects, Payment(w, d, cw, cd, c, amount), next)
  {
    ghost var ids := ReadsOf(Payment(w, d, cw, cd, c, amount));
    assert ids[0] in ids && ids[1] in ids && ids[2] in ids;
    var found;
    found, cache' := GetObject(store, cache, WarehouseId(w));
    if found.None? {
      return None, cache';
    }
    var warehouse := found.value.content.warehouse;
    warehouse := warehouse.(w_ytd := warehouse.w_ytd + amount);
    found, cache' := GetObject(store, cache', DistrictId(w, d));
    if found.None? {
      return None, cache';
    }
    var district := found.value.content.district;
    district := district.(d_ytd := district.d_ytd + amount);
    found, cache' := GetObject(store, cache', CustomerId(cw, cd, c));
    if found.None? {
      return None, cache';
    }
    var customer := found.value.content.customer;
    customer := customer.(c_balance := customer.c_balance - amount);
    customer := customer.(c_ytd_payment := customer.c_ytd_payment + amount);
    customer := customer.(c_payment_cnt := customer.c_payment_cnt + 1);
    var updatedObjects: map<ObjectId, Object> := map[];
    updatedObjects := updatedObjects[WarehouseId(w) := Object(next, WarehouseOf(warehouse))];
    updatedObjects := updatedObjects[DistrictId(w, d) := Object(next, DistrictOf(district))];
    updatedObjects := updatedObjects[CustomerId(cw, cd, c) := Object(next, CustomerOf(customer))];
    return Some(updatedObjects), cache';
  }

  method ExecuteTpccLogic(store: ObjectStore, txn: TpccTransaction, next: Version, cache: map<ObjectId, Object>)
    returns (updated: Option<map<ObjectId, Object>>, cache': map<ObjectId, Object>)
    requires WellTyped(store.objects) && Caches(store.objects, cache)
    ensures Caches(store.objects, cache')
    ensures updated.Some? <==> Present(store.objects, txn)
    ensures updated.Some? ==> updated.value == Updated(store.objects, txn, next)
  {
    match txn
    case NewOrder(w, d, c, items) => updated, cache' := ExecuteNewOrder(store, cache, next, w, d, c, items);
    case Payment(w, d, cw, cd, c, amount) =>
      updated, cache' := ExecutePayment(store, cache, next, w, d, cw, cd, c, amount);
  }

  /** The outputs for the declared objects `ids`. */
  function Merged(objects: map<ObjectId, Object>, txn: TpccTransaction, next: Version, ids: seq<ObjectId>)
    : map<ObjectId, Object>
  {
    map o | o in ids && o in objects :: Object(next, OutcomeOf(txn, o, objects[o].content))
  }

  lemma {:induction false} MergeOneMore(objects: map<ObjectId, Object>, txn: TpccTransaction, next: Version,
      ids: seq<ObjectId>, n: nat)
    requires n < |ids| && ids[n] in objects
    ensures var output := Object(next, OutcomeOf(txn, ids[n], objects[ids[n]].content));
            Merged(objects, txn, next, ids[..n + 1]) == Merged(objects, txn, next, ids[..n])[ids[n] := output]
  {
    assert ids[..n + 1] == ids[..n] + [ids[n]];
  }

  lemma {:induction false} MergedIsExecuted(objects: map<ObjectId, Object>, txn: TpccTransaction, next: Version,
      inputs: seq<ObjectId>)
    requires forall o :: o in inputs ==> o in objects
    ensures objects + Merged(objects, txn, next, inputs) == Executed(objects, inputs, next, Logic(txn))
  {
  }

  /** What a transaction leaves in a declared object: the updated object, or the one
      it read at the next version. */
  method Output(store: ObjectStore, cache: map<ObjectId, Object>, txn: TpccTransaction, next: Version,
      updated: map<ObjectId, Object>, id: ObjectId)
    returns (output: Object, cache': map<ObjectId, Object>)
    requires WellTyped(store.objects) && Caches(store.objects, cache) && id in store.objects
    requires updated == Updated(store.objects, txn, next)
    ensures Caches(store.objects, cache')
    ensures output == Object(next, OutcomeOf(txn, id, store.objects[id].content))
  {
    if id in updated {
      return updated[id], cache;
    }
    var found;
    found, cache' := GetObject(store, cache, id);
    output := found.value.(version := next);
    OnlyWritesChange(txn, id, found.value.content);
  }

  /** The loop over the declared objects. */
  method Outputs(store: ObjectStore, cache: map<ObjectId, Object>, txn: TpccTransaction, next: Version,
      updated: map<ObjectId, Object>, inputs: seq<ObjectId>)
    returns (newState: map<ObjectId, Object>)
    requires WellTyped(store.objects) && Caches(store.objects, cache) && forall o :: o in inputs ==> o in store.objects
    requires updated == Updated(store.objects, txn, next)
    ensures newState == Merged(store.objects, txn, next, inputs)
  {
    newState := map[];
    var cache' := cache;
    var n := 0;
    while n < |inputs|
      invariant 0 <= n <= |inputs| && Caches(store.objects, cache')
      invariant newState == Merged(store.objects, txn, next, inputs[..n])
    {
      var output;
      assert inputs[n] in inputs;
      output, cache' := Output(store, cache', txn, next, updated, inputs[n]);
      MergeOneMore(store.objects, txn, next, inputs, n);
      newState := newState[inputs[n] := output];
      n := n + 1;
    }
    assert inputs[..n] == inputs;
  }

  /** Runs a transaction and commits every declared object at the next version: the
      updated ones as the logic left them, the others with their content unchanged.
      An unknown object makes the original panic before it commits anything. */
  method Execute(store: ObjectStore, txn: TpccTransaction, inputs: seq<ObjectId>, required: seq<ObjectVersion>)
    returns (ok: bool)
    requires WellTyped(store.objects) && inputs == AccessesOf(txn)
    modifies store
    ensures ok <==> Present(old(store.objects), txn)
    ensures !ok ==> store.objects == old(store.objects)
    ensures ok ==> exists next ::
      Forwarder.IsNextOfList(required, next) && store.objects == Executed(old(store.objects), inputs, next, Logic(txn))
  {
    AccessesAreReads(txn);
    var next := NextVersion(required);
    var updated, cache := ExecuteTpccLogic(store, txn, next, map[]);
    if updated.None? {
      return false;
    }
    var newState := Outputs(store, cache, txn, next, updated.value, inputs);
    MergedIsExecuted(store.objects, txn, next, inputs);
    store.CommitNewObjects(newState);
    return true;
  }

  /** Execution keeps every row of its kind. */
  lemma {:induction false} ExecutionKeepsKinds(objects: map<ObjectId, Object>, txn: TpccTransaction, next: Version)
    requires WellTyped(objects) && forall o :: o in AccessesOf(txn) ==> o in objects
    ensures WellTyped(Executed(objects, AccessesOf(txn), next, Logic(txn)))
  {
  }

  /** Check and execution together are one step of the serial run, with the assigned
      versions in any order. The items are not declared, so the check does not see
      them; the original relies on every store holding them from the start. */
  method CheckAndExecute(store: ObjectStore, txns: seq<Txn>, i: nat, txn: TpccTransaction, required: seq<ObjectVersion>)
    returns (executed: bool)
    requires i < |txns| && SameObjects(AccessesOf(txn), txns[i].inputs) && txns[i].run == Logic(txn)
    requires Forwarder.ListsOnce(required, Required(txns, i))
    requires WellTyped(store.objects) && ItemsPresent(store.objects.Keys, txn)
    modifies store
    ensures store.objects == SerialStep(txns, old(store.objects), i)
    ensures executed <==> SerialMatch(txns, old(store.objects), i)
    ensures WellTyped(store.objects) && ItemsPresent(store.objects.Keys, txn)
  {
    ghost var before := store.objects;
    var inputs := AccessSet(txn);
    CheckIsSerialMatch(txns, before, i, inputs, required);
    if !txns[i].verified {
      return false;
    }
    executed := store.PreExecuteCheck(inputs, required);
    if executed {
      AccessesAreReads(txn);
      executed := Execute(store, txn, inputs, required);
      ghost var next :| Forwarder.IsNextOfList(required, next) &&
        store.objects == Executed(before, inputs, next, Logic(txn));
      ExecutorNextIsAssigned(txns, i, required, next);
      ExecutedSameObjects(before, inputs, txns[i].inputs, next, Logic(txn));
      ExecutionKeepsKinds(before, txn, next);
    }
  }
}
