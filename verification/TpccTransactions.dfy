/** TPC-C transactions, their access patterns and their business logic, as functions
    of one object's content: clauses 2.4.2.2 and 3.3.2.1 of the TPC-C Standard
    Specification are proved from these. */
module TpccTransactions {
  import opened Types

  datatype OrderItem = OrderItem(i_id: nat, supply_w_id: nat, quantity: nat)

  datatype TpccTransaction =
    | NewOrder(w_id: nat, d_id: nat, c_id: nat, items: seq<OrderItem>)
    | Payment(w_id: nat, d_id: nat, c_w_id: nat, c_d_id: nat, c_id: nat, h_amount: int)

  // ------------------------------------------------- access patterns

  function StockOfLine(line: OrderItem): ObjectId
  {
    StockId(line.supply_w_id, line.i_id)
  }

  function StocksOf(items: seq<OrderItem>): (ids: seq<ObjectId>)
    ensures |ids| == |items|
  {
    seq(|items|, n requires 0 <= n < |items| => StockOfLine(items[n]))
  }

  function ReadsOf(txn: TpccTransaction): seq<ObjectId>
  {
    match txn
    case NewOrder(w, d, c, items) => [WarehouseId(w), DistrictId(w, d), CustomerId(w, d, c)] + StocksOf(items)
    case Payment(w, d, cw, cd, c, _) => [WarehouseId(w), DistrictId(w, d), CustomerId(cw, cd, c)]
  }

  function WritesOf(txn: TpccTransaction): seq<ObjectId>
  {
    match txn
    case NewOrder(w, d, c, items) => [DistrictId(w, d)] + StocksOf(items)
    case Payment(w, d, cw, cd, c, _) => [WarehouseId(w), DistrictId(w, d), CustomerId(cw, cd, c)]
  }

  /** The identifiers in the order of their first occurrence, each once. */
  function Dedup(ids: seq<ObjectId>): seq<ObjectId>
  {
    if ids == [] then []
    else
      var last := ids[|ids| - 1]; var before := ids[..|ids| - 1];
      if last in before then Dedup(before) else Dedup(before) + [last]
  }

  /** `o` occurs for the first time at position `n`. */
  predicate FirstAt(ids: seq<ObjectId>, o: ObjectId, n: nat)
  {
    n < |ids| && ids[n] == o && o !in ids[..n]
  }

  /** Deduplication loses no identifier, repeats none, and keeps the order of first occurrences. */
  lemma {:induction false} DedupKeepsFirsts(ids: seq<ObjectId>)
    ensures forall o :: o in Dedup(ids) <==> o in ids
    ensures forall a, b :: 0 <= a < b < |Dedup(ids)| ==> Dedup(ids)[a] != Dedup(ids)[b]
    ensures forall a, b, m: nat, n: nat ::
      0 <= a < b < |Dedup(ids)| && FirstAt(ids, Dedup(ids)[a], m) && FirstAt(ids, Dedup(ids)[b], n) ==> m < n
  {
    if ids != [] {
      var before, last := ids[..|ids| - 1], ids[|ids| - 1];
      DedupKeepsFirsts(before);
      assert ids == before + [last];
      forall o, n: nat | FirstAt(ids, o, n) && o in before ensures FirstAt(before, o, n) {
        var k :| 0 <= k < |before| && before[k] == o;
        assert forall m :: 0 <= m < n ==> ids[..n][m] == ids[m] != o;
        assert ids[k] == o;
        assert ids[..n] == before[..n];
      }
      forall a, b, m: nat, n: nat
        | 0 <= a < b < |Dedup(ids)| && FirstAt(ids, Dedup(ids)[a], m) && FirstAt(ids, Dedup(ids)[b], n)
        ensures m < n
      {
        assert Dedup(ids)[a] == Dedup(before)[a] && Dedup(ids)[a] in before;
        assert FirstAt(before, Dedup(ids)[a], m);
        if b < |Dedup(before)| {
          assert Dedup(ids)[b] == Dedup(before)[b] && Dedup(ids)[b] in before;
          assert FirstAt(before, Dedup(ids)[b], n);
        } else {
          assert Dedup(ids)[b] == last && last !in before;
        }
      }
    }
  }

  function AccessesOf(txn: TpccTransaction): seq<ObjectId>
  {
    Dedup(ReadsOf(txn) + WritesOf(txn))
  }

  /** The access set is the read set: whatever is written is also read, and no object
      is declared twice. */
  lemma {:induction false} AccessesAreReads(txn: TpccTransaction)
    ensures forall o :: o in WritesOf(txn) ==> o in ReadsOf(txn)
    ensures forall o :: o in AccessesOf(txn) <==> o in ReadsOf(txn)
    ensures forall a, b :: 0 <= a < b < |AccessesOf(txn)| ==> AccessesOf(txn)[a] != AccessesOf(txn)[b]
  {
    DedupKeepsFirsts(ReadsOf(txn) + WritesOf(txn));
  }

  method ReadSet(txn: TpccTransaction) returns (ids: seq<ObjectId>)
    ensures ids == ReadsOf(txn)
    ensures ids[..3] == [WarehouseId(txn.w_id), DistrictId(txn.w_id, txn.d_id),
                if txn.NewOrder? then CustomerId(txn.w_id, txn.d_id, txn.c_id)
                else CustomerId(txn.c_w_id, txn.c_d_id, txn.c_id)]
    ensures |ids| == 3 + if txn.NewOrder? then |txn.items| else 0
    ensures txn.NewOrder? ==> forall n :: 0 <= n < |txn.items| ==>
              ids[3 + n] == StockId(txn.items[n].supply_w_id, txn.items[n].i_id)
  {
    match txn
    case NewOrder(w, d, c, items) =>
      ids := [WarehouseId(w), DistrictId(w, d), CustomerId(w, d, c)];
      var n := 0;
      while n < |items|
        invariant 0 <= n <= |items|
        invariant ids == [WarehouseId(w), DistrictId(w, d), CustomerId(w, d, c)] + StocksOf(items)[..n]
      {
        ids := ids + [StockId(items[n].supply_w_id, items[n].i_id)];
        n := n + 1;
      }
    case Payment(w, d, cw, cd, c, _) =>
      ids := [WarehouseId(w), DistrictId(w, d), CustomerId(cw, cd, c)];
  }

  method WriteSet(txn: TpccTransaction) returns (writes: seq<ObjectId>)
    ensures writes == WritesOf(txn)
    ensures txn.Payment? ==> writes == [WarehouseId(txn.w_id), DistrictId(txn.w_id, txn.d_id),
                CustomerId(txn.c_w_id, txn.c_d_id, txn.c_id)]
    ensures txn.NewOrder? ==> |writes| == 1 + |txn.items| && writes[0] == DistrictId(txn.w_id, txn.d_id)
    ensures txn.NewOrder? ==> forall n :: 0 <= n < |txn.items| ==>
              writes[1 + n] == StockId(txn.items[n].supply_w_id, txn.items[n].i_id)
  {
    match txn
    case NewOrder(w, d, _, items) =>
      writes := [DistrictId(w, d)];
      var n := 0;
      while n < |items|
        invariant 0 <= n <= |items|
        invariant writes == [DistrictId(w, d)] + StocksOf(items)[..n]
      {
        writes := writes + [StockId(items[n].supply_w_id, items[n].i_id)];
        n := n + 1;
      }
    case Payment(w, d, cw, cd, c, _) =>
      writes := [WarehouseId(w), DistrictId(w, d), CustomerId(cw, cd, c)];
  }

  lemma {:induction false} DedupOneMore(ids: seq<ObjectId>, n: nat)
    requires n < |ids|
    ensures forall o :: o in ids[..n + 1] <==> o in ids[..n] || o == ids[n]
    ensures Dedup(ids[..n + 1]) == if ids[n] in ids[..n] then Dedup(ids[..n]) else Dedup(ids[..n]) + [ids[n]]
  {
    assert ids[..n + 1] == ids[..n] + [ids[n]];
    assert ids[..n + 1][..n] == ids[..n];
  }

  /** Keeps an identifier only when it has not been seen before. */
  method RetainUnseen(all: seq<ObjectId>) returns (ids: seq<ObjectId>)
    ensures ids == Dedup(all)
  {
    var seen: set<ObjectId> := {};
    ids := [];
    var n := 0;
    while n < |all|
      invariant 0 <= n <= |all|
      invariant forall o :: o in seen <==> o in all[..n]
      invariant ids == Dedup(all[..n])
    {
      DedupOneMore(all, n);
      if all[n] !in seen {
        seen := seen + {all[n]};
        ids := ids + [all[n]];
      }
      n := n + 1;
    }
    assert all[..n] == all;
  }

  method AccessSet(txn: TpccTransaction) returns (ids: seq<ObjectId>)
    ensures ids == AccessesOf(txn)
  {
    var read := ReadSet(txn);
    var written := WriteSet(txn);
    ids := RetainUnseen(read + written);
  }

  // ------------------------------------------------- stock arithmetic

  const MIN_QUANTITY: int := 10
  const MAX_QUANTITY: int := 100

  /** The stock quantity after ordering `quantity` (clause 2.4.2.2). */
  function NextQuantity(stock: int, quantity: nat): int
  {
    if stock >= quantity + 10 then stock - quantity else stock + 91 - quantity
  }

  function AfterLine(s: Stock, quantity: nat, remote: bool): Stock
  {
    Stock(NextQuantity(s.s_quantity, quantity), s.s_ytd + quantity, s.s_order_cnt + 1,
          s.s_remote_cnt + if remote then 1 else 0)
  }

  /** A stock row after the first `n` lines of an order placed at warehouse `w`. */
  function AfterLines(w: nat, items: seq<OrderItem>, id: ObjectId, s: Stock, n: nat): Stock
    requires n <= |items|
  {
    if n == 0 then s
    else
      var before := AfterLines(w, items, id, s, n - 1);
      if StockOfLine(items[n - 1]) == id then AfterLine(before, items[n - 1].quantity, items[n - 1].supply_w_id != w)
      else before
  }

  predicate InRange(quantity: int)
  {
    MIN_QUANTITY <= quantity <= MAX_QUANTITY
  }

  /** One order line keeps every quantity in 10..100 there exactly when it orders at
      most 91; the benchmark orders 1 to 10. */
  lemma {:induction false} LineKeepsRange(quantity: nat)
    ensures (forall stock :: InRange(stock) ==> InRange(NextQuantity(stock, quantity))) <==> quantity <= 91
  {
    if quantity > 91 {
      assert InRange(10) && !InRange(NextQuantity(10, quantity));
    }
  }

  /** A line takes its quantity off the stock if at least 10 remain, and otherwise leaves
      91 more than that, whatever the stock and the quantity. */
  lemma {:induction false} LineRestocks(stock: int, quantity: nat)
    ensures NextQuantity(stock, quantity) - (stock - quantity) in {0, 91}
    ensures NextQuantity(stock, quantity) == stock - quantity <==> stock - quantity >= 10
  {
  }

  /** `q` is what remains of `q0` after ordering `ordered` in all. */
  predicate IsRemainder(q0: int, ordered: int, q: int)
  {
    q == 10 + (q0 - 10 - ordered) % 91
  }

  /** Subtracting a quantity, or restocking by 91 first, is subtraction modulo 91. */
  lemma {:induction false} LineIsSubtraction(q0: int, ordered: int, q: int, quantity: nat)
    requires IsRemainder(q0, ordered, q) && quantity <= 91
    ensures IsRemainder(q0, ordered + quantity, NextQuantity(q, quantity))
  {
  }

  /** How much of row `id` the first `n` lines order. */
  function QuantityOrdered(items: seq<OrderItem>, id: ObjectId, n: nat): nat
    requires n <= |items|
  {
    if n == 0 then 0
    else
      var line := items[n - 1];
      QuantityOrdered(items, id, n - 1) + if id == StockId(line.supply_w_id, line.i_id) then line.quantity else 0
  }

  /** The lines among the first `n` that name row `id`. */
  function LinesNaming(items: seq<OrderItem>, id: ObjectId, n: nat): set<nat>
    requires n <= |items|
  {
    set k: nat | k < n && id == StockId(items[k].supply_w_id, items[k].i_id)
  }

  /** Those that another warehouse than `w` supplies. */
  function RemoteLines(w: nat, items: seq<OrderItem>, id: ObjectId, n: nat): set<nat>
    requires n <= |items|
  {
    set k: nat | k < n && id == StockId(items[k].supply_w_id, items[k].i_id) && items[k].supply_w_id != w
  }

  lemma {:induction false} OneMoreLine(w: nat, items: seq<OrderItem>, id: ObjectId, n: nat)
    requires n < |items|
    ensures var named := id == StockId(items[n].supply_w_id, items[n].i_id);
            && |LinesNaming(items, id, n + 1)| == |LinesNaming(items, id, n)| + (if named then 1 else 0)
            && |RemoteLines(w, items, id, n + 1)|
               == |RemoteLines(w, items, id, n)| + (if named && items[n].supply_w_id != w then 1 else 0)
  {
    var named := id == StockId(items[n].supply_w_id, items[n].i_id);
    SetGains(LinesNaming(items, id, n), LinesNaming(items, id, n + 1), n, named);
    SetGains(RemoteLines(w, items, id, n), RemoteLines(w, items, id, n + 1), n, named && items[n].supply_w_id != w);
  }

  /** An order adds to a stock row's counters what its lines say: the quantities, the
      number of lines and the number of remote lines that name the row. */
  lemma {:induction false} OrderIsCounted(w: nat, items: seq<OrderItem>, id: ObjectId, s: Stock, n: nat)
    requires n <= |items|
    ensures var t := AfterLines(w, items, id, s, n);
            && t.s_ytd == s.s_ytd + QuantityOrdered(items, id, n)
            && t.s_order_cnt == s.s_order_cnt + |LinesNaming(items, id, n)|
            && t.s_remote_cnt == s.s_remote_cnt + |RemoteLines(w, items, id, n)|
  {
    if n > 0 {
      OrderIsCounted(w, items, id, s, n - 1);
      OneMoreLine(w, items, id, n - 1);
    }
  }

  /** The lines of one order keep the relation between what was ordered and what remains. */
  lemma {:induction false} LinesAreSubtraction(w: nat, items: seq<OrderItem>, id: ObjectId, s: Stock, n: nat, q0: int,
      ordered: int)
    requires n <= |items| && forall k :: 0 <= k < n ==> items[k].quantity <= 91
    requires IsRemainder(q0, ordered, s.s_quantity)
    ensures var t := AfterLines(w, items, id, s, n);
            IsRemainder(q0, ordered + QuantityOrdered(items, id, n), t.s_quantity) && InRange(t.s_quantity)
  {
    if n > 0 {
      LinesAreSubtraction(w, items, id, s, n - 1, q0, ordered);
      if StockOfLine(items[n - 1]) == id {
        var before := AfterLines(w, items, id, s, n - 1);
        LineIsSubtraction(q0, ordered + QuantityOrdered(items, id, n - 1), before.s_quantity, items[n - 1].quantity);
      }
    }
  }

  /** Orders of the same total quantity leave the same stock, however they are split
      into lines and in whatever order the lines come. */
  lemma {:induction false} SameTotalSameQuantity(w: nat, a: seq<OrderItem>, b: seq<OrderItem>, id: ObjectId, s: Stock)
    requires InRange(s.s_quantity)
    requires forall k :: 0 <= k < |a| ==> a[k].quantity <= 91
    requires forall k :: 0 <= k < |b| ==> b[k].quantity <= 91
    requires QuantityOrdered(a, id, |a|) == QuantityOrdered(b, id, |b|)
    ensures AfterLines(w, a, id, s, |a|).s_quantity == AfterLines(w, b, id, s, |b|).s_quantity
  {
    LinesAreSubtraction(w, a, id, s, |a|, s.s_quantity, 0);
    LinesAreSubtraction(w, b, id, s, |b|, s.s_quantity, 0);
  }

  // ------------------------------------------------- business logic

  /** The content that `txn` gives to `o`, in terms of the contents it declares. */
  function Outcome(txn: TpccTransaction, o: ObjectId, contents: map<ObjectId, Content>): Content
  {
    if o !in contents then CoinOf(0) else OutcomeOf(txn, o, contents[o])
  }

  /** That content depends on the object's own previous content only. */
  function OutcomeOf(txn: TpccTransaction, o: ObjectId, was: Content): Content
  {
    match txn
    case NewOrder(w, d, _, items) =>
      if o == DistrictId(w, d) && was.DistrictOf? then
        DistrictOf(was.district.(d_next_o_id := was.district.d_next_o_id + 1))
      else if o.StockId? && was.StockOf? then
        StockOf(AfterLines(w, items, o, was.stock, |items|))
      else was
    case Payment(w, d, cw, cd, c, amount) =>
      if o == WarehouseId(w) && was.WarehouseOf? then
        WarehouseOf(was.warehouse.(w_ytd := was.warehouse.w_ytd + amount))
      else if o == DistrictId(w, d) && was.DistrictOf? then
        DistrictOf(was.district.(d_ytd := was.district.d_ytd + amount))
      else if o == CustomerId(cw, cd, c) && was.CustomerOf? then
        CustomerOf(was.customer.(
          c_balance := was.customer.c_balance - amount,
          c_ytd_payment := was.customer.c_ytd_payment + amount,
          c_payment_cnt := was.customer.c_payment_cnt + 1))
      else was
  }

  lemma {:induction false} UnorderedStockStays(w: nat, items: seq<OrderItem>, id: ObjectId, s: Stock, n: nat)
    requires n <= |items| && forall k :: 0 <= k < n ==> StockOfLine(items[k]) != id
    ensures AfterLines(w, items, id, s, n) == s
  {
    if n > 0 {
      UnorderedStockStays(w, items, id, s, n - 1);
    }
  }

  /** Only objects of the write set change. */
  lemma {:induction false} OnlyWritesChange(txn: TpccTransaction, o: ObjectId, was: Content)
    requires o !in WritesOf(txn)
    ensures OutcomeOf(txn, o, was) == was
  {
    if txn.NewOrder? && o.StockId? && was.StockOf? {
      forall k | 0 <= k < |txn.items| ensures StockOfLine(txn.items[k]) != o {
        assert StocksOf(txn.items)[k] == StockOfLine(txn.items[k]);
      }
      UnorderedStockStays(txn.w_id, txn.items, o, was.stock, |txn.items|);
    }
  }
}
