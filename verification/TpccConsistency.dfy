/** Consistency of the TPC-C database over whole runs: the warehouse and district
    totals of clause 3.3.2.1 of the TPC-C Standard Specification, customer balances,
    conservation of money, and the closed form of the stock of clause 2.4.2.2; in the
    serial run, and in what the proxies hold when a distributed run is complete. */
module TpccConsistency {
  import opened Types
  import opened Protocol
  import opened ProtocolInvariant
  import opened SerialExecution
  import opened Determinism
  import opened TpccTransactions
  import opened TpccExecutor
  import opened Executor
  import opened ProtocolKeeps

  type Database = map<ObjectId, Content>

  predicate Typed(db: Database)
  {
    forall o :: o in db ==> RightKind(o, db[o])
  }

  /** The database after `txn`. */
  function Applied(db: Database, txn: TpccTransaction): Database
  {
    map o | o in db :: OutcomeOf(txn, o, db[o])
  }

  predicate RowsPresent(db: Database, txn: TpccTransaction)
  {
    forall o :: o in ReadsOf(txn) ==> o in db
  }

  lemma {:induction false} AppliedKeepsKinds(db: Database, txn: TpccTransaction)
    requires Typed(db)
    ensures Typed(Applied(db, txn)) && Applied(db, txn).Keys == db.Keys
  {
  }

  // ------------------------------------------------- sums over rows

  /** The amount paid in that a row records. */
  function Paid(c: Content): int
  {
    match c
    case WarehouseOf(w) => w.w_ytd
    case DistrictOf(d) => d.d_ytd
    case CustomerOf(c) => c.c_ytd_payment
    case _ => 0
  }

  ghost function Total(keys: set<ObjectId>, db: Database): int
    requires keys <= db.Keys
  {
    if keys == {} then 0
    else
      var k :| k in keys;
      Paid(db[k]) + Total(keys - {k}, db)
  }

  lemma {:induction false} TotalRemove(keys: set<ObjectId>, db: Database, k: ObjectId)
    requires keys <= db.Keys && k in keys
    ensures Total(keys, db) == Paid(db[k]) + Total(keys - {k}, db)
  {
    var first :| first in keys && Total(keys, db) == Paid(db[first]) + Total(keys - {first}, db);
    if first != k {
      TotalRemove(keys - {first}, db, k);
      TotalRemove(keys - {k}, db, first);
      assert keys - {first} - {k} == keys - {k} - {first};
    }
  }

  /** When no amount changes, no total does. */
  lemma {:induction false} TotalSame(keys: set<ObjectId>, db: Database, db': Database)
    requires keys <= db.Keys && keys <= db'.Keys && forall k :: k in keys ==> Paid(db'[k]) == Paid(db[k])
    ensures Total(keys, db') == Total(keys, db)
  {
    if keys != {} {
      var k :| k in keys;
      TotalRemove(keys, db, k);
      TotalRemove(keys, db', k);
      TotalSame(keys - {k}, db, db');
    }
  }

  /** When one row's amount changes, the total changes by as much. */
  lemma {:induction false} TotalChange(keys: set<ObjectId>, db: Database, db': Database, k: ObjectId, amount: int)
    requires keys <= db.Keys && keys <= db'.Keys && k in keys && Paid(db'[k]) == Paid(db[k]) + amount
    requires forall o :: o in keys && o != k ==> Paid(db'[o]) == Paid(db[o])
    ensures Total(keys, db') == Total(keys, db) + amount
  {
    TotalRemove(keys, db, k);
    TotalRemove(keys, db', k);
    TotalSame(keys - {k}, db, db');
  }

  lemma {:induction false} TotalConstant(keys: set<ObjectId>, db: Database, amount: int)
    requires keys <= db.Keys && forall k :: k in keys ==> Paid(db[k]) == amount
    ensures Total(keys, db) == |keys| * amount
  {
    if keys != {} {
      var k :| k in keys;
      TotalRemove(keys, db, k);
      TotalConstant(keys - {k}, db, amount);
    }
  }

  // ------------------------------------------------- consistency

  function DistrictsOf(db: Database, w: nat): set<ObjectId>
  {
    set o | o in db && o.DistrictId? && o.w == w
  }

  function Warehouses(db: Database): set<ObjectId>
  {
    set o | o in db && o.WarehouseId?
  }

  function Customers(db: Database): set<ObjectId>
  {
    set o | o in db && o.CustomerId?
  }

  /** A warehouse has been paid what its districts have been paid. */
  ghost predicate WarehouseBalances(db: Database, w: nat)
  {
    WarehouseId(w) in db ==> Paid(db[WarehouseId(w)]) == Total(DistrictsOf(db, w), db)
  }

  /** A customer owes the negative of what it has paid. */
  predicate CustomerBalances(db: Database, o: ObjectId)
  {
    o in db && db[o].CustomerOf? ==> db[o].customer.c_balance == -db[o].customer.c_ytd_payment
  }

  ghost predicate Consistent(db: Database)
  {
    && Typed(db)
    && (forall w: nat :: WarehouseBalances(db, w))
    && (forall o :: CustomerBalances(db, o))
  }

  /** Money received by the warehouses minus money spent by the customers. */
  ghost function Ledger(db: Database): int
  {
    Total(Warehouses(db), db) - Total(Customers(db), db)
  }

  lemma {:induction false} NewOrderPaysNothing(db: Database, txn: TpccTransaction, keys: set<ObjectId>)
    requires Typed(db) && txn.NewOrder? && keys <= db.Keys
    ensures Total(keys, Applied(db, txn)) == Total(keys, db)
  {
    TotalSame(keys, db, Applied(db, txn));
  }

  /** A payment of `amount` raises by `amount` the total of any set of rows that holds
      exactly one of the three rows it touches. */
  lemma {:induction false} PaymentPaysOnce(db: Database, txn: TpccTransaction, keys: set<ObjectId>, k: ObjectId)
    requires Typed(db) && RowsPresent(db, txn) && txn.Payment? && keys <= db.Keys && k in keys && k in WritesOf(txn)
    requires forall o :: o in keys && o in WritesOf(txn) ==> o == k
    ensures Total(keys, Applied(db, txn)) == Total(keys, db) + txn.h_amount
  {
    var writes := WritesOf(txn);
    assert writes[0] in writes && writes[1] in writes && writes[2] in writes;
    TotalChange(keys, db, Applied(db, txn), k, txn.h_amount);
  }

  lemma {:induction false} PaymentElsewhere(db: Database, txn: TpccTransaction, keys: set<ObjectId>)
    requires Typed(db) && txn.Payment? && keys <= db.Keys && forall o :: o in keys ==> o !in WritesOf(txn)
    ensures Total(keys, Applied(db, txn)) == Total(keys, db)
  {
    forall k | k in keys ensures Applied(db, txn)[k] == db[k] {
      OnlyWritesChange(txn, k, db[k]);
    }
    TotalSame(keys, db, Applied(db, txn));
  }

  lemma {:induction false} WarehouseStaysBalanced(db: Database, txn: TpccTransaction, w: nat)
    requires Typed(db) && RowsPresent(db, txn) && WarehouseBalances(db, w)
    ensures WarehouseBalances(Applied(db, txn), w)
  {
    var districts := DistrictsOf(db, w);
    assert DistrictsOf(Applied(db, txn), w) == districts;
    if txn.NewOrder? {
      NewOrderPaysNothing(db, txn, districts);
    } else if txn.w_id == w {
      assert WritesOf(txn)[1] == DistrictId(w, txn.d_id);
      PaymentPaysOnce(db, txn, districts, DistrictId(w, txn.d_id));
    } else {
      PaymentElsewhere(db, txn, districts);
    }
  }

  /** Every transaction keeps the database consistent and the ledger as it is. */
  lemma {:induction false} TransactionKeepsConsistency(db: Database, txn: TpccTransaction)
    requires Consistent(db) && RowsPresent(db, txn)
    ensures Consistent(Applied(db, txn)) && Ledger(Applied(db, txn)) == Ledger(db)
  {
    AppliedKeepsKinds(db, txn);
    forall w: nat ensures WarehouseBalances(Applied(db, txn), w) {
      WarehouseStaysBalanced(db, txn, w);
    }
    forall o ensures CustomerBalances(Applied(db, txn), o) {
      assert CustomerBalances(db, o);
    }
    assert Warehouses(Applied(db, txn)) == Warehouses(db) && Customers(Applied(db, txn)) == Customers(db);
    if txn.NewOrder? {
      NewOrderPaysNothing(db, txn, Warehouses(db));
      NewOrderPaysNothing(db, txn, Customers(db));
    } else {
      assert WritesOf(txn)[0] == WarehouseId(txn.w_id);
      assert WritesOf(txn)[2] == CustomerId(txn.c_w_id, txn.c_d_id, txn.c_id);
      PaymentPaysOnce(db, txn, Warehouses(db), WarehouseId(txn.w_id));
      PaymentPaysOnce(db, txn, Customers(db), CustomerId(txn.c_w_id, txn.c_d_id, txn.c_id));
    }
  }

  // ------------------------------------------------- what transactions ask for

  /** A PAYMENT names row `o` as its warehouse, its district or its customer. */
  predicate Pays(txn: TpccTransaction, o: ObjectId)
  {
    && txn.Payment?
    && match o
       case WarehouseId(w) => w == txn.w_id
       case DistrictId(w, d) => w == txn.w_id && d == txn.d_id
       case CustomerId(w, d, c) => w == txn.c_w_id && d == txn.c_d_id && c == txn.c_id
       case _ => false
  }

  /** A NEW_ORDER is placed in district `o`. */
  predicate Orders(txn: TpccTransaction, o: ObjectId)
  {
    txn.NewOrder? && o == DistrictId(txn.w_id, txn.d_id)
  }

  /** What transactions add to a row: the amount paid, the number of payments, the number
      of orders placed, the quantity ordered, the order lines and the remote ones. */
  datatype Figures = Figures(paid: int, payments: nat, orders: nat, ordered: nat, lines: nat, remote: nat)

  /** What `txn` asks to add to row `o`. */
  function FiguresOf(txn: TpccTransaction, o: ObjectId): Figures
  {
    match txn
    case Payment(_, _, _, _, _, amount) =>
      if Pays(txn, o) then Figures(amount, 1, 0, 0, 0, 0) else Figures(0, 0, 0, 0, 0, 0)
    case NewOrder(w, d, _, items) =>
      Figures(0, 0, if o == DistrictId(w, d) then 1 else 0, QuantityOrdered(items, o, |items|),
              |LinesNaming(items, o, |items|)|, |RemoteLines(w, items, o, |items|)|)
  }

  function Plus(a: Figures, b: Figures): Figures
  {
    Figures(a.paid + b.paid, a.payments + b.payments, a.orders + b.orders, a.ordered + b.ordered, a.lines + b.lines,
            a.remote + b.remote)
  }

  /** What the executed ones of the first `n` transactions ask to add to row `o`. */
  function FiguresOver(tpcc: seq<TpccTransaction>, executed: seq<bool>, n: nat, o: ObjectId): Figures
    requires n <= |tpcc| == |executed|
  {
    if n == 0 then Figures(0, 0, 0, 0, 0, 0)
    else
      var before := FiguresOver(tpcc, executed, n - 1, o);
      if executed[n - 1] then Plus(before, FiguresOf(tpcc[n - 1], o)) else before
  }

  // ------------------------------------------------- stock

  /** Stock row `o` of `db` is what remains of its row in `start` after `ordered`. */
  predicate StockInStep(start: Database, db: Database, o: ObjectId, ordered: int)
  {
    o in db && o.StockId? && db[o].StockOf? && o in start && start[o].StockOf? ==>
      && IsRemainder(start[o].stock.s_quantity, ordered, db[o].stock.s_quantity)
      && InRange(db[o].stock.s_quantity)
  }

  /** No order line asks for more than 91. */
  predicate ModestOrder(txn: TpccTransaction)
  {
    txn.NewOrder? ==> forall k :: 0 <= k < |txn.items| ==> txn.items[k].quantity <= 91
  }

  lemma {:induction false} TransactionKeepsStock(start: Database, db: Database, db': Database, txn: TpccTransaction,
      o: ObjectId, ordered: int)
    requires Typed(db) && ModestOrder(txn) && StockInStep(start, db, o, ordered) && db' == Applied(db, txn)
    ensures Typed(db') && StockInStep(start, db', o, ordered + FiguresOf(txn, o).ordered)
  {
    AppliedKeepsKinds(db, txn);
    if o in db && o.StockId? && txn.NewOrder? && o in start && start[o].StockOf? {
      LinesAreSubtraction(txn.w_id, txn.items, o, db[o].stock, |txn.items|, start[o].stock.s_quantity, ordered);
    }
  }

  // ------------------------------------------------- whole runs of the database

  predicate IsDatabaseStep(db: Database, db': Database, txn: TpccTransaction, executed: bool)
  {
    if executed then RowsPresent(db, txn) && db' == Applied(db, txn) else db' == db
  }

  /** `dbs` is what the database goes through when the transactions `tpcc` are taken
      in order and each one is executed or skipped as `executed` says. */
  ghost predicate IsDatabaseRun(tpcc: seq<TpccTransaction>, executed: seq<bool>, dbs: seq<Database>)
  {
    && |executed| == |tpcc| && |dbs| == |tpcc| + 1
    && forall i :: 0 <= i < |tpcc| ==> IsDatabaseStep(dbs[i], dbs[i + 1], tpcc[i], executed[i])
  }

  /** In every run, whichever transactions are skipped, the database stays consistent
      and no money appears or vanishes. */
  lemma {:induction false} RunIsConsistent(tpcc: seq<TpccTransaction>, executed: seq<bool>, dbs: seq<Database>, n: nat)
    requires IsDatabaseRun(tpcc, executed, dbs) && Consistent(dbs[0]) && n < |dbs|
    ensures Consistent(dbs[n]) && Ledger(dbs[n]) == Ledger(dbs[0]) && dbs[n].Keys == dbs[0].Keys
  {
    if n > 0 {
      RunIsConsistent(tpcc, executed, dbs, n - 1);
      assert IsDatabaseStep(dbs[n - 1], dbs[n - 1 + 1], tpcc[n - 1], executed[n - 1]);
      if executed[n - 1] {
        TransactionKeepsConsistency(dbs[n - 1], tpcc[n - 1]);
      }
    }
  }

  /** In every run each stock quantity stays in 10..100 and equals
      10 + (q0 - 10 - ordered) mod 91, where `ordered` is what the lines of the executed
      orders ask for in all. */
  lemma {:induction false} StockClosedForm(tpcc: seq<TpccTransaction>, executed: seq<bool>, dbs: seq<Database>, n: nat,
      o: ObjectId)
    requires IsDatabaseRun(tpcc, executed, dbs) && Typed(dbs[0]) && n < |dbs|
    requires forall i :: 0 <= i < |tpcc| ==> ModestOrder(tpcc[i])
    requires StockInStep(dbs[0], dbs[0], o, 0)
    ensures Typed(dbs[n]) && StockInStep(dbs[0], dbs[n], o, FiguresOver(tpcc, executed, n, o).ordered)
  {
    if n > 0 {
      StockClosedForm(tpcc, executed, dbs, n - 1, o);
      assert IsDatabaseStep(dbs[n - 1], dbs[n - 1 + 1], tpcc[n - 1], executed[n - 1]);
      if executed[n - 1] {
        var ordered := FiguresOver(tpcc, executed, n - 1, o).ordered;
        TransactionKeepsStock(dbs[0], dbs[n - 1], dbs[n], tpcc[n - 1], o, ordered);
      }
    }
  }

  // ------------------------------------------------- every row's figures over a run

  /** Row `now` is row `was` with `f` added to its figures and nothing else changed,
      except the quantity in stock, which has a closed form of its own. */
  predicate Grew(was: Content, now: Content, f: Figures)
  {
    match was
    case WarehouseOf(r) => now == WarehouseOf(r.(w_ytd := r.w_ytd + f.paid))
    case DistrictOf(r) => now == DistrictOf(r.(d_ytd := r.d_ytd + f.paid, d_next_o_id := r.d_next_o_id + f.orders))
    case CustomerOf(r) =>
      now == CustomerOf(r.(c_balance := r.c_balance - f.paid, c_ytd_payment := r.c_ytd_payment + f.paid,
                           c_payment_cnt := r.c_payment_cnt + f.payments))
    case StockOf(r) =>
      && now.StockOf?
      && now.stock.(s_quantity := r.s_quantity)
         == r.(s_ytd := r.s_ytd + f.ordered, s_order_cnt := r.s_order_cnt + f.lines,
               s_remote_cnt := r.s_remote_cnt + f.remote)
    case _ => now == was
  }

  lemma {:induction false} RowGrows(txn: TpccTransaction, o: ObjectId, was: Content)
    requires RightKind(o, was)
    ensures RightKind(o, OutcomeOf(txn, o, was)) && Grew(was, OutcomeOf(txn, o, was), FiguresOf(txn, o))
  {
    if txn.NewOrder? && o.StockId? {
      OrderIsCounted(txn.w_id, txn.items, o, was.stock, |txn.items|);
    }
  }

  lemma {:induction false} GrewTwice(a: Content, b: Content, c: Content, f: Figures, g: Figures)
    requires Grew(a, b, f) && Grew(b, c, g)
    ensures Grew(a, c, Plus(f, g))
  {
  }

  /** Over every run, whichever transactions are skipped, each row grows by exactly what
      the executed transactions that name it ask for, and keeps everything else. */
  lemma {:induction false} RowsGrowAsAsked(tpcc: seq<TpccTransaction>, executed: seq<bool>, dbs: seq<Database>, n: nat,
      o: ObjectId)
    requires IsDatabaseRun(tpcc, executed, dbs) && n < |dbs| && o in dbs[0] && RightKind(o, dbs[0][o])
    ensures o in dbs[n] && RightKind(o, dbs[n][o]) && Grew(dbs[0][o], dbs[n][o], FiguresOver(tpcc, executed, n, o))
  {
    if n > 0 {
      RowsGrowAsAsked(tpcc, executed, dbs, n - 1, o);
      assert IsDatabaseStep(dbs[n - 1], dbs[n - 1 + 1], tpcc[n - 1], executed[n - 1]);
      if executed[n - 1] {
        RowGrows(tpcc[n - 1], o, dbs[n - 1][o]);
        var before := FiguresOver(tpcc, executed, n - 1, o);
        GrewTwice(dbs[0][o], dbs[n - 1][o], dbs[n][o], before, FiguresOf(tpcc[n - 1], o));
      }
    }
  }

  /** The executed ones of the first `n` transactions that are NEW_ORDERs for district `o`. */
  function OrdersPlaced(tpcc: seq<TpccTransaction>, executed: seq<bool>, n: nat, o: ObjectId): set<nat>
    requires n <= |tpcc| == |executed|
  {
    set i: nat | i < n && executed[i] && Orders(tpcc[i], o)
  }

  /** The executed ones of the first `n` transactions that are PAYMENTs naming row `o`. */
  function PaymentsMade(tpcc: seq<TpccTransaction>, executed: seq<bool>, n: nat, o: ObjectId): set<nat>
    requires n <= |tpcc| == |executed|
  {
    set i: nat | i < n && executed[i] && Pays(tpcc[i], o)
  }

  lemma {:induction false} OneMoreOrder(tpcc: seq<TpccTransaction>, executed: seq<bool>, n: nat, o: ObjectId)
    requires n < |tpcc| == |executed|
    ensures |OrdersPlaced(tpcc, executed, n + 1, o)|
            == |OrdersPlaced(tpcc, executed, n, o)| + if executed[n] && Orders(tpcc[n], o) then 1 else 0
  {
    SetGains(OrdersPlaced(tpcc, executed, n, o), OrdersPlaced(tpcc, executed, n + 1, o),
      n, executed[n] && Orders(tpcc[n], o));
  }

  lemma {:induction false} OneMorePayment(tpcc: seq<TpccTransaction>, executed: seq<bool>, n: nat, o: ObjectId)
    requires n < |tpcc| == |executed|
    ensures |PaymentsMade(tpcc, executed, n + 1, o)|
            == |PaymentsMade(tpcc, executed, n, o)| + if executed[n] && Pays(tpcc[n], o) then 1 else 0
  {
    SetGains(PaymentsMade(tpcc, executed, n, o), PaymentsMade(tpcc, executed, n + 1, o),
      n, executed[n] && Pays(tpcc[n], o));
  }

  lemma {:induction false} FiguresCount(tpcc: seq<TpccTransaction>, executed: seq<bool>, n: nat, o: ObjectId)
    requires n <= |tpcc| == |executed|
    ensures FiguresOver(tpcc, executed, n, o).orders == |OrdersPlaced(tpcc, executed, n, o)|
    ensures FiguresOver(tpcc, executed, n, o).payments == |PaymentsMade(tpcc, executed, n, o)|
  {
    if n > 0 {
      FiguresCount(tpcc, executed, n - 1, o);
      OneMoreOrder(tpcc, executed, n - 1, o);
      OneMorePayment(tpcc, executed, n - 1, o);
    }
  }

  /** Order numbers are handed out without gaps: a district's next order number has
      advanced by exactly the number of its executed NEW_ORDERs. */
  lemma {:induction false} OrderNumbersHaveNoGaps(tpcc: seq<TpccTransaction>, executed: seq<bool>, dbs: seq<Database>,
      n: nat, o: ObjectId)
    requires IsDatabaseRun(tpcc, executed, dbs) && n < |dbs| && o in dbs[0] && o.DistrictId? && dbs[0][o].DistrictOf?
    ensures o in dbs[n] && dbs[n][o].DistrictOf?
    ensures dbs[n][o].district.d_next_o_id == dbs[0][o].district.d_next_o_id + |OrdersPlaced(tpcc, executed, n, o)|
  {
    RowsGrowAsAsked(tpcc, executed, dbs, n, o);
    FiguresCount(tpcc, executed, n, o);
  }

  /** A customer's payment count has advanced by exactly the number of executed PAYMENTs
      that name the customer. */
  lemma {:induction false} PaymentsAreCounted(tpcc: seq<TpccTransaction>, executed: seq<bool>, dbs: seq<Database>,
      n: nat, o: ObjectId)
    requires IsDatabaseRun(tpcc, executed, dbs) && n < |dbs| && o in dbs[0] && o.CustomerId? && dbs[0][o].CustomerOf?
    ensures o in dbs[n] && dbs[n][o].CustomerOf?
    ensures dbs[n][o].customer.c_payment_cnt
            == dbs[0][o].customer.c_payment_cnt + |PaymentsMade(tpcc, executed, n, o)|
  {
    RowsGrowAsAsked(tpcc, executed, dbs, n, o);
    FiguresCount(tpcc, executed, n, o);
  }

  // ------------------------------------------------- the serial run

  /** `txn`, as committed, declares the accesses of `t` in some order and runs its
      logic, and the items it names exist. */
  ghost predicate Commits(txn: Txn, t: TpccTransaction, init: Database)
  {
    SameObjects(AccessesOf(t), txn.inputs) && txn.run == Logic(t) && ItemsPresent(init.Keys, t)
  }

  /** `w` commits the TPC-C transactions `tpcc`, on a database of the right kinds. */
  ghost predicate IsTpcc(w: Workload, tpcc: seq<TpccTransaction>)
  {
    && |tpcc| == |w.txns| && Typed(w.init)
    && forall i :: 0 <= i < |tpcc| ==> Commits(w.txns[i], tpcc[i], w.init)
  }

  function ContentsOf(objects: map<ObjectId, Object>): Database
  {
    map o | o in objects :: objects[o].content
  }

  /** What the executor commits for one object is the transaction applied to it. */
  lemma {:induction false} ExecutionAppliesAt(objects: map<ObjectId, Object>, txn: TpccTransaction, next: Version,
      o: ObjectId)
    requires o in objects && forall o :: o in AccessesOf(txn) ==> o in objects
    ensures o in Executed(objects, AccessesOf(txn), next, Logic(txn))
    ensures Executed(objects, AccessesOf(txn), next, Logic(txn))[o].content == OutcomeOf(txn, o, objects[o].content)
  {
    AccessesAreReads(txn);
    if o !in AccessesOf(txn) {
      OnlyWritesChange(txn, o, objects[o].content);
    }
  }

  /** What the executor commits is the transaction applied to the database. */
  lemma {:induction false} ExecutionApplies(objects: map<ObjectId, Object>, txn: TpccTransaction, next: Version)
    requires forall o :: o in AccessesOf(txn) ==> o in objects
    ensures RowsPresent(ContentsOf(objects), txn)
    ensures ContentsOf(Executed(objects, AccessesOf(txn), next, Logic(txn))) == Applied(ContentsOf(objects), txn)
  {
    AccessesAreReads(txn);
    var after := Executed(objects, AccessesOf(txn), next, Logic(txn));
    assert after.Keys == objects.Keys;
    forall o | o in objects ensures after[o].content == OutcomeOf(txn, o, objects[o].content) {
      ExecutionAppliesAt(objects, txn, next, o);
    }
  }

  lemma {:induction false} SerialStepApplies(w: Workload, tpcc: seq<TpccTransaction>, store: map<ObjectId, Object>,
      i: nat)
    requires IsTpcc(w, tpcc) && i < |w.txns|
    ensures IsDatabaseStep(ContentsOf(store), ContentsOf(SerialStep(w.txns, store, i)),
        tpcc[i], SerialMatch(w.txns, store, i))
  {
    if SerialMatch(w.txns, store, i) {
      assert Commits(w.txns[i], tpcc[i], w.init);
      ExecutedSameObjects(store, AccessesOf(tpcc[i]), w.txns[i].inputs, Next(w.txns, i), Logic(tpcc[i]));
      ExecutionApplies(store, tpcc[i], Next(w.txns, i));
    }
  }

  function SerialDatabase(w: Workload, n: nat): Database
    requires n <= |w.txns|
  {
    ContentsOf(SerialStore(w.txns, w.init, n))
  }

  lemma {:induction false} SerialDatabaseStart(w: Workload)
    ensures SerialDatabase(w, 0) == w.init
  {
    var db := SerialDatabase(w, 0);
    assert forall o :: (o in db <==> o in w.init) && (o in db ==> db[o] == w.init[o]);
  }

  lemma {:induction false} SerialDatabaseStep(w: Workload, tpcc: seq<TpccTransaction>, i: nat)
    requires IsTpcc(w, tpcc) && i < |w.txns|
    ensures IsDatabaseStep(SerialDatabase(w, i), SerialDatabase(w, i + 1), tpcc[i], SerialOk(w.txns, w.init, i))
  {
    SerialStepApplies(w, tpcc, SerialStore(w.txns, w.init, i), i);
  }

  lemma {:induction false} SerialDatabasesAreRun(w: Workload, tpcc: seq<TpccTransaction>, executed: seq<bool>,
      dbs: seq<Database>)
    requires IsTpcc(w, tpcc) && |executed| == |tpcc| && |dbs| == |tpcc| + 1
    requires forall n {:trigger dbs[n]} :: 0 <= n <= |tpcc| ==> dbs[n] == SerialDatabase(w, n)
    requires forall i {:trigger executed[i]} :: 0 <= i < |tpcc| ==> executed[i] == SerialOk(w.txns, w.init, i)
    ensures IsDatabaseRun(tpcc, executed, dbs)
  {
    forall i | 0 <= i < |tpcc| ensures IsDatabaseStep(dbs[i], dbs[i + 1], tpcc[i], executed[i]) {
      SerialDatabaseStep(w, tpcc, i);
    }
  }

  /** The serial run of the commit sequence is a run of the database that executes
      exactly the transactions whose check passes. */
  lemma {:induction false} SerialRunIsDatabaseRun(w: Workload, tpcc: seq<TpccTransaction>)
    returns (executed: seq<bool>, dbs: seq<Database>)
    requires IsTpcc(w, tpcc)
    ensures IsDatabaseRun(tpcc, executed, dbs) && dbs[0] == w.init
    ensures forall n {:trigger dbs[n]} :: 0 <= n <= |tpcc| ==> dbs[n] == SerialDatabase(w, n)
    ensures forall i {:trigger executed[i]} :: 0 <= i < |tpcc| ==> executed[i] == SerialOk(w.txns, w.init, i)
  {
    executed := seq(|tpcc|, i requires 0 <= i < |w.txns| => SerialOk(w.txns, w.init, i));
    dbs := seq(|tpcc| + 1, n requires 0 <= n <= |w.txns| => SerialDatabase(w, n));
    SerialDatabaseStart(w);
    SerialDatabasesAreRun(w, tpcc, executed, dbs);
  }

  // ------------------------------------------------- the executors find what they need

  lemma {:induction false} RunKeepsKinds(tpcc: seq<TpccTransaction>, executed: seq<bool>, dbs: seq<Database>, n: nat)
    requires IsDatabaseRun(tpcc, executed, dbs) && Typed(dbs[0]) && n < |dbs|
    ensures Typed(dbs[n])
  {
    if n > 0 {
      RunKeepsKinds(tpcc, executed, dbs, n - 1);
      assert IsDatabaseStep(dbs[n - 1], dbs[n - 1 + 1], tpcc[n - 1], executed[n - 1]);
      AppliedKeepsKinds(dbs[n - 1], tpcc[n - 1]);
    }
  }

  lemma {:induction false} SerialDatabaseIsTyped(w: Workload, tpcc: seq<TpccTransaction>, n: nat)
    requires IsTpcc(w, tpcc) && n <= |w.txns|
    ensures Typed(SerialDatabase(w, n))
  {
    var executed, dbs := SerialRunIsDatabaseRun(w, tpcc);
    RunKeepsKinds(tpcc, executed, dbs, n);
    assert dbs[n] == SerialDatabase(w, n);
  }

  lemma {:induction false} LogicKeepsKind(txn: TpccTransaction, o: ObjectId, contents: map<ObjectId, Content>)
    requires o in contents && RightKind(o, contents[o])
    ensures RightKind(o, Logic(txn)(o, contents))
  {
  }

  /** What a transaction leaves in an object is of the object's kind. */
  lemma {:induction false} OutputIsTyped(w: Workload, tpcc: seq<TpccTransaction>, j: nat, o: ObjectId)
    requires IsTpcc(w, tpcc) && j < |w.txns| && o in w.txns[j].inputs && SerialOk(w.txns, w.init, j)
    ensures RightKind(o, SerialOutput(w.txns, w.init, Slot(j, o)))
  {
    SerialDatabaseIsTyped(w, tpcc, j);
    var store := SerialStore(w.txns, w.init, j);
    assert Commits(w.txns[j], tpcc[j], w.init) && o in store;
    assert SerialDatabase(w, j)[o] == store[o].content;
    LogicKeepsKind(tpcc[j], o, SerialContents(store, w.txns[j].inputs));
  }

  /** Every row in every store, in every reachable state, is of its kind. */
  lemma {:induction false} StoresAreTyped(w: Workload, tpcc: seq<TpccTransaction>, job: Job, ser: Serial, s: State,
      p: ProxyId)
    requires IsTpcc(w, tpcc) && Describes(w, job, ser) && Reachable(job, s)
    ensures WellTyped(LocalStore(s, p))
  {
    DescribedIsExplained(w, job, ser);
    ReachableKeeps(job, ser, s);
    forall o | o in LocalStore(s, p) ensures RightKind(o, LocalStore(s, p)[o].content) {
      LocalStoreAt(s, p, o);
      StoredIsTyped(w, tpcc, job, ser, s, Place(p, o));
    }
  }

  lemma {:induction false} StoredIsTyped(w: Workload, tpcc: seq<TpccTransaction>, job: Job, ser: Serial, s: State,
      place: Place)
    requires IsTpcc(w, tpcc) && Describes(w, job, ser) && Explains(job, ser) && Inv(job, ser, s) && place in s.store
    ensures RightKind(place.o, s.store[place].content)
  {
    assert PlaceInv(job, ser, s, place);
    if !(place.o in job.init && s.store[place] == Object(INITIAL_VERSION, job.init[place.o])) {
      var j: nat :| j in s.done && IsOutput(job, ser, Slot(j, place.o), s.store[place]);
      OutputIsTyped(w, tpcc, j, place.o);
    }
  }

  /** Items are in every store from the start and stay there. */
  lemma {:induction false} ItemsAreStored(w: Workload, tpcc: seq<TpccTransaction>, job: Job, ser: Serial, s: State,
      i: nat, p: ProxyId)
    requires IsTpcc(w, tpcc) && Describes(w, job, ser) && Reachable(job, s) && i < |w.txns| && p < w.proxies
    ensures ItemsPresent(LocalStore(s, p).Keys, tpcc[i])
  {
    DescribedIsExplained(w, job, ser);
    ReachableKeeps(job, ser, s);
    assert Commits(w.txns[i], tpcc[i], w.init);
    if tpcc[i].NewOrder? {
      forall n | 0 <= n < |tpcc[i].items| ensures ItemId(tpcc[i].items[n].i_id) in LocalStore(s, p).Keys {
        var o := ItemId(tpcc[i].items[n].i_id);
        assert o in w.init.Keys && PlaceInv(job, ser, s, Place(p, o));
        LocalStoreAt(s, p, o);
      }
    }
  }

  /** Whenever a proxy executes a TPC-C transaction, its store has every object and item
      the business logic reads, all of the right kinds, so the executor commits; and
      what it commits is what the protocol's execution step commits. */
  lemma {:induction false} ExecutorFindsEverything(w: Workload, tpcc: seq<TpccTransaction>, job: Job, ser: Serial,
      s: State, i: nat)
    requires IsTpcc(w, tpcc) && Describes(w, job, ser) && Reachable(job, s) && Enabled(job, s, Execute(i))
    requires s.checked[i]
    ensures WellTyped(LocalStore(s, w.route[i])) && Present(LocalStore(s, w.route[i]), tpcc[i])
    ensures LocalStore(Apply(job, s, Execute(i)), w.route[i])
            == Executed(LocalStore(s, w.route[i]), AccessesOf(tpcc[i]), Next(w.txns, i), Logic(tpcc[i]))
  {
    var p := w.route[i];
    var local := LocalStore(s, p);
    assert Commits(w.txns[i], tpcc[i], w.init);
    StoresAreTyped(w, tpcc, job, ser, s, p);
    ItemsAreStored(w, tpcc, job, ser, s, i, p);
    AccessesAreReads(tpcc[i]);
    forall o | o in ReadsOf(tpcc[i]) ensures o in local {
      ReadIsStored(w, job, ser, s, i, o);
    }
    ExecuteStepExecutes(job, s, i, p);
    ExecutedSameObjects(local, AccessesOf(tpcc[i]), w.txns[i].inputs, Next(w.txns, i), Logic(tpcc[i]));
  }

  lemma {:induction false} ReadIsStored(w: Workload, job: Job, ser: Serial, s: State, i: nat, o: ObjectId)
    requires Describes(w, job, ser) && Reachable(job, s) && Enabled(job, s, Execute(i)) && s.checked[i]
    requires o in w.txns[i].inputs
    ensures o in LocalStore(s, w.route[i])
  {
    DescribedIsExplained(w, job, ser);
    ReachableKeeps(job, ser, s);
    ExecuteIsRight(job, ser, s, i);
    LocalStoreAt(s, w.route[i], o);
  }

  // ------------------------------------------------- the proxies

  /** The proxy that last wrote `o`, or proxy 0 if nobody did. */
  ghost function Home(w: Workload, o: ObjectId): ProxyId
    requires ValidWorkload(w)
  {
    var j := LastWriter(w.txns, w.init, |w.txns|, o);
    if j < 0 then 0 else w.route[j]
  }

  /** The database put together from the proxies that last wrote each object. */
  ghost function Gathered(w: Workload, s: State): Database
    requires ValidWorkload(w)
  {
    map o | o in w.init && Place(Home(w, o), o) in s.store :: s.store[Place(Home(w, o), o)].content
  }

  lemma {:induction false} GatheredAt(w: Workload, job: Job, ser: Serial, s: State, o: ObjectId)
    requires w.proxies > 0 && Describes(w, job, ser) && Reachable(job, s) && AllCompleted(job, s)
    ensures var db := SerialDatabase(w, |w.txns|);
            o in w.init && o in db ==> o in Gathered(w, s) && Gathered(w, s)[o] == db[o]
    ensures o in Gathered(w, s) ==> o in w.init
  {
    if o in w.init {
      FinalStateIsSerial(w, job, ser, s, Home(w, o), o);
    }
  }

  lemma {:induction false} GatheredIsSerial(w: Workload, job: Job, ser: Serial, s: State)
    requires w.proxies > 0 && Describes(w, job, ser) && Reachable(job, s) && AllCompleted(job, s)
    requires SerialDatabase(w, |w.txns|).Keys == w.init.Keys
    ensures Gathered(w, s) == SerialDatabase(w, |w.txns|)
  {
    var db := SerialDatabase(w, |w.txns|);
    forall o ensures (o in Gathered(w, s) <==> o in db) && (o in db ==> Gathered(w, s)[o] == db[o]) {
      assert o in db.Keys <==> o in w.init.Keys;
      GatheredAt(w, job, ser, s, o);
    }
  }

  /** Any complete distributed run leaves what a run of the database over the same
      transactions leaves, for any number of proxies and any routing. */
  lemma {:induction false} DistributedRunIsDatabaseRun(w: Workload, tpcc: seq<TpccTransaction>, job: Job, ser: Serial,
      s: State)
    returns (executed: seq<bool>, dbs: seq<Database>)
    requires IsTpcc(w, tpcc) && Consistent(w.init) && w.proxies > 0
    requires Describes(w, job, ser) && Reachable(job, s) && AllCompleted(job, s)
    ensures IsDatabaseRun(tpcc, executed, dbs) && dbs[0] == w.init && dbs[|tpcc|] == Gathered(w, s)
    ensures forall i :: 0 <= i < |tpcc| ==> executed[i] == SerialOk(w.txns, w.init, i)
  {
    executed, dbs := SerialRunIsDatabaseRun(w, tpcc);
    RunIsConsistent(tpcc, executed, dbs, |tpcc|);
    assert dbs[|tpcc|] == SerialDatabase(w, |w.txns|);
    GatheredIsSerial(w, job, ser, s);
  }

  /** A complete distributed run leaves every row, a consistent database and the ledger
      untouched; each row has grown by exactly what the transactions that the serial run
      executes ask for, and the stock has its closed form. */
  lemma {:induction false} DistributedRunIsConsistent(w: Workload, tpcc: seq<TpccTransaction>, job: Job, ser: Serial,
      s: State)
    returns (executed: seq<bool>)
    requires IsTpcc(w, tpcc) && Consistent(w.init) && w.proxies > 0
    requires Describes(w, job, ser) && Reachable(job, s) && AllCompleted(job, s)
    ensures |executed| == |tpcc| == |w.txns|
    ensures forall i :: 0 <= i < |tpcc| ==> executed[i] == SerialOk(w.txns, w.init, i)
    ensures var db := Gathered(w, s);
            && db.Keys == w.init.Keys && Consistent(db) && Ledger(db) == Ledger(w.init)
            && (forall o :: o in w.init ==> o in db && Grew(w.init[o], db[o], FiguresOver(tpcc, executed, |tpcc|, o)))
            && ((forall i :: 0 <= i < |tpcc| ==> ModestOrder(tpcc[i])) ==>
                  forall o :: StockInStep(w.init, w.init, o, 0) ==>
                    StockInStep(w.init, db, o, FiguresOver(tpcc, executed, |tpcc|, o).ordered))
  {
    var dbs;
    executed, dbs := DistributedRunIsDatabaseRun(w, tpcc, job, ser, s);
    RunIsConsistent(tpcc, executed, dbs, |tpcc|);
    forall o | o in w.init
      ensures o in Gathered(w, s) && Grew(w.init[o], Gathered(w, s)[o], FiguresOver(tpcc, executed, |tpcc|, o))
    {
      RowsGrowAsAsked(tpcc, executed, dbs, |tpcc|, o);
    }
    if forall i :: 0 <= i < |tpcc| ==> ModestOrder(tpcc[i]) {
      forall o | StockInStep(w.init, w.init, o, 0)
        ensures StockInStep(w.init, Gathered(w, s), o, FiguresOver(tpcc, executed, |tpcc|, o).ordered)
      {
        StockClosedForm(tpcc, executed, dbs, |tpcc|, o);
      }
    }
  }
}
