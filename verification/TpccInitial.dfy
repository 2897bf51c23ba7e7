/** The initial TPC-C database: the loops that fill the store, and its consistency. */
module TpccInitial {
  import opened Types
  import opened Executor
  import opened TpccTransactions
  import opened TpccExecutor
  import opened TpccConsistency

  const NUM_ITEMS: nat := 100_000
  const DISTRICTS_PER_WAREHOUSE: nat := 10
  const CUSTOMERS_PER_DISTRICT: nat := 3_000
  const STOCK_PER_WAREHOUSE: nat := 100_000
  const INITIAL_W_YTD_CENTS: int := 30_000_000
  const INITIAL_D_YTD_CENTS: int := 3_000_000
  const INITIAL_BALANCE_CENTS: int := -1_000
  const INITIAL_YTD_PAYMENT_CENTS: int := 1_000
  const INITIAL_PAYMENT_CNT: nat := 1
  const INITIAL_NEXT_O_ID: nat := 3001

  /** The random draws: whatever the generator gives for each row. */
  datatype Draws = Draws(
    price: nat -> nat,
    wTax: nat -> nat,
    dTax: (nat, nat) -> nat,
    discount: (nat, nat, nat) -> nat,
    quantity: (nat, nat) -> int)

  predicate IsRow(o: ObjectId, warehouses: nat)
  {
    match o
    case PlainId(_) => false
    case ItemId(i) => 1 <= i <= NUM_ITEMS
    case WarehouseId(w) => 1 <= w <= warehouses
    case DistrictId(w, d) => 1 <= w <= warehouses && 1 <= d <= DISTRICTS_PER_WAREHOUSE
    case CustomerId(w, d, c) =>
      1 <= w <= warehouses && 1 <= d <= DISTRICTS_PER_WAREHOUSE && 1 <= c <= CUSTOMERS_PER_DISTRICT
    case StockId(w, i) => 1 <= w <= warehouses && 1 <= i <= STOCK_PER_WAREHOUSE
  }

  function InitialRow(draws: Draws, o: ObjectId): Content
  {
    match o
    case PlainId(_) => CoinOf(0)
    case ItemId(i) => ItemOf(Item(draws.price(i)))
    case WarehouseId(w) => WarehouseOf(Warehouse(INITIAL_W_YTD_CENTS, draws.wTax(w)))
    case DistrictId(w, d) => DistrictOf(District(INITIAL_D_YTD_CENTS, draws.dTax(w, d), INITIAL_NEXT_O_ID))
    case CustomerId(w, d, c) =>
      CustomerOf(
        Customer(INITIAL_BALANCE_CENTS, INITIAL_YTD_PAYMENT_CENTS, INITIAL_PAYMENT_CNT, draws.discount(w, d, c)))
    case StockId(w, i) => StockOf(Stock(draws.quantity(w, i), 0, 0, 0))
  }

  /** Every stored object is an initial row at the initial version. */
  ghost predicate OnlyInitialRows(objects: map<ObjectId, Object>, draws: Draws)
  {
    forall o :: o in objects ==> objects[o] == Object(INITIAL_VERSION, InitialRow(draws, o))
  }

  /** The rows of `after` are those of `before` and the ones that `added` selects. */
  ghost predicate Adds(before: map<ObjectId, Object>, after: map<ObjectId, Object>, draws: Draws,
      added: ObjectId -> bool)
  {
    && (OnlyInitialRows(before, draws) ==> OnlyInitialRows(after, draws))
    && forall o :: o in after <==> o in before || added(o)
  }

  method InitItems(store: ObjectStore, draws: Draws)
    modifies store
    ensures Adds(old(store.objects), store.objects, draws, (o: ObjectId) => o.ItemId? && 1 <= o.item <= NUM_ITEMS)
  {
    var i := 1;
    while i <= NUM_ITEMS
      invariant 1 <= i <= NUM_ITEMS + 1
      invariant Adds(old(store.objects), store.objects, draws, (o: ObjectId) => o.ItemId? && 1 <= o.item < i)
    {
      store.WriteObject(ItemId(i), Object(INITIAL_VERSION, ItemOf(Item(draws.price(i)))));
      i := i + 1;
    }
  }

  method InitCustomers(store: ObjectStore, draws: Draws, w: nat, d: nat)
    modifies store
    ensures Adds(old(store.objects), store.objects, draws,
                 (o: ObjectId) => o.CustomerId? && o.w == w && o.d == d && 1 <= o.c <= CUSTOMERS_PER_DISTRICT)
  {
    var c := 1;
    while c <= CUSTOMERS_PER_DISTRICT
      invariant 1 <= c <= CUSTOMERS_PER_DISTRICT + 1
      invariant Adds(old(store.objects), store.objects, draws,
                     (o: ObjectId) => o.CustomerId? && o.w == w && o.d == d && 1 <= o.c < c)
    {
      var discount := draws.discount(w, d, c);
      var customer := Customer(INITIAL_BALANCE_CENTS, INITIAL_YTD_PAYMENT_CENTS, INITIAL_PAYMENT_CNT, discount);
      store.WriteObject(CustomerId(w, d, c), Object(INITIAL_VERSION, CustomerOf(customer)));
      c := c + 1;
    }
  }

  predicate InDistricts(o: ObjectId, w: nat, districts: nat)
  {
    || (o.DistrictId? && o.w == w && 1 <= o.d <= districts)
    || (o.CustomerId? && o.w == w && 1 <= o.d <= districts && 1 <= o.c <= CUSTOMERS_PER_DISTRICT)
  }

  method InitDistricts(store: ObjectStore, draws: Draws, w: nat)
    modifies store
    ensures Adds(old(store.objects), store.objects, draws, (o: ObjectId) => InDistricts(o, w, DISTRICTS_PER_WAREHOUSE))
  {
    var d := 1;
    while d <= DISTRICTS_PER_WAREHOUSE
      invariant 1 <= d <= DISTRICTS_PER_WAREHOUSE + 1
      invariant Adds(old(store.objects), store.objects, draws, (o: ObjectId) => InDistricts(o, w, d - 1))
    {
      var district := District(INITIAL_D_YTD_CENTS, draws.dTax(w, d), INITIAL_NEXT_O_ID);
      store.WriteObject(DistrictId(w, d), Object(INITIAL_VERSION, DistrictOf(district)));
      InitCustomers(store, draws, w, d);
      d := d + 1;
    }
  }

  method InitStock(store: ObjectStore, draws: Draws, w: nat)
    modifies store
    ensures Adds(old(store.objects), store.objects, draws,
                 (o: ObjectId) => o.StockId? && o.w == w && 1 <= o.item <= STOCK_PER_WAREHOUSE)
  {
    var i := 1;
    while i <= STOCK_PER_WAREHOUSE
      invariant 1 <= i <= STOCK_PER_WAREHOUSE + 1
      invariant Adds(old(store.objects), store.objects, draws,
                     (o: ObjectId) => o.StockId? && o.w == w && 1 <= o.item < i)
    {
      store.WriteObject(StockId(w, i), Object(INITIAL_VERSION, StockOf(Stock(draws.quantity(w, i), 0, 0, 0))));
      i := i + 1;
    }
  }

  /** Fills an empty store. */
  method InitObjects(store: ObjectStore, draws: Draws, warehouses: nat)
    requires store.objects == map[]
    modifies store
    ensures OnlyInitialRows(store.objects, draws)
    ensures forall o :: o in store.objects <==> IsRow(o, warehouses)
  {
    InitItems(store, draws);
    var w := 1;
    while w <= warehouses
      invariant 1 <= w <= warehouses + 1
      invariant OnlyInitialRows(store.objects, draws)
      invariant forall o :: o in store.objects <==> IsRow(o, w - 1)
    {
      store.WriteObject(WarehouseId(w),
        Object(INITIAL_VERSION, WarehouseOf(Warehouse(INITIAL_W_YTD_CENTS, draws.wTax(w)))));
      InitDistricts(store, draws, w);
      InitStock(store, draws, w);
      w := w + 1;
    }
  }

  // ------------------------------------------------- the initial database is consistent

  /** A database holding exactly the initial rows. */
  ghost predicate IsInitial(db: Database, draws: Draws, warehouses: nat)
  {
    forall o :: (o in db <==> IsRow(o, warehouses)) && (o in db ==> db[o] == InitialRow(draws, o))
  }

  function FirstDistricts(w: nat, n: nat): set<ObjectId>
  {
    set d | 1 <= d <= n :: DistrictId(w, d)
  }

  lemma {:induction false} FirstDistrictsCount(w: nat, n: nat)
    ensures |FirstDistricts(w, n)| == n
  {
    if n > 0 {
      FirstDistrictsCount(w, n - 1);
      assert FirstDistricts(w, n) == FirstDistricts(w, n - 1) + {DistrictId(w, n)};
    }
  }

  /** The initial warehouse total is that of its ten districts. */
  lemma {:induction false} InitialWarehouseBalances(db: Database, draws: Draws, warehouses: nat, w: nat)
    requires IsInitial(db, draws, warehouses)
    ensures WarehouseBalances(db, w)
  {
    if WarehouseId(w) in db {
      var districts := DistrictsOf(db, w);
      assert districts == FirstDistricts(w, DISTRICTS_PER_WAREHOUSE);
      FirstDistrictsCount(w, DISTRICTS_PER_WAREHOUSE);
      forall k | k in districts ensures Paid(db[k]) == INITIAL_D_YTD_CENTS {
        assert IsRow(k, warehouses);
      }
      TotalConstant(districts, db, INITIAL_D_YTD_CENTS);
    }
  }

  /** Every run starts from a consistent database whose stock quantities are in range. */
  lemma {:induction false} InitialIsConsistent(db: Database, draws: Draws, warehouses: nat)
    requires IsInitial(db, draws, warehouses)
    ensures Consistent(db)
    ensures (forall w: nat, i: nat :: InRange(draws.quantity(w, i))) ==> forall o :: StockInStep(db, db, o, 0)
  {
    forall o | o in db ensures RightKind(o, db[o]) {
      assert IsRow(o, warehouses);
    }
    forall w: nat ensures WarehouseBalances(db, w) {
      InitialWarehouseBalances(db, draws, warehouses, w);
    }
    forall o ensures CustomerBalances(db, o) {
    }
  }

  /** From the initial database, for any draws: which rows there are after any run, and
      what each holds in terms of the executed transactions that name it. */
  lemma {:induction false} RunFromInitial(tpcc: seq<TpccTransaction>, executed: seq<bool>, dbs: seq<Database>, n: nat,
      draws: Draws, warehouses: nat, o: ObjectId)
    requires IsDatabaseRun(tpcc, executed, dbs) && n < |dbs| && IsInitial(dbs[0], draws, warehouses)
    ensures o in dbs[n] <==> o in dbs[0]
    ensures var f := FiguresOver(tpcc, executed, n, o);
            match o
            case PlainId(_) => o !in dbs[n]
            case ItemId(i) =>
              && (o in dbs[n] <==> 1 <= i <= 100_000)
              && (o in dbs[n] ==> dbs[n][o] == ItemOf(Item(draws.price(i))))
            case WarehouseId(w) =>
              && (o in dbs[n] <==> 1 <= w <= warehouses)
              && (o in dbs[n] ==> dbs[n][o] == WarehouseOf(Warehouse(30_000_000 + f.paid, draws.wTax(w))))
            case DistrictId(w, d) =>
              && (o in dbs[n] <==> 1 <= w <= warehouses && 1 <= d <= 10)
              && (o in dbs[n] ==>
                    dbs[n][o] == DistrictOf(District(3_000_000 + f.paid, draws.dTax(w, d), 3001 + f.orders)))
            case CustomerId(w, d, c) =>
              && (o in dbs[n] <==> 1 <= w <= warehouses && 1 <= d <= 10 && 1 <= c <= 3_000)
              && (o in dbs[n] ==>
                    dbs[n][o] == CustomerOf(
                      Customer(-1_000 - f.paid, 1_000 + f.paid, 1 + f.payments, draws.discount(w, d, c))))
            case StockId(w, i) =>
              && (o in dbs[n] <==> 1 <= w <= warehouses && 1 <= i <= 100_000)
              && (o in dbs[n] ==>
                    && dbs[n][o].StockOf? && dbs[n][o].stock.s_ytd == f.ordered
                    && dbs[n][o].stock.s_order_cnt == f.lines && dbs[n][o].stock.s_remote_cnt == f.remote)
  {
    RunKeepsRows(tpcc, executed, dbs, n, o);
    if o in dbs[0] {
      RowsGrowAsAsked(tpcc, executed, dbs, n, o);
    }
    assert o in dbs[0] <==> IsRow(o, warehouses);
  }

  lemma {:induction false} RunKeepsRows(tpcc: seq<TpccTransaction>, executed: seq<bool>, dbs: seq<Database>, n: nat,
      o: ObjectId)
    requires IsDatabaseRun(tpcc, executed, dbs) && n < |dbs|
    ensures o in dbs[n] <==> o in dbs[0]
  {
    if n > 0 {
      RunKeepsRows(tpcc, executed, dbs, n - 1, o);
      assert IsDatabaseStep(dbs[n - 1], dbs[n - 1 + 1], tpcc[n - 1], executed[n - 1]);
    }
  }
}
