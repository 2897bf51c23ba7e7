/** Vocabulary shared by every part of the model: object identifiers, object
    contents and versions, and the transactions that consensus commits. */
module Types {

  type ProxyId = nat
  type Version = nat

  /** Every object starts at this version on every proxy. */
  const INITIAL_VERSION: Version := 2

  datatype Option<+T> = None | Some(value: T)

  /** Object identifiers. TPC-C derives the identifier of a row from its primary
      key; here the key itself is the identifier, so distinct rows have distinct
      identifiers by construction. */
  datatype ObjectId =
    | PlainId(n: nat)
    | WarehouseId(w: nat)
    | DistrictId(w: nat, d: nat)
    | CustomerId(w: nat, d: nat, c: nat)
    | StockId(w: nat, item: nat)
    | ItemId(item: nat)

  datatype Warehouse = Warehouse(w_ytd: int, w_tax: nat)
  datatype District = District(d_ytd: int, d_tax: nat, d_next_o_id: nat)
  datatype Customer = Customer(c_balance: int, c_ytd_payment: int, c_payment_cnt: nat, c_discount: nat)
  datatype Stock = Stock(s_quantity: int, s_ytd: nat, s_order_cnt: nat, s_remote_cnt: nat)
  datatype Item = Item(i_price: nat)

  datatype Content =
    | CoinOf(balance: nat)
    | WarehouseOf(warehouse: Warehouse)
    | DistrictOf(district: District)
    | CustomerOf(customer: Customer)
    | StockOf(stock: Stock)
    | ItemOf(item: Item)

  datatype Object = Object(version: Version, content: Content)

  /** A committed transaction: the shared objects it declares, which are the keys of
      a sorted map in their order, the verdict of its stateless verification, and its
      business logic. The logic is any deterministic function from the declared
      objects' contents to the content each declared object gets. */
  datatype Txn = Txn(
    inputs: seq<ObjectId>,
    verified: bool,
    run: (ObjectId, map<ObjectId, Content>) -> Content)

  /** The same objects, in whatever order and however often. */
  predicate SameObjects(a: seq<ObjectId>, b: seq<ObjectId>)
  {
    (forall o :: o in a ==> o in b) && (forall o :: o in b ==> o in a)
  }

  /** No object is listed twice, as in the keys of a map. */
  predicate DeclaresOnce(inputs: seq<ObjectId>)
  {
    forall a, b :: 0 <= a < b < |inputs| ==> inputs[a] != inputs[b]
  }

  /** A set that gains one element or none. */
  lemma {:induction false} SetGains(before: set<nat>, after: set<nat>, n: nat, gains: bool)
    requires n !in before && forall k :: k in after <==> k in before || (gains && k == n)
    ensures |after| == |before| + if gains then 1 else 0
  {
    if gains {
      assert after == before + {n};
    } else {
      assert after == before;
    }
  }

  /** `n` is the version that a transaction requiring the versions `required`
      gives to everything it touches: one above the highest required version,
      and never below one above the initial version. */
  predicate IsNextVersion(required: map<ObjectId, Version>, n: Version)
  {
    && n > INITIAL_VERSION
    && (forall o :: o in required ==> required[o] < n)
    && (n == INITIAL_VERSION + 1 || exists o :: o in required && required[o] + 1 == n)
  }

  lemma {:induction false} NextVersionIsUnique(required: map<ObjectId, Version>, n: Version, m: Version)
    requires IsNextVersion(required, n) && IsNextVersion(required, m)
    ensures n == m
  {
  }
}
