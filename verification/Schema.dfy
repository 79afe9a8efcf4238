/** The TPC-C tables as values: one map per keyed table, a sequence for `history`, which has no key.
    Money is in cents; taxes and discounts are in ten-thousandths.  Columns that no statement in the
    modelled transactions computes with (addresses, free text, dates of entry) are left out.  A column is an
    Option when a transaction or the loader can leave NULL in it. */
module Schema {
  import opened Aggregates

  const DISTRICTS := 10             // per warehouse
  const CUSTOMERS := 3000           // per district
  const ORDERS := 3000              // loaded per district
  const NEW_ORDERS := 900           // of which undelivered
  const FIRST_UNDELIVERED := 2101
  const ITEMS := 100000             // items, and stock rows per warehouse

  datatype DKey = DKey(w: int, d: int)
  datatype CKey = CKey(w: int, d: int, c: int)
  datatype OKey = OKey(w: int, d: int, o: int)
  datatype LKey = LKey(w: int, d: int, o: int, n: int) {
    function Order(): OKey { OKey(w, d, o) }
  }
  datatype SKey = SKey(w: int, i: int)

  datatype Warehouse = Warehouse(ytd: int, tax: int)
  datatype District = District(ytd: int, nextOID: int, tax: int)
  datatype Customer = Customer(first: string, last: string, badCredit: bool, discount: int,
                               balance: Option<int>, ytdPayment: int, paymentCnt: int, deliveryCnt: int)
  datatype History = History(c: CKey, w: int, d: int, amount: int)
  datatype Order = Order(c: int, carrier: Option<int>, olCnt: int, allLocal: bool)
  datatype NewOrder = NewOrder   // a row of new_order is only its key
  datatype OrderLine = OrderLine(i: int, supplyW: int, deliveryD: Option<int>, quantity: int, amount: Option<int>)
  datatype Stock = Stock(quantity: int, ytd: int, orderCnt: int, remoteCnt: int)

  datatype Db = Db(
    warehouse: map<int, Warehouse>,
    district: map<DKey, District>,
    customer: map<CKey, Customer>,
    history: seq<History>,
    orders: map<OKey, Order>,
    newOrder: map<OKey, NewOrder>,
    orderLine: map<LKey, OrderLine>,
    stock: map<SKey, Stock>,
    item: map<int, int>,            // price
    foreignKeys: bool)              // whether the tables were created with foreign keys

  /** How a transaction ended.  Only a commit may change the database. */
  datatype Outcome = Committed | RolledBack | Failed

  datatype Result = Result(db: Db, outcome: Outcome)

  /** Addition, where NULL makes the sum NULL. */
  function Plus(balance: Option<int>, amount: Option<int>): Option<int> {
    if balance.Some? && amount.Some? then Some(balance.value + amount.value) else None
  }

  /** quantity * price * (1 + w_tax + d_tax) * (1 - c_discount), rounded to cents as the DECIMAL(6,2)
      column stores it. */
  function Amount(quantity: int, price: int, wTax: int, dTax: int, discount: int): int {
    (quantity * price * (10000 + wTax + dTax) * (10000 - discount) + 50000000) / 100000000
  }
}
