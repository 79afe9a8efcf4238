/** The database server's tables, and the client's random draws. */
module Database {
  import opened Schema

  class Tables {
    var warehouse: map<int, Warehouse>
    var district: map<DKey, District>
    var customer: map<CKey, Customer>
    var history: seq<History>
    var orders: map<OKey, Order>
    var newOrder: map<OKey, NewOrder>
    var orderLine: map<LKey, OrderLine>
    var stock: map<SKey, Stock>
    var item: map<int, int>
    const foreignKeys: bool

    function Contents(): Db
      reads this
    {
      Db(warehouse, district, customer, history, orders, newOrder, orderLine, stock, item, foreignKeys)
    }

    constructor (foreignKeys: bool)
      ensures Contents() == Db(map[], map[], map[], [], map[], map[], map[], map[], map[], foreignKeys)
    {
      this.foreignKeys := foreignKeys;
      warehouse, district, customer, history := map[], map[], map[], [];
      orders, newOrder, orderLine, stock, item := map[], map[], map[], map[], map[];
    }

    /** Undo everything since `saved` was taken at the start of the transaction. */
    method Rollback(saved: Db)
      requires saved.foreignKeys == foreignKeys
      modifies this
      ensures Contents() == saved
    {
      warehouse, district, customer, history := saved.warehouse, saved.district, saved.customer, saved.history;
      orders, newOrder, orderLine := saved.orders, saved.newOrder, saved.orderLine;
      stock, item := saved.stock, saved.item;
    }
  }

  /** A uniform draw from lo .. hi; any value may come out. */
  method RandInt(lo: int, hi: int) returns (r: int)
    requires lo <= hi
    ensures lo <= r <= hi
  {
    r :| lo <= r <= hi;
  }
}
