/** `prepareWorkload`: the threads stride over the warehouses and then over the districts of all warehouses. */
module Prepare {
  import opened Schema
  import opened Loading
  import opened Database
  import opened Division
  import opened Strides
  import Loader

  ghost function WarehousesTaken(W: nat, T: nat, t: nat, i: nat): set<int>
    requires T > 0
  {
    set w <- AllWarehouses(W) | 1 <= w && Taken(T, t, i, w - 1)
  }

  ghost function DistrictsTaken(W: nat, T: nat, t: nat, i: nat): set<DKey>
    requires T > 0
  {
    set k <- AllDistricts(W) | 0 <= DistrictIndex(k) && Taken(T, t, i, DistrictIndex(k))
  }

  function DistrictIndex(k: DKey): int {
    (k.w - 1) * DISTRICTS + k.d - 1
  }

  function WarehouseAt(i: nat, W: nat): int
    requires W > 0
  {
    i % W + 1
  }

  lemma NextWarehouse(W: nat, T: nat, t: nat, i: nat)
    requires t < T && Taker(i, T) == t && i < W
    ensures WarehousesTaken(W, T, t, i + T) == WarehousesTaken(W, T, t, i) + {WarehouseAt(i, W)}
    ensures WarehouseAt(i, W) !in WarehousesTaken(W, T, t, i)
  {
    DivModIs(i, 0, i, W);
    forall w | w in AllWarehouses(W)
      ensures Taken(T, t, i + T, w - 1) <==> Taken(T, t, i, w - 1) || w == i + 1
    {
      StrideTakes(T, t, i, w - 1);
    }
    StrideTakes(T, t, i, i);
  }

  function DistrictAt(i: nat, W: nat): DKey
    requires W > 0
  {
    DKey((i / DISTRICTS) % W + 1, i % DISTRICTS + 1)
  }

  lemma NextDistrict(W: nat, T: nat, t: nat, i: nat)
    requires t < T && Taker(i, T) == t && i < W * DISTRICTS
    ensures DistrictsTaken(W, T, t, i + T) == DistrictsTaken(W, T, t, i) + {DistrictAt(i, W)}
    ensures DistrictAt(i, W) !in DistrictsTaken(W, T, t, i)
  {
    var d := DistrictAt(i, W);
    DivModIs(i / DISTRICTS, 0, i / DISTRICTS, W);
    assert DistrictIndex(d) == i && d in AllDistricts(W);
    forall k | k in AllDistricts(W)
      ensures Taken(T, t, i + T, DistrictIndex(k)) <==> Taken(T, t, i, DistrictIndex(k)) || k == d
    {
      StrideTakes(T, t, i, DistrictIndex(k));
    }
    StrideTakes(T, t, i, i);
  }

  lemma LastWarehouse(W: nat, T: nat, t: nat, i: nat)
    requires t < T && W <= i
    ensures WarehousesTaken(W, T, t, i) == WarehousesTaken(W, T, t + 1, t + 1)
  {
    forall w | w in AllWarehouses(W)
      ensures Taken(T, t, i, w - 1) <==> Taken(T, t + 1, t + 1, w - 1)
    {
      ThreadFinished(T, t, i, W, w - 1);
    }
  }

  lemma LastDistrict(W: nat, T: nat, t: nat, i: nat)
    requires t < T && W * DISTRICTS <= i
    ensures DistrictsTaken(W, T, t, i) == DistrictsTaken(W, T, t + 1, t + 1)
  {
    forall k | k in AllDistricts(W)
      ensures Taken(T, t, i, DistrictIndex(k)) <==> Taken(T, t + 1, t + 1, DistrictIndex(k))
    {
      ThreadFinished(T, t, i, W * DISTRICTS, DistrictIndex(k));
    }
  }

  lemma FirstThread(W: nat, T: nat)
    requires T > 0
    ensures WarehousesTaken(W, T, 0, 0) == {} && DistrictsTaken(W, T, 0, 0) == {}
  {
  }

  lemma LastThread(W: nat, T: nat)
    requires T > 0
    ensures WarehousesTaken(W, T, T, T) == AllWarehouses(W) && DistrictsTaken(W, T, T, T) == AllDistricts(W)
  {
    forall k | k in AllDistricts(W)
      ensures Taken(T, T, T, DistrictIndex(k))
    {
    }
  }

  method FirstItem(threadID: nat, threads: nat) returns (i: nat)
    requires threadID < threads
    ensures i == threadID
  {
    DivModIs(threadID, 0, threadID, threads);
    i := threadID % threads;
  }

  /** The warehouse loop of one thread.  Nothing it loads was loaded by an earlier thread. */
  method PrepareWarehouses(db: Tables, threads: nat, warehouses: nat, threadID: nat) returns (ghost ws: set<int>)
    requires threadID < threads
    requires LoadedTop(db.Contents(), WarehousesTaken(warehouses, threads, threadID, threadID))
    modifies db
    ensures ws == WarehousesTaken(warehouses, threads, threadID + 1, threadID + 1) && LoadedTop(db.Contents(), ws)
    ensures db.Contents() == old(db.Contents()).(warehouse := db.warehouse, stock := db.stock, district := db.district)
  {
    var i := FirstItem(threadID, threads);
    ws := WarehousesTaken(warehouses, threads, threadID, i);
    while i < warehouses
      invariant 0 <= i && Taker(i, threads) == threadID && ws == WarehousesTaken(warehouses, threads, threadID, i)
      invariant LoadedTop(db.Contents(), ws)
      invariant db.Contents() == old(db.Contents()).(warehouse := db.warehouse, stock := db.stock,
        district := db.district)
    {
      var warehouse := WarehouseAt(i, warehouses);
      NextWarehouse(warehouses, threads, threadID, i);
      Loader.LoadWarehouseRows(db, warehouse, ws);
      ws := ws + {warehouse};
      i := i + threads;
    }
    LastWarehouse(warehouses, threads, threadID, i);
  }

  /** The body of the district loop. */
  method PrepareDistrict(db: Tables, threads: nat, warehouses: nat, ghost threadID: nat, i: nat, when: int,
                         ghost ds: set<DKey>)
    returns (ghost after: set<DKey>)
    requires threadID < threads && Taker(i, threads) == threadID && i < warehouses * DISTRICTS
    requires ds == DistrictsTaken(warehouses, threads, threadID, i) && LoadedContents(db.Contents(), ds)
    modifies db
    ensures Taker(i + threads, threads) == threadID && after
      == DistrictsTaken(warehouses, threads, threadID, i + threads)
    ensures LoadedContents(db.Contents(), after)
    ensures db.Contents() == old(db.Contents()).(customer := db.customer, history := db.history, orders := db.orders,
                                                 newOrder := db.newOrder, orderLine := db.orderLine)
  {
    var d := DistrictAt(i, warehouses);
    NextDistrict(warehouses, threads, threadID, i);
    Loader.LoadDistrictRows(db, d, when, ds);
    after := ds + {d};
  }

  /** The district loop of one thread. */
  method PrepareDistricts(db: Tables, threads: nat, warehouses: nat, threadID: nat, when: int)
    returns (ghost ds: set<DKey>)
    requires threadID < threads
    requires LoadedContents(db.Contents(), DistrictsTaken(warehouses, threads, threadID, threadID))
    modifies db
    ensures ds == DistrictsTaken(warehouses, threads, threadID + 1, threadID + 1) && LoadedContents(db.Contents(), ds)
    ensures db.Contents() == old(db.Contents()).(customer := db.customer, history := db.history, orders := db.orders,
                                                 newOrder := db.newOrder, orderLine := db.orderLine)
  {
    var districts := warehouses * DISTRICTS;
    var i := FirstItem(threadID, threads);
    ds := DistrictsTaken(warehouses, threads, threadID, i);
    while i < districts
      invariant 0 <= i && Taker(i, threads) == threadID && ds == DistrictsTaken(warehouses, threads, threadID, i)
      invariant LoadedContents(db.Contents(), ds)
      invariant db.Contents() == old(db.Contents()).(customer := db.customer, history := db.history,
        orders := db.orders,
                                                     newOrder := db.newOrder, orderLine := db.orderLine)
    {
      ds := PrepareDistrict(db, threads, warehouses, threadID, i, when, ds);
      i := i + threads;
    }
    LastDistrict(warehouses, threads, threadID, i);
  }

  /** What one thread loads, on top of the warehouses ws and the districts ds of the earlier threads. */
  method PrepareWorkload(db: Tables, threads: nat, warehouses: nat, threadID: nat, when: int, ghost ws: set<int>,
                         ghost ds: set<DKey>)
    returns (ghost ws': set<int>, ghost ds': set<DKey>)
    requires threadID < threads
    requires ws == WarehousesTaken(warehouses, threads, threadID, threadID)
    requires ds == DistrictsTaken(warehouses, threads, threadID, threadID)
    requires LoadedPart(db.Contents(), ws, ds) && LoadedItems(db.item, if threadID == 0 then 0 else ITEMS)
    modifies db
    ensures ws' == WarehousesTaken(warehouses, threads, threadID + 1, threadID + 1)
    ensures ds' == DistrictsTaken(warehouses, threads, threadID + 1, threadID + 1)
    ensures LoadedPart(db.Contents(), ws', ds') && LoadedItems(db.item, ITEMS)
  {
    if threadID == 0 {
      Loader.LoadItem(db);
    }
    ws' := PrepareWarehouses(db, threads, warehouses, threadID);
    ds' := PrepareDistricts(db, threads, warehouses, threadID, when);
  }

  /** The empty database, which is what the threads before the first one have loaded. */
  method EmptyDatabase(ghost threads: nat, ghost warehouses: nat)
    returns (db: Tables, ghost ws: set<int>, ghost ds: set<DKey>)
    requires threads > 0
    ensures fresh(db) && LoadedPart(db.Contents(), ws, ds) && LoadedItems(db.item, 0)
    ensures ws == WarehousesTaken(warehouses, threads, 0, 0) && ds == DistrictsTaken(warehouses, threads, 0, 0)
  {
    db := new Tables(false);
    ws, ds := {}, {};
    FirstThread(warehouses, threads);
  }

  lemma AllThreadsLoaded(db: Db, W: nat, T: nat, ws: set<int>, ds: set<DKey>)
    requires T > 0 && ws == WarehousesTaken(W, T, T, T) && ds == DistrictsTaken(W, T, T, T)
    requires LoadedPart(db, ws, ds) && LoadedItems(db.item, ITEMS)
    ensures Loaded(db, W)
  {
    LastThread(W, T);
  }

  /** All threads together load exactly the initial database, whatever their number. */
  method PrepareAll(threads: nat, warehouses: nat, when: int) returns (db: Tables)
    requires threads > 0
    ensures fresh(db) && Loaded(db.Contents(), warehouses)
  {
    ghost var ws, ds;
    db, ws, ds := EmptyDatabase(threads, warehouses);
    for t := 0 to threads
      invariant fresh(db)
      invariant ws == WarehousesTaken(warehouses, threads, t, t) && ds == DistrictsTaken(warehouses, threads, t, t)
      invariant LoadedPart(db.Contents(), ws, ds) && LoadedItems(db.item, if t == 0 then 0 else ITEMS)
    {
      ws, ds := PrepareWorkload(db, threads, warehouses, t, when, ws, ds);
    }
    AllThreadsLoaded(db.Contents(), warehouses, threads, ws, ds);
  }
}
