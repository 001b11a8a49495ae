/** The nine TPC-C tables (src/tpcc.rs): their cardinalities, and one
    `GenBatch` per table that appends the rows of a batch index, each drawn
    from a generator seeded with that index. */
module Tpcc {
  import opened Base
  import opened Col
  import opened Rand
  import opened DateTimes
  import opened TpccFields

  // These are fixed by the TPC-C standard, not knobs.
  const NUM_ITEMS: nat := 100_000
  const NUM_STOCK_PER_WAREHOUSE: nat := 100_000
  const NUM_DISTRICTS_PER_WAREHOUSE: nat := 10
  const NUM_CUSTOMERS_PER_DISTRICT: nat := 3_000
  const NUM_HISTORY_PER_CUSTOMER: nat := 1
  const NUM_ORDERS_PER_DISTRICT: nat := 3_000
  const NUM_NEW_ORDERS_PER_DISTRICT: nat := 900

  datatype TpccConfig = TpccConfig(
    /** The number of warehouses: the unit of scaling. */
    warehouses: usize,
    /** The data generation time. */
    now: DateTime)

  datatype TableKind =
    | Item | Warehouse | Stock | District | Customer | History | Order | OrderLine | NewOrder
  {
    function Name(): string
    {
      match this
      case Item => "item"
      case Warehouse => "warehouse"
      case Stock => "stock"
      case District => "district"
      case Customer => "customer"
      case History => "history"
      case Order => "order"
      case OrderLine => "order-line"
      case NewOrder => "new-order"
    }

    /** `num_batches` for `w` warehouses. Every table but order and
        order-line has one row per batch; an order batch is a district's
        3000 orders, an order-line batch is one order's lines. */
    function NumBatches(w: nat): nat
    {
      match this
      case Item => NUM_ITEMS
      case Warehouse => w
      case Stock => w * NUM_STOCK_PER_WAREHOUSE
      case District => w * NUM_DISTRICTS_PER_WAREHOUSE
      case Customer => w * NUM_DISTRICTS_PER_WAREHOUSE * NUM_CUSTOMERS_PER_DISTRICT
      case History =>
        w * NUM_DISTRICTS_PER_WAREHOUSE * NUM_CUSTOMERS_PER_DISTRICT * NUM_HISTORY_PER_CUSTOMER
      case Order => w * NUM_DISTRICTS_PER_WAREHOUSE
      case OrderLine => w * NUM_DISTRICTS_PER_WAREHOUSE * NUM_ORDERS_PER_DISTRICT
      case NewOrder => w * NUM_DISTRICTS_PER_WAREHOUSE * NUM_NEW_ORDERS_PER_DISTRICT
    }
  }

  /** The tables of the set, in the order `tables` visits them. */
  const TABLES: seq<TableKind> :=
    [Item, Warehouse, Stock, District, Customer, History, Order, OrderLine, NewOrder]

  /** Each table's names are distinct, so a visitor can tell them apart. */
  lemma TableNamesDistinct()
    ensures forall i, j :: 0 <= i < j < |TABLES| ==> TABLES[i].Name() != TABLES[j].Name()
  {
  }

  /** The scaling hierarchy: 100000 stock rows and 10 districts per
      warehouse, 3000 customers per district, one history row per customer,
      one order batch per district holding one order per customer, one
      order-line batch per order and 900 new orders per district. */
  lemma Cardinalities(w: nat)
    ensures Item.NumBatches(w) == NUM_ITEMS
    ensures Stock.NumBatches(w) == Warehouse.NumBatches(w) * NUM_STOCK_PER_WAREHOUSE
    ensures District.NumBatches(w) == Warehouse.NumBatches(w) * NUM_DISTRICTS_PER_WAREHOUSE
    ensures Customer.NumBatches(w) == District.NumBatches(w) * NUM_CUSTOMERS_PER_DISTRICT
    ensures History.NumBatches(w) == Customer.NumBatches(w)
    ensures Order.NumBatches(w) == District.NumBatches(w)
    ensures Order.NumBatches(w) * NUM_ORDERS_PER_DISTRICT == Customer.NumBatches(w)
    ensures OrderLine.NumBatches(w) == Order.NumBatches(w) * NUM_ORDERS_PER_DISTRICT
    ensures NewOrder.NumBatches(w) == District.NumBatches(w) * NUM_NEW_ORDERS_PER_DISTRICT
  {
  }

  // ---------------------------------------------------------------------------
  // Parent ids: integer division by the fan-out

  /** The parent id of child `id` when each parent has `perParent` children. */
  function ParentId(id: u64, perParent: nat): (p: u64)
    requires perParent > 0
    ensures p as nat * perParent <= id as nat < (p as nat + 1) * perParent
  {
    var p := id as nat / perParent;
    assert id as nat == p * perParent + id as nat % perParent;
    p as u64
  }

  /** Children of consecutive blocks share a parent, and every child of a
      valid index names a parent of a valid index. */
  lemma ParentOfValidChild(id: u64, perParent: nat, parents: nat)
    requires perParent > 0 && id as nat < parents * perParent
    ensures ParentId(id, perParent) as nat < parents
  {
    DivBound(id as nat, perParent, parents);
  }

  /** Every stock, district, customer, history, order, order-line and
      new-order batch derives parent ids (district, then warehouse) that
      are batch indexes of the parent tables. History has one row per
      customer and order one batch per district, so theirs follow from the
      customer and district cases. */
  lemma ParentsExist(w: nat, idx: u64)
    ensures idx as nat < Stock.NumBatches(w) ==>
      ParentId(idx, NUM_STOCK_PER_WAREHOUSE) as nat < Warehouse.NumBatches(w)
    ensures idx as nat < District.NumBatches(w) ==>
      ParentId(idx, NUM_DISTRICTS_PER_WAREHOUSE) as nat < Warehouse.NumBatches(w)
    ensures idx as nat < Customer.NumBatches(w) ==>
      && ParentId(idx, NUM_CUSTOMERS_PER_DISTRICT) as nat < District.NumBatches(w)
      && ParentId(ParentId(idx, NUM_CUSTOMERS_PER_DISTRICT), NUM_DISTRICTS_PER_WAREHOUSE) as nat
           < Warehouse.NumBatches(w)
    ensures idx as nat < History.NumBatches(w) ==>
      && ParentId(idx, NUM_CUSTOMERS_PER_DISTRICT) as nat < District.NumBatches(w)
      && ParentId(ParentId(idx, NUM_CUSTOMERS_PER_DISTRICT), NUM_DISTRICTS_PER_WAREHOUSE) as nat
           < Warehouse.NumBatches(w)
    ensures idx as nat < Order.NumBatches(w) ==>
      ParentId(idx, NUM_DISTRICTS_PER_WAREHOUSE) as nat < Warehouse.NumBatches(w)
    ensures idx as nat < OrderLine.NumBatches(w) ==>
      && ParentId(idx, NUM_ORDERS_PER_DISTRICT) as nat < District.NumBatches(w)
      && ParentId(ParentId(idx, NUM_ORDERS_PER_DISTRICT), NUM_DISTRICTS_PER_WAREHOUSE) as nat
           < Warehouse.NumBatches(w)
    ensures idx as nat < NewOrder.NumBatches(w) ==>
      && ParentId(idx, NUM_NEW_ORDERS_PER_DISTRICT) as nat < District.NumBatches(w)
      && ParentId(ParentId(idx, NUM_NEW_ORDERS_PER_DISTRICT), NUM_DISTRICTS_PER_WAREHOUSE) as nat
           < Warehouse.NumBatches(w)
  {
    Cardinalities(w);
    if idx as nat < Stock.NumBatches(w) {
      ParentOfValidChild(idx, NUM_STOCK_PER_WAREHOUSE, w);
    }
    if idx as nat < District.NumBatches(w) {
      ParentOfValidChild(idx, NUM_DISTRICTS_PER_WAREHOUSE, w);
    }
    if idx as nat < Customer.NumBatches(w) {
      ParentOfValidChild(idx, NUM_CUSTOMERS_PER_DISTRICT, District.NumBatches(w));
      ParentOfValidChild(ParentId(idx, NUM_CUSTOMERS_PER_DISTRICT), NUM_DISTRICTS_PER_WAREHOUSE, w);
    }
    if idx as nat < OrderLine.NumBatches(w) {
      ParentOfValidChild(idx, NUM_ORDERS_PER_DISTRICT, District.NumBatches(w));
      ParentOfValidChild(ParentId(idx, NUM_ORDERS_PER_DISTRICT), NUM_DISTRICTS_PER_WAREHOUSE, w);
    }
    if idx as nat < NewOrder.NumBatches(w) {
      ParentOfValidChild(idx, NUM_NEW_ORDERS_PER_DISTRICT, District.NumBatches(w));
      ParentOfValidChild(ParentId(idx, NUM_NEW_ORDERS_PER_DISTRICT), NUM_DISTRICTS_PER_WAREHOUSE, w);
    }
  }

  // ---------------------------------------------------------------------------
  // Batches

  /** The batch a table appends to: any column of the table's rows, seen
      through the rows it holds. */
  class Batch<R> {
    var Contents: seq<R>

    constructor()
      ensures Contents == []
    {
      Contents := [];
    }

    method Push(r: R)
      modifies this
      ensures Contents == old(Contents) + [r]
    {
      Contents := Contents + [r];
    }

    method Clear()
      modifies this
      ensures Contents == []
    {
      Contents := [];
    }
  }

  /** `after` is `before` with exactly one row appended. */
  ghost predicate PushedOne<R>(before: seq<R>, after: seq<R>)
  {
    |after| == |before| + 1 && after[..|before|] == before
  }

  function Last<R>(s: seq<R>): R
    requires |s| > 0
  {
    s[|s| - 1]
  }

  // --- ITEM ------------------------------------------------------------------

  /** An item row; the price is its integer draw in cents. */
  datatype ItemRow = ItemRow(iId: u64, imId: u64, name: string, priceCents: nat, data: string)

  ghost predicate ItemRowOk(r: ItemRow, idx: nat)
  {
    && r.iId as nat == idx
    && 1 <= r.imId as nat <= 10_000
    && Fills(RangeLen(A_ALPHABET, 14, 24), r.name)
    && 100 <= r.priceCents <= 10_000
    && Fills(Original, r.data)
  }

  class ItemTable {
    var iName: string
    var iData: string

    constructor Init(config: TpccConfig)
      ensures iName == [] && iData == []
    {
      iName := [];
      iData := [];
    }

    method GenBatch(idx: usize, batch: Batch<ItemRow>)
      modifies this, batch
      ensures idx as nat >= Item.NumBatches(0) ==>
        batch.Contents == old(batch.Contents) && iName == old(iName) && iData == old(iData)
      ensures idx as nat < Item.NumBatches(0) ==>
        && PushedOne(old(batch.Contents), batch.Contents)
        && ItemRowOk(Last(batch.Contents), idx as nat)
        && iName == Last(batch.Contents).name && iData == Last(batch.Contents).data
    {
      if idx as nat >= Item.NumBatches(0) {
        return;
      }
      var rng := new SmallRng.SeedFromU64(idx);
      var iId := idx;
      var iImId := RandInt(rng, 1, 10_000);
      iName := Reuse(rng, iName, RangeLen(A_ALPHABET, 14, 24));
      var iPrice := RandInt(rng, 100, 10_000);
      iData := Reuse(rng, iData, Original);
      batch.Push(ItemRow(iId, iImId as u64, iName, iPrice, iData));
    }
  }

  // --- WAREHOUSE and DISTRICT addresses --------------------------------------

  /** The address fields warehouses and districts share. */
  datatype Address = Address(street1: string, street2: string, city: string, state: string, zip: string)

  ghost predicate AddressOk(a: Address)
  {
    && Fills(RangeLen(A_ALPHABET, 10, 20), a.street1)
    && Fills(RangeLen(A_ALPHABET, 10, 20), a.street2)
    && Fills(RangeLen(A_ALPHABET, 10, 20), a.city)
    && Fills(State, a.state)
    && Fills(Zip, a.zip)
  }

  /** A warehouse row; the tax is its integer draw in units of 1/10000, and
      the year-to-date balance, a float constant, is omitted. */
  datatype WarehouseRow = WarehouseRow(wId: u64, name: string, address: Address, taxBasisPoints: nat)

  ghost predicate WarehouseRowOk(r: WarehouseRow, idx: nat)
  {
    && r.wId as nat == idx
    && Fills(RangeLen(A_ALPHABET, 6, 10), r.name)
    && AddressOk(r.address)
    && r.taxBasisPoints <= 2000
  }

  /** The reusable buffers of a name and an address. */
  class AddressBuffers {
    var name: string
    var street1: string
    var street2: string
    var city: string
    var state: string
    var zip: string

    constructor()
      ensures name == street1 == street2 == city == state == zip == []
    {
      name, street1, street2, city, state, zip := [], [], [], [], [], [];
    }

    function Current(): Address
      reads this
    {
      Address(street1, street2, city, state, zip)
    }

    /** Draws a name of 6 to 10 characters and an address, in the order
        the warehouse and district tables draw them. */
    method Fill(rng: SmallRng)
      modifies this, rng
      ensures Fills(RangeLen(A_ALPHABET, 6, 10), name) && AddressOk(Current())
    {
      name := Reuse(rng, name, RangeLen(A_ALPHABET, 6, 10));
      street1 := Reuse(rng, street1, RangeLen(A_ALPHABET, 10, 20));
      street2 := Reuse(rng, street2, RangeLen(A_ALPHABET, 10, 20));
      city := Reuse(rng, city, RangeLen(A_ALPHABET, 10, 20));
      state := Reuse(rng, state, State);
      zip := Reuse(rng, zip, Zip);
    }
  }

  class WarehouseTable {
    const config: TpccConfig
    const buffers: AddressBuffers

    constructor Init(config: TpccConfig)
      ensures this.config == config && fresh(buffers)
    {
      this.config := config;
      buffers := new AddressBuffers();
    }

    method GenBatch(idx: usize, batch: Batch<WarehouseRow>)
      modifies buffers, batch
      ensures idx as nat >= Warehouse.NumBatches(config.warehouses as nat) ==>
        batch.Contents == old(batch.Contents) && unchanged(buffers)
      ensures idx as nat < Warehouse.NumBatches(config.warehouses as nat) ==>
        && PushedOne(old(batch.Contents), batch.Contents)
        && WarehouseRowOk(Last(batch.Contents), idx as nat)
        && Last(batch.Contents).name == buffers.name
        && Last(batch.Contents).address == buffers.Current()
    {
      if idx as nat >= Warehouse.NumBatches(config.warehouses as nat) {
        return;
      }
      var rng := new SmallRng.SeedFromU64(idx);
      var wId := idx;
      buffers.Fill(rng);
      var wTax := RandTax(rng);
      batch.Push(WarehouseRow(wId, buffers.name, buffers.Current(), wTax));
    }
  }

  /** A district row; tax as for warehouses, the float year-to-date balance
      omitted. */
  datatype DistrictRow = DistrictRow(
    dId: u64, dWId: u64, name: string, address: Address, taxBasisPoints: nat, nextOId: u64)

  ghost predicate DistrictRowOk(r: DistrictRow, idx: nat)
  {
    && r.dId as nat == idx
    && r.dWId as nat == idx / NUM_DISTRICTS_PER_WAREHOUSE
    && Fills(RangeLen(A_ALPHABET, 6, 10), r.name)
    && AddressOk(r.address)
    && r.taxBasisPoints <= 2000
    && r.nextOId as nat == NUM_ORDERS_PER_DISTRICT + 1
  }

  class DistrictTable {
    const config: TpccConfig
    const buffers: AddressBuffers

    constructor Init(config: TpccConfig)
      ensures this.config == config && fresh(buffers)
    {
      this.config := config;
      buffers := new AddressBuffers();
    }

    method GenBatch(idx: usize, batch: Batch<DistrictRow>)
      modifies buffers, batch
      ensures idx as nat >= District.NumBatches(config.warehouses as nat) ==>
        batch.Contents == old(batch.Contents) && unchanged(buffers)
      ensures idx as nat < District.NumBatches(config.warehouses as nat) ==>
        && PushedOne(old(batch.Contents), batch.Contents)
        && DistrictRowOk(Last(batch.Contents), idx as nat)
        && Last(batch.Contents).name == buffers.name
        && Last(batch.Contents).address == buffers.Current()
    {
      if idx as nat >= District.NumBatches(config.warehouses as nat) {
        return;
      }
      var rng := new SmallRng.SeedFromU64(idx);
      var dId := idx;
      var dWId := ParentId(dId, NUM_DISTRICTS_PER_WAREHOUSE);
      buffers.Fill(rng);
      var dTax := RandTax(rng);
      var dNextOId := (NUM_ORDERS_PER_DISTRICT + 1) as u64;
      batch.Push(DistrictRow(dId, dWId, buffers.name, buffers.Current(), dTax, dNextOId));
    }
  }

  // --- STOCK -----------------------------------------------------------------

  /** A stock row: only the first five district infos are pushed. */
  datatype StockRow = StockRow(
    sId: u64, sWId: u64, quantity: u64, dists: seq<string>,
    ytd: u64, orderCnt: u64, remoteCnt: u64, data: string)

  ghost predicate StockRowOk(r: StockRow, idx: nat)
  {
    && r.sId as nat == idx
    && r.sWId as nat == idx / NUM_STOCK_PER_WAREHOUSE
    && 10 <= r.quantity as nat <= 100
    && |r.dists| == 5
    && (forall k :: 0 <= k < 5 ==> Fills(FixedLen(A_ALPHABET, 24), r.dists[k]))
    && r.ytd == 0 && r.orderCnt == 0 && r.remoteCnt == 0
    && Fills(Original, r.data)
  }

  class StockTable {
    const config: TpccConfig
    /** The buffers `s_dist_01` to `s_dist_10`. */
    var sDists: seq<string>
    var sData: string

    constructor Init(config: TpccConfig)
      ensures this.config == config && sDists == seq(10, _ => []) && sData == []
    {
      this.config := config;
      sDists := seq(10, _ => []);
      sData := [];
    }

    method GenBatch(idx: usize, batch: Batch<StockRow>)
      modifies this, batch
      ensures idx as nat >= Stock.NumBatches(config.warehouses as nat) ==>
        batch.Contents == old(batch.Contents) && sDists == old(sDists) && sData == old(sData)
      ensures idx as nat < Stock.NumBatches(config.warehouses as nat) ==>
        && PushedOne(old(batch.Contents), batch.Contents)
        && StockRowOk(Last(batch.Contents), idx as nat)
        && |sDists| == 10 && Last(batch.Contents).dists == sDists[..5]
        && (forall k :: 0 <= k < 10 ==> Fills(FixedLen(A_ALPHABET, 24), sDists[k]))
        && Last(batch.Contents).data == sData
    {
      if idx as nat >= Stock.NumBatches(config.warehouses as nat) {
        return;
      }
      var rng := new SmallRng.SeedFromU64(idx);
      var sId := idx;
      var sWId := ParentId(sId, NUM_STOCK_PER_WAREHOUSE);
      var sQuantity := RandInt(rng, 10, 100);
      var dists: seq<string> := [];
      for k := 0 to 10
        modifies rng
        invariant |dists| == k
        invariant forall i :: 0 <= i < k ==> Fills(FixedLen(A_ALPHABET, 24), dists[i])
      {
        var previous := if k < |sDists| then sDists[k] else [];
        var d := Reuse(rng, previous, FixedLen(A_ALPHABET, 24));
        dists := dists + [d];
      }
      sDists := dists;
      sData := Reuse(rng, sData, Original);
      batch.Push(StockRow(sId, sWId, sQuantity as u64, sDists[..5], 0, 0, 0, sData));
    }
  }

  // --- CUSTOMER --------------------------------------------------------------

  /** A customer row as pushed: the phone, since-date, credit and the
      float fields are generated but not pushed. */
  datatype CustomerRow = CustomerRow(
    cId: u64, cDId: u64, cWId: u64, last: string, middle: string, first: string,
    address: Address, data: string)

  ghost predicate CustomerRowOk(r: CustomerRow, idx: nat)
  {
    && r.cId as nat == idx
    && r.cDId as nat == idx / NUM_CUSTOMERS_PER_DISTRICT
    && r.cWId as nat == r.cDId as nat / NUM_DISTRICTS_PER_WAREHOUSE
    && r.last == "TODO" && r.middle == "OE"
    && Fills(RangeLen(A_ALPHABET, 8, 16), r.first)
    && AddressOk(r.address)
    && Fills(RangeLen(A_ALPHABET, 300, 500), r.data)
  }

  class CustomerTable {
    const config: TpccConfig
    var cFirst: string
    const address: AddressBuffers
    var cPhone: string
    var cData: string

    constructor Init(config: TpccConfig)
      ensures this.config == config && fresh(address)
      ensures cFirst == [] && cPhone == [] && cData == []
    {
      this.config := config;
      cFirst, cPhone, cData := [], [], [];
      address := new AddressBuffers();
    }

    method GenBatch(idx: usize, batch: Batch<CustomerRow>)
      modifies this, address, batch
      ensures idx as nat >= Customer.NumBatches(config.warehouses as nat) ==>
        && batch.Contents == old(batch.Contents) && unchanged(this) && unchanged(address)
      ensures idx as nat < Customer.NumBatches(config.warehouses as nat) ==>
        && PushedOne(old(batch.Contents), batch.Contents)
        && CustomerRowOk(Last(batch.Contents), idx as nat)
        && Last(batch.Contents).first == cFirst
        && Last(batch.Contents).address == address.Current()
        && Last(batch.Contents).data == cData
        && Fills(FixedLen(N_ALPHABET, 16), cPhone)
    {
      if idx as nat >= Customer.NumBatches(config.warehouses as nat) {
        return;
      }
      var rng := new SmallRng.SeedFromU64(idx);
      var cId := idx;
      var cDId := ParentId(cId, NUM_CUSTOMERS_PER_DISTRICT);
      var cWId := ParentId(cDId, NUM_DISTRICTS_PER_WAREHOUSE);
      cFirst := Reuse(rng, cFirst, RangeLen(A_ALPHABET, 8, 16));
      address.street1 := Reuse(rng, address.street1, RangeLen(A_ALPHABET, 10, 20));
      address.street2 := Reuse(rng, address.street2, RangeLen(A_ALPHABET, 10, 20));
      address.city := Reuse(rng, address.city, RangeLen(A_ALPHABET, 10, 20));
      address.state := Reuse(rng, address.state, State);
      address.zip := Reuse(rng, address.zip, Zip);
      cPhone := Reuse(rng, cPhone, FixedLen(N_ALPHABET, 16));
      // The credit draw (`BC` one time in ten, else `GC`) is not pushed.
      var credit := rng.GenRange(0, 10);
      cData := Reuse(rng, cData, RangeLen(A_ALPHABET, 300, 500));
      batch.Push(CustomerRow(cId, cDId, cWId, "TODO", "OE", cFirst, address.Current(), cData));
    }
  }

  // --- HISTORY ---------------------------------------------------------------

  /** A history row; the float amount is omitted. */
  datatype HistoryRow = HistoryRow(
    cId: u64, cDId: u64, cWId: u64, dId: u64, wId: u64, date: DateTime, data: string)

  ghost predicate HistoryRowOk(r: HistoryRow, idx: nat, now: DateTime)
  {
    && r.cId as nat == idx
    && r.cDId as nat == idx / NUM_CUSTOMERS_PER_DISTRICT
    && r.cWId as nat == r.cDId as nat / NUM_DISTRICTS_PER_WAREHOUSE
    && r.dId == r.cDId && r.wId == r.cWId
    && r.date == now
    && Fills(RangeLen(A_ALPHABET, 12, 24), r.data)
  }

  class HistoryTable {
    const config: TpccConfig
    var hData: string

    constructor Init(config: TpccConfig)
      ensures this.config == config && hData == []
    {
      this.config := config;
      hData := [];
    }

    method GenBatch(idx: usize, batch: Batch<HistoryRow>)
      modifies this, batch
      ensures idx as nat >= History.NumBatches(config.warehouses as nat) ==>
        batch.Contents == old(batch.Contents) && hData == old(hData)
      ensures idx as nat < History.NumBatches(config.warehouses as nat) ==>
        && PushedOne(old(batch.Contents), batch.Contents)
        && HistoryRowOk(Last(batch.Contents), idx as nat, config.now)
        && Last(batch.Contents).data == hData
    {
      if idx as nat >= History.NumBatches(config.warehouses as nat) {
        return;
      }
      var rng := new SmallRng.SeedFromU64(idx);
      var hCId := idx;
      var hCDId := ParentId(hCId, NUM_CUSTOMERS_PER_DISTRICT);
      var hCWId := ParentId(hCDId, NUM_DISTRICTS_PER_WAREHOUSE);
      hData := Reuse(rng, hData, RangeLen(A_ALPHABET, 12, 24));
      batch.Push(HistoryRow(hCId, hCDId, hCWId, hCDId, hCWId, config.now, hData));
    }
  }

  // --- ORDER -----------------------------------------------------------------

  datatype OrderRow = OrderRow(
    oId: u64, cId: u64, dId: u64, wId: u64, entryD: DateTime, carrierId: Option<u64>,
    olCnt: u64, allLocal: u64)

  /** The first 2001 orders of a district have been delivered and carry a
      carrier between 1 and 10; the rest carry none. */
  ghost predicate OrderRowOk(r: OrderRow, k: nat, idx: nat, cId: u64, now: DateTime)
  {
    && r.oId as nat == k
    && r.cId == cId
    && r.dId as nat == idx
    && r.wId as nat == idx / NUM_DISTRICTS_PER_WAREHOUSE
    && r.entryD == now
    && (r.carrierId.Some? <==> k < 2001)
    && (r.carrierId.Some? ==> 1 <= r.carrierId.value as nat <= 10)
    && 5 <= r.olCnt as nat <= 15
    && r.allLocal == 1
  }

  /** `0..n` in ascending order. */
  function Range(n: nat): (s: seq<u64>)
    requires n <= TWO_64
    ensures |s| == n && forall i :: 0 <= i < n ==> s[i] as nat == i
  {
    seq(n, i requires 0 <= i < n => i as u64)
  }

  class OrderTable {
    const config: TpccConfig
    /** The customer ids of a district, shuffled in place for each batch. */
    var oCIds: seq<u64>

    constructor Init(config: TpccConfig)
      ensures this.config == config && oCIds == []
    {
      this.config := config;
      oCIds := [];
    }

    method GenBatch(idx: usize, batch: Batch<OrderRow>)
      modifies this, batch
      ensures idx as nat >= Order.NumBatches(config.warehouses as nat) ==>
        batch.Contents == old(batch.Contents) && oCIds == old(oCIds)
      ensures idx as nat < Order.NumBatches(config.warehouses as nat) ==>
        && |batch.Contents| == |old(batch.Contents)| + NUM_ORDERS_PER_DISTRICT
        && batch.Contents[..|old(batch.Contents)|] == old(batch.Contents)
        && multiset(oCIds) == multiset(Range(NUM_ORDERS_PER_DISTRICT))
        && |oCIds| == NUM_ORDERS_PER_DISTRICT
        && forall k :: 0 <= k < NUM_ORDERS_PER_DISTRICT ==>
             OrderRowOk(batch.Contents[|old(batch.Contents)| + k], k, idx as nat, oCIds[k], config.now)
    {
      if idx as nat >= Order.NumBatches(config.warehouses as nat) {
        return;
      }
      var rng := new SmallRng.SeedFromU64(idx);
      var oDId := idx;
      var oWId := ParentId(oDId, NUM_DISTRICTS_PER_WAREHOUSE);
      var oEntryD := config.now;
      oCIds := [];
      oCIds := oCIds + Range(NUM_ORDERS_PER_DISTRICT);
      oCIds := rng.Shuffle(oCIds);
      ghost var before := batch.Contents;
      for k := 0 to NUM_ORDERS_PER_DISTRICT
        modifies batch, rng
        invariant |batch.Contents| == |before| + k && batch.Contents[..|before|] == before
        invariant forall i :: 0 <= i < k ==>
          OrderRowOk(batch.Contents[|before| + i], i, idx as nat, oCIds[i], config.now)
      {
        var oId := k as u64;
        var oCId := oCIds[k];
        var oCarrierId: Option<u64>;
        if oId < 2001 {
          var carrier := RandInt(rng, 1, 10);
          oCarrierId := Some(carrier as u64);
        } else {
          oCarrierId := None;
        }
        var oOlCnt := RandInt(rng, 5, 15);
        batch.Push(OrderRow(oId, oCId, oDId, oWId, oEntryD, oCarrierId, oOlCnt as u64, 1));
      }
    }
  }

  /** A shuffle of `0..n` holds each customer id below `n` exactly once:
      every order of a district has a different customer and every customer
      has an order. */
  lemma PermutationOfRange(s: seq<u64>, n: nat)
    requires n <= TWO_64 && multiset(s) == multiset(Range(n))
    ensures |s| == n
    ensures forall i :: 0 <= i < n ==> s[i] as nat < n
    ensures forall i, j :: 0 <= i < j < n ==> s[i] != s[j]
    ensures forall c: u64 :: c as nat < n ==> c in s
  {
    assert |s| == |multiset(s)| == |multiset(Range(n))| == n;
    forall i | 0 <= i < n ensures s[i] as nat < n {
      assert s[i] in multiset(Range(n));
    }
    forall c: u64 | c as nat < n ensures c in s {
      assert Range(n)[c as nat] == c;
      assert c in multiset(Range(n));
    }
    forall i, j | 0 <= i < j < n ensures s[i] != s[j] {
      if s[i] == s[j] {
        RangeCountsOnce(n, s[i]);
        TwiceCountsTwice(s, i, j);
        assert false;
      }
    }
  }

  lemma {:induction false} RangeCountsOnce(n: nat, c: u64)
    requires n <= TWO_64 && c as nat < n
    ensures multiset(Range(n))[c] == 1
  {
    if n - 1 == c as nat {
      assert Range(n) == Range(n - 1) + [c];
      assert c !in Range(n - 1);
    } else {
      assert Range(n) == Range(n - 1) + [(n - 1) as u64];
      RangeCountsOnce(n - 1, c);
    }
  }

  lemma TwiceCountsTwice<T>(s: seq<T>, i: nat, j: nat)
    requires i < j < |s| && s[i] == s[j]
    ensures multiset(s)[s[i]] >= 2
  {
    assert s == s[..i] + [s[i]] + s[i + 1..j] + [s[j]] + s[j + 1..];
  }

  // --- ORDER-LINE ------------------------------------------------------------

  /** An order-line row; the float amount is omitted. */
  datatype OrderLineRow = OrderLineRow(
    oId: u64, dId: u64, wId: u64, number: u64, iId: u64, supplyWId: u64,
    deliveryD: Option<DateTime>, quantity: u64, distInfo: string)

  /** Line `j` of order-line batch `idx`; orders below 2101 (counted over
      the whole table, not within a district) are delivered. */
  ghost predicate OrderLineRowOk(r: OrderLineRow, j: nat, idx: nat, now: DateTime)
  {
    && r.oId as nat == idx
    && r.dId as nat == idx / NUM_ORDERS_PER_DISTRICT
    && r.wId as nat == r.dId as nat / NUM_DISTRICTS_PER_WAREHOUSE
    && r.number as nat == j
    && 1 <= r.iId as nat <= NUM_ITEMS
    && r.supplyWId == r.wId
    && r.deliveryD == (if idx < 2101 then Some(now) else None)
    && r.quantity == 5
    && Fills(FixedLen(A_ALPHABET, 24), r.distInfo)
  }

  class OrderLineTable {
    const config: TpccConfig
    var olDistInfo: string

    constructor Init(config: TpccConfig)
      ensures this.config == config && olDistInfo == []
    {
      this.config := config;
      olDistInfo := [];
    }

    /** The line count is drawn afresh, independently of the order table. */
    method GenBatch(idx: usize, batch: Batch<OrderLineRow>)
      modifies this, batch
      ensures idx as nat >= OrderLine.NumBatches(config.warehouses as nat) ==>
        batch.Contents == old(batch.Contents) && olDistInfo == old(olDistInfo)
      ensures idx as nat < OrderLine.NumBatches(config.warehouses as nat) ==>
        && 5 <= |batch.Contents| - |old(batch.Contents)| <= 15
        && batch.Contents[..|old(batch.Contents)|] == old(batch.Contents)
        && (forall j :: |old(batch.Contents)| <= j < |batch.Contents| ==>
              OrderLineRowOk(batch.Contents[j], j - |old(batch.Contents)|, idx as nat, config.now))
        && olDistInfo == Last(batch.Contents).distInfo
    {
      if idx as nat >= OrderLine.NumBatches(config.warehouses as nat) {
        return;
      }
      var rng := new SmallRng.SeedFromU64(idx);
      var olOId := idx;
      var olDId := ParentId(olOId, NUM_ORDERS_PER_DISTRICT);
      var olWId := ParentId(olDId, NUM_DISTRICTS_PER_WAREHOUSE);
      var olSupplyWId := olWId;
      var olQuantity: u64 := 5;
      var oOlCnt := RandInt(rng, 5, 15);
      ghost var before := batch.Contents;
      ghost var added: seq<OrderLineRow> := [];
      for j := 0 to oOlCnt
        modifies this, batch, rng
        invariant batch.Contents == before + added && |added| == j
        invariant forall i :: 0 <= i < j ==> OrderLineRowOk(added[i], i, idx as nat, config.now)
        invariant j > 0 ==> olDistInfo == Last(added).distInfo
      {
        var olNumber := j as u64;
        var olIId := RandInt(rng, 1, NUM_ITEMS);
        var olDeliveryD := if olOId < 2101 then Some(config.now) else None;
        olDistInfo := Reuse(rng, olDistInfo, FixedLen(A_ALPHABET, 24));
        var row := OrderLineRow(olOId, olDId, olWId, olNumber, olIId as u64, olSupplyWId,
                                olDeliveryD, olQuantity, olDistInfo);
        batch.Push(row);
        added := added + [row];
      }
    }
  }

  // --- NEW-ORDER -------------------------------------------------------------

  /** New-order row `idx`: the last 900 orders of district `idx / 900`. */
  function NewOrderRow(idx: u64): (r: (u64, u64, u64))
  {
    var offset := NUM_ORDERS_PER_DISTRICT - NUM_NEW_ORDERS_PER_DISTRICT;
    var noDId := ParentId(idx, NUM_NEW_ORDERS_PER_DISTRICT);
    ((offset + idx as nat % NUM_NEW_ORDERS_PER_DISTRICT) as u64,
     noDId,
     ParentId(noDId, NUM_DISTRICTS_PER_WAREHOUSE))
  }

  /** Each district's block of 900 new-order rows names its orders
      2100..2999, in order, so new-order ids are always in [2100, 3000). */
  lemma NewOrderWindow(d: nat, k: nat)
    requires k < NUM_NEW_ORDERS_PER_DISTRICT && d * NUM_NEW_ORDERS_PER_DISTRICT + k < TWO_64
    ensures var r := NewOrderRow((d * NUM_NEW_ORDERS_PER_DISTRICT + k) as u64);
      && r.0 as nat == NUM_ORDERS_PER_DISTRICT - NUM_NEW_ORDERS_PER_DISTRICT + k
      && r.1 as nat == d
      && r.2 as nat == d / NUM_DISTRICTS_PER_WAREHOUSE
  {
    var idx := d * NUM_NEW_ORDERS_PER_DISTRICT + k;
    DivModUnique(idx, NUM_NEW_ORDERS_PER_DISTRICT, d, k);
  }

  lemma NewOrderIdBounds(idx: u64)
    ensures 2100 <= NewOrderRow(idx).0 as nat < NUM_ORDERS_PER_DISTRICT
  {
  }

  /** The first new-order rows of the tests: orders 2100 to 2109 of
      district 0 of warehouse 0. */
  lemma NewOrderVectors()
    ensures forall k: u64 :: k < 10 ==> NewOrderRow(k) == (2100 + k, 0, 0)
  {
    forall k: u64 | k < 10 ensures NewOrderRow(k) == (2100 + k, 0, 0) {
      NewOrderWindow(0, k as nat);
    }
  }

  type NewOrderBatch = Tuple3Col<u64, u64, u64>

  /** A fresh empty new-order batch: its three `u64` components are
      `size_of::<u64>()`, 8 bytes, wide. */
  method NewBatch() returns (batch: NewOrderBatch)
    ensures fresh(batch) && fresh(batch.c0) && fresh(batch.c1) && fresh(batch.c2)
    ensures batch.Valid() && batch.Contents == []
    ensures batch.c0.width == 8 && batch.c1.width == 8 && batch.c2.width == 8
  {
    batch := new Tuple3Col(8, 8, 8);
  }

  class NewOrderTable {
    const config: TpccConfig

    constructor Init(config: TpccConfig)
      ensures this.config == config
    {
      this.config := config;
    }

    method GenBatch(idx: usize, batch: NewOrderBatch)
      requires batch.Valid()
      modifies batch, batch.c0, batch.c1, batch.c2
      ensures batch.Valid()
      ensures idx as nat >= NewOrder.NumBatches(config.warehouses as nat) ==>
        batch.Contents == old(batch.Contents)
      ensures idx as nat < NewOrder.NumBatches(config.warehouses as nat) ==>
        batch.Contents == old(batch.Contents) + [NewOrderRow(idx)]
    {
      if idx as nat >= NewOrder.NumBatches(config.warehouses as nat) {
        return;
      }
      var offset := (NUM_ORDERS_PER_DISTRICT - NUM_NEW_ORDERS_PER_DISTRICT) as u64;
      var noOId := offset + idx % NUM_NEW_ORDERS_PER_DISTRICT as u64;
      var noDId := idx / NUM_NEW_ORDERS_PER_DISTRICT as u64;
      var noWId := noDId / NUM_DISTRICTS_PER_WAREHOUSE as u64;
      batch.Push((noOId, noDId, noWId));
    }
  }
}
