/**
 * POST /api/sales (app/api/sales/route.ts): validate a cart, check every line
 * against the product rows read before the transaction, then write the sale,
 * its items, one OUT movement per line, a stock overwrite per line and a
 * LOW_STOCK alert for every line that leaves the product at or below its
 * minimum.
 *
 * The unit price is the one the client sent, and every stock write is
 * computed from the rows read before the transaction, so when a product
 * appears on several lines the last line's write is the one that remains.
 */
module SalesApi {
  import opened Domain
  import opened Store
  import Seqs
  import Permissions

  datatype LineRequest = LineRequest(productId: Id, quantity: real, unitPrice: int)

  datatype SaleRequest = SaleRequest(paymentMethod: Option<PaymentMethod>, items: seq<LineRequest>)

  /** A validated line: the quantity is now a positive integer. */
  datatype Line = Line(productId: Id, quantity: int, unitPrice: int)

  /** The role test the handler writes out inline. */
  predicate MayCreateSale(role: Role) {
    role == ADMIN || role == STAFF || role == OWNER
  }

  lemma MayCreateSaleIsCanSell(role: Role)
    ensures MayCreateSale(role) == Permissions.CanSell(role)
    ensures !MayCreateSale(role) <==> role == VIEWER
  {
  }

  /** The item schema: positive integer quantity, non-negative unit price. */
  predicate ValidLine(l: LineRequest) {
    IsInt(l.quantity) && l.quantity > 0.0 && l.unitPrice >= 0
  }

  /** The request schema: at least one item, every item valid. */
  predicate ValidSaleRequest(req: SaleRequest) {
    |req.items| >= 1 && forall i :: 0 <= i < |req.items| ==> ValidLine(req.items[i])
  }

  function ToLines(items: seq<LineRequest>): (lines: seq<Line>)
    requires forall i :: 0 <= i < |items| ==> ValidLine(items[i])
    ensures |lines| == |items|
    ensures forall i :: 0 <= i < |items| ==>
      && lines[i].productId == items[i].productId
      && lines[i].quantity as real == items[i].quantity
      && lines[i].quantity > 0
      && lines[i].unitPrice == items[i].unitPrice
  {
    var lines := seq(|items|, i requires 0 <= i < |items| =>
      Line(items[i].productId, items[i].quantity.Floor, items[i].unitPrice));
    assert forall i :: 0 <= i < |items| ==> ValidLine(items[i]) && lines[i].quantity as real == items[i].quantity;
    lines
  }

  /** The product is one of the caller's organization's active products. */
  predicate Sellable(ps: seq<Product>, org: Id, pid: Id) {
    pid < |ps| && ps[pid].orgId == org && ps[pid].isActive
  }

  predicate LineOk(ps: seq<Product>, org: Id, l: Line) {
    Sellable(ps, org, l.productId) && l.quantity <= ps[l.productId].stockCurrent
  }

  /** Why one line cannot be sold, if it cannot. */
  function LineProblem(ps: seq<Product>, org: Id, l: Line): (r: Option<Failure>)
    ensures r.None? <==> LineOk(ps, org, l)
  {
    if !Sellable(ps, org, l.productId) then Some(InvalidProduct)
    else if ps[l.productId].stockCurrent - l.quantity < 0 then
      Some(InsufficientStock(ps[l.productId].name))
    else None
  }

  /** The first line's problem, checking the lines in order. */
  function CheckLines(ps: seq<Product>, org: Id, lines: seq<Line>): (r: Option<Failure>)
    ensures r.None? <==> forall i :: 0 <= i < |lines| ==> LineOk(ps, org, lines[i])
    ensures r.Some? ==> r.value == InvalidProduct || r.value.InsufficientStock?
  {
    if lines == [] then None
    else if LineProblem(ps, org, lines[0]).Some? then LineProblem(ps, org, lines[0])
    else
      var r := CheckLines(ps, org, lines[1..]);
      assert forall j :: 0 <= j < |lines| - 1 ==> lines[1..][j] == lines[j + 1];
      r
  }

  lemma {:induction false} CheckLinesFirstProblem(ps: seq<Product>, org: Id, lines: seq<Line>, k: nat)
    requires k < |lines|
    requires forall i :: 0 <= i < k ==> LineOk(ps, org, lines[i])
    requires !LineOk(ps, org, lines[k])
    ensures CheckLines(ps, org, lines) == LineProblem(ps, org, lines[k])
  {
    if k > 0 {
      CheckLinesFirstProblem(ps, org, lines[1..], k - 1);
    }
  }

  /** Every line names a product row that exists. */
  predicate KnownProducts(ps: seq<Product>, lines: seq<Line>) {
    forall i :: 0 <= i < |lines| ==> lines[i].productId < |ps|
  }

  function LineTotal(l: Line): int {
    l.quantity * l.unitPrice
  }

  /** `items.reduce((acc, i) => acc + i.quantity * i.unitPrice, 0)`. */
  function SaleTotal(lines: seq<Line>): int {
    if lines == [] then 0 else SaleTotal(lines[..|lines| - 1]) + LineTotal(lines[|lines| - 1])
  }

  /** The SaleItem rows created with the sale, one per line, in order. */
  function ItemsFor(saleId: Id, lines: seq<Line>): (items: seq<SaleItem>)
    ensures |items| == |lines|
    ensures forall i :: 0 <= i < |lines| ==>
      && items[i].saleId == saleId
      && items[i].productId == lines[i].productId
      && items[i].quantity == lines[i].quantity
      && items[i].unitPrice == lines[i].unitPrice
      && items[i].lineTotal == lines[i].quantity * lines[i].unitPrice
  {
    if lines == [] then []
    else
      var l := lines[|lines| - 1];
      ItemsFor(saleId, lines[..|lines| - 1])
        + [SaleItem(saleId, l.productId, l.quantity, l.unitPrice, l.quantity * l.unitPrice)]
  }

  function ItemLineTotal(it: SaleItem): int {
    it.lineTotal
  }

  /** The sale's total is the sum of its items' line totals. */
  lemma {:induction false} SaleTotalIsSumOfItems(saleId: Id, lines: seq<Line>)
    ensures SaleTotal(lines) == Seqs.Sum(ItemsFor(saleId, lines), ItemLineTotal)
  {
    if lines != [] {
      var init := lines[..|lines| - 1];
      var l := lines[|lines| - 1];
      SaleTotalIsSumOfItems(saleId, init);
      var last := SaleItem(saleId, l.productId, l.quantity, l.unitPrice, l.quantity * l.unitPrice);
      Seqs.SumConcat(ItemsFor(saleId, init), [last], ItemLineTotal);
    }
  }

  /** The OUT movements written by the sale, one per line, in order. */
  function OutMovements(org: Id, saleId: Id, userId: Id, lines: seq<Line>): (ms: seq<Movement>)
    ensures |ms| == |lines|
    ensures forall i :: 0 <= i < |lines| ==>
      ms[i] == Movement(org, lines[i].productId, OUT, lines[i].quantity, SaleRef(saleId), userId)
  {
    if lines == [] then []
    else
      var l := lines[|lines| - 1];
      OutMovements(org, saleId, userId, lines[..|lines| - 1])
        + [Movement(org, l.productId, OUT, l.quantity, SaleRef(saleId), userId)]
  }

  /**
   * The products table after the stock writes of `lines`: each line writes
   * its product's stock as read before the sale minus the line's quantity.
   */
  function WriteStocks(snap: seq<Product>, lines: seq<Line>): (ps: seq<Product>)
    requires KnownProducts(snap, lines)
    ensures |ps| == |snap|
  {
    if lines == [] then snap
    else
      var prev := WriteStocks(snap, lines[..|lines| - 1]);
      var pid := lines[|lines| - 1].productId;
      prev[pid := prev[pid].(stockCurrent := snap[pid].stockCurrent - lines[|lines| - 1].quantity)]
  }

  /** The quantity of the last line that names product `pid`, if any. */
  function LastQuantity(lines: seq<Line>, pid: Id): (q: Option<int>)
    ensures q.Some? ==> exists i :: 0 <= i < |lines| && lines[i].productId == pid && lines[i].quantity == q.value
    ensures q.None? <==> forall i :: 0 <= i < |lines| ==> lines[i].productId != pid
  {
    if lines == [] then None
    else if lines[|lines| - 1].productId == pid then Some(lines[|lines| - 1].quantity)
    else
      var q := LastQuantity(lines[..|lines| - 1], pid);
      assert forall i :: 0 <= i < |lines| - 1 ==> lines[..|lines| - 1][i] == lines[i];
      q
  }

  /** What the stock writes leave in one row: the last write to it wins. */
  lemma {:induction false} WriteStocksAt(snap: seq<Product>, lines: seq<Line>, j: nat)
    requires KnownProducts(snap, lines)
    requires j < |snap|
    ensures WriteStocks(snap, lines)[j] ==
      match LastQuantity(lines, j)
      case None => snap[j]
      case Some(q) => snap[j].(stockCurrent := snap[j].stockCurrent - q)
  {
    if lines != [] {
      WriteStocksAt(snap, lines[..|lines| - 1], j);
    }
  }

  /** After a checked sale no stock is negative, even with repeated products. */
  lemma WriteStocksNonNegative(snap: seq<Product>, org: Id, lines: seq<Line>)
    requires KnownProducts(snap, lines)
    requires StocksNonNegative(snap)
    requires forall i :: 0 <= i < |lines| ==> LineOk(snap, org, lines[i])
    ensures StocksNonNegative(WriteStocks(snap, lines))
  {
    var ps := WriteStocks(snap, lines);
    forall j | 0 <= j < |ps| ensures ps[j].stockCurrent >= 0 {
      WriteStocksAt(snap, lines, j);
      var q := LastQuantity(lines, j);
      if q.Some? {
        var i :| 0 <= i < |lines| && lines[i].productId == j && lines[i].quantity == q.value;
        assert LineOk(snap, org, lines[i]);
      }
    }
  }

  /** The stock writes change nothing but `stockCurrent`. */
  lemma WriteStocksKeepsOtherFields(snap: seq<Product>, lines: seq<Line>, j: nat)
    requires KnownProducts(snap, lines)
    requires j < |snap|
    ensures WriteStocks(snap, lines)[j] == snap[j].(stockCurrent := WriteStocks(snap, lines)[j].stockCurrent)
  {
    WriteStocksAt(snap, lines, j);
  }

  predicate DistinctProducts(lines: seq<Line>) {
    forall i, j :: 0 <= i < j < |lines| ==> lines[i].productId != lines[j].productId
  }

  /**
   * With pairwise distinct products each sold product's stock drops by
   * exactly its quantity and every other product keeps its stock.
   */
  lemma DistinctSaleConservesStock(snap: seq<Product>, lines: seq<Line>)
    requires KnownProducts(snap, lines)
    requires DistinctProducts(lines)
    ensures forall i :: 0 <= i < |lines| ==>
      WriteStocks(snap, lines)[lines[i].productId].stockCurrent
        == snap[lines[i].productId].stockCurrent - lines[i].quantity
    ensures forall j :: 0 <= j < |snap| && (forall i :: 0 <= i < |lines| ==> lines[i].productId != j) ==>
      WriteStocks(snap, lines)[j] == snap[j]
  {
    forall i | 0 <= i < |lines|
      ensures WriteStocks(snap, lines)[lines[i].productId].stockCurrent
        == snap[lines[i].productId].stockCurrent - lines[i].quantity
    {
      var j := lines[i].productId;
      WriteStocksAt(snap, lines, j);
      var k :| 0 <= k < |lines| && lines[k].productId == j && lines[k].quantity == LastQuantity(lines, j).value;
      assert k == i;
    }
    forall j | 0 <= j < |snap| && (forall i :: 0 <= i < |lines| ==> lines[i].productId != j)
      ensures WriteStocks(snap, lines)[j] == snap[j]
    {
      WriteStocksAt(snap, lines, j);
    }
  }

  /**
   * A product named on two lines loses the first decrement: with stock 10,
   * selling 3 and then 4 units leaves 6, not 3.
   */
  lemma RepeatedProductLastLineWins()
    ensures var snap := [Product(0, 0, "p", None, 100, 50, 10, 0, true, 0)];
            var lines := [Line(0, 3, 100), Line(0, 4, 100)];
            WriteStocks(snap, lines)[0].stockCurrent == 6
            && snap[0].stockCurrent - (lines[0].quantity + lines[1].quantity) == 3
  {
    var snap := [Product(0, 0, "p", None, 100, 50, 10, 0, true, 0)];
    var lines := [Line(0, 3, 100), Line(0, 4, 100)];
    assert lines[..1] == [Line(0, 3, 100)];
    assert lines[..1][..0] == [];
  }

  /** The stock a line leaves, computed from the row read before the sale. */
  function StockAfter(snap: seq<Product>, l: Line): int
    requires l.productId < |snap|
  {
    snap[l.productId].stockCurrent - l.quantity
  }

  predicate LeavesLow(snap: seq<Product>, l: Line)
    requires l.productId < |snap|
  {
    StockAfter(snap, l) <= snap[l.productId].stockMin
  }

  function LowStockAlert(snap: seq<Product>, org: Id, l: Line, id: Id, now: int): Alert
    requires l.productId < |snap|
  {
    Alert(id, org, LOW_STOCK, MEDIA,
          LowStockMessage(snap[l.productId].name, StockAfter(snap, l)), OPEN, now)
  }

  /** The LOW_STOCK alerts the sale appends, numbered from `firstId`. */
  function LowStockAlerts(snap: seq<Product>, org: Id, lines: seq<Line>, firstId: Id, now: int): (als: seq<Alert>)
    requires KnownProducts(snap, lines)
    ensures |als| <= |lines|
    ensures forall i :: 0 <= i < |als| ==>
      && als[i].id == firstId + i && als[i].orgId == org && als[i].kind == LOW_STOCK
      && als[i].severity == MEDIA && als[i].status == OPEN && als[i].createdAt == now
  {
    if lines == [] then []
    else
      var l := lines[|lines| - 1];
      var prev := LowStockAlerts(snap, org, lines[..|lines| - 1], firstId, now);
      if LeavesLow(snap, l) then prev + [LowStockAlert(snap, org, l, firstId + |prev|, now)] else prev
  }

  /** One alert per line that leaves its product at or below its minimum. */
  lemma {:induction false} LowStockAlertCount(snap: seq<Product>, org: Id, lines: seq<Line>, firstId: Id, now: int)
    requires KnownProducts(snap, lines)
    ensures |LowStockAlerts(snap, org, lines, firstId, now)|
      == |Seqs.Filter(lines, (l: Line) => l.productId < |snap| && LeavesLow(snap, l))|
  {
    if lines != [] {
      var init := lines[..|lines| - 1];
      LowStockAlertCount(snap, org, init, firstId, now);
      assert lines == init + [lines[|lines| - 1]];
      Seqs.FilterConcat(init, [lines[|lines| - 1]],
        (l: Line) => l.productId < |snap| && LeavesLow(snap, l));
    }
  }

  /** What one more line adds to the movements, the stock writes and the alerts. */
  lemma LinesStep(snap: seq<Product>, org: Id, saleId: Id, userId: Id, lines: seq<Line>, k: nat,
                  firstId: Id, now: int)
    requires KnownProducts(snap, lines) && k < |lines|
    ensures KnownProducts(snap, lines[..k]) && KnownProducts(snap, lines[..k + 1])
    ensures OutMovements(org, saleId, userId, lines[..k + 1])
      == OutMovements(org, saleId, userId, lines[..k])
         + [Movement(org, lines[k].productId, OUT, lines[k].quantity, SaleRef(saleId), userId)]
    ensures var prev := WriteStocks(snap, lines[..k]); var pid := lines[k].productId;
      WriteStocks(snap, lines[..k + 1]) == prev[pid := prev[pid].(stockCurrent := StockAfter(snap, lines[k]))]
    ensures var prev := LowStockAlerts(snap, org, lines[..k], firstId, now);
      LowStockAlerts(snap, org, lines[..k + 1], firstId, now)
        == prev + (if LeavesLow(snap, lines[k]) then [LowStockAlert(snap, org, lines[k], firstId + |prev|, now)] else [])
  {
    assert lines[..k + 1][..k] == lines[..k];
    assert lines[..k + 1][k] == lines[k];
  }

  /** The stock writes keep every product's id equal to its position. */
  lemma WriteStocksKeepsIds(snap: seq<Product>, lines: seq<Line>)
    requires KnownProducts(snap, lines) && ProductIdsMatch(snap)
    ensures ProductIdsMatch(WriteStocks(snap, lines))
  {
    forall j | 0 <= j < |snap| ensures WriteStocks(snap, lines)[j].id == j {
      WriteStocksKeepsOtherFields(snap, lines, j);
    }
  }

  /** The refusal the handler answers with, in the order it checks. */
  function Refusal(session: Option<Session>, req: SaleRequest, ps: seq<Product>): (r: Option<Failure>)
    ensures session.None? ==> r == Some(Unauthorized)
    ensures session.Some? && !MayCreateSale(session.value.role) ==> r == Some(Forbidden)
    ensures session.Some? && MayCreateSale(session.value.role) && !ValidSaleRequest(req) ==> r == Some(InvalidData)
    ensures r.None? <==>
      session.Some? && MayCreateSale(session.value.role) && ValidSaleRequest(req)
      && forall i :: 0 <= i < |req.items| ==> LineOk(ps, session.value.orgId, ToLines(req.items)[i])
  {
    if session.None? then Some(Unauthorized)
    else if !MayCreateSale(session.value.role) then Some(Forbidden)
    else if !ValidSaleRequest(req) then Some(InvalidData)
    else CheckLines(ps, session.value.orgId, ToLines(req.items))
  }

  /** The pre-transaction loop that checks every line against the rows read. */
  method CheckItems(snap: seq<Product>, org: Id, lines: seq<Line>) returns (problem: Option<Failure>)
    ensures problem == CheckLines(snap, org, lines)
  {
    var k := 0;
    while k < |lines|
      invariant 0 <= k <= |lines|
      invariant forall i :: 0 <= i < k ==> LineOk(snap, org, lines[i])
    {
      problem := LineProblem(snap, org, lines[k]);
      if problem.Some? {
        CheckLinesFirstProblem(snap, org, lines, k);
        return;
      }
      k := k + 1;
    }
    problem := None;
  }

  /** One iteration of the transaction's loop: movement, stock write, alert. */
  method ApplyLine(st: Store, snap: seq<Product>, org: Id, saleId: Id, userId: Id, l: Line, now: int)
    requires l.productId < |snap| && l.productId < |st.products|
    modifies st
    ensures st.movements == old(st.movements) + [Movement(org, l.productId, OUT, l.quantity, SaleRef(saleId), userId)]
    ensures st.products == old(st.products)[l.productId :=
      old(st.products)[l.productId].(stockCurrent := StockAfter(snap, l))]
    ensures st.alerts == old(st.alerts)
      + (if LeavesLow(snap, l) then [LowStockAlert(snap, org, l, |old(st.alerts)|, now)] else [])
    ensures st.orgs == old(st.orgs) && st.users == old(st.users) && st.expenses == old(st.expenses)
    ensures st.sales == old(st.sales) && st.saleItems == old(st.saleItems)
  {
    var p := snap[l.productId];
    st.movements := st.movements + [Movement(org, l.productId, OUT, l.quantity, SaleRef(saleId), userId)];
    var newStock := p.stockCurrent - l.quantity;
    st.products := st.products[l.productId := st.products[l.productId].(stockCurrent := newStock)];
    if newStock <= p.stockMin {
      st.alerts := st.alerts
        + [Alert(|st.alerts|, org, LOW_STOCK, MEDIA, LowStockMessage(p.name, newStock), OPEN, now)];
    }
  }

  /** The transaction's loop: per line an OUT movement, the stock overwrite and possibly a LOW_STOCK alert. */
  method ApplyLines(st: Store, org: Id, saleId: Id, userId: Id, lines: seq<Line>, now: int)
    requires KnownProducts(st.products, lines)
    modifies st
    ensures st.movements == old(st.movements) + OutMovements(org, saleId, userId, lines)
    ensures st.products == WriteStocks(old(st.products), lines)
    ensures st.alerts == old(st.alerts) + LowStockAlerts(old(st.products), org, lines, |old(st.alerts)|, now)
    ensures st.orgs == old(st.orgs) && st.users == old(st.users) && st.expenses == old(st.expenses)
    ensures st.sales == old(st.sales) && st.saleItems == old(st.saleItems)
  {
    var snap, movements0, alerts0 := st.products, st.movements, st.alerts;
    var k := 0;
    while k < |lines|
      invariant 0 <= k <= |lines|
      invariant KnownProducts(snap, lines[..k])
      invariant st.movements == movements0 + OutMovements(org, saleId, userId, lines[..k])
      invariant st.products == WriteStocks(snap, lines[..k])
      invariant st.alerts == alerts0 + LowStockAlerts(snap, org, lines[..k], |alerts0|, now)
      invariant st.orgs == old(st.orgs) && st.users == old(st.users) && st.expenses == old(st.expenses)
      invariant st.sales == old(st.sales) && st.saleItems == old(st.saleItems)
    {
      LinesStep(snap, org, saleId, userId, lines, k, |alerts0|, now);
      ApplyLine(st, snap, org, saleId, userId, lines[k], now);
      k := k + 1;
    }
    assert lines[..k] == lines;
  }

  /** The alerts a sale appends continue the numbering of the table. */
  lemma AppendedAlertsKeepIds(als: seq<Alert>, snap: seq<Product>, org: Id, lines: seq<Line>, now: int)
    requires KnownProducts(snap, lines) && AlertIdsMatch(als)
    ensures AlertIdsMatch(als + LowStockAlerts(snap, org, lines, |als|, now))
  {
    var added := LowStockAlerts(snap, org, lines, |als|, now);
    forall i | 0 <= i < |als + added| ensures (als + added)[i].id == i {
      if i >= |als| {
        assert (als + added)[i] == added[i - |als|];
      }
    }
  }

  /**
   * The transaction: the sale with its items, then the per-line writes.
   */
  method CommitSale(st: Store, org: Id, userId: Id, pm: PaymentMethod, lines: seq<Line>, now: int)
    returns (saleId: Id)
    requires st.Valid()
    requires KnownProducts(st.products, lines)
    requires forall i :: 0 <= i < |lines| ==> LineOk(st.products, org, lines[i])
    modifies st
    ensures st.Valid()
    ensures saleId == |old(st.sales)|
    ensures st.sales == old(st.sales) + [Sale(saleId, org, pm, SaleTotal(lines), userId, now)]
    ensures st.saleItems == old(st.saleItems) + ItemsFor(saleId, lines)
    ensures st.movements == old(st.movements) + OutMovements(org, saleId, userId, lines)
    ensures st.products == WriteStocks(old(st.products), lines)
    ensures st.alerts == old(st.alerts) + LowStockAlerts(old(st.products), org, lines, |old(st.alerts)|, now)
    ensures st.orgs == old(st.orgs) && st.users == old(st.users) && st.expenses == old(st.expenses)
  {
    var snap := st.products;
    WriteStocksNonNegative(snap, org, lines);
    WriteStocksKeepsIds(snap, lines);
    AppendedAlertsKeepIds(st.alerts, snap, org, lines, now);
    saleId := |st.sales|;
    st.sales := st.sales + [Sale(saleId, org, pm, SaleTotal(lines), userId, now)];
    st.saleItems := st.saleItems + ItemsFor(saleId, lines);
    ApplyLines(st, org, saleId, userId, lines, now);
  }

  method PostSale(st: Store, session: Option<Session>, req: SaleRequest, now: int)
    returns (r: Response<Id>)
    requires st.Valid()
    modifies st
    ensures st.Valid()
    ensures Refusal(session, req, old(st.products)).Some? ==>
      && r == Err(Refusal(session, req, old(st.products)).value)
      && unchanged(st)
    ensures Refusal(session, req, old(st.products)).None? ==>
      var org, userId := session.value.orgId, session.value.userId;
      var lines := ToLines(req.items);
      var saleId := |old(st.sales)|;
      && r == Ok(201, saleId)
      && st.sales == old(st.sales)
           + [Sale(saleId, org, req.paymentMethod.GetOr(OTHER), SaleTotal(lines), userId, now)]
      && st.saleItems == old(st.saleItems) + ItemsFor(saleId, lines)
      && st.movements == old(st.movements) + OutMovements(org, saleId, userId, lines)
      && st.products == WriteStocks(old(st.products), lines)
      && st.alerts == old(st.alerts) + LowStockAlerts(old(st.products), org, lines, |old(st.alerts)|, now)
      && st.orgs == old(st.orgs) && st.users == old(st.users) && st.expenses == old(st.expenses)
  {
    if session.None? {
      return Err(Unauthorized);
    }
    var s := session.value;
    if !MayCreateSale(s.role) {
      return Err(Forbidden);
    }
    if !ValidSaleRequest(req) {
      return Err(InvalidData);
    }
    var lines := ToLines(req.items);
    var problem := CheckItems(st.products, s.orgId, lines);
    if problem.Some? {
      return Err(problem.value);
    }
    var saleId := CommitSale(st, s.orgId, s.userId, req.paymentMethod.GetOr(OTHER), lines, now);
    r := Ok(201, saleId);
  }
}
