/**
 * POST /api/inventory/move (app/api/inventory/move/route.ts): a manual stock
 * movement. IN adds the quantity, OUT subtracts it, ADJUST sets the stock to
 * it; a result below zero is refused. The product is looked up in the
 * caller's organization without regard to whether it is active.
 *
 * The schema accepts any positive quantity, fractional ones included. The
 * model takes the movement's quantity column and the stock column to be
 * integers, so a fractional quantity that gets past the negative-stock check
 * makes the first write (the movement row) throw, and nothing is written.
 */
module InventoryMoveApi {
  import opened Domain
  import opened Store
  import Permissions

  datatype MoveRequest = MoveRequest(
    productId: Id, kind: string, quantity: real, reason: Option<string>)

  /** The `type` enum of the request schema. */
  function ParseMoveType(s: string): (t: Option<MoveType>)
    ensures t == Some(IN) <==> s == "IN"
    ensures t == Some(OUT) <==> s == "OUT"
    ensures t == Some(ADJUST) <==> s == "ADJUST"
  {
    if s == "IN" then Some(IN)
    else if s == "OUT" then Some(OUT)
    else if s == "ADJUST" then Some(ADJUST)
    else None
  }

  /** The stock a movement of `kind` and quantity `q` leaves. */
  function NextStock(kind: MoveType, stock: int, q: real): real {
    match kind
    case IN => stock as real + q
    case OUT => stock as real - q
    case ADJUST => q
  }

  /** An IN followed by an OUT of the same quantity restores the stock. */
  lemma InThenOutRestores(stock: int, q: real)
    requires IsInt(q)
    ensures NextStock(OUT, NextStock(IN, stock, q).Floor, q) == stock as real
  {
    assert NextStock(IN, stock, q) == (stock + q.Floor) as real;
  }

  /** ADJUST ignores the old stock; OUT is refused exactly when it exceeds it. */
  lemma MoveTypeSemantics(stock: int, q: real)
    ensures NextStock(ADJUST, stock, q) == q
    ensures NextStock(OUT, stock, q) < 0.0 <==> q > stock as real
    ensures q > 0.0 ==> NextStock(IN, stock, q) > stock as real
    ensures q > 0.0 && stock >= 0 ==> NextStock(IN, stock, q) >= 0.0 && NextStock(ADJUST, stock, q) >= 0.0
  {
  }

  /** The product row the handler finds: the caller's organization, any status. */
  predicate FoundInOrg(ps: seq<Product>, org: Id, pid: Id) {
    pid < |ps| && ps[pid].orgId == org
  }

  /** Deactivating a product does not hide it from manual movements. */
  lemma ActiveFlagIgnored(ps: seq<Product>, org: Id, pid: Id, active: bool)
    requires pid < |ps|
    ensures FoundInOrg(ps[pid := ps[pid].(isActive := active)], org, pid) == FoundInOrg(ps, org, pid)
  {
  }

  function ReasonOf(reason: Option<string>): Reason {
    match reason
    case Some(t) => Note(t)
    case None => NoReason
  }

  /** The refusal the handler answers with, in the order it checks. */
  function MoveRefusal(session: Option<Session>, req: MoveRequest, ps: seq<Product>): (r: Option<Failure>)
    ensures session.None? ==> r == Some(Unauthorized)
    ensures session.Some? && !Permissions.CanMoveInventory(session.value.role) ==> r == Some(Forbidden)
    ensures (session.Some? && Permissions.CanMoveInventory(session.value.role)
             && (ParseMoveType(req.kind).None? || req.quantity <= 0.0)) ==> r == Some(InvalidData)
    ensures r.None? <==>
      && session.Some? && Permissions.CanMoveInventory(session.value.role)
      && FoundInOrg(ps, session.value.orgId, req.productId)
      && ParseMoveType(req.kind).Some? && req.quantity > 0.0 && IsInt(req.quantity)
      && NextStock(ParseMoveType(req.kind).value, ps[req.productId].stockCurrent, req.quantity) >= 0.0
  {
    if session.None? then Some(Unauthorized)
    else if !Permissions.CanMoveInventory(session.value.role) then Some(Forbidden)
    else if ParseMoveType(req.kind).None? || req.quantity <= 0.0 then Some(InvalidData)
    else if !FoundInOrg(ps, session.value.orgId, req.productId) then Some(ProductNotFound)
    else if NextStock(ParseMoveType(req.kind).value, ps[req.productId].stockCurrent, req.quantity) < 0.0
    then Some(NegativeStock)
    else if !IsInt(req.quantity) then Some(StorageFault)
    else None
  }

  /** An accepted movement leaves a whole, non-negative stock. */
  lemma AcceptedMoveKeepsStockValid(session: Option<Session>, req: MoveRequest, ps: seq<Product>)
    requires MoveRefusal(session, req, ps).None?
    ensures var next := NextStock(ParseMoveType(req.kind).value, ps[req.productId].stockCurrent, req.quantity);
      IsInt(next) && next.Floor >= 0
  {
    var q := req.quantity;
    var stock := ps[req.productId].stockCurrent;
    assert q == q.Floor as real;
    match ParseMoveType(req.kind).value
    case IN => assert NextStock(IN, stock, q) == (stock + q.Floor) as real;
    case OUT => assert NextStock(OUT, stock, q) == (stock - q.Floor) as real;
    case ADJUST =>
  }

  /** A refused movement names the reason in the handler's order of checks. */
  lemma MoveRefusalOrder(session: Option<Session>, req: MoveRequest, ps: seq<Product>)
    requires session.Some? && Permissions.CanMoveInventory(session.value.role)
    requires ParseMoveType(req.kind).Some? && req.quantity > 0.0
    ensures !FoundInOrg(ps, session.value.orgId, req.productId) ==> MoveRefusal(session, req, ps) == Some(ProductNotFound)
    ensures (FoundInOrg(ps, session.value.orgId, req.productId) && req.kind == "OUT"
             && ps[req.productId].stockCurrent as real < req.quantity) ==> MoveRefusal(session, req, ps) == Some(NegativeStock)
  {
  }

  method PostMove(st: Store, session: Option<Session>, req: MoveRequest) returns (r: Response<Product>)
    requires st.Valid()
    modifies st
    ensures st.Valid()
    ensures MoveRefusal(session, req, old(st.products)).Some? ==>
      r == Err(MoveRefusal(session, req, old(st.products)).value) && unchanged(st)
    ensures MoveRefusal(session, req, old(st.products)).None? ==>
      var pid := req.productId;
      var kind := ParseMoveType(req.kind).value;
      var p := old(st.products)[pid];
      var updated := p.(stockCurrent := NextStock(kind, p.stockCurrent, req.quantity).Floor);
      && st.movements == old(st.movements)
           + [Movement(session.value.orgId, pid, kind, req.quantity.Floor, ReasonOf(req.reason), session.value.userId)]
      && st.products == old(st.products)[pid := updated]
      && r == Ok(200, updated)
      && st.alerts == old(st.alerts) && st.sales == old(st.sales) && st.saleItems == old(st.saleItems)
      && st.orgs == old(st.orgs) && st.users == old(st.users) && st.expenses == old(st.expenses)
  {
    if session.None? {
      return Err(Unauthorized);
    }
    var s := session.value;
    if !Permissions.CanMoveInventory(s.role) {
      return Err(Forbidden);
    }
    var kind := ParseMoveType(req.kind);
    if kind.None? || req.quantity <= 0.0 {
      return Err(InvalidData);
    }
    var pid := req.productId;
    if !(pid < |st.products| && st.products[pid].orgId == s.orgId) {
      return Err(ProductNotFound);
    }
    var product := st.products[pid];

    var next := product.stockCurrent as real;
    if kind.value == IN { next := next + req.quantity; }
    if kind.value == OUT { next := next - req.quantity; }
    if kind.value == ADJUST { next := req.quantity; }

    if next < 0.0 {
      return Err(NegativeStock);
    }
    if !IsInt(req.quantity) {
      return Err(StorageFault);
    }
    st.movements := st.movements
      + [Movement(s.orgId, pid, kind.value, req.quantity.Floor, ReasonOf(req.reason), s.userId)];
    st.products := st.products[pid := product.(stockCurrent := next.Floor)];
    r := Ok(200, st.products[pid]);
  }
}
