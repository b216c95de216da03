/**
 * GET and POST /api/products (app/api/products/route.ts): the caller
 * organization's active products, newest first; and creating a product,
 * which only OWNER and ADMIN may do.
 *
 * The request schema: a non-empty name, prices that are non-negative numbers
 * defaulting to 0, and a stock minimum that is a non-negative integer
 * defaulting to 0. A new product starts with no stock and no SKU.
 */
module ProductsApi {
  import opened Domain
  import opened Store
  import Seqs
  import Permissions

  function ProductCreatedAt(p: Product): int {
    p.createdAt
  }

  predicate ListedFor(p: Product, org: Id) {
    p.orgId == org && p.isActive
  }

  /** The organization's active products, newest first. */
  function ActiveOrgProducts(ps: seq<Product>, org: Id): seq<Product> {
    Seqs.SortDesc(Seqs.Filter(ps, (p: Product) => ListedFor(p, org)), ProductCreatedAt)
  }

  /** The listing holds exactly the organization's active products, newest first. */
  lemma ActiveOrgProductsSpec(ps: seq<Product>, org: Id)
    ensures Seqs.SortedDesc(ActiveOrgProducts(ps, org), ProductCreatedAt)
    ensures forall p :: p in ActiveOrgProducts(ps, org) <==> p in ps && p.orgId == org && p.isActive
    ensures forall p :: multiset(ActiveOrgProducts(ps, org))[p] == if ListedFor(p, org) then multiset(ps)[p] else 0
  {
    Seqs.ListingSpec(ps, (p: Product) => ListedFor(p, org), ProductCreatedAt);
  }

  method GetProducts(st: Store, session: Option<Session>) returns (r: Response<seq<Product>>)
    ensures session.None? ==> r == Err(Unauthorized)
    ensures session.Some? ==> r == Ok(200, ActiveOrgProducts(st.products, session.value.orgId))
  {
    if session.None? {
      return Err(Unauthorized);
    }
    r := Ok(200, ActiveOrgProducts(st.products, session.value.orgId));
  }

  /** The request body; an absent field is None. */
  datatype ProductRequest = ProductRequest(
    name: Option<string>, salePrice: Option<int>, costPrice: Option<int>, stockMin: Option<real>)

  predicate ValidProductRequest(req: ProductRequest) {
    && req.name.Some? && |req.name.value| >= 1
    && req.salePrice.GetOr(0) >= 0
    && req.costPrice.GetOr(0) >= 0
    && IsInt(req.stockMin.GetOr(0.0)) && req.stockMin.GetOr(0.0) >= 0.0
  }

  /** The row created for a valid request. */
  function NewProduct(req: ProductRequest, org: Id, id: Id, now: int): (p: Product)
    requires ValidProductRequest(req)
    ensures p.id == id && p.orgId == org && p.name == req.name.value
    ensures p.stockCurrent == 0 && p.sku.None? && p.isActive && p.createdAt == now
    ensures p.salePrice >= 0 && p.costPrice >= 0 && p.stockMin >= 0
    ensures req.salePrice.Some? ==> p.salePrice == req.salePrice.value
    ensures req.costPrice.Some? ==> p.costPrice == req.costPrice.value
    ensures req.stockMin.Some? ==> p.stockMin as real == req.stockMin.value
  {
    Product(id, org, req.name.value, None, req.salePrice.GetOr(0), req.costPrice.GetOr(0),
            0, req.stockMin.GetOr(0.0).Floor, true, now)
  }

  /** Omitted prices and stock minimum are 0. */
  lemma DefaultsAreZero(name: string, org: Id, id: Id, now: int)
    requires |name| >= 1
    ensures var req := ProductRequest(Some(name), None, None, None);
      ValidProductRequest(req) &&
      var p := NewProduct(req, org, id, now);
      p.salePrice == 0 && p.costPrice == 0 && p.stockMin == 0
  {
  }

  function ProductRefusal(session: Option<Session>, req: ProductRequest): (r: Option<Failure>)
    ensures r.None? <==>
      session.Some? && Permissions.CanManageCatalog(session.value.role) && ValidProductRequest(req)
    ensures r == Some(Forbidden) <==> session.Some? && !Permissions.CanManageCatalog(session.value.role)
    ensures r == Some(Unauthorized) <==> session.None?
  {
    if session.None? then Some(Unauthorized)
    else if !Permissions.CanManageCatalog(session.value.role) then Some(Forbidden)
    else if !ValidProductRequest(req) then Some(InvalidData)
    else None
  }

  /** A created product shows up in the organization's listing. */
  lemma CreatedProductIsListed(ps: seq<Product>, req: ProductRequest, org: Id, now: int)
    requires ValidProductRequest(req)
    ensures NewProduct(req, org, |ps|, now) in ActiveOrgProducts(ps + [NewProduct(req, org, |ps|, now)], org)
  {
    ActiveOrgProductsSpec(ps + [NewProduct(req, org, |ps|, now)], org);
  }

  method PostProduct(st: Store, session: Option<Session>, req: ProductRequest, now: int)
    returns (r: Response<Product>)
    requires st.Valid()
    modifies st
    ensures st.Valid()
    ensures ProductRefusal(session, req).Some? ==>
      r == Err(ProductRefusal(session, req).value) && unchanged(st)
    ensures ProductRefusal(session, req).None? ==>
      var created := NewProduct(req, session.value.orgId, |old(st.products)|, now);
      && st.products == old(st.products) + [created]
      && r == Ok(201, created)
      && st.alerts == old(st.alerts) && st.movements == old(st.movements)
      && st.sales == old(st.sales) && st.saleItems == old(st.saleItems)
      && st.orgs == old(st.orgs) && st.users == old(st.users) && st.expenses == old(st.expenses)
  {
    if session.None? {
      return Err(Unauthorized);
    }
    if !Permissions.CanManageCatalog(session.value.role) {
      return Err(Forbidden);
    }
    if !ValidProductRequest(req) {
      return Err(InvalidData);
    }
    var created := Product(|st.products|, session.value.orgId, req.name.value, None,
                           req.salePrice.GetOr(0), req.costPrice.GetOr(0),
                           0, req.stockMin.GetOr(0.0).Floor, true, now);
    st.products := st.products + [created];
    r := Ok(201, created);
  }
}
