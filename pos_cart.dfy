/**
 * The point-of-sale screen's client logic (app/sales/new/SalesPOSClient.tsx):
 * the SKU lookup table, the product search, the cart operations, the cart
 * total and the barcode scan.
 *
 * The cart is a list of lines, at most one per product; every operation
 * returns the next cart from the previous one.
 */
module PosCart {
  import opened Domain
  import Seqs
  import Text

  datatype CartItem = CartItem(
    productId: Id, name: string, unitPrice: int, quantity: int, sku: Option<string>)

  function ItemProductId(i: CartItem): int {
    i.productId
  }

  /** At most one line per product. */
  predicate DistinctProducts(cart: seq<CartItem>) {
    Seqs.DistinctBy(cart, ItemProductId)
  }

  predicate AllPositive(cart: seq<CartItem>) {
    forall i :: 0 <= i < |cart| ==> cart[i].quantity > 0
  }

  // ---------------------------------------------------------------- SKU table

  /** `if (p.sku)`: a SKU that is neither null nor empty. */
  predicate HasSku(p: Product) {
    p.sku.Some? && p.sku.value != []
  }

  /** The product is filed under `key` in the SKU table. */
  predicate KeyedBy(p: Product, key: string) {
    HasSku(p) && Text.Lower(p.sku.value) == key
  }

  /** The SKU table: lower-cased SKU to product, a later product replacing an earlier one. */
  function SkuIndex(ps: seq<Product>): map<string, Product> {
    if ps == [] then map[]
    else
      var m := SkuIndex(ps[..|ps| - 1]);
      var p := ps[|ps| - 1];
      if HasSku(p) then m[Text.Lower(p.sku.value) := p] else m
  }

  /**
   * A key is in the table iff some product is filed under it, and it maps to
   * the last such product.
   */
  lemma {:induction false} SkuIndexSpec(ps: seq<Product>, key: string)
    ensures key in SkuIndex(ps) <==> exists i :: 0 <= i < |ps| && KeyedBy(ps[i], key)
    ensures key in SkuIndex(ps) ==>
      exists i :: 0 <= i < |ps| && KeyedBy(ps[i], key) && SkuIndex(ps)[key] == ps[i]
        && forall j :: i < j < |ps| ==> !KeyedBy(ps[j], key)
  {
    if ps != [] {
      var init := ps[..|ps| - 1];
      var p := ps[|ps| - 1];
      SkuIndexSpec(init, key);
      assert forall i :: 0 <= i < |init| ==> init[i] == ps[i];
      if KeyedBy(p, key) {
        assert KeyedBy(ps[|ps| - 1], key);
      } else if key in SkuIndex(init) {
        var i :| 0 <= i < |init| && KeyedBy(init[i], key) && SkuIndex(init)[key] == init[i]
          && forall j :: i < j < |init| ==> !KeyedBy(init[j], key);
        assert KeyedBy(ps[i], key);
      } else {
        assert forall i :: 0 <= i < |ps| ==> !KeyedBy(ps[i], key);
      }
    }
  }

  /** The `for` loop that fills the map. */
  method ProductBySku(products: seq<Product>) returns (m: map<string, Product>)
    ensures m == SkuIndex(products)
  {
    m := map[];
    var i := 0;
    while i < |products|
      invariant 0 <= i <= |products|
      invariant m == SkuIndex(products[..i])
    {
      assert products[..i + 1][..i] == products[..i];
      var p := products[i];
      if p.sku.Some? && p.sku.value != [] {
        m := m[Text.Lower(p.sku.value) := p];
      }
      i := i + 1;
    }
    assert products[..i] == products;
  }

  // ------------------------------------------------------------------ search

  const BLANK_LIMIT: nat := 20
  const MATCH_LIMIT: nat := 40

  /** The lower-cased name or SKU contains the (already normalized) query. */
  predicate Matches(p: Product, q: string) {
    Text.Contains(Text.Lower(p.name), q) || (p.sku.Some? && Text.Contains(Text.Lower(p.sku.value), q))
  }

  /** The products whose name or SKU contains the normalized query, in catalog order. */
  function Matching(products: seq<Product>, q: string): seq<Product> {
    Seqs.Filter(products, (p: Product) => Matches(p, q))
  }

  /** The product list under the search box. */
  function Search(products: seq<Product>, query: string): seq<Product> {
    var q := Text.Lower(Text.Trim(query));
    if q == [] then Seqs.Take(products, BLANK_LIMIT)
    else Seqs.Take(Matching(products, q), MATCH_LIMIT)
  }

  /**
   * A blank query shows the first 20 products; any other shows the first 40
   * matching products (all of them when there are at most 40), every one
   * matching, in catalog order.
   */
  lemma SearchSpec(products: seq<Product>, query: string)
    ensures var q := Text.Lower(Text.Trim(query));
      q == [] ==> Search(products, query) == Seqs.Take(products, BLANK_LIMIT)
    ensures |Search(products, query)| <= MATCH_LIMIT
    ensures Seqs.IsSubsequence(Search(products, query), products)
    ensures var q := Text.Lower(Text.Trim(query));
      q != [] ==>
        && Search(products, query) <= Matching(products, q)
        && |Search(products, query)| == (if |Matching(products, q)| <= MATCH_LIMIT then |Matching(products, q)| else MATCH_LIMIT)
        && (forall p :: p in Search(products, query) ==> p in products && Matches(p, q))
        && (|Matching(products, q)| <= MATCH_LIMIT ==>
              forall p :: p in products && Matches(p, q) ==> p in Search(products, query))
  {
    var q := Text.Lower(Text.Trim(query));
    var r := Search(products, query);
    if q == [] {
      Seqs.FilterSubsequence(products, (p: Product) => true);
      Seqs.FilterAll(products, (p: Product) => true);
      Seqs.SubsequencePrefix(products, products, |r|);
      assert r == products[..|r|];
    } else {
      var all := Matching(products, q);
      assert r == all[..|r|];
      Seqs.FilterSubsequence(products, (p: Product) => Matches(p, q));
      Seqs.SubsequencePrefix(all, products, |r|);
      forall p | p in r ensures p in products && Matches(p, q) {
        assert p in all;
        Seqs.FilterMembers(products, (p: Product) => Matches(p, q), p);
      }
      if |all| <= MATCH_LIMIT {
        forall p | p in products && Matches(p, q) ensures p in r {
          Seqs.FilterMembers(products, (p: Product) => Matches(p, q), p);
        }
      }
    }
  }

  // -------------------------------------------------------------------- cart

  /** `findIndex` on the product id. */
  function FindLine(cart: seq<CartItem>, id: Id): (r: Option<nat>)
    ensures r.Some? ==> r.value < |cart| && cart[r.value].productId == id
    ensures r.Some? ==> forall j :: 0 <= j < r.value ==> cart[j].productId != id
    ensures r.None? <==> forall j :: 0 <= j < |cart| ==> cart[j].productId != id
  {
    if cart == [] then None
    else if cart[0].productId == id then Some(0)
    else
      match FindLine(cart[1..], id)
      case Some(k) => Some(k + 1)
      case None => None
  }

  /** Add `qty` of `p`: raise its line, or append a line at the sale price. */
  function AddToCart(cart: seq<CartItem>, p: Product, qty: int): seq<CartItem> {
    match FindLine(cart, p.id)
    case Some(i) => cart[i := cart[i].(quantity := cart[i].quantity + qty)]
    case None => cart + [CartItem(p.id, p.name, p.salePrice, qty, p.sku)]
  }

  function IncLine(i: CartItem, id: Id): CartItem {
    if i.productId == id then i.(quantity := i.quantity + 1) else i
  }

  function DecLine(i: CartItem, id: Id): CartItem {
    if i.productId == id then i.(quantity := i.quantity - 1) else i
  }

  function Inc(cart: seq<CartItem>, id: Id): seq<CartItem> {
    seq(|cart|, k requires 0 <= k < |cart| => IncLine(cart[k], id))
  }

  function Dec(cart: seq<CartItem>, id: Id): seq<CartItem> {
    Seqs.Filter(seq(|cart|, k requires 0 <= k < |cart| => DecLine(cart[k], id)), (i: CartItem) => i.quantity > 0)
  }

  function Remove(cart: seq<CartItem>, id: Id): seq<CartItem> {
    Seqs.Filter(cart, (i: CartItem) => i.productId != id)
  }

  function LineAmount(i: CartItem): int {
    i.quantity * i.unitPrice
  }

  /** The amount shown under the cart. */
  function Total(cart: seq<CartItem>): int {
    Seqs.Sum(cart, LineAmount)
  }

  /** Adding a product already in the cart raises that line only: same length, same order. */
  lemma AddExisting(cart: seq<CartItem>, p: Product, qty: int, i: nat)
    requires DistinctProducts(cart)
    requires i < |cart| && cart[i].productId == p.id
    ensures var r := AddToCart(cart, p, qty);
      && |r| == |cart| && r[i] == cart[i].(quantity := cart[i].quantity + qty)
      && (forall j :: 0 <= j < |cart| && j != i ==> r[j] == cart[j])
      && Total(r) == Total(cart) + qty * cart[i].unitPrice
  {
    var k := FindLine(cart, p.id);
    assert k == Some(i) by {
      if k.value != i {
        assert cart[k.value].productId == cart[i].productId;
      }
    }
    Seqs.SumUpdate(cart, i, cart[i].(quantity := cart[i].quantity + qty), LineAmount);
  }

  /** Adding a product not in the cart appends one line at its sale price. */
  lemma AddNew(cart: seq<CartItem>, p: Product, qty: int)
    requires forall j :: 0 <= j < |cart| ==> cart[j].productId != p.id
    ensures AddToCart(cart, p, qty) == cart + [CartItem(p.id, p.name, p.salePrice, qty, p.sku)]
    ensures Total(AddToCart(cart, p, qty)) == Total(cart) + qty * p.salePrice
  {
    var line := CartItem(p.id, p.name, p.salePrice, qty, p.sku);
    Seqs.SumConcat(cart, [line], LineAmount);
    assert Seqs.Sum([line], LineAmount) == LineAmount(line) + Seqs.Sum([line][1..], LineAmount);
  }

  lemma AddKeepsDistinct(cart: seq<CartItem>, p: Product, qty: int)
    requires DistinctProducts(cart)
    ensures DistinctProducts(AddToCart(cart, p, qty))
  {
    var r := AddToCart(cart, p, qty);
    if FindLine(cart, p.id).None? {
      forall i, j | 0 <= i < j < |r| ensures r[i].productId != r[j].productId {
        if j == |cart| {
          assert r[i] == cart[i];
        }
      }
    }
  }

  /** With one line per product, `inc` raises the matching line by one and nothing else. */
  lemma {:induction false} IncSpec(cart: seq<CartItem>, id: Id)
    requires DistinctProducts(cart)
    ensures DistinctProducts(Inc(cart, id))
    ensures FindLine(cart, id).None? ==> Inc(cart, id) == cart
    ensures FindLine(cart, id).Some? ==>
      var i := FindLine(cart, id).value;
      && Inc(cart, id) == cart[i := cart[i].(quantity := cart[i].quantity + 1)]
      && Total(Inc(cart, id)) == Total(cart) + cart[i].unitPrice
  {
    var r := Inc(cart, id);
    forall a, b | 0 <= a < b < |r| ensures ItemProductId(r[a]) != ItemProductId(r[b]) {
      assert r[a].productId == cart[a].productId && r[b].productId == cart[b].productId;
    }
    match FindLine(cart, id)
    case None =>
      assert r == cart by {
        forall k | 0 <= k < |r| ensures r[k] == cart[k] {
          assert cart[k].productId != id;
        }
      }
    case Some(i) =>
      IncOneLine(cart, id, i);
      Seqs.SumUpdate(cart, i, cart[i].(quantity := cart[i].quantity + 1), LineAmount);
  }

  lemma {:induction false} IncOneLine(cart: seq<CartItem>, id: Id, i: nat)
    requires DistinctProducts(cart)
    requires i < |cart| && cart[i].productId == id
    ensures Inc(cart, id) == cart[i := cart[i].(quantity := cart[i].quantity + 1)]
  {
    var r := Inc(cart, id);
    var t := cart[i := cart[i].(quantity := cart[i].quantity + 1)];
    forall k | 0 <= k < |r| ensures r[k] == t[k] {
      if k != i {
        assert cart[k].productId != cart[i].productId;
      }
    }
  }

  /** `dec` keeps one line per product and drops every line that reaches zero. */
  lemma DecSpec(cart: seq<CartItem>, id: Id)
    requires DistinctProducts(cart)
    ensures DistinctProducts(Dec(cart, id))
    ensures AllPositive(Dec(cart, id))
    ensures AllPositive(cart) && FindLine(cart, id).None? ==> Dec(cart, id) == cart
    ensures AllPositive(cart) && FindLine(cart, id).Some? ==>
      var i := FindLine(cart, id).value;
      Dec(cart, id) == if cart[i].quantity > 1 then cart[i := cart[i].(quantity := cart[i].quantity - 1)]
                       else cart[..i] + cart[i + 1..]
  {
    var mapped := seq(|cart|, k requires 0 <= k < |cart| => DecLine(cart[k], id));
    var keep := (i: CartItem) => i.quantity > 0;
    assert forall k :: 0 <= k < |mapped| ==> mapped[k].productId == cart[k].productId;
    Seqs.FilterKeepsDistinct(mapped, keep, ItemProductId);
    var r := Dec(cart, id);
    forall k | 0 <= k < |r| ensures r[k].quantity > 0 {
      Seqs.FilterMembers(mapped, keep, r[k]);
    }
    if AllPositive(cart) && FindLine(cart, id).None? {
      assert mapped == cart;
      Seqs.FilterAll(cart, keep);
    }
    if AllPositive(cart) && FindLine(cart, id).Some? {
      DecOneLine(cart, id, FindLine(cart, id).value);
    }
  }

  lemma {:induction false} DecOneLine(cart: seq<CartItem>, id: Id, i: nat)
    requires DistinctProducts(cart) && AllPositive(cart)
    requires i < |cart| && cart[i].productId == id
    ensures Dec(cart, id) == if cart[i].quantity > 1 then cart[i := cart[i].(quantity := cart[i].quantity - 1)]
                             else cart[..i] + cart[i + 1..]
  {
    var mapped := seq(|cart|, k requires 0 <= k < |cart| => DecLine(cart[k], id));
    var keep := (i: CartItem) => i.quantity > 0;
    var t := cart[i := cart[i].(quantity := cart[i].quantity - 1)];
    forall k | 0 <= k < |cart| ensures mapped[k] == t[k] {
      if k != i {
        assert cart[k].productId != cart[i].productId;
      }
    }
    assert mapped == t;
    if cart[i].quantity > 1 {
      Seqs.FilterAll(mapped, keep);
    } else {
      Seqs.RemoveOne(mapped, i, keep);
      assert mapped[..i] == cart[..i];
      assert mapped[i + 1..] == cart[i + 1..];
    }
  }

  /** `remove` drops exactly the matching line. */
  lemma RemoveSpec(cart: seq<CartItem>, id: Id)
    requires DistinctProducts(cart)
    ensures DistinctProducts(Remove(cart, id))
    ensures forall j :: 0 <= j < |Remove(cart, id)| ==> Remove(cart, id)[j].productId != id
    ensures FindLine(cart, id).None? ==> Remove(cart, id) == cart
    ensures FindLine(cart, id).Some? ==>
      var i := FindLine(cart, id).value;
      && Remove(cart, id) == cart[..i] + cart[i + 1..]
      && Total(Remove(cart, id)) == Total(cart) - LineAmount(cart[i])
  {
    var keep := (i: CartItem) => i.productId != id;
    Seqs.FilterKeepsDistinct(cart, keep, ItemProductId);
    var r := Remove(cart, id);
    forall j | 0 <= j < |r| ensures r[j].productId != id {
      Seqs.FilterMembers(cart, keep, r[j]);
    }
    match FindLine(cart, id)
    case None =>
      Seqs.FilterAll(cart, keep);
    case Some(i) =>
      assert forall j :: 0 <= j < |cart| && j != i ==> keep(cart[j]);
      Seqs.RemoveOne(cart, i, keep);
      Seqs.RemoveOneSum(cart, i, keep, LineAmount);
  }

  // -------------------------------------------------------------------- scan

  /** What the scan field reports after Enter. */
  datatype ScanOutcome = Ignored | NotFound | Added(name: string)

  /** Enter in the scan field: look the code up and add one of that product. */
  function Scan(cart: seq<CartItem>, index: map<string, Product>, scan: string)
    : (r: (seq<CartItem>, ScanOutcome))
    ensures r.1.Added? ==> Text.Lower(Text.Trim(scan)) in index
    ensures !r.1.Added? ==> r.0 == cart
    ensures r.1 == Ignored <==> Text.Lower(Text.Trim(scan)) == []
    ensures r.1 == NotFound <==> Text.Lower(Text.Trim(scan)) != [] && Text.Lower(Text.Trim(scan)) !in index
    ensures r.1.Added? ==> var p := index[Text.Lower(Text.Trim(scan))];
      r.1.name == p.name && r.0 == AddToCart(cart, p, 1)
  {
    var code := Text.Lower(Text.Trim(scan));
    if code == [] then (cart, Ignored)
    else if code !in index then (cart, NotFound)
    else (AddToCart(cart, index[code], 1), Added(index[code].name))
  }

  /**
   * Scanning a product's SKU in any letter case, with surrounding blanks,
   * adds one of the last product filed under that SKU.
   */
  lemma ScanFindsSku(cart: seq<CartItem>, products: seq<Product>, code: string)
    requires DistinctProducts(cart)
    requires Text.Lower(Text.Trim(code)) != []
    requires exists i :: 0 <= i < |products| && KeyedBy(products[i], Text.Lower(Text.Trim(code)))
    ensures var r := Scan(cart, SkuIndex(products), code);
      && r.1.Added?
      && DistinctProducts(r.0)
      && exists i :: 0 <= i < |products| && KeyedBy(products[i], Text.Lower(Text.Trim(code)))
           && r.0 == AddToCart(cart, products[i], 1)
  {
    SkuIndexSpec(products, Text.Lower(Text.Trim(code)));
    AddKeepsDistinct(cart, SkuIndex(products)[Text.Lower(Text.Trim(code))], 1);
  }
}
