/**
 * The product catalog screen (app/products/ProductsClient.tsx): search,
 * pages of 12 cards, the numbered page buttons, and the low-stock flag.
 *
 * The current page only ever changes through the previous/next buttons, a
 * page button, or a reset to 1 when the query changes, so it is at least 1.
 */
module ProductsClient {
  import opened Domain
  import Seqs
  import Text
  import PosCart
  import ProductsApi

  const PAGE_SIZE: nat := 12

  /** A blank query keeps every product; any other keeps the matching ones. */
  function Filtered(products: seq<Product>, query: string): seq<Product> {
    var q := Text.Lower(Text.Trim(query));
    if q == [] then products else Seqs.Filter(products, (p: Product) => PosCart.Matches(p, q))
  }

  /**
   * A blank query keeps all products; any other keeps exactly the matching
   * ones, each as often as it occurs, in catalog order.
   */
  lemma FilteredSpec(products: seq<Product>, query: string)
    ensures Text.Lower(Text.Trim(query)) == [] ==> Filtered(products, query) == products
    ensures var q := Text.Lower(Text.Trim(query));
      q != [] ==> forall p :: p in Filtered(products, query) <==> p in products && PosCart.Matches(p, q)
    ensures var q := Text.Lower(Text.Trim(query));
      q != [] ==> forall p :: multiset(Filtered(products, query))[p] == if PosCart.Matches(p, q) then multiset(products)[p] else 0
    ensures Seqs.IsSubsequence(Filtered(products, query), products)
    ensures |Filtered(products, query)| <= |products|
  {
    var q := Text.Lower(Text.Trim(query));
    if q != [] {
      var keep := (p: Product) => PosCart.Matches(p, q);
      forall p ensures p in Filtered(products, query) <==> p in products && PosCart.Matches(p, q) {
        Seqs.FilterMembers(products, keep, p);
      }
      forall p ensures multiset(Filtered(products, query))[p] == if PosCart.Matches(p, q) then multiset(products)[p] else 0 {
        Seqs.FilterMultiset(products, keep, p);
      }
      Seqs.FilterSubsequence(products, keep);
    } else {
      Seqs.FilterSubsequence(products, (p: Product) => true);
      Seqs.FilterAll(products, (p: Product) => true);
    }
  }

  /** `Math.max(1, Math.ceil(n / 12))`. */
  function TotalPages(n: nat): (r: nat)
    ensures r >= 1
    ensures n <= r * PAGE_SIZE
    ensures r == 1 || (r - 1) * PAGE_SIZE < n
  {
    if n == 0 then 1 else (n + PAGE_SIZE - 1) / PAGE_SIZE
  }

  /** `Math.min(page, totalPages)`. */
  function SafePage(page: int, totalPages: nat): (r: int)
    ensures page >= 1 && totalPages >= 1 ==> 1 <= r <= totalPages
    ensures r <= page && (page <= totalPages ==> r == page)
  {
    if page < totalPages then page else totalPages
  }

  /** The previous-page button. */
  function PrevPage(page: int): (r: int)
    ensures r >= 1 && (page > 1 ==> r == page - 1)
  {
    if page - 1 > 1 then page - 1 else 1
  }

  /** The next-page button. */
  function NextPage(page: int, totalPages: nat): (r: int)
    ensures page >= 1 && totalPages >= 1 ==> 1 <= r <= totalPages
    ensures page < totalPages ==> r == page + 1
  {
    if totalPages < page + 1 then totalPages else page + 1
  }

  /** `s.slice(start, end)` for 0 <= start <= end, clamped to the length. */
  function Slice<T>(s: seq<T>, start: nat, end: nat): (r: seq<T>)
    requires start <= end
    ensures |r| <= end - start
    ensures start <= |s| ==> r == s[start..if end <= |s| then end else |s|]
  {
    if start >= |s| then [] else s[start..if end <= |s| then end else |s|]
  }

  /** The cards shown on `safePage`. */
  function PageItems<T>(items: seq<T>, safePage: int): seq<T>
    requires safePage >= 1
  {
    var start := (safePage - 1) * PAGE_SIZE;
    Slice(items, start, start + PAGE_SIZE)
  }

  /**
   * A page holds at most 12 cards, and every item is on exactly the page its
   * position says, at the place its position says.
   */
  lemma PagesCoverItems<T>(items: seq<T>, k: nat)
    requires k < |items|
    ensures var page := k / PAGE_SIZE + 1;
      && 1 <= page <= TotalPages(|items|)
      && k % PAGE_SIZE < |PageItems(items, page)|
      && PageItems(items, page)[k % PAGE_SIZE] == items[k]
    ensures forall page :: page >= 1 ==> |PageItems(items, page)| <= PAGE_SIZE
  {
    var page := k / PAGE_SIZE + 1;
    var start := (page - 1) * PAGE_SIZE;
    assert start + k % PAGE_SIZE == k;
  }

  /** Strictly increasing. */
  predicate Ascending(s: seq<int>) {
    forall i, j :: 0 <= i < j < |s| ==> s[i] < s[j]
  }

  /** Inserts a new page number at its place. */
  function InsertAscending(s: seq<int>, x: int): (r: seq<int>)
    ensures forall y :: y in r <==> y in s || y == x
    ensures |r| == |s| + 1
  {
    if s == [] then [x]
    else if x < s[0] then [x] + s
    else [s[0]] + InsertAscending(s[1..], x)
  }

  lemma {:induction false} InsertAscendingSorted(s: seq<int>, x: int)
    requires Ascending(s) && x !in s
    ensures Ascending(InsertAscending(s, x))
  {
    if s != [] && x >= s[0] {
      InsertAscendingSorted(s[1..], x);
      var t := InsertAscending(s[1..], x);
      forall j | 0 <= j < |t| ensures s[0] < t[j] {
        assert t[j] in s[1..] || t[j] == x;
      }
    }
  }

  /** The numbers `getPages` puts in its set before filtering. */
  function Candidates(totalPages: nat, safePage: int): set<int> {
    {1, totalPages, safePage, safePage - 1, safePage + 1}
  }

  lemma AddOneCard(a: set<int>, x: int)
    ensures |a + {x}| <= |a| + 1
  {
    if x in a {
      assert a + {x} == a;
    }
  }

  lemma RemoveOneCard(a: set<int>, x: int)
    requires x in a
    ensures |a - {x}| == |a| - 1
  {
  }

  /** At most five distinct candidates. */
  lemma CandidatesAtMostFive(totalPages: nat, safePage: int)
    ensures |Candidates(totalPages, safePage)| <= 5
  {
    var s1: set<int> := {1};
    AddOneCard(s1, totalPages);
    var s2 := s1 + {totalPages};
    AddOneCard(s2, safePage);
    var s3 := s2 + {safePage};
    AddOneCard(s3, safePage - 1);
    var s4 := s3 + {safePage - 1};
    AddOneCard(s4, safePage + 1);
    assert Candidates(totalPages, safePage) == s4 + {safePage + 1};
  }

  /** `Array.from(pages).filter(…).sort(…)`: the numbers of `pages` within 1..totalPages, ascending. */
  method AscendingWithin(pages: set<int>, totalPages: nat) returns (r: seq<int>)
    ensures forall x :: x in r <==> x in pages && 1 <= x <= totalPages
    ensures |r| <= |pages|
    ensures Ascending(r)
  {
    r := [];
    var rest := pages;
    while rest != {}
      invariant rest <= pages
      invariant Ascending(r)
      invariant forall x :: x in r <==> x in pages - rest && 1 <= x <= totalPages
      invariant |r| + |rest| <= |pages|
      decreases |rest|
    {
      assert exists y :: y in rest by {
        if forall y :: y !in rest {
          assert false;
        }
      }
      var x :| x in rest;
      if 1 <= x <= totalPages {
        InsertAscendingSorted(r, x);
        r := InsertAscending(r, x);
      }
      RemoveOneCard(rest, x);
      rest := rest - {x};
    }
  }

  /** The page buttons. */
  method GetPages(totalPages: nat, safePage: int) returns (r: seq<int>)
    ensures totalPages <= 7 ==> |r| == totalPages && forall i :: 0 <= i < |r| ==> r[i] == i + 1
    ensures totalPages > 7 ==> forall x :: x in r <==> x in Candidates(totalPages, safePage) && 1 <= x <= totalPages
    ensures totalPages > 7 ==> |r| <= 5
    ensures Ascending(r)
  {
    if totalPages <= 7 {
      return seq(totalPages, i requires 0 <= i < totalPages => i + 1);
    }
    var pages: set<int> := {};
    pages := pages + {1};
    pages := pages + {totalPages};
    pages := pages + {safePage};
    pages := pages + {safePage - 1};
    pages := pages + {safePage + 1};
    assert pages == Candidates(totalPages, safePage);
    CandidatesAtMostFive(totalPages, safePage);
    r := AscendingWithin(pages, totalPages);
  }

  /** With more than 7 pages the buttons always include the first, the last and the current page. */
  lemma PagesIncludeEnds(totalPages: nat, safePage: int)
    requires totalPages > 7 && 1 <= safePage <= totalPages
    ensures 1 in Candidates(totalPages, safePage) && totalPages in Candidates(totalPages, safePage)
    ensures safePage in Candidates(totalPages, safePage)
    ensures forall x :: x in Candidates(totalPages, safePage) && 1 <= x <= totalPages ==>
      x == 1 || x == totalPages || safePage - 1 <= x <= safePage + 1
  {
  }

  /** The "Stock bajo" chip. */
  predicate IsLow(p: Product) {
    p.stockCurrent <= p.stockMin
  }

  /** A product just created through the catalog API starts out flagged low. */
  lemma NewProductIsLow(req: ProductsApi.ProductRequest, org: Id, id: Id, now: int)
    requires ProductsApi.ValidProductRequest(req)
    ensures IsLow(ProductsApi.NewProduct(req, org, id, now))
  {
  }
}
