/**
 * The dashboard's derived figures (app/dashboard/DashboardClient.tsx): the
 * sales and expenses since the start of the selected range, the KPI cards,
 * the best-sellers list and the recent-activity feed.
 *
 * `from` (midnight of the first day of the range) is an input. The sales and
 * expenses arrive in the order the page loaded them.
 */
module Dashboard {
  import opened Domain
  import Seqs

  predicate SaleSince(s: Sale, from: int) {
    s.dateTime >= from
  }

  predicate ExpenseSince(e: Expense, from: int) {
    e.date >= from
  }

  function FilteredSales(sales: seq<Sale>, from: int): seq<Sale> {
    Seqs.Filter(sales, (s: Sale) => SaleSince(s, from))
  }

  function FilteredExpenses(expenses: seq<Expense>, from: int): seq<Expense> {
    Seqs.Filter(expenses, (e: Expense) => ExpenseSince(e, from))
  }

  /** The filtered lists keep exactly the rows dated at or after `from`, as often as they occur, in load order. */
  lemma FilteredSpec(sales: seq<Sale>, expenses: seq<Expense>, from: int)
    ensures forall s :: multiset(FilteredSales(sales, from))[s] == if s.dateTime >= from then multiset(sales)[s] else 0
    ensures forall e :: multiset(FilteredExpenses(expenses, from))[e] == if e.date >= from then multiset(expenses)[e] else 0
    ensures Seqs.IsSubsequence(FilteredSales(sales, from), sales)
    ensures Seqs.IsSubsequence(FilteredExpenses(expenses, from), expenses)
  {
    Seqs.FilterSubsequence(sales, (s: Sale) => SaleSince(s, from));
    Seqs.FilterSubsequence(expenses, (e: Expense) => ExpenseSince(e, from));
    forall s ensures multiset(FilteredSales(sales, from))[s] == if s.dateTime >= from then multiset(sales)[s] else 0 {
      Seqs.FilterMultiset(sales, (s: Sale) => SaleSince(s, from), s);
    }
    forall e ensures multiset(FilteredExpenses(expenses, from))[e] == if e.date >= from then multiset(expenses)[e] else 0 {
      Seqs.FilterMultiset(expenses, (e: Expense) => ExpenseSince(e, from), e);
    }
  }

  /** A later `from` (a shorter range) keeps a subset of the rows. */
  lemma ShorterRangeFewerSales(sales: seq<Sale>, from1: int, from2: int, s: Sale)
    requires from1 <= from2
    ensures multiset(FilteredSales(sales, from2))[s] <= multiset(FilteredSales(sales, from1))[s]
  {
    Seqs.FilterMultiset(sales, (s: Sale) => SaleSince(s, from1), s);
    Seqs.FilterMultiset(sales, (s: Sale) => SaleSince(s, from2), s);
  }

  function SaleTotal(s: Sale): int {
    s.total
  }

  function ExpenseAmount(e: Expense): int {
    e.amount
  }

  datatype Kpis = Kpis(salesTotal: int, expensesTotal: int, profit: int, avgTicket: real)

  function ComputeKpis(fs: seq<Sale>, fe: seq<Expense>): (k: Kpis)
    ensures k.salesTotal == Seqs.Sum(fs, SaleTotal)
    ensures k.expensesTotal == Seqs.Sum(fe, ExpenseAmount)
    ensures k.profit == k.salesTotal - k.expensesTotal
    ensures fs == [] ==> k.avgTicket == 0.0
    ensures fs != [] ==> k.avgTicket * |fs| as real == k.salesTotal as real
  {
    var salesTotal := Seqs.Sum(fs, SaleTotal);
    var expensesTotal := Seqs.Sum(fe, ExpenseAmount);
    Kpis(salesTotal, expensesTotal, salesTotal - expensesTotal,
         if |fs| > 0 then salesTotal as real / |fs| as real else 0.0)
  }

  /** The KPIs of a range split in two are the sums of the KPIs of the parts. */
  lemma KpisAdditive(fs1: seq<Sale>, fs2: seq<Sale>, fe1: seq<Expense>, fe2: seq<Expense>)
    ensures var k := ComputeKpis(fs1 + fs2, fe1 + fe2);
      var k1 := ComputeKpis(fs1, fe1);
      var k2 := ComputeKpis(fs2, fe2);
      k.salesTotal == k1.salesTotal + k2.salesTotal && k.profit == k1.profit + k2.profit
  {
    Seqs.SumConcat(fs1, fs2, SaleTotal);
    Seqs.SumConcat(fe1, fe2, ExpenseAmount);
  }

  // ------------------------------------------------------------ best-sellers

  datatype TopItem = TopItem(productId: Id, quantity: int)

  datatype TopEntry = TopEntry(item: TopItem, product: Product)

  const TOP_LIMIT: nat := 6

  /** `new Map(topProducts.map(p => [p.id, p]))`: a later product with the same id wins. */
  function ProductIndex(ps: seq<Product>): (m: map<Id, Product>)
    ensures forall id :: id in m ==> m[id] in ps && m[id].id == id
    ensures forall i :: 0 <= i < |ps| ==> ps[i].id in m
  {
    if ps == [] then map[]
    else
      var m := ProductIndex(ps[..|ps| - 1]);
      assert forall i :: 0 <= i < |ps| - 1 ==> ps[..|ps| - 1][i] == ps[i];
      m[ps[|ps| - 1].id := ps[|ps| - 1]]
  }

  /** `ps[i]` is the last product in `ps` with id `id`. */
  predicate LastWithId(ps: seq<Product>, id: Id, i: int) {
    0 <= i < |ps| && ps[i].id == id && forall j :: i < j < |ps| ==> ps[j].id != id
  }

  /** The position of the last product with id `id`, or -1 when there is none. */
  function LastIndexOf(ps: seq<Product>, id: Id): int {
    if ps == [] then -1
    else if ps[|ps| - 1].id == id then |ps| - 1
    else LastIndexOf(ps[..|ps| - 1], id)
  }

  lemma {:induction false} LastIndexOfSpec(ps: seq<Product>, id: Id)
    ensures -1 <= LastIndexOf(ps, id) < |ps|
    ensures LastIndexOf(ps, id) >= 0 ==> LastWithId(ps, id, LastIndexOf(ps, id))
  {
    if ps != [] && ps[|ps| - 1].id != id {
      var init := ps[..|ps| - 1];
      LastIndexOfSpec(init, id);
      var i := LastIndexOf(init, id);
      if i >= 0 {
        assert ps[i] == init[i];
        forall j | i < j < |ps| ensures ps[j].id != id {
          if j < |init| { assert ps[j] == init[j]; }
        }
      }
    }
  }

  /** The product filed under an id is the last one in the list with that id. */
  lemma {:induction false} ProductIndexLastWins(ps: seq<Product>, id: Id)
    ensures id in ProductIndex(ps) ==>
      LastWithId(ps, id, LastIndexOf(ps, id)) && ProductIndex(ps)[id] == ps[LastIndexOf(ps, id)]
  {
    LastIndexOfSpec(ps, id);
    if ps != [] {
      var init := ps[..|ps| - 1];
      var p := ps[|ps| - 1];
      var m := ProductIndex(init);
      assert ProductIndex(ps) == m[p.id := p];
      if p.id != id && id in m {
        ProductIndexLastWins(init, id);
        assert ps[LastIndexOf(init, id)] == init[LastIndexOf(init, id)];
      }
    }
  }

  function Attach(items: seq<TopItem>, index: map<Id, Product>): (r: seq<TopEntry>)
    requires forall i :: 0 <= i < |items| ==> items[i].productId in index
    ensures |r| == |items|
    ensures forall i :: 0 <= i < |items| ==> r[i] == TopEntry(items[i], index[items[i].productId])
  {
    seq(|items|, i requires 0 <= i < |items| => TopEntry(items[i], index[items[i].productId]))
  }

  /** The best-sellers card: the first six top items whose product is known. */
  function TopList(items: seq<TopItem>, products: seq<Product>): seq<TopEntry> {
    var index := ProductIndex(products);
    var found := Seqs.Filter(Seqs.Take(items, TOP_LIMIT), (t: TopItem) => t.productId in index);
    assert forall i :: 0 <= i < |found| ==> found[i].productId in index by {
      forall i | 0 <= i < |found| ensures found[i].productId in index {
        Seqs.FilterMembers(Seqs.Take(items, TOP_LIMIT), (t: TopItem) => t.productId in index, found[i]);
      }
    }
    Attach(found, index)
  }

  /** The top items an entry list shows, in its order. */
  function ItemsOf(r: seq<TopEntry>): seq<TopItem> {
    seq(|r|, i requires 0 <= i < |r| => r[i].item)
  }

  predicate Known(products: seq<Product>, id: Id) {
    exists j :: 0 <= j < |products| && products[j].id == id
  }

  /**
   * At most six entries, each pairing one of the first six top items with
   * the product of that id, and every one of the first six whose product is
   * known has its entry, in the order of the top items.
   */
  lemma TopListSpec(items: seq<TopItem>, products: seq<Product>)
    ensures |TopList(items, products)| <= TOP_LIMIT
    ensures forall e :: e in TopList(items, products) ==>
      e.item in Seqs.Take(items, TOP_LIMIT) && e.product in products && e.product.id == e.item.productId
    ensures forall i :: 0 <= i < |items| && i < TOP_LIMIT && Known(products, items[i].productId) ==>
      exists e :: e in TopList(items, products) && e.item == items[i]
    ensures Seqs.IsSubsequence(ItemsOf(TopList(items, products)), Seqs.Take(items, TOP_LIMIT))
  {
    var index := ProductIndex(products);
    var first := Seqs.Take(items, TOP_LIMIT);
    var keep := (t: TopItem) => t.productId in index;
    var found := Seqs.Filter(first, keep);
    var r := TopList(items, products);
    forall e | e in r
      ensures e.item in first && e.product in products && e.product.id == e.item.productId
    {
      var i :| 0 <= i < |r| && r[i] == e;
      Seqs.FilterMembers(first, keep, found[i]);
    }
    forall i | 0 <= i < |items| && i < TOP_LIMIT && Known(products, items[i].productId)
      ensures exists e :: e in r && e.item == items[i]
    {
      assert items[i] == first[i];
      Seqs.FilterMembers(first, keep, items[i]);
      var k :| 0 <= k < |found| && found[k] == items[i];
      assert r[k].item == items[i];
    }
    assert ItemsOf(r) == found;
    Seqs.FilterSubsequence(first, keep);
  }

  // --------------------------------------------------------------- activity

  datatype ActivityKind = VENTA | GASTO

  /** One line of the feed: what, when, how much, and the row it links to. */
  datatype Activity = Activity(kind: ActivityKind, at: int, amount: int, ref: Id)

  const FEED_SOURCE_LIMIT: nat := 6
  const FEED_LIMIT: nat := 8

  function At(a: Activity): int {
    a.at
  }

  function SaleActivity(s: Sale): Activity {
    Activity(VENTA, s.dateTime, s.total, s.id)
  }

  function ExpenseActivity(e: Expense): Activity {
    Activity(GASTO, e.date, e.amount, e.id)
  }

  /** The line comes from one of the first six sales. */
  predicate FromRecentSale(a: Activity, fs: seq<Sale>) {
    exists i :: 0 <= i < |fs| && i < FEED_SOURCE_LIMIT && a == SaleActivity(fs[i])
  }

  /** The line comes from one of the first six expenses. */
  predicate FromRecentExpense(a: Activity, fe: seq<Expense>) {
    exists i :: 0 <= i < |fe| && i < FEED_SOURCE_LIMIT && a == ExpenseActivity(fe[i])
  }

  function SaleActivities(fs: seq<Sale>): (r: seq<Activity>)
    ensures |r| == |fs|
    ensures forall i :: 0 <= i < |fs| ==> r[i] == SaleActivity(fs[i])
  {
    seq(|fs|, i requires 0 <= i < |fs| => SaleActivity(fs[i]))
  }

  function ExpenseActivities(fe: seq<Expense>): (r: seq<Activity>)
    ensures |r| == |fe|
    ensures forall i :: 0 <= i < |fe| ==> r[i] == ExpenseActivity(fe[i])
  {
    seq(|fe|, i requires 0 <= i < |fe| => ExpenseActivity(fe[i]))
  }

  /** The candidates for the feed: the first six sales, then the first six expenses. */
  function FeedCandidates(fs: seq<Sale>, fe: seq<Expense>): seq<Activity> {
    SaleActivities(Seqs.Take(fs, FEED_SOURCE_LIMIT)) + ExpenseActivities(Seqs.Take(fe, FEED_SOURCE_LIMIT))
  }

  /** The candidates merged by time, latest first, cut to eight. */
  function Feed(fs: seq<Sale>, fe: seq<Expense>): seq<Activity> {
    Seqs.Take(Seqs.SortDesc(FeedCandidates(fs, fe), At), FEED_LIMIT)
  }

  /**
   * Eight lines, or every candidate when there are fewer, latest first, each
   * one of the first six filtered sales or of the first six filtered
   * expenses, each candidate shown at most as often as it occurs, and no
   * candidate left out is later than a line shown.
   */
  lemma FeedSpec(fs: seq<Sale>, fe: seq<Expense>)
    ensures |FeedCandidates(fs, fe)| ==
      (if |fs| <= FEED_SOURCE_LIMIT then |fs| else FEED_SOURCE_LIMIT)
      + (if |fe| <= FEED_SOURCE_LIMIT then |fe| else FEED_SOURCE_LIMIT)
    ensures |Feed(fs, fe)| == if |FeedCandidates(fs, fe)| <= FEED_LIMIT then |FeedCandidates(fs, fe)| else FEED_LIMIT
    ensures Seqs.SortedDesc(Feed(fs, fe), At)
    ensures multiset(Feed(fs, fe)) <= multiset(FeedCandidates(fs, fe))
    ensures forall a: Activity :: a in multiset(FeedCandidates(fs, fe)) - multiset(Feed(fs, fe)) ==>
      forall b :: b in Feed(fs, fe) ==> At(a) <= At(b)
    ensures forall a :: a in Feed(fs, fe) ==>
      (a.kind == VENTA && FromRecentSale(a, fs)) || (a.kind == GASTO && FromRecentExpense(a, fe))
  {
    FeedLength(fs, fe);
    Seqs.TakeSortedKept(FeedCandidates(fs, fe), At, FEED_LIMIT);
    Seqs.TakeSortedGreatest(FeedCandidates(fs, fe), At, FEED_LIMIT);
    forall a | a in Feed(fs, fe)
      ensures (a.kind == VENTA && FromRecentSale(a, fs)) || (a.kind == GASTO && FromRecentExpense(a, fe))
    {
      FeedLineOrigin(fs, fe, a);
    }
  }

  lemma FeedLength(fs: seq<Sale>, fe: seq<Expense>)
    ensures |FeedCandidates(fs, fe)| ==
      (if |fs| <= FEED_SOURCE_LIMIT then |fs| else FEED_SOURCE_LIMIT)
      + (if |fe| <= FEED_SOURCE_LIMIT then |fe| else FEED_SOURCE_LIMIT)
    ensures |Feed(fs, fe)| == if |FeedCandidates(fs, fe)| <= FEED_LIMIT then |FeedCandidates(fs, fe)| else FEED_LIMIT
  {
  }

  lemma FeedLineOrigin(fs: seq<Sale>, fe: seq<Expense>, a: Activity)
    requires a in FeedCandidates(fs, fe)
    ensures (a.kind == VENTA && FromRecentSale(a, fs)) || (a.kind == GASTO && FromRecentExpense(a, fe))
  {
    var sa := SaleActivities(Seqs.Take(fs, FEED_SOURCE_LIMIT));
    var ea := ExpenseActivities(Seqs.Take(fe, FEED_SOURCE_LIMIT));
    if a in sa {
      var i :| 0 <= i < |sa| && sa[i] == a;
      assert Seqs.Take(fs, FEED_SOURCE_LIMIT)[i] == fs[i];
    } else {
      assert a in ea;
      var i :| 0 <= i < |ea| && ea[i] == a;
      assert Seqs.Take(fe, FEED_SOURCE_LIMIT)[i] == fe[i];
    }
  }
}
