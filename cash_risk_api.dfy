/**
 * POST /api/alerts/recalculate (app/api/alerts/recalculate/route.ts): sum the
 * organization's sales and expenses of the trailing 30 days, forecast the
 * next 7 days from the daily averages, and either refresh the open CASH_RISK
 * alert (creating one if none is open) or close every open one.
 *
 * The forecasts are computed here in exact arithmetic; `since30` (the start of
 * the 30-day window) and `now` are supplied by the caller.
 */
module CashRiskApi {
  import opened Domain
  import opened Store
  import Seqs

  function SaleTotalOf(s: Sale): int {
    s.total
  }

  function ExpenseAmount(e: Expense): int {
    e.amount
  }

  /** The organization's sales total over the window. */
  function SalesSum30(sales: seq<Sale>, org: Id, since30: int): int {
    Seqs.Sum(Seqs.Filter(sales, (s: Sale) => s.orgId == org && s.dateTime >= since30), SaleTotalOf)
  }

  /** The organization's expense total over the window. */
  function ExpensesSum30(expenses: seq<Expense>, org: Id, since30: int): int {
    Seqs.Sum(Seqs.Filter(expenses, (e: Expense) => e.orgId == org && e.date >= since30), ExpenseAmount)
  }

  /** Seven days at the 30-day average rate. */
  function Forecast7(sum30: int): real {
    (sum30 as real / 30.0) * 7.0
  }

  predicate Risk(sales30: int, expenses30: int) {
    Forecast7(sales30) < Forecast7(expenses30)
  }

  /** The forecast comparison is the comparison of the two sums. */
  lemma RiskIffSalesBelowExpenses(sales30: int, expenses30: int)
    ensures Risk(sales30, expenses30) <==> sales30 < expenses30
  {
  }

  /** 300,000 of sales against 420,000 of expenses forecasts 70,000 < 98,000. */
  lemma RiskScenario()
    ensures Forecast7(300000) == 70000.0 && Forecast7(420000) == 98000.0
    ensures Risk(300000, 420000)
  {
  }

  predicate IsOpenCashRisk(a: Alert, org: Id) {
    a.orgId == org && a.kind == CASH_RISK && a.status == OPEN
  }

  /** The first open CASH_RISK alert of the organization, by id. */
  function FirstOpenCashRisk(als: seq<Alert>, org: Id): (r: Option<Id>)
    ensures r.Some? ==> r.value < |als| && IsOpenCashRisk(als[r.value], org)
    ensures r.Some? ==> forall i :: 0 <= i < r.value ==> !IsOpenCashRisk(als[i], org)
    ensures r.None? <==> forall i :: 0 <= i < |als| ==> !IsOpenCashRisk(als[i], org)
  {
    if als == [] then None
    else if IsOpenCashRisk(als[|als| - 1], org) then
      var r := FirstOpenCashRisk(als[..|als| - 1], org);
      if r.Some? then r else Some(|als| - 1)
    else FirstOpenCashRisk(als[..|als| - 1], org)
  }

  /** One alert after the close-all: open CASH_RISK alerts of `org` become CLOSED. */
  function CloseIfCashRisk(a: Alert, org: Id): Alert {
    if IsOpenCashRisk(a, org) then a.(status := CLOSED) else a
  }

  /** The alerts table after the close-all of the organization's open CASH_RISK alerts. */
  function CloseAllCashRisk(als: seq<Alert>, org: Id): (r: seq<Alert>)
    ensures |r| == |als|
    ensures forall i :: 0 <= i < |als| ==> r[i] == CloseIfCashRisk(als[i], org)
  {
    seq(|als|, i requires 0 <= i < |als| => CloseIfCashRisk(als[i], org))
  }

  /** The alerts table after the recompute with the given 30-day sums. */
  function Recalc(als: seq<Alert>, org: Id, sales30: int, expenses30: int, now: int): seq<Alert> {
    if Risk(sales30, expenses30) then
      match FirstOpenCashRisk(als, org)
      case Some(i) => als[i := als[i].(message := CashRiskMessage(sales30, expenses30), severity := HIGH)]
      case None => als + [Alert(|als|, org, CASH_RISK, HIGH, CashRiskMessage(sales30, expenses30), OPEN, now)]
    else CloseAllCashRisk(als, org)
  }

  /** With risk and nothing open, exactly one OPEN, HIGH CASH_RISK alert is appended. */
  lemma RiskWithoutOpenAppends(als: seq<Alert>, org: Id, sales30: int, expenses30: int, now: int)
    requires sales30 < expenses30
    requires forall i :: 0 <= i < |als| ==> !IsOpenCashRisk(als[i], org)
    ensures var r := Recalc(als, org, sales30, expenses30, now);
      && |r| == |als| + 1 && r[..|als|] == als
      && r[|als|] == Alert(|als|, org, CASH_RISK, HIGH, CashRiskMessage(sales30, expenses30), OPEN, now)
  {
    RiskIffSalesBelowExpenses(sales30, expenses30);
  }

  /**
   * With risk and an open CASH_RISK alert, nothing is appended: the first
   * open one gets the new message and severity HIGH and stays open.
   */
  lemma RiskWithOpenRefreshes(als: seq<Alert>, org: Id, sales30: int, expenses30: int, now: int, k: nat)
    requires sales30 < expenses30
    requires k < |als| && IsOpenCashRisk(als[k], org)
    ensures var r := Recalc(als, org, sales30, expenses30, now);
      var i := FirstOpenCashRisk(als, org).value;
      && |r| == |als| && i <= k
      && IsOpenCashRisk(r[i], org) && r[i].severity == HIGH
      && r[i].message == CashRiskMessage(sales30, expenses30)
      && forall j :: 0 <= j < |als| && j != i ==> r[j] == als[j]
  {
    RiskIffSalesBelowExpenses(sales30, expenses30);
  }

  /**
   * Without risk no open CASH_RISK alert of the organization remains, and
   * every other alert (LOW_STOCK, other organizations, closed) is unchanged.
   */
  lemma NoRiskClosesAll(als: seq<Alert>, org: Id, sales30: int, expenses30: int, now: int)
    requires sales30 >= expenses30
    ensures var r := Recalc(als, org, sales30, expenses30, now);
      && |r| == |als|
      && (forall i :: 0 <= i < |r| ==> !IsOpenCashRisk(r[i], org))
      && (forall i :: 0 <= i < |als| && !IsOpenCashRisk(als[i], org) ==> r[i] == als[i])
      && (forall i :: 0 <= i < |als| && IsOpenCashRisk(als[i], org) ==> r[i] == als[i].(status := CLOSED))
  {
    RiskIffSalesBelowExpenses(sales30, expenses30);
  }

  /** Running the recompute twice on unchanged data is running it once. */
  lemma RecalcIdempotent(als: seq<Alert>, org: Id, sales30: int, expenses30: int, now1: int, now2: int)
    ensures var once := Recalc(als, org, sales30, expenses30, now1);
      Recalc(once, org, sales30, expenses30, now2) == once
  {
    var once := Recalc(als, org, sales30, expenses30, now1);
    if Risk(sales30, expenses30) {
      match FirstOpenCashRisk(als, org)
      case Some(i) =>
        assert FirstOpenCashRisk(once, org) == Some(i) by {
          FirstOpenUnchanged(als, once, org, i);
        }
      case None =>
        assert FirstOpenCashRisk(once, org) == Some(|als|) by {
          FirstOpenUnchanged(als, once, org, |als|);
        }
    } else {
      assert CloseAllCashRisk(once, org) == once;
    }
  }

  /** Two tables that agree on the first open CASH_RISK alert at `i` agree on FirstOpenCashRisk. */
  lemma FirstOpenUnchanged(als: seq<Alert>, other: seq<Alert>, org: Id, i: nat)
    requires i < |other| && IsOpenCashRisk(other[i], org)
    requires forall j :: 0 <= j < i ==> !IsOpenCashRisk(other[j], org)
    ensures FirstOpenCashRisk(other, org) == Some(i)
  {
    var r := FirstOpenCashRisk(other, org);
    assert r.Some?;
    assert !(r.value < i);
    assert !(i < r.value);
  }

  /** The recompute keeps every alert's id equal to its position. */
  lemma RecalcKeepsIds(als: seq<Alert>, org: Id, sales30: int, expenses30: int, now: int)
    requires AlertIdsMatch(als)
    ensures AlertIdsMatch(Recalc(als, org, sales30, expenses30, now))
  {
  }

  /** `updateMany` over the alerts table, one row at a time. */
  method CloseAllOpenCashRisk(st: Store, org: Id)
    modifies st
    ensures st.alerts == CloseAllCashRisk(old(st.alerts), org)
    ensures st.products == old(st.products) && st.movements == old(st.movements)
    ensures st.sales == old(st.sales) && st.saleItems == old(st.saleItems)
    ensures st.orgs == old(st.orgs) && st.users == old(st.users) && st.expenses == old(st.expenses)
  {
    var k := 0;
    while k < |st.alerts|
      invariant 0 <= k <= |st.alerts| == |old(st.alerts)|
      invariant forall i :: 0 <= i < k ==> st.alerts[i] == CloseIfCashRisk(old(st.alerts)[i], org)
      invariant forall i :: k <= i < |st.alerts| ==> st.alerts[i] == old(st.alerts)[i]
      invariant st.products == old(st.products) && st.movements == old(st.movements)
      invariant st.sales == old(st.sales) && st.saleItems == old(st.saleItems)
      invariant st.orgs == old(st.orgs) && st.users == old(st.users) && st.expenses == old(st.expenses)
    {
      if IsOpenCashRisk(st.alerts[k], org) {
        st.alerts := st.alerts[k := st.alerts[k].(status := CLOSED)];
      }
      k := k + 1;
    }
  }

  method Recalculate(st: Store, session: Option<Session>, since30: int, now: int) returns (r: Response<bool>)
    requires st.Valid()
    modifies st
    ensures st.Valid()
    ensures session.None? ==> r == Err(Unauthorized) && unchanged(st)
    ensures session.Some? ==>
      var org := session.value.orgId;
      var s30 := SalesSum30(old(st.sales), org, since30);
      var e30 := ExpensesSum30(old(st.expenses), org, since30);
      && r == Ok(200, Risk(s30, e30))
      && st.alerts == Recalc(old(st.alerts), org, s30, e30, now)
      && st.products == old(st.products) && st.movements == old(st.movements)
      && st.sales == old(st.sales) && st.saleItems == old(st.saleItems)
      && st.orgs == old(st.orgs) && st.users == old(st.users) && st.expenses == old(st.expenses)
  {
    if session.None? {
      return Err(Unauthorized);
    }
    var org := session.value.orgId;
    var s30 := SalesSum30(st.sales, org, since30);
    var e30 := ExpensesSum30(st.expenses, org, since30);
    var risk := Forecast7(s30) < Forecast7(e30);
    if risk {
      var open := FirstOpenCashRisk(st.alerts, org);
      if open.Some? {
        var i := open.value;
        st.alerts := st.alerts[i := st.alerts[i].(message := CashRiskMessage(s30, e30), severity := HIGH)];
      } else {
        st.alerts := st.alerts + [Alert(|st.alerts|, org, CASH_RISK, HIGH, CashRiskMessage(s30, e30), OPEN, now)];
      }
    } else {
      CloseAllOpenCashRisk(st, org);
    }
    RecalcKeepsIds(old(st.alerts), org, s30, e30, now);
    r := Ok(200, risk);
  }
}
