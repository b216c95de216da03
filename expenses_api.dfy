/**
 * GET and POST /api/expenses (app/api/expenses/route.ts): the caller
 * organization's 100 most recent expenses; and recording an expense, which
 * any signed-in role may do.
 *
 * The date arrives as text ("yyyy-mm-dd"); turning it into a timestamp is the
 * parameter `parseDate`, which yields None for text that is not a date (the
 * database then refuses the invalid timestamp). Absent or empty text means
 * `now`.
 */
module ExpensesApi {
  import opened Domain
  import opened Store
  import Seqs
  import Text

  const EXPENSE_PAGE: nat := 100

  function ExpenseDate(e: Expense): int {
    e.date
  }

  predicate InOrg(e: Expense, org: Id) {
    e.orgId == org
  }

  /** All of the organization's expenses, latest date first. */
  function OrgExpensesByDate(es: seq<Expense>, org: Id): seq<Expense> {
    Seqs.SortDesc(Seqs.Filter(es, (e: Expense) => InOrg(e, org)), ExpenseDate)
  }

  /** What GET returns: the first 100 of them. */
  function RecentOrgExpenses(es: seq<Expense>, org: Id): seq<Expense> {
    Seqs.Take(OrgExpensesByDate(es, org), EXPENSE_PAGE)
  }

  /**
   * The organization's 100 latest expenses: min(100, #org expenses) of them,
   * each at most as often as stored, latest first; none left out is later
   * than one shown; and when the organization has at most 100, all of them.
   */
  lemma RecentOrgExpensesSpec(es: seq<Expense>, org: Id)
    ensures var r := RecentOrgExpenses(es, org);
      && |r| <= EXPENSE_PAGE
      && Seqs.SortedDesc(r, ExpenseDate)
      && (forall e :: e in r ==> e in es && e.orgId == org)
    ensures var all := OrgExpensesByDate(es, org); var r := RecentOrgExpenses(es, org);
      forall i, j :: 0 <= i < |r| && |r| <= j < |all| ==> all[j].date <= r[i].date
    ensures |Seqs.Filter(es, (e: Expense) => InOrg(e, org))| <= EXPENSE_PAGE ==>
      multiset(RecentOrgExpenses(es, org)) == multiset(Seqs.Filter(es, (e: Expense) => InOrg(e, org)))
    ensures var kept := Seqs.Filter(es, (e: Expense) => InOrg(e, org));
      && |RecentOrgExpenses(es, org)| == (if |kept| <= EXPENSE_PAGE then |kept| else EXPENSE_PAGE)
      && multiset(RecentOrgExpenses(es, org)) <= multiset(kept)
  {
    RecentOrgExpensesShape(es, org);
    RecentOrgExpensesCount(es, org);
  }

  /** The page is a sorted prefix of the organization's listing. */
  lemma RecentOrgExpensesShape(es: seq<Expense>, org: Id)
    ensures var r := RecentOrgExpenses(es, org);
      && |r| <= EXPENSE_PAGE
      && Seqs.SortedDesc(r, ExpenseDate)
      && (forall e :: e in r ==> e in es && e.orgId == org)
    ensures var all := OrgExpensesByDate(es, org); var r := RecentOrgExpenses(es, org);
      forall i, j :: 0 <= i < |r| && |r| <= j < |all| ==> all[j].date <= r[i].date
    ensures |Seqs.Filter(es, (e: Expense) => InOrg(e, org))| <= EXPENSE_PAGE ==>
      multiset(RecentOrgExpenses(es, org)) == multiset(Seqs.Filter(es, (e: Expense) => InOrg(e, org)))
  {
    var all := OrgExpensesByDate(es, org);
    var r := RecentOrgExpenses(es, org);
    Seqs.ListingSpec(es, (e: Expense) => InOrg(e, org), ExpenseDate);
    assert r == all[..|r|];
    forall e | e in r ensures e in es && e.orgId == org {
      assert e in all;
    }
    forall i, j | 0 <= i < |r| && |r| <= j < |all| ensures all[j].date <= r[i].date {
      assert r[i] == all[i];
    }
  }

  /** The page holds min(100, #org expenses) of them, none more often than stored. */
  lemma RecentOrgExpensesCount(es: seq<Expense>, org: Id)
    ensures var kept := Seqs.Filter(es, (e: Expense) => InOrg(e, org));
      && |RecentOrgExpenses(es, org)| == (if |kept| <= EXPENSE_PAGE then |kept| else EXPENSE_PAGE)
      && multiset(RecentOrgExpenses(es, org)) <= multiset(kept)
  {
    Seqs.TakeSortedKept(Seqs.Filter(es, (e: Expense) => InOrg(e, org)), ExpenseDate, EXPENSE_PAGE);
  }

  method GetExpenses(st: Store, session: Option<Session>) returns (r: Response<seq<Expense>>)
    ensures session.None? ==> r == Err(Unauthorized)
    ensures session.Some? ==> r == Ok(200, RecentOrgExpenses(st.expenses, session.value.orgId))
  {
    if session.None? {
      return Err(Unauthorized);
    }
    r := Ok(200, RecentOrgExpenses(st.expenses, session.value.orgId));
  }

  /** The request body; an absent field is None. */
  datatype ExpenseRequest = ExpenseRequest(
    categoryId: Option<string>, amount: Option<int>, description: Option<string>, date: Option<string>)

  predicate ValidExpenseRequest(req: ExpenseRequest) {
    && req.categoryId.Some? && |req.categoryId.value| >= 1
    && req.amount.Some? && req.amount.value > 0
  }

  /** `description?.trim() || null`: trimmed, and null when nothing is left. */
  function NormalizeDescription(d: Option<string>): (r: Option<string>)
    ensures r.None? <==> d.None? || Text.Trim(d.value) == []
    ensures r.Some? ==> r.value == Text.Trim(d.value)
    ensures r.Some? ==> r.value != [] && Text.Unpadded(r.value)
  {
    match d
    case None => None
    case Some(text) =>
      var t := Text.Trim(text);
      if t == [] then None else Some(t)
  }

  /** Normalizing a stored description again changes nothing. */
  lemma NormalizeDescriptionIdempotent(d: Option<string>)
    ensures NormalizeDescription(NormalizeDescription(d)) == NormalizeDescription(d)
  {
    if d.Some? {
      Text.TrimIdempotent(d.value);
    }
  }

  /** `date ? new Date(date) : new Date()`. */
  function ExpenseTimestamp(date: Option<string>, parseDate: string -> Option<int>, now: int): (r: Option<int>)
    ensures (date.None? || date.value == []) ==> r == Some(now)
    ensures (date.Some? && date.value != []) ==> r == parseDate(date.value)
  {
    if date.Some? && date.value != [] then parseDate(date.value) else Some(now)
  }

  function ExpenseRefusal(session: Option<Session>, req: ExpenseRequest, parseDate: string -> Option<int>, now: int)
    : (r: Option<Failure>)
    ensures r.None? <==>
      session.Some? && ValidExpenseRequest(req) && ExpenseTimestamp(req.date, parseDate, now).Some?
    ensures r == Some(Unauthorized) <==> session.None?
    ensures session.Some? && !ValidExpenseRequest(req) ==> r == Some(InvalidData)
  {
    if session.None? then Some(Unauthorized)
    else if !ValidExpenseRequest(req) then Some(InvalidData)
    else if ExpenseTimestamp(req.date, parseDate, now).None? then Some(StorageFault)
    else None
  }

  /** No role is checked: any signed-in user gets the same answer. */
  lemma ExpenseRefusalIgnoresRole(org: Id, user: Id, r1: Role, r2: Role, req: ExpenseRequest,
                                  parseDate: string -> Option<int>, now: int)
    ensures ExpenseRefusal(Some(Session(org, user, r1)), req, parseDate, now)
         == ExpenseRefusal(Some(Session(org, user, r2)), req, parseDate, now)
  {
  }

  /** The row created for an accepted request. */
  function NewExpense(req: ExpenseRequest, s: Session, id: Id, date: int): (e: Expense)
    requires ValidExpenseRequest(req)
    ensures e.id == id && e.orgId == s.orgId && e.createdBy == s.userId && e.date == date
    ensures e.amount > 0 && e.categoryId == req.categoryId.value && |e.categoryId| >= 1
    ensures e.description == NormalizeDescription(req.description)
  {
    Expense(id, s.orgId, req.categoryId.value, req.amount.value, NormalizeDescription(req.description), date, s.userId)
  }

  method PostExpense(st: Store, session: Option<Session>, req: ExpenseRequest,
                     parseDate: string -> Option<int>, now: int)
    returns (r: Response<Expense>)
    requires st.Valid()
    modifies st
    ensures st.Valid()
    ensures ExpenseRefusal(session, req, parseDate, now).Some? ==>
      r == Err(ExpenseRefusal(session, req, parseDate, now).value) && unchanged(st)
    ensures ExpenseRefusal(session, req, parseDate, now).None? ==>
      var created := NewExpense(req, session.value, |old(st.expenses)|,
                                ExpenseTimestamp(req.date, parseDate, now).value);
      && st.expenses == old(st.expenses) + [created]
      && r == Ok(201, created)
      && st.alerts == old(st.alerts) && st.movements == old(st.movements) && st.products == old(st.products)
      && st.sales == old(st.sales) && st.saleItems == old(st.saleItems)
      && st.orgs == old(st.orgs) && st.users == old(st.users)
  {
    if session.None? {
      return Err(Unauthorized);
    }
    if !ValidExpenseRequest(req) {
      return Err(InvalidData);
    }
    var date := ExpenseTimestamp(req.date, parseDate, now);
    if date.None? {
      return Err(StorageFault);
    }
    var s := session.value;
    var created := Expense(|st.expenses|, s.orgId, req.categoryId.value, req.amount.value,
                           NormalizeDescription(req.description), date.value, s.userId);
    st.expenses := st.expenses + [created];
    r := Ok(201, created);
  }
}
