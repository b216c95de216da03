/**
 * GET and PATCH /api/alerts (app/api/alerts/route.ts): the caller
 * organization's alerts, newest first; and closing an alert by id.
 *
 * The close looks the alert up by id alone: it is not restricted to the
 * caller's organization and does not require the alert to be OPEN. An id
 * with no row makes the database update throw.
 */
module AlertsApi {
  import opened Domain
  import opened Store
  import Seqs
  import Permissions

  function CreatedAt(a: Alert): int {
    a.createdAt
  }

  /** The organization's alerts, ordered by creation time, newest first. */
  function OrgAlerts(als: seq<Alert>, org: Id): seq<Alert> {
    Seqs.SortDesc(Seqs.Filter(als, (a: Alert) => a.orgId == org), CreatedAt)
  }

  /** The listing holds exactly the organization's alerts, newest first. */
  lemma OrgAlertsSpec(als: seq<Alert>, org: Id)
    ensures Seqs.SortedDesc(OrgAlerts(als, org), CreatedAt)
    ensures forall a :: a in OrgAlerts(als, org) <==> a in als && a.orgId == org
    ensures forall a :: multiset(OrgAlerts(als, org))[a] == if a.orgId == org then multiset(als)[a] else 0
  {
    Seqs.ListingSpec(als, (a: Alert) => a.orgId == org, CreatedAt);
  }

  method GetAlerts(st: Store, session: Option<Session>) returns (r: Response<seq<Alert>>)
    ensures session.None? ==> r == Err(Unauthorized)
    ensures session.Some? ==> r == Ok(200, OrgAlerts(st.alerts, session.value.orgId))
  {
    if session.None? {
      return Err(Unauthorized);
    }
    r := Ok(200, OrgAlerts(st.alerts, session.value.orgId));
  }

  /** The alerts table after the row with id `id` is set to CLOSED. */
  function CloseById(als: seq<Alert>, id: Id): (r: seq<Alert>)
    requires id < |als|
    ensures |r| == |als|
    ensures r[id].status == CLOSED
    ensures forall i :: 0 <= i < |als| && i != id ==> r[i] == als[i]
  {
    als[id := als[id].(status := CLOSED)]
  }

  /** Closing twice is closing once, and closing a CLOSED alert changes nothing. */
  lemma CloseIdempotent(als: seq<Alert>, id: Id)
    requires id < |als|
    ensures CloseById(CloseById(als, id), id) == CloseById(als, id)
    ensures als[id].status == CLOSED ==> CloseById(als, id) == als
  {
  }

  /** The close keeps every alert's id, organization, kind and message. */
  lemma CloseKeepsIds(als: seq<Alert>, id: Id)
    requires id < |als|
    requires AlertIdsMatch(als)
    ensures AlertIdsMatch(CloseById(als, id))
    ensures CloseById(als, id)[id] == als[id].(status := CLOSED)
  {
  }

  method PatchAlert(st: Store, session: Option<Session>, id: Id) returns (r: Response<Alert>)
    requires st.Valid()
    modifies st
    ensures st.Valid()
    ensures session.None? ==> r == Err(Unauthorized) && unchanged(st)
    ensures session.Some? && !Permissions.CanCloseAlerts(session.value.role) ==>
      r == Err(Forbidden) && unchanged(st)
    ensures session.Some? && Permissions.CanCloseAlerts(session.value.role) && id >= |old(st.alerts)| ==>
      r == Err(StorageFault) && unchanged(st)
    ensures session.Some? && Permissions.CanCloseAlerts(session.value.role) && id < |old(st.alerts)| ==>
      && st.alerts == CloseById(old(st.alerts), id)
      && r == Ok(200, st.alerts[id])
      && st.products == old(st.products) && st.movements == old(st.movements)
      && st.sales == old(st.sales) && st.saleItems == old(st.saleItems)
      && st.orgs == old(st.orgs) && st.users == old(st.users) && st.expenses == old(st.expenses)
  {
    if session.None? {
      return Err(Unauthorized);
    }
    if !Permissions.CanCloseAlerts(session.value.role) {
      return Err(Forbidden);
    }
    if id >= |st.alerts| {
      return Err(StorageFault);
    }
    st.alerts := st.alerts[id := st.alerts[id].(status := CLOSED)];
    r := Ok(200, st.alerts[id]);
  }
}
