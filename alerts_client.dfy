/**
 * The alerts screen (app/alerts/AlertsClient.tsx): the status tabs and the
 * local update after a close request. `ok` is whether the server accepted
 * the close (the request itself is I/O).
 */
module AlertsClient {
  import opened Domain
  import opened Store
  import Seqs
  import AlertsApi

  /** The tabs: every alert, or only those with one status. */
  datatype StatusFilter = ALL | Only(status: AlertStatus)

  function Shown(items: seq<Alert>, f: StatusFilter): seq<Alert> {
    match f
    case ALL => items
    case Only(st) => Seqs.Filter(items, (a: Alert) => a.status == st)
  }

  /**
   * "ALL" shows every alert; a status tab shows exactly the alerts with that
   * status, as often as they occur, and the OPEN and CLOSED tabs split the
   * list between them.
   */
  lemma ShownSpec(items: seq<Alert>, st: AlertStatus)
    ensures Shown(items, ALL) == items
    ensures forall a :: multiset(Shown(items, Only(st)))[a] == if a.status == st then multiset(items)[a] else 0
    ensures multiset(Shown(items, Only(OPEN))) + multiset(Shown(items, Only(CLOSED))) == multiset(items)
  {
    forall a ensures multiset(Shown(items, Only(st)))[a] == if a.status == st then multiset(items)[a] else 0 {
      Seqs.FilterMultiset(items, (a: Alert) => a.status == st, a);
    }
    forall a ensures (multiset(Shown(items, Only(OPEN))) + multiset(Shown(items, Only(CLOSED))))[a] == multiset(items)[a] {
      Seqs.FilterMultiset(items, (a: Alert) => a.status == OPEN, a);
      Seqs.FilterMultiset(items, (a: Alert) => a.status == CLOSED, a);
    }
  }

  /** A status tab keeps the list's order: showing two lists one after the other is showing their concatenation. */
  lemma ShownKeepsOrder(front: seq<Alert>, back: seq<Alert>, f: StatusFilter)
    ensures Shown(front + back, f) == Shown(front, f) + Shown(back, f)
  {
    if f.Only? {
      Seqs.FilterConcat(front, back, (a: Alert) => a.status == f.status);
    }
  }

  function CloseItem(a: Alert, id: Id): Alert {
    if a.id == id then a.(status := CLOSED) else a
  }

  /** The list after a close request: on success the matching alerts become CLOSED. */
  function CloseLocal(items: seq<Alert>, id: Id, ok: bool): (r: seq<Alert>)
    ensures |r| == |items|
    ensures !ok ==> r == items
    ensures ok ==> forall i :: 0 <= i < |items| ==>
      r[i] == (if items[i].id == id then items[i].(status := CLOSED) else items[i])
  {
    if !ok then items else seq(|items|, i requires 0 <= i < |items| => CloseItem(items[i], id))
  }

  /** After a successful close the alert is gone from the OPEN tab. */
  lemma ClosedLeavesOpenTab(items: seq<Alert>, id: Id)
    ensures forall a :: a in Shown(CloseLocal(items, id, true), Only(OPEN)) ==> a.id != id
  {
    var r := CloseLocal(items, id, true);
    forall a | a in Shown(r, Only(OPEN)) ensures a.id != id {
      Seqs.FilterMembers(r, (a: Alert) => a.status == OPEN, a);
    }
  }

  /** On the full table, the local update agrees with the server's update. */
  lemma CloseLocalMatchesServer(items: seq<Alert>, id: Id)
    requires AlertIdsMatch(items) && id < |items|
    ensures CloseLocal(items, id, true) == AlertsApi.CloseById(items, id)
  {
  }
}
