/** Role predicates that gate the route handlers (lib/permissions.ts). */
module Permissions {
  import opened Domain

  predicate CanManageCatalog(role: Role) {
    role == OWNER || role == ADMIN
  }

  predicate CanSell(role: Role) {
    role == OWNER || role == ADMIN || role == STAFF
  }

  predicate CanMoveInventory(role: Role) {
    role == OWNER || role == ADMIN || role == STAFF
  }

  predicate CanView(role: Role) {
    true
  }

  predicate CanCloseAlerts(role: Role) {
    role == OWNER || role == ADMIN
  }

  /** Catalog management is exactly the two managing roles. */
  lemma ManageCatalogRoles(role: Role)
    ensures CanManageCatalog(role) <==> role in {OWNER, ADMIN}
  {
  }

  /** Selling and moving stock are granted to the same three roles. */
  lemma SellAndMoveAgree(role: Role)
    ensures CanSell(role) <==> role in {OWNER, ADMIN, STAFF}
    ensures CanSell(role) == CanMoveInventory(role)
  {
  }

  lemma EveryoneViews(role: Role)
    ensures CanView(role)
  {
  }

  lemma CloseAlertsIsManageCatalog(role: Role)
    ensures CanCloseAlerts(role) == CanManageCatalog(role)
  {
  }

  /** The permissions are nested, and a VIEWER holds only the weakest. */
  lemma PermissionsNested(role: Role)
    ensures CanManageCatalog(role) ==> CanSell(role)
    ensures CanSell(role) ==> CanView(role)
    ensures role == VIEWER <==> !CanSell(role) && !CanMoveInventory(role) && !CanCloseAlerts(role)
  {
  }
}
