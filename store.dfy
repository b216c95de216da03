/**
 * The database the route handlers read and write, held in memory: one table
 * per entity, each a sequence whose i-th row has id i.
 */
module Store {
  import opened Domain

  predicate ProductIdsMatch(ps: seq<Product>) {
    forall i :: 0 <= i < |ps| ==> ps[i].id == i
  }

  predicate AlertIdsMatch(als: seq<Alert>) {
    forall i :: 0 <= i < |als| ==> als[i].id == i
  }

  /** Stock never goes below zero. */
  predicate StocksNonNegative(ps: seq<Product>) {
    forall i :: 0 <= i < |ps| ==> ps[i].stockCurrent >= 0
  }

  predicate EmailTaken(us: seq<User>, email: string) {
    exists i :: 0 <= i < |us| && us[i].email == email
  }

  /** The `email` column is unique across all organizations. */
  predicate EmailsUnique(us: seq<User>) {
    forall i, j :: 0 <= i < j < |us| ==> us[i].email != us[j].email
  }

  predicate IsActiveOwnerOf(u: User, org: Id) {
    u.orgId == org && u.role == OWNER && u.isActive
  }

  /** At most one active OWNER per organization. */
  predicate OneActiveOwnerPerOrg(us: seq<User>) {
    forall i, j :: 0 <= i < j < |us| && IsActiveOwnerOf(us[i], us[i].orgId) ==>
      !IsActiveOwnerOf(us[j], us[i].orgId)
  }

  /** Every user belongs to an organization that exists. */
  predicate UsersInOrgs(us: seq<User>, orgCount: nat) {
    forall i :: 0 <= i < |us| ==> us[i].orgId < orgCount
  }

  class Store {
    var orgs: seq<Organization>
    var users: seq<User>
    var products: seq<Product>
    var sales: seq<Sale>
    var saleItems: seq<SaleItem>
    var movements: seq<Movement>
    var alerts: seq<Alert>
    var expenses: seq<Expense>

    /** The invariants every handler keeps. */
    ghost predicate Valid()
      reads this
    {
      && (forall i :: 0 <= i < |orgs| ==> orgs[i].id == i)
      && (forall i :: 0 <= i < |users| ==> users[i].id == i)
      && ProductIdsMatch(products)
      && (forall i :: 0 <= i < |sales| ==> sales[i].id == i)
      && AlertIdsMatch(alerts)
      && (forall i :: 0 <= i < |expenses| ==> expenses[i].id == i)
      && StocksNonNegative(products)
      && EmailsUnique(users)
    }

    /** The membership rules user creation and registration keep. */
    ghost predicate OwnersValid()
      reads this
    {
      OneActiveOwnerPerOrg(users) && UsersInOrgs(users, |orgs|)
    }

    constructor ()
      ensures Valid() && OwnersValid()
      ensures orgs == [] && users == [] && products == [] && sales == []
      ensures saleItems == [] && movements == [] && alerts == [] && expenses == []
    {
      orgs, users, products, sales := [], [], [], [];
      saleItems, movements, alerts, expenses := [], [], [], [];
    }
  }
}
