/**
 * POST /api/register (app/api/register/route.ts): sign-up without a session.
 * Creates an organization and its OWNER in one transaction.
 *
 * The lengths are checked on the names as sent; the stored names are
 * trimmed. The email is normalized as for user creation and must be unused in
 * every organization. The new owner is active (the column's default).
 */
module RegisterApi {
  import opened Domain
  import opened Store
  import Text
  import UsersApi

  /** The request body; an absent field is None. */
  datatype RegisterRequest = RegisterRequest(
    organizationName: Option<string>, ownerName: Option<string>,
    email: Option<string>, password: Option<string>)

  predicate ValidRegisterRequest(req: RegisterRequest, isEmail: string -> bool) {
    && req.organizationName.Some? && |req.organizationName.value| >= 2
    && req.ownerName.Some? && |req.ownerName.value| >= 2
    && req.email.Some? && isEmail(req.email.value)
    && req.password.Some? && |req.password.value| >= 8
  }

  function RegisterRefusal(req: RegisterRequest, isEmail: string -> bool, us: seq<User>): (r: Option<Failure>)
    ensures r.None? <==>
      ValidRegisterRequest(req, isEmail) && !EmailTaken(us, UsersApi.NormalizeEmail(req.email.value))
    ensures r == Some(InvalidData) <==> !ValidRegisterRequest(req, isEmail)
  {
    if !ValidRegisterRequest(req, isEmail) then Some(InvalidData)
    else if EmailTaken(us, UsersApi.NormalizeEmail(req.email.value)) then Some(DuplicateEmail)
    else None
  }

  datatype Registered = Registered(org: Organization, owner: User)

  /** The organization and owner rows created for an accepted request. */
  function NewAccount(req: RegisterRequest, isEmail: string -> bool, orgId: Id, userId: Id, now: int)
    : (r: Registered)
    requires ValidRegisterRequest(req, isEmail)
    ensures r.org == Organization(orgId, Text.Trim(req.organizationName.value))
    ensures r.owner.id == userId && r.owner.orgId == orgId
    ensures r.owner.role == OWNER && r.owner.isActive && IsActiveOwnerOf(r.owner, orgId)
    ensures r.owner.name == Text.Trim(req.ownerName.value)
    ensures r.owner.email == UsersApi.NormalizeEmail(req.email.value)
  {
    Registered(
      Organization(orgId, Text.Trim(req.organizationName.value)),
      User(userId, orgId, Text.Trim(req.ownerName.value), UsersApi.NormalizeEmail(req.email.value),
           OWNER, true, now))
  }

  /**
   * A brand-new organization has no members, so its OWNER is its only
   * active owner and the membership rules still hold.
   */
  lemma NewOrgKeepsOwnersValid(us: seq<User>, orgCount: nat, owner: User)
    requires OneActiveOwnerPerOrg(us) && UsersInOrgs(us, orgCount)
    requires owner.orgId == orgCount
    ensures OneActiveOwnerPerOrg(us + [owner]) && UsersInOrgs(us + [owner], orgCount + 1)
  {
    assert !UsersApi.HasActiveOwner(us, orgCount) by {
      forall i | 0 <= i < |us| ensures !IsActiveOwnerOf(us[i], orgCount) {
        assert us[i].orgId < orgCount;
      }
    }
    UsersApi.AddKeepsOneActiveOwner(us, owner);
  }

  /** The transaction: the organization row, then its owner's row. */
  method AppendAccount(st: Store, org: Organization, owner: User)
    requires st.Valid()
    requires org.id == |st.orgs| && owner.id == |st.users| && owner.orgId == org.id
    requires !EmailTaken(st.users, owner.email)
    modifies st
    ensures st.Valid()
    ensures old(st.OwnersValid()) ==> st.OwnersValid()
    ensures st.orgs == old(st.orgs) + [org] && st.users == old(st.users) + [owner]
    ensures st.alerts == old(st.alerts) && st.movements == old(st.movements) && st.products == old(st.products)
    ensures st.sales == old(st.sales) && st.saleItems == old(st.saleItems) && st.expenses == old(st.expenses)
  {
    if st.OwnersValid() {
      NewOrgKeepsOwnersValid(st.users, |st.orgs|, owner);
    }
    UsersApi.AddKeepsEmailsUnique(st.users, owner);
    st.orgs := st.orgs + [org];
    st.users := st.users + [owner];
  }

  method Register(st: Store, req: RegisterRequest, isEmail: string -> bool, now: int)
    returns (r: Response<Registered>)
    requires st.Valid()
    modifies st
    ensures st.Valid()
    ensures old(st.OwnersValid()) ==> st.OwnersValid()
    ensures RegisterRefusal(req, isEmail, old(st.users)).Some? ==>
      r == Err(RegisterRefusal(req, isEmail, old(st.users)).value) && unchanged(st)
    ensures RegisterRefusal(req, isEmail, old(st.users)).None? ==>
      var created := NewAccount(req, isEmail, |old(st.orgs)|, |old(st.users)|, now);
      && st.orgs == old(st.orgs) + [created.org]
      && st.users == old(st.users) + [created.owner]
      && r == Ok(201, created)
      && st.alerts == old(st.alerts) && st.movements == old(st.movements) && st.products == old(st.products)
      && st.sales == old(st.sales) && st.saleItems == old(st.saleItems) && st.expenses == old(st.expenses)
  {
    if !ValidRegisterRequest(req, isEmail) {
      return Err(InvalidData);
    }
    var email := UsersApi.NormalizeEmail(req.email.value);
    if EmailTaken(st.users, email) {
      return Err(DuplicateEmail);
    }
    var org := Organization(|st.orgs|, Text.Trim(req.organizationName.value));
    var owner := User(|st.users|, org.id, Text.Trim(req.ownerName.value), email, OWNER, true, now);
    AppendAccount(st, org, owner);
    r := Ok(201, Registered(org, owner));
  }
}
