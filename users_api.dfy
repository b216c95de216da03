/**
 * GET and POST /api/users (app/api/users/route.ts): the caller organization's
 * members, newest first; and adding a member. Both need OWNER or ADMIN.
 *
 * Emails are compared and stored lower-cased and trimmed, and are unique
 * across all organizations. A new OWNER is refused while the organization
 * has an active one. The email format check is the parameter `isEmail`; the
 * password is only checked for length (hashing is not modelled).
 */
module UsersApi {
  import opened Domain
  import opened Store
  import Seqs
  import Text
  import Permissions

  function UserCreatedAt(u: User): int {
    u.createdAt
  }

  predicate InOrg(u: User, org: Id) {
    u.orgId == org
  }

  /** The organization's users, newest first. */
  function OrgUsers(us: seq<User>, org: Id): seq<User> {
    Seqs.SortDesc(Seqs.Filter(us, (u: User) => InOrg(u, org)), UserCreatedAt)
  }

  /** The listing holds exactly the organization's users, newest first. */
  lemma OrgUsersSpec(us: seq<User>, org: Id)
    ensures Seqs.SortedDesc(OrgUsers(us, org), UserCreatedAt)
    ensures forall u :: u in OrgUsers(us, org) <==> u in us && u.orgId == org
    ensures |OrgUsers(us, org)| <= |us|
    ensures forall u :: multiset(OrgUsers(us, org))[u] == if u.orgId == org then multiset(us)[u] else 0
  {
    Seqs.ListingSpec(us, (u: User) => InOrg(u, org), UserCreatedAt);
  }

  method GetUsers(st: Store, session: Option<Session>) returns (r: Response<seq<User>>)
    ensures session.None? ==> r == Err(Unauthorized)
    ensures session.Some? && !Permissions.CanManageCatalog(session.value.role) ==> r == Err(Forbidden)
    ensures session.Some? && Permissions.CanManageCatalog(session.value.role) ==>
      r == Ok(200, OrgUsers(st.users, session.value.orgId))
  {
    if session.None? {
      return Err(Unauthorized);
    }
    if !Permissions.CanManageCatalog(session.value.role) {
      return Err(Forbidden);
    }
    r := Ok(200, OrgUsers(st.users, session.value.orgId));
  }

  /** `email.toLowerCase().trim()`. */
  function NormalizeEmail(email: string): (r: string)
    ensures Text.Unpadded(r)
    ensures forall i :: 0 <= i < |r| ==> r[i] == Text.LowerChar(r[i])
    ensures |r| == |Text.Trim(email)| && forall i :: 0 <= i < |r| ==> r[i] == Text.LowerChar(Text.Trim(email)[i])
  {
    var r := Text.Trim(Text.Lower(email));
    Text.TrimLowerCommute(email);
    Text.LowerIdempotent(Text.Trim(email));
    r
  }

  /** Two spellings that normalize alike are the same account. */
  lemma NormalizeEmailIdempotent(email: string)
    ensures NormalizeEmail(NormalizeEmail(email)) == NormalizeEmail(email)
  {
    var t := Text.Trim(Text.Lower(email));
    Text.TrimIdempotent(Text.Lower(email));
    Text.TrimLowerCommute(t);
    Text.TrimLowerCommute(email);
    Text.LowerIdempotent(email);
    Text.LowerIdempotent(Text.Trim(email));
  }

  /** The `role` enum of the request schema. */
  function ParseRole(s: string): (r: Option<Role>)
    ensures r == Some(OWNER) <==> s == "OWNER"
    ensures r == Some(ADMIN) <==> s == "ADMIN"
    ensures r == Some(STAFF) <==> s == "STAFF"
    ensures r == Some(VIEWER) <==> s == "VIEWER"
  {
    if s == "OWNER" then Some(OWNER)
    else if s == "ADMIN" then Some(ADMIN)
    else if s == "STAFF" then Some(STAFF)
    else if s == "VIEWER" then Some(VIEWER)
    else None
  }

  /** The request body; an absent field is None. */
  datatype UserRequest = UserRequest(
    name: Option<string>, email: Option<string>, role: Option<string>, password: Option<string>)

  predicate ValidUserRequest(req: UserRequest, isEmail: string -> bool) {
    && req.name.Some? && |req.name.value| >= 1
    && req.email.Some? && isEmail(req.email.value)
    && req.role.Some? && ParseRole(req.role.value).Some?
    && req.password.Some? && |req.password.value| >= 8
  }

  predicate HasActiveOwner(us: seq<User>, org: Id) {
    exists i :: 0 <= i < |us| && IsActiveOwnerOf(us[i], org)
  }

  /** The refusal the handler answers with, in the order it checks. */
  function UserRefusal(session: Option<Session>, req: UserRequest, isEmail: string -> bool, us: seq<User>)
    : (r: Option<Failure>)
    ensures r == Some(Unauthorized) <==> session.None?
    ensures r == Some(Forbidden) <==> session.Some? && !Permissions.CanManageCatalog(session.value.role)
    ensures r.None? <==>
      && session.Some? && Permissions.CanManageCatalog(session.value.role)
      && ValidUserRequest(req, isEmail)
      && !EmailTaken(us, NormalizeEmail(req.email.value))
      && (ParseRole(req.role.value) == Some(OWNER) ==> !HasActiveOwner(us, session.value.orgId))
    ensures r == Some(DuplicateEmail) ==> ValidUserRequest(req, isEmail) && EmailTaken(us, NormalizeEmail(req.email.value))
    ensures r == Some(OwnerExists) ==>
      session.Some? && ValidUserRequest(req, isEmail) && ParseRole(req.role.value) == Some(OWNER) && HasActiveOwner(us, session.value.orgId)
  {
    if session.None? then Some(Unauthorized)
    else if !Permissions.CanManageCatalog(session.value.role) then Some(Forbidden)
    else if !ValidUserRequest(req, isEmail) then Some(InvalidData)
    else if EmailTaken(us, NormalizeEmail(req.email.value)) then Some(DuplicateEmail)
    else if ParseRole(req.role.value) == Some(OWNER) && HasActiveOwner(us, session.value.orgId) then Some(OwnerExists)
    else None
  }

  /** The row created for an accepted request: active, trimmed name, normalized email. */
  function NewUser(req: UserRequest, isEmail: string -> bool, org: Id, id: Id, now: int): (u: User)
    requires ValidUserRequest(req, isEmail)
    ensures u.id == id && u.orgId == org && u.isActive && u.createdAt == now
    ensures u.name == Text.Trim(req.name.value) && u.email == NormalizeEmail(req.email.value)
    ensures Some(u.role) == ParseRole(req.role.value)
  {
    User(id, org, Text.Trim(req.name.value), NormalizeEmail(req.email.value),
         ParseRole(req.role.value).value, true, now)
  }

  /**
   * The name is checked before it is trimmed: a name of blanks passes and
   * is stored empty.
   */
  lemma BlankNameStoredEmpty(isEmail: string -> bool, email: string, org: Id, id: Id, now: int)
    requires isEmail(email)
    ensures var req := UserRequest(Some(" "), Some(email), Some("STAFF"), Some("password"));
      ValidUserRequest(req, isEmail) && NewUser(req, isEmail, org, id, now).name == []
  {
    assert Text.IsSpace(' ');
  }

  /** Adding an unused email keeps emails unique. */
  lemma AddKeepsEmailsUnique(us: seq<User>, u: User)
    requires EmailsUnique(us)
    requires !EmailTaken(us, u.email)
    ensures EmailsUnique(us + [u])
  {
    var vs := us + [u];
    forall i, j | 0 <= i < j < |vs| ensures vs[i].email != vs[j].email {
      if j == |us| {
        assert vs[i] == us[i];
      }
    }
  }

  /** Adding a user that is not an active OWNER of an organization that has one keeps the rule. */
  lemma AddKeepsOneActiveOwner(us: seq<User>, u: User)
    requires OneActiveOwnerPerOrg(us)
    requires IsActiveOwnerOf(u, u.orgId) ==> !HasActiveOwner(us, u.orgId)
    ensures OneActiveOwnerPerOrg(us + [u])
  {
    var vs := us + [u];
    forall i, j | 0 <= i < j < |vs| && IsActiveOwnerOf(vs[i], vs[i].orgId)
      ensures !IsActiveOwnerOf(vs[j], vs[i].orgId)
    {
      if j == |us| {
        assert vs[i] == us[i];
      }
    }
  }

  /** The insert itself: one row appended to the users table. */
  method AppendUser(st: Store, u: User)
    requires st.Valid()
    requires u.id == |st.users| && !EmailTaken(st.users, u.email)
    requires IsActiveOwnerOf(u, u.orgId) ==> !HasActiveOwner(st.users, u.orgId)
    modifies st
    ensures st.Valid()
    ensures old(st.OwnersValid()) && u.orgId < |st.orgs| ==> st.OwnersValid()
    ensures st.users == old(st.users) + [u]
    ensures st.alerts == old(st.alerts) && st.movements == old(st.movements) && st.products == old(st.products)
    ensures st.sales == old(st.sales) && st.saleItems == old(st.saleItems)
    ensures st.orgs == old(st.orgs) && st.expenses == old(st.expenses)
  {
    AddKeepsEmailsUnique(st.users, u);
    if OneActiveOwnerPerOrg(st.users) {
      AddKeepsOneActiveOwner(st.users, u);
    }
    st.users := st.users + [u];
  }

  method PostUser(st: Store, session: Option<Session>, req: UserRequest, isEmail: string -> bool, now: int)
    returns (r: Response<User>)
    requires st.Valid()
    modifies st
    ensures st.Valid()
    ensures old(st.OwnersValid()) && (session.Some? ==> session.value.orgId < |old(st.orgs)|) ==> st.OwnersValid()
    ensures UserRefusal(session, req, isEmail, old(st.users)).Some? ==>
      r == Err(UserRefusal(session, req, isEmail, old(st.users)).value) && unchanged(st)
    ensures UserRefusal(session, req, isEmail, old(st.users)).None? ==>
      var created := NewUser(req, isEmail, session.value.orgId, |old(st.users)|, now);
      && st.users == old(st.users) + [created]
      && r == Ok(201, created)
      && st.alerts == old(st.alerts) && st.movements == old(st.movements) && st.products == old(st.products)
      && st.sales == old(st.sales) && st.saleItems == old(st.saleItems)
      && st.orgs == old(st.orgs) && st.expenses == old(st.expenses)
  {
    if session.None? {
      return Err(Unauthorized);
    }
    var s := session.value;
    if !Permissions.CanManageCatalog(s.role) {
      return Err(Forbidden);
    }
    if !ValidUserRequest(req, isEmail) {
      return Err(InvalidData);
    }
    var email := NormalizeEmail(req.email.value);
    if EmailTaken(st.users, email) {
      return Err(DuplicateEmail);
    }
    var role := ParseRole(req.role.value).value;
    if role == OWNER && HasActiveOwner(st.users, s.orgId) {
      return Err(OwnerExists);
    }
    var created := User(|st.users|, s.orgId, Text.Trim(req.name.value), email, role, true, now);
    AppendUser(st, created);
    r := Ok(201, created);
  }
}
