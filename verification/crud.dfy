/** The database operations behind the endpoints. Each returns the new
    database and the affected row; a row the lookup does not find gives
    `Missing` (Python's `None`), and a write the database refuses (a
    clashing key, a null in a NOT NULL column, an over-long value, a
    dangling foreign key) gives `Conflict`, with the transaction rolled
    back. */
module Crud {
  import opened Wrappers
  import opened Seqs
  import opened Models
  import opened Schemas

  datatype Write<T> = Done(db: Db, row: T) | Missing | Conflict

  /** The outcome of a delete: the new database and the deleted row, if any. */
  datatype Removed<T> = Removed(db: Db, row: Option<T>)

  /** The row is compatible with every row of the table. */
  predicate FreshOrg(orgs: seq<Organisation>, row: Organisation)
  {
    forall i :: 0 <= i < |orgs| ==> OrgsDistinct(orgs[i], row)
  }

  /** The row is compatible with every row of the table but the one at `k`. */
  predicate FreshOrgExcept(orgs: seq<Organisation>, k: nat, row: Organisation)
  {
    forall i :: 0 <= i < |orgs| && i != k ==> OrgsDistinct(orgs[i], row)
  }

  /** The row a creation document inserts under the generated key. The
      ORM leaves a null attribute out of the INSERT, so a null status,
      pending count, coordinator limit, time zone or language stores the
      column default, and every other field is stored as given. */
  function NewOrgRow(c: OrgCreate, newId: Id): (r: Organisation)
    ensures r.org_id == newId && r.org_name == c.org_name
    ensures c.status.Some? ==> r.status == c.status.value
    ensures c.status.None? ==> r.status == DefaultStatus
    ensures c.pending_requests.Some? ==> r.pending_requests == c.pending_requests.value
    ensures c.pending_requests.None? ==> r.pending_requests == DefaultPendingRequests
    ensures c.max_coordinators.Some? ==> r.max_coordinators == c.max_coordinators
    ensures c.max_coordinators.None? ==> r.max_coordinators == Some(DefaultMaxCoordinators)
    ensures c.timezone_common.Some? ==> r.timezone_common == c.timezone_common
    ensures c.timezone_common.None? ==> r.timezone_common == Some(DefaultTimezoneCommon)
    ensures c.timezone_region.Some? ==> r.timezone_region == c.timezone_region
    ensures c.timezone_region.None? ==> r.timezone_region == Some(DefaultTimezoneRegion)
    ensures c.language.Some? ==> r.language == c.language
    ensures c.language.None? ==> r.language == Some(DefaultLanguage)
    ensures && r.org_mail == c.org_mail && r.org_contact == c.org_contact && r.org_slug == c.org_slug
            && r.primary_admin_name == c.primary_admin_name
            && r.primary_admin_mail == c.primary_admin_mail
            && r.support_email == c.support_email
            && r.phone == c.phone && r.alt_phone == c.alt_phone
            && r.website_url == c.website_url
  {
    Organisation(
      newId, c.org_name, c.org_mail, c.org_contact, c.org_slug,
      c.status.GetOr(DefaultStatus), c.pending_requests.GetOr(DefaultPendingRequests),
      c.primary_admin_name, c.primary_admin_mail, c.support_email,
      c.phone, c.alt_phone, Some(c.max_coordinators.GetOr(DefaultMaxCoordinators)),
      Some(c.timezone_common.GetOr(DefaultTimezoneCommon)),
      Some(c.timezone_region.GetOr(DefaultTimezoneRegion)),
      Some(c.language.GetOr(DefaultLanguage)), c.website_url)
  }

  /** `create_organisation`: inserts the document under the generated key
      `newId`. */
  function CreateOrganisation(db: Db, c: OrgCreate, newId: Id): (r: Write<Organisation>)
    ensures !r.Missing?
    ensures r.Done? <==> OrgFits(NewOrgRow(c, newId)) && FreshOrg(db.orgs, NewOrgRow(c, newId))
    ensures r.Done? ==> && r.row == NewOrgRow(c, newId)
                        && r.db.orgs == db.orgs + [r.row] && r.db.users == db.users
                        && newId !in OrgIds(db.orgs)
                        && (forall o :: o in db.orgs ==> o.org_name != c.org_name)
                        && (c.org_slug.Some? ==> forall o :: o in db.orgs ==> o.org_slug != c.org_slug)
  {
    var row := NewOrgRow(c, newId);
    if OrgFits(row) && FreshOrg(db.orgs, row) then
      Done(db.(orgs := db.orgs + [row]), row)
    else Conflict
  }

  /** `get_organizations`: every row in table order. */
  function GetOrganizations(db: Db): (r: seq<Organisation>)
    ensures forall o :: o in r <==> o in db.orgs
  {
    db.orgs
  }

  /** `get_organization`: the row with the given key, or `None`. */
  function GetOrganization(db: Db, id: Id): (r: Option<Organisation>)
    ensures r.None? <==> id !in OrgIds(db.orgs)
    ensures r.Some? ==> r.value in db.orgs && r.value.org_id == id
  {
    match OrgIndex(db.orgs, id)
    case None => None
    case Some(k) => Some(db.orgs[k])
  }

  /** `delete_organization`: removes the row and, by the cascade on the
      relationship, every user that belongs to it. */
  function DeleteOrganization(db: Db, id: Id): (r: Removed<Organisation>)
    ensures r.row.None? <==> id !in OrgIds(db.orgs)
    ensures r.row.None? ==> r.db == db
    ensures r.row.Some? ==> && r.row.value.org_id == id && r.row.value in db.orgs
                            && |r.db.orgs| == |db.orgs| - 1
                            && (forall o :: o in r.db.orgs ==> o in db.orgs)
                            && (forall o :: o in db.orgs && o.org_id != id ==> o in r.db.orgs)
                            && (forall u :: u in r.db.users <==> u in db.users && u.org_id != id)
  {
    match OrgIndex(db.orgs, id)
    case None => Removed(db, None)
    case Some(k) =>
      RemoveAtMembers(db.orgs, k);
      Removed(Db(db.orgs[..k] + db.orgs[k + 1..], Filter(db.users, (u: User) => u.org_id != id)),
              Some(db.orgs[k]))
  }

  /** `create_user`: inserts a user under the generated key `newId`,
      owned by the organisation named by the path. */
  function CreateUser(db: Db, u: UserCreate, orgId: Id, newId: Id): (r: Write<User>)
    ensures !r.Missing?
    ensures r.Done? <==> newId !in UserIds(db.users) && orgId in OrgIds(db.orgs)
                         && UserFits(User(newId, u.user_name, RoleOf(u), orgId))
    ensures r.Done? ==> && r.row == User(newId, u.user_name, RoleOf(u), orgId)
                        && r.row.org_id == orgId
                        && r.db.users == db.users + [r.row]
                        && |r.db.users| == |db.users| + 1
                        && r.db.orgs == db.orgs
  {
    var row := User(newId, u.user_name, RoleOf(u), orgId);
    if newId !in UserIds(db.users) && orgId in OrgIds(db.orgs) && UserFits(row) then
      Done(db.(users := db.users + [row]), row)
    else Conflict
  }

  /** `get_users`: the users of one organisation when a non-empty key is
      given, otherwise all users; table order either way. */
  function GetUsers(db: Db, orgId: Option<Id>): (r: seq<User>)
    ensures orgId.Some? && orgId.value != "" ==>
              forall u :: u in r <==> u in db.users && u.org_id == orgId.value
    ensures orgId.None? || orgId.value == "" ==> r == db.users
  {
    if orgId.Some? && orgId.value != "" then UsersOf(db.users, orgId.value) else db.users
  }

  /** `delete_user`: removes the row with the given key. */
  function DeleteUser(db: Db, userId: Id): (r: Removed<User>)
    ensures r.row.None? <==> userId !in UserIds(db.users)
    ensures r.row.None? ==> r.db == db
    ensures r.row.Some? ==> && r.row.value.user_id == userId
                            && r.db.orgs == db.orgs
                            && multiset(r.db.users) + multiset{r.row.value} == multiset(db.users)
  {
    match UserIndex(db.users, userId)
    case None => Removed(db, None)
    case Some(k) =>
      assert db.users == db.users[..k] + [db.users[k]] + db.users[k + 1..];
      Removed(db.(users := db.users[..k] + db.users[k + 1..]), Some(db.users[k]))
  }

  /** A column takes the given value when the field is given, and keeps
      its value otherwise. */
  predicate Agrees<T(==)>(f: Field<T>, before: T, after: T)
  {
    match f
    case Unset => after == before
    case Set(v) => after == v
  }

  /** `after` is `before` with exactly the given fields of `u` written. */
  predicate Merged(before: Organisation, u: OrgFields, after: Organisation)
  {
    && after.org_id == before.org_id
    && Agrees(u.org_name, Some(before.org_name), Some(after.org_name))
    && Agrees(u.org_mail, before.org_mail, after.org_mail)
    && Agrees(u.org_contact, before.org_contact, after.org_contact)
    && Agrees(u.org_slug, before.org_slug, after.org_slug)
    && Agrees(u.status, Some(before.status), Some(after.status))
    && Agrees(u.pending_requests, Some(before.pending_requests), Some(after.pending_requests))
    && Agrees(u.primary_admin_name, before.primary_admin_name, after.primary_admin_name)
    && Agrees(u.primary_admin_mail, before.primary_admin_mail, after.primary_admin_mail)
    && Agrees(u.support_email, before.support_email, after.support_email)
    && Agrees(u.phone, before.phone, after.phone)
    && Agrees(u.alt_phone, before.alt_phone, after.alt_phone)
    && Agrees(u.max_coordinators, before.max_coordinators, after.max_coordinators)
    && Agrees(u.timezone_common, before.timezone_common, after.timezone_common)
    && Agrees(u.timezone_region, before.timezone_region, after.timezone_region)
    && Agrees(u.language, before.language, after.language)
    && Agrees(u.website_url, before.website_url, after.website_url)
  }

  /** The NOT NULL columns `org_name`, `status` and `pending_requests` are
      not given as null. */
  predicate KeepsNotNull(u: OrgFields)
  {
    && u.org_name != Set(None)
    && u.status != Set(None)
    && u.pending_requests != Set(None)
  }

  /** Writes the given fields of an update onto a row (`setattr` over the
      fields the body sets), or `None` when that nulls a NOT NULL column. */
  function MergeOrg(o: Organisation, u: OrgFields): (r: Option<Organisation>)
    ensures r.Some? <==> KeepsNotNull(u)
    ensures r.Some? ==> Merged(o, u, r.value)
  {
    var name := OrDefault(u.org_name, Some(o.org_name));
    var status := OrDefault(u.status, Some(o.status));
    var pending := OrDefault(u.pending_requests, Some(o.pending_requests));
    if name.None? || status.None? || pending.None? then None
    else
      Some(Organisation(
        o.org_id, name.value,
        OrDefault(u.org_mail, o.org_mail),
        OrDefault(u.org_contact, o.org_contact),
        OrDefault(u.org_slug, o.org_slug),
        status.value, pending.value,
        OrDefault(u.primary_admin_name, o.primary_admin_name),
        OrDefault(u.primary_admin_mail, o.primary_admin_mail),
        OrDefault(u.support_email, o.support_email),
        OrDefault(u.phone, o.phone),
        OrDefault(u.alt_phone, o.alt_phone),
        OrDefault(u.max_coordinators, o.max_coordinators),
        OrDefault(u.timezone_common, o.timezone_common),
        OrDefault(u.timezone_region, o.timezone_region),
        OrDefault(u.language, o.language),
        OrDefault(u.website_url, o.website_url)))
  }

  /** `update_organisation`: writes the given fields onto the row with
      the given key. */
  function UpdateOrganisation(db: Db, orgId: Id, u: OrgFields): (r: Write<Organisation>)
    ensures r.Missing? <==> orgId !in OrgIds(db.orgs)
    ensures r.Done? ==> && OrgIndex(db.orgs, orgId).Some?
                        && var k := OrgIndex(db.orgs, orgId).value;
                        && Merged(db.orgs[k], u, r.row)
                        && r.db.orgs == db.orgs[k := r.row]
                        && r.db.users == db.users
    ensures r.Conflict? <==> (&& OrgIndex(db.orgs, orgId).Some?
                              && var k := OrgIndex(db.orgs, orgId).value;
                              || !KeepsNotNull(u)
                              || !OrgFits(MergeOrg(db.orgs[k], u).value)
                              || !FreshOrgExcept(db.orgs, k, MergeOrg(db.orgs[k], u).value))
  {
    match OrgIndex(db.orgs, orgId)
    case None => Missing
    case Some(k) =>
      match MergeOrg(db.orgs[k], u)
      case None => Conflict
      case Some(row) =>
        if OrgFits(row) && FreshOrgExcept(db.orgs, k, row) then
          Done(db.(orgs := db.orgs[k := row]), row)
        else Conflict
  }

  /** Writes a user update onto a row: the name always, the role only when
      the body gives it. */
  function MergeUser(before: User, u: UserCreate): (r: User)
    ensures r.user_id == before.user_id && r.org_id == before.org_id
    ensures r.user_name == u.user_name
    ensures Agrees(u.user_role, before.user_role, r.user_role)
  {
    User(before.user_id, u.user_name, OrDefault(u.user_role, before.user_role), before.org_id)
  }

  /** `update_user`: writes the given fields onto the row with the given key. */
  function UpdateUser(db: Db, userId: Id, u: UserCreate): (r: Write<User>)
    ensures r.Missing? <==> userId !in UserIds(db.users)
    ensures r.Done? ==> && UserIndex(db.users, userId).Some?
                        && var k := UserIndex(db.users, userId).value;
                        && r.row == MergeUser(db.users[k], u)
                        && r.db.users == db.users[k := r.row]
                        && r.db.orgs == db.orgs
    ensures r.Conflict? <==> && UserIndex(db.users, userId).Some?
                             && !UserFits(MergeUser(db.users[UserIndex(db.users, userId).value], u))
  {
    match UserIndex(db.users, userId)
    case None => Missing
    case Some(k) =>
      var row := MergeUser(db.users[k], u);
      if UserFits(row) then Done(db.(users := db.users[k := row]), row) else Conflict
  }

  // ---------------------------------------------------------------------
  // Properties of the partial-update merge

  /** An update that gives no field leaves the row as it was. */
  lemma MergeNothing(o: Organisation)
    ensures MergeOrg(o, NoFields) == Some(o)
  {
  }

  /** An update that gives only `status` changes only `status`. */
  lemma MergeStatusOnly(o: Organisation, status: string)
    ensures MergeOrg(o, StatusOnly(status)) == Some(o.(status := status))
  {
  }

  /** Writing the full document of a row onto any row yields that row
      under the key of the row written to: the update schema has no key
      field. */
  lemma MergeFullDocument(before: Organisation, o: Organisation)
    ensures MergeOrg(before, FieldsOf(o)) == Some(o.(org_id := before.org_id))
  {
  }

  /** Applying the same update twice is applying it once. */
  lemma MergeIdempotent(o: Organisation, u: OrgFields)
    requires KeepsNotNull(u)
    ensures MergeOrg(MergeOrg(o, u).value, u) == MergeOrg(o, u)
  {
  }

  // ---------------------------------------------------------------------
  // Every write keeps the schema's constraints

  lemma OrgsDistinctSymmetric(a: Organisation, b: Organisation)
    ensures OrgsDistinct(a, b) <==> OrgsDistinct(b, a)
  {
  }

  /** Appending a row keeps the key set of the other rows. */
  lemma OrgIdsAppend(orgs: seq<Organisation>, row: Organisation)
    ensures OrgIds(orgs + [row]) == OrgIds(orgs) + {row.org_id}
  {
    var t := orgs + [row];
    forall id | id in OrgIds(t) ensures id in OrgIds(orgs) + {row.org_id} {
      var o :| o in t && o.org_id == id;
    }
    forall id | id in OrgIds(orgs) + {row.org_id} ensures id in OrgIds(t) {
      if id != row.org_id {
        var o :| o in orgs && o.org_id == id;
        assert o in t;
      } else {
        assert t[|orgs|] == row;
      }
    }
  }

  /** Replacing a row by one with the same key keeps the key set. */
  lemma OrgIdsReplace(orgs: seq<Organisation>, k: nat, row: Organisation)
    requires k < |orgs| && orgs[k].org_id == row.org_id
    ensures OrgIds(orgs[k := row]) == OrgIds(orgs)
  {
    var t := orgs[k := row];
    forall id | id in OrgIds(t) ensures id in OrgIds(orgs) {
      var o :| o in t && o.org_id == id;
      var i :| 0 <= i < |t| && t[i] == o;
      if i == k { assert orgs[k] in orgs; } else { assert orgs[i] in orgs; }
    }
    forall id | id in OrgIds(orgs) ensures id in OrgIds(t) {
      var o :| o in orgs && o.org_id == id;
      var i :| 0 <= i < |orgs| && orgs[i] == o;
      if i == k { assert t[k] in t; } else { assert t[i] in t; }
    }
  }

  /** `create_organisation` keeps the constraints. */
  lemma CreateOrganisationKeepsValid(db: Db, c: OrgCreate, newId: Id)
    requires Valid(db)
    ensures CreateOrganisation(db, c, newId).Done? ==> Valid(CreateOrganisation(db, c, newId).db)
  {
    var r := CreateOrganisation(db, c, newId);
    if r.Done? {
      var t := r.db.orgs;
      forall i, j | 0 <= i < j < |t| ensures OrgsDistinct(t[i], t[j]) {
        if j == |db.orgs| {
          assert t[j] == r.row;
        } else {
          assert t[i] == db.orgs[i] && t[j] == db.orgs[j];
        }
      }
      OrgIdsAppend(db.orgs, r.row);
      assert forall i :: 0 <= i < |t| ==> OrgFits(t[i]) by {
        forall i | 0 <= i < |t| ensures OrgFits(t[i]) {
          if i < |db.orgs| { assert t[i] == db.orgs[i]; }
        }
      }
    }
  }

  /** `update_organisation` keeps the constraints. */
  lemma UpdateOrganisationKeepsValid(db: Db, orgId: Id, u: OrgFields)
    requires Valid(db)
    ensures UpdateOrganisation(db, orgId, u).Done? ==> Valid(UpdateOrganisation(db, orgId, u).db)
  {
    var r := UpdateOrganisation(db, orgId, u);
    if r.Done? {
      var k := OrgIndex(db.orgs, orgId).value;
      var t := r.db.orgs;
      assert FreshOrgExcept(db.orgs, k, r.row);
      forall i, j | 0 <= i < j < |t| ensures OrgsDistinct(t[i], t[j]) {
        if i == k {
          assert OrgsDistinct(db.orgs[j], r.row);
          OrgsDistinctSymmetric(db.orgs[j], r.row);
        } else if j == k {
          assert OrgsDistinct(db.orgs[i], r.row);
        } else {
          assert t[i] == db.orgs[i] && t[j] == db.orgs[j];
        }
      }
      OrgIdsReplace(db.orgs, k, r.row);
    }
  }

  /** The rows left by removing position `k` are rows of the table. */
  lemma RemoveAtMembers<T>(s: seq<T>, k: nat)
    requires k < |s|
    ensures forall x :: x in s[..k] + s[k + 1..] ==> x in s
    ensures forall x :: x in s && x != s[k] ==> x in s[..k] + s[k + 1..]
  {
    var t := s[..k] + s[k + 1..];
    forall x | x in s && x != s[k] ensures x in t {
      var m :| 0 <= m < |s| && s[m] == x;
      if m < k { assert t[m] == x; } else { assert t[m - 1] == x; }
    }
  }

  /** The organisation rows left by a delete are valid among themselves. */
  lemma DeleteOrganizationKeepsOrgs(db: Db, id: Id)
    requires Valid(db)
    ensures var t := DeleteOrganization(db, id).db.orgs;
      && Pairwise(t, OrgsDistinct)
      && (forall i :: 0 <= i < |t| ==> OrgFits(t[i]))
  {
    var r := DeleteOrganization(db, id);
    if r.row.Some? {
      var k := OrgIndex(db.orgs, id).value;
      RemoveAtPairwise(db.orgs, k, OrgsDistinct);
      RemoveAtMembers(db.orgs, k);
      var t := r.db.orgs;
      forall i | 0 <= i < |t| ensures OrgFits(t[i]) {
        assert t[i] in db.orgs;
      }
    }
  }

  /** Every user left by a delete still points at a remaining row. */
  lemma DeleteOrganizationKeepsUsers(db: Db, id: Id)
    requires Valid(db)
    ensures var r := DeleteOrganization(db, id).db;
      && Pairwise(r.users, UsersDistinct)
      && (forall i :: 0 <= i < |r.users| ==> UserFits(r.users[i]))
      && (forall i :: 0 <= i < |r.users| ==> r.users[i].org_id in OrgIds(r.orgs))
  {
    var r := DeleteOrganization(db, id);
    if r.row.Some? {
      var k := OrgIndex(db.orgs, id).value;
      FilterPairwise(db.users, (u: User) => u.org_id != id, UsersDistinct);
      RemoveAtMembers(db.orgs, k);
      forall i | 0 <= i < |r.db.users| ensures UserFits(r.db.users[i]) && r.db.users[i].org_id in OrgIds(r.db.orgs) {
        var u := r.db.users[i];
        assert u in db.users && u.org_id != id;
        var n :| 0 <= n < |db.users| && db.users[n] == u;
        var o :| o in db.orgs && o.org_id == u.org_id;
        assert o != db.orgs[k];
        assert o in r.db.orgs;
      }
    }
  }

  /** `delete_organization` keeps the constraints: no user is left
      pointing at the deleted row. */
  lemma DeleteOrganizationKeepsValid(db: Db, id: Id)
    requires Valid(db)
    ensures Valid(DeleteOrganization(db, id).db)
  {
    DeleteOrganizationKeepsOrgs(db, id);
    DeleteOrganizationKeepsUsers(db, id);
  }

  /** After `delete_organization` on a valid database the key is no
      longer found and none of its users remain. */
  lemma DeleteOrganizationRemovesAll(db: Db, id: Id)
    requires Valid(db)
    ensures GetOrganization(DeleteOrganization(db, id).db, id).None?
    ensures forall u :: u in DeleteOrganization(db, id).db.users ==> u.org_id != id
  {
    var r := DeleteOrganization(db, id);
    if r.row.Some? {
      var k := OrgIndex(db.orgs, id).value;
      var t := r.db.orgs;
      assert t == db.orgs[..k] + db.orgs[k + 1..];
      forall o | o in t ensures o.org_id != id {
        var i :| 0 <= i < |t| && t[i] == o;
        if i < k {
          assert t[i] == db.orgs[i];
          assert OrgsDistinct(db.orgs[i], db.orgs[k]);
        } else {
          assert t[i] == db.orgs[i + 1];
          assert OrgsDistinct(db.orgs[k], db.orgs[i + 1]);
        }
      }
    }
  }

  /** `create_user` keeps the constraints. */
  lemma CreateUserKeepsValid(db: Db, u: UserCreate, orgId: Id, newId: Id)
    requires Valid(db)
    ensures CreateUser(db, u, orgId, newId).Done? ==> Valid(CreateUser(db, u, orgId, newId).db)
  {
    var r := CreateUser(db, u, orgId, newId);
    if r.Done? {
      var t := r.db.users;
      forall i, j | 0 <= i < j < |t| ensures UsersDistinct(t[i], t[j]) {
        if j == |db.users| {
          assert t[i] == db.users[i];
          assert db.users[i] in db.users;
        } else {
          assert t[i] == db.users[i] && t[j] == db.users[j];
        }
      }
      forall i | 0 <= i < |t| ensures UserFits(t[i]) && t[i].org_id in OrgIds(db.orgs) {
        if i < |db.users| { assert t[i] == db.users[i]; }
      }
    }
  }

  /** `update_user` keeps the constraints. */
  lemma UpdateUserKeepsValid(db: Db, userId: Id, u: UserCreate)
    requires Valid(db)
    ensures UpdateUser(db, userId, u).Done? ==> Valid(UpdateUser(db, userId, u).db)
  {
    var r := UpdateUser(db, userId, u);
    if r.Done? {
      var k := UserIndex(db.users, userId).value;
      var t := r.db.users;
      forall i, j | 0 <= i < j < |t| ensures UsersDistinct(t[i], t[j]) {
        assert UsersDistinct(db.users[i], db.users[j]);
      }
      forall i | 0 <= i < |t| ensures UserFits(t[i]) && t[i].org_id in OrgIds(db.orgs) {
        if i != k { assert t[i] == db.users[i]; }
      }
    }
  }

  /** `delete_user` keeps the constraints and, on a valid database,
      leaves no row with the deleted key. */
  lemma DeleteUserKeepsValid(db: Db, userId: Id)
    requires Valid(db)
    ensures Valid(DeleteUser(db, userId).db)
    ensures userId !in UserIds(DeleteUser(db, userId).db.users)
  {
    var r := DeleteUser(db, userId);
    if r.row.Some? {
      var k := UserIndex(db.users, userId).value;
      var t := r.db.users;
      assert t == db.users[..k] + db.users[k + 1..];
      RemoveAtPairwise(db.users, k, UsersDistinct);
      forall i | 0 <= i < |t| ensures UserFits(t[i]) && t[i].org_id in OrgIds(db.orgs) && t[i].user_id != userId {
        if i < k {
          assert t[i] == db.users[i];
          assert UsersDistinct(db.users[i], db.users[k]);
        } else {
          assert t[i] == db.users[i + 1];
          assert UsersDistinct(db.users[k], db.users[i + 1]);
        }
      }
    }
  }
}
