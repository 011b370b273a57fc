/** The HTTP endpoints under `/organisations`: request validation, the
    404/400 guards, the user-in-organisation membership check and the
    status whitelist. A failed request carries only its status code: the
    database it leaves behind is the one it was given. */
module Routes {
  import opened Wrappers
  import opened Models
  import opened Schemas
  import Crud

  datatype Reply =
    | OrgReply(doc: OrgResponse)
    | OrgListReply(docs: seq<OrgResponse>)
    | UserReply(user: User)
    | StatusReply(status: string)

  datatype Http = Ok(db: Db, body: Reply) | Fail(code: int)

  const BadRequest := 400
  const NotFound := 404
  const Unprocessable := 422
  const ServerError := 500

  /** The statuses the status endpoint accepts. */
  const Statuses: seq<string> := ["Active", "Blocked", "Inactive"]

  /** `POST /organisations/`. */
  function CreateOrg(db: Db, body: OrgFields, newId: Id): (r: Http)
    ensures ParseOrgCreate(body).None? ==> r == Fail(Unprocessable)
    ensures ParseOrgCreate(body).Some? ==>
              && (r.Ok? <==> Crud.CreateOrganisation(db, ParseOrgCreate(body).value, newId).Done?)
              && (!r.Ok? ==> r == Fail(ServerError))
    ensures r.Ok? ==> && r.body.OrgReply? && r.body.doc.org.org_id == newId
                      && r.db.orgs == db.orgs + [r.body.doc.org] && r.db.users == db.users
                      && r.body.doc.org == Crud.NewOrgRow(ParseOrgCreate(body).value, newId)
                      && r.db == Crud.CreateOrganisation(db, ParseOrgCreate(body).value, newId).db
                      && r.body.doc == ResponseOf(r.db, r.body.doc.org)
  {
    match ParseOrgCreate(body)
    case None => Fail(Unprocessable)
    case Some(c) =>
      match Crud.CreateOrganisation(db, c, newId)
      case Done(db', row) => Ok(db', OrgReply(ResponseOf(db', row)))
      case _ => Fail(ServerError)
  }

  /** `GET /organisations/`: every organisation, in table order. */
  function GetOrgs(db: Db): (r: Http)
    ensures r.Ok? && r.db == db && r.body.OrgListReply?
    ensures |r.body.docs| == |db.orgs|
    ensures forall i :: 0 <= i < |db.orgs| ==> r.body.docs[i].org == db.orgs[i]
  {
    Ok(db, OrgListReply(seq(|db.orgs|, i requires 0 <= i < |db.orgs| => ResponseOf(db, db.orgs[i]))))
  }

  /** `GET /organisations/{org_id}`. */
  function GetOrg(db: Db, orgId: Id): (r: Http)
    ensures orgId !in OrgIds(db.orgs) <==> r == Fail(NotFound)
    ensures orgId in OrgIds(db.orgs) ==> r.Ok?
    ensures r.Ok? ==> && r.db == db && r.body.OrgReply?
                      && r.body.doc.org in db.orgs && r.body.doc.org.org_id == orgId
                      && forall u :: u in r.body.doc.users <==> u in db.users && u.org_id == orgId
  {
    match Crud.GetOrganization(db, orgId)
    case None => Fail(NotFound)
    case Some(o) => Ok(db, OrgReply(ResponseOf(db, o)))
  }

  /** `PUT /organisations/{org_id}`: writes the given fields. */
  function UpdateOrg(db: Db, orgId: Id, body: OrgFields): (r: Http)
    ensures orgId !in OrgIds(db.orgs) ==> r == Fail(NotFound)
    ensures r.Ok? <==> Crud.UpdateOrganisation(db, orgId, body).Done?
    ensures Crud.UpdateOrganisation(db, orgId, body).Conflict? ==> r == Fail(ServerError)
    ensures r.Ok? ==> && Crud.UpdateOrganisation(db, orgId, body).Done?
                      && r.db == Crud.UpdateOrganisation(db, orgId, body).db
                      && r.body.OrgReply? && r.body.doc.org == Crud.UpdateOrganisation(db, orgId, body).row
  {
    match Crud.UpdateOrganisation(db, orgId, body)
    case Missing => Fail(NotFound)
    case Conflict => Fail(ServerError)
    case Done(db', row) => Ok(db', OrgReply(ResponseOf(db', row)))
  }

  /** `PUT /organisations/{org_id}/status?status=...`: the status is
      checked against the whitelist before the database is touched. */
  function UpdateOrgStatus(db: Db, orgId: Id, status: string): (r: Http)
    ensures status !in Statuses ==> r == Fail(BadRequest)
    ensures status in Statuses && orgId !in OrgIds(db.orgs) ==> r == Fail(NotFound)
    ensures r.Ok? ==> status in Statuses && r.body == StatusReply(status)
  {
    if status !in Statuses then Fail(BadRequest)
    else
      match Crud.UpdateOrganisation(db, orgId, StatusOnly(status))
      case Missing => Fail(NotFound)
      case Conflict => Fail(ServerError)
      case Done(db', _) => Ok(db', StatusReply(status))
  }

  /** `DELETE /organisations/{org_id}`: replies with the deleted document. */
  function DeleteOrg(db: Db, orgId: Id): (r: Http)
    ensures orgId !in OrgIds(db.orgs) <==> r == Fail(NotFound)
    ensures orgId in OrgIds(db.orgs) ==> r.Ok?
    ensures r.Ok? ==> && r.body.OrgReply? && r.body.doc.org.org_id == orgId
                      && r.db == Crud.DeleteOrganization(db, orgId).db
                      && r.body.doc == ResponseOf(db, Crud.DeleteOrganization(db, orgId).row.value)
  {
    var d := Crud.DeleteOrganization(db, orgId);
    match d.row
    case None => Fail(NotFound)
    case Some(o) => Ok(d.db, OrgReply(ResponseOf(db, o)))
  }

  /** `POST /organisations/{org_id}/users`: the body is validated first,
      then the organisation must exist. */
  function CreateUserForOrg(db: Db, orgId: Id, body: UserFields, newId: Id): (r: Http)
    ensures ParseUserCreate(body).None? ==> r == Fail(Unprocessable)
    ensures ParseUserCreate(body).Some? && orgId !in OrgIds(db.orgs) ==> r == Fail(NotFound)
    ensures ParseUserCreate(body).Some? && orgId in OrgIds(db.orgs) ==>
              && (r.Ok? <==> Crud.CreateUser(db, ParseUserCreate(body).value, orgId, newId).Done?)
              && (!r.Ok? ==> r == Fail(ServerError))
    ensures r.Ok? ==> && r.body.UserReply? && r.body.user.org_id == orgId
                      && r.body.user.user_id == newId
                      && r.db.users == db.users + [r.body.user] && r.db.orgs == db.orgs
                      && r.body.user.user_name == ParseUserCreate(body).value.user_name
                      && r.body.user.user_role == RoleOf(ParseUserCreate(body).value)
                      && r.db == Crud.CreateUser(db, ParseUserCreate(body).value, orgId, newId).db
  {
    match ParseUserCreate(body)
    case None => Fail(Unprocessable)
    case Some(u) =>
      if Crud.GetOrganization(db, orgId).None? then Fail(NotFound)
      else
        match Crud.CreateUser(db, u, orgId, newId)
        case Done(db', row) => Ok(db', UserReply(row))
        case _ => Fail(ServerError)
  }

  /** The user with key `userId` is one of the users of `orgId`. */
  predicate BelongsTo(db: Db, orgId: Id, userId: Id)
  {
    exists u :: u in db.users && u.user_id == userId && u.org_id == orgId
  }

  /** The membership check: the first user of the organisation's user
      list with the given key. */
  function MemberOf(db: Db, orgId: Id, userId: Id): (r: Option<User>)
    ensures orgId != "" ==> (r.Some? <==> BelongsTo(db, orgId, userId))
    ensures r.Some? ==> r.value in db.users && r.value.user_id == userId
  {
    var scoped := Crud.GetUsers(db, Some(orgId));
    match UserIndex(scoped, userId)
    case None => None
    case Some(k) =>
      assert scoped[k] in scoped;
      Some(scoped[k])
  }

  /** `PUT /organisations/{org_id}/users/{user_id}`. */
  function UpdateUserInOrg(db: Db, orgId: Id, userId: Id, body: UserFields): (r: Http)
    ensures ParseUserCreate(body).None? ==> r == Fail(Unprocessable)
    ensures ParseUserCreate(body).Some? && orgId != "" && !BelongsTo(db, orgId, userId) ==> r == Fail(NotFound)
    ensures ParseUserCreate(body).Some? && MemberOf(db, orgId, userId).Some? ==>
              && (r.Ok? <==> Crud.UpdateUser(db, userId, ParseUserCreate(body).value).Done?)
              && (!r.Ok? ==> r == Fail(ServerError))
    ensures r.Ok? ==> && r.body.UserReply? && r.body.user.user_id == userId
                      && Crud.UpdateUser(db, userId, ParseUserCreate(body).value).Done?
                      && r.db == Crud.UpdateUser(db, userId, ParseUserCreate(body).value).db
  {
    match ParseUserCreate(body)
    case None => Fail(Unprocessable)
    case Some(u) =>
      if MemberOf(db, orgId, userId).None? then Fail(NotFound)
      else
        match Crud.UpdateUser(db, userId, u)
        case Done(db', row) => Ok(db', UserReply(row))
        case _ => Fail(ServerError)
  }

  /** `DELETE /organisations/{org_id}/users/{user_id}`. */
  function DeleteUserFromOrg(db: Db, orgId: Id, userId: Id): (r: Http)
    ensures orgId != "" && !BelongsTo(db, orgId, userId) ==> r == Fail(NotFound)
    ensures r.Ok? ==> && r.body.UserReply? && r.body.user.user_id == userId
                      && r.db == Crud.DeleteUser(db, userId).db
  {
    if MemberOf(db, orgId, userId).None? then Fail(NotFound)
    else
      var d := Crud.DeleteUser(db, userId);
      match d.row
      case Some(u) => Ok(d.db, UserReply(u))
      case None => Fail(ServerError)
  }

  /** On a valid database, deleting a user through an organisation
      succeeds exactly when the user belongs to it; the key is then gone
      from the table and every other user is kept. */
  lemma DeleteUserFromOrgRemovesKey(db: Db, orgId: Id, userId: Id)
    requires Valid(db) && orgId != ""
    ensures var r := DeleteUserFromOrg(db, orgId, userId);
      && (r.Ok? <==> BelongsTo(db, orgId, userId))
      && (r.Ok? ==> && r.db.orgs == db.orgs
                    && (forall u :: u in r.db.users ==> u.user_id != userId)
                    && (forall u :: u in db.users && u.user_id != userId ==> u in r.db.users))
  {
    var r := DeleteUserFromOrg(db, orgId, userId);
    var d := Crud.DeleteUser(db, userId);
    if BelongsTo(db, orgId, userId) {
      var w :| w in db.users && w.user_id == userId && w.org_id == orgId;
      assert userId in UserIds(db.users);
      Crud.DeleteUserKeepsValid(db, userId);
      forall u | u in db.users && u.user_id != userId ensures u in r.db.users {
        assert multiset(db.users)[u] == multiset(d.db.users)[u] + multiset{d.row.value}[u];
      }
    }
  }

  /** On a valid database, editing a user of an organisation with a name
      and role that fit their columns succeeds and stores exactly those,
      under the same key and organisation. */
  lemma UpdateUserInOrgWrites(db: Db, orgId: Id, userId: Id, name: string, role: Option<string>)
    requires Valid(db) && orgId != ""
    requires BelongsTo(db, orgId, userId)
    requires |name| <= NameWidth && FitsText(role, RoleWidth)
    ensures var r := UpdateUserInOrg(db, orgId, userId, UserFields(Set(Some(name)), Set(role)));
      && r.Ok? && r.db.orgs == db.orgs
      && User(userId, name, role, orgId) in r.db.users
  {
    var w :| w in db.users && w.user_id == userId && w.org_id == orgId;
    var j :| 0 <= j < |db.users| && db.users[j] == w;
    UserIndexUnique(db, userId, j);
    var row := User(userId, name, role, orgId);
    assert Crud.MergeUser(w, UserCreate(name, Set(role))) == row;
    assert UserFits(w);
    var d := Crud.UpdateUser(db, userId, UserCreate(name, Set(role)));
    assert d.Done? && d.db.users == db.users[j := row];
    assert d.db.users[j] == row;
  }

  /** On a valid database, a whitelisted status for an existing
      organisation succeeds and changes that row's status and nothing
      else. */
  lemma UpdateOrgStatusChangesOnlyStatus(db: Db, orgId: Id, status: string)
    requires Valid(db)
    requires status in Statuses && orgId in OrgIds(db.orgs)
    ensures var r := UpdateOrgStatus(db, orgId, status);
      && r.Ok?
      && OrgIndex(db.orgs, orgId).Some?
      && var k := OrgIndex(db.orgs, orgId).value;
      && r.db.orgs == db.orgs[k := db.orgs[k].(status := status)]
      && r.db.users == db.users
  {
    var k := OrgIndex(db.orgs, orgId).value;
    var row := db.orgs[k].(status := status);
    Crud.MergeStatusOnly(db.orgs[k], status);
    assert OrgFits(row);
    forall i | 0 <= i < |db.orgs| && i != k ensures OrgsDistinct(db.orgs[i], row) {
      if i < k {
        assert OrgsDistinct(db.orgs[i], db.orgs[k]);
      } else {
        assert OrgsDistinct(db.orgs[k], db.orgs[i]);
      }
    }
    assert Crud.FreshOrgExcept(db.orgs, k, row);
  }
}
