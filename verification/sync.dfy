/** The two pages talking to the backend. Each request a page sends is
    served, in order, against the database; every refetch completes at
    once and its reply replaces the page's cache. The outcome of a
    mutation's `fetch` is a parameter of the handler that sent it, not
    derived here from the reply: a 400, 404 or 422 reply is `Responded`,
    and a 500 (which carries no CORS header) makes `fetch` throw. */
module Sync {
  import opened Wrappers
  import opened Seqs
  import opened Models
  import opened Schemas
  import opened Api
  import Crud
  import Routes
  import OrganizationsPage
  import OrganizationDetails

  /** Serves one request. `freshId` is the key the database generates if
      the request inserts a row. */
  function Serve(db: Db, req: Request, freshId: Id): (h: Routes.Http)
    ensures req.ListOrgs? ==> h == Routes.GetOrgs(db)
    ensures req.GetOrg? ==> h == Routes.GetOrg(db, req.orgId)
    ensures h.Ok? && !IsMutation(req) ==> h.db == db
  {
    match req
    case ListOrgs => Routes.GetOrgs(db)
    case GetOrg(id) => Routes.GetOrg(db, id)
    case CreateOrg(b) => Routes.CreateOrg(db, b, freshId)
    case UpdateOrg(id, b) => Routes.UpdateOrg(db, id, b)
    case UpdateStatus(id, st) => Routes.UpdateOrgStatus(db, id, st)
    case DeleteOrg(id) => Routes.DeleteOrg(db, id)
    case CreateUser(id, u) => Routes.CreateUserForOrg(db, id, u, freshId)
    case UpdateUser(id, uid, u) => Routes.UpdateUserInOrg(db, id, uid, u)
    case DeleteUser(id, uid) => Routes.DeleteUserFromOrg(db, id, uid)
  }

  /** The database after a reply: a failed request leaves it as it was. */
  function After(db: Db, h: Routes.Http): Db
  {
    if h.Ok? then h.db else db
  }

  /** Every endpoint keeps the schema's constraints. */
  lemma ServeKeepsValid(db: Db, req: Request, freshId: Id)
    requires Valid(db)
    ensures Valid(After(db, Serve(db, req, freshId)))
  {
    match req
    case ListOrgs =>
    case GetOrg(id) =>
    case CreateOrg(b) =>
      if ParseOrgCreate(b).Some? {
        Crud.CreateOrganisationKeepsValid(db, ParseOrgCreate(b).value, freshId);
      }
    case UpdateOrg(id, b) => Crud.UpdateOrganisationKeepsValid(db, id, b);
    case UpdateStatus(id, st) => Crud.UpdateOrganisationKeepsValid(db, id, StatusOnly(st));
    case DeleteOrg(id) => Crud.DeleteOrganizationKeepsValid(db, id);
    case CreateUser(id, u) =>
      if ParseUserCreate(u).Some? {
        Crud.CreateUserKeepsValid(db, ParseUserCreate(u).value, id, freshId);
      }
    case UpdateUser(id, uid, u) =>
      if ParseUserCreate(u).Some? {
        Crud.UpdateUserKeepsValid(db, uid, ParseUserCreate(u).value);
      }
    case DeleteUser(id, uid) => Crud.DeleteUserKeepsValid(db, uid);
  }

  /** The error document of a 404. */
  const NotFoundDetail := "Organization not found"

  /** What the detail page's `fetch` + `response.json()` makes of a reply:
      a document, the 404 error document, or a throw (a 500 carries no
      CORS header, so the browser rejects it). */
  function DetailResponseOf(h: Routes.Http): (r: OrganizationDetails.DetailResponse)
    ensures h.Ok? && h.body.OrgReply? ==> r == OrganizationDetails.Loaded(OrganizationDetails.OrgBody(h.body.doc))
    ensures h == Routes.Fail(Routes.NotFound) ==> r.Loaded? && r.body.ErrorBody?
  {
    match h
    case Ok(_, OrgReply(doc)) => OrganizationDetails.Loaded(OrganizationDetails.OrgBody(doc))
    case Fail(404) => OrganizationDetails.Loaded(OrganizationDetails.ErrorBody(NotFoundDetail, NoFields))
    case _ => OrganizationDetails.DetailThrew
  }

  /** The list entry the backend serialises for an organisation. */
  function EntryOf(doc: OrgResponse): OrganizationsPage.BackendOrg
  {
    OrganizationsPage.BackendOrg(doc.org.org_id, doc.org.org_name, Some(doc.org.status), Some(doc.org.pending_requests))
  }

  /** What the list page's `fetch` makes of a reply: the array, or a throw. */
  function ListResponseOf(h: Routes.Http): (r: OrganizationsPage.ListResponse)
    ensures h.Ok? && h.body.OrgListReply? ==> && r.Listed? && |r.data| == |h.body.docs|
                                              && forall i :: 0 <= i < |r.data| ==> r.data[i] == EntryOf(h.body.docs[i])
    ensures !(h.Ok? && h.body.OrgListReply?) ==> r.ListThrew?
  {
    match h
    case Ok(_, OrgListReply(docs)) => OrganizationsPage.Listed(seq(|docs|, i requires 0 <= i < |docs| => EntryOf(docs[i])))
    case _ => OrganizationsPage.ListThrew
  }

  datatype DetailWorld = DetailWorld(db: Db, page: OrganizationDetails.Details)
  datatype ListWorld = ListWorld(db: Db, page: OrganizationsPage.Page)

  /** Serves the detail page's requests in order, feeding each refetch
      back into the page. */
  function DriveDetails(db: Db, s: OrganizationDetails.Details, sent: seq<Request>, freshId: Id): DetailWorld
    decreases |sent|
  {
    if |sent| == 0 then DetailWorld(db, s)
    else
      var h := Serve(db, sent[0], freshId);
      var s' := if sent[0].GetOrg? then OrganizationDetails.Receive(s, DetailResponseOf(h)) else s;
      DriveDetails(After(db, h), s', sent[1..], freshId)
  }

  /** Serves the list page's requests in order, feeding each list fetch
      back into the page. */
  function DriveList(db: Db, p: OrganizationsPage.Page, sent: seq<Request>, freshId: Id): ListWorld
    decreases |sent|
  {
    if |sent| == 0 then ListWorld(db, p)
    else
      var h := Serve(db, sent[0], freshId);
      var p' := if sent[0].ListOrgs? then OrganizationsPage.ReceiveList(p, ListResponseOf(h)) else p;
      DriveList(After(db, h), p', sent[1..], freshId)
  }

  /** However many requests a page sends, the database stays valid. */
  lemma {:induction false} DriveDetailsKeepsValid(db: Db, s: OrganizationDetails.Details, sent: seq<Request>, freshId: Id)
    requires Valid(db)
    ensures Valid(DriveDetails(db, s, sent, freshId).db)
    decreases |sent|
  {
    if |sent| > 0 {
      var h := Serve(db, sent[0], freshId);
      ServeKeepsValid(db, sent[0], freshId);
      var s' := if sent[0].GetOrg? then OrganizationDetails.Receive(s, DetailResponseOf(h)) else s;
      DriveDetailsKeepsValid(After(db, h), s', sent[1..], freshId);
    }
  }

  /** A mutation followed by the detail refetch: the page receives the
      document as it stands after the mutation. */
  lemma DriveMutationThenDetail(db: Db, s: OrganizationDetails.Details, m: Request, orgId: Id, freshId: Id)
    requires !m.GetOrg?
    ensures var db1 := After(db, Serve(db, m, freshId));
      DriveDetails(db, s, [m, GetOrg(orgId)], freshId)
        == DetailWorld(db1, OrganizationDetails.Receive(s, DetailResponseOf(Routes.GetOrg(db1, orgId))))
  {
    var db1 := After(db, Serve(db, m, freshId));
    var h2 := Serve(db1, GetOrg(orgId), freshId);
    var s' := OrganizationDetails.Receive(s, DetailResponseOf(h2));
    assert [m, GetOrg(orgId)][1..] == [GetOrg(orgId)];
    assert [GetOrg(orgId)][1..] == [];
    assert After(db1, h2) == db1;
    assert DriveDetails(db1, s, [GetOrg(orgId)], freshId) == DriveDetails(db1, s', [], freshId);
  }

  /** A mutation followed by the list refetch: the page receives the list
      as it stands after the mutation. */
  lemma DriveMutationThenList(db: Db, p: OrganizationsPage.Page, m: Request, freshId: Id)
    requires !m.ListOrgs?
    ensures var db1 := After(db, Serve(db, m, freshId));
      DriveList(db, p, [m, ListOrgs], freshId)
        == ListWorld(db1, OrganizationsPage.ReceiveList(p, ListResponseOf(Routes.GetOrgs(db1))))
  {
    var db1 := After(db, Serve(db, m, freshId));
    var h2 := Serve(db1, ListOrgs, freshId);
    var p' := OrganizationsPage.ReceiveList(p, ListResponseOf(h2));
    assert [m, ListOrgs][1..] == [ListOrgs];
    assert [ListOrgs][1..] == [];
    assert After(db1, h2) == db1;
    assert DriveList(db1, p, [ListOrgs], freshId) == DriveList(db1, p', [], freshId);
  }

  /** The refetched list shows one row per organisation, in table order,
      with its key, name, pending count and status. */
  lemma RefetchedRows(db: Db, p: OrganizationsPage.Page)
    ensures var rows := OrganizationsPage.ReceiveList(p, ListResponseOf(Routes.GetOrgs(db))).organizations;
      && |rows| == |db.orgs|
      && forall i :: 0 <= i < |db.orgs| ==>
           && rows[i].org_id == db.orgs[i].org_id
           && rows[i].org_name == db.orgs[i].org_name
           && rows[i].logo == OrganizationsPage.Logo
           && rows[i].pendingRequests == db.orgs[i].pending_requests
           && rows[i].status == (if db.orgs[i].status == "" then "Active" else db.orgs[i].status)
  {
    var resp := ListResponseOf(Routes.GetOrgs(db));
    assert resp.Listed? && |resp.data| == |db.orgs|;
    forall i | 0 <= i < |db.orgs|
      ensures resp.data[i] == OrganizationsPage.BackendOrg(db.orgs[i].org_id, db.orgs[i].org_name,
                                                             Some(db.orgs[i].status), Some(db.orgs[i].pending_requests))
    {
      assert Routes.GetOrgs(db).body.docs[i].org == db.orgs[i];
    }
  }
}
