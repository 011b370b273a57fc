/** End-to-end runs of the two pages against the backend: what the
    operator does, the requests the page sends, and what the page shows
    after its refetch. */
module Scenarios {
  import opened Wrappers
  import opened Models
  import opened Schemas
  import opened Api
  import Crud
  import Routes
  import OrganizationsPage
  import opened OrganizationDetails
  import opened Sync

  /** Adding a user with a name and role that fit their columns to an
      organisation without users sends one create request scoped to it
      and one refetch, after which the page shows exactly that user and
      the dialog is closed. */
  lemma AddUserScenario(db: Db, s: Details, name: string, role: string, freshId: Id)
    requires Valid(db)
    requires s.id.Some? && s.id.value != "" && s.id.value in OrgIds(db.orgs)
    requires forall i :: 0 <= i < |db.users| ==> db.users[i].org_id != s.id.value
    requires freshId !in UserIds(db.users) && |freshId| <= IdWidth
    requires |name| <= NameWidth && |role| <= RoleWidth
    ensures var orgId := s.id.value;
      var s1 := SetNewUserRole(SetNewUserName(SetAddUserOpen(s, true), name), role);
      var step := HandleAddUser(s1, Responded);
      && step.sent == [CreateUser(orgId, UserFields(Set(Some(name)), Set(Some(role)))), GetOrg(orgId)]
      && var w := DriveDetails(db, step.state, step.sent, freshId);
      && !w.page.isAddUserOpen
      && w.page.organization.Some? && w.page.organization.value.OrgBody?
      && w.page.organization.value.doc.users == [User(freshId, name, Some(role), orgId)]
  {
    var orgId := s.id.value;
    var s1 := SetNewUserRole(SetNewUserName(SetAddUserOpen(s, true), name), role);
    var step := HandleAddUser(s1, Responded);
    var body := UserFields(Set(Some(name)), Set(Some(role)));
    var m := CreateUser(orgId, body);
    assert step.sent == [m, GetOrg(orgId)];
    DriveMutationThenDetail(db, step.state, m, orgId, freshId);
    assert |orgId| <= IdWidth by {
      var i :| 0 <= i < |db.orgs| && db.orgs[i].org_id == orgId;
      assert OrgFits(db.orgs[i]);
    }
    var u := User(freshId, name, Some(role), orgId);
    var db1 := db.(users := db.users + [u]);
    assert Crud.CreateUser(db, UserCreate(name, Set(Some(role))), orgId, freshId) == Crud.Done(db1, u);
    assert Serve(db, m, freshId) == Routes.Ok(db1, Routes.UserReply(u));
    UsersOfAppend(db.users, u, orgId);
    UsersOfNone(db.users, orgId);
    var o := Crud.GetOrganization(db1, orgId).value;
    assert Routes.GetOrg(db1, orgId) == Routes.Ok(db1, Routes.OrgReply(ResponseOf(db1, o)));
  }

  /** Deleting a user from the detail page: once the refetch arrives, no
      user under that key is listed, every other user of the organisation
      still is, and the database stays valid. */
  lemma DeleteUserScenario(db: Db, s: Details, userId: Id, freshId: Id)
    requires Valid(db)
    requires s.id.Some? && s.id.value != "" && s.id.value in OrgIds(db.orgs)
    ensures var step := HandleDeleteUser(s, userId, Responded);
      var w := DriveDetails(db, step.state, step.sent, freshId);
      && Valid(w.db)
      && w.page.organization.Some? && w.page.organization.value.OrgBody?
      && (forall u :: u in w.page.organization.value.doc.users ==> u.user_id != userId)
      && (forall u :: u in db.users && u.org_id == s.id.value && u.user_id != userId ==>
                        u in w.page.organization.value.doc.users)
  {
    var orgId := s.id.value;
    var m := DeleteUser(orgId, userId);
    DriveMutationThenDetail(db, s, m, orgId, freshId);
    ServeKeepsValid(db, m, freshId);
    Routes.DeleteUserFromOrgRemovesKey(db, orgId, userId);
    var db1 := After(db, Serve(db, m, freshId));
    assert orgId in OrgIds(db1.orgs);
    if !Serve(db, m, freshId).Ok? {
      var h := Routes.GetOrg(db, orgId);
      forall u | u in h.body.doc.users ensures u.user_id != userId {
        assert u in db.users && u.org_id == orgId;
      }
    }
  }

  /** Editing a user from the detail page: once the refetch arrives, the
      user is listed under the same key with the dialog's name and role,
      no other entry has that key, and the dialog is closed. */
  lemma UpdateUserScenario(db: Db, s: Details, freshId: Id)
    requires Valid(db)
    requires s.id.Some? && s.id.value != "" && s.editingUser.Some?
    requires Routes.BelongsTo(db, s.id.value, s.editingUser.value.user_id)
    requires |s.newUserName| <= NameWidth && FitsText(s.newUserRole, RoleWidth)
    ensures var step := HandleUpdateUser(s, Responded);
      var w := DriveDetails(db, step.state, step.sent, freshId);
      var edited := User(s.editingUser.value.user_id, s.newUserName, s.newUserRole, s.id.value);
      && Valid(w.db)
      && !w.page.isEditUserOpen && w.page.editingUser.None?
      && w.page.organization.Some? && w.page.organization.value.OrgBody?
      && edited in w.page.organization.value.doc.users
      && (forall u :: u in w.page.organization.value.doc.users && u.user_id == edited.user_id ==> u == edited)
  {
    var orgId := s.id.value;
    var userId := s.editingUser.value.user_id;
    var step := HandleUpdateUser(s, Responded);
    var m := UpdateUser(orgId, userId, UserBody(s));
    assert step.sent == [m, GetOrg(orgId)];
    DriveMutationThenDetail(db, step.state, m, orgId, freshId);
    UpdateUserWrite(db, orgId, userId, s.newUserName, s.newUserRole, freshId);
    var db1 := After(db, Serve(db, m, freshId));
    RefetchShowsUser(db1, User(userId, s.newUserName, s.newUserRole, orgId));
  }

  /** The database after the edit request of `UpdateUserScenario`: valid,
      and holding the rewritten user. */
  lemma UpdateUserWrite(db: Db, orgId: Id, userId: Id, name: string, role: Option<string>, freshId: Id)
    requires Valid(db) && orgId != ""
    requires Routes.BelongsTo(db, orgId, userId)
    requires |name| <= NameWidth && FitsText(role, RoleWidth)
    ensures var db1 := After(db, Serve(db, UpdateUser(orgId, userId, UserFields(Set(Some(name)), Set(role))), freshId));
      && Valid(db1)
      && User(userId, name, role, orgId) in db1.users
  {
    var body := UserFields(Set(Some(name)), Set(role));
    ServeEdit(db, orgId, userId, body, freshId);
    Routes.UpdateUserInOrgWrites(db, orgId, userId, name, role);
    Crud.UpdateUserKeepsValid(db, userId, UserCreate(name, Set(role)));
  }

  /** A user edit request is served by the user edit endpoint. */
  lemma ServeEdit(db: Db, orgId: Id, userId: Id, body: UserFields, freshId: Id)
    ensures Serve(db, UpdateUser(orgId, userId, body), freshId) == Routes.UpdateUserInOrg(db, orgId, userId, body)
  {
  }

  /** On a valid database, the refetch of a user's organisation shows
      that user, and only that entry under its key. */
  lemma RefetchShowsUser(db: Db, edited: User)
    requires Valid(db) && edited in db.users
    ensures edited.org_id in OrgIds(db.orgs)
    ensures var h := Routes.GetOrg(db, edited.org_id);
      && h.Ok? && h.body.OrgReply?
      && edited in h.body.doc.users
      && (forall u :: u in h.body.doc.users && u.user_id == edited.user_id ==> u == edited)
  {
    var h := Routes.GetOrg(db, edited.org_id);
    forall u | u in h.body.doc.users && u.user_id == edited.user_id ensures u == edited {
      UserKeyUnique(db, u, edited);
    }
  }

  /** Changing the status to any whitelisted value sends one status
      request and one refetch; until the refetch the cache keeps its
      status (no optimistic update), and afterwards it shows the new one.
      The dialog is closed. */
  lemma ChangeStatusScenario(db: Db, s: Details, status: string, freshId: Id)
    requires Valid(db)
    requires status in Routes.Statuses
    requires s.id.Some? && s.id.value != "" && s.id.value in OrgIds(db.orgs) && s.organization.Some?
    ensures var orgId := s.id.value;
      var s1 := SetSelectedStatus(OpenChangeStatus(s), status);
      var step := CommitChangeStatus(s1, Responded);
      && step.sent == [UpdateStatus(orgId, status), GetOrg(orgId)]
      && step.state.organization == s.organization
      && var w := DriveDetails(db, step.state, step.sent, freshId);
      && !w.page.isStatusChangeOpen
      && w.page.organization.Some? && w.page.organization.value.OrgBody?
      && w.page.organization.value.doc.org.status == status
  {
    var orgId := s.id.value;
    var s1 := SetSelectedStatus(OpenChangeStatus(s), status);
    var step := CommitChangeStatus(s1, Responded);
    var m := UpdateStatus(orgId, status);
    assert step.sent == [m, GetOrg(orgId)];
    DriveMutationThenDetail(db, step.state, m, orgId, freshId);
    Routes.UpdateOrgStatusChangesOnlyStatus(db, orgId, status);
    ServeKeepsValid(db, m, freshId);
    var k := OrgIndex(db.orgs, orgId).value;
    var db1 := After(db, Serve(db, m, freshId));
    assert db1.orgs[k].org_id == orgId && db1.orgs[k].status == status;
    OrgIndexUnique(db1, orgId, k);
    assert Crud.GetOrganization(db1, orgId) == Some(db1.orgs[k]);
  }

  /** The save of an unchanged draft is a no-op write: the update endpoint
      replies with the row as it is and the database stays as it was. */
  lemma UnchangedWrite(db: Db, k: nat)
    requires Valid(db)
    requires k < |db.orgs|
    ensures Routes.UpdateOrg(db, db.orgs[k].org_id, FieldsOf(db.orgs[k]))
              == Routes.Ok(db, Routes.OrgReply(ResponseOf(db, db.orgs[k])))
  {
    var o := db.orgs[k];
    OrgIndexUnique(db, o.org_id, k);
    Crud.MergeFullDocument(o, o);
    assert o.(org_id := o.org_id) == o;
    assert o in db.orgs;
    forall i | 0 <= i < |db.orgs| && i != k ensures OrgsDistinct(db.orgs[i], o) {
      if i < k {
        assert OrgsDistinct(db.orgs[i], db.orgs[k]);
      } else {
        assert OrgsDistinct(db.orgs[k], db.orgs[i]);
      }
    }
    assert db.orgs[k := o] == db.orgs;
    assert db.(orgs := db.orgs) == db;
  }

  /** Entering edit mode and saving without an edit writes every field of
      the cached document back unchanged: the database is left exactly as
      it was, and the page leaves edit mode showing the refetched document. */
  lemma SaveUnchangedDraft(db: Db, s: Details, freshId: Id)
    requires Valid(db)
    requires !Missing(s.id)
    requires s.organization.Some? && s.organization.value.OrgBody?
    requires s.organization.value.doc.org in db.orgs
    requires s.organization.value.doc.org.org_id == s.id.value
    ensures var step := HandleSaveDetails(HandleEditDetails(s), Responded);
      var w := DriveDetails(db, step.state, step.sent, freshId);
      && w.db == db
      && !w.page.isEditingDetails && w.page.editedOrg.None?
      && w.page.organization == Some(OrgBody(ResponseOf(db, s.organization.value.doc.org)))
  {
    var o := s.organization.value.doc.org;
    var id := s.id.value;
    var k :| 0 <= k < |db.orgs| && db.orgs[k] == o;
    OrgIndexUnique(db, id, k);
    var step := HandleSaveDetails(HandleEditDetails(s), Responded);
    var m := UpdateOrg(id, FieldsOf(o));
    assert step.sent == [m, GetOrg(id)];
    DriveMutationThenDetail(db, step.state, m, id, freshId);
    UnchangedWrite(db, k);
    assert After(db, Serve(db, m, freshId)) == db;
    assert Crud.GetOrganization(db, id) == Some(o);
  }

  /** A successful save writes the draft, and only the draft, onto the
      addressed row, under the addressed key. */
  lemma SaveWritesDraft(db: Db, s: Details, freshId: Id)
    requires !Missing(s.id) && s.editedOrg.Some? && s.editedOrg.value.OrgBody?
    ensures var step := HandleSaveDetails(s, Responded);
      var h := Serve(db, step.sent[0], freshId);
      h.Ok? ==> && OrgIndex(db.orgs, s.id.value).Some?
                && var k := OrgIndex(db.orgs, s.id.value).value;
                && h.db.orgs == db.orgs[k := s.editedOrg.value.doc.org.(org_id := s.id.value)]
                && h.db.users == db.users
  {
    var step := HandleSaveDetails(s, Responded);
    var h := Serve(db, step.sent[0], freshId);
    if h.Ok? {
      var k := OrgIndex(db.orgs, s.id.value).value;
      Crud.MergeFullDocument(db.orgs[k], s.editedOrg.value.doc.org);
    }
  }

  /** Deleting an organisation from the list: the refetched list no
      longer has it, and a detail page still holding it (even with an
      unsaved draft) gets a 404 when it saves, which changes nothing. */
  lemma DeleteFromListScenario(db: Db, p: OrganizationsPage.Page, orgId: Id, draft: OrgFields, freshId: Id)
    requires Valid(db)
    requires orgId in OrgIds(db.orgs)
    ensures var step := OrganizationsPage.DeleteOrganization(p, orgId, Responded);
      var w := DriveList(db, step.state, step.sent, freshId);
      && |w.page.organizations| == |db.orgs| - 1
      && (forall i :: 0 <= i < |w.page.organizations| ==> w.page.organizations[i].org_id != orgId)
      && Serve(w.db, UpdateOrg(orgId, draft), freshId) == Routes.Fail(Routes.NotFound)
      && Valid(w.db)
  {
    var step := OrganizationsPage.DeleteOrganization(p, orgId, Responded);
    var m := DeleteOrg(orgId);
    var db1 := After(db, Serve(db, m, freshId));
    DriveMutationThenList(db, step.state, m, freshId);
    DeletedOrgGone(db, orgId, freshId);
    RowsWithout(db1, step.state, orgId);
  }

  /** A list refetched from a table without the key shows no row with it. */
  lemma RowsWithout(db: Db, p: OrganizationsPage.Page, orgId: Id)
    requires forall i :: 0 <= i < |db.orgs| ==> db.orgs[i].org_id != orgId
    ensures var rows := OrganizationsPage.ReceiveList(p, ListResponseOf(Routes.GetOrgs(db))).organizations;
      && |rows| == |db.orgs|
      && forall i :: 0 <= i < |rows| ==> rows[i].org_id != orgId
  {
    RefetchedRows(db, p);
  }

  /** After the delete endpoint, the key is gone from the table and the
      database is still valid. */
  lemma DeletedOrgGone(db: Db, orgId: Id, freshId: Id)
    requires Valid(db) && orgId in OrgIds(db.orgs)
    ensures var db1 := After(db, Serve(db, DeleteOrg(orgId), freshId));
      && Valid(db1)
      && |db1.orgs| == |db.orgs| - 1
      && orgId !in OrgIds(db1.orgs)
      && forall i :: 0 <= i < |db1.orgs| ==> db1.orgs[i].org_id != orgId
  {
    Crud.DeleteOrganizationRemovesAll(db, orgId);
    ServeKeepsValid(db, DeleteOrg(orgId), freshId);
    var db1 := After(db, Serve(db, DeleteOrg(orgId), freshId));
    assert db1 == Crud.DeleteOrganization(db, orgId).db;
    assert orgId !in OrgIds(db1.orgs);
    forall i | 0 <= i < |db1.orgs| ensures db1.orgs[i].org_id != orgId {
      assert db1.orgs[i] in db1.orgs;
    }
  }

  /** The row the list page's creation body inserts: the buffers, the
      generated key and the creation defaults. */
  lemma AddOrgRow(p: OrganizationsPage.Page, freshId: Id)
    requires |freshId| <= IdWidth
    requires |p.newOrgName| <= NameWidth && |p.newOrgSlug| <= SlugWidth
    requires |p.newOrgMail| <= MailWidth && |p.newOrgContact| <= ContactWidth
    ensures var c := ParseOrgCreate(OrganizationsPage.AddOrgBody(p));
      && c.Some?
      && var row := Crud.NewOrgRow(c.value, freshId);
      && OrgFits(row)
      && row.org_id == freshId && row.org_name == p.newOrgName && row.org_slug == Some(p.newOrgSlug)
      && row.org_mail == Some(p.newOrgMail) && row.org_contact == Some(p.newOrgContact)
      && row.status == "Active" && row.pending_requests == 0
  {
    var c := ParseOrgCreate(OrganizationsPage.AddOrgBody(p)).value;
    assert c.status == Some(DefaultStatus) && c.pending_requests == Some(DefaultPendingRequests);
    assert c.timezone_common == Some(DefaultTimezoneCommon) && |DefaultTimezoneCommon| == 19;
    assert c.timezone_region == Some(DefaultTimezoneRegion) && |DefaultTimezoneRegion| == 12;
    assert c.language == Some(DefaultLanguage) && |DefaultLanguage| == 7;
  }

  /** Adding an organisation with a new name and slug: the refetched list
      ends with it, shown with the creation defaults (Active, no pending
      requests), and the dialog is closed. */
  lemma AddOrganizationScenario(db: Db, p: OrganizationsPage.Page, freshId: Id)
    requires Valid(db)
    requires freshId !in OrgIds(db.orgs) && |freshId| <= IdWidth
    requires forall i :: 0 <= i < |db.orgs| ==>
               db.orgs[i].org_name != p.newOrgName && db.orgs[i].org_slug != Some(p.newOrgSlug)
    requires |p.newOrgName| <= NameWidth && |p.newOrgSlug| <= SlugWidth
    requires |p.newOrgMail| <= MailWidth && |p.newOrgContact| <= ContactWidth
    ensures var step := OrganizationsPage.AddOrganization(p, Responded);
      var w := DriveList(db, step.state, step.sent, freshId);
      && !w.page.isAddDialogOpen
      && |w.page.organizations| == |db.orgs| + 1
      && w.page.organizations[|db.orgs|] == OrganizationsPage.OrgRow(freshId, p.newOrgName, OrganizationsPage.Logo, 0, "Active")
      && OrganizationsPage.OrgRow(freshId, p.newOrgName, OrganizationsPage.Logo, 0, "Active") in w.page.organizations
      && Valid(w.db)
  {
    var step := OrganizationsPage.AddOrganization(p, Responded);
    var m := CreateOrg(OrganizationsPage.AddOrgBody(p));
    DriveMutationThenList(db, step.state, m, freshId);
    AddOrgRow(p, freshId);
    var c := ParseOrgCreate(OrganizationsPage.AddOrgBody(p)).value;
    var row := Crud.NewOrgRow(c, freshId);
    assert Crud.FreshOrg(db.orgs, row) by {
      forall i | 0 <= i < |db.orgs| ensures OrgsDistinct(db.orgs[i], row) {
        assert db.orgs[i] in db.orgs;
      }
    }
    ServeKeepsValid(db, m, freshId);
    var db1 := After(db, Serve(db, m, freshId));
    assert db1.orgs == db.orgs + [row];
    RefetchedRows(db1, step.state);
  }

  /** Opening the page on a key no organisation has: the 404 document is
      cached as the organization, so the page leaves its loading state
      with an error document rather than with no organization. */
  lemma UnknownOrganizationScenario(db: Db, id: Id, freshId: Id)
    requires id != "" && id !in OrgIds(db.orgs)
    ensures var s := Initial(Some(id));
      var w := DriveDetails(db, s, Mount(s).sent, freshId);
      && w.db == db && !w.page.loading
      && w.page.organization == Some(ErrorBody(NotFoundDetail, NoFields))
  {
    var s := Initial(Some(id));
    assert Mount(s).sent == [GetOrg(id)];
    assert Routes.GetOrg(db, id) == Routes.Fail(Routes.NotFound);
    assert [GetOrg(id)][1..] == [];
  }
}
