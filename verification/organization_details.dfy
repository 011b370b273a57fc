/** The organization detail page: the cached organization, the profile
    editor with its draft copy, and the add-user, edit-user and
    change-status dialogs with their shared input buffers. Every handler
    is a pure transition from a state (and, for a mutation, whether
    `fetch` threw) to the new state and the requests it sent. */
module OrganizationDetails {
  import opened Wrappers
  import opened Models
  import opened Schemas
  import opened Api

  /** What `response.json()` of the detail fetch yields: an organization
      document, or the error document of a 404 (`{"detail": ...}`). The
      page stores either one as "the organization"; field edits on an
      error document add keys to it, kept here as `extra`. */
  datatype Body = OrgBody(doc: OrgResponse) | ErrorBody(detail: string, extra: OrgFields)

  datatype DetailResponse = Loaded(body: Body) | DetailThrew

  datatype Details = Details(
    id: Option<string>,
    organization: Option<Body>,
    loading: bool,
    isAddUserOpen: bool,
    isEditUserOpen: bool,
    isStatusChangeOpen: bool,
    isEditingDetails: bool,
    editingUser: Option<User>,
    newUserName: string,
    newUserRole: Option<string>,
    selectedStatus: Option<string>,
    editedOrg: Option<Body>)

  /** A route parameter that is absent or empty: JavaScript's `!id`. */
  predicate Missing(id: Option<string>)
  {
    id.None? || id.value == ""
  }

  /** The page as first rendered for route parameter `id`. */
  function Initial(id: Option<string>): (s: Details)
    ensures s.id == id && s.organization.None? && s.loading
    ensures !s.isAddUserOpen && !s.isEditUserOpen && !s.isStatusChangeOpen && !s.isEditingDetails
    ensures s.editingUser.None? && s.editedOrg.None?
  {
    Details(id, None, true, false, false, false, false, None, "", Some(""), Some(""), None)
  }

  /** The mount effect: fetch the organization when there is an id. */
  function Mount(s: Details): (r: Step<Details>)
    ensures r.state == s
    ensures Missing(s.id) ==> r.sent == []
    ensures !Missing(s.id) ==> r.sent == [GetOrg(s.id.value)]
  {
    if Missing(s.id) then Step(s, []) else Step(s, [GetOrg(s.id.value)])
  }

  /** `fetchOrganizationDetails` completing: a decoded document replaces
      the cache wholesale; a throw keeps the cache. Loading ends either way. */
  function Receive(s: Details, resp: DetailResponse): (r: Details)
    ensures !r.loading
    ensures resp.Loaded? ==> r.organization == Some(resp.body)
    ensures resp.DetailThrew? ==> r.organization == s.organization
    ensures r.(organization := s.organization, loading := s.loading) == s
  {
    match resp
    case Loaded(b) => s.(organization := Some(b), loading := false)
    case DetailThrew => s.(loading := false)
  }

  /** Receiving the same document twice is receiving it once. */
  lemma ReceiveIdempotent(s: Details, resp: DetailResponse)
    ensures Receive(Receive(s, resp), resp) == Receive(s, resp)
  {
  }

  // ---------------------------------------------------------------------
  // Dialog flags and input buffers

  /** The page's server-derived data and the profile draft agree: a dialog
      flag or an input buffer never touches them. */
  predicate SameData(a: Details, b: Details)
  {
    a.id == b.id && a.organization == b.organization && a.loading == b.loading
    && a.isEditingDetails == b.isEditingDetails && a.editedOrg == b.editedOrg
  }

  /** The Add user button, the dialog's Cancel button and its own close. */
  function SetAddUserOpen(s: Details, open: bool): (r: Details)
    ensures r.isAddUserOpen == open && SameData(s, r)
    ensures r.newUserName == s.newUserName && r.newUserRole == s.newUserRole
    ensures r.(isAddUserOpen := s.isAddUserOpen) == s
  {
    s.(isAddUserOpen := open)
  }

  /** The edit-user dialog's Cancel button and its own close. The target
      user is not cleared. */
  function SetEditUserOpen(s: Details, open: bool): (r: Details)
    ensures r.isEditUserOpen == open && r.editingUser == s.editingUser && SameData(s, r)
    ensures r.(isEditUserOpen := s.isEditUserOpen) == s
  {
    s.(isEditUserOpen := open)
  }

  /** The change-status dialog's Cancel button and its own close. */
  function SetStatusChangeOpen(s: Details, open: bool): (r: Details)
    ensures r.isStatusChangeOpen == open && r.selectedStatus == s.selectedStatus && SameData(s, r)
    ensures r.(isStatusChangeOpen := s.isStatusChangeOpen) == s
  {
    s.(isStatusChangeOpen := open)
  }

  /** Typing the user name (shared by the add and edit dialogs). */
  function SetNewUserName(s: Details, name: string): (r: Details)
    ensures r.newUserName == name && r.newUserRole == s.newUserRole && SameData(s, r)
    ensures r.(newUserName := s.newUserName) == s
  {
    s.(newUserName := name)
  }

  /** Choosing a role (shared by the add and edit dialogs). */
  function SetNewUserRole(s: Details, role: string): (r: Details)
    ensures r.newUserRole == Some(role) && r.newUserName == s.newUserName && SameData(s, r)
    ensures r.(newUserRole := s.newUserRole) == s
  {
    s.(newUserRole := Some(role))
  }

  /** Choosing a status in the change-status dialog. */
  function SetSelectedStatus(s: Details, status: string): (r: Details)
    ensures r.selectedStatus == Some(status) && r.isStatusChangeOpen == s.isStatusChangeOpen && SameData(s, r)
    ensures r.(selectedStatus := s.selectedStatus) == s
  {
    s.(selectedStatus := Some(status))
  }

  /** The user document the add and edit dialogs send. */
  function UserBody(s: Details): (b: UserFields)
    ensures b.user_name == Set(Some(s.newUserName)) && b.user_role == Set(s.newUserRole)
  {
    UserFields(Set(Some(s.newUserName)), Set(s.newUserRole))
  }

  // ---------------------------------------------------------------------
  // User handlers

  /** `handleAddUser`: posts the buffers under the page's organization;
      when `fetch` returns, refetches and closes the dialog. The buffers
      are not cleared. */
  function HandleAddUser(s: Details, outcome: Outcome): (r: Step<Details>)
    ensures Missing(s.id) ==> r == Step(s, [])
    ensures !Missing(s.id) && outcome == Responded ==>
              r.sent == [CreateUser(s.id.value, UserBody(s)), GetOrg(s.id.value)]
              && r.state == s.(isAddUserOpen := false)
    ensures !Missing(s.id) && outcome == Threw ==> r == Step(s, [CreateUser(s.id.value, UserBody(s))])
  {
    if Missing(s.id) then Step(s, [])
    else
      var post := CreateUser(s.id.value, UserBody(s));
      match outcome
      case Responded => Step(s.(isAddUserOpen := false), [post, GetOrg(s.id.value)])
      case Threw => Step(s, [post])
  }

  /** `handleDeleteUser`: one DELETE, then a refetch unless `fetch` threw. */
  function HandleDeleteUser(s: Details, userId: string, outcome: Outcome): (r: Step<Details>)
    ensures r.state == s
    ensures Missing(s.id) ==> r.sent == []
    ensures !Missing(s.id) && outcome == Responded ==>
              r.sent == [DeleteUser(s.id.value, userId), GetOrg(s.id.value)]
    ensures !Missing(s.id) && outcome == Threw ==> r.sent == [DeleteUser(s.id.value, userId)]
  {
    if Missing(s.id) then Step(s, [])
    else
      match outcome
      case Responded => Step(s, [DeleteUser(s.id.value, userId), GetOrg(s.id.value)])
      case Threw => Step(s, [DeleteUser(s.id.value, userId)])
  }

  /** `handleEditUser`: targets the user, fills the buffers from it and
      opens the dialog. */
  function HandleEditUser(s: Details, user: User): (r: Details)
    ensures r.editingUser == Some(user) && r.isEditUserOpen
    ensures r.newUserName == user.user_name && r.newUserRole == user.user_role
    ensures r.organization == s.organization && r.editedOrg == s.editedOrg
    ensures r.isAddUserOpen == s.isAddUserOpen && r.isStatusChangeOpen == s.isStatusChangeOpen
    ensures r.(editingUser := s.editingUser, newUserName := s.newUserName,
               newUserRole := s.newUserRole, isEditUserOpen := s.isEditUserOpen) == s
  {
    s.(editingUser := Some(user), newUserName := user.user_name,
       newUserRole := user.user_role, isEditUserOpen := true)
  }

  /** `handleUpdateUser`: puts the buffers to the targeted user; when
      `fetch` returns, refetches, closes the dialog and drops the target. */
  function HandleUpdateUser(s: Details, outcome: Outcome): (r: Step<Details>)
    ensures Missing(s.id) || s.editingUser.None? ==> r == Step(s, [])
    ensures !Missing(s.id) && s.editingUser.Some? && outcome == Responded ==>
              && r.sent == [UpdateUser(s.id.value, s.editingUser.value.user_id, UserBody(s)), GetOrg(s.id.value)]
              && !r.state.isEditUserOpen && r.state.editingUser.None?
              && r.state == s.(isEditUserOpen := false, editingUser := None)
    ensures !Missing(s.id) && s.editingUser.Some? && outcome == Threw ==>
              r == Step(s, [UpdateUser(s.id.value, s.editingUser.value.user_id, UserBody(s))])
  {
    if Missing(s.id) || s.editingUser.None? then Step(s, [])
    else
      var put := UpdateUser(s.id.value, s.editingUser.value.user_id, UserBody(s));
      match outcome
      case Responded => Step(s.(isEditUserOpen := false, editingUser := None), [put, GetOrg(s.id.value)])
      case Threw => Step(s, [put])
  }

  // ---------------------------------------------------------------------
  // Status handlers

  /** The status of the cached document; an error document has none. */
  function StatusOf(b: Body): (r: Option<string>)
    ensures b.OrgBody? ==> r == Some(b.doc.org.status)
    ensures b.ErrorBody? ==> r.None?
  {
    match b
    case OrgBody(doc) => Some(doc.org.status)
    case ErrorBody(_, _) => None
  }

  /** The text a value takes in the status query string: an absent value
      prints as "undefined". */
  function QueryText(v: Option<string>): (t: string)
    ensures v.Some? ==> t == v.value
    ensures v.None? ==> t == "undefined"
  {
    v.GetOr("undefined")
  }

  /** The Change status button: pre-fills the selection with the cached
      status and opens the dialog. The button is only on the page once an
      organization is cached, so without one nothing happens. */
  function OpenChangeStatus(s: Details): (r: Details)
    ensures s.organization.None? ==> r == s
    ensures s.organization.Some? ==>
              r.isStatusChangeOpen && r.selectedStatus == StatusOf(s.organization.value)
              && r == s.(isStatusChangeOpen := true, selectedStatus := StatusOf(s.organization.value))
  {
    match s.organization
    case None => s
    case Some(b) => s.(selectedStatus := StatusOf(b), isStatusChangeOpen := true)
  }

  /** `handleChangeStatus`: one status PUT, then a refetch unless `fetch`
      threw. */
  function HandleChangeStatus(s: Details, status: string, outcome: Outcome): (r: Step<Details>)
    ensures r.state == s
    ensures Missing(s.id) ==> r.sent == []
    ensures !Missing(s.id) && outcome == Responded ==>
              r.sent == [UpdateStatus(s.id.value, status), GetOrg(s.id.value)]
    ensures !Missing(s.id) && outcome == Threw ==> r.sent == [UpdateStatus(s.id.value, status)]
  {
    if Missing(s.id) then Step(s, [])
    else
      match outcome
      case Responded => Step(s, [UpdateStatus(s.id.value, status), GetOrg(s.id.value)])
      case Threw => Step(s, [UpdateStatus(s.id.value, status)])
  }

  /** The dialog's Change Status button: sends the selection and closes
      the dialog whether or not the request went through. */
  function CommitChangeStatus(s: Details, outcome: Outcome): (r: Step<Details>)
    ensures !r.state.isStatusChangeOpen
    ensures r.state == s.(isStatusChangeOpen := false)
    ensures r.sent == HandleChangeStatus(s, QueryText(s.selectedStatus), outcome).sent
    ensures !Missing(s.id) ==> r.sent[0] == UpdateStatus(s.id.value, QueryText(s.selectedStatus))
  {
    var st := HandleChangeStatus(s, QueryText(s.selectedStatus), outcome);
    Step(st.state.(isStatusChangeOpen := false), st.sent)
  }

  // ---------------------------------------------------------------------
  // The profile editor

  /** `handleEditDetails`: enters edit mode with the draft a copy of the
      cached organization. */
  function HandleEditDetails(s: Details): (r: Details)
    ensures r.isEditingDetails && r.editedOrg == s.organization
    ensures r.organization == s.organization
    ensures r.(isEditingDetails := s.isEditingDetails, editedOrg := s.editedOrg) == s
  {
    s.(isEditingDetails := true, editedOrg := s.organization)
  }

  /** `handleCancelEdit`: leaves edit mode and drops the draft. */
  function HandleCancelEdit(s: Details): (r: Details)
    ensures !r.isEditingDetails && r.editedOrg.None?
    ensures r.organization == s.organization
    ensures r.(isEditingDetails := s.isEditingDetails, editedOrg := s.editedOrg) == s
  {
    s.(isEditingDetails := false, editedOrg := None)
  }

  /** The document a draft sends as the PUT body: every field of an
      organization document, or the keys added to an error document. */
  function BodyFields(b: Body): (f: OrgFields)
    ensures b.OrgBody? ==> f == FieldsOf(b.doc.org)
    ensures b.ErrorBody? ==> f == b.extra
  {
    match b
    case OrgBody(doc) => FieldsOf(doc.org)
    case ErrorBody(_, extra) => extra
  }

  /** `handleSaveDetails`: puts the whole draft; when `fetch` returns,
      refetches and leaves edit mode without a draft; when it throws, the
      page stays in edit mode with the draft as it was. */
  function HandleSaveDetails(s: Details, outcome: Outcome): (r: Step<Details>)
    ensures Missing(s.id) || s.editedOrg.None? ==> r == Step(s, [])
    ensures !Missing(s.id) && s.editedOrg.Some? && outcome == Responded ==>
              && r.sent == [UpdateOrg(s.id.value, BodyFields(s.editedOrg.value)), GetOrg(s.id.value)]
              && !r.state.isEditingDetails && r.state.editedOrg.None?
              && r.state.organization == s.organization
              && r.state.(isEditingDetails := s.isEditingDetails, editedOrg := s.editedOrg) == s
    ensures !Missing(s.id) && s.editedOrg.Some? && outcome == Threw ==>
              r == Step(s, [UpdateOrg(s.id.value, BodyFields(s.editedOrg.value))])
  {
    if Missing(s.id) || s.editedOrg.None? then Step(s, [])
    else
      var put := UpdateOrg(s.id.value, BodyFields(s.editedOrg.value));
      match outcome
      case Responded => Step(s.(isEditingDetails := false, editedOrg := None), [put, GetOrg(s.id.value)])
      case Threw => Step(s, [put])
  }

  /** The text inputs and pickers of the profile form. */
  datatype TextField =
    | OrgName | OrgSlug | PrimaryAdminName | PrimaryAdminMail | SupportEmail
    | Phone | AltPhone | TimezoneCommon | TimezoneRegion | Language | WebsiteUrl

  /** One `handleOrgFieldChange` call: a text field, or the coordinator
      limit picker (whose value is parsed to a number). */
  datatype FieldEdit = SetText(field: TextField, value: string) | SetMaxCoordinators(count: int)

  /** Reads a text field of an organization. */
  function TextOf(o: Organisation, f: TextField): Option<string>
  {
    match f
    case OrgName => Some(o.org_name)
    case OrgSlug => o.org_slug
    case PrimaryAdminName => o.primary_admin_name
    case PrimaryAdminMail => o.primary_admin_mail
    case SupportEmail => o.support_email
    case Phone => o.phone
    case AltPhone => o.alt_phone
    case TimezoneCommon => o.timezone_common
    case TimezoneRegion => o.timezone_region
    case Language => o.language
    case WebsiteUrl => o.website_url
  }

  /** Reads the body key of a text field. */
  function GivenText(f: OrgFields, g: TextField): Field<Option<string>>
  {
    match g
    case OrgName => f.org_name
    case OrgSlug => f.org_slug
    case PrimaryAdminName => f.primary_admin_name
    case PrimaryAdminMail => f.primary_admin_mail
    case SupportEmail => f.support_email
    case Phone => f.phone
    case AltPhone => f.alt_phone
    case TimezoneCommon => f.timezone_common
    case TimezoneRegion => f.timezone_region
    case Language => f.language
    case WebsiteUrl => f.website_url
  }

  /** The columns no profile input writes. */
  predicate SameUnedited(a: Organisation, b: Organisation)
  {
    && a.org_id == b.org_id && a.org_mail == b.org_mail && a.org_contact == b.org_contact
    && a.status == b.status && a.pending_requests == b.pending_requests
  }

  /** Writes one edit onto an organization. */
  function ApplyEdit(o: Organisation, e: FieldEdit): (r: Organisation)
    ensures SameUnedited(o, r)
    ensures e.SetText? ==> && TextOf(r, e.field) == Some(e.value)
                           && r.max_coordinators == o.max_coordinators
                           && forall g :: g != e.field ==> TextOf(r, g) == TextOf(o, g)
    ensures e.SetMaxCoordinators? ==> && r.max_coordinators == Some(e.count)
                                      && forall g :: TextOf(r, g) == TextOf(o, g)
  {
    match e
    case SetMaxCoordinators(n) => o.(max_coordinators := Some(n))
    case SetText(f, v) =>
      match f
      case OrgName => o.(org_name := v)
      case OrgSlug => o.(org_slug := Some(v))
      case PrimaryAdminName => o.(primary_admin_name := Some(v))
      case PrimaryAdminMail => o.(primary_admin_mail := Some(v))
      case SupportEmail => o.(support_email := Some(v))
      case Phone => o.(phone := Some(v))
      case AltPhone => o.(alt_phone := Some(v))
      case TimezoneCommon => o.(timezone_common := Some(v))
      case TimezoneRegion => o.(timezone_region := Some(v))
      case Language => o.(language := Some(v))
      case WebsiteUrl => o.(website_url := Some(v))
  }

  /** Writes one edit onto the keys added to an error document. */
  function ApplyEditFields(f: OrgFields, e: FieldEdit): (r: OrgFields)
    ensures && r.org_mail == f.org_mail && r.org_contact == f.org_contact
            && r.status == f.status && r.pending_requests == f.pending_requests
    ensures e.SetText? ==> && GivenText(r, e.field) == Set(Some(e.value))
                           && r.max_coordinators == f.max_coordinators
                           && forall g :: g != e.field ==> GivenText(r, g) == GivenText(f, g)
    ensures e.SetMaxCoordinators? ==> && r.max_coordinators == Set(Some(e.count))
                                      && forall g :: GivenText(r, g) == GivenText(f, g)
  {
    match e
    case SetMaxCoordinators(n) => f.(max_coordinators := Set(Some(n)))
    case SetText(g, v) =>
      match g
      case OrgName => f.(org_name := Set(Some(v)))
      case OrgSlug => f.(org_slug := Set(Some(v)))
      case PrimaryAdminName => f.(primary_admin_name := Set(Some(v)))
      case PrimaryAdminMail => f.(primary_admin_mail := Set(Some(v)))
      case SupportEmail => f.(support_email := Set(Some(v)))
      case Phone => f.(phone := Set(Some(v)))
      case AltPhone => f.(alt_phone := Set(Some(v)))
      case TimezoneCommon => f.(timezone_common := Set(Some(v)))
      case TimezoneRegion => f.(timezone_region := Set(Some(v)))
      case Language => f.(language := Set(Some(v)))
      case WebsiteUrl => f.(website_url := Set(Some(v)))
  }

  function EditBody(b: Body, e: FieldEdit): (r: Body)
    ensures b.OrgBody? ==> r == OrgBody(b.doc.(org := ApplyEdit(b.doc.org, e)))
    ensures b.ErrorBody? ==> r.ErrorBody? && r.detail == b.detail
  {
    match b
    case OrgBody(doc) => OrgBody(doc.(org := ApplyEdit(doc.org, e)))
    case ErrorBody(d, extra) => ErrorBody(d, ApplyEditFields(extra, e))
  }

  /** `handleOrgFieldChange`: with no draft nothing happens; otherwise
      only the draft changes. */
  function HandleOrgFieldChange(s: Details, e: FieldEdit): (r: Details)
    ensures s.editedOrg.None? ==> r == s
    ensures s.editedOrg.Some? ==> r.editedOrg == Some(EditBody(s.editedOrg.value, e))
    ensures r.(editedOrg := s.editedOrg) == s
  {
    match s.editedOrg
    case None => s
    case Some(b) => s.(editedOrg := Some(EditBody(b, e)))
  }

  /** The form's inputs only call the handler in edit mode. */
  function EditField(s: Details, e: FieldEdit): (r: Details)
    ensures !s.isEditingDetails ==> r == s
    ensures s.isEditingDetails ==> r == HandleOrgFieldChange(s, e)
  {
    if s.isEditingDetails then HandleOrgFieldChange(s, e) else s
  }

  /** Applies a series of form edits in order. */
  function EditFields(s: Details, edits: seq<FieldEdit>): Details
    decreases |edits|
  {
    if |edits| == 0 then s else EditFields(EditField(s, edits[0]), edits[1..])
  }

  /** Form edits change only the draft, and nothing at all without one. */
  lemma {:induction false} EditFieldsTouchOnlyDraft(s: Details, edits: seq<FieldEdit>)
    ensures EditFields(s, edits).(editedOrg := s.editedOrg) == s
    ensures s.editedOrg.None? ==> EditFields(s, edits) == s
    decreases |edits|
  {
    if |edits| > 0 {
      EditFieldsTouchOnlyDraft(EditField(s, edits[0]), edits[1..]);
    }
  }

  /** Draft isolation: entering edit mode, editing any fields and
      cancelling leaves the cached organization and everything else as it
      was before, out of edit mode and without a draft. */
  lemma {:induction false} DraftIsolation(s: Details, edits: seq<FieldEdit>)
    ensures var r := HandleCancelEdit(EditFields(HandleEditDetails(s), edits));
      && r.organization == s.organization
      && !r.isEditingDetails && r.editedOrg.None?
      && r == s.(isEditingDetails := false, editedOrg := None)
  {
    EditFieldsTouchOnlyDraft(HandleEditDetails(s), edits);
  }

  /** A failed save can be retried: it sends the same request again. */
  lemma SaveRetry(s: Details)
    requires !Missing(s.id) && s.editedOrg.Some?
    ensures HandleSaveDetails(HandleSaveDetails(s, Threw).state, Responded).sent[0]
         == HandleSaveDetails(s, Threw).sent[0]
  {
  }
}
