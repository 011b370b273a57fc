/** The organization list page: the cached list, the search box and the
    derived filtered list, and the add-organization dialog with its four
    input buffers. */
module OrganizationsPage {
  import opened Wrappers
  import opened Seqs
  import opened Text
  import opened Schemas
  import opened Api

  /** The building emoji every row shows as its logo. */
  const Logo := "\U{1F3E2}"
  const DefaultStatus := "Active"

  /** A row of the table. */
  datatype OrgRow = OrgRow(org_id: string, org_name: string, logo: string, pendingRequests: int, status: string)

  /** An entry of the list the backend returns; `None` is a null or
      missing value. */
  datatype BackendOrg = BackendOrg(org_id: string, org_name: string, status: Option<string>, pending_requests: Option<int>)

  /** The result of the list fetch: the decoded array, or a throw (a
      network error, or a body that is not an array). */
  datatype ListResponse = Listed(data: seq<BackendOrg>) | ListThrew

  datatype Page = Page(
    isAddDialogOpen: bool,
    organizations: seq<OrgRow>,
    filtered: seq<OrgRow>,
    searchTerm: string,
    newOrgName: string,
    newOrgSlug: string,
    newOrgMail: string,
    newOrgContact: string)

  /** The four inputs of the add-organization dialog. */
  datatype Buffer = NameBuffer | SlugBuffer | MailBuffer | ContactBuffer

  /** Maps one backend entry to a row: a null or zero count shows as 0,
      and a null or empty status shows as Active. */
  function ToRow(b: BackendOrg): (r: OrgRow)
    ensures r.org_id == b.org_id && r.org_name == b.org_name && r.logo == Logo
    ensures r.pendingRequests == b.pending_requests.GetOr(0)
    ensures r.status == (if b.status.None? || b.status == Some("") then DefaultStatus else b.status.value)
  {
    OrgRow(
      b.org_id, b.org_name, Logo,
      b.pending_requests.GetOr(0),
      match b.status case None => DefaultStatus case Some(s) => if s == "" then DefaultStatus else s)
  }

  /** Maps the fetched array to rows, entry by entry. */
  function Format(data: seq<BackendOrg>): (r: seq<OrgRow>)
    ensures |r| == |data|
    ensures forall i :: 0 <= i < |data| ==> r[i] == ToRow(data[i])
  {
    seq(|data|, i requires 0 <= i < |data| => ToRow(data[i]))
  }

  /** The mapping keeps the length, the order, the keys and the names, and
      fills in the defaults. */
  lemma FormatKeepsEntries(data: seq<BackendOrg>)
    ensures var rows := Format(data);
      && |rows| == |data|
      && (forall i :: 0 <= i < |data| ==> rows[i].org_id == data[i].org_id && rows[i].org_name == data[i].org_name)
      && (forall i :: 0 <= i < |data| && data[i].pending_requests.None? ==> rows[i].pendingRequests == 0)
      && (forall i :: 0 <= i < |data| && data[i].status.None? ==> rows[i].status == "Active")
      && (forall i :: 0 <= i < |data| && data[i].status.Some? && data[i].status.value != "" ==>
            rows[i].status == data[i].status.value)
  {
  }

  /** The row's name contains the search term, ignoring case. */
  predicate Matches(term: string, row: OrgRow)
  {
    Includes(ToLower(row.org_name), ToLower(term))
  }

  /** The search filter: the rows that match the term, in list order. */
  function FilterRows(rows: seq<OrgRow>, term: string): (r: seq<OrgRow>)
    ensures |r| <= |rows|
    ensures forall i :: 0 <= i < |r| ==> r[i] in rows && Matches(term, r[i])
    ensures forall i :: 0 <= i < |rows| && Matches(term, rows[i]) ==> rows[i] in r
  {
    Filter(rows, (row: OrgRow) => Matches(term, row))
  }

  /** The filter is order-preserving: it filters the two halves of a list
      separately and keeps them in order. */
  lemma FilterRowsKeepsOrder(a: seq<OrgRow>, b: seq<OrgRow>, term: string)
    ensures FilterRows(a + b, term) == FilterRows(a, term) + FilterRows(b, term)
  {
    FilterConcat(a, b, (row: OrgRow) => Matches(term, row));
  }

  /** Filtering the filtered list by the same term changes nothing. */
  lemma FilterRowsIdempotent(rows: seq<OrgRow>, term: string)
    ensures FilterRows(FilterRows(rows, term), term) == FilterRows(rows, term)
  {
    FilterIdempotent(rows, (row: OrgRow) => Matches(term, row));
  }

  /** An empty search term keeps the whole list. */
  lemma FilterRowsEmptyTerm(rows: seq<OrgRow>)
    ensures FilterRows(rows, "") == rows
  {
    forall i | 0 <= i < |rows| ensures Matches("", rows[i]) {
      IncludesEmpty(ToLower(rows[i].org_name));
    }
    FilterKeepsAll(rows, (row: OrgRow) => Matches("", row));
  }

  /** The filtered list is what the search effect last computed from the
      current list and term. */
  predicate Consistent(p: Page)
  {
    p.filtered == FilterRows(p.organizations, p.searchTerm)
  }

  /** The page before anything is fetched or typed. */
  function Initial(): (p: Page)
    ensures Consistent(p) && p.organizations == [] && !p.isAddDialogOpen
  {
    Page(false, [], [], "", "", "", "", "")
  }

  /** Mounting fetches the list. */
  function Mount(p: Page): (r: Step<Page>)
    ensures r.state == p && r.sent == [ListOrgs]
  {
    Step(p, [ListOrgs])
  }

  /** `fetchOrganizations` completing: a decoded array replaces the list
      (and the search effect recomputes the filtered list); a throw
      leaves the page as it was. */
  function ReceiveList(p: Page, resp: ListResponse): (r: Page)
    ensures resp.ListThrew? ==> r == p
    ensures resp.Listed? ==> r.organizations == Format(resp.data) && Consistent(r)
    ensures r.(organizations := p.organizations, filtered := p.filtered) == p
    ensures r.searchTerm == p.searchTerm && r.isAddDialogOpen == p.isAddDialogOpen
  {
    match resp
    case ListThrew => p
    case Listed(data) =>
      var rows := Format(data);
      p.(organizations := rows, filtered := FilterRows(rows, p.searchTerm))
  }

  /** Typing in the search box; the effect recomputes the filtered list. */
  function SetSearchTerm(p: Page, term: string): (r: Page)
    ensures Consistent(r) && r.searchTerm == term && r.organizations == p.organizations
    ensures r.(searchTerm := p.searchTerm, filtered := p.filtered) == p
  {
    p.(searchTerm := term, filtered := FilterRows(p.organizations, term))
  }

  /** Opening the dialog (the Add button), or closing it (Cancel, or the
      dialog's own close). The buffers keep their contents. */
  function SetAddDialogOpen(p: Page, open: bool): (r: Page)
    ensures r.isAddDialogOpen == open
    ensures r.organizations == p.organizations && r.filtered == p.filtered && r.searchTerm == p.searchTerm
    ensures r.newOrgName == p.newOrgName && r.newOrgSlug == p.newOrgSlug
    ensures r.newOrgMail == p.newOrgMail && r.newOrgContact == p.newOrgContact
  {
    p.(isAddDialogOpen := open)
  }

  /** Typing in one of the dialog's inputs. */
  function EditBuffer(p: Page, which: Buffer, value: string): (r: Page)
    ensures r.organizations == p.organizations && r.filtered == p.filtered
    ensures r.searchTerm == p.searchTerm && r.isAddDialogOpen == p.isAddDialogOpen
    ensures which == NameBuffer ==> r == p.(newOrgName := value)
    ensures which == SlugBuffer ==> r == p.(newOrgSlug := value)
    ensures which == MailBuffer ==> r == p.(newOrgMail := value)
    ensures which == ContactBuffer ==> r == p.(newOrgContact := value)
  {
    match which
    case NameBuffer => p.(newOrgName := value)
    case SlugBuffer => p.(newOrgSlug := value)
    case MailBuffer => p.(newOrgMail := value)
    case ContactBuffer => p.(newOrgContact := value)
  }

  /** The creation body: exactly the four buffers, every other field left out. */
  function AddOrgBody(p: Page): (b: OrgFields)
    ensures b.org_name == Set(Some(p.newOrgName)) && b.org_slug == Set(Some(p.newOrgSlug))
    ensures b.org_mail == Set(Some(p.newOrgMail)) && b.org_contact == Set(Some(p.newOrgContact))
    ensures && b.status.Unset? && b.pending_requests.Unset?
            && b.primary_admin_name.Unset? && b.primary_admin_mail.Unset? && b.support_email.Unset?
            && b.phone.Unset? && b.alt_phone.Unset? && b.max_coordinators.Unset?
            && b.timezone_common.Unset? && b.timezone_region.Unset? && b.language.Unset?
            && b.website_url.Unset?
  {
    NoFields.(org_name := Set(Some(p.newOrgName)), org_slug := Set(Some(p.newOrgSlug)),
              org_mail := Set(Some(p.newOrgMail)), org_contact := Set(Some(p.newOrgContact)))
  }

  /** `handleAddOrganization`: posts the buffers; when `fetch` returns,
      refetches the list and closes the dialog; when it throws, nothing
      else happens. The buffers are not cleared. */
  function AddOrganization(p: Page, outcome: Outcome): (r: Step<Page>)
    ensures |r.sent| >= 1 && r.sent[0] == CreateOrg(AddOrgBody(p))
    ensures outcome == Responded ==>
              r.sent == [CreateOrg(AddOrgBody(p)), ListOrgs] && r.state == p.(isAddDialogOpen := false)
    ensures outcome == Threw ==> r.sent == [CreateOrg(AddOrgBody(p))] && r.state == p
  {
    var post := CreateOrg(AddOrgBody(p));
    match outcome
    case Responded => Step(p.(isAddDialogOpen := false), [post, ListOrgs])
    case Threw => Step(p, [post])
  }

  /** `handleDeleteOrganization`: one DELETE, then a list refetch unless
      `fetch` threw. The page itself does not change. */
  function DeleteOrganization(p: Page, orgId: string, outcome: Outcome): (r: Step<Page>)
    ensures r.state == p
    ensures outcome == Responded ==> r.sent == [DeleteOrg(orgId), ListOrgs]
    ensures outcome == Threw ==> r.sent == [DeleteOrg(orgId)]
  {
    match outcome
    case Responded => Step(p, [DeleteOrg(orgId), ListOrgs])
    case Threw => Step(p, [DeleteOrg(orgId)])
  }

  /** Every transition keeps the filtered list in step with the list and
      the search term. */
  lemma TransitionsKeepConsistent(p: Page, resp: ListResponse, term: string, open: bool,
                                  which: Buffer, value: string, outcome: Outcome, orgId: string)
    requires Consistent(p)
    ensures Consistent(ReceiveList(p, resp))
    ensures Consistent(SetSearchTerm(p, term))
    ensures Consistent(SetAddDialogOpen(p, open))
    ensures Consistent(EditBuffer(p, which, value))
    ensures Consistent(AddOrganization(p, outcome).state)
    ensures Consistent(DeleteOrganization(p, orgId, outcome).state)
  {
  }
}
