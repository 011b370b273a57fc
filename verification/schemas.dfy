/** The request and response documents of the API. A request body field
    is either left out of the JSON (`Unset`) or given, possibly as `null`
    (`Set(None)`); the difference matters because creation fills in
    defaults for left-out fields and updates overwrite only given ones. */
module Schemas {
  import opened Wrappers
  import opened Models

  datatype Field<T> = Unset | Set(value: T)

  /** The value a field holds after parsing: the given one, or the default. */
  function OrDefault<T>(f: Field<T>, default: T): (v: T)
    ensures f.Unset? ==> v == default
    ensures f.Set? ==> v == f.value
  {
    match f
    case Unset => default
    case Set(x) => x
  }

  /** The organisation fields a request body may carry, each left out or
      given. This is the update document as it arrives (every field
      optional) and the raw form of the creation document. */
  datatype OrgFields = OrgFields(
    org_name: Field<Option<string>>,
    org_mail: Field<Option<string>>,
    org_contact: Field<Option<string>>,
    org_slug: Field<Option<string>>,
    status: Field<Option<string>>,
    pending_requests: Field<Option<int>>,
    primary_admin_name: Field<Option<string>>,
    primary_admin_mail: Field<Option<string>>,
    support_email: Field<Option<string>>,
    phone: Field<Option<string>>,
    alt_phone: Field<Option<string>>,
    max_coordinators: Field<Option<int>>,
    timezone_common: Field<Option<string>>,
    timezone_region: Field<Option<string>>,
    language: Field<Option<string>>,
    website_url: Field<Option<string>>)

  /** A body that gives no field at all. */
  const NoFields := OrgFields(Unset, Unset, Unset, Unset, Unset, Unset, Unset, Unset,
                              Unset, Unset, Unset, Unset, Unset, Unset, Unset, Unset)

  /** An update that gives only `status`. */
  function StatusOnly(status: string): (u: OrgFields)
    ensures u.status == Set(Some(status))
    ensures u.(status := Unset) == NoFields
  {
    NoFields.(status := Set(Some(status)))
  }

  /** The parsed creation document: every field holds a value, the
      defaults filled in. Only `org_name` is required and non-null. */
  datatype OrgCreate = OrgCreate(
    org_name: string,
    org_mail: Option<string>,
    org_contact: Option<string>,
    org_slug: Option<string>,
    status: Option<string>,
    pending_requests: Option<int>,
    primary_admin_name: Option<string>,
    primary_admin_mail: Option<string>,
    support_email: Option<string>,
    phone: Option<string>,
    alt_phone: Option<string>,
    max_coordinators: Option<int>,
    timezone_common: Option<string>,
    timezone_region: Option<string>,
    language: Option<string>,
    website_url: Option<string>)

  /** Parses a creation body; `None` is the validation error (HTTP 422)
      of a missing or null `org_name`. */
  function ParseOrgCreate(b: OrgFields): (r: Option<OrgCreate>)
    ensures r.Some? <==> b.org_name.Set? && b.org_name.value.Some?
  {
    match b.org_name
    case Set(Some(name)) =>
      Some(OrgCreate(
        name,
        OrDefault(b.org_mail, None),
        OrDefault(b.org_contact, None),
        OrDefault(b.org_slug, None),
        OrDefault(b.status, Some(DefaultStatus)),
        OrDefault(b.pending_requests, Some(DefaultPendingRequests)),
        OrDefault(b.primary_admin_name, None),
        OrDefault(b.primary_admin_mail, None),
        OrDefault(b.support_email, None),
        OrDefault(b.phone, None),
        OrDefault(b.alt_phone, None),
        OrDefault(b.max_coordinators, Some(DefaultMaxCoordinators)),
        OrDefault(b.timezone_common, Some(DefaultTimezoneCommon)),
        OrDefault(b.timezone_region, Some(DefaultTimezoneRegion)),
        OrDefault(b.language, Some(DefaultLanguage)),
        OrDefault(b.website_url, None)))
    case _ => None
  }

  /** A creation body that leaves a field out gets that field's default:
      status "Active", no pending requests, five coordinators, India
      Standard Time in the Asia/Colombo region, English, and null for
      every other field. A given field, null included, is kept as given. */
  lemma ParseOrgCreateDefaults(b: OrgFields)
    requires b.org_name.Set? && b.org_name.value.Some?
    ensures ParseOrgCreate(b).Some?
    ensures var c := ParseOrgCreate(b).value;
      && c.org_name == b.org_name.value.value
      && (b.status.Unset? ==> c.status == Some("Active"))
      && (b.pending_requests.Unset? ==> c.pending_requests == Some(0))
      && (b.max_coordinators.Unset? ==> c.max_coordinators == Some(5))
      && (b.timezone_common.Unset? ==> c.timezone_common == Some("India Standard Time"))
      && (b.timezone_region.Unset? ==> c.timezone_region == Some("Asia/Colombo"))
      && (b.language.Unset? ==> c.language == Some("English"))
      && (b.org_mail.Unset? ==> c.org_mail.None?)
      && (b.org_contact.Unset? ==> c.org_contact.None?)
      && (b.org_slug.Unset? ==> c.org_slug.None?)
      && (b.primary_admin_name.Unset? ==> c.primary_admin_name.None?)
      && (b.primary_admin_mail.Unset? ==> c.primary_admin_mail.None?)
      && (b.support_email.Unset? ==> c.support_email.None?)
      && (b.phone.Unset? ==> c.phone.None?)
      && (b.alt_phone.Unset? ==> c.alt_phone.None?)
      && (b.website_url.Unset? ==> c.website_url.None?)
    ensures var c := ParseOrgCreate(b).value;
      && (b.org_mail.Set? ==> c.org_mail == b.org_mail.value)
      && (b.org_contact.Set? ==> c.org_contact == b.org_contact.value)
      && (b.org_slug.Set? ==> c.org_slug == b.org_slug.value)
      && (b.status.Set? ==> c.status == b.status.value)
      && (b.pending_requests.Set? ==> c.pending_requests == b.pending_requests.value)
      && (b.primary_admin_name.Set? ==> c.primary_admin_name == b.primary_admin_name.value)
      && (b.primary_admin_mail.Set? ==> c.primary_admin_mail == b.primary_admin_mail.value)
      && (b.support_email.Set? ==> c.support_email == b.support_email.value)
      && (b.phone.Set? ==> c.phone == b.phone.value)
      && (b.alt_phone.Set? ==> c.alt_phone == b.alt_phone.value)
      && (b.max_coordinators.Set? ==> c.max_coordinators == b.max_coordinators.value)
      && (b.timezone_common.Set? ==> c.timezone_common == b.timezone_common.value)
      && (b.timezone_region.Set? ==> c.timezone_region == b.timezone_region.value)
      && (b.language.Set? ==> c.language == b.language.value)
      && (b.website_url.Set? ==> c.website_url == b.website_url.value)
  {
  }

  /** The user fields a request body may carry. */
  datatype UserFields = UserFields(user_name: Field<Option<string>>, user_role: Field<Option<string>>)

  /** The parsed user document: `user_name` is required and non-null;
      `user_role` stays as given so that an update can tell whether it
      was given. */
  datatype UserCreate = UserCreate(user_name: string, user_role: Field<Option<string>>)

  /** The role a created user gets: the given one, or null. */
  function RoleOf(u: UserCreate): (r: Option<string>)
    ensures u.user_role.Unset? ==> r.None?
    ensures u.user_role.Set? ==> r == u.user_role.value
  {
    OrDefault(u.user_role, None)
  }

  /** Parses a user body; `None` is the validation error (HTTP 422) of a
      missing or null `user_name`. */
  function ParseUserCreate(b: UserFields): (r: Option<UserCreate>)
    ensures r.Some? <==> b.user_name.Set? && b.user_name.value.Some?
    ensures r.Some? ==> r.value.user_name == b.user_name.value.value && r.value.user_role == b.user_role
  {
    match b.user_name
    case Set(Some(name)) => Some(UserCreate(name, b.user_role))
    case _ => None
  }

  /** The organisation document the API returns: the row and the users
      that belong to it. */
  datatype OrgResponse = OrgResponse(org: Organisation, users: seq<User>)

  /** Serialises an organisation row together with its users. */
  function ResponseOf(db: Db, o: Organisation): (r: OrgResponse)
    ensures r.org == o
    ensures forall u :: u in r.users <==> u in db.users && u.org_id == o.org_id
  {
    OrgResponse(o, UsersOf(db.users, o.org_id))
  }

  /** An organisation nobody has added users to is returned with an
      empty user list. */
  lemma ResponseUsersDefaultEmpty(db: Db, o: Organisation)
    requires forall i :: 0 <= i < |db.users| ==> db.users[i].org_id != o.org_id
    ensures ResponseOf(db, o).users == []
  {
    UsersOfNone(db.users, o.org_id);
  }

  /** The update body that gives every field of the row, as the full
      organisation document serialises to JSON (nulls included). */
  function FieldsOf(o: Organisation): (b: OrgFields)
    ensures b.org_name == Set(Some(o.org_name)) && b.status == Set(Some(o.status))
    ensures b.pending_requests == Set(Some(o.pending_requests))
    ensures && b.org_mail == Set(o.org_mail) && b.org_contact == Set(o.org_contact)
            && b.org_slug == Set(o.org_slug)
            && b.primary_admin_name == Set(o.primary_admin_name)
            && b.primary_admin_mail == Set(o.primary_admin_mail)
            && b.support_email == Set(o.support_email)
            && b.phone == Set(o.phone) && b.alt_phone == Set(o.alt_phone)
            && b.max_coordinators == Set(o.max_coordinators)
            && b.timezone_common == Set(o.timezone_common)
            && b.timezone_region == Set(o.timezone_region)
            && b.language == Set(o.language) && b.website_url == Set(o.website_url)
  {
    OrgFields(
      Set(Some(o.org_name)), Set(o.org_mail), Set(o.org_contact), Set(o.org_slug),
      Set(Some(o.status)), Set(Some(o.pending_requests)),
      Set(o.primary_admin_name), Set(o.primary_admin_mail), Set(o.support_email),
      Set(o.phone), Set(o.alt_phone), Set(o.max_coordinators),
      Set(o.timezone_common), Set(o.timezone_region), Set(o.language), Set(o.website_url))
  }
}
