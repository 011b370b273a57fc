/** The two database tables (`organisation` and `user`) and the
    constraints the schema declares on them: primary keys, unique and
    NOT NULL columns, column widths, and the user-to-organisation
    foreign key. Tables are sequences of rows in insertion order; an
    unordered `SELECT` is taken to return them in that order. */
module Models {
  import opened Wrappers
  import opened Seqs

  type Id = string

  /** Widths of the VARCHAR columns; the database refuses a longer value. */
  const IdWidth := 36
  const NameWidth := 100
  const MailWidth := 100
  const ContactWidth := 50
  const SlugWidth := 100
  const StatusWidth := 20
  const PhoneWidth := 20
  const TimezoneWidth := 50
  const LanguageWidth := 50
  const WebsiteWidth := 200
  const RoleWidth := 50

  /** Column defaults. The creation document declares the same values
      as its own defaults, and the ORM leaves a null attribute out of the
      INSERT, so a null given for one of these columns stores the default. */
  const DefaultStatus := "Active"
  const DefaultPendingRequests := 0
  const DefaultMaxCoordinators := 5
  const DefaultTimezoneCommon := "India Standard Time"
  const DefaultTimezoneRegion := "Asia/Colombo"
  const DefaultLanguage := "English"

  /** Range of an INTEGER column. */
  const IntMin := -0x8000_0000
  const IntMax := 0x7FFF_FFFF

  datatype Organisation = Organisation(
    org_id: Id,
    org_name: string,
    org_mail: Option<string>,
    org_contact: Option<string>,
    org_slug: Option<string>,
    status: string,
    pending_requests: int,
    primary_admin_name: Option<string>,
    primary_admin_mail: Option<string>,
    support_email: Option<string>,
    phone: Option<string>,
    alt_phone: Option<string>,
    max_coordinators: Option<int>,
    timezone_common: Option<string>,
    timezone_region: Option<string>,
    language: Option<string>,
    website_url: Option<string>)

  datatype User = User(user_id: Id, user_name: string, user_role: Option<string>, org_id: Id)

  datatype Db = Db(orgs: seq<Organisation>, users: seq<User>)

  predicate FitsText(v: Option<string>, width: nat)
  {
    v.None? || |v.value| <= width
  }

  predicate FitsInt(v: int)
  {
    IntMin <= v <= IntMax
  }

  /** Every column of the row is within its declared width or range. */
  predicate OrgFits(o: Organisation)
  {
    && |o.org_id| <= IdWidth
    && |o.org_name| <= NameWidth
    && FitsText(o.org_mail, MailWidth)
    && FitsText(o.org_contact, ContactWidth)
    && FitsText(o.org_slug, SlugWidth)
    && |o.status| <= StatusWidth
    && FitsInt(o.pending_requests)
    && FitsText(o.primary_admin_name, NameWidth)
    && FitsText(o.primary_admin_mail, MailWidth)
    && FitsText(o.support_email, MailWidth)
    && FitsText(o.phone, PhoneWidth)
    && FitsText(o.alt_phone, PhoneWidth)
    && (o.max_coordinators.None? || FitsInt(o.max_coordinators.value))
    && FitsText(o.timezone_common, TimezoneWidth)
    && FitsText(o.timezone_region, TimezoneWidth)
    && FitsText(o.language, LanguageWidth)
    && FitsText(o.website_url, WebsiteWidth)
  }

  predicate UserFits(u: User)
  {
    |u.user_id| <= IdWidth && |u.user_name| <= NameWidth && FitsText(u.user_role, RoleWidth) && |u.org_id| <= IdWidth
  }

  /** Two different rows of `organisation` may not share the primary key,
      the unique `org_name`, or a non-null unique `org_slug`. */
  predicate OrgsDistinct(a: Organisation, b: Organisation)
  {
    && a.org_id != b.org_id
    && a.org_name != b.org_name
    && (a.org_slug.None? || a.org_slug != b.org_slug)
  }

  predicate UsersDistinct(a: User, b: User)
  {
    a.user_id != b.user_id
  }

  function OrgIds(orgs: seq<Organisation>): set<Id>
  {
    set o | o in orgs :: o.org_id
  }

  function UserIds(users: seq<User>): set<Id>
  {
    set u | u in users :: u.user_id
  }

  /** The constraints the schema declares, over the whole database. */
  ghost predicate Valid(db: Db)
  {
    && Pairwise(db.orgs, OrgsDistinct)
    && Pairwise(db.users, UsersDistinct)
    && (forall i :: 0 <= i < |db.orgs| ==> OrgFits(db.orgs[i]))
    && (forall i :: 0 <= i < |db.users| ==> UserFits(db.users[i]))
    && (forall i :: 0 <= i < |db.users| ==> db.users[i].org_id in OrgIds(db.orgs))
  }

  /** Position of the first row with the given primary key. */
  function OrgIndex(orgs: seq<Organisation>, id: Id): (r: Option<nat>)
    ensures r.None? <==> id !in OrgIds(orgs)
    ensures r.Some? ==> r.value < |orgs| && orgs[r.value].org_id == id
    ensures r.Some? ==> forall i :: 0 <= i < r.value ==> orgs[i].org_id != id
    decreases |orgs|
  {
    if |orgs| == 0 then None
    else if orgs[0].org_id == id then Some(0)
    else
      var r := OrgIndex(orgs[1..], id);
      assert OrgIds(orgs) == {orgs[0].org_id} + OrgIds(orgs[1..]) by {
        assert orgs == [orgs[0]] + orgs[1..];
      }
      if r.None? then None else Some(r.value + 1)
  }

  function UserIndex(users: seq<User>, id: Id): (r: Option<nat>)
    ensures r.None? <==> id !in UserIds(users)
    ensures r.Some? ==> r.value < |users| && users[r.value].user_id == id
    ensures r.Some? ==> forall i :: 0 <= i < r.value ==> users[i].user_id != id
    decreases |users|
  {
    if |users| == 0 then None
    else if users[0].user_id == id then Some(0)
    else
      var r := UserIndex(users[1..], id);
      assert UserIds(users) == {users[0].user_id} + UserIds(users[1..]) by {
        assert users == [users[0]] + users[1..];
      }
      if r.None? then None else Some(r.value + 1)
  }

  /** In a valid table a primary key names at most one row. */
  lemma OrgIndexUnique(db: Db, id: Id, k: nat)
    requires Valid(db)
    requires k < |db.orgs| && db.orgs[k].org_id == id
    ensures OrgIndex(db.orgs, id) == Some(k)
  {
    assert db.orgs[k] in db.orgs;
  }

  lemma UserIndexUnique(db: Db, id: Id, k: nat)
    requires Valid(db)
    requires k < |db.users| && db.users[k].user_id == id
    ensures UserIndex(db.users, id) == Some(k)
  {
    assert db.users[k] in db.users;
  }

  /** On a valid database a key names at most one user. */
  lemma UserKeyUnique(db: Db, u: User, v: User)
    requires Valid(db)
    requires u in db.users && v in db.users && u.user_id == v.user_id
    ensures u == v
  {
    var i :| 0 <= i < |db.users| && db.users[i] == u;
    var j :| 0 <= j < |db.users| && db.users[j] == v;
    UserIndexUnique(db, u.user_id, i);
    UserIndexUnique(db, u.user_id, j);
  }

  /** The test "belongs to the given organisation". */
  function OwnedBy(orgId: Id): User -> bool
  {
    (u: User) => u.org_id == orgId
  }

  /** The users whose foreign key names the given organisation, in table order. */
  function UsersOf(users: seq<User>, orgId: Id): (r: seq<User>)
    ensures forall u :: u in r <==> u in users && u.org_id == orgId
  {
    Filter(users, OwnedBy(orgId))
  }

  /** A user appended to the table joins the end of its organisation's list. */
  lemma UsersOfAppend(users: seq<User>, u: User, orgId: Id)
    ensures UsersOf(users + [u], orgId) == UsersOf(users, orgId) + (if u.org_id == orgId then [u] else [])
  {
    FilterConcat(users, [u], OwnedBy(orgId));
  }

  /** An organisation no user points at has an empty user list. */
  lemma UsersOfNone(users: seq<User>, orgId: Id)
    requires forall i :: 0 <= i < |users| ==> users[i].org_id != orgId
    ensures UsersOf(users, orgId) == []
  {
    FilterDropsAll(users, OwnedBy(orgId));
  }
}
