/**
 * Record shapes, column defaults and the insert validators of the calendar's
 * four tables (ContentCalendar/shared/schema.ts).
 *
 * A validator is modelled the way zod's object schemas behave: it looks only
 * at the keys its schema names (any other key is stripped), checks every named
 * key (a missing key is `undefined`), and reports the path of every key that
 * failed, all at once.
 */
module Schema {
  import opened Wrappers

  /**
   * A JavaScript Date, kept opaque: `Parsed(s)` is `new Date(s)` for a string
   * that came from a request, `Clock(t)` is the server clock read at `t`.
   */
  datatype Date = Parsed(text: string) | Clock(millis: int)

  /**
   * The values a validator can receive: the JSON kinds, plus a Date object,
   * which server code can pass but a parsed JSON request body never holds.
   */
  datatype Value =
    | Null
    | Bool(b: bool)
    | Num(n: int)
    | Str(s: string)
    | Arr(elems: seq<Value>)
    | Obj(fields: map<string, Value>)
    | Instant(date: Date)

  /** A value that a JSON body parser can produce: no Date object anywhere in it. */
  predicate IsJson(v: Value)
    decreases v
  {
    match v
    case Instant(_) => false
    case Arr(elems) => forall i :: 0 <= i < |elems| ==> IsJson(elems[i])
    case Obj(fields) => forall k :: k in fields ==> IsJson(fields[k])
    case _ => true
  }

  // ----- Closed enumerations (schema.ts:55-56) -----

  datatype Platform = Social | Email | Blog
  datatype Status = Draft | Scheduled | Posted

  const PlatformNames: set<string> := {"social", "email", "blog"}
  const StatusNames: set<string> := {"draft", "scheduled", "posted"}

  function PlatformName(p: Platform): string
  {
    match p
    case Social => "social"
    case Email => "email"
    case Blog => "blog"
  }

  function StatusName(s: Status): string
  {
    match s
    case Draft => "draft"
    case Scheduled => "scheduled"
    case Posted => "posted"
  }

  /** The platform a request string denotes; only the three names are accepted. */
  function PlatformOf(s: string): (r: Option<Platform>)
    ensures r.Some? <==> s in PlatformNames
    ensures r.Some? ==> PlatformName(r.value) == s
  {
    if s == "social" then Some(Social)
    else if s == "email" then Some(Email)
    else if s == "blog" then Some(Blog)
    else None
  }

  /** The status a request string denotes; only the three names are accepted. */
  function StatusOf(s: string): (r: Option<Status>)
    ensures r.Some? <==> s in StatusNames
    ensures r.Some? ==> StatusName(r.value) == s
  {
    if s == "draft" then Some(Draft)
    else if s == "scheduled" then Some(Scheduled)
    else if s == "posted" then Some(Posted)
    else None
  }

  // ----- Rows as stored (nullable columns are Options) -----

  /** A row of `users` (schema.ts:18-29). */
  datatype User = User(
    id: string,
    email: Option<string>,
    firstName: Option<string>,
    lastName: Option<string>,
    profileImageUrl: Option<string>,
    stripeCustomerId: Option<string>,
    stripeSubscriptionId: Option<string>,
    subscriptionStatus: Option<string>,
    createdAt: Option<Date>,
    updatedAt: Option<Date>)

  /** A row of `content_items` (schema.ts:35-46); platform and status are text columns. */
  datatype ContentItem = ContentItem(
    id: string,
    userId: Option<string>,
    title: string,
    description: Option<string>,
    platform: string,
    scheduledDate: Date,
    status: string,
    templateId: Option<string>,
    reminderSent: Option<bool>,
    createdAt: Option<Date>)

  /** A row of `content_templates` (schema.ts:64-73). */
  datatype ContentTemplate = ContentTemplate(
    id: string,
    title: string,
    description: string,
    content: string,
    platform: string,
    category: string,
    isPremium: Option<bool>,
    createdAt: Option<Date>)

  /** A row of `email_reminders` (schema.ts:84-91). */
  datatype EmailReminder = EmailReminder(
    id: string,
    contentItemId: Option<string>,
    userId: Option<string>,
    scheduledFor: Date,
    sent: Option<bool>,
    createdAt: Option<Date>)

  // ----- Insert shapes -----

  /** `UpsertUser`: every column may be supplied; nullable ones may be supplied as null. */
  datatype UpsertUser = UpsertUser(
    id: Field<string>,
    email: Field<Option<string>>,
    firstName: Field<Option<string>>,
    lastName: Field<Option<string>>,
    profileImageUrl: Field<Option<string>>,
    stripeCustomerId: Field<Option<string>>,
    stripeSubscriptionId: Field<Option<string>>,
    subscriptionStatus: Field<Option<string>>,
    createdAt: Field<Option<Date>>,
    updatedAt: Field<Option<Date>>)

  /** What `insertContentItemSchema` accepts: id, userId, reminderSent, createdAt are not in it. */
  datatype InsertContentItem = InsertContentItem(
    title: string,
    description: Option<string>,
    platform: Platform,
    scheduledDate: Date,
    status: Status,
    templateId: Option<string>)

  /** What `insertContentItemSchema.partial()` accepts: each key may be left out. */
  datatype ContentItemPatch = ContentItemPatch(
    title: Field<string>,
    description: Field<Option<string>>,
    platform: Field<Platform>,
    scheduledDate: Field<Date>,
    status: Field<Status>,
    templateId: Field<string>)

  /** What `insertContentTemplateSchema` accepts. */
  datatype InsertContentTemplate = InsertContentTemplate(
    title: string,
    description: string,
    content: string,
    platform: string,
    category: string,
    isPremium: Field<Option<bool>>)

  /** What `insertEmailReminderSchema` accepts: sent is not in it. */
  datatype InsertEmailReminder = InsertEmailReminder(
    contentItemId: Option<string>,
    userId: Option<string>,
    scheduledFor: Date)

  // ----- Column defaults -----

  const DefaultSubscriptionStatus: string := "free"
  const DefaultItemStatus: string := "draft"

  /** The row that inserting `u` under `id` at time `now` creates. */
  function NewUser(id: string, u: UpsertUser, now: int): (row: User)
    ensures row.id == id
    ensures u.email.Omitted? ==> row.email.None?
    ensures u.email.Given? ==> row.email == u.email.value
    ensures u.firstName.Omitted? ==> row.firstName.None?
    ensures u.firstName.Given? ==> row.firstName == u.firstName.value
    ensures u.lastName.Omitted? ==> row.lastName.None?
    ensures u.lastName.Given? ==> row.lastName == u.lastName.value
    ensures u.profileImageUrl.Omitted? ==> row.profileImageUrl.None?
    ensures u.profileImageUrl.Given? ==> row.profileImageUrl == u.profileImageUrl.value
    ensures u.stripeCustomerId.Omitted? ==> row.stripeCustomerId.None?
    ensures u.stripeCustomerId.Given? ==> row.stripeCustomerId == u.stripeCustomerId.value
    ensures u.stripeSubscriptionId.Omitted? ==> row.stripeSubscriptionId.None?
    ensures u.stripeSubscriptionId.Given? ==> row.stripeSubscriptionId == u.stripeSubscriptionId.value
    ensures u.subscriptionStatus.Omitted? ==> row.subscriptionStatus == Some(DefaultSubscriptionStatus)
    ensures u.subscriptionStatus.Given? ==> row.subscriptionStatus == u.subscriptionStatus.value
    ensures u.createdAt.Omitted? ==> row.createdAt == Some(Clock(now))
    ensures u.createdAt.Given? ==> row.createdAt == u.createdAt.value
    ensures u.updatedAt.Omitted? ==> row.updatedAt == Some(Clock(now))
    ensures u.updatedAt.Given? ==> row.updatedAt == u.updatedAt.value
  {
    User(
      id,
      u.email.Or(None),
      u.firstName.Or(None),
      u.lastName.Or(None),
      u.profileImageUrl.Or(None),
      u.stripeCustomerId.Or(None),
      u.stripeSubscriptionId.Or(None),
      u.subscriptionStatus.Or(Some(DefaultSubscriptionStatus)),
      u.createdAt.Or(Some(Clock(now))),
      u.updatedAt.Or(Some(Clock(now))))
  }

  /**
   * The row `onConflictDoUpdate` leaves: the supplied keys overwrite, the rest
   * stay, and updatedAt is the new time whatever was supplied for it.
   */
  function MergeUser(row: User, u: UpsertUser, now: int): (r: User)
    requires u.id.Given? ==> u.id.value == row.id
    ensures r.id == row.id
    ensures r.updatedAt == Some(Clock(now))
    ensures u.email.Omitted? ==> r.email == row.email
    ensures u.email.Given? ==> r.email == u.email.value
    ensures u.firstName.Omitted? ==> r.firstName == row.firstName
    ensures u.firstName.Given? ==> r.firstName == u.firstName.value
    ensures u.lastName.Omitted? ==> r.lastName == row.lastName
    ensures u.lastName.Given? ==> r.lastName == u.lastName.value
    ensures u.profileImageUrl.Omitted? ==> r.profileImageUrl == row.profileImageUrl
    ensures u.profileImageUrl.Given? ==> r.profileImageUrl == u.profileImageUrl.value
    ensures u.stripeCustomerId.Omitted? ==> r.stripeCustomerId == row.stripeCustomerId
    ensures u.stripeCustomerId.Given? ==> r.stripeCustomerId == u.stripeCustomerId.value
    ensures u.stripeSubscriptionId.Omitted? ==> r.stripeSubscriptionId == row.stripeSubscriptionId
    ensures u.stripeSubscriptionId.Given? ==> r.stripeSubscriptionId == u.stripeSubscriptionId.value
    ensures u.subscriptionStatus.Omitted? ==> r.subscriptionStatus == row.subscriptionStatus
    ensures u.subscriptionStatus.Given? ==> r.subscriptionStatus == u.subscriptionStatus.value
    ensures u.createdAt.Omitted? ==> r.createdAt == row.createdAt
    ensures u.createdAt.Given? ==> r.createdAt == u.createdAt.value
  {
    User(
      row.id,
      u.email.Or(row.email),
      u.firstName.Or(row.firstName),
      u.lastName.Or(row.lastName),
      u.profileImageUrl.Or(row.profileImageUrl),
      u.stripeCustomerId.Or(row.stripeCustomerId),
      u.stripeSubscriptionId.Or(row.stripeSubscriptionId),
      u.subscriptionStatus.Or(row.subscriptionStatus),
      u.createdAt.Or(row.createdAt),
      Some(Clock(now)))
  }

  /** The row that inserting a validated item for `userId` creates. */
  function NewContentItem(id: string, userId: string, x: InsertContentItem, now: int): (row: ContentItem)
    ensures row.id == id && row.userId == Some(userId)
    ensures row.reminderSent == Some(false)
    ensures row.platform in PlatformNames && row.status in StatusNames
    ensures PlatformOf(row.platform) == Some(x.platform) && StatusOf(row.status) == Some(x.status)
    ensures row.title == x.title && row.description == x.description
    ensures row.scheduledDate == x.scheduledDate && row.templateId == x.templateId
    ensures row.createdAt == Some(Clock(now))
  {
    ContentItem(id, Some(userId), x.title, x.description, PlatformName(x.platform),
      x.scheduledDate, StatusName(x.status), x.templateId, Some(false), Some(Clock(now)))
  }

  /** The row that inserting a validated template creates; isPremium defaults to false. */
  function NewContentTemplate(id: string, x: InsertContentTemplate, now: int): (row: ContentTemplate)
    ensures row.id == id && row.title == x.title && row.description == x.description
    ensures row.content == x.content && row.platform == x.platform && row.category == x.category
    ensures row.createdAt == Some(Clock(now))
    ensures x.isPremium.Omitted? ==> row.isPremium == Some(false)
    ensures x.isPremium.Given? ==> row.isPremium == x.isPremium.value
  {
    ContentTemplate(id, x.title, x.description, x.content, x.platform, x.category,
      x.isPremium.Or(Some(false)), Some(Clock(now)))
  }

  /** The row that inserting a validated reminder creates; it always starts unsent. */
  function NewEmailReminder(id: string, x: InsertEmailReminder, now: int): (row: EmailReminder)
    ensures row.id == id && row.sent == Some(false)
    ensures row.contentItemId == x.contentItemId && row.userId == x.userId
    ensures row.scheduledFor == x.scheduledFor
    ensures row.createdAt == Some(Clock(now))
  {
    EmailReminder(id, x.contentItemId, x.userId, x.scheduledFor, Some(false), Some(Clock(now)))
  }

  // ----- Object validation -----

  /** What a key's value must be. */
  datatype Kind =
    | Text                          // z.string()
    | NonEmptyText                  // z.string().min(1)
    | NullableText                  // z.string().nullable()
    | OneOf(options: set<string>)   // z.enum([...])
    | DateObject                    // z.date()
    | NullableBool                  // z.boolean().nullable()

  datatype FieldRule = FieldRule(kind: Kind, required: bool)
  type ObjectSchema = map<string, FieldRule>

  /** Where a validation issue was found: the whole input, or one key of it. */
  datatype Path = Root | Key(name: string)

  predicate Admits(kind: Kind, v: Value)
  {
    match kind
    case Text => v.Str?
    case NonEmptyText => v.Str? && |v.s| >= 1
    case NullableText => v.Str? || v.Null?
    case OneOf(options) => v.Str? && v.s in options
    case DateObject => v.Instant?
    case NullableBool => v.Bool? || v.Null?
  }

  /** Key `f` passes: present and admitted, or absent and optional (everything is optional under `partial()`). */
  predicate FieldOk(schema: ObjectSchema, m: map<string, Value>, f: string, partial: bool)
    requires f in schema
  {
    if f in m then Admits(schema[f].kind, m[f]) else partial || !schema[f].required
  }

  /** Every issue zod reports for `body`; keys outside the schema are never looked at. */
  function Issues(schema: ObjectSchema, body: Value, partial: bool): (r: set<Path>)
    ensures !body.Obj? ==> r == {Root}
    ensures body.Obj? ==> forall f :: f in schema ==> (Key(f) in r <==> !FieldOk(schema, body.fields, f, partial))
    ensures body.Obj? ==> forall p :: p in r ==> p.Key? && p.name in schema
  {
    match body
    case Obj(m) => set f | f in schema && !FieldOk(schema, m, f, partial) :: Key(f)
    case _ => {Root}
  }

  /** The string at `f`, "" when there is none. */
  function TextAt(m: map<string, Value>, f: string): string
  {
    if f in m && m[f].Str? then m[f].s else ""
  }

  /** The string at `f`, None when the key is absent or not a string. */
  function OptTextAt(m: map<string, Value>, f: string): Option<string>
  {
    if f in m && m[f].Str? then Some(m[f].s) else None
  }

  // ----- insertContentItemSchema (schema.ts:48-58) -----

  const ContentItemSchema: ObjectSchema := map[
    "title" := FieldRule(Text, true),
    "description" := FieldRule(NullableText, false),
    "platform" := FieldRule(OneOf(PlatformNames), true),
    "scheduledDate" := FieldRule(Text, true),
    "status" := FieldRule(OneOf(StatusNames), true),
    "templateId" := FieldRule(Text, false)]

  /** The body's values as an accepted insert, with `scheduledDate` turned into a Date. */
  predicate ReadsAsItem(m: map<string, Value>, x: InsertContentItem)
  {
    && "title" in m && m["title"] == Str(x.title)
    && "platform" in m && m["platform"] == Str(PlatformName(x.platform))
    && "scheduledDate" in m && m["scheduledDate"].Str? && x.scheduledDate == Parsed(m["scheduledDate"].s)
    && "status" in m && m["status"] == Str(StatusName(x.status))
    && x.description == OptTextAt(m, "description")
    && x.templateId == OptTextAt(m, "templateId")
  }

  function ParseContentItem(body: Value): (r: Result<InsertContentItem, set<Path>>)
    ensures r.Err? <==> Issues(ContentItemSchema, body, false) != {}
    ensures r.Err? ==> r.error == Issues(ContentItemSchema, body, false)
    ensures r.Ok? ==> body.Obj? && ReadsAsItem(body.fields, r.value)
  {
    var issues := Issues(ContentItemSchema, body, false);
    if issues != {} then Err(issues)
    else
      var m := body.fields;
      assert Key("title") !in issues && Key("platform") !in issues;
      assert Key("scheduledDate") !in issues && Key("status") !in issues;
      Ok(InsertContentItem(
        TextAt(m, "title"),
        OptTextAt(m, "description"),
        PlatformOf(TextAt(m, "platform")).GetOr(Social),
        Parsed(TextAt(m, "scheduledDate")),
        StatusOf(TextAt(m, "status")).GetOr(Draft),
        OptTextAt(m, "templateId")))
  }

  /** The same patch key, read from the body. */
  function TextField(m: map<string, Value>, f: string): Field<string>
  {
    if f in m && m[f].Str? then Given(m[f].s) else Omitted
  }

  function ParseContentItemPatch(body: Value): (r: Result<ContentItemPatch, set<Path>>)
    ensures r.Err? <==> Issues(ContentItemSchema, body, true) != {}
    ensures r.Err? ==> r.error == Issues(ContentItemSchema, body, true)
    ensures r.Ok? ==> body.Obj?
    ensures r.Ok? ==> (r.value.title.Given? <==> "title" in body.fields)
    ensures r.Ok? ==> (r.value.description.Given? <==> "description" in body.fields)
    ensures r.Ok? ==> (r.value.platform.Given? <==> "platform" in body.fields)
    ensures r.Ok? ==> (r.value.scheduledDate.Given? <==> "scheduledDate" in body.fields)
    ensures r.Ok? ==> (r.value.status.Given? <==> "status" in body.fields)
    ensures r.Ok? ==> (r.value.templateId.Given? <==> "templateId" in body.fields)
    ensures r.Ok? && "title" in body.fields ==> body.fields["title"] == Str(r.value.title.value)
    ensures r.Ok? && "description" in body.fields ==>
      r.value.description.value == (if body.fields["description"].Str? then Some(body.fields["description"].s) else None)
    ensures r.Ok? && "platform" in body.fields ==> body.fields["platform"] == Str(PlatformName(r.value.platform.value))
    ensures r.Ok? && "scheduledDate" in body.fields ==>
      body.fields["scheduledDate"].Str? && r.value.scheduledDate.value == Parsed(body.fields["scheduledDate"].s)
    ensures r.Ok? && "status" in body.fields ==> body.fields["status"] == Str(StatusName(r.value.status.value))
    ensures r.Ok? && "templateId" in body.fields ==> body.fields["templateId"] == Str(r.value.templateId.value)
  {
    var issues := Issues(ContentItemSchema, body, true);
    if issues != {} then Err(issues)
    else
      var m := body.fields;
      assert Key("title") !in issues && Key("templateId") !in issues;
      assert Key("description") !in issues && Key("platform") !in issues;
      assert Key("scheduledDate") !in issues && Key("status") !in issues;
      Ok(ContentItemPatch(
        TextField(m, "title"),
        if "description" in m then Given(OptTextAt(m, "description")) else Omitted,
        if "platform" in m then Given(PlatformOf(TextAt(m, "platform")).GetOr(Social)) else Omitted,
        if "scheduledDate" in m then Given(Parsed(TextAt(m, "scheduledDate"))) else Omitted,
        if "status" in m then Given(StatusOf(TextAt(m, "status")).GetOr(Draft)) else Omitted,
        TextField(m, "templateId")))
  }

  // ----- insertContentTemplateSchema (schema.ts:75-78) -----

  const ContentTemplateSchema: ObjectSchema := map[
    "title" := FieldRule(Text, true),
    "description" := FieldRule(Text, true),
    "content" := FieldRule(Text, true),
    "platform" := FieldRule(Text, true),
    "category" := FieldRule(Text, true),
    "isPremium" := FieldRule(NullableBool, false)]

  function ParseContentTemplate(body: Value): (r: Result<InsertContentTemplate, set<Path>>)
    ensures r.Err? <==> Issues(ContentTemplateSchema, body, false) != {}
    ensures r.Err? ==> r.error == Issues(ContentTemplateSchema, body, false)
    ensures r.Ok? ==> body.Obj? && "title" in body.fields && "description" in body.fields
                      && "content" in body.fields && "platform" in body.fields && "category" in body.fields
    ensures r.Ok? ==> (body.fields["title"] == Str(r.value.title) && body.fields["description"] == Str(r.value.description)
                       && body.fields["content"] == Str(r.value.content)
                       && body.fields["platform"] == Str(r.value.platform)
                       && body.fields["category"] == Str(r.value.category))
    ensures r.Ok? ==> (r.value.isPremium.Given? <==> "isPremium" in body.fields)
    ensures r.Ok? && "isPremium" in body.fields ==>
      r.value.isPremium.value == (if body.fields["isPremium"].Bool? then Some(body.fields["isPremium"].b) else None)
  {
    var issues := Issues(ContentTemplateSchema, body, false);
    if issues != {} then Err(issues)
    else
      var m := body.fields;
      assert Key("title") !in issues && Key("content") !in issues && Key("platform") !in issues;
      assert Key("description") !in issues && Key("category") !in issues;
      Ok(InsertContentTemplate(
        TextAt(m, "title"), TextAt(m, "description"), TextAt(m, "content"),
        TextAt(m, "platform"), TextAt(m, "category"),
        if "isPremium" !in m then Omitted
        else if m["isPremium"].Bool? then Given(Some(m["isPremium"].b))
        else Given(None)))
  }

  // ----- insertEmailReminderSchema (schema.ts:93-97) -----

  /** `scheduledFor` is a timestamp column, so the generated schema asks for a Date object. */
  const EmailReminderSchema: ObjectSchema := map[
    "contentItemId" := FieldRule(NullableText, false),
    "userId" := FieldRule(NullableText, false),
    "scheduledFor" := FieldRule(DateObject, true)]

  function ParseEmailReminder(body: Value): (r: Result<InsertEmailReminder, set<Path>>)
    ensures r.Err? <==> Issues(EmailReminderSchema, body, false) != {}
    ensures r.Err? ==> r.error == Issues(EmailReminderSchema, body, false)
    ensures r.Ok? ==> (body.Obj? && "scheduledFor" in body.fields
                       && body.fields["scheduledFor"] == Instant(r.value.scheduledFor))
    ensures r.Ok? ==> (r.value.contentItemId == OptTextAt(body.fields, "contentItemId")
                       && r.value.userId == OptTextAt(body.fields, "userId"))
  {
    var issues := Issues(EmailReminderSchema, body, false);
    if issues != {} then Err(issues)
    else
      var m := body.fields;
      assert Key("scheduledFor") !in issues;
      Ok(InsertEmailReminder(OptTextAt(m, "contentItemId"), OptTextAt(m, "userId"), m["scheduledFor"].date))
  }

  /**
   * The reminder schema with `scheduledFor` read from a string, the way
   * `insertContentItemSchema` reads `scheduledDate` (schema.ts:54).
   */
  const EmailReminderJsonSchema: ObjectSchema := EmailReminderSchema["scheduledFor" := FieldRule(Text, true)]

  function ParseEmailReminderJson(body: Value): (r: Result<InsertEmailReminder, set<Path>>)
    ensures r.Err? <==> Issues(EmailReminderJsonSchema, body, false) != {}
    ensures r.Err? ==> r.error == Issues(EmailReminderJsonSchema, body, false)
    ensures r.Ok? ==> (body.Obj? && "scheduledFor" in body.fields && r.value.scheduledFor.Parsed?
                       && body.fields["scheduledFor"] == Str(r.value.scheduledFor.text))
    ensures r.Ok? ==> (r.value.contentItemId == OptTextAt(body.fields, "contentItemId")
                       && r.value.userId == OptTextAt(body.fields, "userId"))
  {
    var issues := Issues(EmailReminderJsonSchema, body, false);
    if issues != {} then Err(issues)
    else
      var m := body.fields;
      assert Key("scheduledFor") !in issues;
      Ok(InsertEmailReminder(OptTextAt(m, "contentItemId"), OptTextAt(m, "userId"), Parsed(m["scheduledFor"].s)))
  }

  // ----- Properties of the validators -----

  /** A key the schema does not name changes nothing about the issues found (zod strips it). */
  lemma {:induction false} UnknownKeyIgnored(schema: ObjectSchema, m: map<string, Value>, k: string, v: Value, partial: bool)
    requires k !in schema
    ensures Issues(schema, Obj(m[k := v]), partial) == Issues(schema, Obj(m), partial)
  {
    var a := Issues(schema, Obj(m[k := v]), partial);
    var b := Issues(schema, Obj(m), partial);
    forall p | p in a ensures p in b {
      assert FieldOk(schema, m[k := v], p.name, partial) == FieldOk(schema, m, p.name, partial);
    }
    forall p | p in b ensures p in a {
      assert FieldOk(schema, m[k := v], p.name, partial) == FieldOk(schema, m, p.name, partial);
    }
  }

  /**
   * The columns the insert schema omits (id, userId, reminderSent, createdAt)
   * are stripped: supplying any of them, with any value, does not change the outcome.
   */
  lemma {:induction false} OmittedColumnsStripped(m: map<string, Value>, k: string, v: Value)
    requires k in {"id", "userId", "reminderSent", "createdAt"}
    ensures ParseContentItem(Obj(m[k := v])) == ParseContentItem(Obj(m))
    ensures ParseContentItemPatch(Obj(m[k := v])) == ParseContentItemPatch(Obj(m))
  {
    assert k !in ContentItemSchema;
    UnknownKeyIgnored(ContentItemSchema, m, k, v, false);
    UnknownKeyIgnored(ContentItemSchema, m, k, v, true);
    ReadersIgnore(m, k, v, "title");
    ReadersIgnore(m, k, v, "description");
    ReadersIgnore(m, k, v, "platform");
    ReadersIgnore(m, k, v, "scheduledDate");
    ReadersIgnore(m, k, v, "status");
    ReadersIgnore(m, k, v, "templateId");
  }

  /** Reading key `f` does not see a write to another key. */
  lemma ReadersIgnore(m: map<string, Value>, k: string, v: Value, f: string)
    requires k != f
    ensures TextAt(m[k := v], f) == TextAt(m, f) && OptTextAt(m[k := v], f) == OptTextAt(m, f)
    ensures TextField(m[k := v], f) == TextField(m, f) && (f in m[k := v] <==> f in m)
  {
  }

  /** Exactly when an insert body is accepted, key by key. */
  predicate ItemBodyWellFormed(m: map<string, Value>)
  {
    && "title" in m && m["title"].Str?
    && ("description" in m ==> m["description"].Str? || m["description"].Null?)
    && "platform" in m && m["platform"].Str? && m["platform"].s in PlatformNames
    && "scheduledDate" in m && m["scheduledDate"].Str?
    && "status" in m && m["status"].Str? && m["status"].s in StatusNames
    && ("templateId" in m ==> m["templateId"].Str?)
  }

  lemma {:induction false} ItemAcceptedExactly(m: map<string, Value>)
    ensures ParseContentItem(Obj(m)).Ok? <==> ItemBodyWellFormed(m)
  {
    var issues := Issues(ContentItemSchema, Obj(m), false);
    if ItemBodyWellFormed(m) {
      forall p | p in issues ensures false {
        assert FieldOk(ContentItemSchema, m, p.name, false);
      }
      assert issues == {};
    } else {
      assert "title" in ContentItemSchema && "description" in ContentItemSchema && "platform" in ContentItemSchema;
      assert "scheduledDate" in ContentItemSchema && "status" in ContentItemSchema && "templateId" in ContentItemSchema;
      if !FieldOk(ContentItemSchema, m, "title", false) { assert Key("title") in issues; }
      else if !FieldOk(ContentItemSchema, m, "description", false) { assert Key("description") in issues; }
      else if !FieldOk(ContentItemSchema, m, "platform", false) { assert Key("platform") in issues; }
      else if !FieldOk(ContentItemSchema, m, "scheduledDate", false) { assert Key("scheduledDate") in issues; }
      else if !FieldOk(ContentItemSchema, m, "status", false) { assert Key("status") in issues; }
      else { assert Key("templateId") in issues; }
    }
  }

  /** Exactly when a template body is accepted, key by key. */
  predicate TemplateBodyWellFormed(m: map<string, Value>)
  {
    && "title" in m && m["title"].Str?
    && "description" in m && m["description"].Str?
    && "content" in m && m["content"].Str?
    && "platform" in m && m["platform"].Str?
    && "category" in m && m["category"].Str?
    && ("isPremium" in m ==> m["isPremium"].Bool? || m["isPremium"].Null?)
  }

  lemma {:induction false} TemplateAcceptedExactly(m: map<string, Value>)
    ensures ParseContentTemplate(Obj(m)).Ok? <==> TemplateBodyWellFormed(m)
  {
    var issues := Issues(ContentTemplateSchema, Obj(m), false);
    if TemplateBodyWellFormed(m) {
      forall p | p in issues ensures false {
        assert FieldOk(ContentTemplateSchema, m, p.name, false);
      }
      assert issues == {};
    } else {
      assert "title" in ContentTemplateSchema && "description" in ContentTemplateSchema;
      assert "content" in ContentTemplateSchema && "platform" in ContentTemplateSchema;
      assert "category" in ContentTemplateSchema && "isPremium" in ContentTemplateSchema;
      if !FieldOk(ContentTemplateSchema, m, "title", false) { assert Key("title") in issues; }
      else if !FieldOk(ContentTemplateSchema, m, "description", false) { assert Key("description") in issues; }
      else if !FieldOk(ContentTemplateSchema, m, "content", false) { assert Key("content") in issues; }
      else if !FieldOk(ContentTemplateSchema, m, "platform", false) { assert Key("platform") in issues; }
      else if !FieldOk(ContentTemplateSchema, m, "category", false) { assert Key("category") in issues; }
      else { assert Key("isPremium") in issues; }
    }
  }

  /** Status is required on insert: the enum at schema.ts:56 overrides the column default. */
  lemma StatusRequired(m: map<string, Value>)
    requires "status" !in m
    ensures ParseContentItem(Obj(m)).Err?
    ensures Key("status") in ParseContentItem(Obj(m)).error
  {
    assert "status" in ContentItemSchema && !FieldOk(ContentItemSchema, m, "status", false);
  }

  /** A null templateId is refused: `z.string().optional()` replaced the nullable column type. */
  lemma NullTemplateIdRefused(m: map<string, Value>)
    requires "templateId" in m && m["templateId"] == Null
    ensures ParseContentItem(Obj(m)).Err? && Key("templateId") in ParseContentItem(Obj(m)).error
    ensures ParseContentItemPatch(Obj(m)).Err? && Key("templateId") in ParseContentItemPatch(Obj(m)).error
  {
    assert "templateId" in ContentItemSchema && !FieldOk(ContentItemSchema, m, "templateId", false);
    assert !FieldOk(ContentItemSchema, m, "templateId", true);
  }

  /** The body a client sends for an item: optional columns that are null are left out. */
  function ItemBody(x: InsertContentItem): (v: Value)
    requires x.scheduledDate.Parsed?
  {
    var base := map[
      "title" := Str(x.title),
      "platform" := Str(PlatformName(x.platform)),
      "scheduledDate" := Str(x.scheduledDate.text),
      "status" := Str(StatusName(x.status))];
    var withDescription := if x.description.Some? then base["description" := Str(x.description.value)] else base;
    Obj(if x.templateId.Some? then withDescription["templateId" := Str(x.templateId.value)] else withDescription)
  }

  /** Every insert the schema can produce is recovered from the body that encodes it; an empty title included. */
  lemma {:induction false} ItemRoundTrip(x: InsertContentItem)
    requires x.scheduledDate.Parsed?
    ensures ParseContentItem(ItemBody(x)) == Ok(x)
  {
    var m := ItemBody(x).fields;
    assert ItemBodyWellFormed(m);
    ItemAcceptedExactly(m);
    var r := ParseContentItem(ItemBody(x)).value;
    assert ReadsAsItem(m, r);
    assert r.platform == x.platform by {
      assert PlatformOf(PlatformName(r.platform)) == Some(r.platform);
      assert PlatformOf(PlatformName(x.platform)) == Some(x.platform);
    }
    assert r.status == x.status by {
      assert StatusOf(StatusName(r.status)) == Some(r.status);
      assert StatusOf(StatusName(x.status)) == Some(x.status);
    }
  }

  /** No minimum length: an empty title is a valid insert. */
  lemma EmptyTitleAccepted()
    ensures ParseContentItem(Obj(map["title" := Str(""), "platform" := Str("blog"),
      "scheduledDate" := Str("2024-06-01T09:00"), "status" := Str("draft")])).Ok?
  {
    var x := InsertContentItem("", None, Blog, Parsed("2024-06-01T09:00"), Draft, None);
    ItemRoundTrip(x);
    assert ItemBody(x) == Obj(map["title" := Str(""), "platform" := Str("blog"),
      "scheduledDate" := Str("2024-06-01T09:00"), "status" := Str("draft")]);
  }

  /** A body accepted for insert is accepted for update as well, with every required key given. */
  lemma {:induction false} InsertBodyIsAPatch(body: Value)
    requires ParseContentItem(body).Ok?
    ensures ParseContentItemPatch(body).Ok?
    ensures var x, p := ParseContentItem(body).value, ParseContentItemPatch(body).value;
      p.title == Given(x.title) && p.platform == Given(x.platform) && p.scheduledDate == Given(x.scheduledDate)
      && p.status == Given(x.status)
  {
    ItemAcceptedExactly(body.fields);
    assert ItemBodyWellFormed(body.fields);
  }

  /**
   * As written, the reminder schema asks for a Date object at `scheduledFor`,
   * so no JSON body, whatever it holds, is ever accepted.
   */
  lemma {:induction false} ReminderSchemaRefusesJson(body: Value)
    requires IsJson(body)
    ensures ParseEmailReminder(body).Err?
    ensures body.Obj? ==> Key("scheduledFor") in ParseEmailReminder(body).error
  {
    if body.Obj? {
      var m := body.fields;
      assert "scheduledFor" in EmailReminderSchema;
      if "scheduledFor" in m {
        assert IsJson(m["scheduledFor"]);
      }
      assert !FieldOk(EmailReminderSchema, m, "scheduledFor", false);
    }
  }

  /** What the corrected reminder schema accepts, key by key. */
  lemma {:induction false} ReminderJsonAcceptedExactly(m: map<string, Value>)
    ensures ParseEmailReminderJson(Obj(m)).Ok? <==>
      && "scheduledFor" in m && m["scheduledFor"].Str?
      && ("contentItemId" in m ==> m["contentItemId"].Str? || m["contentItemId"].Null?)
      && ("userId" in m ==> m["userId"].Str? || m["userId"].Null?)
  {
    var issues := Issues(EmailReminderJsonSchema, Obj(m), false);
    assert "scheduledFor" in EmailReminderJsonSchema && "contentItemId" in EmailReminderJsonSchema;
    assert "userId" in EmailReminderJsonSchema;
    if issues == {} {
      assert FieldOk(EmailReminderJsonSchema, m, "scheduledFor", false);
      assert FieldOk(EmailReminderJsonSchema, m, "contentItemId", false);
      assert FieldOk(EmailReminderJsonSchema, m, "userId", false);
    } else {
      var p :| p in issues;
      assert !FieldOk(EmailReminderJsonSchema, m, p.name, false);
    }
  }

  /** `sent` is not part of the reminder input: a body that supplies it reads the same without it. */
  lemma SentStripped(m: map<string, Value>, v: Value)
    ensures ParseEmailReminder(Obj(m["sent" := v])) == ParseEmailReminder(Obj(m))
    ensures ParseEmailReminderJson(Obj(m["sent" := v])) == ParseEmailReminderJson(Obj(m))
  {
    assert "sent" !in EmailReminderSchema && "sent" !in EmailReminderJsonSchema;
    UnknownKeyIgnored(EmailReminderSchema, m, "sent", v, false);
    UnknownKeyIgnored(EmailReminderJsonSchema, m, "sent", v, false);
    var m' := m["sent" := v];
    assert OptTextAt(m', "contentItemId") == OptTextAt(m, "contentItemId");
    assert OptTextAt(m', "userId") == OptTextAt(m, "userId");
  }
}
