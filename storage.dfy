/**
 * The data-access layer (ContentCalendar/server/storage.ts): `DatabaseStorage`
 * over four tables, each an id-to-row map.  The database's guarantees that the
 * source relies on are kept: primary keys, the unique email of `users`, and the
 * foreign keys declared in ContentCalendar/shared/schema.ts (a statement that
 * would break one fails as a whole and changes nothing).
 */
module Storage {
  import opened Wrappers
  import opened Schema

  /** Why a statement was refused by the database. */
  /**
   * Why a statement fails: a broken constraint, or an update whose patch
   * sets no column, which the query builder refuses before sending it.
   */
  datatype DbError = ForeignKeyViolation(column: string) | UniqueViolation(column: string) | NoValuesToSet

  // ----- Fresh ids (a generated uuid is any id not yet in the table) -----

  ghost function MaxLength(ids: set<string>): (n: nat)
    ensures forall s :: s in ids ==> |s| <= n
    decreases |ids|
  {
    if ids == {} then 0
    else
      var x :| x in ids;
      var rest := MaxLength(ids - {x});
      if |x| > rest then |x| else rest
  }

  /** A finite table never uses up the ids. */
  lemma FreshIdExists(ids: set<string>)
    ensures exists s :: s !in ids
  {
    var s := seq(MaxLength(ids) + 1, _ => 'x');
    assert s !in ids;
  }

  // ----- select ... where -----

  /** `rows` is the result of selecting from `table` the rows that satisfy `keep`: each once, in some order. */
  ghost predicate Selected<T>(rows: seq<T>, table: map<string, T>, idOf: T -> string, keep: T -> bool)
  {
    && (forall i :: 0 <= i < |rows| ==> idOf(rows[i]) in table && table[idOf(rows[i])] == rows[i] && keep(rows[i]))
    && (forall i, j :: 0 <= i < j < |rows| ==> idOf(rows[i]) != idOf(rows[j]))
    && (forall k :: k in table && keep(table[k]) ==> table[k] in rows)
  }

  /** A table scan with a filter; SQL gives no order, so the rows come in whatever order the keys are visited. */
  method Select<T(==)>(table: map<string, T>, idOf: T -> string, keep: T -> bool) returns (rows: seq<T>)
    requires forall k :: k in table ==> idOf(table[k]) == k
    ensures Selected(rows, table, idOf, keep)
  {
    var rest := table.Keys;
    rows := [];
    while rest != {}
      invariant rest <= table.Keys
      invariant forall i :: 0 <= i < |rows| ==>
        idOf(rows[i]) in table.Keys - rest && table[idOf(rows[i])] == rows[i] && keep(rows[i])
      invariant forall i, j :: 0 <= i < j < |rows| ==> idOf(rows[i]) != idOf(rows[j])
      invariant forall k :: k in table.Keys - rest && keep(table[k]) ==> table[k] in rows
      decreases rest
    {
      var k :| k in rest;
      if keep(table[k]) {
        rows := rows + [table[k]];
      }
      rest := rest - {k};
    }
  }

  function UserId(u: User): string { u.id }
  function ItemId(it: ContentItem): string { it.id }
  function TemplateId(t: ContentTemplate): string { t.id }
  function ReminderId(r: EmailReminder): string { r.id }

  /** JavaScript truthiness of an optional string: present and not empty. */
  predicate Truthy(s: Option<string>)
  {
    s.Some? && s.value != ""
  }

  /** Whether `getAllContentItems(userId)` returns `item`: only the owner's when `userId` is truthy, else every item. */
  predicate ListedFor(userId: Option<string>, item: ContentItem)
  {
    Truthy(userId) ==> item.userId == userId
  }

  // ----- Table invariants kept by the database -----

  predicate KeysAreIds<T>(table: map<string, T>, idOf: T -> string)
  {
    forall k :: k in table ==> idOf(table[k]) == k
  }

  /** Some row other than `except` already holds `email`; NULL emails never clash. */
  predicate EmailTaken(users: map<string, User>, except: string, email: Option<string>)
  {
    email.Some? && exists k :: k in users && k != except && users[k].email == email
  }

  predicate EmailsUnique(users: map<string, User>)
  {
    forall k :: k in users ==> !EmailTaken(users, k, users[k].email)
  }

  /** Every non-null foreign key names an existing row. */
  predicate ReferencesResolve(users: map<string, User>, items: map<string, ContentItem>,
                              templates: map<string, ContentTemplate>, reminders: map<string, EmailReminder>)
  {
    && (forall k :: k in items && items[k].userId.Some? ==> items[k].userId.value in users)
    && (forall k :: k in items && items[k].templateId.Some? ==> items[k].templateId.value in templates)
    && (forall k :: k in reminders && reminders[k].contentItemId.Some? ==> reminders[k].contentItemId.value in items)
    && (forall k :: k in reminders && reminders[k].userId.Some? ==> reminders[k].userId.value in users)
  }

  /** What every write path leaves in the text and flag columns: closed names, reminderSent false, sent set. */
  predicate ColumnsWellFormed(items: map<string, ContentItem>, reminders: map<string, EmailReminder>)
  {
    && (forall k :: k in items ==> items[k].platform in PlatformNames && items[k].status in StatusNames)
    && (forall k :: k in items ==> items[k].reminderSent == Some(false))
    && (forall k :: k in reminders ==> reminders[k].sent.Some?)
  }

  /** A reminder refers to the item: deleting the item would break that reference. */
  predicate Referenced(reminders: map<string, EmailReminder>, itemId: string)
  {
    exists k :: k in reminders && reminders[k].contentItemId == Some(itemId)
  }

  /** No reminder that was sent is unsent or gone afterwards. */
  predicate SentKept(before: map<string, EmailReminder>, after: map<string, EmailReminder>)
  {
    forall k :: k in before && before[k].sent == Some(true) ==> k in after && after[k].sent == Some(true)
  }

  // ----- Row transitions -----

  /** `update users set stripe ids, subscriptionStatus = 'active', updatedAt = now`; an undefined id leaves its column. */
  function StripeActivated(row: User, customerId: Field<Option<string>>, subscriptionId: Field<Option<string>>, now: int): (r: User)
    ensures r.subscriptionStatus == Some("active")
    ensures r.stripeCustomerId == customerId.Or(row.stripeCustomerId)
    ensures r.stripeSubscriptionId == subscriptionId.Or(row.stripeSubscriptionId)
    ensures r.updatedAt == Some(Clock(now))
    ensures r.(stripeCustomerId := row.stripeCustomerId, stripeSubscriptionId := row.stripeSubscriptionId,
               subscriptionStatus := row.subscriptionStatus, updatedAt := row.updatedAt) == row
  {
    row.(stripeCustomerId := customerId.Or(row.stripeCustomerId),
         stripeSubscriptionId := subscriptionId.Or(row.stripeSubscriptionId),
         subscriptionStatus := Some("active"),
         updatedAt := Some(Clock(now)))
  }

  /** A patch that supplies no column at all. */
  predicate EmptyPatch(p: ContentItemPatch)
  {
    && p.title.Omitted? && p.description.Omitted? && p.platform.Omitted?
    && p.scheduledDate.Omitted? && p.status.Omitted? && p.templateId.Omitted?
  }

  /** `update content_items set <patch>`: the supplied columns take the new values. */
  function Patched(row: ContentItem, p: ContentItemPatch): (r: ContentItem)
    ensures r.id == row.id && r.userId == row.userId
    ensures r.reminderSent == row.reminderSent && r.createdAt == row.createdAt
    ensures p.title.Omitted? ==> r.title == row.title
    ensures p.title.Given? ==> r.title == p.title.value
    ensures p.description.Omitted? ==> r.description == row.description
    ensures p.description.Given? ==> r.description == p.description.value
    ensures p.platform.Omitted? ==> r.platform == row.platform
    ensures p.platform.Given? ==> PlatformOf(r.platform) == Some(p.platform.value)
    ensures p.scheduledDate.Omitted? ==> r.scheduledDate == row.scheduledDate
    ensures p.scheduledDate.Given? ==> r.scheduledDate == p.scheduledDate.value
    ensures p.status.Omitted? ==> r.status == row.status
    ensures p.status.Given? ==> StatusOf(r.status) == Some(p.status.value)
    ensures p.templateId.Omitted? ==> r.templateId == row.templateId
    ensures p.templateId.Given? ==> r.templateId == Some(p.templateId.value)
  {
    row.(title := p.title.Or(row.title),
         description := p.description.Or(row.description),
         platform := if p.platform.Given? then PlatformName(p.platform.value) else row.platform,
         scheduledDate := p.scheduledDate.Or(row.scheduledDate),
         status := if p.status.Given? then StatusName(p.status.value) else row.status,
         templateId := if p.templateId.Given? then Some(p.templateId.value) else row.templateId)
  }

  /** `update email_reminders set sent = true where id = ...`. */
  function MarkSent(reminders: map<string, EmailReminder>, id: string): (r: map<string, EmailReminder>)
    ensures r.Keys == reminders.Keys
    ensures id in r ==> r[id].sent == Some(true)
    ensures id in r ==> r[id] == reminders[id].(sent := Some(true))
    ensures forall k :: k in r && k != id ==> r[k] == reminders[k]
  {
    if id in reminders then reminders[id := reminders[id].(sent := Some(true))] else reminders
  }

  class DatabaseStorage {
    var users: map<string, User>
    var contentItems: map<string, ContentItem>
    var contentTemplates: map<string, ContentTemplate>
    var emailReminders: map<string, EmailReminder>

    ghost predicate Valid()
      reads this
    {
      && KeysAreIds(users, UserId) && KeysAreIds(contentItems, ItemId)
      && KeysAreIds(contentTemplates, TemplateId) && KeysAreIds(emailReminders, ReminderId)
      && EmailsUnique(users)
      && ReferencesResolve(users, contentItems, contentTemplates, emailReminders)
      && ColumnsWellFormed(contentItems, emailReminders)
    }

    constructor ()
      ensures Valid()
      ensures users == map[] && contentItems == map[] && contentTemplates == map[] && emailReminders == map[]
    {
      users, contentItems, contentTemplates, emailReminders := map[], map[], map[], map[];
    }

    // ----- users -----

    method GetUser(id: string) returns (r: Option<User>)
      requires Valid()
      ensures r.Some? <==> id in users
      ensures r.Some? ==> r.value == users[id] && r.value.id == id
    {
      r := Get(users, id);
    }

    /**
     * Insert, or on a clash of id overwrite the supplied columns and refresh
     * updatedAt.  A missing id is generated.  An email held by another user
     * makes the statement fail.
     */
    method UpsertUser(u: UpsertUser, now: int) returns (r: Result<User, DbError>)
      requires Valid()
      modifies this
      ensures Valid()
      ensures contentItems == old(contentItems) && contentTemplates == old(contentTemplates)
      ensures emailReminders == old(emailReminders)
      ensures r.Ok? ==> users == old(users)[r.value.id := r.value]
      ensures r.Ok? && u.id.Given? ==> r.value.id == u.id.value
      ensures r.Ok? && u.id.Omitted? ==> r.value.id !in old(users)
      ensures r.Ok? ==> r.value == if r.value.id in old(users) then MergeUser(old(users)[r.value.id], u, now)
                                   else NewUser(r.value.id, u, now)
      ensures r.Err? ==> users == old(users) && r.error == UniqueViolation("users.email")
      ensures u.id.Given? ==> (r.Err? <==> EmailTaken(old(users), u.id.value,
                                 if u.id.value in old(users) then MergeUser(old(users)[u.id.value], u, now).email
                                 else NewUser(u.id.value, u, now).email))
      ensures u.id.Omitted? ==> (r.Err? <==> (u.email.Given? && u.email.value.Some? &&
                                               exists k :: k in old(users) && old(users)[k].email == u.email.value))
    {
      var id: string;
      if u.id.Given? {
        id := u.id.value;
      } else {
        FreshIdExists(users.Keys);
        id :| id !in users;
      }
      var row := if id in users then MergeUser(users[id], u, now) else NewUser(id, u, now);
      if EmailTaken(users, id, row.email) {
        r := Err(UniqueViolation("users.email"));
      } else {
        users := users[id := row];
        r := Ok(row);
      }
    }

    /** Activate a subscription: status 'active' and both provider ids; an unknown user is not found. */
    method UpdateUserStripeInfo(userId: string, customerId: Field<Option<string>>,
                                subscriptionId: Field<Option<string>>, now: int) returns (r: Option<User>)
      requires Valid()
      modifies this
      ensures Valid()
      ensures contentItems == old(contentItems) && contentTemplates == old(contentTemplates)
      ensures emailReminders == old(emailReminders)
      ensures userId !in old(users) ==> r.None? && users == old(users)
      ensures userId in old(users) ==>
        && r == Some(StripeActivated(old(users)[userId], customerId, subscriptionId, now))
        && users == old(users)[userId := r.value]
    {
      if userId in users {
        var row := StripeActivated(users[userId], customerId, subscriptionId, now);
        users := users[userId := row];
        r := Some(row);
      } else {
        r := None;
      }
    }

    // ----- content items -----

    method GetAllContentItems(userId: Option<string>) returns (items: seq<ContentItem>)
      requires Valid()
      ensures forall i :: 0 <= i < |items| ==>
        items[i].id in contentItems && contentItems[items[i].id] == items[i] && ListedFor(userId, items[i])
      ensures forall i, j :: 0 <= i < j < |items| ==> items[i].id != items[j].id
      ensures forall k :: k in contentItems && ListedFor(userId, contentItems[k]) ==> contentItems[k] in items
    {
      items := Select(contentItems, ItemId, (it: ContentItem) => ListedFor(userId, it));
    }

    method GetContentItem(id: string) returns (r: Option<ContentItem>)
      requires Valid()
      ensures r.Some? <==> id in contentItems
      ensures r.Some? ==> r.value == contentItems[id] && r.value.id == id
    {
      r := Get(contentItems, id);
    }

    /** Insert a validated item for `userId` under a fresh id; a dangling user or template id fails. */
    method CreateContentItem(x: InsertContentItem, userId: string, now: int) returns (r: Result<ContentItem, DbError>)
      requires Valid()
      modifies this
      ensures Valid()
      ensures users == old(users) && contentTemplates == old(contentTemplates) && emailReminders == old(emailReminders)
      ensures r.Err? <==> userId !in users || (x.templateId.Some? && x.templateId.value !in contentTemplates)
      ensures r.Err? ==> r.error.ForeignKeyViolation? && contentItems == old(contentItems)
      ensures r.Ok? ==> && r.value.id !in old(contentItems)
                        && r.value == NewContentItem(r.value.id, userId, x, now)
                        && contentItems == old(contentItems)[r.value.id := r.value]
    {
      if userId !in users {
        r := Err(ForeignKeyViolation("content_items.user_id"));
      } else if x.templateId.Some? && x.templateId.value !in contentTemplates {
        r := Err(ForeignKeyViolation("content_items.template_id"));
      } else {
        FreshIdExists(contentItems.Keys);
        var id :| id !in contentItems;
        var row := NewContentItem(id, userId, x, now);
        contentItems := contentItems[id := row];
        r := Ok(row);
      }
    }

    /**
     * Update the supplied columns of one row.  A patch that supplies nothing
     * is refused before any row is looked at; an unknown id matches no row
     * and is not an error.
     */
    method UpdateContentItem(id: string, p: ContentItemPatch) returns (r: Result<Option<ContentItem>, DbError>)
      requires Valid()
      modifies this
      ensures Valid()
      ensures users == old(users) && contentTemplates == old(contentTemplates) && emailReminders == old(emailReminders)
      ensures EmptyPatch(p) ==> r == Err(NoValuesToSet) && contentItems == old(contentItems)
      ensures !EmptyPatch(p) && id !in old(contentItems) ==> r == Ok(None) && contentItems == old(contentItems)
      ensures !EmptyPatch(p) && id in old(contentItems) && p.templateId.Given? && p.templateId.value !in contentTemplates ==>
        r == Err(ForeignKeyViolation("content_items.template_id")) && contentItems == old(contentItems)
      ensures !EmptyPatch(p) && id in old(contentItems) && !(p.templateId.Given? && p.templateId.value !in contentTemplates) ==>
        && r == Ok(Some(Patched(old(contentItems)[id], p)))
        && contentItems == old(contentItems)[id := Patched(old(contentItems)[id], p)]
    {
      if EmptyPatch(p) {
        r := Err(NoValuesToSet);
      } else if id !in contentItems {
        r := Ok(None);
      } else if p.templateId.Given? && p.templateId.value !in contentTemplates {
        r := Err(ForeignKeyViolation("content_items.template_id"));
      } else {
        var row := Patched(contentItems[id], p);
        contentItems := contentItems[id := row];
        r := Ok(Some(row));
      }
    }

    /** Delete one row; `rowCount > 0` says whether it existed.  A reminder still pointing at it makes the delete fail. */
    method DeleteContentItem(id: string) returns (r: Result<bool, DbError>)
      requires Valid()
      modifies this
      ensures Valid()
      ensures users == old(users) && contentTemplates == old(contentTemplates) && emailReminders == old(emailReminders)
      ensures id in old(contentItems) && Referenced(emailReminders, id) ==>
        r == Err(ForeignKeyViolation("email_reminders.content_item_id")) && contentItems == old(contentItems)
      ensures !(id in old(contentItems) && Referenced(emailReminders, id)) ==>
        r == Ok(id in old(contentItems)) && contentItems == old(contentItems) - {id}
      ensures r.Ok? ==> id !in contentItems
    {
      if id in contentItems && Referenced(emailReminders, id) {
        r := Err(ForeignKeyViolation("email_reminders.content_item_id"));
      } else {
        r := Ok(id in contentItems);
        contentItems := contentItems - {id};
      }
    }

    // ----- templates -----

    method GetAllContentTemplates() returns (templates: seq<ContentTemplate>)
      requires Valid()
      ensures Selected(templates, contentTemplates, TemplateId, (t: ContentTemplate) => true)
      ensures forall k :: k in contentTemplates ==> contentTemplates[k] in templates
      ensures forall i :: 0 <= i < |templates| ==> templates[i].id in contentTemplates
    {
      templates := Select(contentTemplates, TemplateId, (t: ContentTemplate) => true);
    }

    method GetContentTemplate(id: string) returns (r: Option<ContentTemplate>)
      requires Valid()
      ensures r.Some? <==> id in contentTemplates
      ensures r.Some? ==> r.value == contentTemplates[id] && r.value.id == id
    {
      r := Get(contentTemplates, id);
    }

    method CreateContentTemplate(x: InsertContentTemplate, now: int) returns (t: ContentTemplate)
      requires Valid()
      modifies this
      ensures Valid()
      ensures users == old(users) && contentItems == old(contentItems) && emailReminders == old(emailReminders)
      ensures t.id !in old(contentTemplates) && t == NewContentTemplate(t.id, x, now)
      ensures contentTemplates == old(contentTemplates)[t.id := t]
    {
      FreshIdExists(contentTemplates.Keys);
      var id :| id !in contentTemplates;
      t := NewContentTemplate(id, x, now);
      contentTemplates := contentTemplates[id := t];
    }

    // ----- email reminders -----

    /** Insert a reminder, unsent, under a fresh id; a dangling item or user id fails. */
    method CreateEmailReminder(x: InsertEmailReminder, now: int) returns (r: Result<EmailReminder, DbError>)
      requires Valid()
      modifies this
      ensures Valid()
      ensures users == old(users) && contentItems == old(contentItems) && contentTemplates == old(contentTemplates)
      ensures r.Err? <==> (x.contentItemId.Some? && x.contentItemId.value !in contentItems)
                          || (x.userId.Some? && x.userId.value !in users)
      ensures r.Err? ==> r.error.ForeignKeyViolation? && emailReminders == old(emailReminders)
      ensures r.Ok? ==> && r.value.id !in old(emailReminders)
                        && r.value == NewEmailReminder(r.value.id, x, now)
                        && r.value.sent == Some(false)
                        && emailReminders == old(emailReminders)[r.value.id := r.value]
      ensures SentKept(old(emailReminders), emailReminders)
    {
      if x.contentItemId.Some? && x.contentItemId.value !in contentItems {
        r := Err(ForeignKeyViolation("email_reminders.content_item_id"));
      } else if x.userId.Some? && x.userId.value !in users {
        r := Err(ForeignKeyViolation("email_reminders.user_id"));
      } else {
        FreshIdExists(emailReminders.Keys);
        var id :| id !in emailReminders;
        var row := NewEmailReminder(id, x, now);
        emailReminders := emailReminders[id := row];
        r := Ok(row);
      }
    }

    /** Every reminder whose `sent` is false; `scheduledFor` plays no part. */
    method GetPendingReminders() returns (pending: seq<EmailReminder>)
      requires Valid()
      ensures forall i :: 0 <= i < |pending| ==>
        pending[i].id in emailReminders && emailReminders[pending[i].id] == pending[i] && pending[i].sent == Some(false)
      ensures forall i, j :: 0 <= i < j < |pending| ==> pending[i].id != pending[j].id
      ensures forall k :: k in emailReminders && emailReminders[k].sent == Some(false) ==> emailReminders[k] in pending
    {
      pending := Select(emailReminders, ReminderId, (rm: EmailReminder) => rm.sent == Some(false));
    }

    method MarkReminderAsSent(id: string)
      requires Valid()
      modifies this
      ensures Valid()
      ensures users == old(users) && contentItems == old(contentItems) && contentTemplates == old(contentTemplates)
      ensures emailReminders == MarkSent(old(emailReminders), id)
      ensures SentKept(old(emailReminders), emailReminders)
    {
      emailReminders := MarkSent(emailReminders, id);
    }
  }

  /** Marking twice is marking once. */
  lemma MarkSentIdempotent(reminders: map<string, EmailReminder>, id: string)
    ensures MarkSent(MarkSent(reminders, id), id) == MarkSent(reminders, id)
  {
  }

  /** A patch applied twice is the patch applied once. */
  lemma PatchIdempotent(row: ContentItem, p: ContentItemPatch)
    ensures Patched(Patched(row, p), p) == Patched(row, p)
  {
  }

  /** A second delete of the same id reports that nothing was there. */
  method DeleteTwice(db: DatabaseStorage, id: string) returns (first: Result<bool, DbError>, second: Result<bool, DbError>)
    requires db.Valid()
    modifies db
    ensures db.Valid()
    ensures first.Ok? ==> second == Ok(false)
    ensures first.Err? ==> second == first
  {
    first := db.DeleteContentItem(id);
    second := db.DeleteContentItem(id);
  }
}
