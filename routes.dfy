/**
 * The request handlers of server/routes.ts that hold logic: validate the
 * body, call the store, map the store's answer to a status code and a JSON
 * body.  Authentication is an input: `sessionUser` is the `sub` claim of a
 * request that passed `isAuthenticated`, and `GET /api/content`, which does
 * not require a session, takes the claim as an Option.
 *
 * A statement the database refuses (a broken foreign key or unique email)
 * is what the handlers' `catch` turns into a 500 here.
 */
module Routes {
  import opened Wrappers
  import opened Schema
  import opened Storage
  import opened EmailService
  import opened CsvExport

  /** The JSON (or file) a handler sends. */
  datatype Payload =
    | Message(text: string)                 // { message }
    | Invalid(errors: set<Path>)            // { message: "Validation error", errors }
    | UserJson(user: Option<User>)          // res.json(user), undefined when there is no row
    | TemplateList(templates: seq<ContentTemplate>)
    | TemplateJson(template: ContentTemplate)
    | ItemList(items: seq<ContentItem>)
    | ItemJson(item: ContentItem)
    | ReminderJson(reminder: EmailReminder)
    | CsvAttachment(fileName: string, text: string)

  datatype Response = Response(status: int, payload: Payload)

  const ValidationMessage: string := "Validation error"
  const CsvFileName: string := "content-calendar.csv"

  // ----- GET /api/auth/user (routes.ts:15-24) -----

  method GetAuthUser(db: DatabaseStorage, sessionUser: string) returns (res: Response)
    requires db.Valid()
    ensures res.status == 200
    ensures res.payload == UserJson(if sessionUser in db.users then Some(db.users[sessionUser]) else None)
  {
    var user := db.GetUser(sessionUser);
    res := Response(200, UserJson(user));
  }

  // ----- POST /api/subscription/activate (routes.ts:40-54) -----

  /**
   * `const { paypalOrderId } = req.body`: absent (or a body that is not an
   * object) is undefined, which leaves the columns alone; null writes NULL; a
   * string is written as it is, and any other value as the driver prints it.
   */
  function OrderIdField(body: Value, driverText: Value -> string): (f: Field<Option<string>>)
    ensures !(body.Obj? && "paypalOrderId" in body.fields) ==> f.Omitted?
    ensures body.Obj? && "paypalOrderId" in body.fields && body.fields["paypalOrderId"].Str? ==>
      f == Given(Some(body.fields["paypalOrderId"].s))
    ensures body.Obj? && "paypalOrderId" in body.fields && body.fields["paypalOrderId"].Null? ==> f == Given(None)
  {
    if body.Obj? && "paypalOrderId" in body.fields then
      match body.fields["paypalOrderId"]
      case Str(s) => Given(Some(s))
      case Null => Given(None)
      case v => Given(Some(driverText(v)))
    else Omitted
  }

  /** Activation trusts the caller: no payment is checked, and it answers 200 even when no row matched. */
  method ActivateSubscription(db: DatabaseStorage, sessionUser: string, body: Value, now: int,
                              driverText: Value -> string) returns (res: Response)
    requires db.Valid()
    modifies db
    ensures db.Valid()
    ensures res == Response(200, Message("Subscription activated successfully"))
    ensures db.contentItems == old(db.contentItems) && db.contentTemplates == old(db.contentTemplates)
    ensures db.emailReminders == old(db.emailReminders)
    ensures sessionUser in old(db.users) ==>
      var orderId := OrderIdField(body, driverText);
      db.users == old(db.users)[sessionUser := StripeActivated(old(db.users)[sessionUser], orderId, orderId, now)]
    ensures sessionUser !in old(db.users) ==> db.users == old(db.users)
  {
    var orderId := OrderIdField(body, driverText);
    var _ := db.UpdateUserStripeInfo(sessionUser, orderId, orderId, now);
    res := Response(200, Message("Subscription activated successfully"));
  }

  // ----- Templates (routes.ts:57-76) -----

  method GetTemplates(db: DatabaseStorage) returns (res: Response)
    requires db.Valid()
    ensures res.status == 200 && res.payload.TemplateList?
    ensures Selected(res.payload.templates, db.contentTemplates, TemplateId, (t: ContentTemplate) => true)
  {
    var templates := db.GetAllContentTemplates();
    res := Response(200, TemplateList(templates));
  }

  method GetTemplate(db: DatabaseStorage, id: string) returns (res: Response)
    requires db.Valid()
    ensures res.status == 404 <==> id !in db.contentTemplates
    ensures res.status == 404 ==> res.payload == Message("Template not found")
    ensures res.status != 404 ==> res == Response(200, TemplateJson(db.contentTemplates[id]))
  {
    var template := db.GetContentTemplate(id);
    if template.None? {
      res := Response(404, Message("Template not found"));
    } else {
      res := Response(200, TemplateJson(template.value));
    }
  }

  // ----- Content items (routes.ts:79-151) -----

  /** Signed in, the caller's items; otherwise every item. */
  method ListContent(db: DatabaseStorage, session: Option<string>) returns (res: Response)
    requires db.Valid()
    ensures res.status == 200 && res.payload.ItemList?
    ensures forall i :: 0 <= i < |res.payload.items| ==>
      res.payload.items[i].id in db.contentItems && db.contentItems[res.payload.items[i].id] == res.payload.items[i]
    ensures Truthy(session) ==> forall i :: 0 <= i < |res.payload.items| ==> res.payload.items[i].userId == session
    ensures forall k :: k in db.contentItems && ListedFor(session, db.contentItems[k]) ==>
      db.contentItems[k] in res.payload.items
  {
    var items := db.GetAllContentItems(session);
    res := Response(200, ItemList(items));
  }

  method GetContent(db: DatabaseStorage, id: string) returns (res: Response)
    requires db.Valid()
    ensures res.status == 404 <==> id !in db.contentItems
    ensures res.status == 404 ==> res.payload == Message("Content item not found")
    ensures res.status != 404 ==> res == Response(200, ItemJson(db.contentItems[id]))
  {
    var item := db.GetContentItem(id);
    if item.None? {
      res := Response(404, Message("Content item not found"));
    } else {
      res := Response(200, ItemJson(item.value));
    }
  }

  /** Validate first; only an accepted body reaches the store, stamped with the session user. */
  method CreateContent(db: DatabaseStorage, sessionUser: string, body: Value, now: int) returns (res: Response)
    requires db.Valid()
    modifies db
    ensures db.Valid()
    ensures db.users == old(db.users) && db.contentTemplates == old(db.contentTemplates)
    ensures db.emailReminders == old(db.emailReminders)
    ensures res.status in {201, 400, 500}
    ensures res.status == 400 <==> Issues(ContentItemSchema, body, false) != {}
    ensures res.status == 400 ==> res.payload == Invalid(Issues(ContentItemSchema, body, false))
    ensures res.status != 201 ==> db.contentItems == old(db.contentItems)
    ensures res.status == 500 ==> res.payload == Message("Failed to create content item")
    ensures res.status == 500 <==>
      && ParseContentItem(body).Ok?
      && (|| sessionUser !in old(db.users)
          || (&& ParseContentItem(body).value.templateId.Some?
              && ParseContentItem(body).value.templateId.value !in old(db.contentTemplates)))
    ensures res.status == 201 ==>
      && ParseContentItem(body).Ok?
      && res.payload.ItemJson?
      && res.payload.item == NewContentItem(res.payload.item.id, sessionUser, ParseContentItem(body).value, now)
      && res.payload.item.userId == Some(sessionUser)
      && res.payload.item.id !in old(db.contentItems)
      && db.contentItems == old(db.contentItems)[res.payload.item.id := res.payload.item]
  {
    var parsed := ParseContentItem(body);
    if parsed.Err? {
      res := Response(400, Invalid(parsed.error));
    } else {
      var created := db.CreateContentItem(parsed.value, sessionUser, now);
      if created.Err? {
        res := Response(500, Message("Failed to create content item"));
      } else {
        res := Response(201, ItemJson(created.value));
      }
    }
  }

  /** Validate the patch; a patch that sets nothing is 500, an unknown id 404, and neither changes anything. */
  method UpdateContent(db: DatabaseStorage, id: string, body: Value) returns (res: Response)
    requires db.Valid()
    modifies db
    ensures db.Valid()
    ensures db.users == old(db.users) && db.contentTemplates == old(db.contentTemplates)
    ensures db.emailReminders == old(db.emailReminders)
    ensures res.status in {200, 400, 404, 500}
    ensures res.status == 400 <==> Issues(ContentItemSchema, body, true) != {}
    ensures res.status == 400 ==> res.payload == Invalid(Issues(ContentItemSchema, body, true))
    ensures res.status == 404 <==>
      ParseContentItemPatch(body).Ok? && !EmptyPatch(ParseContentItemPatch(body).value) && id !in old(db.contentItems)
    ensures res.status == 500 <==>
      && ParseContentItemPatch(body).Ok?
      && (|| EmptyPatch(ParseContentItemPatch(body).value)
          || (&& id in old(db.contentItems)
              && ParseContentItemPatch(body).value.templateId.Given?
              && ParseContentItemPatch(body).value.templateId.value !in old(db.contentTemplates)))
    ensures res.status == 404 ==> res.payload == Message("Content item not found")
    ensures res.status == 500 ==> res.payload == Message("Failed to update content item")
    ensures res.status != 200 ==> db.contentItems == old(db.contentItems)
    ensures res.status == 200 ==>
      && ParseContentItemPatch(body).Ok? && id in old(db.contentItems)
      && res.payload == ItemJson(Patched(old(db.contentItems)[id], ParseContentItemPatch(body).value))
      && db.contentItems == old(db.contentItems)[id := res.payload.item]
  {
    var parsed := ParseContentItemPatch(body);
    if parsed.Err? {
      res := Response(400, Invalid(parsed.error));
    } else {
      var updated := db.UpdateContentItem(id, parsed.value);
      if updated.Err? {
        res := Response(500, Message("Failed to update content item"));
      } else if updated.value.None? {
        res := Response(404, Message("Content item not found"));
      } else {
        res := Response(200, ItemJson(updated.value.value));
      }
    }
  }

  /** 404 exactly when the store reports that no row was deleted. */
  method DeleteContent(db: DatabaseStorage, id: string) returns (res: Response)
    requires db.Valid()
    modifies db
    ensures db.Valid()
    ensures db.users == old(db.users) && db.contentTemplates == old(db.contentTemplates)
    ensures db.emailReminders == old(db.emailReminders)
    ensures res.status == 404 <==> id !in old(db.contentItems)
    ensures res.status == 404 ==> res.payload == Message("Content item not found")
    ensures res.status == 200 <==> id in old(db.contentItems) && !Referenced(db.emailReminders, id)
    ensures res.status == 200 ==> res.payload == Message("Content item deleted successfully")
    ensures res.status == 500 <==> id in old(db.contentItems) && Referenced(db.emailReminders, id)
    ensures res.status == 500 ==> res.payload == Message("Failed to delete content item")
    ensures res.status == 500 ==> db.contentItems == old(db.contentItems)
    ensures res.status != 500 ==> db.contentItems == old(db.contentItems) - {id}
  {
    var deleted := db.DeleteContentItem(id);
    if deleted.Err? {
      res := Response(500, Message("Failed to delete content item"));
    } else if !deleted.value {
      res := Response(404, Message("Content item not found"));
    } else {
      res := Response(200, Message("Content item deleted successfully"));
    }
  }

  // ----- POST /api/reminders (routes.ts:154-169) -----

  /**
   * `{ ...req.body, userId }`: the body's own keys, then the session user
   * under `userId`.  Spreading a value that is not an object contributes no
   * key any validator here looks at, so it is taken as no key at all.
   */
  function WithSessionUser(body: Value, sessionUser: string): (m: map<string, Value>)
    ensures "userId" in m && m["userId"] == Str(sessionUser)
    ensures body.Obj? ==> forall k :: k in body.fields && k != "userId" ==> k in m && m[k] == body.fields[k]
    ensures forall k :: k in m && k != "userId" ==> body.Obj? && k in body.fields
  {
    (if body.Obj? then body.fields else map[])["userId" := Str(sessionUser)]
  }

  /** A JSON body stays JSON once the session user is added. */
  lemma WithSessionUserIsJson(body: Value, sessionUser: string)
    requires IsJson(body)
    ensures IsJson(Obj(WithSessionUser(body, sessionUser)))
  {
  }

  /** The handler as written: the body is checked against `insertEmailReminderSchema`, whose `scheduledFor` wants a Date. */
  method CreateReminder(db: DatabaseStorage, sessionUser: string, body: Value, now: int) returns (res: Response)
    requires db.Valid()
    modifies db
    ensures db.Valid()
    ensures db.users == old(db.users) && db.contentItems == old(db.contentItems)
    ensures db.contentTemplates == old(db.contentTemplates)
    ensures var issues := Issues(EmailReminderSchema, Obj(WithSessionUser(body, sessionUser)), false);
      (res.status == 400 <==> issues != {}) && (res.status == 400 ==> res.payload == Invalid(issues))
    ensures res.status in {201, 400, 500}
    ensures res.status != 201 ==> db.emailReminders == old(db.emailReminders)
    ensures res.status == 500 ==> res.payload == Message("Failed to create reminder")
    ensures var p := ParseEmailReminder(Obj(WithSessionUser(body, sessionUser)));
      res.status == 500 <==>
        && p.Ok?
        && (|| (p.value.contentItemId.Some? && p.value.contentItemId.value !in old(db.contentItems))
            || (p.value.userId.Some? && p.value.userId.value !in old(db.users)))
    ensures res.status == 201 ==>
      && ParseEmailReminder(Obj(WithSessionUser(body, sessionUser))).Ok?
      && res.payload.ReminderJson?
      && res.payload.reminder
         == NewEmailReminder(res.payload.reminder.id, ParseEmailReminder(Obj(WithSessionUser(body, sessionUser))).value, now)
      && res.payload.reminder.userId == Some(sessionUser)
      && res.payload.reminder.sent == Some(false)
      && res.payload.reminder.id !in old(db.emailReminders)
      && db.emailReminders == old(db.emailReminders)[res.payload.reminder.id := res.payload.reminder]
  {
    var parsed := ParseEmailReminder(Obj(WithSessionUser(body, sessionUser)));
    if parsed.Err? {
      res := Response(400, Invalid(parsed.error));
    } else {
      var created := db.CreateEmailReminder(parsed.value, now);
      if created.Err? {
        res := Response(500, Message("Failed to create reminder"));
      } else {
        res := Response(201, ReminderJson(created.value));
      }
    }
  }

  /** As written, no JSON request can create a reminder: every one is answered 400, naming `scheduledFor`. */
  method CreateReminderRefusesJson(db: DatabaseStorage, sessionUser: string, body: Value, now: int)
    returns (res: Response)
    requires db.Valid()
    requires IsJson(body)
    modifies db
    ensures res.status == 400 && res.payload.Invalid? && Key("scheduledFor") in res.payload.errors
    ensures db.emailReminders == old(db.emailReminders)
  {
    WithSessionUserIsJson(body, sessionUser);
    ReminderSchemaRefusesJson(Obj(WithSessionUser(body, sessionUser)));
    res := CreateReminder(db, sessionUser, body, now);
  }

  /** The handler with `scheduledFor` read from the string a JSON body carries. */
  method CreateReminderFromJson(db: DatabaseStorage, sessionUser: string, body: Value, now: int) returns (res: Response)
    requires db.Valid()
    modifies db
    ensures db.Valid()
    ensures db.users == old(db.users) && db.contentItems == old(db.contentItems)
    ensures db.contentTemplates == old(db.contentTemplates)
    ensures var issues := Issues(EmailReminderJsonSchema, Obj(WithSessionUser(body, sessionUser)), false);
      (res.status == 400 <==> issues != {}) && (res.status == 400 ==> res.payload == Invalid(issues))
    ensures res.status in {201, 400, 500}
    ensures res.status != 201 ==> db.emailReminders == old(db.emailReminders)
    ensures res.status == 500 ==> res.payload == Message("Failed to create reminder")
    ensures var p := ParseEmailReminderJson(Obj(WithSessionUser(body, sessionUser)));
      res.status == 500 <==>
        && p.Ok?
        && (|| (p.value.contentItemId.Some? && p.value.contentItemId.value !in old(db.contentItems))
            || (p.value.userId.Some? && p.value.userId.value !in old(db.users)))
    ensures res.status == 201 ==>
      && ParseEmailReminderJson(Obj(WithSessionUser(body, sessionUser))).Ok?
      && res.payload.ReminderJson?
      && res.payload.reminder
         == NewEmailReminder(res.payload.reminder.id, ParseEmailReminderJson(Obj(WithSessionUser(body, sessionUser))).value, now)
      && res.payload.reminder.userId == Some(sessionUser)
      && body.Obj? && "scheduledFor" in body.fields && body.fields["scheduledFor"].Str?
      && res.payload.reminder.scheduledFor == Parsed(body.fields["scheduledFor"].s)
      && res.payload.reminder.sent == Some(false)
      && res.payload.reminder.id !in old(db.emailReminders)
      && db.emailReminders == old(db.emailReminders)[res.payload.reminder.id := res.payload.reminder]
  {
    var parsed := ParseEmailReminderJson(Obj(WithSessionUser(body, sessionUser)));
    if parsed.Err? {
      res := Response(400, Invalid(parsed.error));
    } else {
      var created := db.CreateEmailReminder(parsed.value, now);
      if created.Err? {
        res := Response(500, Message("Failed to create reminder"));
      } else {
        res := Response(201, ReminderJson(created.value));
      }
    }
  }

  // ----- GET /api/export/csv (routes.ts:172-189) -----

  /** The caller's items as a CSV attachment; `items` is the order the store returned them in. */
  method ExportCsv(db: DatabaseStorage, sessionUser: string, dateString: Date -> string)
    returns (res: Response, items: seq<ContentItem>)
    requires db.Valid()
    ensures res == Response(200, CsvAttachment(CsvFileName, Csv(items, dateString)))
    ensures forall i :: 0 <= i < |items| ==>
      items[i].id in db.contentItems && db.contentItems[items[i].id] == items[i] && ListedFor(Some(sessionUser), items[i])
    ensures forall i, j :: 0 <= i < j < |items| ==> items[i].id != items[j].id
    ensures forall k :: k in db.contentItems && ListedFor(Some(sessionUser), db.contentItems[k]) ==>
      db.contentItems[k] in items
  {
    items := db.GetAllContentItems(Some(sessionUser));
    res := Response(200, CsvAttachment(CsvFileName, Csv(items, dateString)));
  }

  // ----- POST /api/test-reminder (routes.ts:192-214) -----

  const TestTitle: string := "Test Content"
  const TestPlatform: string := "social"

  /** The caller's email when they have a row with a non-empty one: `user?.email` is truthy. */
  function EmailOf(users: map<string, User>, id: string): (r: Option<string>)
    ensures r.Some? <==> id in users && users[id].email.Some? && users[id].email.value != ""
    ensures r.Some? ==> r == users[id].email
  {
    if id in users && users[id].email.Some? && users[id].email.value != "" then users[id].email else None
  }

  /**
   * No email: 400 and nothing sent.  Otherwise one reminder for a "Test
   * Content" item on "social" dated now, whatever the caller's subscription,
   * and 200 exactly when the send went through.
   */
  method TestReminder(db: DatabaseStorage, mail: MailService, sessionUser: string, now: int,
                      localeDate: Date -> string) returns (res: Response)
    requires db.Valid()
    modifies mail
    ensures EmailOf(db.users, sessionUser).None? ==>
      res == Response(400, Message("User email not found")) && mail.attempts == old(mail.attempts)
    ensures EmailOf(db.users, sessionUser).Some? ==>
      var m := ReminderMessage(EmailOf(db.users, sessionUser).value, TestTitle, Clock(now), TestPlatform, localeDate);
      && mail.attempts == old(mail.attempts) + [Attempt(m, res.status == 200)]
      && res.status in {200, 500}
      && (res.status == 200 ==> res.payload == Message("Test reminder sent successfully"))
      && (res.status == 500 ==> res.payload == Message("Failed to send test reminder"))
  {
    var user := db.GetUser(sessionUser);
    if user.None? || user.value.email.None? || user.value.email.value == "" {
      res := Response(400, Message("User email not found"));
    } else {
      var email := user.value.email.value;
      assert Some(email) == EmailOf(db.users, sessionUser);
      var success := SendContentReminder(mail, email, TestTitle, Clock(now), TestPlatform, localeDate);
      if success {
        res := Response(200, Message("Test reminder sent successfully"));
      } else {
        res := Response(500, Message("Failed to send test reminder"));
      }
    }
  }
}
