# Content calendar: a verified model of its core

The content calendar is a small web application. Signed-in users plan
content items (social posts, emails, blog posts) against scheduled dates.
They start items from templates, some of them reserved for paying
subscribers, export their calendar as CSV, and can ask for a reminder
e-mail. This project models the parts of it that hold logic and proves
what they do:

- **`Storage`** (`storage.dfy`): the data-access class `DatabaseStorage`.
  It has four tables (users, content items, templates, e-mail reminders),
  each an id-to-row map that the methods update in place.
  - Inserts take a fresh id.
  - The database's primary keys, unique user e-mail and foreign keys are
    kept as the class invariant.
  - A statement that would break one of them fails and changes nothing.
- **`Schema`** (`schema.dfy`): the row shapes, column defaults and the insert
  validators.
  - A validator works the way a zod object schema does. Keys it does not
    name are stripped. Every named key is checked, and a missing one counts
    as `undefined`. Every failing key is reported, all at once.
- **`Routes`** (`routes.dfy`): the request handlers. Each validates the body,
  calls the store, and maps the outcome to a status code and JSON body.
- **`CsvExport`** (`csv_export.dfy`): the CSV text of the export route.
  Beside it sits a reader of quoted records (section 2 of RFC 4180), used to
  state which exports read back.
- **`ContentModal`** (`content_modal.dfy`): the add/edit dialog on the client.
  It covers the premium-template gate, the form prefill and reset, and the
  submit that sends a create or an update.
- **`EmailService`** (`email_service.dfy`): the reminder message and the
  wrapper that turns a failed send into `false`.
  - The mail provider is a class that logs every send it is asked for.
  - Any of those sends may fail.
- **`Text`** and **`Wrappers`** (`text.dfy`, `wrappers.dfy`): `join`/`split`
  on a separator with their inverse lemmas, plus `Option`, `Result` and
  `Field`.
  - `Field` is a key that was left out versus a key given a value. The
    source treats these differently: `undefined` columns are skipped on
    insert and update.

Things that are outside the program are inputs:
- Time is an integer `now`.
- Dates are opaque values. A date is either `Parsed(text)`, which is
  `new Date(text)`, or `Clock(millis)`.
- The three date renderings are function parameters: a `Date` in a template
  literal, `toLocaleDateString()`, and `format(..., "yyyy-MM-dd'T'HH:mm")`.
- The session user is a string, for a request that passed `isAuthenticated`.

### Where the code and its description differ (the model follows the code)

- An empty title is accepted. The column is `notNull`, and no minimum length
  is applied (`Schema.EmptyTitleAccepted`).
- `status` is required on insert. The enum at schema.ts:56 replaces the
  column default `'draft'`, so that default is never used through the API
  (`Schema.StatusRequired`).
- There is no reminder dispatch loop. There are only the two storage calls
  `getPendingReminders` and `markReminderAsSent`. `getPendingReminders`
  ignores `scheduledFor`.
- The test reminder is not limited to subscribers. The server never looks at
  `subscriptionStatus` before sending it.
- Applying a template copies the template's `content` into the description,
  not the template's `description`.
- The form never sends a `templateId`, so an item created from a template
  does not record which template it came from (`ContentModal.SentBodyAccepted`).
- A reminder cannot be created through the API at all (see "## Findings").

## Model

| member | source | states |
|---|---|---|
| Schema.PlatformOf | ContentCalendar/shared/schema.ts:55 | a string is read as a platform exactly when it is `social`, `email` or `blog`, and that platform's name is the string again |
| Schema.StatusOf | ContentCalendar/shared/schema.ts:56 | a string is read as a status exactly when it is `draft`, `scheduled` or `posted`, and that status's name is the string again |
| Schema.NewUser | ContentCalendar/shared/schema.ts:19-28 | an inserted user has the given id, and every supplied column holds the supplied value; an omitted one is NULL, except `subscriptionStatus`, which is `'free'`, and both timestamps, which are the insert time |
| Schema.MergeUser | ContentCalendar/server/storage.ts:54-59 | on an id conflict every supplied column takes the supplied value and every omitted one keeps the stored value; the id stays, and `updatedAt` is the new time whatever was supplied |
| Schema.NewContentItem | ContentCalendar/shared/schema.ts:36-45 | a new item belongs to the given user and stores the insert's title, description, scheduled date and template id, and its platform and status by their names; `reminderSent` is false and `createdAt` the insert time |
| Schema.NewContentTemplate | ContentCalendar/shared/schema.ts:64-73 | a new template stores the insert's title, description, content, platform and category; it is not premium unless `isPremium` is supplied; `createdAt` is the insert time |
| Schema.NewEmailReminder | ContentCalendar/shared/schema.ts:84-91 | a new reminder is unsent, carries the supplied item, user and time, and has the insert time as `createdAt` |
| Schema.Issues | ContentCalendar/shared/schema.ts:48-58 | a body that is not an object gives one issue at the root; for an object a named key is reported exactly when it fails its rule, and no other key is ever reported |
| Schema.ParseContentItem | ContentCalendar/shared/schema.ts:48-58 | the insert is refused exactly when there are issues, and the refusal carries all of them; an accepted insert holds the body's title, description, platform, status and templateId, and `new Date` of its scheduledDate string |
| Schema.ParseContentItemPatch | server/routes.ts:123 | under `partial()` every key may be left out; a key is given in the patch exactly when the body has it, and then with the body's value (the date as `new Date` of its string) |
| Schema.ParseContentTemplate | ContentCalendar/shared/schema.ts:75-78 | a template insert is refused exactly when there are issues; an accepted one holds the body's title, description, content, platform and category, and `isPremium` only when the body has it |
| Schema.TemplateAcceptedExactly | ContentCalendar/shared/schema.ts:75-78 | a template body is accepted if and only if title, description, content, platform and category are strings, and `isPremium`, when present, is a boolean or null |
| Schema.ParseEmailReminder | ContentCalendar/shared/schema.ts:93-97 | the reminder insert as generated: accepted exactly when there are no issues, and then `scheduledFor` was a Date object; item and user ids come from the body |
| Schema.ParseEmailReminderJson | ContentCalendar/shared/schema.ts:54 | the corrected reminder insert: `scheduledFor` is read from a string and turned into a Date, as `scheduledDate` is for items |
| Schema.UnknownKeyIgnored | ContentCalendar/shared/schema.ts:48-58 | adding a key that the schema does not name never changes the issues found |
| Schema.OmittedColumnsStripped | ContentCalendar/shared/schema.ts:48-53 | supplying `id`, `userId`, `reminderSent` or `createdAt`, with any value, changes neither the insert nor the patch that is read |
| Schema.ItemAcceptedExactly | ContentCalendar/shared/schema.ts:48-58 | an insert body is accepted if and only if it has a string title, a string platform and status from the closed enumerations, and a string scheduledDate, and its description (string or null) and templateId (string), when present, have the right kind |
| Schema.StatusRequired | ContentCalendar/shared/schema.ts:56 | an insert body without `status` is refused, naming `status` |
| Schema.NullTemplateIdRefused | ContentCalendar/shared/schema.ts:57 | a null `templateId` is refused by both insert and patch |
| Schema.ItemRoundTrip | ContentCalendar/shared/schema.ts:48-58 | every insert the schema can produce is read back unchanged from the body that encodes it |
| Schema.EmptyTitleAccepted | ContentCalendar/shared/schema.ts:38 | an insert whose title is the empty string is accepted |
| Schema.InsertBodyIsAPatch | server/routes.ts:123 | a body accepted for insert is accepted as a patch too, giving the same title, platform, date and status |
| Schema.ReminderSchemaRefusesJson | ContentCalendar/shared/schema.ts:88-97 | no JSON value is accepted by the generated reminder schema; an object is refused at `scheduledFor` |
| Schema.ReminderJsonAcceptedExactly | ContentCalendar/shared/schema.ts:93-97 | the corrected reminder schema accepts an object if and only if scheduledFor is a string and the two ids, when present, are strings or null |
| Schema.SentStripped | ContentCalendar/shared/schema.ts:93-97 | `sent` is not an input: a body that supplies it reads the same as one without it |
| Text.Join | server/routes.ts:181 | joining no parts gives the empty string; joining parts opens with the first part |
| Text.Split | server/routes.ts:178 | a reader's split of a text at a character (the header at its commas, a body at its line feeds) gives at least one piece, and no piece holds that character |
| Storage.FreshIdExists | ContentCalendar/shared/schema.ts:36 | there is always an id that a table does not use yet, so an insert can always take a new one |
| Storage.Select | ContentCalendar/server/storage.ts:80-85 | a table scan with a filter returns each matching row once, and no other row |
| Storage.StripeActivated | ContentCalendar/server/storage.ts:68-73 | activation sets status `'active'`, both provider ids (an undefined one leaves its column) and `updatedAt`, and changes no other column |
| Storage.Patched | ContentCalendar/server/storage.ts:103 | an update writes exactly the columns the patch supplies, each with the supplied value, and keeps the others; id, owner, reminderSent and createdAt never change |
| Storage.MarkSent | ContentCalendar/server/storage.ts:148-153 | marking changes the `sent` column of that reminder to true and nothing else, keeps every id, and does nothing for an unknown id |
| Storage.DatabaseStorage.GetUser | ContentCalendar/server/storage.ts:45-48 | the user with that id, absent exactly when there is none |
| Storage.DatabaseStorage.UpsertUser | ContentCalendar/server/storage.ts:50-63 | inserts when the id is new (a fresh id when none is given), else merges; fails, changing nothing, exactly when the resulting e-mail is held by another user |
| Storage.DatabaseStorage.UpdateUserStripeInfo | ContentCalendar/server/storage.ts:65-77 | an unknown user is absent and nothing changes; otherwise only that user's row becomes the activated row, and it is returned |
| Storage.DatabaseStorage.GetAllContentItems | ContentCalendar/server/storage.ts:80-85 | with a truthy user id exactly that user's items, each once; with none or `""` every item |
| Storage.DatabaseStorage.GetContentItem | ContentCalendar/server/storage.ts:87-90 | the item with that id, absent exactly when there is none |
| Storage.DatabaseStorage.CreateContentItem | ContentCalendar/server/storage.ts:92-98 | adds exactly one row under a fresh id, for the given owner, and returns it; fails, changing nothing, exactly when the owner or the template does not exist |
| Storage.DatabaseStorage.UpdateContentItem | ContentCalendar/server/storage.ts:100-107 | a patch that sets no column is refused (`No values to set`) with no change, whatever the id; otherwise an unknown id is absent with no change, a template id that does not exist fails with no change, and else only that row is patched and returned |
| Storage.DatabaseStorage.DeleteContentItem | ContentCalendar/server/storage.ts:109-112 | reports whether a row with that id existed, and afterwards none does; a reminder still referring to the item makes it fail with no change |
| Storage.DatabaseStorage.GetAllContentTemplates | ContentCalendar/server/storage.ts:115-117 | every template, each once |
| Storage.DatabaseStorage.GetContentTemplate | ContentCalendar/server/storage.ts:119-122 | the template with that id, absent exactly when there is none |
| Storage.DatabaseStorage.CreateContentTemplate | ContentCalendar/server/storage.ts:124-130 | adds exactly one template under a fresh id and returns it |
| Storage.DatabaseStorage.CreateEmailReminder | ContentCalendar/server/storage.ts:133-139 | adds exactly one unsent reminder under a fresh id; fails, changing nothing, exactly when its item or user does not exist; no sent reminder is touched |
| Storage.DatabaseStorage.GetPendingReminders | ContentCalendar/server/storage.ts:141-146 | exactly the reminders whose `sent` is false, each once, whatever their `scheduledFor` |
| Storage.DatabaseStorage.MarkReminderAsSent | ContentCalendar/server/storage.ts:148-153 | the reminders table becomes the marked one: only that reminder's `sent` column changes, no other table changes, and no sent reminder becomes unsent |
| Storage.MarkSentIdempotent | ContentCalendar/server/storage.ts:148-153 | marking a reminder twice is the same as marking it once |
| Storage.PatchIdempotent | ContentCalendar/server/storage.ts:100-107 | applying a patch twice is the same as applying it once |
| Storage.DeleteTwice | ContentCalendar/server/storage.ts:109-112 | after a delete that succeeded, deleting the same id again reports that no row was there |
| EmailService.ReminderSubject | ContentCalendar/server/emailService.ts:40 | the subject is `Reminder: Content "`, then the title, then `" scheduled for `, then the platform, piece by piece |
| EmailService.ReminderText | ContentCalendar/server/emailService.ts:41 | the text body opens with the greeting line |
| EmailService.Fill | ContentCalendar/server/emailService.ts:43-56 | three values set between four fixed pieces: every piece and every value sits at its own place, and the result is exactly as long as its parts |
| EmailService.ReminderHtml | ContentCalendar/server/emailService.ts:43-56 | the HTML body is the four fixed markup pieces, each at its place, with the title, the platform and the date between them |
| EmailService.SubjectDeterminesTitle | ContentCalendar/server/emailService.ts:40 | two reminders for one platform have the same subject only if their titles are equal |
| EmailService.ReminderTextHasLines | ContentCalendar/server/emailService.ts:41 | when no value holds a line feed, the text body splits into its twelve lines, among them `Title: <title>` and `Platform: <platform>` |
| EmailService.ReminderMessage | ContentCalendar/server/emailService.ts:58-64 | the message goes to the user's address, from `noreply@contentplanner.com`, with the reminder subject, text body and HTML body |
| EmailService.MailService.Send | ContentCalendar/server/emailService.ts:20-26 | every call of the provider is logged with the message it was given and whether it completed |
| EmailService.SendEmail | ContentCalendar/server/emailService.ts:18-32 | exactly one provider call, and the result is true if and only if that call completed; a throw becomes false |
| EmailService.SendContentReminder | ContentCalendar/server/emailService.ts:34-64 | exactly one send, of the reminder message, and its outcome is the result |
| CsvExport.DescriptionCell | server/routes.ts:180 | a NULL description gives an empty cell; any other is written as it is |
| CsvExport.Rows | server/routes.ts:179-181 | one line per item, in the order the items came |
| CsvExport.Row | server/routes.ts:180 | an item's line opens with its title in double quotes |
| CsvExport.Csv | server/routes.ts:178-185 | the export text opens with the header line and its line feed |
| CsvExport.HeaderColumns | server/routes.ts:178 | the header line splits at its commas into Title, Description, Platform, Scheduled Date, Status |
| CsvExport.EmptyExport | server/routes.ts:178-185 | with no items the export is the header alone, with its line feed |
| CsvExport.CsvLines | server/routes.ts:178-185 | N ≥ 1 items whose cells hold no line feed give N+1 lines, the header then the items' lines in order, with N line feeds and none at the end |
| CsvExport.RowRoundTrip | server/routes.ts:180 | a line whose cells hold no double quote reads back as the item's five cells, commas inside cells included |
| CsvExport.QuoteInTitleShiftsCells | server/routes.ts:180 | quotes are not escaped: a title `a","b` (no other quote in the line) reads back as six fields, `a`, `b` and then the other four cells, each one column to the right |
| CsvExport.CsvRoundTrip | server/routes.ts:178-185 | an export with no line feed and no quote in its cells reads back as the header's column names and each item's cells, in order |
| Routes.GetAuthUser | server/routes.ts:15-24 | 200 with the caller's row, or with nothing when there is none |
| Routes.OrderIdField | server/routes.ts:43 | an absent `paypalOrderId` leaves both columns alone, null clears them, and a string is written as it is |
| Routes.ActivateSubscription | server/routes.ts:40-54 | always 200 with no payment check; only the caller's row changes, to status `'active'` with the order id as both provider ids |
| Routes.GetTemplates | server/routes.ts:57-64 | 200 with every template, each once |
| Routes.GetTemplate | server/routes.ts:66-76 | 404 `Template not found` exactly when the store has no such template, otherwise 200 with it |
| Routes.ListContent | server/routes.ts:79-87 | 200 with the caller's items when signed in, every item otherwise |
| Routes.GetContent | server/routes.ts:90-100 | 404 `Content item not found` exactly when the store has no such item, otherwise 200 with it |
| Routes.CreateContent | server/routes.ts:103-118 | 400 with the issues exactly when validation fails; 500 exactly when a valid body names a missing owner or template; neither changes anything; otherwise 201 adds one item owned by the session user |
| Routes.UpdateContent | server/routes.ts:121-138 | 400 exactly when the partial validation fails; 500 exactly for a valid patch that sets nothing, or that names a missing template for a known id; 404 exactly for any other valid patch to an unknown id; none of these changes anything; 200 patches that row only |
| Routes.DeleteContent | server/routes.ts:141-151 | 404 exactly when the store deleted nothing; 200 when it deleted the row; 500, with no change, when a reminder still refers to it |
| Routes.WithSessionUser | server/routes.ts:157 | the body's keys with the session user under `userId`, overriding any `userId` the body had |
| Routes.CreateReminder | server/routes.ts:154-169 | 400 exactly when the generated schema finds issues in the body plus the session user; 500 exactly when what it read names a missing item or user, with no change; otherwise 201 adds one unsent reminder built from what that schema read, owned by the session user |
| Routes.CreateReminderRefusesJson | server/routes.ts:157 | as written, every JSON request is answered 400 naming `scheduledFor`, and no reminder is added |
| Routes.CreateReminderFromJson | server/routes.ts:154-169 | the corrected handler: 400 exactly when the corrected schema finds issues; 500 exactly when what it read names a missing item or user, with no change; otherwise 201 adds one unsent reminder built from what it read, owned by the session user and dated `new Date` of the body's `scheduledFor` string |
| Routes.ExportCsv | server/routes.ts:172-189 | 200 with `content-calendar.csv` holding the CSV of exactly the caller's items, each once |
| Routes.EmailOf | server/routes.ts:194-197 | the caller's e-mail exactly when they have a row with a non-empty e-mail |
| Routes.TestReminder | server/routes.ts:192-214 | no e-mail: 400 and nothing is sent; otherwise exactly one send of the `Test Content` / `social` reminder dated now, and 200 exactly when it went through, else 500; no subscription check |
| ContentModal.Prefilled | ContentCalendar/client/src/components/content-modal.tsx:70-73 | applying a template sets title, description (from the template's content) and platform, and leaves date and status |
| ContentModal.EditValues | ContentCalendar/client/src/components/content-modal.tsx:84-90 | editing opens with the item's fields, a NULL description becoming `""` |
| ContentModal.MayApply | ContentCalendar/client/src/components/content-modal.tsx:61 | a template that is not premium may always be applied; with no user signed in, only such a template may be |
| ContentModal.ContentModalState.ApplyTemplate | ContentCalendar/client/src/components/content-modal.tsx:59-79 | applied exactly when the template is free or the user's status is `'active'`; when refused nothing changes, when applied the values are prefilled and the template is selected |
| ContentModal.ContentModalState.ResetForm | ContentCalendar/client/src/components/content-modal.tsx:82-102 | on opening: the edited item's values, or the empty form with status `draft`, and no selected template; a closed dialog keeps its state |
| ContentModal.FormBody | ContentCalendar/client/src/components/content-modal.tsx:47-56 | the object the form holds; the platform key is there exactly when a platform is chosen, and there is never a `templateId` |
| ContentModal.Submit | ContentCalendar/client/src/components/content-modal.tsx:170-176 | nothing is sent when the form schema finds issues; otherwise an update of the edited item exactly when one is being edited, else a create |
| ContentModal.FormStricterThanServer | ContentCalendar/client/src/components/content-modal.tsx:22-24 | whatever the form's schema accepts, the server's insert and patch schemas accept |
| ContentModal.SentBodyAccepted | ContentCalendar/client/src/components/content-modal.tsx:170-176 | every create or update the form sends passes the server's validation for that route, and carries no template id |
| ContentModal.EmptyFormBlocked | ContentCalendar/client/src/components/content-modal.tsx:93-99 | the freshly reset form cannot be sent, because platform and scheduled date are missing |
| ContentModal.UntouchedEditKeepsItem | ContentCalendar/client/src/components/content-modal.tsx:83-90 | an item opened for editing and sent back untouched keeps its title, platform, status and template, and its description (NULL becomes `""`) |
| ContentModal.PremiumNeedsSubscription | ContentCalendar/client/src/components/content-modal.tsx:61 | a premium template may be applied if and only if there is a user whose status is `'active'` |
| ContentModal.PrefillIdempotent | ContentCalendar/client/src/components/content-modal.tsx:70-73 | applying the same template twice leaves the form as applying it once |

## Left out

- The database engine, drizzle's query building and `gen_random_uuid`. Tables are maps, and a generated id is any id the table does not use.
- Row order of a `select`. SQL gives none, so the scans return the matching rows in an unspecified order.
- Failures of the database connection or driver. The only failures modelled are constraint violations (a foreign key or the unique e-mail) and the query builder's refusal of an update that sets no column.
- Routes.CreateContent: a `scheduledDate` string that JavaScript cannot parse gives an invalid Date, which the driver would refuse (a 500). The model treats every string as a date and answers 201.
- Routes.ActivateSubscription: a `paypalOrderId` that is neither a string nor null is written as the driver prints it. That printing is a parameter.
- Routes.CreateReminder: spreading a request body that is an array or a string adds index keys. No reminder schema names those keys, so the model treats them as no keys.
- zod's error messages and codes. A validation failure carries the set of failing paths only.
- The authentication module: `setupAuth`, `isAuthenticated` and its 401 answer, and the session store. The session user is an input.
- The PayPal routes and module (server/routes.ts:27-37), which are foreign code.
- The SendGrid client and its API-key check at module load. The provider is a class whose sends may fail.
- Date parsing and rendering: `new Date(string)`, `toLocaleDateString`, `format`, and a Date in a template literal. They are locale- or host-dependent, so dates are opaque and the renderings are parameters.
- The CSV response headers other than the file name.
- The dialog's toasts, query invalidation, closing on success, the unauthorized redirect, and all rendering.
- The pages `client/src/pages/content-planner.tsx`, `client/src/pages/subscription.tsx` and `ContentCalendar/client/src/pages/landing.tsx`, which are rendering and navigation.
- `server/seed-templates.ts`, a one-off insert script.
- A reminder dispatch process. None exists in the code.
- Concurrency between requests.
- The `console.error` logging in `sendEmail` and in the routes' `catch` blocks, which only writes to the server log.
- JavaScript strings are sequences of UTF-16 code units, while Dafny strings are sequences of Unicode scalar values. Lengths and slices therefore count differently for characters outside the Basic Multilingual Plane, such as the two emoji of the HTML body or any in a title.

## Findings

| source | as written | input that shows it | evidently intended | confidence | as-written member | corrected member |
|---|---|---|---|---|---|---|
| ContentCalendar/shared/schema.ts:93-97 | `insertEmailReminderSchema` is generated from a `timestamp` column, so `scheduledFor` must be a Date object. A JSON request body never holds one, so `POST /api/reminders` (server/routes.ts:157) refuses every request with 400 | `POST /api/reminders` with body `{"contentItemId": "<an existing item>", "scheduledFor": "2024-06-01T09:00:00Z"}` | read `scheduledFor` from a string and turn it into a Date, as `insertContentItemSchema` does for `scheduledDate` at schema.ts:54 | medium (depends on the drizzle-zod version generating `z.date()` for timestamps), not executed | Schema.ReminderSchemaRefusesJson | Routes.CreateReminderFromJson |
