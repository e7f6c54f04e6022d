/**
 * The add/edit dialog for a content item
 * (ContentCalendar/client/src/components/content-modal.tsx): the form's
 * values, the premium-template gate of `applyTemplate`, the reset that runs
 * when the dialog opens, and the submit that validates the form and then
 * sends either a create or an update.  Toasts and rendering are not modelled.
 */
module ContentModal {
  import opened Wrappers
  import opened Schema
  import Storage

  /** The form's fields; `platform` is None while nothing is chosen (`undefined`). */
  datatype FormValues = FormValues(
    title: string,
    description: string,
    platform: Option<string>,
    scheduledDate: string,
    status: string)

  /** The values a new item starts from. */
  const EmptyForm: FormValues := FormValues("", "", None, "", DefaultItemStatus)

  /** `template.isPremium` is truthy. */
  predicate IsPremium(t: ContentTemplate)
  {
    t.isPremium == Some(true)
  }

  /** `user?.subscriptionStatus === 'active'`; no user is no subscription. */
  predicate HasActiveSubscription(user: Option<User>)
  {
    user.Some? && user.value.subscriptionStatus == Some("active")
  }

  /** The gate of `applyTemplate`: a free template always, a premium one only with an active subscription. */
  predicate MayApply(t: ContentTemplate, user: Option<User>): (r: bool)
    ensures !IsPremium(t) ==> r
    ensures user.None? ==> (r <==> !IsPremium(t))
  {
    !IsPremium(t) || HasActiveSubscription(user)
  }

  /** What applying `t` does to the values: title and platform from the template, description from its content. */
  function Prefilled(f: FormValues, t: ContentTemplate): (r: FormValues)
    ensures r.title == t.title && r.description == t.content && r.platform == Some(t.platform)
    ensures r.scheduledDate == f.scheduledDate && r.status == f.status
  {
    f.(title := t.title, description := t.content, platform := Some(t.platform))
  }

  /** The values an item opens with for editing; `formatDate` is the `yyyy-MM-dd'T'HH:mm` rendering. */
  function EditValues(item: ContentItem, formatDate: Date -> string): (r: FormValues)
    ensures item.description.None? ==> r.description == ""
    ensures item.description.Some? ==> r.description == item.description.value
    ensures r.title == item.title && r.platform == Some(item.platform) && r.status == item.status
    ensures r.scheduledDate == formatDate(item.scheduledDate)
  {
    FormValues(item.title, item.description.GetOr(""), Some(item.platform),
               formatDate(item.scheduledDate), item.status)
  }

  /** The dialog's state: the form values and the template last applied. */
  class ContentModalState {
    var values: FormValues
    var selectedTemplate: Option<ContentTemplate>

    constructor ()
      ensures values == EmptyForm && selectedTemplate == None
    {
      values := EmptyForm;
      selectedTemplate := None;
    }

    /** `applyTemplate`: refused (nothing changes) for a premium template without an active subscription. */
    method ApplyTemplate(t: ContentTemplate, user: Option<User>) returns (applied: bool)
      modifies this
      ensures applied == MayApply(t, user)
      ensures applied ==> values == Prefilled(old(values), t) && selectedTemplate == Some(t)
      ensures !applied ==> values == old(values) && selectedTemplate == old(selectedTemplate)
    {
      if IsPremium(t) && !HasActiveSubscription(user) {
        applied := false;
        return;
      }
      selectedTemplate := Some(t);
      values := values.(title := t.title);
      values := values.(description := t.content);
      values := values.(platform := Some(t.platform));
      applied := true;
    }

    /** The effect on opening: the edited item's values, or the empty form; a closed dialog keeps its state. */
    method ResetForm(open: bool, editing: Option<ContentItem>, formatDate: Date -> string)
      modifies this
      ensures open && editing.Some? ==> values == EditValues(editing.value, formatDate) && selectedTemplate == None
      ensures open && editing.None? ==> values == EmptyForm && selectedTemplate == None
      ensures !open ==> values == old(values) && selectedTemplate == old(selectedTemplate)
    {
      if open && editing.Some? {
        values := EditValues(editing.value, formatDate);
        selectedTemplate := None;
      } else if open && editing.None? {
        values := EmptyForm;
        selectedTemplate := None;
      }
    }
  }

  // ----- Submitting -----

  /** The form's own schema: the insert schema with a scheduled date that may not be empty. */
  const FormSchema: ObjectSchema := ContentItemSchema["scheduledDate" := FieldRule(NonEmptyText, true)]

  /** The values as the object the form holds; an unchosen platform is no key at all. */
  function FormBody(f: FormValues): (m: map<string, Value>)
    ensures "platform" in m <==> f.platform.Some?
    ensures "templateId" !in m
  {
    var base := map["title" := Str(f.title), "description" := Str(f.description),
                    "scheduledDate" := Str(f.scheduledDate), "status" := Str(f.status)];
    if f.platform.Some? then base["platform" := Str(f.platform.value)] else base
  }

  /** What pressing submit leads to: nothing but the issues, a POST, or a PUT to the edited item. */
  datatype Submission =
    | Blocked(issues: set<Path>)
    | CreateRequest(body: Value)
    | UpdateRequest(id: string, body: Value)

  /** `form.handleSubmit(onSubmit)`: validate, then update when an item is being edited and create otherwise. */
  function Submit(f: FormValues, editing: Option<ContentItem>): (s: Submission)
    ensures s.Blocked? <==> Issues(FormSchema, Obj(FormBody(f)), false) != {}
    ensures s.Blocked? ==> s.issues == Issues(FormSchema, Obj(FormBody(f)), false)
    ensures s.UpdateRequest? <==> !s.Blocked? && editing.Some?
    ensures s.CreateRequest? <==> !s.Blocked? && editing.None?
    ensures s.UpdateRequest? ==> s.id == editing.value.id && s.body == Obj(FormBody(f))
    ensures s.CreateRequest? ==> s.body == Obj(FormBody(f))
  {
    var issues := Issues(FormSchema, Obj(FormBody(f)), false);
    if issues != {} then Blocked(issues)
    else if editing.Some? then UpdateRequest(editing.value.id, Obj(FormBody(f)))
    else CreateRequest(Obj(FormBody(f)))
  }

  /** A key the form accepts is a key the server's insert and patch schemas accept. */
  lemma {:induction false} FormStricterThanServer(m: map<string, Value>)
    requires Issues(FormSchema, Obj(m), false) == {}
    ensures Issues(ContentItemSchema, Obj(m), false) == {}
    ensures Issues(ContentItemSchema, Obj(m), true) == {}
  {
    forall f | f in ContentItemSchema ensures FieldOk(ContentItemSchema, m, f, false) {
      assert f in FormSchema;
      assert Key(f) !in Issues(FormSchema, Obj(m), false);
      assert FieldOk(FormSchema, m, f, false);
    }
    assert forall p :: p in Issues(ContentItemSchema, Obj(m), false) ==> false;
    forall f | f in ContentItemSchema ensures FieldOk(ContentItemSchema, m, f, true) {
      assert FieldOk(ContentItemSchema, m, f, false);
    }
    assert forall p :: p in Issues(ContentItemSchema, Obj(m), true) ==> false;
  }

  /** Whatever the form sends, the server's validation of that route accepts, and no template id goes with it. */
  lemma SentBodyAccepted(f: FormValues, editing: Option<ContentItem>)
    ensures Submit(f, editing).CreateRequest? ==>
      && ParseContentItem(Submit(f, editing).body).Ok?
      && ParseContentItem(Submit(f, editing).body).value.templateId.None?
    ensures Submit(f, editing).UpdateRequest? ==>
      && ParseContentItemPatch(Submit(f, editing).body).Ok?
      && ParseContentItemPatch(Submit(f, editing).body).value.templateId.Omitted?
  {
    if !Submit(f, editing).Blocked? {
      FormStricterThanServer(FormBody(f));
    }
  }

  /** The form as it first opens cannot be sent: neither the platform nor the scheduled date is filled in. */
  lemma EmptyFormBlocked(editing: Option<ContentItem>)
    ensures Submit(EmptyForm, editing).Blocked?
    ensures Key("platform") in Submit(EmptyForm, editing).issues
    ensures Key("scheduledDate") in Submit(EmptyForm, editing).issues
  {
    var m := FormBody(EmptyForm);
    assert "platform" in FormSchema && !FieldOk(FormSchema, m, "platform", false);
    assert "scheduledDate" in FormSchema && !FieldOk(FormSchema, m, "scheduledDate", false);
  }

  /**
   * A stored item opened for editing and sent back untouched is answered by
   * an update that keeps its title, platform and status, and its description
   * (a NULL one becomes the empty string); its date is the re-read rendering.
   */
  lemma {:induction false} UntouchedEditKeepsItem(item: ContentItem, formatDate: Date -> string)
    requires item.platform in PlatformNames && item.status in StatusNames
    requires formatDate(item.scheduledDate) != ""
    ensures Submit(EditValues(item, formatDate), Some(item)).UpdateRequest?
    ensures Submit(EditValues(item, formatDate), Some(item)).id == item.id
    ensures var p := ParseContentItemPatch(Submit(EditValues(item, formatDate), Some(item)).body);
      && p.Ok?
      && var r := Storage.Patched(item, p.value);
      && r.title == item.title && r.platform == item.platform && r.status == item.status
      && r.description == Some(item.description.GetOr(""))
      && r.scheduledDate == Parsed(formatDate(item.scheduledDate))
      && r.templateId == item.templateId
  {
    var f := EditValues(item, formatDate);
    var m := FormBody(f);
    assert Issues(FormSchema, Obj(m), false) == {} by {
      forall k | k in FormSchema ensures FieldOk(FormSchema, m, k, false) {
      }
      assert forall q :: q in Issues(FormSchema, Obj(m), false) ==> false;
    }
    FormStricterThanServer(m);
    var p := ParseContentItemPatch(Obj(m));
    assert p.Ok?;
    assert PlatformOf(item.platform).Some? && StatusOf(item.status).Some?;
  }

  /** Without an active subscription (or without a user) a premium template is refused. */
  lemma PremiumNeedsSubscription(t: ContentTemplate, user: Option<User>)
    requires IsPremium(t)
    ensures MayApply(t, user) <==> user.Some? && user.value.subscriptionStatus == Some("active")
  {
  }

  /** Applying the same template twice leaves the form as applying it once. */
  lemma PrefillIdempotent(f: FormValues, t: ContentTemplate)
    ensures Prefilled(Prefilled(f, t), t) == Prefilled(f, t)
  {
  }
}
