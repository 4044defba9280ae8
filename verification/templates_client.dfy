/**
 * The template library page: the creation form and its validator, the
 * patch bodies its buttons send, and the view state that loading and the
 * form update.
 */
module TemplatesClient {
  import opened Records
  import opened Text
  import opened Authz
  import TemplatesRoute

  /**
   * `canCreate`: the name, the asset type and the system prompt all have
   * content after trimming.
   */
  function CanCreate(name: string, assetType: string, systemPrompt: string): (r: bool)
    ensures r <==> HasContent(name) && HasContent(assetType) && HasContent(systemPrompt)
  {
    BlankSpec(name);
    BlankSpec(assetType);
    BlankSpec(systemPrompt);
    !IsBlank(name) && !IsBlank(assetType) && !IsBlank(systemPrompt)
  }

  /** The body `createTemplate` posts: the three form fields as typed, and `isActive: true`. */
  function CreateBody(name: string, assetType: string, systemPrompt: string): (r: TemplateBody)
    ensures r.isActive == Some(true)
    ensures r.name == Some(name) && r.assetType == Some(assetType) && r.systemPrompt == Some(systemPrompt)
  {
    TemplateBody(Some(name), Some(assetType), Some(systemPrompt), Some(true))
  }

  /**
   * The form's check and the route's agree: a body the form lets through is
   * accepted, one it blocks is rejected; an accepted one is stored trimmed
   * and active.
   */
  lemma CreateAgreesWithRoute(name: string, assetType: string, systemPrompt: string)
    ensures TemplatesRoute.Validate(CreateBody(name, assetType, systemPrompt)).Valid?
      <==> CanCreate(name, assetType, systemPrompt)
    ensures CanCreate(name, assetType, systemPrompt) ==>
      TemplatesRoute.Validate(CreateBody(name, assetType, systemPrompt)).value
        == TemplatesRoute.NewTemplate(Trim(name), Trim(assetType), Trim(systemPrompt), true)
  {
    var v := TemplatesRoute.Validate(CreateBody(name, assetType, systemPrompt));
    if v.Valid? {
      assert !TemplatesRoute.Missing(Some(name)) && !TemplatesRoute.Missing(Some(assetType));
      assert !TemplatesRoute.Missing(Some(systemPrompt));
    }
  }

  /** The names of the fields a patch body carries. */
  function Fields(p: TemplatePatch): (r: set<string>)
    ensures "name" in r <==> p.name.Some?
    ensures "assetType" in r <==> p.assetType.Some?
    ensures "systemPrompt" in r <==> p.systemPrompt.Some?
    ensures "isActive" in r <==> p.isActive.Some?
    ensures r <= {"name", "assetType", "systemPrompt", "isActive"}
  {
    (if p.name.Some? then {"name"} else {})
    + (if p.assetType.Some? then {"assetType"} else {})
    + (if p.systemPrompt.Some? then {"systemPrompt"} else {})
    + (if p.isActive.Some? then {"isActive"} else {})
  }

  /** `toggleActive(t)`: a patch with only `isActive`, the negation of the current value. */
  function TogglePatch(t: Template): (p: TemplatePatch)
    ensures Fields(p) == {"isActive"}
    ensures p.isActive == Some(!t.isActive)
  {
    TemplatePatch(None, None, None, Some(!t.isActive))
  }

  /**
   * `quickEdit(t)` after the dialog: nothing is sent when it is cancelled;
   * otherwise a patch with only `systemPrompt`, holding the answer as typed.
   */
  function QuickEditPatch(answer: Option<string>): (r: Option<TemplatePatch>)
    ensures r.None? <==> answer.None?
    ensures r.Some? ==> Fields(r.value) == {"systemPrompt"} && r.value.systemPrompt == answer
  {
    match answer
    case None => None
    case Some(text) => Some(TemplatePatch(None, None, Some(text), None))
  }

  /**
   * The page checks nothing before a quick edit: any answer, a blank one
   * included, is sent as typed, although the route refuses to create a
   * template with such a prompt.
   */
  lemma QuickEditSendsBlank(answer: string)
    requires IsBlank(answer)
    ensures QuickEditPatch(Some(answer)) == Some(TemplatePatch(None, None, Some(answer), None))
    ensures TemplatesRoute.Validate(CreateBody("n", "t", answer)).Invalid?
  {
  }

  /** The state of the template library page. */
  class TemplatesView {
    var templates: seq<Template>
    var isAdmin: bool
    var loading: bool
    var name: string
    var assetType: string
    var systemPrompt: string

    /** A page that is not an administrator's shows active templates only. */
    ghost predicate Valid()
      reads this
    {
      !isAdmin ==> forall t :: t in templates ==> t.isActive
    }

    /**
     * The `Create` button is enabled, which is exactly when the route would
     * accept the body it posts.
     */
    predicate CreateEnabled(): (r: bool)
      reads this
      ensures r <==> HasContent(name) && HasContent(assetType) && HasContent(systemPrompt)
      ensures r <==> TemplatesRoute.Validate(CreateBody(name, assetType, systemPrompt)).Valid?
    {
      CreateAgreesWithRoute(name, assetType, systemPrompt);
      CanCreate(name, assetType, systemPrompt)
    }

    constructor ()
      ensures Valid()
      ensures templates == [] && !isAdmin && loading
      ensures name == "" && assetType == "White Paper" && systemPrompt == DefaultSystemPrompt
    {
      templates := [];
      isAdmin := false;
      loading := true;
      name := "";
      assetType := "White Paper";
      systemPrompt := DefaultSystemPrompt;
    }

    /** The synchronous start of `refresh`. */
    method BeginRefresh()
      requires Valid()
      modifies this
      ensures Valid()
      ensures loading
      ensures templates == old(templates) && isAdmin == old(isAdmin)
      ensures name == old(name) && assetType == old(assetType) && systemPrompt == old(systemPrompt)
    {
      loading := true;
    }

    /**
     * The end of `refresh`, which fetches `GET /api/templates`: a listing
     * replaces the templates and the admin flag wholesale and ends the
     * loading; when the route throws instead, there is no JSON to read and
     * the page stays as it was, still loading.
     */
    method FinishRefresh(session: SessionEmail, users: UserTable, store: seq<Template>)
      requires Valid()
      modifies this
      ensures Valid()
      ensures var resp := TemplatesRoute.List(session, users, store);
        && (resp.Json? ==> templates == resp.body.templates && isAdmin == resp.body.isAdmin && !loading)
        && (!resp.Json? ==> templates == old(templates) && isAdmin == old(isAdmin) && loading == old(loading))
      ensures name == old(name) && assetType == old(assetType) && systemPrompt == old(systemPrompt)
    {
      var resp := TemplatesRoute.List(session, users, store);
      if resp.Json? {
        TemplatesRoute.ListingContents(store, resp.body.isAdmin, resp.body.templates);
        templates := resp.body.templates;
        isAdmin := resp.body.isAdmin;
        loading := false;
      }
    }

    /** Typing in the creation form. */
    method EditForm(newName: string, newAssetType: string, newSystemPrompt: string)
      requires Valid()
      modifies this
      ensures Valid()
      ensures name == newName && assetType == newAssetType && systemPrompt == newSystemPrompt
      ensures templates == old(templates) && isAdmin == old(isAdmin) && loading == old(loading)
    {
      name := newName;
      assetType := newAssetType;
      systemPrompt := newSystemPrompt;
    }

    /**
     * The answer to `createTemplate`: on success only the name is cleared,
     * the asset type and the prompt stay for the next template, and a
     * refresh starts; a failure changes nothing.
     */
    method CreateDone(ok: bool)
      requires Valid()
      modifies this
      ensures Valid()
      ensures ok ==> name == "" && loading
      ensures !ok ==> name == old(name) && loading == old(loading)
      ensures assetType == old(assetType) && systemPrompt == old(systemPrompt)
      ensures templates == old(templates) && isAdmin == old(isAdmin)
    {
      if ok {
        name := "";
        loading := true;
      }
    }

    /** The answer to a toggle or a quick edit: success starts a refresh, failure changes nothing. */
    method PatchDone(ok: bool)
      requires Valid()
      modifies this
      ensures Valid()
      ensures loading == (ok || old(loading))
      ensures templates == old(templates) && isAdmin == old(isAdmin)
      ensures name == old(name) && assetType == old(assetType) && systemPrompt == old(systemPrompt)
    {
      if ok {
        loading := true;
      }
    }
  }

  /** A fresh page can create a template as soon as it is given a name. */
  lemma InitialFormNeedsOnlyName(name: string)
    ensures CanCreate(name, "White Paper", DefaultSystemPrompt) <==> HasContent(name)
  {
    assert !IsWhitespace("White Paper"[0]);
    assert !IsWhitespace(DefaultSystemPrompt[0]);
  }
}
