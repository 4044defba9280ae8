/**
 * The template repository, `GET` and `POST /api/templates`: listing by role
 * in the store's order, and creation by administrators with ordered field
 * validation.
 */
module TemplatesRoute {
  import opened Records
  import opened Text
  import opened Seqs
  import opened Authz

  // ---------------------------------------------------------------------------
  // Listing
  // ---------------------------------------------------------------------------

  /**
   * The listing order `[{ isActive: "desc" }, { updatedAt: "desc" }]`: `a`
   * may stand before `b` when it is active and `b` is not, or when both have
   * the same activity and `a` was updated no earlier than `b`.
   */
  predicate Precedes(a: Template, b: Template) {
    || (a.isActive && !b.isActive)
    || (a.isActive == b.isActive && a.updatedAt >= b.updatedAt)
  }

  /** Every row may stand before every later row. */
  ghost predicate Sorted(rows: seq<Template>) {
    forall i, j :: 0 <= i < j < |rows| ==> Precedes(rows[i], rows[j])
  }

  /** The rows the caller may see: all of them for an admin, the active ones otherwise. */
  function Visible(store: seq<Template>, admin: bool): (r: seq<Template>)
    ensures forall t :: t in r <==> t in store && (admin || t.isActive)
  {
    var keep := (t: Template) => admin || t.isActive;
    InFilterAll(store, keep);
    Filter(store, keep)
  }

  lemma InFilterAll(store: seq<Template>, keep: Template -> bool)
    ensures forall t :: t in Filter(store, keep) <==> t in store && keep(t)
  {
    forall t ensures t in Filter(store, keep) <==> t in store && keep(t) {
      InFilter(store, keep, t);
    }
  }

  /**
   * What the store may answer for `findMany` with the role's `where` and the
   * listing order: the visible rows, each exactly as often as stored, in an
   * order that respects `Precedes`. Rows that tie are in no promised order.
   */
  ghost predicate IsListing(store: seq<Template>, admin: bool, rows: seq<Template>) {
    multiset(rows) == multiset(Visible(store, admin)) && Sorted(rows)
  }

  lemma PrecedesTransitive(a: Template, b: Template, c: Template)
    requires Precedes(a, b) && Precedes(b, c)
    ensures Precedes(a, c)
  {
  }

  /** Putting in front of a sorted sequence a row that may precede all of its rows keeps it sorted. */
  lemma SortedCons(y: Template, rows: seq<Template>)
    requires Sorted(rows)
    requires forall t :: t in rows ==> Precedes(y, t)
    ensures Sorted([y] + rows)
  {
    var r := [y] + rows;
    forall i, j | 0 <= i < j < |r| ensures Precedes(r[i], r[j]) {
      if i == 0 {
        assert r[j] == rows[j - 1];
      } else {
        assert r[i] == rows[i - 1] && r[j] == rows[j - 1];
      }
    }
  }

  /** Places `x` into a sorted sequence. */
  function Insert(x: Template, rows: seq<Template>): (r: seq<Template>)
    requires Sorted(rows)
    ensures multiset(r) == multiset(rows) + multiset{x}
    ensures Sorted(r)
  {
    if rows == [] then [x]
    else if Precedes(x, rows[0]) then
      forall t | t in rows ensures Precedes(x, t) {
        var k :| 0 <= k < |rows| && rows[k] == t;
        if k > 0 {
          PrecedesTransitive(x, rows[0], t);
        }
      }
      SortedCons(x, rows);
      [x] + rows
    else
      var rest := Insert(x, rows[1..]);
      assert rows == [rows[0]] + rows[1..];
      forall t | t in rest ensures Precedes(rows[0], t) {
        assert multiset(rest)[t] > 0;
        if t != x {
          var k :| 0 <= k < |rows[1..]| && rows[1..][k] == t;
          assert rows[k + 1] == t;
        }
      }
      SortedCons(rows[0], rest);
      [rows[0]] + rest
  }

  /** One order the store may produce: an insertion sort by `Precedes`. */
  function Sort(rows: seq<Template>): (r: seq<Template>)
    ensures multiset(r) == multiset(rows)
    ensures Sorted(r)
  {
    if rows == [] then []
    else
      assert rows == [rows[0]] + rows[1..];
      Insert(rows[0], Sort(rows[1..]))
  }

  /**
   * `GET /api/templates`. The user is resolved first; when that throws,
   * the store is not consulted.
   */
  function List(session: SessionEmail, users: UserTable, store: seq<Template>): (r: Response<Listing>)
    ensures RequireUser(session, users).Denied? <==> r == Uncaught("Unauthorized")
    ensures r.Uncaught? || r.Json?
    ensures r.Json? ==>
      && r.body.isAdmin == (RequireUser(session, users).value.user.role == AdminRole)
      && IsListing(store, r.body.isAdmin, r.body.templates)
  {
    match RequireUser(session, users)
    case Denied(e) => Uncaught(e.Message())
    case Granted(p) =>
      var admin := p.user.role == AdminRole;
      Json(Listing(Sort(Visible(store, admin)), admin))
  }

  /**
   * A listing holds exactly the visible rows: an admin sees every stored
   * row, anyone else only the active ones.
   */
  lemma ListingContents(store: seq<Template>, admin: bool, rows: seq<Template>)
    requires IsListing(store, admin, rows)
    ensures forall t :: t in rows <==> t in store && (admin || t.isActive)
    ensures admin ==> multiset(rows) == multiset(store)
    ensures !admin ==> forall t :: t in rows ==> t.isActive
  {
    var vis := Visible(store, admin);
    forall t ensures t in rows <==> t in vis {
      assert t in rows <==> multiset(rows)[t] > 0;
      assert t in vis <==> multiset(vis)[t] > 0;
    }
    if admin {
      forall t ensures multiset(vis)[t] == multiset(store)[t] {
        var keep := (t: Template) => admin || t.isActive;
        assert vis == Filter(store, keep);
      }
      assert multiset(vis) == multiset(store);
    }
  }

  /** In a listing every active row comes before every inactive one. */
  lemma ActiveFirst(rows: seq<Template>, i: int, j: int)
    requires Sorted(rows)
    requires 0 <= i < |rows| && 0 <= j < |rows|
    requires rows[i].isActive && !rows[j].isActive
    ensures i < j
  {
  }

  // ---------------------------------------------------------------------------
  // Creation
  // ---------------------------------------------------------------------------

  /** `!body.field?.trim()`: the field is absent, null or blank. */
  predicate Missing(field: Option<string>) {
    field.None? || IsBlank(field.value)
  }

  /** `body.field?.trim()`, kept only when it is truthy (not empty). */
  function Required(field: Option<string>): (r: Option<string>)
    ensures r.None? <==> Missing(field)
    ensures r.Some? ==> r.value == Trim(field.value) && r.value != []
  {
    if field.None? then None
    else
      var t := Trim(field.value);
      if t == [] then None else Some(t)
  }

  /** The fields of a template row that a `POST` stores. */
  datatype NewTemplate = NewTemplate(name: string, assetType: string, systemPrompt: string, isActive: bool)

  /**
   * The validation of a `POST` body and the row it asks for: the first of
   * name, assetType and systemPrompt that is missing is reported; otherwise
   * the three are stored trimmed and `isActive` defaults to true when
   * omitted. The asset type is not checked against the known types.
   */
  function Validate(body: TemplateBody): (r: Result<NewTemplate>)
    ensures r.Invalid? <==> Missing(body.name) || Missing(body.assetType) || Missing(body.systemPrompt)
    ensures r.Invalid? ==>
      && (r.field == Name <==> Missing(body.name))
      && (r.field == AssetType <==> !Missing(body.name) && Missing(body.assetType))
      && (r.field == SystemPrompt <==> !Missing(body.name) && !Missing(body.assetType))
    ensures r.Valid? ==>
      && r.value.name == Trim(body.name.value)
      && r.value.assetType == Trim(body.assetType.value)
      && r.value.systemPrompt == Trim(body.systemPrompt.value)
      && r.value.isActive == (body.isActive != Some(false))
  {
    match (Required(body.name), Required(body.assetType), Required(body.systemPrompt))
    case (None, _, _) => Invalid(Name)
    case (_, None, _) => Invalid(AssetType)
    case (_, _, None) => Invalid(SystemPrompt)
    case (Some(name), Some(assetType), Some(prompt)) =>
      Valid(NewTemplate(name, assetType, prompt, body.isActive.GetOr(true)))
  }

  /** The required fields of a template body, in the order they are checked. */
  datatype Field = Name | AssetType | SystemPrompt {
    /** The field's JSON key, as the error message names it. */
    function Key(): string {
      match this
      case Name => "name"
      case AssetType => "assetType"
      case SystemPrompt => "systemPrompt"
    }
  }

  datatype Result<+T> = Valid(value: T) | Invalid(field: Field)

  /** A stored field is non-blank and has no whitespace at either end. */
  ghost predicate WellFormedField(s: string) {
    !IsBlank(s) && Trim(s) == s
  }

  /** Whatever a valid body holds, the row it creates has well-formed fields. */
  lemma ValidatedRowWellFormed(body: TemplateBody)
    requires Validate(body).Valid?
    ensures WellFormedField(Validate(body).value.name)
    ensures WellFormedField(Validate(body).value.assetType)
    ensures WellFormedField(Validate(body).value.systemPrompt)
  {
    TrimIdempotent(body.name.value);
    TrimIdempotent(body.assetType.value);
    TrimIdempotent(body.systemPrompt.value);
  }

  /** The store's template table, which `POST` appends to. */
  class TemplateStore {
    var rows: seq<Template>

    /** Row ids are unique. */
    ghost predicate Valid()
      reads this
    {
      forall i, j :: 0 <= i < j < |rows| ==> rows[i].id != rows[j].id
    }

    constructor (initial: seq<Template>)
      requires forall i, j :: 0 <= i < j < |initial| ==> initial[i].id != initial[j].id
      ensures Valid() && rows == initial
    {
      rows := initial;
    }

    /**
     * `POST /api/templates`. The user is resolved, then the role is checked
     * before the body is looked at, then the fields are validated in order;
     * only then is exactly one row appended, with the store's new `id` and
     * timestamp, and only the id is returned.
     */
    method Post(session: SessionEmail, users: UserTable, body: TemplateBody, freshId: string, now: nat)
      returns (resp: Response<string>)
      requires Valid()
      requires forall t :: t in rows ==> t.id != freshId
      modifies this
      ensures Valid()
      ensures RequireUser(session, users).Denied? ==>
        resp == Uncaught("Unauthorized") && rows == old(rows)
      ensures RequireUser(session, users).Granted? && RequireUser(session, users).value.user.role != AdminRole ==>
        resp == Text(403, "Forbidden") && rows == old(rows)
      ensures RequireAdmin(session, users).Granted? && Validate(body).Invalid? ==>
        resp == Text(400, "Missing " + Validate(body).field.Key()) && rows == old(rows)
      ensures RequireAdmin(session, users).Granted? && Validate(body).Valid? ==>
        var v := Validate(body).value;
        && resp == Json(freshId)
        && rows == old(rows) + [Template(freshId, v.name, v.assetType, v.systemPrompt, v.isActive, now)]
      ensures resp.Json? <==> RequireAdmin(session, users).Granted? && Validate(body).Valid?
    {
      var auth := RequireUser(session, users);
      if auth.Denied? {
        return Uncaught(auth.error.Message());
      }
      if auth.value.user.role != AdminRole {
        return Text(403, "Forbidden");
      }
      var checked := Validate(body);
      if checked.Invalid? {
        return Text(400, "Missing " + checked.field.Key());
      }
      var v := checked.value;
      rows := rows + [Template(freshId, v.name, v.assetType, v.systemPrompt, v.isActive, now)];
      resp := Json(freshId);
    }
  }
}
