/**
 * The rows and request bodies shared by the routes and the two client views:
 * the `User`, `Template` and `Project` rows of the relational store, the JSON
 * bodies the clients send, and the HTTP responses the routes return.
 */
module Records {

  datatype Option<+T> = None | Some(value: T) {
    function GetOr(default: T): T {
      match this
      case Some(v) => v
      case None => default
    }
  }

  /** The role value that marks an administrator; every other role is ordinary. */
  const AdminRole: string := "admin"

  /** A user row; `email` is unique in the table. */
  datatype User = User(id: string, email: string, role: string)

  /** A template row: a named system-prompt preset bound to an asset type. */
  datatype Template = Template(
    id: string,
    name: string,
    assetType: string,
    systemPrompt: string,
    isActive: bool,
    updatedAt: nat)

  /** The brief payload of a project, an opaque JSON object of named values. */
  type BriefPayload = map<string, string>

  /** A project row, owned by the user whose id is `userId`. */
  datatype Project = Project(
    id: string,
    userId: string,
    title: string,
    assetType: Option<string>,
    brief: BriefPayload)

  /**
   * The identity a request arrives with: the e-mail of the signed-in user,
   * or `None` when there is no session, no user in it, or no e-mail.
   */
  type SessionEmail = Option<string>

  /**
   * `session?.user?.email` is truthy: a session exists and carries a
   * non-empty e-mail.
   */
  predicate HasEmail(session: SessionEmail) {
    session.Some? && session.value != ""
  }

  /**
   * What a route hands back: a 200 JSON body, a plain-text response with a
   * status code, or an error the handler throws and does not catch.
   */
  datatype Response<+T> =
    | Json(body: T)
    | Text(status: int, message: string)
    | Uncaught(message: string)

  /** Body of `POST /api/templates`; an absent or null field is `None`. */
  datatype TemplateBody = TemplateBody(
    name: Option<string>,
    assetType: Option<string>,
    systemPrompt: Option<string>,
    isActive: Option<bool>)

  /** Body of `PATCH /api/templates/{id}`: only the fields present are sent. */
  datatype TemplatePatch = TemplatePatch(
    name: Option<string>,
    assetType: Option<string>,
    systemPrompt: Option<string>,
    isActive: Option<bool>)

  /** Body of `POST /api/generate`; `instruction` and the override may be null. */
  datatype GenerateBody = GenerateBody(
    prompt: string,
    projectId: Option<string>,
    instruction: Option<string>,
    templateSystemPrompt: Option<string>)

  /** Body of `POST /api/projects`. */
  datatype ProjectBody = ProjectBody(
    title: Option<string>,
    assetType: Option<string>,
    brief: Option<BriefPayload>)

  /** Body of a successful `GET /api/templates`. */
  datatype Listing = Listing(templates: seq<Template>, isAdmin: bool)

  /**
   * The system prompt used when no template supplies one; the template form
   * of the admin client starts from the same text.
   */
  const DefaultSystemPrompt: string :=
    "You are an expert B2B " + "technology content writer. " + "Output Markdown. Do not "
    + "invent stats, quotes, " + "customers, awards, " + "certifications."
}
