/**
 * Project creation, `POST /api/projects`: the caller is resolved from the
 * session, then exactly one project row is inserted, owned by that caller.
 */
module ProjectsRoute {
  import opened Records
  import opened Authz

  /**
   * `body.title || "Untitled"`: an absent or empty title becomes
   * `Untitled`; any other title, blank ones included, is kept as given.
   */
  function ProjectTitle(title: Option<string>): (r: string)
    ensures r != ""
    ensures title.Some? && title.value != "" ==> r == title.value
    ensures title.None? || title.value == "" ==> r == "Untitled"
  {
    if title.Some? && title.value != "" then title.value else "Untitled"
  }

  /**
   * The row inserted for `body` on behalf of the user with id `ownerId`:
   * the owner never comes from the body, the asset type is stored
   * unchecked, and a null or absent brief becomes the empty object.
   */
  function NewProject(id: string, ownerId: string, body: ProjectBody): (p: Project)
    ensures p.id == id && p.userId == ownerId
    ensures p.title == ProjectTitle(body.title)
    ensures p.assetType == body.assetType
    ensures body.brief.Some? ==> p.brief == body.brief.value
    ensures body.brief.None? ==> p.brief == map[]
  {
    Project(id, ownerId, ProjectTitle(body.title), body.assetType, body.brief.GetOr(map[]))
  }

  /** The store's project table, keyed by project id. */
  class ProjectStore {
    var projects: map<string, Project>

    /** Every project is filed under its own id. */
    ghost predicate Valid()
      reads this
    {
      forall id :: id in projects ==> projects[id].id == id
    }

    constructor ()
      ensures Valid() && projects == map[]
    {
      projects := map[];
    }

    /**
     * `POST /api/projects`. Without a session e-mail the store is not
     * touched (401); an e-mail with no user row gets 401 `User not found`
     * and creates nothing; otherwise exactly one project is added under the
     * store's new id, owned by the resolved user, and only its id is
     * returned.
     */
    method Post(session: SessionEmail, users: UserTable, body: ProjectBody, freshId: string)
      returns (resp: Response<string>)
      requires Valid()
      requires freshId !in projects
      modifies this
      ensures Valid()
      ensures !HasEmail(session) ==> resp == Text(401, "Unauthorized") && projects == old(projects)
      ensures HasEmail(session) && FindUser(users, session.value).None? ==>
        resp == Text(401, "User not found") && projects == old(projects)
      ensures HasEmail(session) && FindUser(users, session.value).Some? ==>
        && resp == Json(freshId)
        && projects == old(projects)[freshId := NewProject(freshId, FindUser(users, session.value).value.id, body)]
      ensures resp.Json? ==> |projects| == |old(projects)| + 1
    {
      if !HasEmail(session) {
        return Text(401, "Unauthorized");
      }
      var user := FindUser(users, session.value);
      if user.None? {
        return Text(401, "User not found");
      }
      projects := projects[freshId := NewProject(freshId, user.value.id, body)];
      resp := Json(freshId);
    }
  }
}
