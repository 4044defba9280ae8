/**
 * The authorization gate: resolves the session's e-mail to a user row and
 * enforces the administrator role.
 */
module Authz {
  import opened Records

  /** The user table, as the store holds it. */
  type UserTable = seq<User>

  /** The store's unique constraint on `User.email`. */
  ghost predicate UniqueEmails(users: UserTable) {
    forall i, j :: 0 <= i < j < |users| ==> users[i].email != users[j].email
  }

  /** `prisma.user.findUnique({ where: { email } })`. */
  function FindUser(users: UserTable, email: string): (r: Option<User>)
    ensures r.Some? ==> r.value in users && r.value.email == email
    ensures r.None? <==> forall u :: u in users ==> u.email != email
  {
    if users == [] then None
    else if users[0].email == email then Some(users[0])
    else FindUser(users[1..], email)
  }

  /** Under the unique constraint the lookup finds the one row with that e-mail. */
  lemma FindUserUnique(users: UserTable, email: string, u: User)
    requires UniqueEmails(users)
    requires u in users && u.email == email
    ensures FindUser(users, email) == Some(u)
  {
    var r := FindUser(users, email);
    var i :| 0 <= i < |users| && users[i] == u;
    var j :| 0 <= j < |users| && users[j] == r.value;
    assert i == j;
  }

  /** The errors the gate throws. */
  datatype AuthError = Unauthorized | Forbidden {
    /** The message of the thrown `Error`. */
    function Message(): string {
      match this
      case Unauthorized => "Unauthorized"
      case Forbidden => "Forbidden"
    }
  }

  datatype AuthResult<+T> = Granted(value: T) | Denied(error: AuthError)

  /** What `requireUser` returns: the session's e-mail and the resolved row. */
  datatype Principal = Principal(email: string, user: User)

  /** `requireUser()`. */
  function RequireUser(session: SessionEmail, users: UserTable): (r: AuthResult<Principal>)
    ensures r.Denied? <==> !HasEmail(session) || (forall u :: u in users ==> u.email != session.value)
    ensures r.Denied? ==> r.error == Unauthorized
    ensures r.Granted? ==>
      && r.value.email == session.value
      && r.value.user in users
      && r.value.user.email == session.value
  {
    if !HasEmail(session) then Denied(Unauthorized)
    else
      match FindUser(users, session.value)
      case None => Denied(Unauthorized)
      case Some(u) => Granted(Principal(session.value, u))
  }

  /** `requireAdmin()`. */
  function RequireAdmin(session: SessionEmail, users: UserTable): (r: AuthResult<User>)
    ensures RequireUser(session, users).Denied? ==> r == Denied(RequireUser(session, users).error)
    ensures RequireUser(session, users).Granted? ==>
      (r.Denied? <==> RequireUser(session, users).value.user.role != AdminRole)
    ensures r.Denied? && RequireUser(session, users).Granted? ==> r.error == Forbidden
    ensures r.Granted? ==> r.value == RequireUser(session, users).value.user && r.value.role == AdminRole
  {
    match RequireUser(session, users)
    case Denied(e) => Denied(e)
    case Granted(p) => if p.user.role != AdminRole then Denied(Forbidden) else Granted(p.user)
  }

  /** A caller without an e-mail is turned away by both gates, whatever the table. */
  lemma NoSessionDenied(session: SessionEmail, users: UserTable)
    requires !HasEmail(session)
    ensures RequireUser(session, users) == Denied(Unauthorized)
    ensures RequireAdmin(session, users) == Denied(Unauthorized)
  {
  }
}
