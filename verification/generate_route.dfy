/**
 * The generation gateway, `POST /api/generate`: guards in a fixed order,
 * the choice of the system prompt, the two messages sent to the language
 * model, and the mapping of its answer or failure to a response.
 */
module GenerateRoute {
  import opened Records
  import opened Text
  import opened Authz

  datatype Speaker = SystemRole | UserRole

  /** One entry of the model's `input`. */
  datatype Message = Message(role: Speaker, content: string)

  /**
   * What the model call gives back: a response whose `output_text` may be
   * absent, or a thrown error whose message may be empty or absent (`""`).
   */
  datatype UpstreamReply = Output(outputText: Option<string>) | Threw(message: string)

  /** What the route decides before the model is called. */
  datatype Plan = Reject(status: int, message: string) | Send(messages: seq<Message>)

  /** `process.env.OPENAI_API_KEY` is truthy: set and not empty. */
  predicate HasKey(apiKey: Option<string>) {
    apiKey.Some? && apiKey.value != ""
  }

  /** The fixed default system prompt has content and no surrounding whitespace. */
  lemma DefaultSystemPromptUsable()
    ensures !IsBlank(DefaultSystemPrompt) && Trim(DefaultSystemPrompt) == DefaultSystemPrompt
  {
    var d := DefaultSystemPrompt;
    assert d[0] == 'Y' && d[|d| - 1] == '.';
    TrimmedFixed(d);
  }

  /**
   * The system message: the override trimmed when it has content after
   * trimming, the fixed default otherwise. Either way it has content and
   * no surrounding whitespace.
   */
  function SystemPrompt(templateSystemPrompt: Option<string>): (r: string)
    ensures !IsBlank(r) && Trim(r) == r
    ensures templateSystemPrompt.Some? && !IsBlank(templateSystemPrompt.value) ==>
      r == Trim(templateSystemPrompt.value)
    ensures templateSystemPrompt.None? || IsBlank(templateSystemPrompt.value) ==>
      r == DefaultSystemPrompt
  {
    if templateSystemPrompt.Some? && templateSystemPrompt.value != "" && |Trim(templateSystemPrompt.value)| > 0 then
      TrimIdempotent(templateSystemPrompt.value);
      Trim(templateSystemPrompt.value)
    else
      DefaultSystemPromptUsable();
      DefaultSystemPrompt
  }

  /**
   * The guards, in the source's order: session e-mail (401), API key (500),
   * user row (401); then exactly two messages, the system prompt first and
   * the caller's prompt verbatim second.
   */
  function PlanRequest(session: SessionEmail, apiKey: Option<string>, users: UserTable, body: GenerateBody): (p: Plan)
    ensures !HasEmail(session) ==> p == Reject(401, "Unauthorized")
    ensures HasEmail(session) && !HasKey(apiKey) ==> p == Reject(500, "Missing OPENAI_API_KEY")
    ensures HasEmail(session) && HasKey(apiKey) && (forall u :: u in users ==> u.email != session.value) ==>
      p == Reject(401, "User not found")
    ensures p.Send? <==> HasEmail(session) && HasKey(apiKey) && (exists u :: u in users && u.email == session.value)
    ensures p.Send? ==>
      && |p.messages| == 2
      && p.messages[0] == Message(SystemRole, SystemPrompt(body.templateSystemPrompt))
      && p.messages[1] == Message(UserRole, body.prompt)
  {
    if !HasEmail(session) then Reject(401, "Unauthorized")
    else if !HasKey(apiKey) then Reject(500, "Missing OPENAI_API_KEY")
    else if FindUser(users, session.value).None? then Reject(401, "User not found")
    else Send([Message(SystemRole, SystemPrompt(body.templateSystemPrompt)), Message(UserRole, body.prompt)])
  }

  /**
   * The response to the model's answer: its text, or `""` when it has
   * none; a thrown failure becomes a 500 carrying its message, or
   * `Server error` when the message is empty.
   */
  function Respond(reply: UpstreamReply): (r: Response<string>)
    ensures r.Json? <==> reply.Output?
    ensures reply.Output? && reply.outputText.Some? ==> r.body == reply.outputText.value
    ensures reply.Output? && reply.outputText.None? ==> r.body == ""
    ensures r.Text? ==> r.status == 500 && r.message != ""
    ensures reply.Threw? ==> r.Text?
    ensures reply.Threw? && reply.message != "" ==> r == Text(500, reply.message)
    ensures reply.Threw? && reply.message == "" ==> r == Text(500, "Server error")
    ensures !r.Uncaught?
  {
    match reply
    case Output(text) => Json(text.GetOr(""))
    case Threw(message) => Text(500, if message == "" then "Server error" else message)
  }

  /**
   * `POST /api/generate`, with the model call as the parameter `upstream`:
   * a rejected request answers without consulting it; an accepted one
   * answers with what it returns for the planned messages.
   */
  function Generate(
    session: SessionEmail, apiKey: Option<string>, users: UserTable, body: GenerateBody,
    upstream: seq<Message> -> UpstreamReply): (r: Response<string>)
    ensures PlanRequest(session, apiKey, users, body).Reject? ==>
      r == Text(PlanRequest(session, apiKey, users, body).status, PlanRequest(session, apiKey, users, body).message)
    ensures PlanRequest(session, apiKey, users, body).Send? ==>
      r == Respond(upstream(PlanRequest(session, apiKey, users, body).messages))
  {
    match PlanRequest(session, apiKey, users, body)
    case Reject(status, message) => Text(status, message)
    case Send(messages) => Respond(upstream(messages))
  }

  /** Whatever the model would answer, a rejected request gets the same response. */
  lemma RejectedIgnoresUpstream(
    session: SessionEmail, apiKey: Option<string>, users: UserTable, body: GenerateBody,
    upstream1: seq<Message> -> UpstreamReply, upstream2: seq<Message> -> UpstreamReply)
    requires PlanRequest(session, apiKey, users, body).Reject?
    ensures Generate(session, apiKey, users, body, upstream1) == Generate(session, apiKey, users, body, upstream2)
  {
  }

  /** Neither the instruction nor the project id changes what is sent or answered. */
  lemma InstructionAndProjectIgnored(
    session: SessionEmail, apiKey: Option<string>, users: UserTable, body: GenerateBody,
    instruction: Option<string>, projectId: Option<string>)
    ensures PlanRequest(session, apiKey, users, body) ==
      PlanRequest(session, apiKey, users, body.(instruction := instruction, projectId := projectId))
  {
  }
}
