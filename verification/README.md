# B2B Content Studio — a Dafny model of its decision logic

B2B Content Studio is a small Next.js application for drafting marketing
assets (white papers, comparison guides, sponsored blog posts) with a
language model. A signed-in user fills in a brief in the studio view,
optionally picks a system-prompt template, and asks the generation gateway
for a draft, which can then be refined with one-click instructions.
Administrators maintain the template library. This project models the
deterministic logic of that application, with the framework, the database and
the model API abstracted away:

- `Text` — JavaScript's `String.prototype.trim`: the ECMAScript whitespace set, and "blank after trimming".
- `Records` — the `User`, `Template` and `Project` rows, the JSON request bodies, and route responses.
  A route response is `Json`, `Text(status, message)`, or `Uncaught` for an error thrown out of a handler.
- `Seqs` — order-preserving filtering (`Array.prototype.filter`, and the `where` of a query).
- `Authz` — `requireUser` and `requireAdmin` (`lib/authz.ts`).
- `TemplatesRoute` — `GET /api/templates` and `POST /api/templates`:
  - listing by role, in the store's order;
  - admin-only creation with ordered validation, as a method on the template table.
- `GenerateRoute` — `POST /api/generate`:
  - the guard order and the system-prompt fallback;
  - the two messages sent to the model;
  - how the answer or a failure becomes a response.
  The model call is a function parameter.
- `ProjectsRoute` — `POST /api/projects`: a method on the project table that inserts one owned row.
- `Studio` — the studio view (`app/studio.tsx`):
  - the prompt composer `buildPrompt`, the brief validator and the template filter;
  - a class holding the view state, which the select handlers and `generate` update.
- `TemplatesClient` — the template library page (`app/templates/templates-client.tsx`):
  - the creation-form validator and the PATCH bodies it sends;
  - a class holding the page state, which `refresh` and the form handlers update.

The session is an optional e-mail, and the user table a sequence of rows.
Store-generated ids and timestamps are method parameters. Asynchronous
handlers are split into a synchronous start and an end that receives the
response.

## Model

| member | source | states |
|---|---|---|
| Text.Trim | app/api/templates/route.ts:43-45 | `s.trim()`: leading whitespace dropped, then trailing whitespace; what this means is stated by `Text.TrimSpec` |
| Text.IsBlank | app/api/templates/route.ts:37-39 | `!s.trim()`: nothing is left after trimming; `Text.BlankSpec` states it as "every character is whitespace" |
| Text.TrimSpec | app/api/templates/route.ts:43-45 | `trim` yields the piece `s[i..j]` of its input with only whitespace before `i` and after `j`, and no whitespace at either end of the piece |
| Text.BlankSpec | app/studio.tsx:57 | a string is falsy after `trim` exactly when every character of it is whitespace |
| Text.TrimIdempotent | app/api/generate/route.ts:42-43 | trimming an already trimmed string changes nothing |
| Authz.FindUser | lib/authz.ts:9 | the lookup returns a row of the table with that e-mail, and returns nothing exactly when no row has it |
| Authz.FindUserUnique | lib/authz.ts:9 | when e-mails are unique, the lookup returns the one row with that e-mail |
| Authz.RequireUser | lib/authz.ts:4-13 | fails with `Unauthorized` exactly when the session has no e-mail or no row matches it; on success returns the session's e-mail and the matching row |
| Authz.RequireAdmin | lib/authz.ts:15-19 | passes `requireUser` failures on unchanged; fails with `Forbidden` exactly when the resolved role is not `admin`; otherwise returns the row `requireUser` resolved |
| Authz.NoSessionDenied | lib/authz.ts:5-7 | without an e-mail both gates fail with `Unauthorized`, whatever the user table holds |
| TemplatesRoute.Visible | app/api/templates/route.ts:10 | an admin sees every stored row; anyone else sees exactly the active rows |
| TemplatesRoute.Insert | app/api/templates/route.ts:11 | inserting a row into a list sorted active-first, then newest-first, keeps it sorted and adds exactly that row |
| TemplatesRoute.Sort | app/api/templates/route.ts:11 | the sort is a permutation of its input, ordered active-first and then by `updatedAt` descending |
| TemplatesRoute.List | app/api/templates/route.ts:6-23 | the user is resolved first, and when that throws the store is not read; `isAdmin` is whether the role is `admin`; the rows are a listing of the visible rows |
| TemplatesRoute.ListingContents | app/api/templates/route.ts:9-11 | a listing holds every stored row, each as often as stored, for an admin; for anyone else it holds exactly the active rows |
| TemplatesRoute.ActiveFirst | app/api/templates/route.ts:11 | in a listing every active row stands before every inactive one |
| TemplatesRoute.Missing | app/api/templates/route.ts:37-39 | `!body.field?.trim()`: the field is absent, null, or blank after trimming |
| TemplatesRoute.Required | app/api/templates/route.ts:37-45 | gives nothing exactly when the field is missing, and otherwise the field trimmed, which is non-empty |
| TemplatesRoute.Validate | app/api/templates/route.ts:37-47 | rejects exactly when a field is missing, naming the first missing one in the order name, assetType, systemPrompt; otherwise gives the three trimmed fields, with `isActive` true unless it is explicitly false |
| TemplatesRoute.ValidatedRowWellFormed | app/api/templates/route.ts:43-45 | every field a valid body stores is non-blank and has no whitespace at either end |
| TemplatesRoute.TemplateStore.constructor | app/api/templates/route.ts:41-49 | a template table holds the given rows, whose ids are unique, as the store's generated ids are |
| TemplatesRoute.TemplateStore.Post | app/api/templates/route.ts:25-52 | unauthenticated: throws and writes nothing; non-admin: 403 `Forbidden`, nothing written; invalid body: 400 `Missing <field>`, nothing written; otherwise appends exactly one row, returns only its id, and keeps row ids unique |
| GenerateRoute.HasKey | app/api/generate/route.ts:25 | `process.env.OPENAI_API_KEY` is truthy: present and not empty |
| GenerateRoute.DefaultSystemPromptUsable | app/api/generate/route.ts:38-39 | the default system prompt has content and no surrounding whitespace |
| GenerateRoute.SystemPrompt | app/api/generate/route.ts:41-44 | the system message is the trimmed template prompt when it is non-blank after trimming, and the default otherwise; either way it is non-blank and trimmed |
| GenerateRoute.PlanRequest | app/api/generate/route.ts:13-52 | the checks run in order: no e-mail gives 401, then no API key gives 500, then no user row gives 401 `User not found`; a request is sent exactly when all three pass, as two messages: the system prompt, then the caller's prompt verbatim |
| GenerateRoute.Respond | app/api/generate/route.ts:54-60 | the answer's text, or `""` when it has none; a thrown failure becomes a 500 carrying its message, or `Server error` when the message is empty |
| GenerateRoute.Generate | app/api/generate/route.ts:11-61 | a rejected request gets its status and message; an accepted one gets the reply to exactly the planned messages |
| GenerateRoute.RejectedIgnoresUpstream | app/api/generate/route.ts:14-35 | when a guard rejects, the response does not depend on the model |
| GenerateRoute.InstructionAndProjectIgnored | app/api/generate/route.ts:18-23 | `instruction` and `projectId` do not change what is decided or sent |
| ProjectsRoute.ProjectTitle | app/api/projects/route.ts:18 | an absent or empty title becomes `Untitled`; any other title, blank ones included, is kept |
| ProjectsRoute.NewProject | app/api/projects/route.ts:15-21 | the owner is the resolved user, never the body; the asset type is stored unchecked; a missing brief becomes `{}` |
| ProjectsRoute.ProjectStore.constructor | app/api/projects/route.ts:15-23 | the project table starts empty, with every project filed under its own id |
| ProjectsRoute.ProjectStore.Post | app/api/projects/route.ts:6-26 | no e-mail: 401 with no store change; unknown e-mail: 401 `User not found`, nothing created; otherwise exactly one project is added under the new id, owned by the caller, and only the id is returned |
| Studio.CanGenerate | app/studio.tsx:56-59 | holds exactly when audience, industry, solution, differentiators, tone and CTA all have content after trimming; title, competitors and notes play no part |
| Studio.FilteredTemplates | app/studio.tsx:51-54 | an order-preserving subsequence holding exactly the active templates of the chosen type, each as often as listed |
| Studio.FindTemplate | app/studio.tsx:192 | the first template with that id, or nothing exactly when none has it |
| Studio.BuildPrompt | app/studio.tsx:61-89 | the template literal over the brief, the draft and the instruction, trimmed; its closed form is `Studio.PromptShape` and its properties the lemmas below |
| Studio.TailSpec | app/studio.tsx:86-88 | after the final trim, the draft block and the revision line reduce to `Tail` |
| Studio.PromptShape | app/studio.tsx:61-88 | the prompt is the fixed part followed by `Tail`: the draft block appears exactly when the draft is non-empty, the revision line exactly when the instruction is, and the draft block comes first |
| Studio.PromptContents | app/studio.tsx:62-84 | every prompt opens with `Create a <type>.` and contains the brief, the requirements of all three asset types, and the rules |
| Studio.BriefLinesShown | app/studio.tsx:65-73 | each brief field appears verbatim after its label; empty competitors or notes appear as `None` |
| Studio.PromptTrimmed | app/studio.tsx:88 | the prompt is non-empty and has no whitespace at either end |
| Studio.OnlyHeaderVaries | app/studio.tsx:63-84 | two prompts that differ only in asset type differ only in their header line |
| Studio.RefinementPrompt | app/studio.tsx:238-249 | each one-click refinement is a non-empty instruction, so `generate` shows `Refining…`; its prompt is the fixed part, then the prior draft, then `Revision instruction: ` and the refinement's text, with nothing after |
| Studio.RevisedPrompt | app/studio.tsx:86-88 | with a draft and an instruction that has content and no trailing whitespace, the prompt ends with the draft block followed by the whole instruction line |
| Studio.RefinementTrimmed | app/studio.tsx:238-249 | each refinement's instruction has content and no trailing whitespace |
| Studio.RequestBody | app/studio.tsx:99-103 | the posted body carries the built prompt and no project id; an empty instruction or template prompt is sent as `null`, any other as it is |
| Studio.RequestMessages | app/studio.tsx:99-103 | for a studio request the gateway accepts, the system message is the selected template's prompt trimmed, or the default when that prompt is blank; the user message is the built prompt |
| Studio.SelectionInList | app/studio.tsx:192-193 | a template found among the filtered ones is one of them, with the requested id |
| Studio.StudioView.GenerateEnabled | app/studio.tsx:221 | `Generate Draft` is enabled exactly when the six required brief fields have content and nothing is in flight |
| Studio.StudioView.RefineEnabled | app/studio.tsx:238-249 | the refinements are enabled exactly when nothing is in flight and the prompt would carry a prior draft |
| Studio.StudioView.Request | app/studio.tsx:99-103 | the body posted from the view's state carries the built prompt, and any template prompt it sends belongs to the selected template, which is active and of the current asset type |
| Studio.StudioView.constructor | app/studio.tsx:16-39 | the view starts on White Paper, with no templates, no selection, the default brief, no draft, not loading and an empty status |
| Studio.StudioView.LoadTemplates | app/studio.tsx:41-49 | a successful listing replaces the templates; a failure leaves everything as it was |
| Studio.StudioView.SelectAssetType | app/studio.tsx:161-167 | sets the type and clears the template id and prompt; nothing else changes |
| Studio.StudioView.SelectTemplate | app/studio.tsx:189-193 | sets the id, and takes the prompt of the first active template of the current type with that id, or `""` when there is none; the prompt in use always belongs to the selected template |
| Studio.StudioView.EditBrief | app/studio.tsx:183-216 | replaces the brief and nothing else |
| Studio.StudioView.EditDraft | app/studio.tsx:263 | replaces the draft and nothing else |
| Studio.StudioView.BeginGenerate | app/studio.tsx:92-93 | marks the view busy, which disables generating and every refinement; the status reads `Refining…` exactly when there is an instruction, and `Generating…` otherwise |
| Studio.StudioView.FinishGenerate | app/studio.tsx:106-117 | success: the draft becomes the returned text and the status `Done ✅`; failure: the draft is kept and the status cleared; either way the view is no longer busy, so Generate is enabled exactly when the brief is complete and the refinements exactly when there is a draft |
| TemplatesClient.CanCreate | app/templates/templates-client.tsx:25 | holds exactly when name, asset type and system prompt all have content after trimming |
| TemplatesClient.CreateBody | app/templates/templates-client.tsx:44 | the posted body carries the three form fields as typed and always `isActive: true` |
| TemplatesClient.CreateAgreesWithRoute | app/templates/templates-client.tsx:40-45 | the posted body always has `isActive: true`; the route accepts it exactly when the form allows it, and stores the trimmed fields as active |
| TemplatesClient.Fields | app/templates/templates-client.tsx:57 | the fields a patch body carries are exactly its present ones |
| TemplatesClient.TogglePatch | app/templates/templates-client.tsx:53-58 | the patch carries only `isActive`, set to the negation of the template's current value |
| TemplatesClient.QuickEditPatch | app/templates/templates-client.tsx:63-71 | nothing is sent when the dialog is cancelled; otherwise the patch carries only `systemPrompt`, set to the answer as typed |
| TemplatesClient.QuickEditSendsBlank | app/templates/templates-client.tsx:64-70 | every blank answer is sent as the only field of the patch, although the route refuses to create a template with such a prompt |
| TemplatesClient.InitialFormNeedsOnlyName | app/templates/templates-client.tsx:19-25 | on a fresh page the form can create a template as soon as the name has content |
| TemplatesClient.TemplatesView.CreateEnabled | app/templates/templates-client.tsx:178 | the `Create` button is enabled exactly when the three fields have content, which is exactly when the route would accept the body it posts |
| TemplatesClient.TemplatesView.constructor | app/templates/templates-client.tsx:15-23 | the page starts with no templates, not admin, loading, an empty name, White Paper and the default system prompt |
| TemplatesClient.TemplatesView.BeginRefresh | app/templates/templates-client.tsx:28 | a refresh marks the page as loading and changes nothing else |
| TemplatesClient.TemplatesView.FinishRefresh | app/templates/templates-client.tsx:29-33 | a listing replaces the templates and the admin flag wholesale and ends loading; a non-admin page then shows only active templates; when the route throws, nothing changes |
| TemplatesClient.TemplatesView.EditForm | app/templates/templates-client.tsx:148-174 | replaces the three form fields and nothing else |
| TemplatesClient.TemplatesView.CreateDone | app/templates/templates-client.tsx:46-50 | on success only the name is cleared and a refresh starts, so the asset type and the prompt are kept; a failure changes nothing |
| TemplatesClient.TemplatesView.PatchDone | app/templates/templates-client.tsx:59-60 | a successful patch starts a refresh; a failure changes nothing |

## Left out

- Network and timing are not modelled. This covers `fetch`/`async` and the `useEffect` loaders, which become a start method plus an end method that receives the response.
  It also covers the `setTimeout` status resets (app/studio.tsx:110) and console logging.
- The clipboard `copyDraft` (app/studio.tsx:120-125) is not modelled: it is browser I/O.
- The `alert` and `prompt` dialogs are not modelled. The answer to `prompt` is the parameter of `TemplatesClient.QuickEditPatch`.
- JSON parsing is not modelled: bodies arrive as typed records.
  - A body whose fields are not strings is not modelled.
  - In `refresh`, a response that is not JSON is the thrown case, where nothing changes.
- Handler errors are modelled only up to the point where they are thrown. Nothing in the handler catches them, and the framework's 500 response to them is not modelled.
- The OpenAI client is a function parameter, as are its model name and network behaviour.
- Prisma is not modelled as a database. The store is a sequence or a map, and ids and timestamps are parameters.
  Store failures, such as a unique-constraint error on insert, are not modelled.
- `TemplatesRoute.List`: rows that tie on activity and `updatedAt` may appear in any order. The contract promises only the order the query states; `Sort` is one order the store may produce.
- `auth.ts` (NextAuth configuration) is not part of this model. The session is an optional e-mail.
- `app/page.tsx` and `app/templates/page.tsx` are not part of this model: they only gate rendering.
- `app/api/envcheck/route.ts` is not part of this model: it only reads the environment.
- The `PATCH /api/templates/{id}` handler is not part of this model. Only the patch bodies the client sends are modelled.
- JSX markup, styling and the `Field`/`Area`/`QuickButton` components are left out.
- Rendering is left out, including the "Working…" label and the read-only template list.
- Studio.StudioView.LoadTemplates: requires an empty template list, because the mount effect runs once, before any listing has arrived.
- Long fixed texts, such as the prompt blocks and the default system prompt, are written as concatenations of short literals. The text is unchanged.
