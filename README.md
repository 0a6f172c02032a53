# Watson: a Dafny model of the session gate, the auth rules, the query pipeline and the chat state

Watson is a legal-assistant web application: a Next.js front end (two iterations, `frontend/`
and `watson/`) and a Python back end that answers questions with a retrieval pipeline.
This project models the parts of it that make decisions or keep state, and proves what
they promise:

- **Session gate** (`frontend/middleware.ts`, `frontend/proxy.ts`). A request whose path
  starts with a public prefix passes; any other request passes with a readable session
  token and is otherwise redirected to `/login`. The proxy variant also deletes the two
  session cookies, on the redirect only. Proved: both variants take the same decision on
  every path and token; `/api/auth/callback` adds nothing to the public list; the prefix
  test has no segment boundary (`/api/authorize` and `/signup-extra` are public); under the
  configured matcher only the `/api/auth` prefix ever matters; cookies are cleared on exactly
  the redirect.
- **Registration** (`frontend/app/api/register/route.ts`). A user table as a class; the
  handler checks for an email and a password, rejects a known email, and appends one row
  holding the hash of the password. Errors leave the table as it was, and the invariant
  "no two rows share an email" is kept by every call.
- **Auth rules** (`frontend/lib/schemas/auth.ts`, `frontend/app/actions/auth.ts`). The login
  and signup schemas as issue lists with their acceptance conditions, and the login action's
  outcome — including its inverted success check (see Findings).
- **Query pipeline** (`backend/graph.py`, `backend/main.py`). The four graph nodes as methods
  of the shared state: one score per document, 5.0 when none can be had; web search only
  when no score reaches 7.0, at most three snippets; the context made of the documents
  scoring 5.0 or more, in order, then the web snippets, or the fixed fallback text; and the
  response built from the final state.
- **Chat and session list** (`watson/app/dashboard/components/Chat.tsx`,
  `frontend/components/dashboard/ChatInterface.tsx`, `watson/app/dashboard/components/Sidebar.tsx`).
  Classes whose methods are the submit and completion steps, the session effect and the
  list updates. The simulated chat keeps the invariant that its messages alternate
  user/assistant after the greeting.

The language model, the vector store, the web fetch, `getToken`, `signIn`, the password
hash, the email-format test, `gen_random_uuid()`, the clock-derived message ids and Python's
float formatting are parameters of the operations that use them.

`frontend/proxy.ts:38-40` returns the prepared redirect only when no token was read and
passes through otherwise; the comment at `frontend/proxy.ts:23` describes the discarded
response.

## Model

| member | source | states |
|---|---|---|
| `JsString.SomeStartsWithIff` | frontend/middleware.ts:13 | `PUBLIC_PATHS.some(startsWith)` holds exactly when some listed prefix is a prefix of the path |
| `JsString.TrimEmptyIffBlank` | watson/app/dashboard/components/Chat.tsx:65 | `!input.trim()` holds exactly when every character is JavaScript whitespace, the empty string included |
| `NextServer.Response.SetCookie` | frontend/proxy.ts:24-36 | `cookies.set` adds or replaces the named cookie, keeps the others and the response's action |
| `Middleware.Middleware` | frontend/middleware.ts:13-31 | public path: pass through; otherwise redirect to `/login` exactly when no token; no cookie is ever set |
| `Middleware.Gate` | frontend/middleware.ts:34-36 | the gate applies only to paths matching `/dashboard/:path*` or `/api/:path*`; every other path passes |
| `Middleware.PublicPrefixHasNoSegmentBoundary` | frontend/middleware.ts:7-13 | any string extending a public prefix, with no `/` required, is public |
| `Middleware.PublicExamples` | frontend/middleware.ts:13 | `/api/authorize` and `/signup-extra` are public, and an unauthenticated `/api/authorize` passes |
| `Middleware.MatchedPublicMeansAuthApi` | frontend/middleware.ts:7-36 | on a matched path, public exactly when it starts with `/api/auth`: the `/login` and `/signup` entries never decide anything |
| `Middleware.ProtectedWithoutTokenRedirects` | frontend/middleware.ts:25-28 | a matched path outside `/api/auth` with no token is redirected to `/login` |
| `Proxy.CallbackPrefixRedundant` | frontend/proxy.ts:5 | the four-prefix list classifies every path as the three-prefix list of the middleware does |
| `Proxy.Proxy` | frontend/proxy.ts:11-40 | public: pass, no cookie; no token: redirect to `/login` deleting exactly the two session cookies (value "", path "/", max-age 0); token: pass, no cookie; cookies present iff redirect; same action as the middleware for every path and token |
| `Register.IdsWithEmail` | frontend/app/api/register/route.ts:12-14 | the lookup returns no more ids than there are rows; every returned id is the id of a row with the email, and every row with the email has its id returned |
| `Register.IdsWithEmailAppend` | frontend/app/api/register/route.ts:12-14 | the lookup keeps table order: looking up in a concatenation concatenates the lookups |
| `Register.IdsWithEmailAtMostOne` | frontend/app/api/register/route.ts:12-16 | while emails are unique, the lookup returns at most one id |
| `Register.IdsWithEmailEmptyIff` | frontend/app/api/register/route.ts:12-16 | the email lookup returns no id exactly when no row has that email |
| `Register.AppendNewEmailKeepsUnique` | frontend/app/api/register/route.ts:16-26 | inserting a row with an email not yet present keeps emails unique |
| `Register.UserTable.constructor` | frontend/app/api/register/route.ts:12-26 | an empty table satisfies the uniqueness invariant |
| `Register.UserTable.SelectIdsByEmail` | frontend/app/api/register/route.ts:12-14 | returns the ids of the rows with the email, in table order, non-empty iff such a row exists |
| `Register.UserTable.Insert` | frontend/app/api/register/route.ts:22-26 | appends exactly the given row |
| `Register.UserTable.Post` | frontend/app/api/register/route.ts:5-28 | missing or empty email or password: 400 "Missing fields", table unchanged; known email: 409 "User already exists", table unchanged; otherwise `{ success: true }` and exactly one row appended with the given name (unchecked, possibly null), the email, the hash of the password and a null `emailVerified`; email uniqueness is kept |
| `AuthSchemas.LoginIssues` | frontend/lib/schemas/auth.ts:3-6 | accepted exactly when the email is well-formed and non-empty and the password has at least 6 characters; each message is reported exactly when its check fails |
| `AuthSchemas.SignupIssues` | frontend/lib/schemas/auth.ts:8-21 | accepted exactly when name ≥ 2, email well-formed, password and confirmation ≥ 8 and equal; a mismatch is reported last, under `confirmPassword`, as "Passwords do not match" |
| `AuthSchemas.SignupAcceptedLoginAccepted` | frontend/lib/schemas/auth.ts:3-16 | credentials accepted by signup are accepted by login when the email format rejects "" |
| `AuthActions.SignedIn` | frontend/app/actions/auth.ts:20 | `result?.ok`: an absent result is not a success; a present one is exactly when it reports ok |
| `AuthActions.LoginAction` | frontend/app/actions/auth.ts:6-25 | missing or empty credentials throw "Missing credentials"; otherwise the action throws "Inavlid email or password" exactly when sign-in reports ok, and else redirects to `/dashboard` |
| `AuthActions.MissingCredentialsIgnoreSignIn` | frontend/app/actions/auth.ts:10-12 | missing credentials are rejected whatever sign-in would answer: it is not consulted |
| `AuthActions.AcceptedCredentialsAreRejected` | frontend/app/actions/auth.ts:20-24 | with non-empty credentials the action redirects exactly when sign-in did not report ok |
| `AuthActions.IntendedLoginAction` | frontend/app/actions/auth.ts:10-24 | the corrected action redirects to `/dashboard` exactly when the credentials are present and sign-in reports ok |
| `AuthActions.IntendedDiffersFromWritten` | frontend/app/actions/auth.ts:20-24 | on every non-empty credential pair the corrected action redirects exactly where the written one throws |
| `Graph.Run` | backend/graph.py:150-154 | following the single outgoing edges from a node lists the nodes visited up to `END`, without `END` itself; from the entry point that is four nodes |
| `Graph.RunFollowsEdges` | backend/graph.py:150-154 | a run starts at its node, each node in it is followed by its successor, and the last one has the edge to `END` |
| `Graph.ExecutionOrder` | backend/graph.py:139-156 | the graph visits retrieve, score, web_search, generate, in that order, then ends |
| `Graph.Contents` | backend/graph.py:64 | the page contents of the retrieved chunks, one per chunk, in order |
| `Graph.Excerpt` | backend/graph.py:74 | the scoring excerpt is the prefix of the document of length min(n, 500) |
| `Graph.ScoreOf` | backend/graph.py:73-79 | a parsed score is kept; a failure becomes 5.0 |
| `Graph.ScoresFor` | backend/graph.py:70-81 | exactly one score per document, in document order, each from that document's excerpt |
| `Graph.Max` | backend/graph.py:83 | the maximum is an element of the list and no element exceeds it |
| `Graph.NeedsWeb` | backend/graph.py:83 | web search is needed exactly when every score is below 7.0 (so always when there are none) |
| `Graph.SearchUrl` | backend/graph.py:92-93 | the URL is the search base, then the question, then " Indian law case" |
| `Graph.SearchUrlInjective` | backend/graph.py:92-93 | distinct questions are searched under distinct URLs |
| `Graph.WebResultsFor` | backend/graph.py:88-107 | not needed: none; fetch failure: none; otherwise the first min(3, n) snippets, in order |
| `Graph.Pairs` | backend/graph.py:119 | `zip` pairs documents and scores up to the shorter list |
| `Graph.Relevant` | backend/graph.py:119-121 | a pair is selected exactly when its score is at least 5.0 |
| `Graph.RelevantAppend` | backend/graph.py:119-121 | selection keeps order: selecting from a concatenation concatenates the selections |
| `Graph.Join` | backend/graph.py:125-127 | `sep.join`: empty for no parts, the part itself for one, and otherwise starting with the first part |
| `Graph.Context` | backend/graph.py:116-127 | the context handed to the model is never empty |
| `Graph.ContextStart` | backend/graph.py:116-127 | the context starts with the first selected document, or with the web header when no document was selected, and is the fallback when there is neither |
| `Graph.ContextFallbackIff` | backend/graph.py:119-127 | the context is "No specific documents found." exactly when no paired document scores 5.0 or more and there are no web results |
| `Graph.SelectDocuments` | backend/graph.py:119-121 | the loop over the zipped documents and scores yields exactly the well-scored documents, rendered, in order |
| `Graph.BuildContext` | backend/graph.py:116-127 | the context built equals `Context`: the selected documents rendered in order, then the web part, joined by the separator, or the fallback |
| `Graph.GraphState.constructor` | backend/main.py:55-62 | the initial state: the question, empty documents, web results and scores, empty answer, `needs_web` false |
| `Graph.GraphState.RetrieveDocuments` | backend/graph.py:60-65 | documents become the page contents of the four nearest chunks; a search error is raised and changes nothing |
| `Graph.GraphState.ScoreDocuments` | backend/graph.py:67-84 | scores become `ScoresFor` the documents and `needs_web` becomes `NeedsWeb` of them; nothing else changes |
| `Graph.GraphState.WebSearch` | backend/graph.py:86-109 | web results become `WebResultsFor` the state; when the web is not needed the result does not depend on the fetch |
| `Graph.GraphState.GenerateAnswer` | backend/graph.py:111-136 | the answer becomes the model's reply to the selected context and the question; a model error is raised and leaves the answer |
| `Graph.VisitLogs` | backend/graph.py:150-154 | the logs the node methods append to match `Run(Score)`, `Run(Entry)` and its first node |
| `Graph.GraphState.RunFromScore` | backend/graph.py:145-154 | the log of nodes run grows by exactly `Run(Score)`; scores, web results and answer are the composition of the three node results; a model error is returned and leaves the answer as it was |
| `Graph.GraphState.Invoke` | backend/graph.py:139-159 | on a successful retrieval the log of nodes run grows by exactly `Run(Entry)` and the final state is the composition of the node results; when retrieval raises, only that node has run, the error is returned and every field is as it was; an error from the model is returned and leaves the answer as it was |
| `QueryApi.BuildResponse` | backend/main.py:68-73 | answer and scores copied; sources are the first min(3, n) documents in order; `used_web_search` exactly when `needs_web` and some web result |
| `QueryApi.Pipeline` | backend/main.py:51-80 | the reference outcome of one query, node by node; a search error is the 500 carrying that error's text, and every failure is a 500 whose detail starts with "Error processing query: " |
| `QueryApi.PipelineProperties` | backend/main.py:51-80 | failures are 500s; sources are at most three retrieved documents in order; web search is reported only when every score is below 7.0 and the fetch succeeded |
| `QueryApi.ProcessQuery` | backend/main.py:47-80 | the response is that of the initial state run through the graph; any raised error yields HTTP 500 with the error text |
| `WatsonChat.UserMessage` | watson/app/dashboard/components/Chat.tsx:67-72 | a user message with the given id and the text as typed, and no sources, scores or web flag |
| `WatsonChat.AssistantMessage` | watson/app/dashboard/components/Chat.tsx:96-104 | an assistant message carrying the reply's answer, sources, scores and web flag unchanged |
| `WatsonChat.ErrorMessage` | watson/app/dashboard/components/Chat.tsx:109-115 | an assistant message with the fixed apology and no sources, scores or web flag |
| `WatsonChat.ReplyMessage` | watson/app/dashboard/components/Chat.tsx:94-116 | an assistant message carrying the reply's answer, sources, scores and web flag, or the fixed apology when there is no reply |
| `WatsonChat.Chat.constructor` | watson/app/dashboard/components/Chat.tsx:25-27 | no messages, empty input, not loading |
| `WatsonChat.Chat.SetInput` | watson/app/dashboard/components/Chat.tsx:129-133 | the input becomes the typed or suggested text |
| `WatsonChat.Chat.SendMessage` | watson/app/dashboard/components/Chat.tsx:64-90 | blank input or loading: nothing changes; otherwise one user message with the untrimmed input is appended, the input cleared, loading set, and the request's question is that message's content |
| `WatsonChat.Chat.CompleteSend` | watson/app/dashboard/components/Chat.tsx:92-119 | exactly one assistant message (reply or apology) is appended to the unchanged earlier messages and loading is cleared |
| `WatsonChat.Chat.LoadSessionMessages` | watson/app/dashboard/components/Chat.tsx:47-62 | a successful load replaces the messages; a non-ok or failed load leaves them |
| `WatsonChat.Chat.SessionChanged` | watson/app/dashboard/components/Chat.tsx:39-45 | no session: messages cleared; a session: its messages loaded |
| `WatsonChat.Chat.HandleKeyPress` | watson/app/dashboard/components/Chat.tsx:122-127 | Enter without Shift with blank input or while loading: nothing changes and no request; Enter without Shift otherwise: the untrimmed input appended as a user message, input cleared, loading set, and the request carries that input and the session; any other key changes nothing |
| `DashboardChat.ChatInterface.constructor` | frontend/components/dashboard/ChatInterface.tsx:18-28 | exactly the greeting with id "1", empty input, not loading |
| `DashboardChat.ChatInterface.SetInput` | frontend/components/dashboard/ChatInterface.tsx:102 | the input becomes the typed text |
| `DashboardChat.ChatInterface.HandleSubmit` | frontend/components/dashboard/ChatInterface.tsx:37-50 | blank input or loading: nothing changes; otherwise one user message with the untrimmed input, input cleared, loading set; alternation kept |
| `DashboardChat.ChatInterface.TimerFires` | frontend/components/dashboard/ChatInterface.tsx:53-63 | exactly the fixed simulated reply is appended and loading cleared; alternation kept |
| `DashboardChat.ChatInterface.HandleKeyDown` | frontend/components/dashboard/ChatInterface.tsx:105-110 | Enter without Shift with blank input or while loading: nothing changes; Enter without Shift otherwise: the untrimmed input appended as a user message, input cleared and loading set; any other key changes nothing; alternation kept |
| `DashboardChat.AlternationCounts` | frontend/components/dashboard/ChatInterface.tsx:39-62 | in the alternating list, any first k messages hold k/2 user messages and the rest assistant ones |
| `WatsonSidebar.Without` | watson/app/dashboard/components/Sidebar.tsx:60 | a session survives exactly when its id differs from the deleted id |
| `WatsonSidebar.WithoutAppend` | watson/app/dashboard/components/Sidebar.tsx:60 | survivors keep their original order |
| `WatsonSidebar.WithoutAbsent` | watson/app/dashboard/components/Sidebar.tsx:60 | deleting an id that is not listed leaves the list as it is |
| `WatsonSidebar.Sidebar.constructor` | watson/app/dashboard/components/Sidebar.tsx:29 | no sessions, the selection the page holds |
| `WatsonSidebar.Sidebar.LoadSessions` | watson/app/dashboard/components/Sidebar.tsx:35-45 | a successful load replaces the list; a non-ok or failed load leaves it |
| `WatsonSidebar.Sidebar.CreateNewSession` | watson/app/dashboard/components/Sidebar.tsx:47-49 | the selection becomes none, the list is unchanged |
| `WatsonSidebar.Sidebar.SelectSession` | watson/app/dashboard/components/Sidebar.tsx:103 | the clicked session becomes the selection |
| `WatsonSidebar.Sidebar.DeleteSession` | watson/app/dashboard/components/Sidebar.tsx:51-68 | declined, non-ok or failed: nothing changes; deleted: exactly the sessions with that id go, and the selection becomes none if it was that id |

## Findings

| source | as written | input that shows it | evidently intended | confidence | as-written member | corrected member |
|---|---|---|---|---|---|---|
| frontend/app/actions/auth.ts:20-22 | throws "Inavlid email or password" when `result?.ok` is true, and redirects to `/dashboard` otherwise | credentials the provider accepts, so that `signIn` resolves with `ok: true` | throw when sign-in did not succeed, redirect when it did | high; not executed | `AuthActions.AcceptedCredentialsAreRejected` | `AuthActions.IntendedLoginAction` |

## Left out

- Token verification (`getToken`, JWT and the shared secret): a parameter; an invalid, expired or unreadable token is the same as none.
- `Middleware.MatcherApplies`: Next.js matcher details beyond `<base>` and `<base>/…` (locale and `/_next/data` prefixes, regular-expression patterns) are not modelled.
- The redirect target is kept as the path `/login`; its resolution against the request URL is not modelled.
- Responses are values: the in-place `cookies.set` on the freshly built redirect is modelled as reassigning a local; nothing else holds that object.
- The console logging of `frontend/middleware.ts`, the `logger` calls of `backend/main.py`, and the `console.error` calls of `Chat.tsx` and `Sidebar.tsx`.
- `WatsonChat.ChatReply`: the reply's `answer` is taken to be present; a reply without one, which the source would show as an empty message, is not modelled.
- Register: the database is modelled as the table's sequence of rows, each query as a loop or an append over it, and the password hash as a function parameter; a query or a hash that fails, which the handler does not catch, is not modelled; nor are malformed JSON bodies, non-string field values, or the race between the lookup and the insert (calls are sequential).
- `AuthSchemas.LoginIssues`, `AuthSchemas.SignupIssues`: lengths count Unicode scalar values, where the validator counts UTF-16 code units, so a character outside the Basic Multilingual Plane counts once here and twice in the source.
- `AuthSchemas.SignupIssues`: follows the validator rule that an object refinement runs when every field is a string even if a field check failed; a validator version with another rule would omit the mismatch issue in that case. Non-string inputs are not modelled.
- `signIn` running in a server action and Next's `redirect` being implemented by a thrown signal are not modelled; the outcome is a throw or a redirect.
- `init_vectorstore`, the PDF loaders, the text splitter, the embeddings, the language model, the HTTP fetch and the HTML parsing: parameters or not modelled. The fetch yields all snippet texts; the model keeps the first three.
- Scores are `real`: Python float parsing (including "nan" and "inf"), float formatting of scores (a parameter) and the prompt templates are not modelled.
- `read_root`, `health_check` and the placeholder `upload_document` endpoint of `backend/main.py`, and the CORS configuration.
- Pydantic validation of the response and the `session_id` field of the request, which the handler ignores.
- Message ids from `Date.now()` are parameters with no uniqueness claim; timestamps are left out.
- Asynchrony: each submit and its completion, and each session load, are separate steps applied in order; interleavings other than those the model's steps allow are not modelled. `WatsonChat.Chat.SessionChanged` applies the load result in the same step.
- `WatsonSidebar.Sidebar.DeleteSession`: filters the current list, whereas the source filters the list captured when the delete was clicked; the two differ only if a load completes while the delete request is in flight, which sequential steps cannot show.
- Scrolling, textarea resizing, `signOut`, `useSession`, the confirmation dialog's text and all rendering.
- The remaining pages, forms and components (landing pages, layouts, dashboard header and sidebar, message bubbles, contact form) are view logic and are not part of this model, nor are `backend/db.py`, `backend/auth.py`, `backend/app.py` and `backend/llm.py`.
