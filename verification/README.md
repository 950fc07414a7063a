# AutoFounder X API core, modelled in Dafny

This project models the request-gating and record-shaping logic of the
AutoFounder X API layer:

- the bearer-token helpers of `src/lib/auth.ts`: extracting the token from
  the `Authorization` header, turning every `jwt.verify` failure into null,
  and keeping only the `userId` and `email` claims of a decoded token;
- the three route handlers `POST /api/ai/idea`, `POST /api/ai/mvp` and
  `GET /api/projects`. Each is a pure function from the request, the
  database and the language-model result to a response, plus the database
  it leaves behind for the two POST routes.

`verifyJWT` (`Auth.VerifyJwt`) returns an `Option`, so no failure can
escape it: every error `jwt.verify` throws becomes `None`.

External collaborators become inputs:

- `jwt.verify` with the process secret is a `Verifier` parameter. It returns
  the decoded payload or the error it throws.
- The OpenAI completion is a `Result<Option<string>, Thrown>`. It is the
  completion text (possibly absent) or the error the call threw.
- `request.json()` is a `Result<Json, Thrown>`.
- The Prisma database is a `Db` value. It holds the project table, the task
  table and the next project id.
- The creation time of a new project is a `now` parameter.

Modules:

| file | module | contents |
|---|---|---|
| wrappers.dfy | `Wrappers` | `Option`, `Result` |
| strings.dfy | `Strings` | `includes` as a search, with its characterisation |
| schemas.dfy | `Schemas` | parsed JSON and the two zod schemas with their messages |
| auth.dfy | `Auth` | header parsing, `verifyJWT`, `verifyUserFromToken` |
| store.dfy | `Store` | project and task rows, and the Prisma queries the routes issue |
| api.dfy | `Api` | request and response shapes, the shared authentication prelude, the shared `catch` |
| idea_route.dfy | `IdeaRoute` | `POST /api/ai/idea` |
| mvp_route.dfy | `MvpRoute` | `POST /api/ai/mvp` |
| projects_route.dfy | `ProjectsRoute` | `GET /api/projects` |

`Store.WellFormed` states that project ids are a primary key drawn from the
id sequence. Both POST handlers preserve it. The MVP route updates by `id`
alone (`src/app/api/ai/mvp/route.ts:85-90`), not by `id` and owner. So the
guarantee that other users' projects are untouched rests on that key being
unique, and the lemmas that state it require `WellFormed`.

## Model

| member | source | states |
|---|---|---|
| Auth.ExtractTokenFromHeader | src/lib/auth.ts:33-38 | a token is returned exactly when the header is present and starts with the seven characters `"Bearer "`; the header is then that prefix followed by the token, so the token is seven characters shorter |
| Auth.ExtractRoundTrip | src/lib/auth.ts:37 | for every string t, the header `"Bearer " + t` yields exactly t |
| Auth.ExtractExamples | src/lib/auth.ts:34-37 | null, `""`, `"Bearer"`, `"bearer x"` and `"abc123"` yield null; `"Bearer "` yields the empty token, not null; `"Bearer abc123"` yields `"abc123"` |
| Auth.VerifyUserFromToken | src/lib/auth.ts:41-47 | an identity is returned exactly when the token verifies and its `userId` is present and non-zero and its `email` is present and non-empty; it carries exactly those two claim values |
| Auth.VerifyJwt | src/lib/auth.ts:24-30 | null exactly when `jwt.verify` throws, the decoded payload otherwise; the clauses restate the `match`, and the real promise is totality: the result is an `Option`, so no failure escapes |
| Auth.OtherClaimsDropped | src/lib/auth.ts:46 | payloads that agree on `userId` and `email` give the same identity whatever their other claims |
| Strings.Includes | src/app/api/ai/mvp/route.ts:116 | `includes`: a prefix occurrence is always found, and nothing longer than the string is found (its full characterisation is `Strings.IncludesIff`) |
| Strings.IncludesIff | src/app/api/ai/mvp/route.ts:116 | the `includes` search succeeds exactly when the substring occurs at some position |
| Schemas.InvalidType | src/app/api/ai/idea/route.ts:11-13 | zod's message for a value of the wrong type is `Required` exactly when the value is absent, otherwise `Expected <type>, received <type>` |
| Schemas.ParseIdeaBody | src/app/api/ai/idea/route.ts:11-13 | the body passes exactly when it is an object whose `topic` is a string of 1 to 100 characters, and the topic is returned; an empty topic fails with `Topic is required`, an over-long one with `Topic too long`, a missing one with `Required`, a non-string one with `Expected string, received <type>`, and a non-object body with `Expected object, received <type>` |
| Schemas.ParseMvpBody | src/app/api/ai/mvp/route.ts:11-13 | the body passes exactly when it is an object whose `projectId` is an integral number, and that number is returned; a fractional number fails with `Project ID must be an integer`, a missing one with `Required`, a non-number one with `Expected number, received <type>`, and a non-object body with `Expected object, received <type>` |
| Store.FindOwned | src/app/api/ai/mvp/route.ts:44-49 | the position found holds a project with the requested id AND the caller's user id, and no earlier project matches both; when nothing is found, no project matches both |
| Store.SetPlanById | src/app/api/ai/mvp/route.ts:85-91 | the table keeps its length; rows with another id are unchanged; rows with the id get the new `mvpPlan` and keep every other field |
| Store.OwnedBy | src/app/api/projects/route.ts:21-24 | every returned project belongs to the user, and each of the user's projects occurs as often as in the table while other users' projects do not occur |
| Store.SortByCreatedDesc | src/app/api/projects/route.ts:25-27 | the result is a permutation of the input ordered by `createdAt`, newest first |
| Store.TaskCount | src/app/api/projects/route.ts:28-34 | the count is the number of tasks whose `projectId` is the project's id |
| Api.MapThrown | src/app/api/ai/mvp/route.ts:113-127 | a caught `Error` whose message contains `OpenAI` gives 503 `AI service temporarily unavailable`; any other thrown value gives 500 `Internal server error` |
| Api.OrFallback | src/app/api/ai/idea/route.ts:60 | the logical-or fallback on the completion text, also used at src/app/api/ai/mvp/route.ts:82: the completion text unless it is absent or empty, else the fallback; with a non-empty fallback the stored idea or plan is never empty |
| Api.Authenticate | src/app/api/ai/mvp/route.ts:18-28 | a missing, malformed or empty bearer token gives 401 `Unauthorized`; a token that yields no identity gives 401 `Invalid token`; otherwise the identity from the token is used |
| Api.AuthenticateBearer | src/app/api/ai/idea/route.ts:18-28 | the header `"Bearer " + t` with non-empty t authenticates exactly as `verifyUserFromToken(t)` decides |
| IdeaRoute.NewIdeaProject | src/app/api/ai/idea/route.ts:63-70 | the new row is titled `"AI Generated: " + topic` and described as `"Startup idea generated for: " + topic`, is owned by the caller, has status `active` and no MVP plan |
| IdeaRoute.IdeaPost | src/app/api/ai/idea/route.ts:15-106 | the status is one of 201, 400, 401, 500 and 503; a `request.json()` that throws after authentication goes through the shared error mapping (503 or 500) with the table unchanged; 201 happens exactly when authentication, body parsing, validation and the completion all succeed, and then exactly one project is appended and nothing else changes; on any other status the table is unchanged |
| IdeaRoute.IdeaAuthFirst | src/app/api/ai/idea/route.ts:18-28 | a rejected token gives the same 401 whatever the body, table and completion, and creates nothing |
| IdeaRoute.IdeaTopicLength | src/app/api/ai/idea/route.ts:32-39 | for an authenticated caller with a string topic, the status is 400 exactly when its length is 0 or above 100, with zod's message; lengths 1 to 100 with a completion give 201 |
| IdeaRoute.IdeaInvalidBodyIs400 | src/app/api/ai/idea/route.ts:32-39 | for an authenticated caller, any body the schema rejects (not an object, no topic, a non-string topic, a bad length) gives 400 with the first validation message and creates nothing |
| IdeaRoute.IdeaCompletionThrows | src/app/api/ai/idea/route.ts:44-58 | when the completion throws for a valid request, the response is the shared error mapping (503 or 500) and no project is created |
| IdeaRoute.IdeaCreatesOwnedProject | src/app/api/ai/idea/route.ts:60-89 | on success the appended project has the topic-derived title and description, the caller as owner, status `active`, the next id, and the completion text as idea or `Failed to generate idea` when the text is absent or empty; the response echoes it |
| IdeaRoute.IdeaPreservesWellFormed | src/app/api/ai/idea/route.ts:63-79 | creating a project keeps project ids unique and below the id sequence |
| MvpRoute.MvpPost | src/app/api/ai/mvp/route.ts:15-128 | the status is one of 200, 400, 401, 404, 500 and 503; a `request.json()` that throws after authentication goes through the shared error mapping (503 or 500) with the table unchanged; the task table, the id sequence and the number of projects never change; on any status but 200 the table is unchanged; 200 requires a valid token, a valid body, a completion, and an owned project with a non-empty idea |
| MvpRoute.MvpAuthFirst | src/app/api/ai/mvp/route.ts:18-28 | a rejected token gives the same 401 whatever the body, table and completion, and changes nothing |
| MvpRoute.MvpInvalidBodyIs400 | src/app/api/ai/mvp/route.ts:31-39 | for an authenticated caller, a body the schema rejects gives 400 with the first validation message and the table is unchanged |
| MvpRoute.MvpCompletionThrows | src/app/api/ai/mvp/route.ts:66-80 | when the completion throws for an owned project with an idea, the response is the shared error mapping (503 or 500) and the table is unchanged |
| MvpRoute.MvpNotOwnedIs404 | src/app/api/ai/mvp/route.ts:44-56 | when no project has both the requested id and the caller as owner (missing or someone else's), the result is 404 and the table is unchanged |
| MvpRoute.MvpNeedsIdea | src/app/api/ai/mvp/route.ts:58-63 | an owned project whose idea is absent or empty gives 400 `Project must have an idea to generate MVP plan` and the table is unchanged |
| MvpRoute.MvpSucceeds | src/app/api/ai/mvp/route.ts:82-111 | a valid request for an owned project with a non-empty idea, answered by the completion, gives 200 with the message and the updated project's id, title, idea, new plan and updatedAt, and stores the plan (text or `Failed to generate MVP plan`) under that id |
| MvpRoute.MvpUpdatesOnlyPlan | src/app/api/ai/mvp/route.ts:82-91 | on success one owned project with the requested id gets as `mvpPlan` the completion text, or `Failed to generate MVP plan` when it is absent or empty; every other project and every other field is unchanged |
| MvpRoute.MvpNeverTouchesOthers | src/app/api/ai/mvp/route.ts:44-100 | whatever the request, a project the caller does not own is left exactly as it was |
| MvpRoute.MvpPreservesWellFormed | src/app/api/ai/mvp/route.ts:85-100 | storing a plan keeps project ids unique and below the id sequence |
| ProjectsRoute.FetchOwnedNewestFirst | src/app/api/projects/route.ts:21-35 | the fetched projects are a permutation (as a multiset) of the caller's projects in the table, ordered by `createdAt` newest first |
| ProjectsRoute.ListView | src/app/api/projects/route.ts:39-47 | an entry's task count is the number of tasks belonging to the project |
| ProjectsRoute.ListViewCopiesFields | src/app/api/projects/route.ts:39-47 | an entry copies id, title, description, idea, mvpPlan, status, createdAt and updatedAt unchanged and counts the project's tasks |
| ProjectsRoute.ListViews | src/app/api/projects/route.ts:38-48 | the list has one entry per fetched project, in the same order: entry i is the view of fetched project i |
| ProjectsRoute.ProjectsGet | src/app/api/projects/route.ts:5-57 | the status is 401 with the prelude's message when authentication fails, and 200 with a project list exactly when it succeeds; the list is then, as a multiset, exactly the views of the caller's projects (duplicates counted), ordered by `createdAt` newest first |
| ProjectsRoute.ListViewsPermutation | src/app/api/projects/route.ts:38-48 | listing two permutations of the same projects gives permutations of the same entries, so ordering the fetched projects only reorders the response list |
| ProjectsRoute.ProjectsOwnerScoped | src/app/api/projects/route.ts:21-24 | two tables that agree on the caller's projects and on the tasks give the same response, so other users' projects never influence it |

## Left out

- Password hashing and comparison (`hashPassword`, `comparePasswords`): these are calls into bcrypt, and salted hashing is randomised.
- Token signing, signature checking and the seven-day expiry (`createJWT`, the inside of `jwt.verify`): this is cryptography inside `jsonwebtoken`. Verification is the `Verifier` parameter, which already holds the process secret.
- The module-load check that `JWT_SECRET` is set: this is process-start configuration, not per-request logic.
- The OpenAI calls and their prompt text: the service is external and nondeterministic. Its result is an input.
- Auth.VerifyUserFromToken: the payload's `userId` is modelled as an optional integer and `email` as an optional string. Claims of other JSON types, and a `NaN` `userId`, are not modelled. Tokens are only issued by this application.
- Schemas.ParseIdeaBody: JavaScript measures a topic in UTF-16 code units, but the model counts characters. A topic with characters outside the Basic Multilingual Plane can differ.
- Schemas.ParseMvpBody: a project id beyond the database's 32-bit integer column makes Prisma throw. The model accepts any integer.
- Database failures: Prisma is infallible here. A failing Prisma call would reach the same `catch` mapping as `Api.MapThrown`, and for `GET /api/projects` it is the only way to reach the 500 at `src/app/api/projects/route.ts:51-57`. That 500 is therefore not modelled.
- MvpRoute.MvpUpdatesOnlyPlan: the Prisma schema is not part of this model. If it maintains `updatedAt` automatically, that timestamp would also change on update. The model changes only `mvpPlan`.
- Each handler is evaluated against one snapshot of the database. In `POST /api/ai/mvp` the ownership lookup (src/app/api/ai/mvp/route.ts:44) and the update by id alone (src/app/api/ai/mvp/route.ts:85) are separated by the awaited OpenAI call (src/app/api/ai/mvp/route.ts:66). A concurrent change to the table in between, such as a deleted or reassigned project, is outside the model.
- Ordering ties: `orderBy: {createdAt: 'desc'}` leaves the order of equal timestamps to the database. The contracts promise only a permutation sorted newest first.
- The `user` relation included by the two POST routes' Prisma calls: it is never read, so it is left out.
- Logging (`console.error`) and `NextResponse` construction are left out. A response is a status plus a body datatype.
- The React pages (dashboard, landing page, login page): these are UI, routing and `localStorage`, with no stateable core.
