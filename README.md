# SmartWarga admin core in Dafny

SmartWarga is a web application for a neighbourhood unit (RT). Residents
request letters, and administrators manage the resident database. This
project models the server side of the **administrator account lifecycle**
and the **role gate** around it:

- seeding a default Super Admin and configuration on every GET and POST of `/api/admin` (`ensureDefaultAdmin`); PUT and DELETE do not seed;
- listing accounts newest first;
- login;
- creating, updating and deleting accounts, restricted to a requester whose role is exactly `Super Admin`;
- an audit entry for login, create and update;
- the guard that refuses to delete the last Super Admin;
- the one-shot `GET /api/init` bootstrap.

It also models the parts of `POST /api/ai` that are logic rather than service
calls: the required-message check, the system prompt and its defaults, the
keyword test that decides on a web search, the search query, and the web
context built from the first three results. Finally it models the sidebar
menu, the browser-side mirror of the role gate.

Module layout:

| module | file | what it holds |
|---|---|---|
| `Options` | options.dfy | `Option`, and JavaScript's `s \|\| fallback` on strings |
| `Store` | store.dfy | account rows, audit entries, configuration, the tables as one value, the invariant `WellFormed` (unique usernames and ids, creation order) and the ORM queries used |
| `AdminRoute` | admin_route.dfy | each `/api/admin` handler as a function from the tables before to the response and the tables after |
| `InitRoute` | init_route.dfy | `GET /api/init` as a function, with the database's failures as an input |
| `Database` | database.dfy | class `Db`, whose fields are the tables; its methods do the handlers' work step by step, each proved equal to the function above and to keep `Valid()` |
| `AiRoute` | ai_route.dfy | the chat handler's preprocessing, and the handler as a method over the services' answers |
| `Sidebar` | sidebar.dfy | the menu the sidebar builds and its footer button |
| `LoginFilter` | login_filter.dfy | the login lookup as written, where absent credentials drop out of the filter (see Findings) |
| `Walkthrough` | walkthrough.dfy | a whole session on a fresh database, and the reach of the last-Super-Admin guard |

Modelling choices:

- An absent or empty request string is the empty string. A missing PUT or DELETE `id` is `None`.
- Ids are natural numbers handed out by a counter, and creation times come from a second counter. So "fresh id" and "newest first" can be stated without a clock.
- The staff role is the string `Staf`, as `role: body.role || 'Staf'` in admin/route.ts writes it.
- Lower-casing is ASCII lower-casing.
- `findFirst()` in init/route.ts has no `orderBy`, so which row the database returns is unspecified. The model takes the first row in insertion order.

## Model

| member | source | states |
|---|---|---|
| Store.UsernameTaken | src/app/api/admin/route.ts:115-119 | true exactly when some row has that username |
| Store.UsernameTakenByOther | src/app/api/admin/route.ts:182-190 | true exactly when a row with a different id has that username |
| Store.FindCredentials | src/app/api/admin/route.ts:70-75 | the first row whose username and password both match, or none when no row matches |
| Store.IndexOfId | src/app/api/admin/route.ts:255 | the position of the first row with that id, or none when no row has it |
| Store.Insert | src/app/api/admin/route.ts:126-133 | one row appended with a fresh id and the latest creation time; earlier rows, audit log and configuration unchanged; the invariant kept when the username is free |
| Store.RemoveAt | src/app/api/admin/route.ts:269-271 | the row at that position is gone and the others keep their order |
| Store.RemoveAtPreservesWellFormed | src/app/api/admin/route.ts:269-271 | deleting a row keeps usernames and ids unique and creation order increasing |
| Store.SuperAdminCountRemoveAt | src/app/api/admin/route.ts:257-259 | removing a row lowers the Super Admin count by one exactly when that row is a Super Admin |
| Store.SuperAdminCount | src/app/api/admin/route.ts:257-259 | at most the number of rows; zero exactly when no row is a Super Admin; every row exactly when all are |
| AdminRoute.MayManageAdmins | src/app/api/admin/route.ts:108 | the gate of create (line 108), update (line 170) and delete (line 243) opens exactly for the role string `Super Admin`; the staff role and an absent role are refused |
| AdminRoute.View | src/app/api/admin/route.ts:94-102 | a response shows the account's id, username, name and role, never its password |
| AdminRoute.Listed | src/app/api/admin/route.ts:42-49 | the listing selects id, username, name, role and creation time, never the password |
| AdminRoute.LoginAudit | src/app/api/admin/route.ts:85-92 | a `LOGIN` entry `Login Admin` by the account's name, whose target ends with its username |
| AdminRoute.CreateAudit | src/app/api/admin/route.ts:136-143 | a `CREATE` entry `Tambah Admin Baru` by the acting user or `Admin` when none is sent, whose target ends with the new username |
| AdminRoute.UpdateAudit | src/app/api/admin/route.ts:211-218 | an `UPDATE` entry `Edit Admin` by the acting user or `Admin`, whose target ends with the username after the update |
| AdminRoute.UpdateDataOf | src/app/api/admin/route.ts:199-203 | a field is present exactly when the body's field is non-empty, and then holds the body's value |
| AdminRoute.SeedSpec | src/app/api/admin/route.ts:5-34 | an empty admin table gains exactly the default Super Admin, an empty configuration gains the default one, a non-empty table is left alone, and the invariant is kept |
| AdminRoute.SeedIdempotent | src/app/api/admin/route.ts:5-34 | seeding twice writes what seeding once writes |
| AdminRoute.ListView | src/app/api/admin/route.ts:42-51 | every row once, without its password, in reverse insertion order |
| AdminRoute.NewestFirst | src/app/api/admin/route.ts:50 | in a well-formed table the listing is strictly decreasing in creation time |
| AdminRoute.ListSpec | src/app/api/admin/route.ts:37-53 | GET seeds, then answers 200 with every account newest first; the list is never empty |
| AdminRoute.LoginSpec | src/app/api/admin/route.ts:69-103 | success exactly when some row has both credentials; success returns that row and appends its login audit entry; failure is 401 and writes nothing |
| AdminRoute.CreateSpec | src/app/api/admin/route.ts:106-154 | 403 for a non-Super-Admin requester and 400 for a taken username, each writing nothing; otherwise a new row with the given fields, the role defaulting to `Staf`, an id unused before, and a create audit entry; the invariant is kept |
| AdminRoute.PostSpec | src/app/api/admin/route.ts:61-156 | POST seeds first, then dispatches on `action`; any other action is 400 after the seeding; the invariant is kept |
| AdminRoute.ApplyUpdate | src/app/api/admin/route.ts:199-208 | fields present in the update data are overwritten, the rest and id and creation time stay |
| AdminRoute.RenameKeepsCredentials | src/app/api/admin/route.ts:199-203 | a PUT with only a name leaves username, password and role as they were |
| AdminRoute.UpdateSpec | src/app/api/admin/route.ts:164-233 | checks in order: 403 role gate, 400 missing id, 400 username held by another row, 500 unknown id; success exactly when all pass; success updates only the row with that id and appends an update audit entry; every failure writes nothing; the invariant is kept |
| AdminRoute.UpdatePreservesWellFormed | src/app/api/admin/route.ts:182-208 | replacing a row by one with the same id and creation time, under a name no other row holds, keeps the invariant |
| AdminRoute.DeleteSpec | src/app/api/admin/route.ts:236-278 | 403 role gate, 400 missing id, 500 unknown id, 400 when the target is the last Super Admin; otherwise the row is removed; never an audit entry, and the id counter and clock are untouched; a table with a Super Admin keeps one; the invariant is kept |
| InitRoute.TryCreateConfig | src/app/api/init/route.ts:44-60 | the default configuration is written unless it exists or its create fails, and a failure changes nothing |
| InitRoute.ExistingAdmin | src/app/api/init/route.ts:14-21 | an account is found exactly when the lookup works and the table is not empty, and it is the first row |
| InitRoute.InitSpec | src/app/api/init/route.ts:9-75 | an admin found means 200 and no write; otherwise success exactly when the admin create succeeds, which appends the `Pak RT` Super Admin and writes the default configuration when it is missing and its create does not fail, a configuration failure never failing the call; a failure is 500 with the error and the retry hint and writes nothing |
| InitRoute.InitIdempotent | src/app/api/init/route.ts:14-30 | after a successful call, the next call whose lookup works writes nothing |
| Database.BuildUpdateData | src/app/api/admin/route.ts:198-203 | a field is present exactly when the body's field is non-empty |
| Database.Db.constructor | src/lib/db.ts:34-37 | a fresh database is empty and valid |
| Database.Db.InsertAdmin | src/app/api/admin/route.ts:126-133 | the table after is `Insert` of the table before, and it stays valid |
| Database.Db.EnsureDefaultAdmin | src/app/api/admin/route.ts:5-34 | the tables after are `SeedSpec` of the tables before |
| Database.Db.GetAdmins | src/app/api/admin/route.ts:37-53 | response and tables as `ListSpec` prescribes |
| Database.Db.Login | src/app/api/admin/route.ts:69-103 | response and tables as `LoginSpec` prescribes |
| Database.Db.Create | src/app/api/admin/route.ts:106-154 | response and tables as `CreateSpec` prescribes |
| Database.Db.PostAdmin | src/app/api/admin/route.ts:61-156 | response and tables as `PostSpec` prescribes |
| Database.Db.PutAdmin | src/app/api/admin/route.ts:164-233 | response and tables as `UpdateSpec` prescribes |
| Database.Db.DeleteAdmin | src/app/api/admin/route.ts:236-278 | response and tables as `DeleteSpec` prescribes |
| Database.Db.GetInit | src/app/api/init/route.ts:9-75 | response and tables as `InitSpec` prescribes |
| Database.BootstrapTwice | src/app/api/admin/route.ts:5-34 | two bootstraps in a row leave the tables as one does |
| AiRoute.ToLower | src/app/api/ai/route.ts:134 | same length, each character lower-cased |
| AiRoute.ToLowerIdempotent | src/app/api/ai/route.ts:134 | lower-casing twice is lower-casing once |
| AiRoute.ToLowerAppend | src/app/api/ai/route.ts:134 | lower-casing distributes over concatenation |
| AiRoute.IsSubstring | src/app/api/ai/route.ts:135 | true exactly when the keyword occurs at some position of the text |
| AiRoute.AnyIncluded | src/app/api/ai/route.ts:135 | true exactly when some keyword of the list occurs in the text |
| AiRoute.ShouldSearchWeb | src/app/api/ai/route.ts:124-136 | true exactly when one of the 29 keywords occurs in the lower-cased message |
| AiRoute.SearchIgnoresCase | src/app/api/ai/route.ts:134-135 | two messages equal after lower-casing get the same decision |
| AiRoute.SearchOfLowered | src/app/api/ai/route.ts:134-135 | lower-casing the message first does not change the decision |
| AiRoute.SearchSurvivesExtension | src/app/api/ai/route.ts:124-136 | text added before or after a message that triggers a search keeps it triggering |
| AiRoute.SearchQuery | src/app/api/ai/route.ts:139-142 | the fixed prefix followed by the unchanged message |
| AiRoute.SearchQueryInjective | src/app/api/ai/route.ts:139-142 | different messages give different queries |
| AiRoute.PromptNamesContacts | src/app/api/ai/route.ts:15-20 | the prompt contains the chairman line and the WhatsApp line, with the defaults in place of empty values |
| AiRoute.DefaultsAppliedOnce | src/app/api/ai/route.ts:19-20 | defaulting in the handler and again in the prompt is the same as defaulting once |
| AiRoute.SystemPrompt | src/app/api/ai/route.ts:15-46 | the fixed introduction, then the chairman line, then the WhatsApp line, then the fixed rest, each at its own offset |
| AiRoute.ResultLine | src/app/api/ai/route.ts:79-80 | a bullet `- `, the result's title, `: `, then its snippet; the url plays no part |
| AiRoute.JoinEnds | src/app/api/ai/route.ts:82 | a join of no lines is empty; otherwise it starts with the first line and ends with the last |
| AiRoute.JoinOfFew | src/app/api/ai/route.ts:82 | the join of one, two or three lines spelled out with the separators between them |
| AiRoute.ContextLines | src/app/api/ai/route.ts:77-81 | one line per result for the first three results, in order |
| AiRoute.WebContext | src/app/api/ai/route.ts:65-87 | empty exactly when the search threw, answered with something other than an array, or found nothing; otherwise it starts with the header |
| AiRoute.WebContextShape | src/app/api/ai/route.ts:76-82 | the context spelled out for one, two and three or more results |
| AiRoute.OnlyFirstThreeResults | src/app/api/ai/route.ts:78 | results after the third never reach the prompt |
| AiRoute.UrlsIgnored | src/app/api/ai/route.ts:79-80 | results that differ only in their urls give the same context |
| AiRoute.HandleChat | src/app/api/ai/route.ts:48-121 | an empty message is 400 with no service call; otherwise a search happens exactly when the keywords say, the model gets the prompt plus context and then the message, and the answer is 200 with the model's text exactly when it gave a non-empty one, else 500 with the busy message |
| Sidebar.BuildMenu | src/components/smartwarga/Sidebar.tsx:43-56 | the menu built by splice and push is the one listed for that kind of visitor |
| Sidebar.MenuMirrorsRoleGate | src/components/smartwarga/Sidebar.tsx:48-56 | admin management and the audit log are offered exactly to a logged-in Super Admin, the resident database exactly to a logged-in visitor |
| Sidebar.MenuWellOrdered | src/components/smartwarga/Sidebar.tsx:43-56 | the dashboard comes first, the service page is always offered, and no entry appears twice |
| Sidebar.Footer | src/components/smartwarga/Sidebar.tsx:109-117 | log-out exactly when logged in, otherwise a button opening the login tab |
| LoginFilter.FindByFilter | src/app/api/admin/route.ts:70-75 | the first row passing the filter with absent fields dropped, or none when no row passes |
| LoginFilter.LoginAsWritten | src/app/api/admin/route.ts:69-103 | success exactly when some row passes the filter; failure is 401 and writes nothing |
| LoginFilter.FilterWithBothFields | src/app/api/admin/route.ts:70-75 | with both fields given, the filter finds what the exact credential lookup finds |
| LoginFilter.LoginAsWrittenWithBothFields | src/app/api/admin/route.ts:69-103 | with both fields given, the login as written is `LoginSpec` |
| LoginFilter.AbsentCredentialsLogIn | src/app/api/admin/route.ts:64-103 | after seeding, a login body without credentials logs in as the first account, which on a fresh database is the Super Admin |
| LoginFilter.UsernameAloneLogsIn | src/app/api/admin/route.ts:70-75 | with unique usernames, a body with a username and no password logs in as exactly that account, whatever its password |
| LoginFilter.ExactMatchRefusesEmptyCredentials | src/app/api/admin/route.ts:77-82 | the intended lookup refuses empty credentials on a freshly seeded database |
| Walkthrough.SeedFresh | src/app/api/admin/route.ts:5-34 | a fresh database is seeded with exactly the default Super Admin and the default configuration |
| Walkthrough.SeededAdminLogsIn | src/app/api/admin/route.ts:69-103 | `admin` / `admin123` logs in as the seeded account |
| Walkthrough.StaffGetsDefaultRole | src/app/api/admin/route.ts:106-154 | an account created without a role gets `Staf` |
| Walkthrough.LastSuperAdminKept | src/app/api/admin/route.ts:254-267 | the only Super Admin cannot be deleted, and nothing changes |
| Walkthrough.SecondSuperAdminAdded | src/app/api/admin/route.ts:106-154 | a second Super Admin can be created |
| Walkthrough.FirstNowDeletable | src/app/api/admin/route.ts:254-273 | with two Super Admins the first can be deleted |
| Walkthrough.FreshDatabaseSession | src/app/api/admin/route.ts:5-278 | the six steps above, each on the tables the previous one left |
| Walkthrough.DemotionNotGuarded | src/app/api/admin/route.ts:199-208 | a PUT that changes the only Super Admin's role succeeds and leaves no Super Admin, since the guard applies to DELETE only |

## Left out

- src/app/page.tsx, src/components/smartwarga/LoginPage.tsx and the rendering in Sidebar.tsx (icons, styling, the register and service buttons) are not part of this model.
- The client setup in src/lib/db.ts (database path, client caching) is left out. The store is the value `Tables`, and the class `Db` holds it.
- Store outages are left out: the 500 answers of GET ("Failed to fetch admins") and POST ("Operation failed"), one from a thrown audit write, and any other database exception. The only thrown errors modelled are a PUT or DELETE on an unknown id (500) and the `GET /api/init` faults, which come in as the `Faults` input.
- Concurrency is left out. Each handler runs to completion on the tables it is given, so the check-then-act races between the username check and the insert, and between the Super Admin count and the delete, are outside the model.
- Real timestamps and database-generated ids are left out. Ids come from a counter, and creation time from a second counter that every insert advances.
- Console logging is left out.
- The AI SDK is left out: the `getZAI` client singleton, the model call and its `thinking` option. The search outcome and the model's first answer are the parameters of `HandleChat`.
- HandleChat: a `getZAI` that throws is not modelled. The source then answers the same 500 as for an empty answer, but makes no search and no model call, whereas `HandleChat` still records the query and the messages. In that case only the response matches, not the recorded service calls.
- The search request's `num: 5` is left out. The model works on whatever list comes back.
- `toLowerCase` is modelled on ASCII letters only. Unicode case mapping is not.
- A non-string `message`, `rtName` or `rtWhatsapp` in the chat body is left out. Only a falsy message as the empty string is.
- AdminRoute.CreateSpec: an absent `username` is the empty string here. In the source, `findUnique` with an undefined username throws and the route answers 500.
- InitRoute.InitSpec: the database's error text for a duplicate `admin` username is the constant `UniqueViolationMsg`, not the driver's exact message.

## Findings

| source | as written | input that shows it | evidently intended | confidence | as-written member | corrected member |
|---|---|---|---|---|---|---|
| src/app/api/admin/route.ts:70-75 | `findFirst({ where: { username: body.username, password: body.password } })` passes absent body fields through as `undefined`, and the ORM drops such fields from the filter | `POST /api/admin` with body `{"action": "login"}` logs in as the first account, the seeded Super Admin; `{"action": "login", "username": "admin"}` logs in without a password | a login succeeds only when some account has both the given username and the given password | not executed; rests on the ORM ignoring `undefined` filter values | LoginFilter.AbsentCredentialsLogIn | AdminRoute.LoginSpec |

Elsewhere the model follows the corrected lookup: `PostSpec` and `Db.Login` use `LoginSpec`. `LoginFilter.LoginAsWrittenWithBothFields` proves that the two agree whenever both credentials are present.
