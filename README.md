# Task tracker: a Dafny model of its validators, client state and API handlers

The system is a small task tracker built with Next.js. A lead creates tasks and assigns
them to team members. The browser side keeps the task list, a queue of toasts and the
signed-in user in React state. The API routes check a JWT cookie and read or write a
Prisma store. This project models the parts of it that make decisions:

- the Zod request and DTO schemas (`Json`, `Uuid`, `TaskDto`, `UserDto`). They are
  predicates over a JSON value model, and a JSON object is a `map` from keys to values;
- the axios accept-status predicate, and the way a reply that it rejects ends in a
  component's `catch` branch (`Axios`);
- the toast queue (`Toasts.Toaster`) and the auth gate and its startup fetch
  (`Auth.AuthProvider`);
- the dashboard's status filter and task load (`Dashboard.Home`), and the task card's
  display mappings (`TaskCard`);
- the create, update and delete dialogs (`CreateTaskModal`, `TaskModal`, `DeleteTaskModal`).
  Their shared form and list helpers are in `TaskForm` and `TaskList`. Each dialog is a
  class whose methods update its own fields and, through the setters it is given, the
  dashboard's `tasks`, the provider's `user` and the toast queue;
- the API handlers for login, teams, the current user and the task collection (`Http`,
  `Login`, `Teams`, `Me`, `TasksApi`). Each is a method from the request method, an abstract
  token-check outcome, an abstract store snapshot and the body to the list of responses it
  sends. It is a list because the login handler can send twice.

The network, the clock and randomness are inputs to the model:

- A server reply is a parameter of type `Axios.Reply` (a status plus data, or no reply).
- The uuid that `addToast` and the login handler draw is also a parameter.
- Whatever the store or the signer returns is a parameter of type `Http.Store` or
  `Http.Outcome`.

One check is modelled by its intended behaviour, not as written. `verifyAccessToken`
takes a token string and an issuer (`src/utils/token.ts:15-19`). The teams and me handlers
pass it the request object alone (`src/pages/api/teams.ts:21`, `src/pages/api/users/me.ts:21`).
Read literally, jsonwebtoken rejects a token that is not a string, so every request to
those two handlers would get the 401 reply. The model instead takes the check's outcome as
an input: "verified with a role and a subject", or "rejected".

Where two readings of the code disagree, the model follows the code:

- The create dialog's `CreateTaskDTO` carries `team_id`, but the schema of
  `src/dto/task.ts:10-14` has no such field. The model sends the field, and the schema
  ignores it (`TaskDto.CreateTaskIgnoresTeam`).
- The update dialog sends `{old_value, new_value}` objects. The `updateTaskDTO` schema takes
  flat values, so any non-empty diff fails it (`TaskModal.ChangesMeetUpdateSchema`).

## Model

| member | source | states |
|---|---|---|
| TaskDto.ParseStatus | src/dto/task.ts:3-8 | a string parses to a status exactly when it is the name of one; any other string matches no status |
| TaskDto.TaskStatusExactly | src/dto/task.ts:3-8 | `taskStatus` accepts exactly the strings not_started, on_progress, done and reject |
| TaskDto.IsTaskStatus | src/dto/task.ts:3-8 | the `taskStatus` union as a predicate; TaskDto.TaskStatusExactly states what it accepts |
| TaskDto.ParseCreateTask | src/dto/task.ts:10-14 | parses exactly the bodies `createTaskDTO` accepts: name a string of length at least 1, status a valid literal, description absent or a string; the result carries those values |
| TaskDto.IsCreateTask | src/dto/task.ts:10-14 | the `createTaskDTO` object schema as a predicate; TaskDto.ParseCreateTask is its parser, proved equivalent |
| TaskDto.CreateTaskRoundTrip | src/dto/task.ts:10-14 | encoding a create request with a non-empty name and parsing it back gives the same request |
| TaskDto.CreateTaskIgnoresTeam | src/dto/task.ts:10-14 | adding a `team_id` to a body changes nothing the create schema yields, so no team comes through it |
| TaskDto.EmptyUpdateIsValid | src/dto/task.ts:16-21 | every update field is optional: the empty object is a valid update, and a non-object is not |
| TaskDto.IsUpdateTask | src/dto/task.ts:16-21 | the `updateTaskDTO` schema: every field optional, `team_id` a UUID string, name a non-empty string, description a string, status a valid literal |
| TaskDto.TaskJsonIsDto | src/dto/task.ts:23-30 | a task's JSON, with a nullable description, passes `taskDTO` exactly when the id is a UUID and the name is non-empty |
| TaskDto.IsTaskDto | src/dto/task.ts:23-30 | the `taskDTO` schema: UUID id, non-empty name, description null or a string, valid status, string timestamps |
| UserDto.UserRoleExactly | src/dto/user.ts:3 | `userRole` accepts exactly "lead" and "team", that is, the names of the two roles |
| UserDto.IsUserRole | src/dto/user.ts:3 | the `userRole` union as a predicate; UserDto.UserRoleExactly states what it accepts |
| UserDto.ParseLogin | src/dto/user.ts:7-9 | a login body parses exactly when it passes `loginUserDTO`, and the parsed id is the body's id and is a UUID |
| UserDto.IsLoginUser | src/dto/user.ts:7-9 | the `loginUserDTO` schema: an object whose `id` is a UUID string |
| UserDto.UserJsonIsDto | src/dto/user.ts:11-16 | a user's JSON passes `userDTO` exactly when the id is a UUID and the name is non-empty |
| UserDto.IsUserDto | src/dto/user.ts:11-16 | the `userDTO` schema: UUID id, non-empty name, a valid role and a string `created_at` |
| UserDto.FindUser | src/pages/api/auth/login.ts:35-39 | the lookup is empty exactly when no user has the id; otherwise it is the first user with that id |
| Uuid.IsUuid | src/dto/user.ts:8 | 36 characters with hyphens at positions 8, 13, 18 and 23 and hex digits elsewhere; Uuid.UuidIffGroups gives its group form |
| Uuid.GroupsFormUuid | src/dto/user.ts:8 | five hex groups of lengths 8, 4, 4, 4 and 12, joined by hyphens, form a UUID |
| Uuid.UuidSplits | src/dto/user.ts:8 | every UUID splits into such five groups, and the string is those groups hyphenated |
| Uuid.UuidIffGroups | src/dto/user.ts:12 | a string is a UUID if and only if it is five hyphenated hex groups of lengths 8-4-4-4-12 |
| Uuid.UuidRejects | src/dto/user.ts:8 | a string of any other length, or with a non-hyphen at a hyphen position, is rejected |
| Uuid.SeedLeadIdIsUuid | prisma/seed.ts:10 | the seeded lead's id is a UUID |
| Uuid.UuidRejectsExamples | src/dto/user.ts:8 | the undashed form and a string with a non-hex character are rejected |
| Axios.ValidateStatus | src/libs/axios.ts:4-6 | `validateStatus`: a status resolves the request exactly when 200 <= s < 500 |
| Axios.Delivers | src/libs/axios.ts:4-6 | a reply reaches a component's `res.status === code` branch exactly when there is a reply, its status is accepted, and it equals the code |
| Axios.ValidateStatusRange | src/libs/axios.ts:4-6 | a status is accepted iff 200 <= s <= 499; below 200 and from 500 up are rejected; 200 and 499 are accepted, 199 and 500 are not |
| Axios.ServerErrorsReachCatch | src/components/TaskModal.tsx:205-210 | a missing reply, a 5xx or a status below 200 matches no handled status, so it ends in the catch branch |
| Toasts.DurationOrDefault | src/contexts/ToastProvider.tsx:37 | a missing duration is 3000 ms, and a given one is kept |
| Toasts.Added | src/contexts/ToastProvider.tsx:36-39 | adding appends exactly one toast at the end with the id, message, type and duration, and keeps the earlier ones |
| Toasts.Removed | src/contexts/ToastProvider.tsx:32-34 | removing keeps exactly the toasts with other ids, in their original order and each with its multiplicity, and drops every toast with that id |
| Toasts.RemoveAbsent | src/contexts/ToastProvider.tsx:33 | removing an id no toast has changes nothing |
| Toasts.RemoveTwice | src/contexts/ToastProvider.tsx:33 | removing twice is removing once |
| Toasts.AddThenRemove | src/contexts/ToastProvider.tsx:36-44 | with a fresh id, adding a toast and then removing that id restores the list |
| Toasts.ScheduledRemoval | src/contexts/ToastProvider.tsx:41-45 | a finite duration schedules the removal of that id after that delay; an infinite one schedules nothing |
| Toasts.Toaster.AddToast | src/contexts/ToastProvider.tsx:36-48 | the queue becomes the added list, and the timers gain the scheduled removal, if there is one |
| Toasts.ScheduledDefault | src/contexts/ToastProvider.tsx:37-45 | a toast added without a duration schedules one 3000 ms removal of its id after the pending ones |
| Toasts.Toaster.constructor | src/contexts/ToastProvider.tsx:30 | the queue starts empty, with no removal pending |
| Toasts.Toaster.RemoveToast | src/contexts/ToastProvider.tsx:32-34 | the queue becomes the list with that id removed |
| Toasts.Toaster.RunTimer | src/contexts/ToastProvider.tsx:42-44 | a fired timer leaves the timer list and removes its toast's id |
| Toasts.UseToast | src/contexts/ToastProvider.tsx:72-78 | outside a provider the hook fails with its message; inside, it yields the provider |
| Auth.Gate | src/contexts/AuthProvider.tsx:60-74 | while loading nothing renders; no user off /login redirects to /login; a user on /login redirects to /; the children render exactly when not loading and (no user iff the path is /login) |
| Auth.RedirectSettles | src/contexts/AuthProvider.tsx:64-72 | a redirect always leaves the current path, and the gate renders the children at its target |
| Auth.AuthProvider.constructor | src/contexts/AuthProvider.tsx:25-26 | the user starts null and loading starts true |
| Auth.AuthProvider.Startup | src/contexts/AuthProvider.tsx:35-58 | 200 sets the user, 401 sets null, 404 only adds the "User not found" toast, and anything else adds the server-failure toast; loading ends in every case; the toast's 3000 ms removal is scheduled exactly when a toast is added |
| Auth.UseAuth | src/contexts/AuthProvider.tsx:77-83 | outside a provider the hook fails with its message; inside, it yields the provider |
| TaskCard.StatusColors | src/components/TaskCard.tsx:11-21 | not_started gives gray, on_progress blue and done green; every other string gives red |
| TaskCard.StatusColorsOfStatuses | src/components/TaskCard.tsx:11-21 | among the four statuses only reject is red, and different statuses get different colours |
| TaskCard.StatusLabel | src/components/TaskCard.tsx:32 | the label is the status name with every "_" replaced by a space, and it has no "_" left |
| TaskCard.DescriptionText | src/components/TaskCard.tsx:42 | a null description shows "No Description", and any description is shown as it is |
| TaskCard.DescriptionLooksMissing | src/components/TaskCard.tsx:38-40 | the description is styled as missing exactly when it is falsy: null or the empty string |
| TaskCard.EmptyDescriptionShownAsIs | src/components/TaskCard.tsx:38-42 | an empty description is shown as the empty string but styled as missing, like a null one |
| TaskCard.TeamBadge | src/components/TaskCard.tsx:51 | a set team reads "<name>'s Team", and no team reads "Unassigned" |
| Dashboard.FilterTasks | src/pages/index.tsx:29-31 | "all" returns the list unchanged; a status keeps exactly the tasks with that status, and the result is never longer |
| Dashboard.FilterTasksOrderAndCount | src/pages/index.tsx:31 | the filtered tasks are a subsequence of the list, and every task with the status keeps its multiplicity |
| Dashboard.FilterTasksIdempotent | src/pages/index.tsx:29-31 | filtering twice by the same filter is filtering once |
| Dashboard.FilterLabel | src/pages/index.tsx:143 | the button label is the filter name with every "_" replaced by a space |
| Dashboard.Home.constructor | src/pages/index.tsx:17-21 | no tasks, loading, and the "all" filter |
| Dashboard.Home.SetStatusFilter | src/pages/index.tsx:136 | the filter becomes the clicked one; the tasks are untouched |
| Dashboard.Home.LoadTasks | src/pages/index.tsx:34-62 | 200 replaces the tasks wholesale; 401 adds the session toast and clears the user; anything else adds the server-failure toast; loading ends in every case; the toast's 3000 ms removal is scheduled exactly when a toast is added |
| TaskList.WithTeam | src/components/CreateTaskModal.tsx:83-91 | the listed entry carries the server's six task fields and the given team |
| TaskList.TeamFor | src/components/CreateTaskModal.tsx:76-79 | no team for an empty team id; otherwise the first fetched team member with that id, or none when no member has it |
| TaskList.AppendCreated | src/components/CreateTaskModal.tsx:75-93 | exactly one entry is appended after the unchanged existing ones |
| TaskForm.SetField | src/components/CreateTaskModal.tsx:50-54 | changing an input sets exactly the field with that name and leaves the others unchanged |
| TaskForm.NonEmpty | src/components/CreateTaskModal.tsx:69-70 | `s \|\| undefined` is absent exactly for the empty string, and is the string otherwise |
| TaskForm.CreatePayload | src/components/CreateTaskModal.tsx:66-71 | the payload keeps name and status, and maps an empty description or team id to absent |
| TaskForm.PayloadMeetsCreateSchema | src/components/CreateTaskModal.tsx:66-71 | the server's create schema accepts the payload exactly when the name is non-empty and the status is valid, and then yields the form's name, description and status |
| TaskForm.TeamsMessage | src/components/CreateTaskModal.tsx:119-138 | the toast for a teams reply other than 200: the 401 and 403 texts, and the server-failure text for anything else |
| CreateTaskModal.SubmitDisabled | src/components/CreateTaskModal.tsx:267 | submit is disabled exactly when loading or the name is empty |
| CreateTaskModal.CreateMessage | src/components/CreateTaskModal.tsx:73-111 | the toast for each reply: created on 201, then the 400, 401 and 403 texts, and the server-failure text for anything else |
| CreateTaskModal.EnabledSubmitIsAccepted | src/components/CreateTaskModal.tsx:267 | when the submit button is enabled and the status is valid, the payload passes the create schema |
| CreateTaskModal.CreateTaskModal.constructor | src/components/CreateTaskModal.tsx:29-36 | loading starts true, there are no teams, and the form is empty with status not_started |
| CreateTaskModal.CreateTaskModal.LoadTeams | src/components/CreateTaskModal.tsx:116-143 | 200 stores the teams; 401 clears the user; 401, 403 and the catch branch each add their toast; loading ends in every case; the toast's 3000 ms removal is scheduled exactly when a toast is added |
| CreateTaskModal.CreateTaskModal.HandleInputChange | src/components/CreateTaskModal.tsx:45-55 | the form becomes the form with that one field set |
| CreateTaskModal.CreateTaskModal.HandleSubmit | src/components/CreateTaskModal.tsx:57-114 | it sends `POST /api/tasks` with the payload; only 201 changes the list, appending one entry, and closes the dialog; only 401 clears the user; exactly one toast is added; loading ends; the toast's 3000 ms removal is scheduled exactly when a toast is added |
| DeleteTaskModal.RemoveTask | src/components/DeleteTaskModal.tsx:47 | removal keeps exactly the entries with other ids, and is never longer |
| DeleteTaskModal.RemoveTaskKeepsOrder | src/components/DeleteTaskModal.tsx:47 | the kept entries are a subsequence of the list, each with its multiplicity |
| DeleteTaskModal.RemoveTaskAbsentAndTwice | src/components/DeleteTaskModal.tsx:47 | removing an absent id changes nothing, and removing twice is removing once |
| DeleteTaskModal.CreateThenDelete | src/components/DeleteTaskModal.tsx:47 | appending a created task with a fresh id and then deleting that id restores the list |
| DeleteTaskModal.DeleteMessage | src/components/DeleteTaskModal.tsx:45-64 | the toast for each reply: deleted on 204, then the 401, 403 and 404 texts, and the server-failure text for anything else |
| DeleteTaskModal.DeleteTaskModal.constructor | src/components/DeleteTaskModal.tsx:29 | not loading, and the dialog is open on the given task |
| DeleteTaskModal.DeleteTaskModal.HandleDeleteTask | src/components/DeleteTaskModal.tsx:38-68 | it deletes `/api/tasks/<id>`; only 204 removes the task and closes the dialog; only 401 clears the user; exactly one toast is added; loading ends; the toast's 3000 ms removal is scheduled exactly when a toast is added |
| TaskModal.InitialForm | src/components/TaskModal.tsx:39-44 | the form starts from the task's values, with "" for a null description or team, or is the empty form without a task |
| TaskModal.IsButtonDisabled | src/components/TaskModal.tsx:53-61 | loading, an empty name, or all four form fields strictly equal to the task's (a form string never equals `null` or `undefined`); TaskModal.ButtonDisabledForTask states its meaning |
| TaskModal.ButtonDisabledForTask | src/components/TaskModal.tsx:53-61 | for an edited task, submit is disabled iff loading, or the name is empty, or the task has a description and a team and the form is unedited; so an unedited task with either null stays enabled |
| TaskModal.IsDiffOf | src/components/TaskModal.tsx:106-132 | the diff relation: each field is present iff its normalised form value differs from the task's, with old then new values; TaskModal.UntouchedDiff and TaskModal.BuildChanges state its consequences |
| TaskModal.UntouchedDiff | src/components/TaskModal.tsx:106-132 | for an untouched form, the diff is empty iff the task's description is null or non-empty and it has a team with a non-empty id |
| TaskModal.BuildChanges | src/components/TaskModal.tsx:92-132 | the result satisfies TaskModal.IsDiffOf: each field is in the diff iff its normalised form value differs from the task's, recording old then new; "" becomes null for description and team; a task without a team always gets `team_id`, `{null, null}` when the form's team is empty; the diff passes `updateTaskDTO` iff it is empty |
| TaskModal.ChangesMeetUpdateSchema | src/dto/task.ts:16-21 | a diff's JSON passes the update schema if and only if the diff is empty |
| TaskModal.UpdatedTeam | src/components/TaskModal.tsx:149-157 | no team for an empty team id; a lead gets the fetched-team lookup; anyone else keeps the old team |
| TaskModal.ReplaceUpdated | src/components/TaskModal.tsx:143-169 | length and order are kept: an entry with the edited id takes the server's fields and the team, and every other entry is unchanged |
| TaskModal.ReplaceAbsent | src/components/TaskModal.tsx:145-147 | with no entry having the edited id, or no edited task, the list is unchanged |
| TaskModal.UpdateThenDelete | src/components/TaskModal.tsx:143-169 | when the server keeps the id, updating an entry and then deleting it equals deleting it |
| TaskModal.SubmitMessage | src/components/TaskModal.tsx:141-210 | the toast for each reply: updated on 200, created on 201, then the 400, 401, 403 and 404 texts, and the server-failure text for anything else |
| TaskModal.TaskUrl | src/components/TaskModal.tsx:138 | `/api/tasks/${oldTask?.id}`, which reads `undefined` without a task |
| TaskModal.TaskModal.constructor | src/components/TaskModal.tsx:37-44 | not loading, no teams, and the form seeded from the task |
| TaskModal.TaskModal.HandleInputChange | src/components/TaskModal.tsx:74-84 | the form becomes the form with that one field set |
| TaskModal.TaskModal.LoadTeams | src/components/TaskModal.tsx:216-246 | only a lead fetches the teams, with the create dialog's dispatch; for anyone else nothing changes; the toast's 3000 ms removal is scheduled exactly when a toast is added |
| TaskModal.TaskModal.HandleSubmit | src/components/TaskModal.tsx:86-214 | create sends `POST /api/tasks` with the payload and an empty diff; update sends `PUT /api/tasks/<id>` with a diff that satisfies TaskModal.IsDiffOf for the form and the task; 200 replaces in place, 201 appends, and both close the dialog; only 401 clears the user; 204 and the rest reach the catch branch; exactly one toast is added; loading ends; the toast's 3000 ms removal is scheduled exactly when a toast is added |
| Http.NatToString | src/pages/api/auth/login.ts:89 | `${n}` is a non-empty string of decimal digits that denotes n, with no leading zero |
| Http.OneMonthDigits | src/pages/api/auth/login.ts:61 | one month in seconds is 2592000, written as "2592000" in the cookie |
| Http.SetCookieHeader | src/pages/api/auth/login.ts:87-90 | the `Set-Cookie` line `access_token=<value>; Max-Age=<seconds>` followed by `Path=/api; SameSite=Strict; HttpOnly; Secure;`; the handlers send this line |
| Http.CookieHeaders | src/pages/api/teams.ts:28-31 | the session line carries the token and `Max-Age=2592000`, and the clearing line an empty value and `Max-Age=0`, each with the fixed attributes |
| Http.Plain | src/pages/api/teams.ts:42 | a text reply with the given status and no cookie; its body is the reason phrase, and for 400, 401, 403, 404 and 500 that phrase is non-empty and differs from each other's |
| Http.Unauthorized | src/pages/api/teams.ts:28-32 | a 401 with the 401 reason phrase and the clearing line `access_token=; Max-Age=0` followed by the fixed attributes |
| Login.ClaimsFor | src/pages/api/auth/login.ts:61-70 | the subject is the user's id, the issuer the host and the jwtid the fresh uuid; the token lives 2592000 s; the role claim is a valid `userRole`, and it is "lead" iff the user is a lead |
| Login.Welcome | src/pages/api/auth/login.ts:87-97 | status 200, the user's DTO as the body, and the line `access_token=<token>; Max-Age=2592000` followed by the fixed attributes |
| Login.LoginHandler | src/pages/api/auth/login.ts:11-99 | non-POST gets nothing; an invalid body gets 400 and no lookup; the id looked up is a UUID; an unknown id gets 404; a found user's claims are role, subject, issuer host, 2592000 s and the jwtid; a signing failure gets 500; success gets 200 with the session cookie and the user DTO; only that reply sets a cookie, and it is then the only reply; a store exception sends 500 and then 404 |
| Login.LoginHandlerFixed | src/pages/api/auth/login.ts:40-59 | the same decisions with a return after the store exception: exactly one response to a POST, and a store failure gets 500 alone |
| Login.WelcomeIsUserDto | src/pages/api/auth/login.ts:92-97 | the login reply's body passes `userDTO` exactly when the stored user's name is non-empty |
| Teams.TeamListing | src/pages/api/teams.ts:55-60 | one DTO per team user, in store order |
| Teams.TeamListingExact | src/pages/api/teams.ts:48-61 | a stored user's DTO is listed iff the user's role is team; the listed users are a subsequence of the store; every listed role is "team" |
| Teams.TeamsHandler | src/pages/api/teams.ts:10-74 | a rejected token gets 401 with the cleared cookie for every method; a non-lead gets 403; the store is read iff a lead sends GET; a lead's other methods get nothing; a store failure gets 500; otherwise 200 with the team listing |
| Me.MeHandler | src/pages/api/users/me.ts:9-71 | a rejected token gets 401 with the cleared cookie; any verified caller's GET looks up the token's subject, with no role check; the verdicts are 404 for an absent user, 500 for a store failure, and 200 for a found user with its DTO; other methods get nothing |
| TasksApi.RowJson | src/pages/api/tasks/index.ts:29-36 | a row's DTO has exactly the keys id, name, description, status, created_at and updated_at, with the row's id, name and nullable description and a valid status; no lead or team id is sent |
| TasksApi.RowJsonIsDto | src/pages/api/tasks/index.ts:28-37 | a row's DTO passes `taskDTO` exactly when its id is a UUID and its name is non-empty |
| TasksApi.NewTaskFor | src/pages/api/tasks/index.ts:62-71 | the inserted data has lead_id "", the body's name and status, and its description only if given, with no team |
| TasksApi.TasksHandler | src/pages/api/tasks/index.ts:10-94 | no token is checked; GET gets 200 with every row's DTO in store order, or 500; a POST body failing the create schema gets 400 and nothing is inserted; otherwise the body's data is inserted and the reply is 201 with the created row, or 500; other methods get nothing |
| Seqs.Filter | src/pages/index.tsx:31 | `filter` keeps exactly the elements that satisfy the predicate and is never longer |
| Seqs.Map | src/pages/api/tasks/index.ts:29-36 | `map` keeps the length and puts f of the i-th element at position i |
| Seqs.FilterIsSubsequence | src/components/DeleteTaskModal.tsx:47 | `filter` keeps the original order: its result is a subsequence of its input |
| Seqs.ReplaceChar | src/pages/index.tsx:143 | `split("_").join(" ")`: same length, each "_" replaced by a space and every other character kept, so no "_" remains |

## Left out

- Rendering is left out: JSX, CSS classes other than the status colours, click-outside
  handling and modal open/close wiring. Each dialog's `isOpen` field stands for the
  owner's modal flag that `setIsModalOpen` clears.
- `src/components/Toast.tsx` is not part of this model (animation). The toast timers are
  modelled as a list of pending removals. `Toaster.RunTimer` fires one of them in any order
  the caller picks: real time and timer ordering are not modelled.
- `src/components/TaskDetailModal.tsx`, `src/pages/login.tsx` and
  `src/components/TopNavbar.tsx` are not part of this model. They are one fetch each, JSON
  and date formatting, and status-to-toast messages.
- The `src/pages/api/tasks/[taskId]/index.ts` update and delete handlers are not part of
  this model. Neither are the audit recorder or the transactional writes, which the task
  collection handler leaves as TODOs.
- `src/pages/api/users/me/index.ts`, `src/pages/api/auth/logout.ts`, `src/pages/api/ping.ts`,
  `prisma/seed.ts` (apart from the seeded id) and `src/pages/_app.tsx` are not part of this
  model. They are constant responders, data or composition.
- JWT signing and verification are left out; `src/utils/token.ts` is a wrapper over
  jsonwebtoken:
  - the signer's result is a parameter, and the claims handed to it are an output;
  - verification is an abstract outcome carrying the role and subject claims;
  - the issuer check and the signature are not modelled;
  - the handlers' call with the request in place of the token is modelled by its intended
    outcome, not by the literal call, which would reject every token.
- Prisma, uuidv4, `toISOString`, pino and the axios transport are left out as I/O and
  foreign calls:
  - a store read is a snapshot or a failure;
  - a write's result is a parameter;
  - generated ids are parameters, and their freshness is a precondition only where a lemma
    needs it;
  - timestamps are opaque strings;
  - the Set-Cookie header is modelled by its value and Max-Age (`Http.SetCookieHeader`
    writes the line), and the other attributes are fixed.
- Zod's uuid rule is modelled as the 8-4-4-4-12 hex text form of section 3 of RFC 4122.
  The version and variant digits are not checked.
- JSON numbers are integers in the model. No schema here reads a number.
- React scheduling is not modelled: state updates within one handler apply in order and at
  once. The `user` a dialog reads is the provider's current one, and concurrent
  re-renders are out of scope.
- Toasts.Duration: a toast duration is an unbounded integer number of milliseconds rather
  than a JavaScript number; no caller passes a duration, so only the 3000 ms default occurs.
- Dashboard.Home.LoadTasks: the reply data is stored as given. The task list's element type
  is the client's `Task`, so a server list without teams is not re-validated.

## Findings

| source | as written | input that shows it | evidently intended | confidence | as-written member | corrected member |
|---|---|---|---|---|---|---|
| src/pages/api/auth/login.ts:40-59 | the store-exception `catch` sends 500 but does not return, so `user` is still null and the handler then attempts a second send, a 404, on the same response | POST with a valid UUID id while the store lookup throws | answer 500 and stop, so that each request gets exactly one response | not executed | Login.LoginHandler | Login.LoginHandlerFixed |
