# Todo list core, in Dafny

A model of the sequential logic of a small task-management web app. The hosted
auth and database service it calls is not modelled. Three pieces are modelled:

- **Dashboard page** (`Dashboard`, class `DashboardPage`). The component state is the task
  list, the project list, the new-task input, the user and the loading flag. Add, toggle
  and delete change the list only after the store reports success. Add prepends the
  returned row. Toggle is called with a task's current `completed` flag and writes its
  negation into every task with the id. Delete drops every task with the id. Each render splits the list into the inbox
  (open tasks), the open high-priority group and the open other group. It also derives the
  greeting name from the user's full name or email.
- **Sign-up form** (`Signup`, class `SignUpForm`). Three local checks run in a fixed order
  before the sign-up call: passwords match, at least 8 characters, terms accepted. The first
  failure sets its message and clears `loading`. A failed call shows the returned message,
  or "An error occurred" when that message is empty.
- **`/api/todos` route** (`TodosRoute`). `GET` and `POST` are functions. Each maps the
  session lookup, the request body and the store's answer to an HTTP response and the list
  of calls made. The calls are a body read, a select scoped to the caller, and an insert.
  Status 401 comes before anything else. `POST` answers 400 for a falsy title. It defaults
  the priority to low, forces `completed = false` and binds the row to the caller. Success
  is 201 for `POST` and 200 for `GET`. A store error or an exception gives 500 with its
  message unchanged.

Backend replies are parameters: `StoreReply` is `Ok(data)` or `Error(message)`. So every
handler is specified for both outcomes. The store itself is an abstract table (`seq<Task>`).
Handlers run one at a time.

Shared pieces: `Types` holds the records of `types/index.ts`. `Seqs` holds
`Array.prototype.filter` and the subsequence relation it preserves. `Strings` holds
JavaScript's `trim` and `split(sep)[0]`. It also holds the order the store sorts `created_at` by
(`.order("created_at", { ascending: false })`), with timestamps compared as ISO-8601 text.

## Model

| member | source | states |
|---|---|---|
| Seqs.Filter | app/dashboard/page.tsx:154-156 | `filter` keeps exactly the elements that pass, each with its multiplicity, in their original order (a subsequence) |
| Seqs.FilterFilter | app/dashboard/page.tsx:154-156 | filtering the filtered inbox equals one filter by the conjunction of both predicates |
| Strings.Trim | app/dashboard/page.tsx:96 | `trim()` is the slice of the input left after removing a blank prefix and a blank suffix, and it neither starts nor ends with white space |
| Strings.TrimEmptyIffBlank | app/dashboard/page.tsx:96 | `s.trim()` is empty exactly when every character of `s` is ECMAScript white space or a line terminator |
| Strings.BeforeFirst | app/dashboard/page.tsx:160-162 | `split(sep)[0]` is the prefix of the string that contains no `sep` and is followed by `sep` or the end |
| Dashboard.TodayTasks | app/dashboard/page.tsx:154 | `todayTasks`, the filter of the open tasks; it has no contract of its own, and PartitionMembers, PartitionCounts and PartitionOrder state its properties |
| Dashboard.HighPriorityTasks | app/dashboard/page.tsx:155 | `highPriorityTasks`, the filter of the inbox by priority high; it has no contract of its own, and the three Partition lemmas state its properties |
| Dashboard.OtherTasks | app/dashboard/page.tsx:156 | `otherTasks`, the filter of the inbox by priority other than high; it has no contract of its own, and the three Partition lemmas state its properties |
| Dashboard.PartitionMembers | app/dashboard/page.tsx:154-156 | inbox = open tasks; high group = open tasks of priority high; other group = open tasks of any other priority; completed tasks are in neither group |
| Dashboard.PartitionCounts | app/dashboard/page.tsx:154-156 | the groups are disjoint and their sizes add up to the inbox size; inbox and completed tasks split the whole list |
| Dashboard.PartitionOrder | app/dashboard/page.tsx:154-156 | inbox and both groups keep the list order |
| Dashboard.Render | app/dashboard/page.tsx:202-499 | the high group lists `HighPriorityTasks`, the other group lists `OtherTasks`; inbox badge = number of open tasks = size of the two groups together; each group is shown iff it has an open task of its kind; the empty-state message is shown iff the list is empty |
| Dashboard.OnlyCompletedShowsNothing | app/dashboard/page.tsx:496-499 | a non-empty list of completed tasks shows a zero badge, no group and no empty-state message |
| Dashboard.ToggleMatching | app/dashboard/page.tsx:131-135 | length kept; tasks with the id get `completed` set to the given value; no other field and no other task changes |
| Dashboard.WithoutTask | app/dashboard/page.tsx:145 | no task with the id remains; every task with another id keeps its multiplicity and its relative order |
| Dashboard.ToggleIdempotent | app/dashboard/page.tsx:122-136 | the written value comes from the argument, so toggling again with the same argument changes nothing |
| Dashboard.DeleteIdempotent | app/dashboard/page.tsx:139-146 | deleting the same id twice equals deleting it once |
| Dashboard.DeleteUndoesAdd | app/dashboard/page.tsx:117-145 | deleting a freshly added row (its id was new) gives back the list before the add |
| Dashboard.CompletingLeavesInbox | app/dashboard/page.tsx:132-154 | marking an id completed removes exactly the tasks with that id from the inbox and keeps the rest in order |
| Dashboard.GetUserName | app/dashboard/page.tsx:158-163 | first word of a non-empty full name; else the non-empty mailbox part of the email; else "User"; the result is empty only for a full name that starts with a space |
| Dashboard.DashboardPage.constructor | app/dashboard/page.tsx:30-34 | empty task and project lists, empty input, no user, loading |
| Dashboard.DashboardPage.View | app/dashboard/page.tsx:165-171 | the loading screen while loading, otherwise the board of the current list and the greeting name |
| Dashboard.DashboardPage.CheckUser | app/dashboard/page.tsx:45-54 | a session's user is stored; without a session the user is unchanged |
| Dashboard.DashboardPage.LoadTasks | app/dashboard/page.tsx:56-74 | no session: no query, nothing changes (loading stays on); a query is scoped to the session user; an error keeps the list; success replaces it (null data gives the empty list); loading ends |
| Dashboard.DashboardPage.LoadProjects | app/dashboard/page.tsx:76-92 | no session or an error keeps the projects; success replaces them, scoped to the session user |
| Dashboard.DashboardPage.AddTask | app/dashboard/page.tsx:94-120 | a blank title or no session sends nothing; otherwise it sends the untrimmed title, low priority, not completed, owned by the session user; success gives `[row] + tasks` and clears the input; failure changes nothing |
| Dashboard.DashboardPage.ToggleTask | app/dashboard/page.tsx:122-137 | sends `completed := !completed` for the id; success applies the same value locally; failure keeps the list |
| Dashboard.DashboardPage.DeleteTask | app/dashboard/page.tsx:139-147 | sends a delete for the id; success removes the tasks with the id; failure keeps the list |
| Signup.FirstValidationError | app/signup/page.tsx:28-44 | no error iff the passwords match, have at least 8 characters and the terms are accepted; otherwise the message of the first failing check in the order mismatch, length, terms |
| Signup.ErrorText | app/signup/page.tsx:61-62 | the returned message when it has text, otherwise "An error occurred"; so the shown message is never empty |
| Signup.SignUpForm.constructor | app/signup/page.tsx:13-19 | empty fields, terms unchecked, not loading, no error |
| Signup.SignUpForm.HandleSubmit | app/signup/page.tsx:23-66 | sign-up is called iff all checks pass, with email, password and the full name as metadata; `error` is the first failing check's message, else the call's error text, else empty; `loading` is off on every path |
| TodosRoute.ServerError | app/api/todos/route.ts:21-28 | the 500 response carrying an error's message unchanged, used for store errors and thrown exceptions (lines 22, 27, 66, 71); it has no contract of its own, and Get and Post state where it is used |
| TodosRoute.IsFalsy | app/api/todos/route.ts:45 | `!title`: the title is absent or null, or is the empty string; it has no contract of its own, and Post states its use |
| TodosRoute.Owned | app/api/todos/route.ts:15-18 | exactly the table rows owned by the user, with their multiplicities |
| TodosRoute.SortNewestFirst | app/api/todos/route.ts:19 | the result is a permutation of the rows |
| TodosRoute.SortNewestFirstOrders | app/api/todos/route.ts:19 | the result lists no row before a row with a later `created_at` |
| TodosRoute.Get | app/api/todos/route.ts:4-29 | no session: 401 and no query; a session-lookup exception: 500 with its message; a session: one select scoped to the caller, a store error gives 500 with its message, otherwise 200 with exactly the caller's rows, newest first |
| TodosRoute.RowToInsert | app/api/todos/route.ts:42-61 | title, project and due date from the body; priority from the body or low when absent; never completed; owned by the caller |
| TodosRoute.Post | app/api/todos/route.ts:31-73 | no session: 401, body not read, no insert; unparsable body: 500; falsy title: 400 "Title is required", no insert; otherwise exactly one insert of the shaped row, then 201 with the returned row or 500 with the store's message |
| TodosRoute.CreateThenList | app/api/todos/route.ts:31-73 | creating `{title}` stores an open low-priority row for the caller; the caller's list then shows it and another user's list does not |
| TodosRoute.BlankTitlesAccepted | app/api/todos/route.ts:45-50 | every non-empty title made only of white space gets past the route's title check, although `trim()` of it is empty, so the dashboard's check rejects it |

## Left out

- Markup, styling, icons, the social-login buttons, router navigation and `router.refresh()` are left out. They are presentation or I/O.
- The login page is left out. It only forwards to the hosted sign-in call.
- The hosted service's internals are abstract. This covers session lookup, the query builder and the projects join. Session lookups and replies are parameters. The `project` field of a listed row is whatever the table holds.
- `TodosRoute.Get` compares `created_at` as text. This matches timestamp order only when all timestamps share one ISO-8601 format and zone. Rows with equal timestamps may come in any order, so the contract states order and permutation, not a particular tie order.
- TodosRoute.Post: the body's `priority` is one of high, medium and low, and `project_id` and `due_date` are strings. The route copies these fields unchecked, so a priority such as "urgent" or a number reaches the store unchanged, with no 400. The model cannot represent such a body.
- `TodosRoute.Post` does not tell an absent field from a JSON `null` one. A `null` priority would be passed on as `null` rather than defaulted. Title values that are not strings (numbers, booleans) are not modelled.
- Greeting by hour of day and the `date-fns` date formatting are left out. They read the wall clock and use an external library.
- Overlapping asynchronous handlers are left out. In the source, concurrent adds can lose an update because `setTasks` captures a stale list. Handlers here run one at a time.
- `Signup.SignUpForm.HandleSubmit` states only the final `loading` and `error`. It does not state the intermediate `loading = true` / `error = ""` shown while the call is in flight.
- Exceptions thrown by the dashboard's own session lookup are left out. Those rejections are unhandled there.
- Lengths are counted in Unicode scalar values, not UTF-16 code units. This affects the 8-character rule and the string order for characters outside the Basic Multilingual Plane.
- The update and delete endpoints of `app/api/todos/[id]/route.ts` are not part of this model.
