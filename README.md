# TodoFlow todo store, modelled in Dafny

TodoFlow is a small task tracker. A signed-in user creates todos with a text, a priority (low, medium or high) and an optional due date. The user can toggle, edit and delete them, and the dashboard filters them by status and priority. This project models the part of it that has logic:

- **The backend table** (`todos.ts`). Five handlers work on one table keyed by id: `list`, `create`, `toggle`, `remove` and `update`. Before any write, each mutation checks that the caller is authenticated and that the record exists and belongs to the caller. `Todos.Store` is a class holding the table as a `map` and an id counter. Its methods change that map in place. The shared check is one function, `Todos.Authorize`. `list` is the function `Todos.Store.List`, defined by the owner scan `Todos.Owned`.
- **The dashboard** (`Dashboard.tsx`). This is pure: the status/priority filter, the completed, total and remaining counters, and the empty-state text.
- **The todo row** (`TodoItem.tsx`). It has the priority colour, the overdue test, and an edit form whose state lives in the class `TodoItemComponent.TodoItem`. Save, cancel, toggle and delete change that state and call the store.
- **The add form** (`AddTodo.tsx`). The class `AddTodoComponent.AddTodoForm` holds the submit guard, the arguments it builds for `create`, and the reset afterwards.

The two forms call the store's methods directly, which gives an end-to-end property. The store accepts any text (`Todos.StoreAcceptsBlankText`). Even so, `Submit`, `Save`, `ToggleDone` and `Delete` all preserve `Todos.TextsNonBlank`, so white-space-only text never reaches the table through the interface. JavaScript's `String.prototype.trim` is modelled in `JsString`. It removes ECMAScript's WhiteSpace and LineTerminator characters.

Modelling choices:
- The caller identity, which the source reads from the request, is an explicit `Option<UserId>` parameter.
- Ids come from the counter `nextId`, so ids are never reused and id order is creation order. The source's "newest first" (`order("desc")` on the owner index) is therefore descending id order.
- A due date is `Option<int>` milliseconds. JavaScript truthiness of a number is `!= 0`.
- Parsing the date input (`new Date(s).getTime()`) and formatting a stored date (`toISOString().split('T')[0]`) are library calls. They are passed in as the functions `parse: string -> int` and `format: int -> string`. The current time is the parameter `now`.
- Notifications (`toast`, `toast.error`) are returned as `Forms.Toast` values carrying the source's messages.
- All source files are TypeScript. Paths below are relative to the repository root.

Facts of the code the model keeps:
- Records carry `userId`.
- A malformed priority never reaches a handler: Convex's argument validator (`Todos.ParsePriority`) rejects it.
- The store never checks that text is non-empty.

## Model

| member | source | states |
|---|---|---|
| `JsString.TrimStart` | src/components/AddTodo.tsx:22 | leading white space removed: a suffix of the input, only white space before it, not starting with white space |
| `JsString.TrimEnd` | src/components/AddTodo.tsx:29 | trailing white space removed: a prefix of the input, only white space after it, not ending with white space |
| `JsString.Trim` | src/components/AddTodo.tsx:29 | `trim()` is no longer than its input and neither starts nor ends with white space |
| `JsString.TrimIsSlice` | src/components/TodoItem.tsx:56 | `trim()` is the contiguous slice of the input that starts where the leading white space ends, with only white space before and after it |
| `JsString.TrimEmptyIffBlank` | src/components/AddTodo.tsx:22 | `!text.trim()` holds exactly when the text is all white space |
| `JsString.TrimIdempotent` | src/components/TodoItem.tsx:56 | trimming already-trimmed text changes nothing |
| `JsString.TrimmedIsNotBlank` | src/components/TodoItem.tsx:48-56 | a non-empty trimmed text contains a non-white-space character |
| `Todos.ParsePriority` | src/convex/todos.ts:24 | the priority validator accepts only the name of a priority |
| `Todos.ParsePriorityExactly` | src/convex/todos.ts:83 | the validator maps a string to priority p exactly when the string is p's name, so only low/medium/high are ever stored |
| `Todos.Authorize` | src/convex/todos.ts:46-54 | the guard passes exactly for a signed-in caller who owns an existing record and returns that record; an anonymous caller fails with "Not authenticated"; a signed-in caller on a missing or foreign record fails with "Todo not found or unauthorized" (the messages are fixed by `Todos.ErrorMessages`) |
| `Todos.ErrorMessages` | src/convex/todos.ts:47-54 | `NotAuthenticated` is thrown as "Not authenticated" and `NotFoundOrUnauthorized` as "Todo not found or unauthorized"; the two messages differ |
| `Todos.AuthorizeHidesExistence` | src/convex/todos.ts:92-95 | for a signed-in caller, a missing id and an id owned by another user each fail with the same error, "Todo not found or unauthorized" |
| `Todos.DeletedIdIsRejected` | src/convex/todos.ts:70-75 | after the record is deleted, the guard fails for every caller on that id |
| `Todos.Flip` | src/convex/todos.ts:56-58 | toggle negates `completed` and keeps text, owner, priority and due date |
| `Todos.FlipInvolutive` | src/convex/todos.ts:56-58 | toggling twice restores the record |
| `Todos.ApplyPatch` | src/convex/todos.ts:97-102 | a patch never changes the owner or `completed` |
| `Todos.ApplyPatchFieldwise` | src/convex/todos.ts:98-100 | each supplied field overwrites the stored one; each omitted field keeps it |
| `Todos.EmptyPatchIsIdentity` | src/convex/todos.ts:97-102 | an update that supplies nothing leaves the record unchanged |
| `Todos.ApplyPatchIdempotent` | src/convex/todos.ts:97-102 | applying the same update twice equals applying it once |
| `Todos.ApplyPatchKeepsDueDate` | src/convex/todos.ts:100 | a stored due date can never be cleared by `update` |
| `Todos.Owned` | src/convex/todos.ts:13-17 | the owner-index scan over ids below the bound, newest first; it is no longer than the bound (its meaning is in `OwnedMembers` and `OwnedDescending`) |
| `Todos.OwnedMembers` | src/convex/todos.ts:13-17 | the owner scan holds exactly the owner's records below the bound, with their current contents |
| `Todos.OwnedDescending` | src/convex/todos.ts:16 | the owner scan lists ids in strictly decreasing (newest-first) order |
| `Todos.OwnedFrame` | src/convex/todos.ts:15 | the scan for a user depends only on that user's records |
| `Todos.OwnedInsertFresh` | src/convex/todos.ts:33-39 | a freshly created record becomes the first element of its owner's list and appears in no other list |
| `Todos.OwnedOtherUser` | src/convex/todos.ts:56 | changing or deleting a record of one user leaves every other user's list unchanged |
| `Todos.Store.constructor` | src/convex/todos.ts:33 | a new table is empty with the id counter at 0, so every id `insert` hands out later is fresh |
| `Todos.Store.List` | src/convex/todos.ts:5-18 | an anonymous caller gets the empty list; a signed-in caller gets exactly their records, current contents, strictly newest first |
| `Todos.Store.Create` | src/convex/todos.ts:21-40 | fails with "Not authenticated" and changes nothing without a caller; otherwise inserts one record under a fresh, never-used id with `completed = false`, the caller as owner and the given fields, and returns that id |
| `Todos.Store.Toggle` | src/convex/todos.ts:43-59 | succeeds exactly when the guard passes and then replaces the record by `Flip` of it; on failure the table is unchanged and the guard's error is returned |
| `Todos.Store.Remove` | src/convex/todos.ts:62-76 | succeeds exactly when the guard passes and then deletes the id; on failure the table is unchanged |
| `Todos.Store.Update` | src/convex/todos.ts:79-103 | succeeds exactly when the guard passes and then replaces the record by `ApplyPatch` of it; on failure the table is unchanged |
| `Todos.StoreAcceptsBlankText` | src/convex/todos.ts:23-39 | `create` does not check the text: for a signed-in caller and any all-white-space text it succeeds, stores that text, and the table then breaks `TextsNonBlank` |
| `Todos.InsertKeepsNonBlank` | src/convex/todos.ts:33-39 | inserting a record with non-blank text keeps all texts non-blank |
| `Todos.PatchKeepsNonBlank` | src/convex/todos.ts:97-102 | an update supplying no text or a non-blank text keeps all texts non-blank |
| `Todos.FlipAndDeleteKeepNonBlank` | src/convex/todos.ts:75 | toggle and delete keep all texts non-blank |
| `Dashboard.Fetched` | src/pages/Dashboard.tsx:19 | the query's answer, defaulting to `[]`: no answer yet is the empty list, an answer is used as it is (the contract spells out the body; `MissingResultIsEmpty` is the property) |
| `Dashboard.Filtered` | src/pages/Dashboard.tsx:23-31 | the filtered list is no longer than the fetched list |
| `Dashboard.FilteredIsSubsequence` | src/pages/Dashboard.tsx:23 | the filtered list is an order-preserving subsequence of the fetched list |
| `Dashboard.FilteredMembers` | src/pages/Dashboard.tsx:23-31 | a todo is shown exactly when it was fetched and passes both the status test and the priority test |
| `Dashboard.FilteredMultiplicity` | src/pages/Dashboard.tsx:23-31 | a todo that passes both tests is shown as many times as it was fetched; one that fails either is not shown |
| `Dashboard.FilterAllIsIdentity` | src/pages/Dashboard.tsx:24-28 | "all" and "all" show the whole list unchanged |
| `Dashboard.ActiveAndCompletedSplit` | src/pages/Dashboard.tsx:24-26 | "active" keeps exactly the open todos and "completed" exactly the done ones |
| `Dashboard.OnlyPriorityKeepsThatPriority` | src/pages/Dashboard.tsx:28 | a concrete priority filter keeps only todos of that priority |
| `Dashboard.FilterComposes` | src/pages/Dashboard.tsx:28-30 | combining the status and priority filters is applying one after the other |
| `Dashboard.StatusViewsPartition` | src/pages/Dashboard.tsx:23-31 | for a fixed priority filter, the sizes of the "active" and "completed" views sum to the size of the "all" view |
| `Dashboard.CompletedCount` | src/pages/Dashboard.tsx:33 | completed count is at most the total count |
| `Dashboard.TotalCount` | src/pages/Dashboard.tsx:34 | the total is the size of the "all"/"all" view |
| `Dashboard.Remaining` | src/pages/Dashboard.tsx:75 | the displayed remaining (`totalCount - completedCount`) is never negative |
| `Dashboard.CountsMatchViews` | src/pages/Dashboard.tsx:33-34 | the completed count is the size of the "completed" view and remaining is the size of the "active" view |
| `Dashboard.MissingResultIsEmpty` | src/pages/Dashboard.tsx:19 | before the query answers, the filtered list is empty and all counters are zero |
| `Dashboard.EmptyMessage` | src/pages/Dashboard.tsx:133-135 | the empty-state headline chosen by the status selector (its values and distinctness are in `EmptyMessagePerStatus`) |
| `Dashboard.EmptyView` | src/pages/Dashboard.tsx:125-139 | the empty state appears exactly when the filtered list is empty, with the headline for the status filter; the hint is "Add your first todo above to get started!" under "all" and empty otherwise |
| `Dashboard.EmptyMessagePerStatus` | src/pages/Dashboard.tsx:133-135 | the headlines are "No completed tasks yet", "No active tasks" and "No todos yet", and each status has its own |
| `TodoItemComponent.PriorityColor` | src/components/TodoItem.tsx:74-81 | `getPriorityColor` (its meaning is in `PriorityColorOfPriority` and `PriorityColorGrayIffInvalid`) |
| `TodoItemComponent.PriorityColorOfPriority` | src/components/TodoItem.tsx:74-81 | high is red, medium yellow, low green, and the three colours differ |
| `TodoItemComponent.PriorityColorGrayIffInvalid` | src/components/TodoItem.tsx:79 | gray is used exactly for strings that are not a priority name |
| `TodoItemComponent.IsOverdue` | src/components/TodoItem.tsx:83 | the overdue badge's condition (its meaning is in `OverdueExactly` and `OverdueUntilToggled`) |
| `TodoItemComponent.OverdueExactly` | src/components/TodoItem.tsx:83 | an open todo with a non-zero due date before `now` is overdue; conversely overdue requires a due date before `now`, and a completed todo, a missing due date and a due date of 0 are never overdue |
| `TodoItemComponent.OverdueUntilToggled` | src/components/TodoItem.tsx:83 | an overdue todo stays overdue as time passes and stops being overdue once toggled |
| `Forms.DueDateArg` | src/components/TodoItem.tsx:58 | an empty date input sends no due date, any other sends `parse` of it (the contract spells out the body; `SaveArgs` and `SubmitArgs` carry it) |
| `Forms.DueDateField` | src/components/TodoItem.tsx:22 | a missing or zero due date shows an empty date input, any other its formatted date (the contract spells out the body; the `TodoItem` constructor and `Cancel` carry it) |
| `TodoItemComponent.SaveArgs` | src/components/TodoItem.tsx:47-59 | no update call for blank text; otherwise the trimmed, non-blank text, always the priority, and a due date exactly when the date input is not empty, namely `parse` of that input |
| `TodoItemComponent.SaveKeepsDueDateWhenFieldEmpty` | src/components/TodoItem.tsx:58 | saving with an empty date input keeps the stored due date |
| `TodoItemComponent.TodoItem.constructor` | src/components/TodoItem.tsx:17-23 | not editing, and the edit fields equal the record's text, priority and formatted due date |
| `TodoItemComponent.TodoItem.Rerender` | src/components/TodoItem.tsx:18-23 | a new record in the props leaves the edit state as it was |
| `TodoItemComponent.TodoItem.StartEditing` | src/components/TodoItem.tsx:169 | the edit button enters editing mode |
| `TodoItemComponent.TodoItem.Cancel` | src/components/TodoItem.tsx:67-72 | the edit fields show the stored record again and editing ends |
| `TodoItemComponent.TodoItem.Save` | src/components/TodoItem.tsx:47-65 | blank text: error toast, no store change, editing unchanged; failed update: error toast, still editing; successful update: the record patched with `SaveArgs`, editing ends; never stores blank text |
| `TodoItemComponent.TodoItem.ToggleDone` | src/components/TodoItem.tsx:29-36 | flips the record through the store, with the message chosen from the rendered `completed`; the error toast on failure |
| `TodoItemComponent.TodoItem.Delete` | src/components/TodoItem.tsx:38-45 | deletes the record through the store, or shows the error toast and changes nothing |
| `AddTodoComponent.SubmitArgs` | src/components/AddTodo.tsx:19-32 | no create call for blank text; otherwise the trimmed, non-blank text, the priority, and a due date exactly when the date input is not empty, namely `parse` of that input |
| `AddTodoComponent.AddTodoForm.constructor` | src/components/AddTodo.tsx:12-15 | empty text and date, priority medium, collapsed |
| `AddTodoComponent.AddTodoForm.Expand` | src/components/AddTodo.tsx:57 | focusing the text input expands the form |
| `AddTodoComponent.AddTodoForm.Collapse` | src/components/AddTodo.tsx:96 | the cancel button collapses the form |
| `AddTodoComponent.AddTodoForm.Submit` | src/components/AddTodo.tsx:19-42 | blank text: error toast, nothing changes; failed create: error toast, form and table unchanged; success: one record with the `SubmitArgs` fields is inserted and the form is reset; never stores blank text |
| `Scenario.Walkthrough` | src/convex/todos.ts:5-104 | create "Buy milk", toggle, rename to "Buy oat milk" and remove give the lists shown; an intruder's toggle fails; an anonymous list is empty |
| `Scenario.ToggleTwice` | src/convex/todos.ts:43-59 | two toggles leave the table unchanged |
| `Scenario.UseAfterRemove` | src/convex/todos.ts:62-76 | after a successful remove, toggle, update and remove on that id all fail with "Todo not found or unauthorized" |
| `Scenario.TrimPadded` | src/components/AddTodo.tsx:28-32 | "  Buy milk " trims to "Buy milk", and the add form sends exactly that text with no due date |
| `Scenario.SubmitBlank` | src/components/AddTodo.tsx:22-25 | the add form refuses "   ", keeps the text and stores nothing |

## Left out

- src/pages/Landing.tsx: static page markup with no logic.
- JSX rendering, animation, the Select/Input/Checkbox widgets and CSS classes. Only the colour mapping is modelled, as a pure function.
- Notifications are returned values; their display and timing are not modelled.
- Convex internals (`ctx.db`, the `by_user` index, `_creationTime`) are replaced by a map and an id counter. Convex ids are opaque strings; here they are naturals.
- `getAuthUserId` and session handling: the caller is a parameter.
- Date parsing, date formatting and `Date.now()`: parameters. An unparsable date (`NaN`) and fractional or non-finite numbers are not modelled; due dates are integers.
- Failures of a mutation call other than the store's own errors (network, transport) are not modelled. In the forms, "create failed" and "update failed" mean the store rejected the call.
- Async/await, the reactive `useQuery` subscription and concurrent toggles racing on one record: every operation runs atomically and in sequence. A re-render is the explicit `Rerender` step.
- The welcome line (`user?.name || user?.email`) and the form fields' `onChange` setters: plain field assignments.
- `Todos.Store.Create`, `Todos.Store.Toggle`, `Todos.Store.Remove`, `Todos.Store.Update`: their contracts describe the new table, not the new `List` results. How the lists change is stated by the lemmas `Todos.OwnedInsertFresh` and `Todos.OwnedOtherUser` over the same table.
- `JsString.IsWhitespace`: the Unicode space separators are hard-coded (category Zs of current Unicode). A future Unicode version with more separators is not followed.
