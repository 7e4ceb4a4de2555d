# ZenPlan task list — a Dafny model

ZenPlan is a browser to-do list. A user adds tasks with an optional due date
and time, ticks them off, deletes them, filters the list by status and can
ask a text-generation service to split a task into suggested subtasks. The
list lives in the top-level component and is written to local storage after
every change, but only once the stored list has been read back at start-up.

This project models that core:

- `Types` (types.ts): the `Todo` record, with mandatory `date` and `time`
  strings and an optional `subtasks` list kept apart from an empty one, and
  the three-valued `FilterType` with the string literals it stands for.
- `TodoList` (App.tsx): add, toggle, delete and attach-subtasks as functions
  from list to list, the filtered view and the four footer and header
  counters, with lemmas on order, ids, undoing, partitioning and counts.
- `App` (App.tsx): the `TodoApp` class holding the list, the filter, the
  `isLoaded` flag and the storage slot, with the load/save gate as its
  invariant, and the wiring to the form and to a row's suggestion request.
- `AddTodo` (components/AddTodo.tsx): the `AddTodoForm` class, its blank-text
  guard (`String.prototype.trim`) and the reset after a submit.
- `TodoItem` (components/TodoItem.tsx): the row's show/hide conditions and the
  `TodoItemState` class with the idle / in-flight `loadingAI` flag.
- `JsArray`, `JsString`: the JavaScript built-ins the core is written with
  (`filter`, `map`, `trim`), defined once, with their lemmas.
- `Wrappers`: `Option`, for optional fields and for `undefined`.

Points where the code is looser than one might expect, and how the model
follows it:

- `date` and `time` are plain strings in types.ts; an unscheduled task holds
  `""`, not an absent field.
- App.tsx:16 calls `JSON.parse` on the stored value without a `try`, so
  unreadable stored data throws; the model has no rule that discards it.
- services/geminiService.ts:28 returns `data.subtasks` unchecked, so the
  result can be `undefined`. The model passes the result on as
  `Option<seq<string>>`, with `None` for `undefined`, and attaches it as it
  is. The object spread then stores `undefined`, which is the same as an
  absent field for display, for counting and for `JSON.stringify`.

## Model

| member | source | states |
|---|---|---|
| `Types.ParseFilter` | types.ts:12 | a string accepted as a filter is the literal of that filter |
| `Types.FilterNamesRoundTrip` | types.ts:12 | each filter's literal reads back as that filter, and exactly `all`, `active` and `completed` are filter values |
| `JsArray.Filter` | App.tsx:52-56 | `filter` never grows the list and everything it returns passes the test |
| `JsArray.FilterMembers` | App.tsx:52-56 | everything `filter` returns comes from the list, and every element that passes the test is returned |
| `JsArray.Map` | App.tsx:41 | `map` keeps the length and puts the image of element i at index i |
| `JsArray.FilterAppend` | App.tsx:52-56 | filtering distributes over concatenation, so the relative order is kept |
| `JsArray.FilterPartition` | App.tsx:53-54 | a test and its complement split a list: the lengths add up and so do the multisets |
| `JsArray.FilterDropsOne` | App.tsx:45 | if the test rejects only index k, filtering gives the list without index k and keeps the order |
| `JsArray.FilterLengthPointChange` | App.tsx:58 | if two lists differ (as the test sees them) only at index k, their filtered lengths differ only by what index k contributes |
| `JsString.Trim` | components/AddTodo.tsx:16 | `trim()` never lengthens the string, and a non-empty result neither starts nor ends with whitespace or a line terminator |
| `JsString.TrimIsSlice` | components/AddTodo.tsx:16 | `trim()` returns a contiguous piece of the string; what it cuts from either end is whitespace; the piece neither starts nor ends with whitespace |
| `JsString.TrimEmptyIffBlank` | components/AddTodo.tsx:16 | `text.trim()` is empty exactly when every character of `text` is ECMAScript whitespace or a line terminator |
| `TodoList.Add` | App.tsx:28-38 | the new task is at index 0 and the old list follows unchanged; text, date and time are stored as given (untrimmed); the task is not completed and has no `subtasks` |
| `TodoList.AddKeepsUniqueIds` | App.tsx:30-37 | adding with a fresh id keeps the ids unique, and the new id is then in the list |
| `TodoList.Toggle` | App.tsx:40-42 | the length is kept; `completed` flips exactly on tasks whose id matches; no other field of any task changes |
| `TodoList.ToggleTwice` | App.tsx:41 | toggling the same id twice gives back the original list |
| `TodoList.ToggleAbsent` | App.tsx:41 | toggling an id no task has leaves the list unchanged |
| `TodoList.ToggleChangesExactlyOne` | App.tsx:41 | with unique ids, toggling task k's id flips task k and leaves every other task equal |
| `TodoList.ToggleKeepsIds` | App.tsx:41 | toggling keeps every id at its index, so the ids are unique after exactly when they were before |
| `TodoList.Delete` | App.tsx:44-46 | no remaining task has the id, every remaining task was in the list, and every task with another id remains |
| `TodoList.DeleteAbsent` | App.tsx:45 | deleting an id no task has leaves the list unchanged |
| `TodoList.DeleteRemovesExactlyOne` | App.tsx:45 | with unique ids, deleting task k's id gives the list without index k, in order, one shorter |
| `TodoList.FilterKeepsUniqueIds` | App.tsx:45 | any filter of a list with unique ids has unique ids |
| `TodoList.DeleteKeepsUniqueIds` | App.tsx:45 | deleting keeps the ids unique and no task with that id remains |
| `TodoList.AttachSubtasks` | App.tsx:48-50 | the length is kept; `subtasks` becomes exactly the given value (an empty list included) on matching tasks; nothing else changes |
| `TodoList.AttachAbsent` | App.tsx:49 | attaching to an id no task has leaves the list unchanged |
| `TodoList.AttachLastWins` | App.tsx:49 | attaching twice to the same id is the same as attaching the second value once (so re-attaching is idempotent) |
| `TodoList.AttachKeepsIds` | App.tsx:49 | attaching keeps every id at its index, so the ids are unique after exactly when they were before |
| `TodoList.ToggleAttachCommute` | App.tsx:41-49 | a toggle and an attachment give the same list in either order |
| `TodoList.FilteredView` | App.tsx:52-56 | the view is drawn from the list and never longer; the `active` view holds exactly the open tasks and the `completed` view exactly the done ones |
| `TodoList.ViewAllIsIdentity` | App.tsx:55 | the `all` view is the whole list |
| `TodoList.ViewsPartition` | App.tsx:53-54 | the `active` and `completed` views share no task and together hold the list exactly (length and multiset) |
| `TodoList.ViewOfConcat` | App.tsx:52-56 | every view keeps the order of the list |
| `TodoList.ViewAfterAdd` | App.tsx:37-56 | a new task appears at the front of the `all` and `active` views and not in the `completed` view, which is unchanged |
| `TodoList.ActiveCount` | App.tsx:58 | "items left" is at most the total, and is 0 exactly when every task is completed |
| `TodoList.DoneCount` | App.tsx:139 | "Done" is at most the total, and is 0 exactly when no task is completed |
| `TodoList.BoostCount` | App.tsx:144 | "AI Boosts" is at most the total, and is 0 exactly when no task has a `subtasks` field (an empty list counts) |
| `TodoList.CountsAddUp` | App.tsx:58-139 | "items left" plus "Done" equals "Total"; they are the lengths of the `active` and `completed` views |
| `TodoList.CountsAfterAdd` | App.tsx:37 | an add raises "items left" and "Total" by one and leaves "Done" and "AI Boosts" as they were |
| `TodoList.CountsAfterToggle` | App.tsx:41 | with unique ids, a toggle moves one task between "items left" and "Done" and leaves "AI Boosts" as it was |
| `TodoList.CountsAfterAttach` | App.tsx:49 | with unique ids, an attachment changes "AI Boosts" only by the presence of task k's field before and after, and leaves the other counts alone |
| `AddTodo.SubmitDisabled` | components/AddTodo.tsx:49 | the submit button is disabled exactly when the text is blank, which is the same test as the submit guard |
| `AddTodo.AddTodoForm.constructor` | components/AddTodo.tsx:9-12 | the form starts with empty text, date and time and the options hidden |
| `AddTodo.AddTodoForm.SetText` | components/AddTodo.tsx:30 | typing replaces the text |
| `AddTodo.AddTodoForm.SetDate` | components/AddTodo.tsx:64 | picking a date replaces the date |
| `AddTodo.AddTodoForm.SetTime` | components/AddTodo.tsx:73 | picking a time replaces the time |
| `AddTodo.AddTodoForm.Submit` | components/AddTodo.tsx:14-22 | blank text: no `onAdd` call and no field changes; otherwise exactly one `onAdd` with the untrimmed text, date and time as held, then all three fields empty and the options hidden |
| `TodoItem.AcceptsTrigger` | components/TodoItem.tsx:17 | a request goes out exactly when none is in flight and `subtasks` is absent or an empty list |
| `TodoItem.ShowsAIButton` | components/TodoItem.tsx:73 | the button shows exactly on an open task whose `subtasks` is absent or an empty list |
| `TodoItem.ShowsSubtaskList` | components/TodoItem.tsx:103 | the subtask list shows exactly when a `subtasks` list is present and not empty |
| `TodoItem.ButtonAndListExclusive` | components/TodoItem.tsx:73-103 | button and subtask list never show together; an open task shows one of them; a shown button on an idle row goes through; a shown list refuses every trigger |
| `TodoItem.TodoItemState.constructor` | components/TodoItem.tsx:13-14 | a row starts idle |
| `TodoItem.TodoItemState.Rerender` | components/TodoItem.tsx:13-14 | while the row stays rendered, a new `todo` prop with the same id replaces the old one and keeps the flag |
| `TodoItem.TodoItemState.StartSuggestions` | components/TodoItem.tsx:16-19 | a request goes out exactly when the trigger guard `AcceptsTrigger` accepts (idle, and `subtasks` absent or empty); when refused, no request and the flag unchanged; otherwise the flag is set and one request for the task's text goes out |
| `TodoItem.TodoItemState.FinishSuggestions` | components/TodoItem.tsx:19-21 | the generator's result, whatever it is, is passed once with the row's id to `onAddSubtasks`, and the flag is cleared |
| `App.TodoApp.constructor` | App.tsx:8-10 | the app starts with an empty list, the `all` filter, `isLoaded` false and storage as found |
| `App.TodoApp.SaveEffect` | App.tsx:22-26 | storage is written with the whole list when loaded, and untouched otherwise |
| `App.TodoApp.Load` | App.tsx:13-19 | a stored list replaces the current one and an unset key leaves it (empty at start); `isLoaded` becomes true and the list is written back |
| `App.TodoApp.HandleAddTodo` | App.tsx:28-38 | the list becomes `Add` of the old one; unique ids stay unique; the write happens only once loaded, and it writes the whole list |
| `App.TodoApp.HandleToggleTodo` | App.tsx:40-42 | the list becomes `Toggle` of the old one; id uniqueness is unchanged; the gate is kept |
| `App.TodoApp.HandleDeleteTodo` | App.tsx:44-46 | the list becomes `Delete` of the old one; unique ids stay unique and the id is gone; the gate is kept |
| `App.TodoApp.HandleAddSubtasks` | App.tsx:48-50 | the list becomes `AttachSubtasks` of the old one; id uniqueness is unchanged; the gate is kept |
| `App.TodoApp.SetFilter` | App.tsx:87 | the filter changes and nothing is written |
| `App.TodoApp.View` | App.tsx:52-56 | the rendered list is never longer than the list; under `all` it is the whole list, under `active` exactly the open tasks, under `completed` exactly the done ones |
| `App.TodoApp.SubmitForm` | App.tsx:79 | a blank submit changes neither list nor storage nor any form field (text, date, time, options shown); any other submit adds the form's fields as held, writes when loaded, empties text, date and time and hides the options |
| `App.TodoApp.FinishSuggestions` | components/TodoItem.tsx:19-21 | a returning request attaches its result to the row's id in the current list, clears the row's flag and re-renders the row with the updated task (which is in the list if the old one was); after a non-empty answer the row refuses every further trigger |

## Left out

- JSON and local storage: the slot holds the decoded list. `JSON.stringify`/`JSON.parse` and their round trip are library behaviour. A corrupted stored value (which makes App.tsx:16 throw) is not modelled. Neither is a stored empty string, which the `if (saved)` test treats as unset.
- The generator (services/geminiService.ts) is not part of this model. Its prompt, model name, response schema and error handling are left out. Its result enters as the input of `FinishSuggestions`: any list, or `None` for `undefined`.
- `crypto.randomUUID` and `Date.now` become the `id` and `now` inputs. `createdAt` is a whole number of milliseconds.
- App.TodoApp.HandleAddTodo: requires the id to be fresh. This stands for the uniqueness of `crypto.randomUUID`; the source itself does not check it.
- App.TodoApp.HandleAddSubtasks: applies the result to the current list, whereas the source maps over the `todos` captured at the render where the request started. The two agree when no other list change happened while the request was pending; otherwise the model keeps the tasks added, toggled or deleted meanwhile, where the source's write of the old snapshot would undo those changes.
- App.TodoApp.FinishSuggestions: goes through `HandleAddSubtasks`, so the same holds: the returning request is applied to the current list, keeping changes made while it was pending, not to the render-time snapshot.
- The `loadingAI` flag lives in the mounted row (components/TodoItem.tsx:14), and App.tsx:103-104 mounts rows only for the tasks in the filtered view. A row whose task leaves the view (a filter switch, or a toggle under `active`) loses its flag; when the task comes back a fresh idle row mounts and can send a second request while the first is still pending, and whichever answer returns last replaces the other, a non-empty list included. The model does not tie one `TodoItemState` to a task, so it allows the same, and promises no more than one request per row while that row stays rendered.
- React scheduling: each effect runs right after the state change that triggers it. Re-renders are modelled only as `TodoItemState.Rerender`, which `App.TodoApp.FinishSuggestions` applies to the answering row; other rows are not re-rendered by the model. Closure timing and the disabled state of the spinner button are not modelled.
- `isPastDue` (components/TodoItem.tsx:24-28) is not modelled, because it depends on date parsing and the clock.
- The row's toggle and delete buttons (components/TodoItem.tsx:35, 93) only pass the row's id to the handlers above. The options toggle (components/AddTodo.tsx:38), `preventDefault`, and all layout, styling and icons are left out too.
- Strings are sequences of Unicode scalar values, not UTF-16 code units. `trim` removes only characters of the Basic Multilingual Plane, so the blank test is the same either way. The whitespace set is that of ECMAScript: the listed characters plus Unicode category Zs.
