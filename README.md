# Task board data logic in Dafny

A model of the data logic of a browser Kanban board. It has four parts, each a
Dafny module, plus the pieces they share:

- **Task repository** (`TaskManager`, from `scripts/tasks/taskManager.js`).
  Create, update and delete tasks. Each is one load-modify-save round trip over
  the `"tasks"` storage key. `TaskRepository` is a class that holds the shared
  storage object and the seed list. Form values are passed in as parameters.
- **Durable store adapter** (`TaskStore`, from `scripts/utils/localStorage.js`).
  Loads and saves the task list under the key `"tasks"`. A load seeds that key
  with the initial list when the key is missing, empty or unreadable.
- **Remote source gateway** (`Api`, from `scripts/api.js`). Tries three
  endpoints in a fixed order and normalises each response body. The first
  non-empty array wins; if none wins, the call fails. What each endpoint
  answers is a parameter, `fetch: string -> Attempt`.
- **Theme switch** (`Theme`, from `scripts/ui/theme.js`). A persisted
  light/dark state. The stored theme, the body's `dark-mode` class and the two
  checkboxes are kept in agreement.

Shared pieces:

- `Storage.LocalStorage` is the browser's `localStorage`: a class over a
  `map<string, string>`, where an absent key means `null`.
- `Tasks.Task` is the task record.
- `Text.Trim` is `String.prototype.trim`.
- `TaskCodec` is the text form of a task list. It stands in for
  `JSON.stringify`/`JSON.parse`, and its round trip is proved, not assumed.
  Like `JSON.stringify` of an array, an encoding is never the empty string.

On stored text that does not parse, `loadTasksFromStorage` logs the error and
falls through to the seeding `setItem` (scripts/utils/localStorage.js:20-28),
so the corrupt value is overwritten with the seed list. `TaskStore.Load` does
the same (`TaskStore.LoadSeeds`).

## Model

| member | source | states |
|---|---|---|
| `Text.Trim` | scripts/tasks/taskManager.js:19-20 | The result is a slice of the input with only white space cut off before and after it. It neither starts nor ends with JavaScript white space. It is empty exactly when the input is all white space, so it is the test behind the early return on line 25. |
| `Text.TrimIdempotent` | scripts/tasks/taskManager.js:19-20 | Trimming an already trimmed value changes nothing. |
| `TaskCodec.Encode` | scripts/utils/localStorage.js:16-37 | No saved list is stored as the empty string, so the `if (stored)` test never mistakes a saved list for a missing one. |
| `TaskCodec.RoundTrip` | scripts/utils/localStorage.js:17-37 | Parsing the text written for a list gives that same list back. |
| `TaskCodec.EncodeInjective` | scripts/utils/localStorage.js:35-38 | Two lists saved as the same text are the same list. |
| `TaskStore.Load` | scripts/utils/localStorage.js:13-29 | A load returns either the parsed stored list or the seed list. If it writes at all, it writes only the seed list under `"tasks"`; no other key changes. |
| `TaskStore.LoadLeavesResultStored` | scripts/utils/localStorage.js:13-29 | On every path, after the load the `"tasks"` key parses to exactly the list the load returned. |
| `TaskStore.LoadSeeds` | scripts/utils/localStorage.js:16-28 | If the key is missing, empty, or holds text that does not parse, the seed list is written under `"tasks"` and returned. |
| `TaskStore.LoadDecoded` | scripts/utils/localStorage.js:17-19 | If the stored text parses, its list is returned and storage is not written. |
| `TaskStore.LoadAfterSave` | scripts/utils/localStorage.js:13-38 | A load right after a save returns the saved list and leaves storage as the save left it. |
| `TaskStore.LoadIdempotent` | scripts/utils/localStorage.js:13-29 | A second load returns the same list as the first and writes nothing new. |
| `TaskStore.LoadTasksFromStorage` | scripts/utils/localStorage.js:13-29 | The method's result and the new storage are exactly those `Load` gives for the old storage. |
| `TaskStore.SaveTasksToStorage` | scripts/utils/localStorage.js:35-38 | Overwrites `"tasks"` with the encoding of the whole list, whatever was there before. Every other key keeps its value. |
| `TaskManager.MaxId` | scripts/tasks/taskManager.js:32 | The result is at least every id in the list, and some task has it: it is the largest id. |
| `TaskManager.NextId` | scripts/tasks/taskManager.js:32 | The new id is 1 on an empty list. Otherwise it is one more than an id in the list and larger than every id, so it differs from all of them. |
| `TaskManager.Appended` | scripts/tasks/taskManager.js:31-39 | Exactly one task is added, at the end, with the fresh id. Every earlier task keeps its position and value. |
| `TaskManager.AppendedKeepsIdsUnique` | scripts/tasks/taskManager.js:32-39 | Create keeps all ids distinct. |
| `TaskManager.Merge` | scripts/tasks/taskManager.js:67 | Each field present in the patch overwrites the task's field, and each absent field is kept. The id is the patch's id. |
| `TaskManager.MergeIdempotent` | scripts/tasks/taskManager.js:67 | Merging the same patch twice gives the same task as merging it once. |
| `TaskManager.FirstMatch` | scripts/tasks/taskManager.js:63 | The result is -1 exactly when no task has the id. Otherwise it is an index holding the id, and no earlier index holds it. |
| `TaskManager.FindIndex` | scripts/tasks/taskManager.js:63 | The search loop returns the first index whose task has the id, or -1 when there is none. |
| `TaskManager.UpdateKeepsIdsUnique` | scripts/tasks/taskManager.js:63-67 | Merging onto the found task keeps all ids distinct. |
| `TaskManager.RemoveId` | scripts/tasks/taskManager.js:84 | A task is in the result exactly when it was in the list and has a different id. The list never grows. |
| `TaskManager.RemoveIdAppend` | scripts/tasks/taskManager.js:84 | The filter works piecewise over a concatenation, so the kept tasks stay in their original order. |
| `TaskManager.RemoveIdAbsent` | scripts/tasks/taskManager.js:84 | Deleting an id that no task has gives back the same list. |
| `TaskManager.RemoveIdCount` | scripts/tasks/taskManager.js:84 | With distinct ids, delete removes exactly one task when the id is in use, and none otherwise. |
| `TaskManager.RemoveIdKeepsIdsUnique` | scripts/tasks/taskManager.js:84 | Delete keeps all ids distinct. |
| `TaskManager.TaskRepository.AddNewTask` | scripts/tasks/taskManager.js:17-51 | If the title trims to nothing, storage is left exactly as it was, with no load and no save. Otherwise `"tasks"` ends up holding the loaded list with one new task appended: fresh id, trimmed title and description, status as given. |
| `TaskManager.TaskRepository.UpdateTask` | scripts/tasks/taskManager.js:58-75 | If no loaded task has the patch's id, nothing is saved, and storage is as the load left it. Otherwise `"tasks"` holds the loaded list with only the first matching task replaced by the merge. When the load fell back to the seed list, that list is the seed array itself, so the merge also lands in `initialTasks` (scripts/utils/localStorage.js:28 returns it) and a later re-seed stores the edited seed; on every other path `initialTasks` is unchanged. |
| `TaskManager.TaskRepository.DeleteTask` | scripts/tasks/taskManager.js:82-92 | `"tasks"` holds the loaded list without the tasks that have the id. This list is saved even when nothing matched. |
| `Api.Normalise` | scripts/api.js:30 | Reading a field throws only for a `null` body. An array body is used as it is. For an object, a truthy `tasks` field is used; otherwise a truthy `data` field is used; otherwise the result is the empty array. Any other body gives the empty array. |
| `Api.Accepted` | scripts/api.js:23-33 | A candidate yields tasks exactly when it is a 2xx response whose body parses and normalises to a non-empty array, and the tasks are that array. |
| `Api.TasksFieldAccepted` | scripts/api.js:30-33 | A non-empty `tasks` array in a 2xx response is accepted as it is, whatever `data` holds. |
| `Api.BareArrayAccepted` | scripts/api.js:30-33 | A non-empty bare array in a 2xx response is accepted as it is. |
| `Api.EmptyTasksShadowsData` | scripts/api.js:30-33 | An empty `tasks` array is truthy, so it hides `data`, and the candidate is refused. |
| `Api.DataUsedWhenTasksFalsy` | scripts/api.js:30-33 | A non-empty `data` array is accepted when `tasks` is missing or falsy. |
| `Api.FirstAccepted` | scripts/api.js:20-40 | The search fails exactly when every url is refused. A success is a non-empty list that some url yielded. |
| `Api.FirstAcceptedAt` | scripts/api.js:20-33 | If every earlier url is refused, the first accepted url decides the result. Later urls do not matter. |
| `Api.FetchInitialTasks` | scripts/api.js:14-41 | Endpoints are requested in the fixed order, each only after every earlier one was refused. The loop stops at the first accepted endpoint and returns its non-empty list. If none is accepted, all three were tried and the call fails. |
| `Api.ThirdCandidateScenario` | scripts/api.js:16-33 | If the first two endpoints answer 500 and 404 and the third answers `{data: [task]}`, the result is `[task]`. |
| `Theme.InitialTheme` | scripts/ui/theme.js:25-30 | A stored `"light"` or `"dark"` is the initial theme. Otherwise the theme is dark exactly when the OS prefers dark. |
| `Theme.StoredThemeSurvivesReload` | scripts/ui/theme.js:25-39 | After a theme is stored, the next initial theme is that theme, whatever the OS prefers. |
| `Theme.ThemeSwitch.ApplyTheme` | scripts/ui/theme.js:13-15 | The `dark-mode` flag becomes exactly "the theme is dark". It does not depend on the old flag, so applying twice is the same as applying once. |
| `Theme.ThemeSwitch.StoreTheme` | scripts/ui/theme.js:37-39 | Writes the theme's name under `"theme"` and changes no other key. |
| `Theme.ThemeSwitch.SyncCheckboxes` | scripts/ui/theme.js:46-51 | Each checkbox that exists is set to the given state. A missing one is left as it was. |
| `Theme.ThemeSwitch.SetupTheme` | scripts/ui/theme.js:65-70 | The chosen theme is the initial theme for the old stored value and the OS preference. Afterwards it is stored, the body flag matches it, and every existing checkbox matches it. |
| `Theme.ThemeSwitch.OnToggleChange` | scripts/ui/theme.js:75-80 | The next theme is dark exactly when the changed checkbox was checked. Afterwards the stored theme, the body flag and both checkboxes all agree on it. |
| `Theme.ThemeSwitch.Click` | scripts/ui/theme.js:74-91 | From a state in agreement, clicking either checkbox moves the whole switch into agreement on the other theme. Only the `"theme"` key of storage is written. |

## Left out

- `JSON.stringify`/`JSON.parse` themselves. The stored text is in the length-prefixed format of `TaskCodec`, so a literal JSON string such as `[{"id":1,...}]` cannot be written down here. Only the round trip and the fact that stray text fails to parse are relied on.
- TaskStore.Load: stored JSON that parses to something other than a task list (`"null"`, `"5"`, an object) counts as unreadable here, so the seed list is written. The source would return that value unchanged.
- `initialData.js` is not part of this model. The seed list is a parameter (`initial`, or `TaskRepository.initialTasks`).
- Logging of the parse error (`console.error`) has no effect on state and is not modelled.
- Ids are integers. `Math.max` over non-numeric ids (`NaN`) is not modelled. Numbers in `Api.Json` are integers too; JSON floats are not modelled.
- The DOM. `clearExistingTasks`, `renderTasks`, `resetForm` and `overlay.close()` are no-ops here. Form values are method parameters instead of `document.getElementById(...).value`.
- The edit form's own checks (trimming, the empty-title refusal, the `window.confirm` gate on delete) live in `scripts/ui/modalHandlers.js`, which is not part of this model. `UpdateTask` and `DeleteTask` do not repeat them, just as the source does not.
- TaskManager.TaskPatch: a field is either present with a string or absent. A key that is present with the value `undefined`, and keys beyond the four task fields, are not modelled.
- Asynchrony and the network. `fetch` and `res.json()` are one parameter that gives a fixed `Attempt` for each url. Each url is requested at most once, so nothing is lost by this.
- The `DOMContentLoaded` bootstrap in `scripts/main.js` (save the fetched list, or fall back to loading from storage) and its status banner are not modelled. The fetched items are untyped JSON values, and the source never converts them to tasks.
- `window.matchMedia` is the parameter `prefersDark`. Listener registration is modelled as `OnToggleChange` requiring that the changed checkbox exists.
- Text.Trim: the white-space set is the ECMAScript WhiteSpace and LineTerminator code points (with the Zs category written out). No other Unicode handling is modelled.
