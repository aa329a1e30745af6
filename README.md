# Client-side stores of touche: a Dafny model

touche keeps three collections in the browser's local storage: boards,
tasks and display settings. Each lives in a store whose current value is
replaced wholesale by every operation. When a store starts, or when another
tab writes its key, it decodes whatever JSON is stored. The decode is lossy:
malformed items are dropped and missing fields get defaults.

This project models that data layer:

- `Json` is the parsed value (`JNull | JBool | JNum | JStr | JArr | JObj`) with JavaScript's property access. Arrays pass `isRecord`, but every field lookup on them misses.
- `Text` is `trim` over a fixed whitespace set.
- `Seqs` holds `filter` and `map(...).filter(x => x !== null)`. Each has a lemma saying exactly which positions survive and that their order is kept.
- `Tasks`, `Boards` and `UserSettings` hold the decoders, the encoders (the shape `JSON.stringify` writes) and the pure step functions that each store operation passes to `update`. Each module also has a class holding the current snapshot, whose methods replace the snapshot through those step functions.

The clock (`now()`) and `createId()` are parameters. A fresh id must be
non-blank and unused by any task or board in the store. A stored entry is
an `Option<Json>`: `None` stands for a missing key, an empty string or text
that `JSON.parse` rejects, which all take the same fallback path.

Where the prose description and the code differ, the model follows the code:

- `updateTask` reads only `title`, `note` and the legacy `completed` flag from its changes. A supplied `status` (or `boardId`, or `updatedAt`) is ignored. See `Tasks.UpdateTaskIgnoresOtherFields` and `Tasks.UpdateTaskStatusOnlyViaCompleted`.
- `updateTask` with an empty changes object still stamps `updatedAt` (`Tasks.UpdateTaskEmptyChanges`).
- A round trip through storage is not the identity for every task the store can hold. `addTask` does not validate `boardId`, and a blank one reads back as `"default"` (`Tasks.BlankBoardIdReadsBackAsDefault`). The round trip holds exactly for tasks with a non-blank `boardId` (`Tasks.TasksRoundTrip`).

## Model

| member | source | states |
|---|---|---|
| `Json.Get` | frontend/src/lib/stores/tasks.ts:38-56 | property access finds a value exactly on an object that has the key; arrays and primitives give `undefined` |
| `Json.IsRecord` | frontend/src/lib/stores/tasks.ts:24-25 | `isRecord` holds exactly on an object or an array: `null`, booleans, numbers and strings are rejected (the boards store has the same test at boards.ts:21-22) |
| `Json.GetString` | frontend/src/lib/stores/tasks.ts:38 | `typeof v.key === 'string'` holds exactly when the property is a string, which is returned |
| `Json.GetBool` | frontend/src/lib/stores/tasks.ts:52 | `typeof v.key === 'boolean'` holds exactly when the property is a boolean, which is returned |
| `Text.TrimStart` | frontend/src/lib/stores/tasks.ts:123 | the result is a suffix of the input, what it drops is whitespace, and it starts with a non-whitespace character |
| `Text.TrimEnd` | frontend/src/lib/stores/tasks.ts:123 | the result is a prefix of the input, what it drops is whitespace, and it ends with a non-whitespace character |
| `Text.Trim` | frontend/src/lib/stores/tasks.ts:123-124 | the result has no whitespace at either end, and it is empty exactly when the input is all whitespace |
| `Text.TrimSplits` | frontend/src/lib/stores/tasks.ts:123 | trim returns the middle of the input between a blank prefix and a blank suffix |
| `Text.TrimOfTrimmed` | frontend/src/lib/stores/tasks.ts:41-42 | a string with no whitespace at its ends is its own trim |
| `Text.TrimIdempotent` | frontend/src/lib/stores/tasks.ts:148 | trimming twice is trimming once |
| `Seqs.Filter` | frontend/src/lib/stores/tasks.ts:193 | filter is no longer than its input, and an element is in the result exactly when it is in the input and satisfies the predicate |
| `Seqs.FilterSelects` | frontend/src/lib/stores/tasks.ts:193-196 | filter reads the input at an increasing list of positions, and a position is listed exactly when its element satisfies the predicate |
| `Seqs.FilterAll` | frontend/src/lib/stores/boards.ts:168-171 | filter with nothing to drop is the identity |
| `Seqs.FilterMap` | frontend/src/lib/stores/tasks.ts:32-60 | map-then-drop-nulls is no longer than its input |
| `Seqs.FilterMapSelects` | frontend/src/lib/stores/tasks.ts:32-60 | map-then-drop-nulls keeps, in order, the images of exactly the positions that map to a value |
| `Seqs.FilterMapTotal` | frontend/src/lib/stores/tasks.ts:58-60 | when every element maps to a value, nothing is dropped |
| `Seqs.FilterKeepsLength` | frontend/src/lib/stores/boards.ts:168-171 | a filter whose result is as long as its input dropped nothing, so every element satisfied the predicate |
| `Seqs.IncreasingFull` | frontend/src/lib/stores/boards.ts:169 | an increasing selection of positions as long as the list selects every position |
| `Tasks.ParseStatus` | frontend/src/lib/stores/tasks.ts:50-51 | a recognised status string names the status it is parsed to |
| `Tasks.StatusName` | frontend/src/lib/stores/tasks.ts:11 | each status is stored as one of `"active"`, `"in_progress"` and `"done"`, the names the decoder accepts at tasks.ts:50, with distinct names for distinct statuses |
| `Tasks.LegacyStatus` | frontend/src/lib/stores/tasks.ts:52 | the legacy fallback is done exactly when `completed` is the boolean `true`, otherwise active, and never in progress |
| `Tasks.ParseStatusName` | frontend/src/lib/stores/tasks.ts:50-51 | every status name parses back to its status |
| `Json.NonBlank` | frontend/src/lib/stores/tasks.ts:38-43 | a property is accepted exactly when it is a string whose trim is non-empty, and it is returned untrimmed |
| `Tasks.DecodeTaskItem` | frontend/src/lib/stores/tasks.ts:33-58 | an item is kept exactly when its `id` and `title` are non-blank strings, and a kept task has a non-blank id and a trimmed, non-empty title |
| `Tasks.ToTaskArray` | frontend/src/lib/stores/tasks.ts:27-30 | a non-array decodes to the empty list; an array decodes to at most as many tasks as it has items |
| `Tasks.ReadTasks` | frontend/src/lib/stores/tasks.ts:63-78 | a missing or unparsable entry yields no tasks |
| `Tasks.ToTaskArraySelects` | frontend/src/lib/stores/tasks.ts:32-60 | the decoded tasks are, in order, the decodings of exactly the items with a non-blank string id and title |
| `Tasks.ToTaskArrayWellFormed` | frontend/src/lib/stores/tasks.ts:38-47 | every decoded task has a non-blank id and a trimmed, non-empty title |
| `Tasks.ArrayItemDropped` | frontend/src/lib/stores/tasks.ts:24-36 | an array passes `isRecord` but is dropped, since all its field lookups miss |
| `Tasks.DecodeTaskDefaults` | frontend/src/lib/stores/tasks.ts:38-56 | the id is kept as stored and the title trimmed; a missing or blank `boardId` becomes `"default"`; a non-string note becomes `""`; a string `createdAt` is kept and a missing one is the clock; a string `updatedAt` is kept and a missing one equals `createdAt` |
| `Tasks.DecodeTaskLegacyStatus` | frontend/src/lib/stores/tasks.ts:50-52 | an absent or unknown status becomes done exactly when `completed` is the boolean `true`, and active otherwise, never in progress |
| `Tasks.DecodeTaskNamedStatus` | frontend/src/lib/stores/tasks.ts:50-51 | a valid status string is taken whatever `completed` says |
| `Tasks.EncodeTasks` | frontend/src/lib/stores/tasks.ts:86 | the stored array has one object per task |
| `Tasks.EncodeTask` | frontend/src/lib/stores/tasks.ts:86 | a stored task object has exactly the seven fields, each a string that reads back as written; its status string parses back to the task's status |
| `Tasks.DecodeEncodeTask` | frontend/src/lib/stores/tasks.ts:58 | a task with non-blank id and board id and a trimmed, non-empty title decodes from its encoding unchanged |
| `Tasks.BlankBoardIdReadsBackAsDefault` | frontend/src/lib/stores/tasks.ts:39 | a task stored with a blank board id reads back attached to `"default"` |
| `Tasks.DecodeEncodedAt` | frontend/src/lib/stores/tasks.ts:58 | the i-th stored object decodes to the i-th task |
| `Tasks.EncodedTasksDecode` | frontend/src/lib/stores/tasks.ts:32-60 | every stored object decodes to the task it was written from |
| `Tasks.TasksRoundTrip` | frontend/src/lib/stores/tasks.ts:63-90 | writing such tasks and reading them back gives the same list |
| `Tasks.NormaliseNote` | frontend/src/lib/stores/tasks.ts:102 | an absent note becomes `""`, a given one its trim, and the result is always trimmed |
| `Tasks.AddTaskStep` | frontend/src/lib/stores/tasks.ts:122-139 | a title that trims to nothing leaves the list unchanged; otherwise one task is prepended with the given id and board, trimmed title and note, status active and `createdAt == updatedAt == now` |
| `Tasks.UpdateOne` | frontend/src/lib/stores/tasks.ts:143-165 | a task with another id, or whose new title would trim to nothing, is returned unchanged; otherwise only title, note, status (from `completed` alone) and `updatedAt` change |
| `Tasks.UpdateTaskStep` | frontend/src/lib/stores/tasks.ts:141-167 | same length; tasks with another id are unchanged; tasks with the id are updated as UpdateOne says |
| `Tasks.Toggled` | frontend/src/lib/stores/tasks.ts:176 | the toggled status is done exactly when the old one was not, and done becomes active |
| `Tasks.ToggleCompletedStep` | frontend/src/lib/stores/tasks.ts:169-180 | only matching tasks change, and only in status (toggled) and `updatedAt` |
| `Tasks.SetStatusStep` | frontend/src/lib/stores/tasks.ts:181-191 | only matching tasks change, and only in status (set) and `updatedAt` |
| `Tasks.DeleteTaskStep` | frontend/src/lib/stores/tasks.ts:192-194 | a task survives exactly when its id differs |
| `Tasks.ClearCompletedStep` | frontend/src/lib/stores/tasks.ts:195-197 | a task survives exactly when it is not done |
| `Tasks.TasksOnBoard` | frontend/src/lib/stores/tasks.ts:198-206 | a task is returned exactly when it is on the board |
| `Tasks.AddTaskKeepsInvariants` | frontend/src/lib/stores/tasks.ts:122-139 | adding keeps every task well formed and, with a fresh id, keeps ids distinct |
| `Tasks.UpdateTaskIgnoresOtherFields` | frontend/src/lib/stores/tasks.ts:141-167 | changes that agree on `title`, `note` and `completed` have the same effect, whatever their `status`, `boardId` or `updatedAt` |
| `Tasks.UpdateTaskStatusOnlyViaCompleted` | frontend/src/lib/stores/tasks.ts:160-163 | without `completed`, no status changes |
| `Tasks.UpdateTaskEmptyChanges` | frontend/src/lib/stores/tasks.ts:153-165 | empty changes still set `updatedAt` on every matching task with a title, and nothing else |
| `Tasks.UpdateTaskBlankTitle` | frontend/src/lib/stores/tasks.ts:148-151 | a supplied title that trims to nothing leaves the whole list unchanged, timestamps included |
| `Tasks.UpdateOneKeepsWellFormed` | frontend/src/lib/stores/tasks.ts:148-155 | updating one task keeps its title trimmed and non-empty |
| `Tasks.UpdateTaskKeepsWellFormed` | frontend/src/lib/stores/tasks.ts:148-155 | updating keeps every title trimmed and non-empty |
| `Tasks.ToggleCompletedTwice` | frontend/src/lib/stores/tasks.ts:176 | toggling twice restores active and done; in progress comes back as active |
| `Tasks.AddThenToggleTwice` | frontend/src/lib/stores/tasks.ts:122-180 | a new task is active, toggled once is done, toggled twice is active again, and keeps its creation time |
| `Tasks.ToggleAndSetKeepWellFormed` | frontend/src/lib/stores/tasks.ts:169-191 | toggling and setting a status keep every task well formed |
| `Tasks.DeleteTaskSelects` | frontend/src/lib/stores/tasks.ts:192-194 | deleting removes exactly the tasks with the id and keeps the rest in order |
| `Tasks.DeleteAbsentTask` | frontend/src/lib/stores/tasks.ts:193 | deleting an id no task has changes nothing |
| `Tasks.ClearCompletedSelects` | frontend/src/lib/stores/tasks.ts:195-197 | clearing removes exactly the done tasks and keeps the rest in order |
| `Tasks.TasksOnBoardSelects` | frontend/src/lib/stores/tasks.ts:200-205 | the board's tasks are exactly those with its board id, in list order |
| `Tasks.TaskStore.constructor` | frontend/src/lib/stores/tasks.ts:104-106 | the store starts from the decoded stored list, every task well formed |
| `Tasks.TaskStore.AddTask` | frontend/src/lib/stores/tasks.ts:122-140 | the snapshot becomes AddTaskStep of the old one |
| `Tasks.TaskStore.UpdateTask` | frontend/src/lib/stores/tasks.ts:141-168 | the snapshot becomes UpdateTaskStep of the old one |
| `Tasks.TaskStore.ToggleCompleted` | frontend/src/lib/stores/tasks.ts:169-180 | the snapshot becomes ToggleCompletedStep of the old one |
| `Tasks.TaskStore.SetStatus` | frontend/src/lib/stores/tasks.ts:181-191 | the snapshot becomes SetStatusStep of the old one |
| `Tasks.TaskStore.DeleteTask` | frontend/src/lib/stores/tasks.ts:192-194 | the snapshot becomes DeleteTaskStep of the old one |
| `Tasks.TaskStore.ClearCompleted` | frontend/src/lib/stores/tasks.ts:195-197 | the snapshot becomes ClearCompletedStep of the old one |
| `Tasks.TaskStore.GetTasksByBoard` | frontend/src/lib/stores/tasks.ts:198-206 | returns the current tasks on the board without changing the store |
| `Tasks.TaskStore.HandleStorage` | frontend/src/lib/stores/tasks.ts:111-117 | a write to the store's key replaces the snapshot by the decoded value; other keys change nothing |
| `Boards.DecodeBoardItem` | frontend/src/lib/stores/boards.ts:30-50 | an item is kept exactly when its `id` and `name` are non-blank strings, and a kept board is well formed |
| `Boards.ToBoardArray` | frontend/src/lib/stores/boards.ts:24-27 | a non-array decodes to no boards; an array to at most as many as it has items |
| `Boards.CreateDefaultBoard` | frontend/src/lib/stores/boards.ts:57-65 | the default board is `{id: "default", name: "Board"}`, well formed, with both timestamps the clock |
| `Boards.EnsureMinimumBoards` | frontend/src/lib/stores/boards.ts:67-69 | the result is never empty; it is the identity on a non-empty list and the single default board on an empty one |
| `Boards.ReadBoards` | frontend/src/lib/stores/boards.ts:71-86 | the start-up list is never empty; a missing or unparsable entry gives the default board |
| `Boards.EncodeBoards` | frontend/src/lib/stores/boards.ts:94 | the stored array has one object per board |
| `Boards.AddBoardStep` | frontend/src/lib/stores/boards.ts:126-141 | a name that trims to nothing leaves the list unchanged; otherwise one board with the trimmed name and `createdAt == updatedAt == now` is appended and earlier boards are unchanged |
| `Boards.UpdateOne` | frontend/src/lib/stores/boards.ts:144-158 | a board with another id, or whose new name would trim to nothing, is unchanged; otherwise only its name and `updatedAt` change |
| `Boards.UpdateBoardStep` | frontend/src/lib/stores/boards.ts:142-161 | same length; boards with another id are never touched |
| `Boards.WithoutId` | frontend/src/lib/stores/boards.ts:168 | a board survives the filter exactly when its id differs |
| `Boards.DeleteBoardStep` | frontend/src/lib/stores/boards.ts:162-175 | a non-empty list stays non-empty; a list of at most one board, or one without the id, is returned unchanged; otherwise the boards with the id are removed and an emptied list becomes the default board |
| `Boards.WithoutAbsentId` | frontend/src/lib/stores/boards.ts:168-171 | filtering an absent id leaves the list unchanged |
| `Boards.FilterLengthEqual` | frontend/src/lib/stores/boards.ts:169-171 | the length check detects removal: equal length means no board has the id |
| `Boards.ToBoardArraySelects` | frontend/src/lib/stores/boards.ts:29-52 | the decoded boards are, in order, the decodings of exactly the items with a non-blank string id and name |
| `Boards.ToBoardArrayWellFormed` | frontend/src/lib/stores/boards.ts:35-43 | every decoded board has a non-blank id and a trimmed, non-empty name |
| `Boards.ReadBoardsValid` | frontend/src/lib/stores/boards.ts:71-86 | whatever is stored, the store starts with at least one board, each well formed |
| `Boards.DecodeBoardDefaults` | frontend/src/lib/stores/boards.ts:35-48 | id kept, name trimmed, a missing `createdAt` is the clock, a missing `updatedAt` is `createdAt` |
| `Boards.EncodeBoard` | frontend/src/lib/stores/boards.ts:94 | a stored board object has exactly the four fields, each a string that reads back as written |
| `Boards.DecodeEncodeBoard` | frontend/src/lib/stores/boards.ts:50 | a well-formed board decodes from its encoding unchanged |
| `Boards.DecodeEncodedAt` | frontend/src/lib/stores/boards.ts:50 | the i-th stored object decodes to the i-th board |
| `Boards.EncodedBoardsDecode` | frontend/src/lib/stores/boards.ts:29-52 | every stored object decodes to the board it was written from |
| `Boards.BoardsRoundTrip` | frontend/src/lib/stores/boards.ts:82-94 | writing well-formed boards and decoding them gives the same list |
| `Boards.ReadBoardsRoundTrip` | frontend/src/lib/stores/boards.ts:71-98 | reading back what the store persists gives the store's list |
| `Boards.AddBoardKeepsValid` | frontend/src/lib/stores/boards.ts:126-141 | adding keeps the list non-empty and well formed |
| `Boards.UpdateBoardBlankName` | frontend/src/lib/stores/boards.ts:149-152 | a supplied name that trims to nothing leaves every board unchanged, with no timestamp bump |
| `Boards.UpdateBoardUnknownId` | frontend/src/lib/stores/boards.ts:144-147 | updating an unknown id leaves the list unchanged |
| `Boards.UpdateOneKeepsWellFormed` | frontend/src/lib/stores/boards.ts:149-157 | updating one board keeps its name trimmed and non-empty |
| `Boards.UpdateBoardKeepsValid` | frontend/src/lib/stores/boards.ts:142-161 | updating keeps the list non-empty and well formed |
| `Boards.DeleteBoardSelects` | frontend/src/lib/stores/boards.ts:168-173 | when a board is removed and another remains, exactly the boards with the id are removed, in order |
| `Boards.DeleteBoardAllMatching` | frontend/src/lib/stores/boards.ts:173 | when every board has the id, only the default board is left |
| `Boards.DeleteBoardKeepsValid` | frontend/src/lib/stores/boards.ts:162-175 | deleting keeps the list non-empty and well formed |
| `Boards.Deleted` | frontend/src/lib/stores/boards.ts:162-175 | any run of deletions starting from a non-empty list ends non-empty |
| `Boards.DeleteSequenceKeepsValid` | frontend/src/lib/stores/boards.ts:162-175 | any run of deletions keeps a valid list valid |
| `Boards.BoardStore.constructor` | frontend/src/lib/stores/boards.ts:108-110 | the store starts from the decoded stored list, never empty |
| `Boards.BoardStore.AddBoard` | frontend/src/lib/stores/boards.ts:126-141 | the snapshot becomes AddBoardStep of the old one, and stays valid |
| `Boards.BoardStore.UpdateBoard` | frontend/src/lib/stores/boards.ts:142-161 | the snapshot becomes UpdateBoardStep of the old one, and stays valid |
| `Boards.BoardStore.DeleteBoard` | frontend/src/lib/stores/boards.ts:162-175 | the snapshot becomes DeleteBoardStep of the old one, and stays non-empty |
| `Boards.BoardStore.HandleStorage` | frontend/src/lib/stores/boards.ts:115-121 | a write to the store's key replaces the snapshot by the decoded, non-empty list |
| `UserSettings.FlagOr` | frontend/src/lib/stores/settings.ts:30-32 | a flag is the stored boolean when there is one, otherwise the default |
| `UserSettings.EncodeSettings` | frontend/src/lib/stores/settings.ts:45 | the persisted object has exactly the three flags, each a boolean that reads back as written |
| `UserSettings.DecodeSettings` | frontend/src/lib/stores/settings.ts:28-35 | anything but an object, `null` included, decodes to exactly the defaults |
| `UserSettings.ReadSettings` | frontend/src/lib/stores/settings.ts:18-37 | a missing or unparsable entry gives the defaults |
| `UserSettings.DecodeSettingsFields` | frontend/src/lib/stores/settings.ts:29-33 | each of the three flags comes from the input when it is a boolean there, and from `DEFAULT_SETTINGS` otherwise |
| `UserSettings.SettingsRoundTrip` | frontend/src/lib/stores/settings.ts:29-45 | decoding the persisted form of any settings gives them back |
| `UserSettings.FlipShowCompleted` | frontend/src/lib/stores/settings.ts:71 | flips `showCompleted` and leaves the other two flags |
| `UserSettings.FlipSkipDeleteConfirmation` | frontend/src/lib/stores/settings.ts:72 | flips `skipDeleteConfirmation` and leaves the other two flags |
| `UserSettings.FlipHidePageTitle` | frontend/src/lib/stores/settings.ts:73 | flips `hidePageTitle` and leaves the other two flags |
| `UserSettings.TogglesAreInvolutions` | frontend/src/lib/stores/settings.ts:71-73 | applying the same toggle twice is the identity |
| `UserSettings.SettingsStore.constructor` | frontend/src/lib/stores/settings.ts:51-53 | the store starts from the decoded stored value |
| `UserSettings.SettingsStore.Set` | frontend/src/lib/stores/settings.ts:69 | `set` replaces the value |
| `UserSettings.SettingsStore.Update` | frontend/src/lib/stores/settings.ts:70 | `update` replaces the value by the callback's result |
| `UserSettings.SettingsStore.ToggleShowCompleted` | frontend/src/lib/stores/settings.ts:71 | the value becomes FlipShowCompleted of the old one |
| `UserSettings.SettingsStore.ToggleSkipDeleteConfirmation` | frontend/src/lib/stores/settings.ts:72 | the value becomes FlipSkipDeleteConfirmation of the old one |
| `UserSettings.SettingsStore.ToggleHidePageTitle` | frontend/src/lib/stores/settings.ts:73 | the value becomes FlipHidePageTitle of the old one |
| `UserSettings.SettingsStore.HandleStorage` | frontend/src/lib/stores/settings.ts:58-64 | a write to the store's key replaces the value by the decoded one |

## Left out

- Local storage and JSON text: `localStorage.getItem`/`setItem`, `JSON.parse`/`JSON.stringify` on strings, and the swallowed write errors are browser I/O. The model works on parsed values. A missing, empty or unparsable entry is `None`, and the encoders give the value `JSON.stringify` would serialise.
- Persisting on every change: the subscription that writes each new snapshot may fail silently (quota), so the model keeps no copy of storage. The round-trip lemmas state what a successful write followed by a read gives.
- The `browser` switch: outside a browser the stores start from the same fallback as an empty entry (`None`) and never persist.
- Cross-tab sync: only the key test and the wholesale replace of the `storage` handler are modelled (`HandleStorage`). Event delivery, its ordering relative to local edits, and last-writer-wins races need several browser contexts.
- Svelte's `writable`: subscription, unsubscription and notification order belong to a library that is not part of this model. A store is a class whose field is its current value, and `subscribe` is not modelled beyond reading that field.
- `createId`: `crypto.randomUUID` and `Math.random` are randomness. The id is a parameter that must be non-blank and unused, as a random id is with overwhelming probability.
- `now()`: the clock is a parameter, treated as an opaque string. `toTaskArray` and `toBoardArray` may read the clock once per item that lacks `createdAt`; the model uses one reading per decode. Likewise `updateTask`, `toggleCompleted`, `setStatus` and `updateBoard` read the clock inside their `map` callback, once per matching element. The step functions use one reading per operation, so when ids repeat (the decoders allow that) the model stamps every match with the same `updatedAt`, where the code may give them different ones across a millisecond boundary. No ordering between timestamps is modelled, since two readings within a millisecond are equal.
- `trim`: the whitespace set is fixed (ASCII spaces and line breaks, no-break space, byte-order mark, line and paragraph separators), not JavaScript's full Unicode table.
- JSON numbers are integers in the model; no decoder reads them.
- Property access: the model's lookup only finds an object's own keys. The keys the decoders read are not names of built-in properties of strings, arrays or objects, so nothing else could be found there.
