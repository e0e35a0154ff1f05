# todo-next core, modelled in Dafny

This project models the data-handling core of a small Next.js todo application.
The core has five client components, one page and a request gate:

- **Todo list.** `TodoSection` and the self-contained home page keep a newest-first list of todos. The page also keeps a colour theme. Add, toggle, delete and clear-completed update the list, and a status line counts what is done.
- **List picker.** `ListSelector` caches the user's lists. It auto-selects the first one and creates, renames, deletes and leaves lists, with a selection fallback.
- **Share dialog.** `ShareDialog` caches a list's members and invite links, and runs the leave flow.
- **Tag bar.** `TagFilter` is a small form-state machine: create, edit and edit mode, plus the pressed state of the tag pills.
- **Nickname setup page.** It validates and saves a nickname. Its load effect is cancelled by a liveness flag.
- **Request gate.** `proxy` sends a request through, or redirects it to `/login`, `/` or `/profile/setup`.

Each React component becomes a Dafny `class`. Its `useState` cells are fields, and each handler is a method that names the fields it may write in `modifies` and states their new values in `ensures`. The new values come from pure functions over sequences, such as prepend, `filter` by id and `map` by id. Lemmas state the promised properties about those functions:

- round trips: add-then-delete, toggle twice, create-then-deactivate, decimal rendering read back;
- order preservation: filters distribute over concatenation;
- "nothing else changes";
- uniqueness of ids;
- counts;
- the selection fallback keeps the selection valid;
- the gate's redirects settle after at most two hops.

Everything the components get from outside is a parameter of the method that receives it:

- the signed-in user;
- every answer of the backend store (`Reply<T>` = `Ok(data)` or `Failed`, or a `bool` for "no error");
- the answer to a confirmation prompt;
- `crypto.randomUUID()` and `Date.now()`.

A parent callback (`onCreateTag`, `onUpdateTag`, `onLeave`, `onClose`) is returned as a value describing the call. `ListSelector` keeps its parent's `selectedListId` as a field that `onSelectList` writes.

These source files contain no realtime synchronisation engine, and none is modelled.

Strings are sequences of Unicode scalar values, and `.length` is `|s|`. `String.prototype.trim` removes exactly the ECMAScript WhiteSpace and LineTerminator code points (`Text.IsWhitespace`).

Files:

- `wrappers.dfy`: `Option`, `Reply`, and JS truthiness of `string | null`.
- `text.dfy`: trim, prefix tests and decimal rendering.
- `seqs.dfy`: filter and map by key.
- `todos.dfy`: `TodoSection.tsx`.
- `home.dfy`: `app/page.tsx`.
- `list_selector.dfy`, `share_dialog.dfy`, `tag_colors.dfy`, `tag_filter.dfy`, `profile_setup.dfy`, `proxy.dfy`: one file per source file.

## Model

| member | source | states |
|---|---|---|
| Text.TrimStart | src/components/TodoSection.tsx:27 | what is left never starts with whitespace and is no longer than the input |
| Text.TrimStartIsSuffix | src/components/TodoSection.tsx:27 | leading trim keeps a suffix and drops only whitespace |
| Text.TrimEnd | src/components/TodoSection.tsx:27 | what is left never ends with whitespace and is no longer than the input |
| Text.TrimEndIsPrefix | src/components/TodoSection.tsx:27 | trailing trim keeps a prefix and drops only whitespace |
| Text.Trim | src/components/TodoSection.tsx:27-31 | `trim()` leaves no whitespace at either end and never lengthens |
| Text.TrimIsSlice | src/components/TodoSection.tsx:27-31 | the trimmed string is one contiguous slice of the input, and everything outside it is whitespace |
| Text.BlankIffAllWhitespace | src/components/TodoSection.tsx:27 | `!s.trim()` holds exactly when every character is whitespace |
| Text.TrimIdempotent | src/app/profile/setup/page.tsx:54 | trimming twice equals trimming once |
| Text.DigitChar | src/components/TodoSection.tsx:60 | a digit below ten renders as a decimal digit character |
| Text.NatToString | src/components/TodoSection.tsx:60 | a count renders as decimal digits, non-empty, with no leading zero except for 0 |
| Text.NatToStringRoundTrip | src/components/TodoSection.tsx:60 | reading the rendered digits back gives the number |
| Seqs.RemoveKey | src/components/TodoSection.tsx:49 | `filter(x => key(x) !== k)` keeps exactly the records whose key differs, never more |
| Seqs.RemoveKeyConcat | src/components/ListSelector.tsx:104 | filtering distributes over concatenation, so survivors keep their order |
| Seqs.RemoveAbsentKey | src/components/TodoSection.tsx:49 | filtering out a key nobody has is the identity |
| Seqs.RemoveKeyKeepsUnique | src/components/ListSelector.tsx:104 | filtering keeps keys unique |
| Seqs.RemoveKeyIdempotent | src/components/ShareDialog.tsx:88 | filtering by the same key twice equals once |
| Seqs.UpdateKey | src/components/TodoSection.tsx:42-44 | `map` by key rewrites exactly the matching records, keeping length and positions |
| Seqs.UpdateKeyTwice | src/components/TodoSection.tsx:42-44 | a key-preserving, self-inverse update applied twice restores the sequence |
| Todos.AddTodo | src/components/TodoSection.tsx:25-36 | blank input leaves the list; otherwise one uncompleted todo with the trimmed, non-empty text, the given id and stamp, goes first, and the old list follows unchanged |
| Todos.ToggleTodo | src/components/TodoSection.tsx:40-46 | only `completed` of the todos with that id flips; ids, texts, stamps, length and order stay |
| Todos.DeleteTodo | src/components/TodoSection.tsx:48-50 | a todo survives exactly when it was there and has another id |
| Todos.ClearCompleted | src/components/TodoSection.tsx:129 | a todo survives exactly when it was there and is not completed |
| Todos.CompletedCount | src/components/TodoSection.tsx:52-53 | the count never exceeds the total, is 0 exactly when none is completed and is the total exactly when all are |
| Todos.StatusText | src/components/TodoSection.tsx:57-61 | the empty-list message exactly when there are no todos, otherwise "c/t completed" |
| Todos.AddThenDelete | src/components/TodoSection.tsx:25-50 | adding under a fresh id and deleting that id restores the list |
| Todos.AddKeepsIdsUnique | src/components/TodoSection.tsx:29-36 | adding under a fresh id keeps ids unique |
| Todos.ToggleTwice | src/components/TodoSection.tsx:40-46 | toggling an id twice restores the list |
| Todos.ToggleKeepsIdsUnique | src/components/TodoSection.tsx:40-46 | toggling keeps ids unique |
| Todos.ToggleCount | src/components/TodoSection.tsx:40-53 | with unique ids, a toggle moves the completed count by exactly one in the right direction |
| Todos.ToggleAbsent | src/components/TodoSection.tsx:40-46 | toggling an absent id changes nothing |
| Todos.DeleteAbsent | src/components/TodoSection.tsx:48-50 | deleting an absent id changes nothing |
| Todos.DeleteKeepsOrder | src/components/TodoSection.tsx:48-50 | deleting keeps the survivors in their relative order |
| Todos.ClearCompletedKeepsOrder | src/components/TodoSection.tsx:129 | clearing keeps the uncompleted todos in their relative order |
| Todos.ClearCompletedCount | src/components/TodoSection.tsx:126-132 | after clearing, no todo is completed, and the list shrinks by the completed count |
| Todos.StatusWalkThrough | src/components/TodoSection.test.tsx:37-72 | empty status, then "0/1 completed" after an add, then "1/1 completed" after a toggle, then the empty status after a delete |
| Todos.BuyMilkIsTrimmed | src/components/TodoSection.test.tsx:37 | the test's input is not blank and trims to itself |
| Todos.SmallDigits | src/components/TodoSection.tsx:60 | 0 and 1 render as "0" and "1" |
| Todos.TodoStore.constructor | src/components/TodoSection.tsx:7-9 | empty list, empty input, not loaded |
| Todos.TodoStore.Hydrate | src/components/TodoSection.tsx:11-17 | stored todos, when any, replace the list; the component is then loaded |
| Todos.TodoStore.SetInput | src/components/TodoSection.tsx:69 | the input holds what was typed |
| Todos.TodoStore.Add | src/components/TodoSection.tsx:25-38 | the list becomes `AddTodo` of the old list and input; the input clears only when something was added |
| Todos.TodoStore.Toggle | src/components/TodoSection.tsx:40-46 | the list becomes `ToggleTodo` of the old one |
| Todos.TodoStore.Delete | src/components/TodoSection.tsx:48-50 | the list becomes `DeleteTodo` of the old one |
| Todos.TodoStore.ClearCompletedTodos | src/components/TodoSection.tsx:129 | the list becomes `ClearCompleted` of the old one, with a completed count of 0 |
| Todos.TodoStore.Status | src/components/TodoSection.tsx:52-61 | the status line is the empty-list message exactly when the list is empty |
| Home.ParseTheme | src/app/page.tsx:48 | a name parses exactly when it is "mono", "natural" or "brutal", to the theme of that name |
| Home.ThemeRoundTrip | src/app/page.tsx:12-33 | every theme's name parses back to it |
| Home.AdoptStoredTheme | src/app/page.tsx:38-50 | a stored value replaces the theme exactly when it names one of the three themes |
| Home.HomePage.constructor | src/app/page.tsx:36-39 | empty list and input, not loaded, theme "brutal" |
| Home.HomePage.Hydrate | src/app/page.tsx:41-52 | stored todos replace the list; the theme becomes `AdoptStoredTheme` of the stored value; the page is loaded |
| Home.HomePage.SelectTheme | src/app/page.tsx:124 | the clicked theme becomes current |
| Home.HomePage.AddTodo | src/app/page.tsx:72-85 | as `TodoStore.Add`: `AddTodo` on the page's list, and the input clears only after an add |
| Home.HomePage.ToggleTodo | src/app/page.tsx:87-93 | the list becomes `ToggleTodo` of the old one |
| Home.HomePage.DeleteTodo | src/app/page.tsx:95-97 | the list becomes `DeleteTodo` of the old one |
| Home.HomePage.ClearCompleted | src/app/page.tsx:208-214 | the list becomes `ClearCompleted` of the old one, with a completed count of 0 |
| Home.HomePage.Status | src/app/page.tsx:99-114 | the header status is the empty-list message exactly when the list is empty |
| ListSelector.IsOwner | src/components/ListSelector.tsx:50 | owner exactly when a user is signed in and is the list's `user_id`; never without a user |
| ListSelector.AutoSelect | src/components/ListSelector.tsx:43-45 | an existing selection is kept; otherwise the first fetched list, when there is one |
| ListSelector.RenamedLists | src/components/ListSelector.tsx:88-92 | only lists with the id get the new name; other fields, other lists and the order stay |
| ListSelector.RemoveList | src/components/ListSelector.tsx:104 | a list survives exactly when it was there and has another id |
| ListSelector.SelectionAfterRemoval | src/components/ListSelector.tsx:106-108 | a removed selection falls back to the first remaining list, or to none; any other selection stays |
| ListSelector.RemovalKeepsSelectionValid | src/components/ListSelector.tsx:104-118 | after a removal the selection is never the removed id and still names a present list, or none |
| ListSelector.RemovalKeepsOrder | src/components/ListSelector.tsx:104 | removal keeps the other lists in order |
| ListSelector.DeleteSelectedPicksNext | src/components/ListSelector.test.tsx:180-198 | deleting the selected "list-1" from two lists selects "list-2" |
| ListSelector.ListSelector.constructor | src/components/ListSelector.tsx:14-23 | empty caches, loading, no editing, no dialog, the parent's selection |
| ListSelector.ListSelector.FetchLists | src/components/ListSelector.tsx:29-48 | a signed-in user is recorded; a successful fetch replaces the lists and auto-selects; an error changes neither; loading ends in every case |
| ListSelector.ListSelector.CreateList | src/components/ListSelector.tsx:52-73 | blank name or no user sends nothing; otherwise the trimmed name is sent; success appends the row, clears the input and selects it; otherwise nothing changes |
| ListSelector.ListSelector.SetNewListName | src/components/ListSelector.tsx:164 | the input holds what was typed |
| ListSelector.ListSelector.StartEditing | src/components/ListSelector.tsx:121-124 | editing starts on the list with its current name |
| ListSelector.ListSelector.SetEditingName | src/components/ListSelector.tsx:152 | the rename input holds what was typed |
| ListSelector.ListSelector.RenameList | src/components/ListSelector.tsx:75-95 | a blank name writes nothing; otherwise the trimmed name is written and, on success, applied by `RenamedLists`; editing ends either way |
| ListSelector.ListSelector.DeleteList | src/components/ListSelector.tsx:97-110 | only a confirmed, successful delete removes the list and applies the selection fallback; otherwise nothing changes |
| ListSelector.ListSelector.SelectList | src/components/ListSelector.tsx:150 | a click on a list selects it |
| ListSelector.ListSelector.OpenShareDialog | src/components/ListSelector.tsx:155 | the dialog opens for that list |
| ListSelector.ListSelector.CloseShareDialog | src/components/ListSelector.tsx:183 | the dialog closes |
| ListSelector.ListSelector.HandleLeaveList | src/components/ListSelector.tsx:112-119 | with no dialog list nothing changes; otherwise that list is removed with the selection fallback |
| ListSelector.ListSelector.LeaveFromDialog | src/components/ListSelector.tsx:178-185 | the dialog's `handleLeave` outcome; when it calls back, the list is removed, the selection falls back and the dialog closes; otherwise nothing changes |
| ShareDialog.MemberLabel | src/components/ShareDialog.tsx:207 | the display name when present, otherwise the email |
| ShareDialog.PrependInvite | src/components/ShareDialog.tsx:69 | the new invite comes first, and the old ones follow in order |
| ShareDialog.RemoveInvite | src/components/ShareDialog.tsx:88 | an invite survives exactly when it was there and has another id |
| ShareDialog.RemoveMember | src/components/ShareDialog.tsx:99 | a member survives exactly when they were there and have another `user_id` |
| ShareDialog.CreateThenDeactivate | src/components/ShareDialog.tsx:69-88 | deactivating a just-created invite with a fresh id restores the invites |
| ShareDialog.RemovalsKeepOrder | src/components/ShareDialog.tsx:88-99 | member and invite removals keep the others in order |
| ShareDialog.HandleLeave | src/components/ShareDialog.tsx:102-118 | something happens exactly when confirmed with a user; then that user's share of the list is deleted, and `onLeave` (if given) then `onClose` are called; without `onLeave` only `onClose` is called |
| ShareDialog.ShareDialog.constructor | src/components/ShareDialog.tsx:15-24 | the dialog's list and role, and empty caches, not busy |
| ShareDialog.ShareDialog.Open | src/components/ShareDialog.tsx:27-52 | only an owner fetches; each answer that carries data replaces its cache |
| ShareDialog.ShareDialog.CreateInviteLink | src/components/ShareDialog.tsx:54-73 | with a user, an insert is sent and success prepends the invite; without one nothing is sent and the busy flag stays set |
| ShareDialog.ShareDialog.DeactivateInvite | src/components/ShareDialog.tsx:82-89 | the invite is dropped from the cache whatever the store answered |
| ShareDialog.ShareDialog.RemoveMemberConfirmed | src/components/ShareDialog.tsx:91-100 | after a confirmed prompt the member is dropped; otherwise nothing changes |
| TagColors.PaletteWellFormed | src/lib/tagColors.ts:1-13 | eight distinct keys, the same as the colour map's keys, and "blue" is among them |
| TagFilter.ViewOf | src/components/TagFilter.tsx:67-142 | edit form exactly for the tag under edit, edit buttons exactly in edit mode otherwise, and a pill pressed exactly when its id is selected |
| TagFilter.PressedFollowsSelection | src/components/TagFilter.test.tsx:50-63 | with "tag-1" selected, its pill is pressed and "tag-2"'s is not |
| TagFilter.TagFilter.constructor | src/components/TagFilter.tsx:30-36 | form hidden, names empty, colours "blue", not editing |
| TagFilter.TagFilter.View | src/components/TagFilter.tsx:130-142 | a pill is pressed exactly when the tag's id is selected |
| TagFilter.TagFilter.OpenCreateForm | src/components/TagFilter.tsx:188 | the create form shows |
| TagFilter.TagFilter.SetNewTagName | src/components/TagFilter.tsx:157 | the name input holds what was typed |
| TagFilter.TagFilter.SetNewTagColor | src/components/TagFilter.tsx:239 | the chosen palette key becomes the new tag's colour |
| TagFilter.TagFilter.HandleCreate | src/components/TagFilter.tsx:38-45 | a blank name calls nothing and changes nothing; otherwise `onCreateTag(trimmed, colour)`, then name "", colour "blue", form hidden |
| TagFilter.TagFilter.CancelCreate | src/components/TagFilter.tsx:176-179 | the form hides and the name clears; the colour stays |
| TagFilter.TagFilter.ToggleEditMode | src/components/TagFilter.tsx:194-196 | only offered when tags exist and the create form is hidden; flips edit mode |
| TagFilter.TagFilter.HandleStartEdit | src/components/TagFilter.tsx:47-51 | the edit form is loaded with the tag's id, name and colour, and the tag is drawn as the edit form |
| TagFilter.TagFilter.SetEditName | src/components/TagFilter.tsx:77 | the edit input holds what was typed |
| TagFilter.TagFilter.SetEditColor | src/components/TagFilter.tsx:83 | the chosen palette key becomes the edit colour |
| TagFilter.TagFilter.HandleUpdate | src/components/TagFilter.tsx:53-58 | no tag under edit or a blank name calls nothing; otherwise `onUpdateTag(id, trimmed, colour)` and editing ends |
| TagFilter.TagFilter.CancelEdit | src/components/TagFilter.tsx:91 | editing ends |
| ProfileSetup.ValidateDisplayName | src/app/profile/setup/page.tsx:54-63 | valid exactly when the trimmed length is between 1 and 30; the empty error comes before the length error; a valid name is the trimmed one |
| ProfileSetup.TooLongMessageNamesTheLimit | src/app/profile/setup/page.tsx:7-61 | the length message renders the limit 30 |
| ProfileSetup.LengthBoundary | src/app/profile/setup/page.tsx:60-63 | exactly 30 characters pass, even with surrounding spaces, and 31 fail with the length error |
| ProfileSetup.RedirectTarget | src/app/profile/setup/page.tsx:17 | the `redirectTo` query value, defaulting to "/" |
| ProfileSetup.LoadedName | src/app/profile/setup/page.tsx:37-43 | the stored nickname, else the provider's full name, else "" |
| ProfileSetup.ProfileSetupForm.constructor | src/app/profile/setup/page.tsx:10-17 | empty name, loading, not saving, no error, not editing, redirect target fixed |
| ProfileSetup.ProfileSetupForm.StartLoad | src/app/profile/setup/page.tsx:19-21 | once the previous run has been cleaned up (React cleans up before re-running an effect), a new run starts live |
| ProfileSetup.ProfileSetupForm.Teardown | src/app/profile/setup/page.tsx:47-49 | no run is live any more |
| ProfileSetup.ProfileSetupForm.CompleteLoad | src/app/profile/setup/page.tsx:26-44 | a torn-down run or a missing user changes nothing; otherwise the name is `LoadedName`, a stored profile means editing, and loading ends |
| ProfileSetup.ProfileSetupForm.SetDisplayName | src/app/profile/setup/page.tsx:109 | the input holds what was typed |
| ProfileSetup.ProfileSetupForm.HandleSubmit | src/app/profile/setup/page.tsx:52-86 | an invalid name sets its error and sends nothing; a valid one clears the error and sets saving, then upserts the trimmed name for the user; a failed save sets the save error and stops saving; only a successful save navigates to the redirect target |
| ProfileSetup.StaleLoadIsDiscarded | src/app/profile/setup/page.tsx:19-50 | after a cleanup and a second run, the first run's late answer is discarded and the second one's lands |
| Proxy.StartsWithAny | src/proxy.ts:56-58 | `some(startsWith)` holds exactly when one of the prefixes starts the path |
| Proxy.RedirectParam | src/proxy.ts:38-42 | `pathname + search` is attached exactly when it is not "/" |
| Proxy.Route | src/proxy.ts:32-78 | no user off `/login` and `/auth` goes to `/login`; a user on `/login` goes to `/`; a user without a profile on an unskipped path goes to `/profile/setup`; every other case passes through |
| Proxy.ProfileIrrelevantWhenSkipped | src/proxy.ts:53-60 | the profile answer matters only when the check runs |
| Proxy.PrefixMatching | src/proxy.ts:34-57 | path tests are prefix tests: "/loginx" acts as "/login" and "/invite-me" as "/invite" |
| Proxy.RedirectsSettle | src/proxy.ts:32-78 | following a redirect passes through at once or after one more hop to the profile page: no redirect loop |

## Left out

- Backend: every backend call (auth, table queries, `rpc`, upsert, delete) is a parameter carrying its answer. So are the server client's cookie plumbing in `src/proxy.ts` and the browser client. The ordering of `await`s against other handlers is not modelled; each handler runs to completion.
- Storage: `localStorage` and JSON (de)serialisation of todos and the theme. A stored value reaches `Hydrate` already parsed, and a missing or empty stored string is `None`. The `data-theme` attribute on the document is not modelled. `JSON.parse` throwing on a malformed stored string is not modelled; in the source it aborts the mount effect before `isLoaded` is set, so the list is never saved afterwards.
- Identifiers and time: `crypto.randomUUID()` and `Date.now()` are parameters. The `new Date()` expiry filter of the invite query is part of the store's answer.
- Browser effects: clipboard writes, `copiedToken` and its 2000 ms timer in the share dialog. `window.confirm` is a boolean parameter.
- Delete forwarding: `handleDelete` in `src/components/TagFilter.tsx` only forwards to `onDeleteTag` and holds no state.
- Pill clicks: a pill click in `src/components/TagFilter.tsx` (`onToggle(tag.id)`) only forwards the tag's id to the parent, which keeps the selected set; the component holds no state for it.
- Callbacks: the promises of `onCreateTag` and `onUpdateTag` are assumed to resolve. A rejected one would skip the form reset.
- Rendering: the JSX itself and the presentation-only components are not part of this model. The `maxLength` attribute of the nickname input is not modelled; the submit check is.
- Proxy config: the `matcher` configuration of `src/proxy.ts` (which requests reach the gate) is not modelled.
- Text.Trim: strings are sequences of Unicode scalar values. JS `.length` counts UTF-16 code units, so a name with characters outside the Basic Multilingual Plane is measured shorter here than in the browser.
- TagFilter.Tag: the `Tag` record that `TagFilter.tsx` imports is not part of `src/types/index.ts`, so it is declared here with `id`, `name` and a string `color`. The colour is a string because the component casts it to a palette key without checking.
- Sync engine: no realtime synchronisation engine exists in these files, so none is modelled.
