# Wave.AI synchronisation core, modelled in Dafny

Wave.AI keeps a local code directory and a GitHub repository in step. A file
watcher collects changed paths and, after a debounce interval, has them
committed and pushed. A periodic cycle pulls remote commits, with an
auto-stash around the pull. Every sync is recorded in a checkpoint ledger
that the user can revert, replay forward or jump into. Merge-conflict blocks
can be parsed, summarised and resolved to one side. A dotted-path
configuration, GitHub account and Perplexity profile lists, and a bounded
list of Perplexity tabs complete the core.

The project has one Dafny module per source file:

| module | source file | form |
|---|---|---|
| `Common` | (Python built-ins) | `str.split`/`join`, `str(n)`, `Path.parts`/`name`, substring search, `lower()` |
| `Ledger` | src/core/version_control.py | class `VersionControl` over a `seq` of checkpoints and a cursor |
| `Conflicts` | src/utils/conflict_handler.py | loop methods proved against recursive functions that define their results |
| `Watcher` | src/core/file_watcher.py | the path filter, plus classes `ChangeHandler` and `FileWatcher` |
| `GitSync` | src/core/git_sync.py | decision functions over the results of Git calls, plus class `Repository` for pull and branch creation |
| `Sync` | src/core/sync_engine.py | class `SyncEngine`: counters, flags, and a ghost trace of collaborator calls |
| `Config` | src/core/config_manager.py | a JSON-like `Value` datatype, merge and lookup functions, and class `ConfigManager` |
| `Accounts` | src/utils/account_manager.py | class `AccountManager` over two id-tagged lists |
| `Tabs` | src/gui/perplexity_tabs.py | class `TabManager` over a `seq` of tabs and an active index |

Anything the code gets from outside is passed in as a parameter:

- what Git answered, modelled by `Outcome`, `Reply` and similar values;
- the clock, as integer ticks or opaque strings;
- whether a path exists;
- glob matching, as a function `matches(path, pattern)`;
- whether the sync lock is free.

The engine's calls on its collaborators are recorded in order in the ghost
trace `SyncEngine.calls`.

### Behaviour worth knowing, modelled as written

**Ledger ids.** A new checkpoint's id is the ledger length before any
truncation, so after a revert the id is not the checkpoint's index
(`CreateCheckpoint`).

**`cleanup_old_checkpoints(0)`.** It slices with `history[-0:]`, which keeps
everything (`CleanupZeroKeepsEverything`).

**A failed reset in `revert`.** The safety checkpoint stays, and the cursor
sits on it.

**Conflict detection.** `detect_conflicts_in_file` only asks whether the
three markers occur somewhere. It does not check their order
(`DetectionIgnoresOrder`).

**An unclosed block.** A block that is never closed runs past the end of the
file (`UnclosedBlockRunsPastEnd`).

**Pull and the stash.** `pull` pops the newest stash entry whenever the stash
list is non-empty. It does so even when this pull stashed nothing, so an
older entry can be popped (`PullPopsOlderStash`).

**Remote branch names.** The remote branch name mapping removes every
"origin/", including inner ones (`BranchNameRemovesInnerOccurrences`).

**No retry.** The sync engine has no retry counter or backoff. A failed
automatic push counts as one error and is not repeated.

**Duplicate account ids.** Account and profile ids are list lengths. After a
removal a new entry can repeat an id still in use, and removing that id then
removes both (`DuplicateIdScenario`).

**Closing a tab.** `close_tab` keeps the active index unless it falls off the
end. Closing a tab to the left of the active one therefore moves the
selection to the next tab (`CloseShiftsSelectionScenario`).

## Model

| member | source | states |
|---|---|---|
| Ledger.KeptTail | src/core/version_control.py:235-238 | a positive limit keeps exactly the newest `max` entries; a limit of 0 keeps the whole history (`h[-0:]`) |
| Ledger.Renumbered | src/core/version_control.py:243-245 | after cleanup every entry's id equals its position and nothing else changes |
| Ledger.HistorySummary | src/core/version_control.py:192-211 | the summary is the last `max_items` entries in order, each with its id, description, time and hash; `is_current` holds exactly at the cursor, and `relative_position` is the offset from the cursor |
| Ledger.SummaryMarksCursorOnce | src/core/version_control.py:198-211 | at most one summary entry is current, and the cursor's entry is marked whenever it is within the window |
| Ledger.CurrentPositionInfo | src/core/version_control.py:213-228 | none exactly when the cursor is out of range; otherwise the id, description, timestamp and hash of the checkpoint at the cursor, `position` steps back and `len-position-1` steps forward, and `can_revert`/`can_forward` iff those counts are positive |
| Ledger.SearchCheckpoints | src/core/version_control.py:267-283 | a checkpoint is returned iff its description or commit message contains the query, ignoring case |
| Ledger.SearchSplits | src/core/version_control.py:272-283 | search keeps ledger order: searching a concatenation concatenates the results |
| Ledger.VersionControl.constructor | src/core/version_control.py:19-24 | the cursor starts on the last loaded entry, or at -1 for an empty ledger |
| Ledger.VersionControl.CreateCheckpoint | src/core/version_control.py:45-86 | refused with no change on a status error or no commit; otherwise the history is truncated after the cursor, one entry with id = old length is appended, and the cursor moves to the tail; the id is its index iff nothing was truncated |
| Ledger.VersionControl.Revert | src/core/version_control.py:88-125 | refused with no change on an empty history or too many steps; otherwise a safety checkpoint is appended after truncation, then the reset either moves the cursor to `pos-steps` or leaves it on the safety checkpoint |
| Ledger.VersionControl.Forward | src/core/version_control.py:127-161 | refused past the tail; otherwise the target is reset to, and the cursor advances only when the reset succeeds; the history never changes |
| Ledger.VersionControl.GotoCheckpoint | src/core/version_control.py:163-190 | an id outside the history is refused; otherwise the cursor moves to that index when the reset succeeds |
| Ledger.VersionControl.CleanupOldCheckpoints | src/core/version_control.py:230-248 | at or under the limit nothing changes; over it the history is the renumbered kept tail, and the cursor is shifted down and clamped at 0 |
| Ledger.CleanupZeroKeepsEverything | src/core/version_control.py:235-245 | a limit of 0 keeps every entry and only renumbers it, so a ledger already numbered by position is unchanged; the cursor goes to 0 from every position |
| Ledger.CleanupKeepsNewest | src/core/version_control.py:235-245 | with a positive limit the kept entries are the newest ones renumbered from 0, the shifted cursor stays in range, and a cursor that survives still points at its own checkpoint |
| Conflicts.DetectionIgnoresOrder | src/utils/conflict_handler.py:23-37 | detection succeeds even when the markers occur in reverse order |
| Conflicts.NextWithIsFirst | src/utils/conflict_handler.py:63-72 | the inner scans stop at the first line containing their marker, or at the end |
| Conflicts.BlockRead | src/utils/conflict_handler.py:52-75 | a block starts at its `<<<<<<<` line and ends at least two lines later |
| Conflicts.ParseIsOrdered | src/utils/conflict_handler.py:48-78 | parsed blocks are in file order and do not overlap |
| Conflicts.ParsedBlocksAreBlocks | src/utils/conflict_handler.py:52-75 | every parsed block has its start marker on its first line, the ours lines up to the middle marker, and the theirs lines up to the end marker |
| Conflicts.ParseMissesNoStart | src/utils/conflict_handler.py:48-78 | every start-marker line lies inside some parsed block |
| Conflicts.NoBlocksIffNoStartLine | src/utils/conflict_handler.py:48-78 | the parse is empty iff no line contains the start marker |
| Conflicts.UnclosedBlockRunsPastEnd | src/utils/conflict_handler.py:62-75 | a start marker with no end marker gives one block whose end line is past the file |
| Conflicts.ParseConflicts | src/utils/conflict_handler.py:39-83 | the while loop returns exactly the blocks of the recursive parse |
| Conflicts.RewriteIsSplice | src/utils/conflict_handler.py:99-113 | the rewrite loop equals splicing each block's chosen side into the lines outside the blocks |
| Conflicts.ResolveConflicts | src/utils/conflict_handler.py:85-161 | with no blocks the answer is "No conflicts found" and nothing is written; otherwise every block is replaced by the chosen side and the count is reported |
| Conflicts.ReplaceBlocks | src/utils/conflict_handler.py:99-113 | the loop over lines and `conflict_idx` builds the rewritten lines |
| Conflicts.SplicedLinesFree | src/utils/conflict_handler.py:99-113 | when the kept sides carry no start marker, neither does any line of the rewrite |
| Conflicts.ResolveIsIdempotent | src/utils/conflict_handler.py:85-161 | after resolution (with marker-free sides) parsing finds no block, so a second resolution has nothing to do |
| Conflicts.SummaryOf | src/utils/conflict_handler.py:169-188 | the summary names the file; the count is the number of blocks, `has_conflicts` iff it is positive, and each entry gives its line range and the sizes of both sides |
| Conflicts.GetConflictSummary | src/utils/conflict_handler.py:169-188 | the summary of the file's parsed blocks, under the file's path |
| Conflicts.CreateConflictReport | src/utils/conflict_handler.py:216-246 | "No conflicts detected." for no files; otherwise header, one section per file in order, and the trailer |
| Conflicts.ScanForConflicts | src/utils/conflict_handler.py:190-214 | a path is reported iff it is outside `.git` and its content holds all three markers |
| Watcher.LastIndexOf | src/core/file_watcher.py:53 | the position of the last dot (or -1): the character there is the dot and none follows |
| Watcher.PycSuffix | src/core/file_watcher.py:53 | the suffix is ".pyc" iff the name ends with ".pyc" after at least one other character |
| Watcher.ShouldProcessFile | src/core/file_watcher.py:31-63 | the pattern loop accepts a path iff it is not excluded and either there are no patterns or some pattern matches |
| Watcher.ExcludedDirectoriesRejected | src/core/file_watcher.py:35-54 | paths under `.git`, `.wave-ai-backup` or `__pycache__`, and `.pyc` files, are never processed |
| Watcher.PlainFileAccepted | src/core/file_watcher.py:31-54 | every top-level `<name>.py` whose name is a non-empty run of lower-case letters passes every exclusion |
| Watcher.ChangeHandler.constructor | src/core/file_watcher.py:21-29 | no pending change, time 0, enabled |
| Watcher.ChangeHandler.ProcessEvent | src/core/file_watcher.py:65-79 | a disabled handler, a directory or a rejected path changes nothing; otherwise the path joins the pending set and the event time becomes now |
| Watcher.ChangeHandler.Enable | src/core/file_watcher.py:97-100 | the handler is enabled |
| Watcher.ChangeHandler.Disable | src/core/file_watcher.py:102-105 | the handler is disabled |
| Watcher.ChangeHandler.CheckAndTrigger | src/core/file_watcher.py:107-126 | nothing happens while disabled, with nothing pending, or before the debounce interval has passed; otherwise the pending set is delivered (when there is a callback) and cleared |
| Watcher.FileWatcher.constructor | src/core/file_watcher.py:132-141 | not running, no handler, no callback |
| Watcher.FileWatcher.SetChangeCallback | src/core/file_watcher.py:143-148 | a callback is set |
| Watcher.FileWatcher.Start | src/core/file_watcher.py:150-185 | refused when running, when the path is missing or when there is no callback; otherwise a fresh enabled handler runs |
| Watcher.FileWatcher.Stop | src/core/file_watcher.py:187-230 | when running, the handler is disabled and dropped and the stop flag is set; the watcher is not running afterwards |
| Watcher.FileWatcher.CheckDebounce | src/core/file_watcher.py:232-235 | the handler's check runs only when there is a handler and no stop was requested |
| Watcher.FileWatcher.Pause | src/core/file_watcher.py:249-253 | the handler is disabled and keeps its pending changes |
| Watcher.FileWatcher.Resume | src/core/file_watcher.py:255-259 | the handler is enabled and keeps its pending changes |
| Watcher.FileWatcher.PendingChanges | src/core/file_watcher.py:261-266 | the handler's pending set, or none without a handler |
| Watcher.FileWatcher.ClearPendingChanges | src/core/file_watcher.py:268-273 | the pending set is emptied and nothing else changes |
| GitSync.ShortHash | src/core/git_sync.py:197 | the first seven characters of the commit hash |
| GitSync.Commit | src/core/git_sync.py:171-205 | not initialised is an error; an unchanged tree is "No changes to commit" and counts as success; success otherwise iff the commit was made, answering the short hash |
| GitSync.CommitHashIsNotNoChanges | src/core/git_sync.py:190-198 | a short hash never equals the "no changes" message, so the two outcomes can be told apart |
| GitSync.Push | src/core/git_sync.py:207-235 | success iff initialised and the push ran; an empty push result is "No commits to push" |
| GitSync.CommitAndPush | src/core/git_sync.py:237-252 | a failed commit or "no changes" is returned as is, with no push; otherwise push, answering "Commit <hash>: <push message>" |
| GitSync.CommitAndPushDecides | src/core/git_sync.py:237-252 | a push is attempted iff a commit was made; the overall answer is ok iff the commit succeeded and, when there was something to commit, the push succeeded |
| GitSync.HasRemoteChanges | src/core/git_sync.py:254-274 | changes iff the count of commits behind is positive, which is the fetched count when initialised and 0 otherwise |
| GitSync.HasLocalChanges | src/core/git_sync.py:276-294 | changes iff initialised and the tree is dirty, listing changed then untracked files |
| GitSync.HasConflicts | src/core/git_sync.py:344-361 | conflicts iff the unmerged list is non-empty |
| GitSync.ResetToCommit | src/core/git_sync.py:317-342 | success iff initialised and the reset ran, naming hard or soft |
| GitSync.RemoveAllAbsent | src/core/git_sync.py:377-379 | `replace` leaves a string without an occurrence unchanged |
| GitSync.BranchNameOfRemoteRef | src/core/git_sync.py:377-379 | "origin/<name>" maps to `<name>` |
| GitSync.RemoveAllKeepsFree | src/core/git_sync.py:377-379 | text that cannot start an occurrence is kept by `replace` |
| GitSync.BranchNameRemovesInnerOccurrences | src/core/git_sync.py:377-379 | every "origin/" is removed, so "origin/ci/origin/fix" becomes "ci/fix" |
| GitSync.RemoteBranchNames | src/core/git_sync.py:377-379 | a name is listed iff it comes from a ref other than "origin/HEAD" |
| GitSync.RemoteBranchNamesOne | src/core/git_sync.py:377-379 | one ref gives its renamed branch, and "origin/HEAD" gives nothing |
| GitSync.RemoteBranchNamesSplits | src/core/git_sync.py:377-379 | names come out in the order of the refs, repeats included: listing a concatenation concatenates the lists |
| GitSync.TrackingBranchesCover | src/core/git_sync.py:61-78 | the existing local branches are kept in front; every remote name that could be created is present; every added branch is a remote name not already present |
| GitSync.Repository.constructor | src/core/git_sync.py:22-29 | the state given |
| GitSync.Repository.Pull | src/core/git_sync.py:133-169 | not initialised changes nothing; a dirty tree is stashed first; a failed pull keeps the stash; after a pull the newest stash entry is popped whenever there is one, and a failed pop keeps it and reports the conflict |
| GitSync.Repository.CreateTrackingBranches | src/core/git_sync.py:61-78 | the loop adds exactly the tracking branches of the remote names |
| Sync.ListedNames | src/core/sync_engine.py:339 | the file names of the first five changed files, in order |
| Sync.CommitMessageNamesListed | src/core/sync_engine.py:335-343 | each of the first five changed files' names occurs in the commit message |
| Sync.ListedNamesOfFirst | src/core/sync_engine.py:339 | only the first five files contribute names |
| Sync.CommitMessageCountsTheRest | src/core/sync_engine.py:335-343 | with more than five files the message is the one for the first five followed by " and N more" |
| Sync.SyncEngine.constructor | src/core/sync_engine.py:27-45 | nothing initialised, not running, every counter 0 |
| Sync.SyncEngine.Initialize | src/core/sync_engine.py:70-105 | configuration errors are reported joined by newlines with no change; otherwise the wrapper, ledger (with an initial checkpoint) and watcher exist |
| Sync.SyncEngine.Start | src/core/sync_engine.py:107-134 | refused when running or not initialised; otherwise the watcher starts and the engine runs |
| Sync.SyncEngine.Stop | src/core/sync_engine.py:136-178 | refused when not running; otherwise the watcher is stopped and the engine is not running |
| Sync.SyncEngine.CheckAndPull | src/core/sync_engine.py:257-317 | a held lock skips the cycle; without the wrapper the cycle counts an error; with remote changes the watcher is paused around the pull, a pull counts and is checkpointed, and a failed pull counts an error (and a conflict when there is one); the pull time is updated |
| Sync.SyncEngine.OnFilesChanged | src/core/sync_engine.py:319-365 | auto-push off or a held lock does nothing; otherwise one commit-and-push with the built message, counted as a push with a checkpoint, or as an error, with no retry |
| Sync.SyncEngine.ManualSync | src/core/sync_engine.py:386-409 | local changes are pushed first and a failed push stops the sync; then a pull, whose answer is the result |
| Sync.SyncEngine.ForcePush | src/core/sync_engine.py:437-451 | one commit-and-push, counted only on success |
| Sync.SyncEngine.ForcePull | src/core/sync_engine.py:453-474 | the watcher is paused around one pull, counted only on success |
| Config.Merge | src/core/config_manager.py:76-84 | the merged keys are those of both dictionaries; a default-only key keeps its default; a loaded key maps to the recursive merge when both sides hold a dictionary and to the loaded value otherwise |
| Config.MergeKeepsDefaultPath | src/core/config_manager.py:76-84 | a default setting the loaded file leaves out survives the merge, even inside a section the file partly sets |
| Config.MergeLoadedWins | src/core/config_manager.py:76-84 | a loaded non-section value is what the merged configuration holds at that path |
| Config.MergeSelf | src/core/config_manager.py:76-84 | merging a configuration with itself gives it back |
| Config.GetAfterSet | src/core/config_manager.py:92-124 | after a successful set, get on the same path gives the value set |
| Config.SetLeavesOtherPaths | src/core/config_manager.py:106-124 | a set leaves every path that branches off elsewhere unchanged |
| Config.LookupPrefix | src/core/config_manager.py:97-103 | looking up a prefix of a path walks the same dictionaries |
| Config.SetFailsIffBlocked | src/core/config_manager.py:115-121 | set fails iff some proper prefix of the path leads to a value that is not a section |
| Config.Validate | src/core/config_manager.py:126-150 | fails (Python's `TypeError`) iff the directory is set to a non-string or the interval is not a number; otherwise valid iff there are no errors |
| Config.ErrorList | src/core/config_manager.py:132-148 | each message appears iff its condition holds, and no other message appears |
| Config.ValidateReports | src/core/config_manager.py:132-148 | the URL message iff the URL is unset, the unset-directory message iff the directory is unset, the missing-directory message iff a set directory does not exist, the interval message iff the interval is under 10 (booleans included), and nothing else |
| Config.ValidIff | src/core/config_manager.py:126-154 | valid iff the repository URL is set, the directory is a non-empty existing path and the interval is at least 10; a valid configuration is configured |
| Config.DefaultsNeedSetup | src/core/config_manager.py:15-50 | the defaults are invalid for a missing URL and a missing directory, and are not configured |
| Config.ConfigManager.constructor | src/core/config_manager.py:52-74 | the file's dictionary merged over the defaults, or the defaults when the file is missing or not a dictionary |
| Config.ConfigManager.Get | src/core/config_manager.py:92-104 | the loop returns the value at the dotted path, or the default when a step is missing |
| Config.ConfigManager.Set | src/core/config_manager.py:106-124 | the configuration becomes the one with the value at the dotted path, with missing sections created; a blocked path fails and changes nothing |
| Config.Descend | src/core/config_manager.py:115-118 | the descent is blocked iff the path cannot be set; otherwise it records the sections along the path |
| Config.Rebuild | src/core/config_manager.py:115-121 | rebuilding the recorded sections gives the set configuration |
| Accounts.FirstWithId | src/utils/account_manager.py:84-87 | the entry found carries the id |
| Accounts.FirstWithIdIsFirst | src/utils/account_manager.py:84-87 | nothing is found iff no entry carries the id; otherwise the entry is the first one that does |
| Accounts.Without | src/utils/account_manager.py:63-66 | an entry survives removal iff it does not carry the id |
| Accounts.WithoutAppend | src/utils/account_manager.py:63-66 | removal keeps the order of the remaining entries |
| Accounts.WithoutAbsent | src/utils/account_manager.py:63-66 | removing an id nobody carries changes nothing |
| Accounts.RemovalKeepsActiveListed | src/utils/account_manager.py:68-72 | after a removal the active id still names an entry, or there is none |
| Accounts.FindActive | src/utils/account_manager.py:81-88 | the loop returns the first entry carrying the active id, or none |
| Accounts.FindId | src/utils/account_manager.py:92-97 | the loop finds the id iff some entry carries it |
| Accounts.AccountManager.constructor | src/utils/account_manager.py:14-36 | the file's lists and active ids, or empty lists with nothing active |
| Accounts.AccountManager.AddGithubAccount | src/utils/account_manager.py:44-59 | one account is appended with id = old length; the first account becomes active; always true |
| Accounts.AccountManager.RemoveGithubAccount | src/utils/account_manager.py:61-75 | every account with the id is removed; a removed active account is replaced by the first remaining one, or none; always true |
| Accounts.AccountManager.GetActiveGithub | src/utils/account_manager.py:81-88 | the first account carrying the active id; with a listed active id it is found |
| Accounts.AccountManager.SetActiveGithub | src/utils/account_manager.py:90-97 | succeeds iff some account carries the id, and only then changes the active id |
| Accounts.AccountManager.AddPerplexityProfile | src/utils/account_manager.py:100-114 | as for accounts |
| Accounts.AccountManager.RemovePerplexityProfile | src/utils/account_manager.py:116-130 | as for accounts |
| Accounts.AccountManager.GetActivePerplexity | src/utils/account_manager.py:136-143 | as for accounts |
| Accounts.AccountManager.SetActivePerplexity | src/utils/account_manager.py:145-152 | as for accounts |
| Tabs.DefaultTitle | src/gui/perplexity_tabs.py:71-72 | the default title starts with "Perplexity " |
| Tabs.RemoveAt | src/gui/perplexity_tabs.py:111 | `pop(k)` removes exactly the k-th tab |
| Tabs.RenumberNumbered | src/gui/perplexity_tabs.py:115-116 | renumbering a list already numbered by position changes nothing |
| Tabs.CloseRemovesOneTitle | src/gui/perplexity_tabs.py:110-116 | closing tab k removes exactly that title and keeps the others in order |
| Tabs.TabManager.constructor | src/gui/perplexity_tabs.py:61-67 | one tab, id 0, titled "Perplexity 1", and it is active |
| Tabs.TabManager.AppendTab | src/gui/perplexity_tabs.py:69-76 | one tab is appended with id = old length, the given or default title, and the URL and template the configuration holds at that moment |
| Tabs.TabManager.CreateTab | src/gui/perplexity_tabs.py:78-97 | succeeds iff there are fewer than `max_tabs` tabs; a refusal changes nothing; the template is applied only when known, else the one configured when the tab is made |
| Tabs.TabManager.CloseTab | src/gui/perplexity_tabs.py:99-127 | the last tab cannot be closed, and an id outside the list is refused; otherwise the tab is removed, the rest are renumbered, and an active index past the end is clamped |
| Tabs.TabManager.SwitchTab | src/gui/perplexity_tabs.py:129-144 | the active index changes iff the id is a valid index |
| Tabs.TabManager.GetActiveTab | src/gui/perplexity_tabs.py:146-150 | the active tab when its index is in range, else the first tab |
| Tabs.TabManager.CanCreateTab | src/gui/perplexity_tabs.py:224-226 | true iff there are fewer than `max_tabs` tabs, which is exactly when `create_tab` succeeds |

## Left out

- Persistence: JSON load and save of the ledger, configuration and accounts files, and file reads and writes in the conflict handler. The in-memory state is modelled; a loaded file is a constructor parameter.
- Threads: the poll thread and its loop (src/core/sync_engine.py:211-255), `join` timeouts, `gc.collect`, signal and atexit handlers, and `emergency_stop`. The lock is the flag `lockHeld`.
- The watchdog `Observer`, the `on_*` event callbacks and `_cleanup`'s observer teardown. Events arrive through `ProcessEvent`, and stopping is the flag update only.
- GitPython: clone, fetch, stash, reset and diff are abstract results, and exception types are reduced to "command error" and "other error".
- Glob matching (`Path.match`) is the parameter `matches`, and the order in which `rglob` lists files is the order of the given sequence.
- Time: `time.time()` and the float `debounce_seconds` are integer ticks; datetimes and default descriptions are opaque strings.
- `Common.Lower`: lowers ASCII letters only; Unicode case folding is not modelled.
- Paths: only "/" separators and no `str(Path)` normalisation. Windows paths are not modelled.
- `Ledger.VersionControl.Revert`, `Ledger.VersionControl.Forward`: the step count is a natural number; a negative count (which Python would turn into negative indexing) is not modelled.
- `Ledger.VersionControl.CleanupOldCheckpoints`: the limit is a natural number. With a negative limit the source would slice `history[-m:]`, dropping the first |m| entries (or all of them, leaving the cursor at 0 on an empty ledger); that case is not modelled.
- `Config.Merge`: the dictionary key order of the merged result is not modelled, since maps are unordered.
- `Config.ConfigManager.Set`: the nested dictionaries are values, so `DEFAULT_CONFIG.copy()`'s shallow-copy aliasing is not modelled, and the in-place update is a rebuild along the path.
- Configuration values: floats are not modelled, and `Validate` treats a boolean interval as the integer it is in Python.
- `reset_to_defaults`, `export_config`, `import_config`, `save`, `get_status`, `get_commit_history` and `export_history` are not modelled; they are file I/O or plain reporting.
- `_handle_conflict` only logs and calls no resolver, so no ours/theirs dispatch is modelled.
- `SyncEngine.initialize` reads the configuration and constructs collaborators; the model takes the validation errors as a parameter.
- `Sync.SyncEngine.Initialize`: exceptions thrown while the collaborators are built are not modelled.
- `GitSync.Repository.Pull`: a failure of the stash save itself is not modelled.
- `get_github_accounts`, `get_perplexity_profiles`, `get_all_tabs`, `get_tab_count`, `rename_tab`, `set_tab_template`, `get_tab_prompt` and `list_templates` return or set fields directly, or format prompt text; they are not modelled.
- Tabs are values in the model, so `get_active_tab` returns a copy rather than the shared object.
- The prompt texts of `PerplexityTab` and the template list are not modelled; known templates are a parameter.
