# claude-code-notify core, modelled in Dafny

claude-code-notify turns "a command finished" events into desktop
notifications. Three parts of it decide what gets shown. This project models
those parts and proves what they promise.

- **Policy engine** (`policy.dfy`, `src/policy.rs`). `should_notify` filters
  events:
  - errors always notify;
  - otherwise a command containing a whitelisted substring notifies;
  - otherwise the run must last at least the threshold.

  `match_template` picks the first custom template whose name occurs in the
  command, and falls back to "default".
- **Notification aggregator** (`aggregator.dfy`, `src/aggregator.rs`). It keeps
  one batch of events in a state file that outlives each process. On each add
  it:
  - loads the batch, or starts a fresh one when the file is missing or
    unreadable;
  - replaces the batch when its window has expired;
  - appends the event and saves the batch;
  - reports the batch once it holds `max_toasts` events.

  `flush` reports and removes whatever is buffered. `title`, `message` and
  `status` render a report. The file is a `Store` value:
  - `Absent`: no file;
  - `Valid(state)`: a file that parses;
  - `Corrupt`: a file that cannot be read or parsed.

  The aggregator object is a class whose `store` field its methods update.
- **PATH manager** (`path_manager.dfy`, `src/path_manager.rs`). Three string
  helpers work on the user's `Path` registry value:
  - `contains_path`: a case-insensitive substring test;
  - `append_to_path`: joins with `;`;
  - `remove_from_path_str`: splits on `;`, filters out the directory and
    re-joins.

  `add_to_path` and `remove_from_path` check and then write. They are methods
  of a `UserEnvironment` class whose field is the registry value.

`text.dfy` holds the Rust string operations the core relies on, written out:
`str::contains`, lower-casing, `split`, `join` and decimal formatting.
`wrappers.dfy` holds `Option`, `Result` and `Outcome` (`Result<(), E>`).

Time enters as a `now` parameter, in Unix seconds. Whether the file system
or the registry accepts an operation enters as a boolean parameter of that
operation.

Three behaviours of the code shape the model:
- **Window expiry.** `is_expired` compares whole elapsed seconds with
  `window_ms / 1000`. The elapsed time is `now - window_start`, saturating at
  zero.
- **The file after a report.** `add_notification` saves the batch even when
  it reports it. The batch therefore keeps reporting on every later add
  until `flush` removes it or its window expires (`AddRefiresUntilFlushed`).
- **No dispatcher.** The code has no dispatcher and no rule for bypassing
  aggregation, so neither is modelled.

## Model

| member | source | states |
|---|---|---|
| `Text.Contains` | src/policy.rs:27 | a found pattern is no longer than the text, and the empty pattern is always found |
| `Text.ContainsIff` | src/policy.rs:27 | `str::contains` as a left-to-right scan holds exactly when the pattern occurs at some index |
| `Text.Lower` | src/path_manager.rs:106-107 | lower-casing keeps the length and maps every character through the ASCII lower-case map |
| `Text.Split` | src/path_manager.rs:124 | `split(';')` gives at least one piece, and no piece contains the separator |
| `Text.Join` | src/path_manager.rs:127 | the joined string starts with the first piece |
| `Text.JoinSplit` | src/path_manager.rs:124-127 | joining the pieces of a split with the same separator gives the string back |
| `Text.SplitJoin` | src/path_manager.rs:124-127 | splitting a join of separator-free pieces gives the pieces back |
| `Text.SplitConcat` | src/path_manager.rs:116 | the pieces of `a;b` are the pieces of `a` followed by those of `b` |
| `Text.NatToString` | src/aggregator.rs:170-172 | the decimal text of a count is non-empty, all digits, a single digit exactly below ten, and starts with "0" only for zero |
| `Text.ParseNatToString` | src/aggregator.rs:170-172 | the decimal text `format!` writes for a count reads back as that count |
| `Policy.ScanWhitelist` | src/policy.rs:26-30 | the early-return loop over the whitelist succeeds exactly when some entry occurs in the command |
| `Policy.ShouldNotify` | src/policy.rs:19-34 | an error always notifies; otherwise a whitelisted command notifies; otherwise it notifies exactly when the duration reaches `min_duration` |
| `Policy.ShouldNotifyMonotone` | src/policy.rs:33 | if a run is notified, a longer run of the same command with the same status is notified too |
| `Policy.ShouldNotifyBelowThreshold` | src/policy.rs:19-34 | a non-error, non-whitelisted run shorter than the threshold is suppressed |
| `Policy.ShouldNotifyExamples` | src/policy.rs:66-96 | the unit tests: errors at 1 s and 100 s notify, a success at 5 s does not, at 15 s it does, and "deploy" whitelisted notifies at 3 s |
| `Policy.FirstMatch` | src/policy.rs:39-43 | a name found occurs in the command and no name before it in iteration order does; none exactly when no name occurs |
| `Policy.MatchTemplate` | src/policy.rs:37-47 | always returns a name: a custom template name occurring in the command when there is one, "default" when none occurs |
| `Policy.MatchTemplateUnique` | src/policy.rs:37-47 | when exactly one custom name occurs in the command, every map iteration order selects it |
| `Policy.MatchTemplateExamples` | src/policy.rs:99-116 | the unit test: "npm run build" selects "build" and "npm test" falls back to "default" |
| `Policy.DefaultAggregationSettings` | src/policy.rs:51-59 | under the default configuration, aggregation is enabled with a 5000 ms window |
| `Aggregator.NewState` | src/aggregator.rs:27-32 | a new batch is empty, starts `now`, and is not expired at `now` for any window |
| `Aggregator.IsExpired` | src/aggregator.rs:35-38 | a batch is expired exactly when `now` is past `window_start + window_ms / 1000` |
| `Aggregator.ClockBehindNeverExpires` | src/aggregator.rs:36 | `saturating_sub` means a clock reading before the window start never expires the batch |
| `Aggregator.ExpiryIsMonotone` | src/aggregator.rs:35-38 | an expired batch stays expired as the clock advances |
| `Aggregator.Add` | src/aggregator.rs:41-48 | one event stamped `now` is appended; earlier events and the window start are unchanged |
| `Aggregator.CountStatus` | src/aggregator.rs:52-53 | a status count never exceeds the number of events |
| `Aggregator.CountStatusAppend` | src/aggregator.rs:52-53 | appending an event raises exactly the count of its own status |
| `Aggregator.CountStatusCountsMatches` | src/aggregator.rs:52-53 | the count of a status is the number of positions holding an event with that status |
| `Aggregator.UniformBatchCounts` | src/aggregator.rs:52-53 | in a batch whose events all have one status, that status counts every event and any other status counts none |
| `Aggregator.SuccessErrorBound` | src/aggregator.rs:51-56 | no event is counted both as a success and as an error, so successes plus errors never exceed the total |
| `Aggregator.GetStats` | src/aggregator.rs:51-56 | the total is the number of events, the other two are the counts of "success" and "error" events, and those two together do not exceed the total |
| `Aggregator.GetStatsExample` | src/aggregator.rs:231-241 | the unit test: success, error, success gives (3, 2, 1) |
| `Aggregator.BuildResult` | src/aggregator.rs:146-154 | the report carries every event of the batch, its size, and its success and error counts |
| `Aggregator.Title` | src/aggregator.rs:168-174 | the title starts with the total; with failures it names "N 成功" and "N 失败"; it mentions failure exactly when some event failed |
| `Aggregator.Status` | src/aggregator.rs:199-201 | the status is "error" exactly when some event failed, and "success" otherwise |
| `Aggregator.TitleAgreesWithStatus` | src/aggregator.rs:168-201 | the title mentions failure exactly when the status is "error" |
| `Aggregator.TitleExample` | src/aggregator.rs:244-256 | the unit test: 5 tasks, 3 succeeded and 2 failed gives a title containing "5", "3 成功" and "2 失败" |
| `Aggregator.RenderedLinesAreDistinct` | src/aggregator.rs:181-191 | each kind of message line starts with its own character, and a task line shows "✅" exactly for status "success" |
| `Aggregator.Icon` | src/aggregator.rs:190 | the icon is "✅" or "❌", and "✅" exactly for status "success" |
| `Aggregator.Render` | src/aggregator.rs:180-191 | a count line shows its count in decimal; a task line shows the command and the duration in decimal |
| `Aggregator.TaskLines` | src/aggregator.rs:189-192 | one task line per event, in arrival order |
| `Aggregator.Message` | src/aggregator.rs:177-196 | the loop that pushes lines produces exactly the specified lines, joined with newlines |
| `Aggregator.MessageSuccessLine` | src/aggregator.rs:180-182 | the success line appears exactly when some event succeeded, and it carries the success count |
| `Aggregator.MessageFailureLine` | src/aggregator.rs:183-185 | the failure line appears exactly when some event failed, and it carries the failure count |
| `Aggregator.MessageRecentTasks` | src/aggregator.rs:187-193 | the recent-task heading appears exactly for one to five events; the events then follow it in order at the end; otherwise no task line appears |
| `Aggregator.Load` | src/aggregator.rs:124-131 | a missing file gives a new batch opened `now`; a valid file gives its state; only an unreadable file is an error |
| `Aggregator.StartState` | src/aggregator.rs:77-83 | the batch an add extends is the state in the file when that state is valid and unexpired at `now`, and a new batch opened `now` otherwise; either way it is not expired at `now` |
| `Aggregator.AddSaved` | src/aggregator.rs:77-86 | the saved batch is not expired at `now` and ends with the new event stamped `now` |
| `Aggregator.AddKeepsOrDrops` | src/aggregator.rs:76-86 | the previous batch is kept exactly when the file holds an unexpired state; otherwise its events are dropped and a batch opened `now` holds only the new event |
| `Aggregator.ReadyReport` | src/aggregator.rs:89-99 | a batch is reported exactly when it holds at least `max_toasts` events; the report covers all of them with their success and error counts |
| `Aggregator.AddRefiresUntilFlushed` | src/aggregator.rs:89-99 | a reported batch is not cleared: the next add in the same window reports again, with one more event and the earlier ones unchanged in front |
| `Aggregator.HasPending` | src/aggregator.rs:116-122 | pending exactly when the file holds an unexpired batch with at least one event |
| `Aggregator.AddLeavesPending` | src/aggregator.rs:76-122 | right after an add, the saved batch is pending at the same instant |
| `Aggregator.AddKeepsWellFormed` | src/aggregator.rs:41-48 | with a clock that does not run backwards, an add keeps every event at or after the window start and the events in timestamp order |
| `Aggregator.ClockBehindBreaksWindowOrder` | src/aggregator.rs:35-48 | a clock reading before the window start keeps the batch and stamps the event before the window start, so the batch is no longer well formed |
| `Aggregator.ThreeSuccessBatches` | src/aggregator.rs:76-86 | starting with no file, three successful adds within one 5-second window save batches of one, two and three events, in order, under the first add's window start |
| `Aggregator.ThreeSuccessesScenario` | src/aggregator.rs:76-100 | with `max_toasts` 3, three successes within one window: the first two adds are buffered, and the third reports 3 successes and no errors under "3 个任务已完成" |
| `Aggregator.SuccessTitleOfThree` | src/aggregator.rs:168-174 | a failure-free batch of three is titled "3 个任务已完成" |
| `Aggregator.NotificationAggregator.SaveState` | src/aggregator.rs:133-137 | a successful write replaces the file with the state; a failed write is an error and leaves the file as it was |
| `Aggregator.NotificationAggregator.ClearState` | src/aggregator.rs:139-144 | with no file it succeeds and does nothing; otherwise the file is removed, or the removal error is returned and the file stays |
| `Aggregator.NotificationAggregator.AddNotification` | src/aggregator.rs:76-100 | when the write succeeds, the file holds the extended batch and the result is its report once full; when the write fails, the error is returned and the file is unchanged |
| `Aggregator.NotificationAggregator.Flush` | src/aggregator.rs:103-113 | an unreadable file is an error; no file or an empty batch reports nothing and changes nothing; otherwise the file is removed and every buffered event is reported, or the removal error is returned |
| `Aggregator.BufferThenFlushScenario` | src/aggregator.rs:76-113 | with `max_toasts` 5, an error and a success are buffered; a flush reports both (1 success, 1 error) and leaves no file, so a second flush reports nothing |
| `PathManager.ContainsPath` | src/path_manager.rs:105-108 | a directory occurring with its exact case is found, and a found directory is no longer than the PATH |
| `PathManager.ContainsPathOccurs` | src/path_manager.rs:105-108 | the test succeeds exactly when the lower-cased directory occurs at some index of the lower-cased PATH |
| `PathManager.ContainsPathIgnoresCase` | src/path_manager.rs:105-108 | the test ignores the case of ASCII letters in both the PATH and the directory |
| `PathManager.EntryIsContained` | src/path_manager.rs:105-108 | every `;`-separated entry of the PATH is found |
| `PathManager.PrefixOfEntryIsContained` | src/path_manager.rs:105-108 | a directory that is only a proper prefix of an entry (such as "C:\bin" in "C:\bin2") is found too, although no entry equals it |
| `PathManager.AppendToPath` | src/path_manager.rs:111-118 | an empty PATH becomes the directory; otherwise the entries are those of the PATH followed by those of the directory; the directory is then found |
| `PathManager.AppendAddsOneEntry` | src/path_manager.rs:111-118 | a directory without `;` becomes exactly one new entry at the end |
| `PathManager.Without` | src/path_manager.rs:125 | the filter keeps exactly the entries that are not equal to the directory |
| `PathManager.WithoutAppend` | src/path_manager.rs:124-126 | filtering distributes over concatenation |
| `PathManager.RemoveKeepsOtherEntries` | src/path_manager.rs:121-128 | when some entry survives, the entries of the result are exactly the surviving ones, in order; when none survives, the result is empty |
| `PathManager.RemoveFromPathStr` | src/path_manager.rs:121-128 | a non-empty directory is no longer an entry after removal; when no entry equals the directory, removal returns the PATH unchanged |
| `PathManager.RemoveAfterAppend` | src/path_manager.rs:111-128 | removing a directory (without `;`, not already an entry) that was just appended restores the PATH |
| `PathManager.CaseMismatchIsNotRemoved` | src/path_manager.rs:105-128 | a case mismatch (such as "c:\tools" against "C:\Tools") is found by the test but not removed |
| `PathManager.UserEnvironment.GetUserPath` | src/path_manager.rs:80-89 | fails when the key does not open; otherwise returns the value, or "" when it is missing |
| `PathManager.UserEnvironment.SetUserPath` | src/path_manager.rs:92-102 | a successful write sets the value; a failed write is an error and leaves it as it was |
| `PathManager.UserEnvironment.AddToPath` | src/path_manager.rs:16-45 | off Windows: false, no change. If the directory is already found: false, no write. Otherwise the appended PATH is written and broadcast, giving true. Read and write errors are returned with the value unchanged |
| `PathManager.UserEnvironment.RemoveFromPath` | src/path_manager.rs:49-77 | off Windows: false, no change. If the directory is not found: false, no write. Otherwise the filtered PATH is written and broadcast, giving true even when nothing was removed. Read and write errors are returned with the value unchanged |
| `PathManager.InstallUninstallScenario` | src/path_manager.rs:16-70 | on an empty PATH: the first add writes the directory, a second add reports false, and a removal leaves an empty PATH after two broadcasts |

## Left out

- File I/O and JSON. The state file is the `Store` value. A file that cannot be read and a file that does not parse are both `Corrupt`. `serde_json` serialisation is not modelled, and a failure to serialise is not a separate case.
- `get_state_file_path` and the environment variables it reads.
- The clock. `now()` is read several times within one `add_notification`; the model uses one `now` per call.
- Concurrent processes. Two invocations can load the same batch and the second save overwrites the first (a lost update). The model is one sequential object.
- Integer widths. `u64` and `usize` are unbounded `nat`; the counts and timestamps involved cannot overflow in practice.
- Unused parameters. The `window` parameter of `AggregationState::new` is ignored by the code; `NewState` has no such parameter.
- The registry and the broadcast are not modelled. The registry key is the `pathValue` field. `SendMessageTimeoutW` is a counter of broadcasts. `log::info!` is left out.
- `to_string_lossy` is the identity on the directory string.
- Text.Lower: maps only ASCII letters. `to_lowercase` also folds other Unicode letters, which are not modelled.
- Aggregator.Message: the lines are kept as `MessageLine` values and rendered by `Render` only when joined. The proved properties are about those values, not about substrings of the joined text.
- Policy.MatchTemplate: `HashMap` iteration order is a parameter listing the custom names. Which name wins when several occur depends on that order, and the code does not fix it.
- Aggregator.NotificationAggregator.SaveState: a failed write is modelled as leaving the file unchanged. A partial write that corrupts the file is not modelled.
- `Policy.ShouldAggregate` and `Policy.AggregationWindow` (src/policy.rs:51-59) are modelled as getters of the aggregation settings, with no contract beyond their bodies. Their values under the default configuration are stated by `Policy.DefaultAggregationSettings`.
- The window-order invariant holds only with a clock that does not run backwards. `Aggregator.AddKeepsWellFormed` assumes this; `Aggregator.ClockBehindBreaksWindowOrder` shows what happens otherwise.
- Everything outside these three files: the notifier, sound, the setup wizard, configuration loading, hook integration, the command line, `main`, and `lib`. Configuration defaults from `src/config.rs` appear only as constants in `Policy.DefaultConfig`.
