# Linear caching layer and progress engine, in Dafny

This project models the two decision-making components of an autonomous
coding harness that tracks its work in the Linear issue tracker:

- **The caching layer** (`linear_cache.py`). `LinearCache` has three kinds of state:
  - a write-once *permanent* tier that maps an issue id to its title, description and priority;
  - a *session* tier that maps `"issues_" + project_id` to the last issue list stored, fresh for 300 seconds;
  - a rate tracker: a running call count plus the stamps of the calls of the last hour, with a warning above 1200.

  `CachedLinearClient` answers each request from the cache or counts exactly one API call.
- **The progress engine** (`linear_enhanced.py`, class `EnhancedLinearIntegration`). It covers:
  - progress counts, the weighted percentage, velocity and the completion estimate;
  - the milestone table and the current milestone;
  - the three-state health rule;
  - the list of next-session priorities;
  - the initializer's project record;
  - the per-session update of the project's three histories.

Layout:

| file | module | contents |
|---|---|---|
| `wrappers.dfy` | `Wrappers` | `Option`, `Result` |
| `issues.dfy` | `Issues` | the issue record (every JSON key optional) and the filter by state name |
| `decimal.dfy` | `Decimal` | `str(n)` for the `"<n> days"` estimate, with its round trip |
| `linear_cache.dfy` | `Caching` | the classes `LinearCache` and `CachedLinearClient`, plus the pure functions that specify them (rate window, permanent-tier fill, status filter) |
| `cache_scenarios.dfy` | `CacheScenarios` | client code that drives a fresh cache through sequences of calls and states what a caller observes |
| `linear_enhanced.dfy` | `Enhanced` | milestones, health, progress, priorities, the project record, and the class `EnhancedLinearIntegration` with its history update |

Modelling choices:

- The clock is a parameter, `now: real`, standing in for `time.time()`.
- ISO time stamps (`cached_at`, the history `timestamp`s, `created_at`) are opaque `Stamp` parameters.
- Python floats are exact `real`s, and `int(x)` is truncation toward zero.
- Python truthiness is written out:
  - an id counts only when it is present and non-empty;
  - a status filter applies only when it is present and non-empty;
  - an empty cached list is a miss for `list_issues`.
- `labels[priority - 1]` follows Python indexing. Priorities 1..4 pick a label, 0..-3 wrap around from the end, and any other value raises `IndexError`, modelled as `Err(IndexError(priority))`.
- Saving is a ghost snapshot of what the file would hold (`lastSaved`, `saved`).
- Loading is a constructor argument:
  - for `LinearCache`, `None` stands for a missing or unreadable cache file, both of which give an empty permanent tier (`linear_cache.py:41-54`);
  - for `EnhancedLinearIntegration`, `None` stands only for a missing project file (`linear_enhanced.py:85-88`). An unreadable one raises, which is not modelled (see Left out).
- The all-completed message and the priority labels are the source's literals character for character. Each emoji is spelled as its UTF-8 bytes read as Windows-1252 text (`linear_enhanced.py:254`, `linear_enhanced.py:259`), so the program returns those characters and so does the model.

Behaviour of the code worth noting, which the model follows:

- Reading a fresh session list has no side effect. It does not fill the permanent tier (`linear_cache.py:106-121`), and `list_issues` does not merge anything from it either, although its docstring lists that as a step (`linear_cache.py:180`).
- A stored `session_count` of 0 or less gives velocity 0. The count is not raised to 1 (`linear_enhanced.py:123-124`).
- Only issues whose id is present and non-empty reach the permanent tier (`linear_cache.py:133`).
- `update_issue` does not invalidate the session list, although its docstring (`linear_cache.py:224`) and its log line (`linear_cache.py:231`) say it does (see Findings).

## Model

| member | source | states |
|---|---|---|
| `Issues.WithState` | linear_enhanced.py:249 | keeps exactly the issues whose state name equals the given name, all taken from the input, never more than the input |
| `Issues.WithStateAppend` | linear_enhanced.py:249 | the filter works issue by issue: the matches of `a + b` are those of `a` followed by those of `b`, so input order and duplicates are kept |
| `Decimal.NatToString` | linear_enhanced.py:132 | the rendering of `int(days)` is a non-empty string of decimal digits with no leading zero |
| `Decimal.DecimalRoundTrip` | linear_enhanced.py:132 | reading the rendered digits back gives the number, so the day count is rendered without loss |
| `Decimal.NatToStringInjective` | linear_enhanced.py:132 | different day counts give different strings |
| `Caching.SessionKey` | linear_cache.py:111 | the session key is `"issues_"` followed by the project id, which can be read back from it |
| `Caching.SessionKeyInjective` | linear_cache.py:125 | two projects share a session key exactly when they are the same project |
| `Caching.Recent` | linear_cache.py:74-76 | pruning keeps exactly the stamps strictly after one hour ago and never adds one |
| `Caching.RecentAppend` | linear_cache.py:76 | pruning works stamp by stamp: the survivors of `a + b` are those of `a` followed by those of `b`, so order and repeated stamps are kept |
| `Caching.RecentKeepsAll` | linear_cache.py:74-76 | when every stamp is inside the window, pruning keeps the list as it is |
| `Caching.RecentOfSortedIsSuffix` | linear_cache.py:74-76 | on stamps in time order, pruning leaves a suffix: the newest calls, in order |
| `Caching.NewCallIsKept` | linear_cache.py:70-76 | the call just recorded always survives the pruning, as the newest stamp |
| `Caching.UsedPercentage` | linear_cache.py:150 | the reported percentage is non-negative and is at most 100 exactly when the calls are within the 1500 budget |
| `Caching.WarningMeansEightyPercent` | linear_cache.py:79 | more than 1200 calls in the window is the same as more than 80% of the budget used |
| `Caching.EntryFor` | linear_cache.py:97-103 | a permanent entry carries the given id and copies title, description and priority from the issue |
| `Caching.RememberAll` | linear_cache.py:131-134 | after a list is stored, the permanent tier holds every earlier entry unchanged, plus an entry for each issue with a non-empty id and no other key; each new entry is under its own id |
| `Caching.RememberAllFirstSeen` | linear_cache.py:96-104 | a newly cached id holds the fields of the FIRST issue in the list with that id; later duplicates do not overwrite it |
| `Caching.ByStatus` | linear_cache.py:186-188 | with a non-empty status, the client returns the state filter of the cached issues (exactly those in that state, in order, by `WithStateAppend`); without one it returns the cached list as is |
| `Caching.LinearCache.constructor` | linear_cache.py:31-54 | starts with the loaded permanent tier (empty when there is no readable file), no session entries, no calls, nothing saved |
| `Caching.LinearCache.TrackApiCall` | linear_cache.py:68-82 | counts exactly one call; keeps exactly the stamps after `now - 3600`, `now` included; returns the number kept (at least 1) and warns exactly when more than 1200 remain; changes nothing else |
| `Caching.LinearCache.GetCachedIssue` | linear_cache.py:84-89 | returns the permanent entry exactly when the id is in the permanent tier |
| `Caching.LinearCache.CacheIssue` | linear_cache.py:91-104 | write-once: a present id leaves the tier and the file alone; a new id gets its entry, no other key changes, and the tier is saved |
| `Caching.LinearCache.SaveCache` | linear_cache.py:56-66 | the file holds the current permanent tier |
| `Caching.LinearCache.GetSessionIssues` | linear_cache.py:106-121 | returns the stored list exactly when the project has an entry younger than 300 s (one exactly 300 s old is stale), and changes nothing |
| `Caching.LinearCache.CacheSessionIssues` | linear_cache.py:123-134 | overwrites the project's entry with the list and `now`; the permanent tier becomes `RememberAll` of the old one; the file is saved when the tier grew; the rate state is untouched |
| `Caching.LinearCache.InvalidateSessionCache` | linear_cache.py:136-141 | removes only the project's session key (a no-op when absent); the permanent tier and the rate state are untouched |
| `Caching.LinearCache.GetApiStats` | linear_cache.py:143-152 | reports the session call count, the calls of the last hour, the 1500 limit, their percentage and the permanent-tier size |
| `Caching.CachedLinearClient.constructor` | linear_cache.py:168-170 | the client holds the given cache and tool prefix, `"mcp__linear__"` by default |
| `Caching.CachedLinearClient.ListIssues` | linear_cache.py:172-201 | a fresh non-empty session list answers with no call, filtered by status; no entry, a stale entry or an empty list counts exactly one call and returns `[]` |
| `Caching.CachedLinearClient.GetIssue` | linear_cache.py:203-220 | a permanent hit returns the entry with no call; a miss counts exactly one call and returns None |
| `Caching.CachedLinearClient.UpdateIssue` | linear_cache.py:222-231 | as written: counts exactly one call and changes nothing else, so the session list is left in place |
| `Caching.CachedLinearClient.UpdateIssueInProject` | linear_cache.py:222-231 | counts exactly one call and removes the project's session list, as the docstring promises |
| `Caching.CachedLinearClient.CreateComment` | linear_cache.py:233-236 | always counts exactly one call and caches nothing |
| `CacheScenarios.WriteOnce` | linear_cache.py:91-104 | caching an id with data A and then with data B still answers A |
| `CacheScenarios.SessionFreshness` | linear_cache.py:114-121 | a stored list is served while younger than 300 s and is gone from the 300th second on |
| `CacheScenarios.Invalidation` | linear_cache.py:136-141 | after invalidating project p, p's list is gone while another project's fresh list is still served |
| `CacheScenarios.ListFillsPermanentTier` | linear_cache.py:131-134 | after a list is stored, `get_issue` on any issue of it with an id answers from the cache with no call |
| `CacheScenarios.ListThroughClient` | linear_cache.py:182-201 | a miss returns `[]` at the cost of one call; after the list is stored, the same request is answered filtered by state, with no further call |
| `CacheScenarios.EmptyListIsAMiss` | linear_cache.py:184 | an empty stored list is returned by the cache, yet the client treats it as a miss and counts a call |
| `CacheScenarios.StaleAfterUpdate` | linear_cache.py:226-231 | as written, a list stored before `update_issue` is still served afterwards |
| `CacheScenarios.FreshAfterUpdate` | linear_cache.py:224 | with invalidation, no list survives an update of the project |
| `CacheScenarios.RateWarning` | linear_cache.py:74-80 | more than 1200 calls made in time order within one hour all stay in the window, and the last one raises the warning |
| `CacheScenarios.HourOldCallIsPruned` | linear_cache.py:75-76 | a call exactly 3600 s older than the current one is pruned |
| `Enhanced.Rank` | linear_enhanced.py:41-67 | each milestone key sits at its own position in the ordered table |
| `Enhanced.FirstAbove` | linear_enhanced.py:146-147 | the scan stops at the first entry whose target is strictly above the percentage; every earlier target is at or below it |
| `Enhanced.DetermineCurrentMilestone` | linear_enhanced.py:144-161 | returns a table entry; every earlier target is at or below the percentage; its own target is above it, unless it is `complete` |
| `Enhanced.MilestoneMonotone` | linear_enhanced.py:144-161 | the milestone never moves back as the percentage grows |
| `Enhanced.MilestoneAtTargets` | linear_enhanced.py:146-147 | a percentage equal to a target belongs to the next milestone: 10 gives `core`, 40 gives `features` |
| `Enhanced.MilestoneRanges` | linear_enhanced.py:144-161 | below 10 gives `setup`; 95 or more gives `complete`; the target is 100 exactly from 95 on |
| `Enhanced.DetermineHealthStatus` | linear_enhanced.py:163-184 | `on_track` exactly when velocity > 0.8, errors < 5 and progress > 20; otherwise `at_risk` exactly when velocity > 0.3 and errors < 10; otherwise `off_track` |
| `Enhanced.HealthMonotone` | linear_enhanced.py:175-184 | more progress, more velocity and fewer errors never give a worse state |
| `Enhanced.HealthExamples` | linear_enhanced.py:175-184 | (50, 1.0, 0) is on track, (50, 0.5, 3) at risk, (50, 0.1, 20) off track |
| `Enhanced.CountsPartition` | linear_enhanced.py:113-116 | every issue is counted exactly once among done, in progress and not started |
| `Enhanced.ProgressPercentage` | linear_enhanced.py:120 | 0 without issues; otherwise the percentage times the total is 100 × (completed + 0.25 × in progress) |
| `Enhanced.PercentageBounds` | linear_enhanced.py:120 | the weighted percentage lies in [0, 100] |
| `Enhanced.Velocity` | linear_enhanced.py:123-124 | velocity is non-negative; it equals the completed count when `session_count` is absent, 0 when the count is 0 or less, and otherwise velocity times sessions equals completed |
| `Enhanced.EstimatedDays` | linear_enhanced.py:127-132 | the day count is the whole part of remaining / velocity * 0.5 |
| `Enhanced.EstimatedCompletion` | linear_enhanced.py:127-132 | `"Unknown"` exactly when velocity is 0 or less; otherwise the rendered day count followed by `" days"` |
| `Enhanced.CalculateProgress` | linear_enhanced.py:95-142 | total, done and in-progress counts; todo counts every issue in neither state (no state included) and the three add up to the total; the percentage is `ProgressPercentage` of those counts, in [0, 100], and 0 with no issues; velocity and estimate as above |
| `Enhanced.ProgressMonotone` | linear_enhanced.py:120 | moving one issue from not started to In Progress, or from In Progress to Done, strictly raises the percentage |
| `Enhanced.EndToEnd` | linear_enhanced.py:113-132 | 10 issues, 4 done, 2 in progress, 2 sessions: 45%, velocity 2, 4 todo, `"1 days"` |
| `Enhanced.EndToEndPhase` | linear_enhanced.py:144-184 | at 45% with velocity 2 and no errors: milestone `features`, health `on_track` |
| `Enhanced.PriorityLabel` | linear_enhanced.py:259 | the label lookup succeeds exactly for priorities -3..4: 1..4 in order, 0..-3 wrapping from the end; anything else is `IndexError` |
| `Enhanced.InsertByPriority` | linear_enhanced.py:250 | inserting keeps every element and adds exactly the new one |
| `Enhanced.InsertKeepsSorted` | linear_enhanced.py:250 | inserting into a list sorted by priority keeps it sorted |
| `Enhanced.SortByPriority` | linear_enhanced.py:250 | the sorted list is a permutation of the input, in non-decreasing priority (missing = 4) |
| `Enhanced.SortIsStable` | linear_enhanced.py:250 | among issues of equal priority the sort keeps input order |
| `Enhanced.TopTodoSelects` | linear_enhanced.py:249-254 | at most three issues, three whenever there are that many Todo issues, all of them Todo issues of the input, in priority order |
| `Enhanced.TopTodoIsMostUrgent` | linear_enhanced.py:249-252 | no Todo issue left out of the top three is more urgent than one that was picked |
| `Enhanced.PriorityLines` | linear_enhanced.py:256-261 | succeeds exactly when every picked issue has a label, with one line per issue in order |
| `Enhanced.PriorityLinesFailEarly` | linear_enhanced.py:257-259 | once an issue's label lookup fails, the whole list fails with that issue's error |
| `Enhanced.GenerateNextPriorities` | linear_enhanced.py:242-263 | the all-completed message when no issue is Todo; otherwise the lines of the top three joined by newlines, or the first label error |
| `Enhanced.AllCompletedIffNoTodo` | linear_enhanced.py:253-263 | a joined list of lines never equals the all-completed message, so that message means no Todo issue |
| `Enhanced.KnownPrioritiesNeverFail` | linear_enhanced.py:257-259 | when every Todo priority is in 1..4 or missing, no label lookup fails |
| `Enhanced.CreateInitializerSummary` | linear_enhanced.py:265-290 | `initialized` is true, `session_count` 0, empty health and velocity histories, no session history, the milestone table, and the given id, name, total, priority map and flag |
| `Enhanced.SessionsReplay` | linear_enhanced.py:292-320 | from the initializer's record, n logged sessions leave the n summaries in order, n entries in each other history, and a session count of n; the project identity is untouched |
| `Enhanced.VelocityPerLoggedSession` | linear_enhanced.py:298 | once sessions are logged, velocity is completed issues per logged session |
| `Enhanced.EnhancedLinearIntegration.constructor` | linear_enhanced.py:83-88 | starts from the loaded record, or from the empty record without a file |
| `Enhanced.EnhancedLinearIntegration.UpdateSessionHistory` | linear_enhanced.py:292-320 | appends exactly one entry to each history (creating a missing one, defaulting health to `"unknown"` and numbers to 0), sets `session_count` to the history length, keeps earlier entries and other keys, and saves |
| `Enhanced.EnhancedLinearIntegration.SaveProjectData` | linear_enhanced.py:90-93 | the file holds the current record |

## Left out

- JSON files: reading and writing `.linear_cache.json` and `.linear_project.json` become a constructor argument and a ghost snapshot. Serialisation, the `last_updated` stamp and I/O failures are not modelled.
- `metadata_cache`: it is only loaded and saved, never read or written otherwise.
- All `print` output, including the text of the rate warning. Only the warning condition is modelled.
- `round(..., 1)` and `round(..., 2)` on the reported percentage and velocity: display rounding of floats. The model keeps the exact values.
- `generate_session_summary` and `generate_progress_report`: markdown and emoji text formatting around `datetime.now()`.
- `LABEL_CATEGORIES`: a constant table that no modelled operation reads.
- `create_cached_linear_helper`: a factory that only calls the `LinearCache` constructor.
- The `agent_client` parameter, the `**kwargs` of `update_issue`, and the remote fetches: the source never uses them or leaves them as placeholders.
- `autonomous_agent_optimized.py` and `security_yolo.py` are not part of this model. They are the orchestration loop and the configuration of an external agent SDK.
- Dynamic typing: a `state` that is present but not a dictionary, or a `priority` that is present but null or not an integer, would raise in the source. Each key is modelled as absent or well-typed.
- Session summaries keep only the four keys the histories read.
- Caching.LinearCache.CacheSessionIssues: gives every issue of one list the same `cached_at` stamp, while the source reads the clock once per issue.
- Sharing with callers (aliasing) is not captured. `Caching.LinearCache.CacheSessionIssues` stores the caller's own list object, and `Caching.CachedLinearClient.ListIssues` hands that same object back. `Caching.LinearCache.GetCachedIssue` and `Caching.CachedLinearClient.GetIssue` return the permanent tier's own dictionary. In the source, a caller that edits a returned object edits the cache, and the next save writes the edit to disk. So write-once holds there only while callers leave returned objects alone. The model's values make it hold unconditionally.
- Enhanced.EnhancedLinearIntegration.constructor: an unreadable or malformed `.linear_project.json` raises out of the source's constructor (`_load_project_data` has no `try`). The model only distinguishes a loaded record from a missing file.
- Enhanced.EnhancedLinearIntegration.UpdateSessionHistory: a failed write raises out of the source's `_save_project_data` after the in-memory append has happened. The model's save always succeeds. It also gives the health entry and the velocity entry one shared `stamp`, while the source reads the clock once for each.
- The `cache` field of `EnhancedLinearIntegration` is dropped: no modelled operation uses it.
- Enhanced.GenerateNextPriorities: the source's unused `progress` parameter is dropped.
- Enhanced.CreateInitializerSummary: `created_at` is a parameter instead of a clock read, and `milestones` is the ordered milestone table instead of the source's dictionary keyed by milestone name.

## Findings

| source | as written | input that shows it | evidently intended | confidence | as-written member | corrected member |
|---|---|---|---|---|---|---|
| linear_cache.py:222-231 | `update_issue` counts the call, but the line that would invalidate the session list is commented out. It still logs "session cache invalidated", and its docstring says it invalidates. | Store a non-empty list for project P, call `update_issue` on one of its issues, then call `get_session_issues(P)` within 300 s: the pre-update list comes back. | After an update the project's session list is dropped, so the next `list_issues` fetches fresh data. | not executed | `Caching.CachedLinearClient.UpdateIssue`, `CacheScenarios.StaleAfterUpdate` | `Caching.CachedLinearClient.UpdateIssueInProject`, `CacheScenarios.FreshAfterUpdate` |
