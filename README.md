# Confidant project memory, in Dafny

This project models the record-keeping core of the Confidant development
assistant. The assistant is a chat application that keeps notes about the
project it helps with. The model covers three parts.

- **`ProjectManager`** (`project_management.py`). It keeps:
  - meeting logs, requirement-change logs and milestone logs, one JSON file
    per record;
  - a project metadata file that indexes the records.

  It builds each record from the caller's details over fixed defaults, names
  the record `<kind>_<timestamp>_<8 hex digits>` and enters the id in the
  metadata. It also summarises the records of the last N days, renders them
  as a context text, and filters them by a category word. When a project has
  no records yet, it seeds one record of each kind.
- **The chat side** (`web_app.py`):
  - the bounded conversation history, which evicts its oldest turn first;
  - the keyword rule that decides whether a project-assistant exchange is
    logged as a meeting;
  - one `DevAssistant.run` turn. The turn reads the context, adds the user
    turn, asks the model, adds the reply and logs the exchange, with the
    reply cut to 200 characters.
- **`ProjectMemory`** (`project_memory.py`):
  - per-category session logs;
  - a per-category summary that each session extends;
  - a "recent context" text listing the newest sessions across one or all
    categories.

Things outside the program's control are modelled as follows.

- **Directories** are maps from file name to contents. A file is `Parsed`
  JSON or `Malformed`.
- **`os.listdir`** becomes a parameter: a sequence naming every file exactly
  once, in any order.
- **The clock and `uuid4`** become parameters. A `Stamp` carries the
  `%Y%m%d_%H%M%S` text, the instant and the hex suffix.
- **ISO-8601 instants** are integer microsecond ticks counted from `datetime.min`; `datetime.max` is the last representable tick.
- **`str()` of a non-string value** is a `repr` parameter.
- **The language-model call** is a `complete` parameter that returns a reply
  or an error text.

Python exceptions become a `Failure` value. Each operation that can raise
returns a `Result`, or an `Outcome` when there is no other result. Where the
source catches the exception, the model shows what the caller then sees.

Modules:

| module | file | what it models |
|---|---|---|
| `Wrappers` | `wrappers.dfy` | Option, Result and Outcome |
| `Strings` | `strings.dfy` | string helpers: ASCII lower-casing, containment, Python's string order, joining |
| `Json` | `json.dfy` | JSON values and file contents; the exception kinds; `', '.join` and `list.extend` on JSON values |
| `Subsequence` | `subsequence.dfy` | the sub-sequence order that filters produce |
| `ProjectRecords` | `project_records.dfy` | record ids, record construction, the metadata update |
| `ProjectSummary` | `project_summary.dfy` | the directory scans and the N-day summary |
| `ProjectContext` | `project_context.dfy` | the context text and the category filter |
| `ProjectManagement` | `project_management.dfy` | the `ProjectManager` class |
| `WebApp` | `web_app.dfy` | `ConversationManager`, the keyword rule and `DevAssistant.run` |
| `Memory` | `project_memory.dfy` | the `ProjectMemory` class |

## Model

| member | source | states |
|---|---|---|
| ProjectRecords.RecordIdShape | project_management.py:64-65 | A record id starts with its kind prefix and ends with `_` plus the 8 hex digits. Its length is prefix + timestamp + 9. Its file name starts with the prefix and ends in `.json`. |
| ProjectRecords.RecordIdInjective | project_management.py:94-95 | Two ids of one kind are equal only if their timestamp text and hex suffix are both equal. |
| ProjectRecords.RecordIdKindsDiffer | project_management.py:124 | A meeting id, a requirement id and a milestone id are never equal. |
| ProjectRecords.Record | project_management.py:68-77 | A record's keys are id, timestamp and date plus the default keys. The id, timestamp and date come from the stamp. For every default key, the caller's value wins over the default. |
| ProjectRecords.MeetingWithoutDetails | project_management.py:68-77 | A meeting logged with no details has exactly the eight keys. Its five lists are all empty. |
| ProjectRecords.RequirementFields | project_management.py:97-106 | A requirement change takes each caller value, or else the default: category "General", changes [], rationale "", impact [], proposed_by "Unknown". |
| ProjectRecords.MilestoneFields | project_management.py:126-135 | A milestone takes each caller value, or else the default: name "Unnamed Milestone", description "", status "Pending", completion_date null, key_achievements []. |
| ProjectRecords.InitialMetadata | project_management.py:46-53 | New metadata has exactly the six keys. Status is "Active", milestones and key_objectives are empty, and there is no meetings or requirements section. |
| ProjectRecords.Touched | project_management.py:153-167 | The update fails exactly when the file is missing, is not JSON, is not an object, or its section is not a list. On success the section, created if absent, gains the id at its end and `last_updated` is the new instant. No other key changes. |
| ProjectSummary.Load | project_management.py:192-194 | A record file loads exactly when it is a JSON object whose `date` is an instant. The result is that object and its date. |
| ProjectSummary.CollectFailsIff | project_management.py:190-196 | A scan fails exactly when some selected file fails to load. |
| ProjectSummary.CollectSound | project_management.py:208-214 | Every collected record comes from a selected file in the listing, and its date is after the cutoff. |
| ProjectSummary.CollectComplete | project_management.py:199-205 | Every selected, loadable record dated after the cutoff is collected. |
| ProjectSummary.CollectMonotone | project_management.py:179-196 | An earlier cutoff fails exactly when a later one does. When neither fails, the later cutoff's records are a sub-sequence of the earlier cutoff's. |
| ProjectSummary.WindowMonotone | project_management.py:169-216 | When both windows fit the `datetime` range, a summary over more days fails exactly when one over fewer days does, and otherwise keeps every meeting, requirement change and milestone of the shorter one, in the same order. A non-negative shorter window fits whenever the longer one does. |
| ProjectSummary.LoggedMilestoneIsCollected | project_management.py:138-143 | A milestone the manager wrote, dated after the cutoff, is found by the milestone scan of the logs directory. |
| ProjectSummary.LoggedMeetingIsCollected | project_management.py:80-82 | A meeting the manager wrote, dated after the cutoff, is found by the meeting scan. |
| ProjectContext.DatedLinesShape | project_management.py:259-266 | The dated lines fail exactly when some record has a value that `', '.join` rejects. Otherwise there is one bullet line per record, in order: the record's date (or "Unknown Date"), then its list joined with ", ". |
| ProjectContext.MilestoneLinesShape | project_management.py:269-271 | There is one bullet line per milestone, in order, showing its name and status (or their defaults). |
| ProjectContext.RenderFailsIff | project_management.py:251-273 | Rendering the context fails exactly when the meeting lines or the requirement lines fail. |
| ProjectContext.RenderStartsWithHeader | project_management.py:256-259 | A rendered context starts with the "Recent Project Context (Last N days)" heading, then "Meetings:". |
| ProjectContext.RenderEmpty | project_management.py:256-273 | With no records, the context is just the heading and the three section labels. |
| ProjectContext.FilterByCategory | project_management.py:294-307 | The filter keeps a sub-sequence of the records. Every kept record mentions the category, ignoring case, and every record that mentions it is kept, as many times as it occurs. |
| ProjectContext.EmptyCategoryKeepsAll | project_management.py:297 | The empty category keeps every record. |
| ProjectContext.CategoryCaseInsensitive | project_management.py:297 | Lower-casing the category does not change what the filter keeps. |
| ProjectManagement.ScanDirectory | project_management.py:190-196 | The directory loop computes the scan specification `Collect`, including its first error. |
| ProjectManagement.CollectErrorStops | project_management.py:190-196 | Once a prefix of the listing fails, the whole scan fails with that same error. |
| ProjectManagement.DatedLinesErrorStops | project_management.py:260-261 | Once a prefix of the records fails to render, the whole rendering fails with that same error. |
| ProjectManagement.AppendDatedLines | project_management.py:260-266 | The line loop appends exactly the rendered dated lines, or stops at the first error. |
| ProjectManagement.AppendMilestoneLines | project_management.py:270-271 | The loop appends exactly the milestone lines. |
| ProjectManagement.ProjectManager.constructor | project_management.py:11-39 | Afterwards a metadata file exists: the one on disk, or else the initial metadata. A project with any record keeps its directories and that metadata. An empty project gets the seeded meeting, then the seeded requirement change and milestone and their metadata entries as `Seeded` describes, starting from that metadata. |
| ProjectManagement.ProjectManager.InitializeProjectMetadata | project_management.py:45-55 | Initial metadata is written only when there is no metadata file. No record changes. |
| ProjectManagement.ProjectManager.UpdateProjectMetadata | project_management.py:145-167 | The metadata file becomes the `Touched` update, or stays as it was when that raises. No record changes. |
| ProjectManagement.ProjectManager.LogMeeting | project_management.py:57-85 | The meeting file is written under its id, then the id is entered in the metadata's `meetings`. The other directories are unchanged. |
| ProjectManagement.ProjectManager.LogRequirementChange | project_management.py:87-114 | The requirement file is written under its id, then the id is entered in `requirements`. The other directories are unchanged. |
| ProjectManagement.ProjectManager.LogMilestone | project_management.py:116-143 | The milestone file is written to the logs directory under its id, then the id is entered in `milestones`. The other directories are unchanged. |
| ProjectSummary.Cutoff | project_management.py:179 | The cutoff exists exactly when the days fit a `timedelta` and `now` minus that many days lies between `datetime.min` and `datetime.max`; it is then `now` minus the days. A window no longer than the clock's distance from `datetime.min` always fits. |
| ProjectManagement.ProjectManager.GenerateProjectSummary | project_management.py:169-216 | The result is the N-day summary of the three scans, run in the source's order, with the first error as the failure. An out-of-range window raises before any scan. |
| ProjectManagement.ProjectManager.GetRecentContext | project_management.py:240-277 | The result is the rendered context of that summary, or the "Unable to generate project context" text when it raises. The category argument is ignored. |
| ProjectManagement.ProjectManager.GetCategorySummary | project_management.py:279-312 | The result is the 30-day summary with each list filtered by the category, or nothing (`{}`) when the summary raises. |
| ProjectManagement.ProjectManager.InitializeProjectContext | project_management.py:314-373 | When all three directories are empty, it seeds a meeting, then a requirement change, then a milestone (`Seeded`), and the first metadata error stops the rest. Otherwise nothing changes. An existing metadata file is never removed. |
| WebApp.Pushed | web_app.py:47-51 | Adding a turn raises exactly when the history is at or over capacity and empty. Otherwise the result holds between one turn and one more than before. From a history within the capacity it holds exactly min(old length + 1, capacity) turns, so below capacity nothing is evicted and at capacity only one turn is. |
| WebApp.PushedKeepsNewest | web_app.py:47-51 | What an addition keeps is the newest part of old history + new turn, in order: only the oldest turns are evicted. |
| WebApp.AddAllKeepsNewest | web_app.py:47-51 | From an empty history with capacity at least one, the buffer holds the last min(n, capacity) of n added turns, oldest first. |
| WebApp.OverflowEvictsOldest | web_app.py:49-50 | Adding capacity + 1 turns evicts exactly the first one. |
| WebApp.ConversationManager.constructor | web_app.py:43-45 | The history starts empty, the capacity defaults to 20, and the buffer is valid. |
| WebApp.ConversationManager.AddMessage | web_app.py:47-51 | The history becomes `Pushed`, or stays as it was when the pop raises. The capacity is unchanged, and a valid buffer stays valid. |
| WebApp.ConversationManager.GetContextMessages | web_app.py:53-58 | The copy has the same roles and contents in the same order. |
| WebApp.ConversationManager.Reset | web_app.py:60-61 | The history is emptied and the capacity kept. |
| WebApp.AnyKeyword | web_app.py:224 | True exactly when some keyword occurs in the query. |
| WebApp.ProjectInteractionIgnoresCase | web_app.py:218-224 | The keyword rule gives the same answer for a query and its lower-cased form. |
| WebApp.LogProjectInteraction | web_app.py:209-233 | A keyword query logs one meeting with the query and the full reply. Any other query changes nothing. |
| WebApp.ActionItem | web_app.py:116 | The action item is the reply's first min(length, 200) characters plus "...". A short reply is kept whole. |
| WebApp.Turn | web_app.py:81-109 | The user turn is added first. When that raises, the turn is unanswered, the history unchanged, and the reply is the error text for that exception. Otherwise the model sees the history ending with the user turn, and the turn is answered exactly when the model replies. A model error leaves only the user turn added and returns the error text. An answered turn returns the reply, and its history is the old history with the user turn and then the reply added, each addition evicting only the oldest turn. So it ends with the reply, right after the user turn when the capacity is at least two. |
| WebApp.Converse | web_app.py:81-109 | The reply, the new history and whether the turn was answered are exactly those of `Turn` on the old history. The capacity is unchanged. |
| WebApp.DevAssistantRun | web_app.py:70-125 | The system prompt holds the project's recent context. The turn's history and reply are as in `Converse`. After a reply, one meeting with the query and the truncated reply is written and entered in the metadata. No other record changes. |
| Json.JoinText | project_management.py:261 | `', '.join` fails exactly when the value is neither a string nor a list of strings. |
| Json.Iterated | project_memory.py:77 | A list extends by its items, and a string by its characters, one one-character string each, in order. Nothing else is iterable. |
| Memory.Stamped | project_memory.py:36-37 | The logged details carry the given timestamp and category. Every other key keeps its value. |
| Memory.Updated | project_memory.py:56-81 | A missing summary starts with the category and four empty lists. Exactly one session is appended, at the end. Milestones, challenges and todo are extended, in order, by the session's values, and only for keys it carries. The update raises exactly when one of those values cannot be iterated, naming the first such key. |
| Memory.AbsentKeyLeavesList | project_memory.py:76-81 | A session with none of the three keys only appends its session entry. |
| Memory.MergedSound | project_memory.py:120-124 | Every merged session comes from a listed `_summary.json` file. |
| Memory.MergedComplete | project_memory.py:120-124 | Every session of every listed `_summary.json` file is merged. |
| Memory.InsertShape | project_memory.py:127-130 | Inserting keeps the multiset and keeps a newest-first list newest first. |
| Memory.SortShape | project_memory.py:127-130 | The sort is a permutation and its result is newest first by timestamp text. |
| Memory.NewestFirstPairwise | project_memory.py:127-130 | In a newest-first list, every session is at least as new as every later one. |
| Memory.Take | project_memory.py:131 | `[:n]` is a prefix of length min(n, len) for n >= 0 and of length max(0, len + n) for negative n. |
| Memory.RecentShape | project_memory.py:126-131 | The report holds exactly min(n, pool size) sessions for n >= 0. They are newest first and drawn from the pool as a sub-multiset. |
| Memory.RecentKeepsNewest | project_memory.py:126-131 | No session left out of the report is newer than any reported one. |
| Memory.ReportTextShape | project_memory.py:133-135 | With no sessions the text is exactly "Recent Project Context:\n"; every text starts with it, and each further session adds exactly its own line at the end. |
| Memory.LoggedSessionIsCandidate | project_memory.py:69-73 | A session just folded into a category's summary is among that category's candidates for the report. |
| Memory.ProjectMemory.constructor | project_memory.py:7-22 | Existing logs and summaries are kept. |
| Memory.SummaryFileInjective | project_memory.py:53 | Distinct categories never share a `<category>_summary.json` file. |
| Memory.OtherSummariesKept | project_memory.py:84-85 | Writing one category's summary file leaves every other category's summary, or its absence, as it was. |
| Memory.ProjectMemory.GetCategorySummary | project_memory.py:87-102 | The result is the stored summary, or nothing (`{}`) exactly when the category has none. |
| Memory.ProjectMemory.UpdateCategorySummary | project_memory.py:45-85 | The category's summary file becomes the `Updated` summary, or is left as it was when an extension raises. After a successful update, `GetCategorySummary` of the category reads back exactly that summary, and every other category reads back what it did before. Logs are unchanged. |
| Memory.ProjectMemory.LogSession | project_memory.py:24-43 | The stamped details are written to `<timestamp>_<category>_log.json`. The summary is then updated as `UpdateCategorySummary` does, with the same read-back for the category and for every other category. |
| Memory.ProjectMemory.GetRecentContext | project_memory.py:104-137 | The pool is the category's sessions when a non-empty category is given, and otherwise the merged sessions of all summary files in listing order. The text is the heading plus one line for each of the newest `numSessions` sessions of the pool. |
| Memory.ProjectMemory.MergeSummaries | project_memory.py:120-124 | The directory loop gathers exactly the merged sessions `Merged` describes: every `_summary.json` file's sessions, in listing order. |
| Memory.RenderRecent | project_memory.py:133-135 | The rendering loop produces exactly the report text: the heading, then one line per session, in order. |

## Left out

- Real files, directories and JSON text. Each directory is a map, and `json.dump` formatting is not modelled.
- Exception messages. They are approximate: each Python exception is reduced to its kind (`Failure`), and `Describe` gives a readable text. The exact CPython wording is not reproduced.
- Iterating a dict, in `', '.join` or `list.extend`. This is modelled as a type error. Python would iterate the keys.
- `str.lower`. It lower-cases ASCII letters only.
- Floating-point JSON numbers.
- The exact ISO-8601 text of instants. Instants are integer ticks, and records store the tick count.
- `datetime.now()` in `_initialize_project_metadata`. The source reads the clock twice there; the model uses one reading for both `created_at` and `last_updated`. Elsewhere each reading is its own parameter: a `Stamp` carries the `strftime` text, the record's `date` and the metadata's `last_updated` separately.
- `export_project_report`, `ProjectAssistant.run` and `generate_system_prompt`. They are file output and prompt text with no logic beyond the summary already modelled.
- The FastAPI endpoints, the Anthropic client and the module-level globals. The model call is the `complete` parameter, and the shared `ConversationManager` and `ProjectManager` are passed in.
- Concurrent requests and file writes.
- The fallback context in `DevAssistant.run` (web_app.py:75-79). It is unreachable: `get_recent_context` catches every exception itself.
- Memory.ProjectMemory.LogSession: it returns the stamped details instead of mutating the caller's dictionary in place.
- Memory.ProjectMemory.UpdateCategorySummary: it requires a caller-supplied `timestamp` to be a string, as `log_session` always makes it. A non-string timestamp would break the later sort, which is not modelled.
- Summary files written by anything other than `update_category_summary`: a corrupt or hand-edited summary, a summary without `sessions`, or a session without `progress` (the "No details" default). Summaries are typed records here.
- Memory.SortShape: the sort is insertion-based and keeps equal timestamps in their original order, as Python's stable sort does, but stability is not proved.
