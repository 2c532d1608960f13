# Logbook scripts: a Dafny model of their deterministic core

The repository is three Python scripts around a personal "Logbook":

- `scripts/agent_orchestrator.py` gathers tasks from Markdown files with a
  `---` frontmatter block.
- `scripts/logbook-local.py` builds daily reports from task files, Jira,
  Confluence and Slack.
- `scripts/slack-enrichment.py` replies in the Slack thread of a report.

Most of their code is HTTP and LLM plumbing. Inside it sit small
deterministic parsers and classifiers. This project models those and proves
properties of them:

- `wrappers.dfy` (`Wrappers`): the `Option` type.
- `pystr.dfy` (`PyStr`): the Python `str` operations the scripts use.
  These are `strip`/`strip(chars)`, `startswith`/`endswith`, `find` and
  `in`, `split` with and without `maxsplit`, `join`, `replace`, `title`,
  `str(int)` and string `<`.
- `orchestrator.dfy` (`Orchestrator`):
  - `parse_frontmatter` (a line loop filling a dictionary);
  - `read_tasks` (a file loop appending to six lists);
  - the string logic of `load_agent_instructions`;
  - the context-period table of `orchestrate`.
- `dotenv.dfy` (`DotEnv`): the `.env` line rule that both `.env` readers
  share.
- `logbook_config.dfy` (`LogbookConfig`): `load_config`. The `.env` file
  comes first, the environment overrides it, then the defaults apply.
- `logbook_tasks.dfy` (`LogbookTasks`): `read_tasks` of `logbook-local.py`.
  It covers header parsing, status labels, filing into priority and status
  lists, the formatted lists and the backlog count.
- `logbook_fetch.dfy` (`LogbookFetch`): the result shaping of
  `fetch_jira_activity` and `fetch_confluence_activity`, over a given
  response.
- `logbook_slack.dfy` (`LogbookSlack`): `fetch_slack_activity`. It covers the
  per-channel tally, the stable sort and the five busiest channels.
- `enrichment.dfy` (`Enrichment`):
  - `load_env`, as a class over the process environment;
  - the two-pass search of `find_logbook_thread`;
  - the channel summary of `fetch_slack_activity_via_mcp`;
  - `build_enrichment_message`.

Some things are parameters rather than computed:

- file contents and `.env` lines;
- HTTP responses, and a `fetch` function for the per-space Confluence
  request;
- "today": a day number for the orchestrator, a formatted date string for
  the thread search;
- the Confluence `since` timestamp;
- date parsing (`strptime`), a partial function `string -> Option<int>`.

Loops that update state in the scripts are methods with loop invariants,
proved equal to a specification function. The properties are proved about
that function.

Emoji and bullets in the scripts are stored as UTF-8 read in a legacy code
page. The model uses the intended code points, for example U+2022 for the
bullet and U+1F534 for the red circle.

## Model

| member | source | states |
|---|---|---|
| Orchestrator.ParseFrontmatter | scripts/agent_orchestrator.py:151-181 | the method's loop computes exactly `FrontmatterOf(content)`, the dictionary of the frontmatter lines |
| Orchestrator.ReadEntries | scripts/agent_orchestrator.py:163-179 | the line loop leaves the dictionary `Entries(lines)`: each line's entry put in order, later keys overwriting earlier ones |
| Orchestrator.ReadEntry | scripts/agent_orchestrator.py:164-177 | one line's split at the first colon, stripping, unquoting and `null`/empty mapping give `EntryOf(line)` |
| Orchestrator.FrontmatterDelimited | scripts/agent_orchestrator.py:153-160 | there is a frontmatter iff the content starts with `---` and a second `---` follows; it is the stripped text between them |
| Orchestrator.EntryOfParts | scripts/agent_orchestrator.py:164-167 | a line with a colon splits into exactly two parts; the key is the stripped first part, the value comes from the rest |
| Orchestrator.EntryAtFirstColon | scripts/agent_orchestrator.py:165-167 | `key:rest` with a colon-free key gives the stripped key and the value of `rest`, so a value keeps its own colons |
| Orchestrator.EntryNeedsColon | scripts/agent_orchestrator.py:164 | a line without a colon is ignored |
| Orchestrator.ValueUnquoted | scripts/agent_orchestrator.py:169-173 | a value enclosed in one pair of `"` or `'` loses exactly that pair |
| Orchestrator.EntriesKeys | scripts/agent_orchestrator.py:163-179 | a key is in the result iff some line holds it before its first colon |
| Orchestrator.EntriesLastWins | scripts/agent_orchestrator.py:179 | a repeated key takes the value of its last line |
| Orchestrator.DefaultsOnlyWhenAbsent | scripts/agent_orchestrator.py:97-108 | an absent `status` gives `n` and a present one is taken as is; an absent `title` gives the file stem and a present one is taken as is, even None; the priority is `P2` exactly when it is absent or says `P2`; an absent `due_date` is None |
| Orchestrator.ReadTasks | scripts/agent_orchestrator.py:72-148 | the file loop returns exactly `Categorize(files, today, parseDate)` |
| Orchestrator.AddTask | scripts/agent_orchestrator.py:110-146 | one task is appended as `Added` prescribes: blocked, then done, then due buckets, then priority |
| Orchestrator.TasksFromListedFiles | scripts/agent_orchestrator.py:89-110 | every task comes from a file with a non-empty frontmatter, and every such file gives a task |
| Orchestrator.SelectMembers | scripts/agent_orchestrator.py:110-146 | a list holds exactly the tasks that belong to its bucket |
| Orchestrator.Exclusive | scripts/agent_orchestrator.py:116-146 | blocked tasks are only in `blocked_tasks` and `all_tasks`; done tasks only in `all_tasks`; the two due lists are disjoint, as are P0 and P1 |
| Orchestrator.DueByDate | scripts/agent_orchestrator.py:125-146 | for other tasks: due today iff the date is at most today; due this week iff it is in (today, today+7]; no date means neither; P0/P1 by priority |
| Orchestrator.InstructionsAfterHeader | scripts/agent_orchestrator.py:53-59 | content not starting with `#` that has two `---` gives the stripped text after the second |
| Orchestrator.InstructionsWhole | scripts/agent_orchestrator.py:53-61 | content starting with `#`, or with fewer than two `---`, comes back unchanged |
| Orchestrator.AgentInstructions | scripts/agent_orchestrator.py:49-61 | a file starting with `#` comes back unchanged; any other result is the file itself or a text without outer whitespace |
| Orchestrator.ContextPeriod | scripts/agent_orchestrator.py:440-445 | `since_briefing` exactly for `daily-closing`, `7d` exactly for `weekly-review`, `24h` for every other workflow |
| DotEnv.AssignmentParts | scripts/logbook-local.py:50-53 | the key of a `.env` line never holds `=`, since the cut is at the first `=`; key and value carry no outer whitespace |
| DotEnv.AssignmentRoundTrip | scripts/slack-enrichment.py:44-47 | a trimmed key without `=` and not starting with `#`, with a trimmed value, comes back from `key=value` |
| DotEnv.Assignment | scripts/logbook-local.py:50-53 | an assignment's key and value together are shorter than the line, since the `=` is dropped |
| LogbookConfig.LoadConfig | scripts/logbook-local.py:41-72 | the method returns exactly `ConfigOf(envFile, environ, defaultTasksDir)` |
| LogbookConfig.ReadEnvFile | scripts/logbook-local.py:48-53 | the `.env` loop leaves `FileConfig(lines)` |
| LogbookConfig.FileConfigKeys | scripts/logbook-local.py:49-53 | a key is set from the file iff some line assigns it |
| LogbookConfig.FileConfigLastWins | scripts/logbook-local.py:53 | the last line assigning a key gives its value, with `"` and then `'` stripped from both ends |
| LogbookConfig.QuotesStripped | scripts/logbook-local.py:53 | `KEY="v"` sets `v` without its quotes |
| LogbookConfig.OverrideAt | scripts/logbook-local.py:64-66 | the environment loop sets exactly the listed variables that are set and non-empty, and leaves all other keys as they were |
| LogbookConfig.Precedence | scripts/logbook-local.py:41-72 | per key: a listed, non-empty environment variable wins; else the file's value; else the `LLM_MODEL`/`TASKS_DIR` defaults; else absent |
| LogbookTasks.AfterKey | scripts/logbook-local.py:292-297 | for a line starting with `key:`, the part after the first colon is the rest of the line |
| LogbookTasks.ReadHeader | scripts/logbook-local.py:287-299 | the header loop leaves `HeaderOf(content)` |
| LogbookTasks.ReadHeaderLines | scripts/logbook-local.py:291-297 | the line loop leaves `HeaderFold(lines)`: the last `title:`, `priority:` and `status:` lines win |
| LogbookTasks.HeaderLastWins | scripts/logbook-local.py:291-297 | the last line starting with `title:`, `priority:` or `status:` decides that field, as the stripped text after its prefix |
| LogbookTasks.ReadHeaderLine | scripts/logbook-local.py:292-297 | one line updates the header as `HeaderStep` prescribes |
| LogbookTasks.HeaderFree | scripts/logbook-local.py:287-299 | title, priority and status never contain a newline |
| LogbookTasks.StatusEmoji | scripts/logbook-local.py:304 | the white circle is used iff the status is not one of `n`, `s`, `ip`, `b`, `d` |
| LogbookTasks.StatusText | scripts/logbook-local.py:305-306 | `Unknown` iff the status is not a known code, the empty status included; `In Progress` iff it is `s` or `ip` |
| LogbookTasks.FallbackTitleShape | scripts/logbook-local.py:301-302 | the fallback title has the stem's length, has a space where the stem has a hyphen, and keeps no hyphen |
| LogbookTasks.ReadTaskInfo | scripts/logbook-local.py:286-309 | the method builds `InfoOf(f)` |
| LogbookTasks.InfoTitle | scripts/logbook-local.py:301-302 | a task with a non-empty file stem always has a non-empty title |
| LogbookTasks.InfoOneLine | scripts/logbook-local.py:301-309 | with a newline-free stem, every field of the task record is one line |
| LogbookTasks.FileTask | scripts/logbook-local.py:311-317 | one task is filed as `File` prescribes: the intended filing of the Findings row for lines 312-313 |
| LogbookTasks.FileContents | scripts/logbook-local.py:311-317 | filing appends to `all`, to the task's own priority list, and to `blocked`/`done` by status, leaving every other list alone |
| LogbookTasks.FiledContents | scripts/logbook-local.py:280-317 | after all files: `all` is every task in order; each priority list holds the tasks of that priority; `blocked` and `done` hold the tasks of that status |
| LogbookTasks.PriorityAllCountedTwice | scripts/logbook-local.py:311-313 | as written, a task with priority `all` is appended to `all` twice |
| LogbookTasks.FileAsWritten | scripts/logbook-local.py:311-313 | as written, the `all` list gains the task once, or twice when its priority is `all` |
| LogbookTasks.PriorityBlockedCounted | scripts/logbook-local.py:312-315 | as written, a not-started task with priority `blocked` is counted as blocked |
| LogbookTasks.AsWrittenAgrees | scripts/logbook-local.py:311-317 | when no priority is `blocked`, `done` or `all`, the as-written filing equals the corrected one |
| LogbookTasks.FormatTasksLines | scripts/logbook-local.py:319-320 | the short list has one line per task, in order |
| LogbookTasks.FormatTasksDetailedLines | scripts/logbook-local.py:322-323 | the detailed list has one line per task, in order |
| LogbookTasks.CountBacklog | scripts/logbook-local.py:331-332 | the backlog count is at most the number of lines |
| LogbookTasks.CountBacklogAppend | scripts/logbook-local.py:331-332 | the count over two blocks of lines is the sum of their counts |
| LogbookTasks.BacklogItemsText | scripts/logbook-local.py:327-334 | the text is the check-mark `Clear!` iff there is no backlog or it counts 0; otherwise it ends in ` items pending` after the count |
| LogbookTasks.ReadTasks | scripts/logbook-local.py:269-347 | the method returns exactly `SummaryOf(tasksDir, backlog)`, including the empty summary for a missing directory; the filing is the intended one |
| LogbookTasks.SummaryCounts | scripts/logbook-local.py:336-347 | under the intended filing, `total` counts every file; the P0/P1, blocked and done counts are the sizes of those selections; the P0, P1, blocked and detail texts format them |
| LogbookTasks.DetailsPerFile | scripts/logbook-local.py:345 | under the intended filing, with newline-free stems, the details text has one line per task file |
| LogbookTasks.SummaryAgrees | scripts/logbook-local.py:311-347 | when no file gives `blocked`, `done` or `all` as its priority, the report as written equals the report of the intended filing, so every claim above holds for the script as written |
| LogbookFetch.ResolvedCount | scripts/logbook-local.py:168 | the resolved count never exceeds the number of issues |
| LogbookFetch.ResolvedCountAppend | scripts/logbook-local.py:168 | the resolved count over two lists of issues is the sum of their counts |
| LogbookFetch.ResolvedCountAll | scripts/logbook-local.py:168 | every issue is counted iff every issue has a resolution |
| LogbookFetch.JiraCounts | scripts/logbook-local.py:149-178 | not configured or no response: count 0, no issues, no resolved key; otherwise the count is the number of issues and resolved ≤ count |
| LogbookFetch.JiraActivity | scripts/logbook-local.py:142-178 | the count is the number of issues returned, the resolved count never exceeds it, and the data text is never empty |
| LogbookFetch.JiraListsAtMostTen | scripts/logbook-local.py:170-176 | the text has one line for each of the first ten issues |
| LogbookFetch.FirstTen | scripts/logbook-local.py:175 | `[:10]` keeps a prefix of at most ten elements |
| LogbookFetch.Spaces | scripts/logbook-local.py:186 | splitting the space list always gives at least one element |
| LogbookFetch.Recent | scripts/logbook-local.py:207-210 | the recent titles of a space are at most its pages |
| LogbookFetch.ConfluenceActivity | scripts/logbook-local.py:181-218 | the method returns exactly `ConfluenceActivityOf(config, days, since, fetch)` |
| LogbookFetch.CollectPages | scripts/logbook-local.py:198-210 | the space loop collects `PagesOf(spaces, since, fetch)` |
| LogbookFetch.AppendRecent | scripts/logbook-local.py:206-210 | the page loop appends exactly the recent titles of the response |
| LogbookFetch.RecentMembers | scripts/logbook-local.py:207-210 | a title is kept iff some page with that title was updated after `since` |
| LogbookFetch.EarlierSinceKeepsMore | scripts/logbook-local.py:209 | an earlier `since` keeps every title that a later one keeps |
| LogbookFetch.SpacesUnset | scripts/logbook-local.py:186-189 | an unset or empty space list means not configured |
| LogbookFetch.ConfluenceCounts | scripts/logbook-local.py:188-218 | the count is the number of collected pages; not configured means count 0 |
| LogbookFetch.ConfluenceListsAtMostTen | scripts/logbook-local.py:216 | the text has one line for each of the first ten titles |
| LogbookSlack.Names | scripts/logbook-local.py:249-250 | the tally looks at the first twenty matches; a missing channel name is `DM` |
| LogbookSlack.Position | scripts/logbook-local.py:251 | the dictionary lookup finds the first entry with that name, or none |
| LogbookSlack.TallyChannels | scripts/logbook-local.py:248-251 | the tally loop leaves `TallyOf(Names(matches))` |
| LogbookSlack.BumpChannel | scripts/logbook-local.py:251 | one match raises its channel's count by one, or adds the channel with count 1, as `Bump` prescribes |
| LogbookSlack.TallyCounts | scripts/logbook-local.py:248-251 | each channel is in the tally once; its count is the number of its matches; the counts add up to the number of matches looked at |
| LogbookSlack.CountOfEntry | scripts/logbook-local.py:251 | an entry's count is what the dictionary lookup returns for its channel |
| LogbookSlack.SortSorted | scripts/logbook-local.py:255 | the sort orders by descending count and is a permutation of the tally |
| LogbookSlack.SortStable | scripts/logbook-local.py:255 | a tally already in descending order, ties included, is left unchanged |
| LogbookSlack.Top | scripts/logbook-local.py:255 | `[:5]` keeps a prefix of at most five entries |
| LogbookSlack.TopChannels | scripts/logbook-local.py:254-256 | at most five channels, busiest first, none less busy than a channel left out |
| LogbookSlack.SlackActivity | scripts/logbook-local.py:221-266 | the method returns exactly `SlackActivityOf(token, days, response)` |
| LogbookSlack.SlackCountFromTotal | scripts/logbook-local.py:240-258 | a successful search reports the API's `total`; the tally covers at most twenty matches and names a missing channel `DM` |
| LogbookSlack.SlackFailures | scripts/logbook-local.py:226-266 | no token gives `_Slack not configured_`; a failed search gives count 0 and no messages; the scope message appears iff the error is `missing_scope` |
| Enrichment.Environment.constructor | scripts/slack-enrichment.py:38-47 | the environment starts with the given variables |
| Enrichment.Environment.LoadEnv | scripts/slack-enrichment.py:38-47 | the line loop leaves `LoadEnvOf(old(vars), lines)`, stopping at a line `os.environ` refuses |
| Enrichment.Environment.SetDefault | scripts/slack-enrichment.py:47 | `setdefault` changes nothing for a set variable and sets a new one, or raises for an illegal name or value |
| Enrichment.NeverOverwrites | scripts/slack-enrichment.py:47 | a variable already set is never overwritten |
| Enrichment.FirstWins | scripts/slack-enrichment.py:43-47 | a new variable takes its value from the first line that assigns it |
| Enrichment.OnlyAssigned | scripts/slack-enrichment.py:43-47 | every variable added comes from a line that assigns it |
| Enrichment.QuotesKept | scripts/slack-enrichment.py:47 | `KEY="v"` sets `"v"` with its quotes, unlike `load_config` |
| Enrichment.Keywords | scripts/slack-enrichment.py:87-93 | each mode's keywords include its report title; an unknown mode falls back to `Daily Briefing` alone |
| Enrichment.FirstLogbook | scripts/slack-enrichment.py:98-111 | a found message is within the list |
| Enrichment.FirstLogbookIsFirst | scripts/slack-enrichment.py:98-111 | a search pass finds a wanted message, and no earlier message is wanted |
| Enrichment.FirstLogbookAt | scripts/slack-enrichment.py:98-111 | a pass answers message `i` exactly when it is wanted and no earlier one is |
| Enrichment.FirstLogbookNone | scripts/slack-enrichment.py:98-111 | a pass answers nothing when no message is wanted |
| Enrichment.ThreadFailed | scripts/slack-enrichment.py:77-84 | a failed request or an `ok: false` body gives no thread |
| Enrichment.ThreadToday | scripts/slack-enrichment.py:98-105 | the thread is the first message carrying a mode keyword and today's date |
| Enrichment.ThreadFallback | scripts/slack-enrichment.py:107-111 | failing such a message, the thread is the first message carrying a mode keyword |
| Enrichment.ThreadNone | scripts/slack-enrichment.py:98-113 | without any message carrying a mode keyword there is no thread |
| Enrichment.ThreadOf | scripts/slack-enrichment.py:50-113 | a thread is found only in an `ok` response, and it is the `ts` of one of its messages |
| Enrichment.FirstTenNames | scripts/slack-enrichment.py:159-160 | the summary looks at the first ten matches; a missing channel name is `DM` |
| Enrichment.ChannelSummary | scripts/slack-enrichment.py:116-166 | no user token or a failed search gives None; no matches gives the no-activity text; else `Active in N channels` with up to five distinct names from the set |
| Enrichment.CollectChannels | scripts/slack-enrichment.py:156-161 | the loop collects the set of channel names of the first ten matches |
| Enrichment.PickNames | scripts/slack-enrichment.py:164 | the names listed are distinct members of the set, `min(5, N)` of them |
| Enrichment.ChannelCount | scripts/slack-enrichment.py:159-166 | the set has at most ten channels and is non-empty when there are matches, so the last fallback is never reached |
| Enrichment.Prompt | scripts/slack-enrichment.py:229-235 | an unknown mode uses `Analyze my recent Slack activity` |
| Enrichment.EnrichmentShape | scripts/slack-enrichment.py:223-239 | a non-empty activity appears verbatim between the summary header and footer; without one, the message is the mode's prompt |
| Enrichment.EnrichmentInjective | scripts/slack-enrichment.py:223-226 | different activities give different summaries, whatever the mode |
| Enrichment.EnrichmentPathsDiffer | scripts/slack-enrichment.py:223-239 | a summary message never equals a prompt message |
| Enrichment.EnrichmentMessage | scripts/slack-enrichment.py:212-239 | every message starts with the Slack badge, the speech balloon followed by `Slack ` |

## Left out

- Network I/O is not modelled. This covers `api_request`, every `requests` call, `post_to_slack` and `post_thread_reply`. Responses are inputs.
- LLM calls and their prompts are not modelled, because their output is model-generated. This includes the JSON extraction from LLM answers in `agent_orchestrator.py`.
- File system and process access are not modelled: directory globbing, file reads, `.env` existence, the macOS keychain lookup in `get_slack_token`, and the `pip` auto-install. The files are given as their text or their lines. A missing directory or file is `None`.
- The clock is not modelled. `datetime.now()`, `timedelta` and `strftime` become parameters. `strptime("%Y-%m-%d")` is a given partial function from text to a day number.
- The report builders (`generate_daily_briefing`, closing and weekly), the CLI, argparse and all printing are prose assembly and I/O, and are not modelled.
- The order of Python's `set` is not modelled. For the names listed by `fetch_slack_activity_via_mcp`, only membership, distinctness and their number are stated.
- `CONTEXT_CACHE_TTL_MINUTES` is never read, so no cache is modelled.
- Integers are unbounded. No counter in the core can overflow in Python either.
- PyStr.Title: only ASCII letters count as cased. Python's `str.title` also title-cases other Unicode letters.
- Task and response shapes are simplified. A Jira issue's `resolution` is a boolean for its truthiness, and key and summary are strings. A response without `issues` or `results` is `None`. A Slack `total` is a natural number. The `KeyError`s a malformed issue would raise are not modelled.
- LogbookTasks.ReadTasks / FileTask / SummaryOf / SummaryCounts / DetailsPerFile: follow the intended filing of the Findings row for lines 312-313. They differ from the script for a priority of `all`, `blocked` or `done`; `LogbookTasks.SummaryAgrees` shows they agree otherwise.
- LogbookSlack.SortStable: stability is stated for a tally already in order. The general "equal counts keep their order" follows from the insertion definition but is not proved as a lemma.
- Enrichment.Environment.LoadEnv: an illegal name or value stops the loop, as the uncaught `ValueError` would. The exception itself is not modelled. The rule is POSIX `putenv`'s: an empty name, or a NUL in name or value.
- Enrichment.ChannelSummary: the result is stated for some pick of names, since the set order is not determined.

## Findings

| source | as written | input that shows it | evidently intended | confidence | as-written member | corrected member |
|---|---|---|---|---|---|---|
| scripts/logbook-local.py:312-313 | `if priority in tasks` tests the whole `tasks` dictionary, whose keys include `blocked`, `done` and `all` | a task file whose frontmatter says `priority: all` is appended to `tasks["all"]` twice, so `total` counts it twice; `priority: blocked` with status `n` raises `blocked_count` | only the priority lists `P0`-`P3` receive tasks by priority | not executed | LogbookTasks.FileAsWritten, LogbookTasks.PriorityAllCountedTwice | LogbookTasks.File, LogbookTasks.FiledContents |
