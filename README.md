# Agent routing of the Ubik AI assistant, in Dafny

Ubik AI is a command-line assistant. It routes a free-text request to a team of
capability agents: Gmail, Google Calendar, Google Drive, Slack, weather, web
search and Google Maps, plus an optional filesystem agent. This project models
how the routing works and proves properties of the model.

- **Text** (`text.dfy`): the string operations the selector relies on.
  - `str.lower()` on ASCII letters.
  - The substring test `sub in s`.
  - The blanks of `str.isspace()`.
  - The word count `len(s.split())`.
- **Rules** (`rules.dfy`): the rule pass `rule_based_selector`.
  - Each rule is an abstract matcher over the lower-cased request, with its tags and its filesystem flag.
  - The loop unions the tags of all matching rules and ors their flags, with no early exit.
  - Two contextual overrides follow: "search" with "save", and "weather" with "map" or "directions".
  - `Route` is the function that specifies the pass. The imperative `RuleBasedSelector` is proved against it.
- **Patterns** (`patterns.dfy`): the concrete `RULE_PATTERNS` table.
  - Each regular expression is written as a choice of literal phrases.
  - A phrase is preceded by a word boundary or a start-of-text anchor, and optionally followed by a word boundary.
- **HybridSelector** (`hybrid.dfy`): `smart_agent_selector` and `llm_based_selector` of `smart_agent_selector.py`.
  - The cache is a class `SelectorCache` holding the `_selector_cache` dictionary.
  - The selector model is an oracle. Its answer for one call is a parameter: a timeout, a reply that is not JSON, a parsed selection, or another exception.
- **Ubik** (`ubik.dfy`): from `ubik.py`,
  - the `TOOL_ACTIONS`, `OAUTH_APPS` and `NO_AUTH_APPS` tables;
  - ubik's own selector with its parse fallback;
  - `check_connections`;
  - the checks `connect_app` makes before initiating a connection;
  - the status table of `list_connected_apps`;
  - the agent-building loop of `create_dynamic_team`, with its per-tag error handling;
  - the filesystem branch and its fallback;
  - the loops that forward the team's streamed content to standard output.

  Composio, the agent library and the filesystem server are oracles: the model
  takes their answers as parameters (`fetched`, `redirect`, `builds`, and the
  two team runs `fsRun` and `plainRun` with their event streams).
- **Scenarios** (`scenarios.dfy`): concrete requests worked through the model by proof.

Three behaviours of the code are easy to miss, and the model keeps them:

- `ubik.py` routes with its own model-backed selector, not the hybrid one. Its fallback tag `"search"` is not a key of `TOOL_ACTIONS`. A selector reply that is not JSON therefore leads to a team with no members (`Ubik.ParseFailureBuildsNoAgents`).
- `create_dynamic_team` never calls `check_connections`. A missing authorization shows up only as the tool fetch raising for that tag, which is what the `builds` oracle models.
- The cache key is a digest of the exact request text, not of a normalised form. Requests that differ only in case are cached apart.

## Model

| member | source | states |
|---|---|---|
| Text.Lower | smart_agent_selector.py:79 | lower-casing keeps the length of the text |
| Text.LowerExact | smart_agent_selector.py:79 | no capital letter is left; each capital becomes its lower-case letter; every other character is unchanged |
| Text.LowerIdempotent | smart_agent_selector.py:79 | lower-casing twice gives the same text as lower-casing once |
| Text.OccursInTail | smart_agent_selector.py:92-97 | when `sub` does not stand at the front of `s`, it occurs in `s` iff it occurs in `s` without its first character |
| Text.Contains | smart_agent_selector.py:92-97 | the scan `sub in s` succeeds exactly when `sub` stands at some position of `s` |
| Text.WordCount | smart_agent_selector.py:156 | `len(s.split())` is at most the length of `s`, and it is 0 exactly when every character of `s` is a blank |
| Text.WordCountOfWord | smart_agent_selector.py:156 | a non-empty run of non-blanks is one word |
| Text.WordCountJoin | smart_agent_selector.py:156 | joining two texts with one blank adds their word counts |
| Patterns.Search | smart_agent_selector.py:85 | `pattern.search(text)` finds a match only where one of the pattern's phrases occurs in the text, and always finds one when the text is one of the phrases |
| Patterns.GmailAndCalendarGroups | smart_agent_selector.py:26-33 | the two Gmail rules pick only `gmail`, the three calendar rules only `googlecalendar`, and none sets the filesystem flag |
| Patterns.WeatherAndSearchGroups | smart_agent_selector.py:35-41 | the two weather rules pick only `weather`, the two search rules only `composio_search`, and none sets the filesystem flag |
| Patterns.DriveMapsAndSlackGroups | smart_agent_selector.py:43-53 | the Drive, Maps and Slack rules pick only `googledrive`, `google_maps` and `slack` respectively, and none sets the filesystem flag |
| Patterns.RuleTable | smart_agent_selector.py:25-61 | the compiled table has sixteen rules, the fifteen agent rules first; only the last sets the filesystem flag and it carries no tag; every agent rule carries exactly one tag |
| Rules.Route | smart_agent_selector.py:77-99 | the routed tags include every matching rule's tags; the flag is set by any matching filesystem rule; search+save adds `composio_search` and the flag; weather with map/directions adds `google_maps` |
| Rules.MatchedTagsExact | smart_agent_selector.py:84-89 | a tag is collected iff some rule that accepts the lower-cased text carries it (all rules are tried) |
| Rules.MatchedFsExact | smart_agent_selector.py:84-90 | the filesystem flag of the loop is the "or" of the flags of all accepting rules |
| Rules.MatchedTagsSplit | smart_agent_selector.py:84-89 | the tags of a table split in two are the union of the two halves' tags, so rule order does not matter |
| Rules.RouteTagsExact | smart_agent_selector.py:84-97 | a tag is routed iff an accepting rule carries it, or it is `composio_search` and the text has "search" and "save", or it is `google_maps`, some accepting rule carries `weather` and the text has "map" or "directions" |
| Rules.RouteFsExact | smart_agent_selector.py:88-94 | the filesystem flag holds iff some accepting rule has it or the text has both "search" and "save" |
| Rules.RouteIgnoresCase | smart_agent_selector.py:79 | the pass gives the same result for a request and its lower-cased form |
| Rules.ListOf | smart_agent_selector.py:99 | `list(agents)` lists every element of the set once and nothing else |
| Rules.RuleBasedSelector | smart_agent_selector.py:77-99 | the returned list has no duplicates and holds exactly the tags of `Route`; the flag is `Route`'s flag |
| HybridSelector.FallbackNeverEmpty | smart_agent_selector.py:138-142 | the fallback selection is never empty: `["composio_search"]` when the rules found nothing, otherwise exactly the rules' tags, with the rules' filesystem flag |
| HybridSelector.ModelPathCaches | smart_agent_selector.py:145-146 | after the model path returns a selection, the cache maps the request to it; an exception leaves the cache as it was; no other key changes |
| HybridSelector.RepeatHitsCache | smart_agent_selector.py:107-109 | a second model-path call with the same text returns the first call's selection without awaiting the model and leaves the cache unchanged |
| HybridSelector.CacheKeysAreCaseSensitive | smart_agent_selector.py:104 | caching "Check my emails" does not create an entry for "check my emails" |
| HybridSelector.SelectorCache.constructor | smart_agent_selector.py:21 | the cache starts empty |
| HybridSelector.SelectorCache.LlmBasedSelector | smart_agent_selector.py:101-148 | a hit returns the stored selection without the model; a miss awaits the model, stores a parsed reply, falls back to the rules on a timeout or bad JSON and stores that, and stores nothing when another exception propagates |
| HybridSelector.SelectorCache.SmartAgentSelector | smart_agent_selector.py:150-160 | when the rules find tags and the request has at most 7 words, the rule result is returned, the model is not awaited and the cache is unchanged; otherwise the model path runs |
| HybridSelector.RepeatedRequest | smart_agent_selector.py:101-148 | two model-path calls with the same text (the first not raising) return the same selection, and the second does not await the model |
| Ubik.AgentToApp | ubik.py:228-240 | `weather` translates to `weathermap`; every other tag, `google_maps` included, translates to itself |
| Ubik.ToolTags | ubik.py:240-242 | a tag yields an agent iff its app is a key of `TOOL_ACTIONS`; `"search"` does not |
| Ubik.UbikSelector | ubik.py:79-82 | the result is always a JSON object: a parsed reply is used as is, and a reply that is not JSON gives exactly `{"agents": ["search"], "needs_filesystem": False}` |
| Ubik.AnyActive | ubik.py:104-108 | the `any(...)` is true iff some record names the app (ignoring case) with an active status and every earlier record differs; it raises iff the first record that does not differ has a None `appName`, or names the app with a None status; it is false iff every record differs |
| Ubik.AnyActiveOnCompleteRecords | ubik.py:104-108 | when every record has an `appName` and a status, the `any(...)` does not raise, and it is true iff some record names the app and is active |
| Ubik.CheckConnections | ubik.py:85-118 | one entry per requested tag; non-OAuth tags map to True; an OAuth tag maps to True iff the records were fetched and the `any(...)` reaches a matching record before any record that raises |
| Ubik.ConnApp | ubik.py:149 | the record's app name is the first truthy one of `appName`, `app_name` and `app`, and empty iff none is truthy |
| Ubik.ConnId | ubik.py:153 | the connection ID is `id` when truthy, else `connectedAccountId` when truthy, and empty iff neither is |
| Ubik.FindActiveConnection | ubik.py:147-157 | finds nothing iff every record differs; otherwise reports the first record that does not differ: that record itself when it names the app and is active, the exception when its status is None |
| Ubik.FirstDecidedUnique | ubik.py:147-157 | only one record is the first that does not differ |
| Ubik.ConnectApp | ubik.py:136-169 | an app outside `OAUTH_APPS` is turned away and nothing is initiated; a failed fetch reports an error; the first deciding record ends the call before initiating, with that record's connection ID when it is active and with an error when its status is None; when every record differs a connection is initiated and its redirect URL, a missing URL or the error is reported |
| Ubik.ConnectedAppsLastWins | ubik.py:183-194 | the loop raises iff some record filed under a name has a None status; otherwise the dictionary has a key iff some record is filed under it, and the entry is the last such record's |
| Ubik.CollectConnectedApps | ubik.py:183-194 | the loop builds exactly the dictionary of `ConnectedApps`, or raises exactly when that does |
| Ubik.ListConnectedApps | ubik.py:172-213 | nothing is listed iff the fetch fails or the collecting loop raises; otherwise the rows number `OAUTH_APPS + NO_AUTH_APPS` from 1 in order, no-auth apps are connected, an OAuth app is connected iff the last record filed under its name is active, and the ID shown is that record's |
| Ubik.BuildAgents | ubik.py:238-281 | the loop builds exactly `Built` of the selected tags |
| Ubik.BuiltSplit | ubik.py:239-281 | building is per tag and order-preserving: the agents for `a + b` are those for `a` followed by those for `b` |
| Ubik.BuiltMembers | ubik.py:239-281 | an agent is built for a tag iff the tag has tool actions and building it does not raise |
| Ubik.FailureIsIsolated | ubik.py:243-281 | a tag whose agent fails to build costs only that agent: the result equals the team built without that tag |
| Ubik.NothingBuilds | ubik.py:243-281 | when every build raises, no agent is built |
| Ubik.ContentOfSplit | ubik.py:365-370 | forwarding a stream in two parts prints the two parts' content in order |
| Ubik.ContentOfOne | ubik.py:365-370 | a content event prints its text; tool-call and other events print nothing |
| Ubik.Sink.constructor | ubik.py:365-367 | standard output starts empty |
| Ubik.Sink.Write | ubik.py:367 | printing appends the text to what was written |
| Ubik.ForwardContent | ubik.py:365-370 | the loop appends exactly the in-order content of the stream's content events |
| Ubik.CreateDynamicTeam | ubik.py:216-420 | the answering team is the built agents, with the filesystem agent iff it was requested and its run completed; the output is the filesystem team's stream, followed by the plain team's stream when the filesystem branch failed or was not requested; the call raises iff the plain team ran and its run raised |
| Ubik.CompletedRunDoesNotRaise | ubik.py:284-420 | a completed plain run, or a requested filesystem run that completes, ends the call normally; in the latter case the plain run changes neither the output nor the outcome |
| Ubik.PlainFailurePropagates | ubik.py:376-420 | when the plain team runs and raises, the call raises without the filesystem agent in the team, and the output is the filesystem team's stream (when it ran) followed by what the plain team streamed before raising |
| Ubik.BuiltLength | ubik.py:239-281 | at most one agent is built per selected tag, and one for every tag exactly when every tag has tool actions and builds |
| Ubik.TeamSize | ubik.py:239-334 | the team never outnumbers the selected tags plus the filesystem agent; it reaches that size exactly when every selected tag has tool actions and builds, and the filesystem team, when requested, ran to the end |
| Ubik.FilesystemFailureDegrades | ubik.py:372-376 | when the filesystem branch raises, its exception is caught: the call raises only if the plain team's run does, the team is exactly the built agents, and the output is what the filesystem team printed followed by the plain team's answer |
| Ubik.NoFilesystemIgnoresBranch | ubik.py:283-284 | without a filesystem request nothing about the filesystem branch affects the team, the output or whether the call raises |
| Ubik.ParseFailureBuildsNoAgents | ubik.py:79-82 | a selector reply that is not JSON leads to a team with no members, and only the plain team's answer is printed |
| Scenarios.GmailPhrase | smart_agent_selector.py:27 | "check my emails" is one of the phrases of the first Gmail pattern |
| Scenarios.CheckMyEmailsSelectsGmail | smart_agent_selector.py:27 | "check my emails" routes to `gmail` |
| Scenarios.MyEmailsWords | smart_agent_selector.py:156 | "my emails" has two words |
| Scenarios.CheckMyEmailsWords | smart_agent_selector.py:156 | "check my emails" has three words |
| Scenarios.CheckMyEmailsTakesFastPath | smart_agent_selector.py:153-157 | "check my emails" is answered by the rules without the selector model |
| Scenarios.SearchAndSaveSentence | smart_agent_selector.py:92 | "search for the best italian restaurant and save the results" contains both "search" and "save" |
| Scenarios.SearchAndSaveOverride | smart_agent_selector.py:92-94 | that sentence routes to `composio_search` and sets the filesystem flag |
| Scenarios.StreamExample | ubik.py:365-370 | a stream of content "a", a tool call and content "b" prints "ab" |
| Scenarios.OneOfThreeFails | ubik.py:239-281 | for gmail, slack and weather where only slack fails, the team is the Gmail and weather agents, in that order |

## Left out

- Text.Lower: lower-cases ASCII letters only. The model does not cover Python's full Unicode case mapping or the Unicode case equivalences of `re.IGNORECASE`.
- Patterns: `\w` in a word boundary is taken to be ASCII letters, digits and underscore. Python's Unicode word characters are not modelled.
- Patterns.Search: its contract gives a necessary condition (some phrase occurs in the text) and a sufficient one (the text is one of the phrases). The word-boundary and anchor conditions in between are stated by its definition, not by its contract.
- Patterns: every pattern's trailing `.*` and similar tails are dropped. They also match the empty string, so they do not change whether `search` finds a match.
- Rules.RuleBasedSelector: states the elements of `list(agents)` and that each appears once. The order Python gives a set is unspecified, so the model does not fix it.
- Scenarios.CheckMyEmailsSelectsGmail: proves that `gmail` is among the routed tags, not that the routed tag set is exactly `{gmail}`.
- Scenarios.SearchAndSaveOverride: proves membership and the flag, not the exact tag set.
- SHA-256 digest of the cache key: the cache is keyed by the request text itself. This is the same as assuming the digest is injective.
- The asyncio lock, `warmup_cache` and `asyncio.gather`: the cache is modelled sequentially.
- The language-model calls and their one-second timeout: these are the `ModelReply` and `SelectorReply` oracles.
- Ubik.UbikSelector: an exception from the model call propagates, as in the code; that path is not modelled. A reply that parses to JSON but is not an object makes `.get` raise; that path is also not modelled.
- Ubik.SelectorReply: a key that is present is taken to hold a list of strings (`agents`) or a boolean (`needs_filesystem`). A present `null` agents value, which makes the `join` of `create_dynamic_team` raise, and a truthy non-boolean `needs_filesystem`, which enters the filesystem branch, are not modelled.
- HybridSelector.ModelReply: a reply that parses is taken to be a selection object with an agent list and a flag. Other JSON shapes are not modelled.
- Composio toolset and entity calls: modelled as oracles (`fetched`, `redirect`, `builds`).
- Agent, Team, Memory and SqliteStorage construction, and the MCP `npx` filesystem handshake: modelled as oracles (`builds`, `fsRun`, `plainRun`). A team that cannot be constructed is a run that raises before streaming.
- Ubik.CheckConnections: uses one fetched list of records for all tags. The code fetches again for every OAuth tag, so a failure or change between fetches is not modelled.
- Ubik.ConnectApp: the printed messages are reduced to the `ConnectResult` they report.
- Ubik.Handler: the agent's name (the tag in title case) and its instruction prompts are not modelled.
- Printing of banners and status lines, argparse and the credential checks of `main`: these are terminal I/O.
- `list_all_apps` and `process_query`: these only print and wrap the calls above in error handling. The error line `process_query` prints for an exception that leaves `create_dynamic_team` is not modelled; `CreateDynamicTeam` reports that exception as `raised`.
- Clock, timezone and home-directory helpers: they read operating-system state.
- `build.py`: PyInstaller packaging and shell commands. build.py is not part of this model.
