# Quantum materials assistant: a verified model of its core logic

The assistant answers questions about crystalline materials and quantum
simulations. A Streamlit front end sends each question to supervisor and
coordinator agents. These agents route the question by keyword rules or by
a language model's JSON answer. They then call the Materials Project through
a Model Context Protocol (MCP) tool server, started as a subprocess and
spoken to in newline-delimited JSON-RPC 2.0. They also derive DFT
parameters, match POSCAR structures to Materials Project entries, and
generate Qiskit code. A separate Braket MCP server builds quantum circuits,
draws them as text, and submits tasks to Amazon Braket.

This project models the deterministic logic inside that glue, in Dafny:

- **Tool clients.** Both `EnhancedMCPClient` variants are modelled: the
  JSON-RPC framing, the `initialize` handshake, the recovery state machine
  (failure counter, call counter, forced restarts, adaptive timeouts,
  retries), reply normalisation, POSCAR-to-geometry conversion and the
  material search agents.
- **Tool servers.** This covers the environment dispatcher and the
  `structure://` storage of the local, AWS and packaged servers: id
  generation, lookups, result caps and moire truncation. The packaged
  server's tools share the `Structures` functions.
- **Routing and classification.** This covers the supervisors' keyword
  routing, the reading of model answers, formula extraction, intent
  detection in the code generators, and material selection.
- **Workflow coordination.** This covers the dependency loop of both
  coordinators, the `${agent.field}` references between tasks, and the
  five-round agentic refinement loop.
- **Parsers and validators.** This covers POSCAR formulas, identifier
  sanitising, input validation, the generated-code screen, log redaction,
  material-id checks and the DFT parameter rules.
- **Stateful utilities.** These are the rate limiter, the retry decorator,
  the call monitor, the 50-entry log buffer and the debug log.
- **Braket logic.** This covers the circuit data model, the gate dispatch,
  the GHZ, Bell, QFT and VQE gate lists, the task-status mapping, the
  search filters, the ASCII renderer, the circuit classifiers and
  descriptions, the server's tools and the app-side integration.

Code that changes state step by step is modelled as methods with loops or
as classes with fields. Each is proved against a specification function.
Pure rule chains are functions, and lemmas state the properties the code
promises. These outside parts arrive as parameters ("oracles"):

- the subprocess and its replies;
- language-model answers;
- Materials Project answers;
- pymatgen, Qiskit and boto3;
- clocks and hashes.

Python's dynamic values are the `Values.Value` datatype, with Python
truthiness and `dict.get`.

Where the code departs from what it evidently intends (see "## Findings"),
the members that model the program follow the code as written. The intended
reading is a separate definition, with its property proved beside the
as-written one.

## Model

| member | source | states |
|---|---|---|
| JsonRpc.InitializeRequest | utils/enhanced_mcp_client.py:105-119 | the handshake is a JSON-RPC 2.0 request with id 0, method `initialize` and protocol version 2024-11-05 |
| JsonRpc.ToolsCallRequest | utils/enhanced_mcp_client.py:249-257 | every tool call is a JSON-RPC 2.0 request with id 1, method `tools/call`, and the tool name and arguments as params |
| JsonRpc.FrameSplits | utils/enhanced_mcp_client.py:260 | a newline-framed request whose serialisation has no raw newline splits back into exactly that request line |
| JsonRpc.Normalise | utils/enhanced_mcp_client.py:364-372 | the content list is the `content` of a dict result, a list result itself, `[result]` for another truthy result and `[]` for a falsy one |
| JsonRpc.ClassifyReply | utils/enhanced_mcp_client.py:358-384 | an `error` member rejects the reply; otherwise a `result` member gives its normalised content and a reply with neither gives `[]` |
| JsonRpc.ClassifyRetryReply | utils/enhanced_mcp_client.py:193-207 | the retry path reads only `result`: its normalised content, or nothing when it is missing |
| JsonRpc.ClassifyWellFormed | utils/enhanced_mcp_client.py:358-384 | on a response that section 5 of JSON-RPC 2.0 allows, the reply is rejected exactly when it is an error response |
| JsonRpc.RetryAgreesOnWellFormed | utils/enhanced_mcp_client.py:193-207 | the main and the retry classification agree on every well-formed response |
| JsonRpc.ClassificationsDifferOffSpec | utils/enhanced_mcp_client.py:360-362 | a reply with both `result` and `error` is rejected by `call_tool` and accepted by the retry path |
| LocalClient.Restarted | utils/enhanced_mcp_client.py:838-864 | a forced restart terminates any old process and leaves a live one exactly when the launch succeeds; the counters and call time stay as they were |
| LocalClient.RateWait | utils/enhanced_mcp_client.py:212-220 | the pause before a call is never negative and makes the call start exactly `min_call_interval` after the previous one when it came sooner |
| LocalClient.ReadTimeoutRange | utils/enhanced_mcp_client.py:293-302 | the Windows read timeout lies in [20, 90]: max(20, 45 - 10·failures) after failures (20 from the third on), else 90 for moire/supercell, 60 for structure data and 45 otherwise |
| LocalClient.ReadTimeoutMonotone | utils/enhanced_mcp_client.py:295-296 | more consecutive failures never lengthen the read timeout |
| LocalClient.Prepare | utils/enhanced_mcp_client.py:221-246 | the steps before sending keep the call time and make at most three restarts: proactive, failure-limit and health restarts |
| LocalClient.ChooseLine | utils/enhanced_mcp_client.py:345-356 | the line decoded always starts with `{` after stripping: the first line when it does, else the follow-up line |
| LocalClient.RetryShape | utils/enhanced_mcp_client.py:397-425 | each retry attempt k makes one launch and sleeps 2^k seconds, never more attempts than remain; an early return keeps the failure counter and exhaustion adds one or two |
| LocalClient.RetryBackoffs | utils/enhanced_mcp_client.py:401-410 | a whole retry run makes at most `max_retries` attempts, sleeping 1, 2, 4, … seconds |
| LocalClient.RetryCountsWriteFailureTwice | utils/enhanced_mcp_client.py:418-425 | when every attempt's write raises, the exhausted run adds two failures (one on the last attempt, one after the loop) |
| LocalClient.CallRateLimited | utils/enhanced_mcp_client.py:212-220 | successive calls start at least `min_call_interval` apart |
| LocalClient.CallCountRestarts | utils/enhanced_mcp_client.py:221-227 | `call_count` counts the call and drops to 0 once it reaches its limit; with the limit of 1 every call restarts the server |
| LocalClient.PrepareCounts | utils/enhanced_mcp_client.py:221-227 | the proactive restart sets `call_count` to 0 exactly when it has reached its limit, and then launches the server at least once |
| LocalClient.CallKeepsPrepared | utils/enhanced_mcp_client.py:221-395 | after the restarts before sending, the rest of the call neither changes `call_count` nor lowers the number of launches |
| LocalClient.SendKeepsCalls | utils/enhanced_mcp_client.py:248-395 | writing, reading and the retry helper leave `call_count` unchanged and never lower the number of launches |
| LocalClient.FailureLimitResets | utils/enhanced_mcp_client.py:234-237 | reaching `max_consecutive_failures` forces a restart and the call goes on with the counter at 0 |
| LocalClient.UnhealthyCallFails | utils/enhanced_mcp_client.py:240-246 | a server still unhealthy after its restart fails the call without writing: None and one more failure |
| LocalClient.TimeoutKillsServer | utils/enhanced_mcp_client.py:305-325 | a Windows read timeout kills the server, adds exactly one failure and returns None |
| LocalClient.ResultResetsFailures | utils/enhanced_mcp_client.py:364-381 | a reply with a `result` and no `error` returns its normalised content and resets the failure counter |
| LocalClient.ErrorReplyKeepsCounter | utils/enhanced_mcp_client.py:360-362 | a reply with an `error` gives None and leaves the failure counter as it was at sending |
| LocalClient.McpClient.constructor | utils/enhanced_mcp_client.py:25-36 | a new client has no process, call time 0 and zero counters, with interval 1.0 s, failure limit 2 and restart limit 1 |
| LocalClient.McpClient.ServerExited | utils/enhanced_mcp_client.py:832-834 | a running server that exits is seen as exited from then on; nothing else changes |
| LocalClient.McpClient.StopServer | utils/enhanced_mcp_client.py:144-148 | stopping drops the process and changes no counter |
| LocalClient.McpClient.ForceServerRestart | utils/enhanced_mcp_client.py:838-864 | the new state is `Restarted` of the old one, and the monitor records exactly one restart and nothing else |
| LocalClient.McpClient.RetryToolCall | utils/enhanced_mcp_client.py:397-425 | the result and new state are those of `Retry`, and the monitor records one restart per attempt |
| LocalClient.McpClient.PrepareCall | utils/enhanced_mcp_client.py:221-246 | the state after the pre-send restarts is `Prepare`'s, the monitor records the call's start and one restart per launch |
| LocalClient.McpClient.SendRequest | utils/enhanced_mcp_client.py:248-395 | writing, reading and classifying on a healthy server ends as `SendSpec` says, with the retry helper when the exchange raises |
| LocalClient.McpClient.ReadLine | utils/enhanced_mcp_client.py:342-390 | an empty line gives None; otherwise the chosen line is decoded and classified, and a success is counted with the monitor |
| LocalClient.McpClient.CallTool | utils/enhanced_mcp_client.py:209-395 | a whole call ends in the result and state `CallToolSpec` gives, together with its rate-limiting pause and retry sleeps |
| LocalClient.McpClient.HandOverToRetry | utils/enhanced_mcp_client.py:392-395 | When the exchange raises and the platform is not Windows, the request becomes the retry helper's run: the result, the new state and the sleeps are those of `SendSpec`, the call neither succeeds nor times out, and only the restart counter of the monitor moves. |
| LocalClient.RetrySleeps | utils/enhanced_mcp_client.py:401-422 | Retry attempt k sleeps 2^k seconds after one forced restart; the run never takes more attempts than remain and takes all of them when it exhausts them. |
| LocalClient.RetryState | utils/enhanced_mcp_client.py:401-425 | The retry loop keeps the call count and the rate-limit clock; an exhausted run returns nothing and raises the failure counter by one or two, an early return leaves it unchanged on a healthy server. |
| Poscar.ElementLineIndex | utils/enhanced_mcp_client.py:671-674 | the element line is the first of the first seven lines made only of white-space separated element symbols, and no earlier line is one |
| Poscar.ElementSymbols | utils/enhanced_mcp_client.py:670-677 | the element symbols are the words of that line, or `["Si"]` when there is none; never empty |
| Poscar.AtomAt | utils/enhanced_mcp_client.py:683-690 | a coordinate line with fewer than three tokens contributes nothing; otherwise an atom labelled with its element, or a failure when a coordinate is no number |
| Poscar.Steps | utils/enhanced_mcp_client.py:682-687 | row i of the coordinate block is mapped to element `i mod |elements|` |
| Poscar.AtomsUpTo | utils/enhanced_mcp_client.py:680-690 | the atoms collected are one per qualifying row, or nothing once a coordinate cannot be read |
| Poscar.CoordinateRows | utils/enhanced_mcp_client.py:681-682 | the coordinate rows are at most four lines, starting at line 8 |
| Poscar.PoscarToGeometry | utils/enhanced_mcp_client.py:662-694 | the loops compute `Geometry` of the POSCAR text |
| Poscar.FindElementLine | utils/enhanced_mcp_client.py:670-677 | the `for … break` search yields `ElementSymbols` |
| Poscar.FirstIs | utils/enhanced_mcp_client.py:671-674 | the search stops at the first element line |
| Poscar.NoneFound | utils/enhanced_mcp_client.py:676-677 | with no element line among the first seven the default applies |
| Poscar.CollectAtoms | utils/enhanced_mcp_client.py:680-690 | the coordinate loop yields `AtomsUpTo` over all rows, stopping at the first unreadable coordinate |
| Poscar.AtomsFailStay | utils/enhanced_mcp_client.py:689 | once a coordinate fails (the exception leaves the loop) every longer prefix fails too |
| Poscar.ShortPoscarIsEmpty | utils/enhanced_mcp_client.py:665-667 | fewer than eight lines give the empty geometry |
| Poscar.GeometryShape | utils/enhanced_mcp_client.py:680-694 | otherwise the geometry is never empty: the default silicon pair when no atom is produced or a coordinate fails, else at most four atoms joined by "; " |
| Poscar.AtomElementCycles | utils/enhanced_mcp_client.py:683-690 | the atom of row i carries element `i mod n`, and only rows with three tokens count |
| MaterialSelector.LineField | utils/material_selector.py:65-72 | a `[^\n]+` field after its label is found exactly when the label is, and is stripped |
| MaterialSelector.ParseMaterialResult | utils/material_selector.py:54-82 | a hit parses only with a `Material ID: mp-<digits>`; its space group and crystal system are the stripped label fields |
| MaterialSelector.ParseAll | utils/material_selector.py:8-9 | the parsed hits keep input order, each from some input, and are empty exactly when no hit parses |
| MaterialSelector.FirstBySpaceGroup | utils/material_selector.py:27-30 | the first material whose space group contains a preferred token, and none before it does |
| MaterialSelector.FirstBySystem | utils/material_selector.py:33-36 | the first material whose crystal system contains the preferred one, and none before it does |
| MaterialSelector.MostStable | utils/material_selector.py:39-42 | the first material of least formation energy among those that have one |
| MaterialSelector.BySymmetry | utils/material_selector.py:44-49 | the pick is the first material of some system of the order, no material has an earlier system of the order, and no earlier material has that system; none exactly when no material has any of them |
| MaterialSelector.PreferredIndex | utils/material_selector.py:25-36 | priorities 1 and 2 apply only to a formula with a known phase, and fire unless no hit matches that phase |
| MaterialSelector.Choose | utils/material_selector.py:24-52 | the chosen index always names a parsed hit |
| MaterialSelector.SelectBestMatch | utils/material_selector.py:5-52 | None exactly when no hit parses; otherwise the id of the chosen hit |
| MaterialSelector.SelectedIdComesFromInput | utils/material_selector.py:5-52 | the chosen id is that of a hit that parsed and has the `mp-` form |
| MaterialSelector.PreferredSpaceGroupWins | utils/material_selector.py:24-30 | for a formula with a known phase, the first hit with a preferred space group wins |
| MaterialSelector.PreferredSystemWins | utils/material_selector.py:32-36 | with no space-group hit, the first hit in the preferred crystal system wins |
| MaterialSelector.MostStableWins | utils/material_selector.py:38-42 | when no preferred rule fires, the first hit of least formation energy wins |
| MaterialSelector.SymmetryDecides | utils/material_selector.py:44-49 | without preferred hits or energies, the first system in the symmetry order that occurs decides |
| MaterialSelector.FirstHitOtherwise | utils/material_selector.py:51-52 | when no rule fires, the first parsed hit is chosen |
| MaterialSelector.KnownStablePhase | utils/material_selector.py:84-106 | only the seven table formulas are looked up; a lookup that raises or returns nothing gives None |
| Monitor.SuccessRate | utils/mcp_monitor.py:52 | the success rate is 0 before the first call and otherwise exactly 100·successes/calls |
| Monitor.HealthyCountersIntegral | utils/mcp_monitor.py:133-141 | a health check that runs fails exactly when more than five calls were made and fewer than half succeeded, or when there were more than three restarts |
| Monitor.ServerMonitor.constructor | utils/mcp_monitor.py:15-22 | a new monitor starts at the given time with every counter and the last health check at 0 |
| Monitor.ServerMonitor.LogCallStart | utils/mcp_monitor.py:24-27 | the call counter goes up by one and nothing else changes |
| Monitor.ServerMonitor.LogCallSuccess | utils/mcp_monitor.py:29-32 | the success counter goes up by one and nothing else changes |
| Monitor.ServerMonitor.LogCallFailure | utils/mcp_monitor.py:34-37 | the failure counter goes up by one and nothing else changes |
| Monitor.ServerMonitor.LogCallTimeout | utils/mcp_monitor.py:39-42 | the timeout counter goes up by one and nothing else changes |
| Monitor.ServerMonitor.LogServerRestart | utils/mcp_monitor.py:44-47 | the restart counter goes up by one and nothing else changes |
| Monitor.ServerMonitor.GetStats | utils/mcp_monitor.py:49-64 | the statistics report the counters as they are, the uptime since the start in seconds and minutes, and the success rate |
| Monitor.ServerMonitor.HealthCheck | utils/mcp_monitor.py:119-141 | within 30 s of the last check and unforced it answers true and changes nothing; otherwise it records the time and judges the counters, which it never changes |
| RateLimiting.Recent | utils/rate_limiter.py:28 | the pruned history keeps exactly the timestamps after the cutoff, in their order |
| RateLimiting.RecentKeepsSorted | utils/rate_limiter.py:28 | pruning a sorted history leaves it sorted |
| RateLimiting.Decide | utils/rate_limiter.py:27-34 | a call is refused exactly when `max_calls` timestamps remain in the window; a refused call keeps the pruned history and an admitted one appends `now` |
| RateLimiting.HistoryBounded | utils/rate_limiter.py:30-33 | with a fixed positive limit, a key's history never grows past `max_calls` |
| RateLimiting.DeniedIffFull | utils/rate_limiter.py:30-34 | a denied call leaves exactly the pruned history; an admitted one ends it with `now` |
| RateLimiting.HistoryInWindow | utils/rate_limiter.py:28-33 | every timestamp kept lies inside the window that ends at `now` |
| RateLimiting.RateLimiter.constructor | utils/rate_limiter.py:17-18 | a new limiter has no history |
| RateLimiting.RateLimiter.IsAllowed | utils/rate_limiter.py:20-34 | the answer and the key's new history are `Decide`'s, a new key starts empty, and no other key's history changes |
| RateLimiting.RateLimited | utils/rate_limiter.py:39-52 | the key is the correlation id or "anonymous"; a refused call raises TooManyRequestsError with the rate message and never calls the function |
| Decorators.HandleError | utils/mcp_decorators.py:11-26 | a ConnectionError becomes ServiceUnavailableError, a ValueError becomes ValidationError("Invalid input: …"), and everything else passes through |
| Decorators.Backoff | utils/mcp_decorators.py:44 | the pause after attempt k is `min(delay·2^k, RETRY_MAX_DELAY)` for the integer cap from the configuration: never above the cap or the uncapped doubling, one of the two, and negative exactly when the delay or the cap is negative |
| Decorators.Waits | utils/mcp_decorators.py:35-45 | the pauses after the first n failed attempts are the successive backoffs |
| Decorators.FirstSuccess | utils/mcp_decorators.py:35-37 | the first successful attempt, with every earlier one failed |
| Decorators.RetryOnFailure | utils/mcp_decorators.py:28-48 | at most `max_retries + 1` calls; the result is the first success with all earlier attempts failed, else the last attempt's exception; one pause per failed attempt but the last, each the backoff of its attempt and never negative; a negative delay or cap makes the first pause raise the ValueError of `time.sleep` after a single call |
| Decorators.FirstSuccessIs | utils/mcp_decorators.py:35-37 | the first attempt that succeeds is the one returned |
| Decorators.BackoffDoublesUntilCap | utils/mcp_decorators.py:44 | with a non-negative delay, while the doubled delay stays within the cap each pause is exactly twice the previous one |
| Decorators.BackoffMonotone | utils/mcp_decorators.py:44 | with a non-negative delay no pause is shorter than an earlier one, whatever the cap |
| DebugLog.McpOnly | utils/debug_logger.py:110 | the MCP entries of the log, in order, and nothing else |
| DebugLog.ProcessingOnly | utils/debug_logger.py:111 | the processing entries of the log, in order, and nothing else |
| DebugLog.SplitCounts | utils/debug_logger.py:110-111 | every entry is of exactly one of the two kinds |
| DebugLog.FilterAppend | utils/debug_logger.py:29-30 | appending one entry appends it to exactly the list of its kind |
| DebugLog.McpLines | utils/debug_logger.py:116-119 | each MCP entry gives its headline and then its result when it has one |
| DebugLog.ProcessingLines | utils/debug_logger.py:124-127 | each processing entry gives its headline and then its details when it has any |
| DebugLog.FormatOrder | utils/debug_logger.py:102-129 | an empty log gives the fixed notice; otherwise the MCP section, when there is one, comes before the processing section |
| DebugLog.DebugLogger.constructor | utils/debug_logger.py:12-15 | the three lists start empty and consistent |
| DebugLog.DebugLogger.LogMcpCall | utils/debug_logger.py:17-30 | the same entry is appended to `mcp_calls` and to `logs`, keeping the per-kind lists equal to the filtered combined list |
| DebugLog.DebugLogger.LogProcessingStep | utils/debug_logger.py:32-44 | the same entry is appended to `processing_steps` and to `logs`, keeping the lists consistent |
| DebugLog.DebugLogger.LogMcpResponse | utils/debug_logger.py:60-72 | one MCP entry is added, with a result text only when the item count is given and non-zero |
| DebugLog.DebugLogger.Clear | utils/debug_logger.py:156-160 | all three lists become empty |
| LogDisplay.LastN | utils/logging_display.py:27-28 | `s[-n:]`: the last min(n, |s|) elements |
| LogDisplay.McpLogs | utils/logging_display.py:45-47 | the records whose message contains "MCP", in order |
| LogDisplay.McpLogsAppend | utils/logging_display.py:47 | the MCP filter keeps relative order across concatenation |
| LogDisplay.DisplayedMcpLogs | utils/logging_display.py:77-88 | the display shows the last ten MCP records, newest first |
| LogDisplay.LogHandler.constructor | utils/logging_display.py:12-15 | a new handler has an empty buffer |
| LogDisplay.LogHandler.Emit | utils/logging_display.py:17-39 | a formatted record is appended and only the 50 most recent kept; a record that fails to format goes to `handleError` and leaves the buffer as it was |
| LogDisplay.LogHandler.GetLogs | utils/logging_display.py:41-43 | the buffer, never more than 50 records |
| LogDisplay.LogHandler.GetMcpLogs | utils/logging_display.py:45-47 | the buffered records whose message contains "MCP" |
| LogDisplay.DisplaySetup.constructor | utils/logging_display.py:50 | no handler exists before the first setup |
| LogDisplay.DisplaySetup.Setup | utils/logging_display.py:52-75 | the first call creates an empty handler; every later call returns that same handler |
| LogDisplay.BufferIsSuffix | utils/logging_display.py:26-28 | emitting record after record, the buffer is always the last 50 of everything emitted |
| StructuredLog.FilterSensitive | utils/structured_logger.py:49-62 | the keys are kept; a key naming a credential is redacted, a longer string than 100 characters is truncated with a mark, and every other value is kept |
| StructuredLog.FilteredStringsShort | utils/structured_logger.py:57-58 | after filtering no string is longer than 100 characters plus the truncation mark |
| StructuredLog.FilterIdempotent | utils/structured_logger.py:49-62 | filtering twice is filtering once |
| StructuredLog.LogRecord | utils/structured_logger.py:35-45 | the record holds the context, the filtered keyword arguments over it, and the message last |
| StructuredLog.CredentialsNeverLogged | utils/structured_logger.py:43-45 | a credential passed as a keyword argument reaches the record only redacted |
| ConfigValidator.ValidateFormula | utils/config_validator.py:180-189 | an empty formula or one over 100 characters is refused with the length message; otherwise the formula is accepted exactly when its stripped text is non-empty and made only of letters, digits, `-`, parentheses and white space, and the stripped text is returned |
| ConfigValidator.TagEnd | utils/config_validator.py:197 | the closing `>` it finds is the first one after the tag opens and at most 200 body characters on |
| ConfigValidator.RemoveTags | utils/config_validator.py:197 | removing tags never lengthens the query |
| ConfigValidator.RemoveTagsShortens | utils/config_validator.py:197-199 | the substitution changes the length exactly when the query holds a tag |
| ConfigValidator.ValidateQuery | utils/config_validator.py:191-201 | an empty query or one over 5000 characters is refused with the length message; an accepted query is returned stripped and contained no tag |
| ConfigValidator.QueryRefusedIffTag | utils/config_validator.py:196-201 | a query of acceptable length is refused exactly when it holds a tag of at most 200 body characters |
| ConfigValidator.ScriptTagRefused | utils/config_validator.py:196-199 | a `<script>` tag is refused |
| ConfigValidator.PathPrecheck | utils/config_validator.py:203-206 | a path passes the format check exactly when it is non-empty, holds no `..` and does not start with `/` |
| ConfigValidator.ValidatePythonExecutable | utils/config_validator.py:94-119 | a path is accepted exactly when every character is a letter, digit or one of `._/\:-` and it is found on the search path; a bad character gives the "Invalid Python executable path" error |
| ConfigValidator.ExecutableRejectsShellChars | utils/config_validator.py:109-112 | a path holding a space, `;`, `&` or `\|` is never accepted |
| ConfigValidator.MissingNames | utils/config_validator.py:58-64 | each setting's name is listed exactly when that setting is absent or blank |
| ConfigValidator.ValidateCognitoConfig | utils/config_validator.py:19-80 | outside cognito mode with the requirement set the result is the empty map; an error means some setting is missing; a non-empty result holds the three settings stripped |
| CodeSecurity.KeywordImport | utils/code_security.py:28 | a match yields a non-empty word of word characters ending inside the code |
| CodeSecurity.ImportAt | utils/code_security.py:28 | a match yields a non-empty module name and ends after its start |
| CodeSecurity.ImportedModules | utils/code_security.py:28-29 | every module name found is non-empty |
| CodeSecurity.CallFromIff | utils/code_security.py:38 | the call search succeeds exactly when the call pattern occurs at some position from the start on |
| CodeSecurity.Flagged | utils/code_security.py:31-54 | one issue per flagged item at most, and none exactly when no item is flagged |
| CodeSecurity.ModuleIssues | utils/code_security.py:31-34 | no import issue exactly when no imported module is in the dangerous set, ignoring case |
| CodeSecurity.CallIssues | utils/code_security.py:36-39 | no call issue exactly when no dangerous function is called anywhere |
| CodeSecurity.FileIssues | utils/code_security.py:41-45 | no file issue exactly when the lower-cased code contains none of the three file operations |
| CodeSecurity.NetworkIssues | utils/code_security.py:47-54 | no network issue exactly when the lower-cased code contains none of the seven network words |
| CodeSecurity.ValidateCodeSafety | utils/code_security.py:22-60 | the report lists the issues of the four checks in order, is safe exactly when there are none, and rates the risk HIGH exactly when there are some |
| CodeSecurity.AppendFlagged | utils/code_security.py:31-54 | one loop appends exactly the issues of the flagged items to those already found |
| CodeSecurity.SafeIffNothingFound | utils/code_security.py:56-60 | code is rated safe exactly when none of the four checks finds anything |
| CodeSecurity.DangerousCallUnsafe | utils/code_security.py:36-39 | a dangerous call anywhere makes the code unsafe |
| CodeSecurity.SanitizeCodeDisplay | utils/code_security.py:62-73 | empty code stays empty; other code is returned unchanged after the warning header |
| DemoMode.Underscored | demo_mode.py:101 | every space becomes an underscore and nothing else changes |
| DemoMode.Topic | demo_mode.py:103-106 | the H2/VQE entry is chosen exactly when the lower-cased query contains "h2" or "vqe"; otherwise the materials entry |
| DemoMode.GetDemoResponse | demo_mode.py:99-106 | a canned answer exists exactly when the normalised model key is one of the four demo models, and it is the entry for the query's topic |
| DemoMode.AppModelsHaveDemos | demo_mode.py:5-106 | each of the four long model spellings normalises to a key that has canned answers |
| DemoMode.NovaProKey | demo_mode.py:101 | the display name "Nova Pro" normalises to `nova_pro` |
| Structures.Uri | enhanced_mcp_materials/local_server.py:183 | a structure URI always begins with the `structure://` scheme |
| Structures.UriRoundTrip | enhanced_mcp_materials/local_server.py:205 | stripping the scheme from a URI built from an id gives the id back, unless the id itself spells the scheme |
| Structures.SliceStop | enhanced_mcp_materials/local_server.py:127 | where Python's `xs[:k]` stops: `k` clipped to the length, a negative `k` counted from the end and clipped at zero |
| Structures.PyPrefix | enhanced_mcp_materials/local_server.py:127 | `xs[:k]` is a prefix of `xs`, of at most `k` elements when `k` is not negative |
| Structures.Layer | enhanced_mcp_materials/local_server.py:438-457 | a copy of the structure keeps every site's species in order, placed in the given layer |
| Structures.Truncate | enhanced_mcp_materials/local_server.py:461-463 | the sites are cut to a prefix of at most `max_num_atoms`, and left alone when there are no more than that |
| Structures.StackedBilayer | enhanced_mcp_materials/local_server.py:438-470 | the moire structure has at most `max_num_atoms` sites and at most twice the bulk's |
| Structures.StackedBilayerOrder | enhanced_mcp_materials/local_server.py:459-463 | the kept sites are the bottom layer's first, then the top layer's, each in the bulk's order |
| Structures.ScalingMatrix | enhanced_mcp_materials/local_server.py:379 | the requested scaling matrix when one is given, otherwise diag(2,2,2) |
| Structures.StructureDataId | enhanced_mcp_materials/local_server.py:94-101 | a non-empty material id gives `mp_` followed by the id; otherwise the structure's 8-character digest |
| Structures.DataDescription | enhanced_mcp_materials/enhanced_mcp_materials/server.py:45-58 | a full description exactly when the record holds a structure, otherwise the "No structure data" line |
| Structures.PoscarText | enhanced_mcp_materials/enhanced_mcp_materials/server.py:59-64 | a POSCAR file exactly when the record holds a structure, otherwise the empty text |
| Structures.FetchAgreesWithPoscar | enhanced_mcp_materials/enhanced_mcp_materials/server.py:59-64 | fetching a stored entry as POSCAR yields a file exactly when the entry's own POSCAR text is not empty |
| Structures.StoreSearch | enhanced_mcp_materials/local_server.py:127-133 | after the search loop every material is stored under its key without a structure |
| Structures.StoreSearchFrame | enhanced_mcp_materials/local_server.py:127-133 | the search adds no key but those of its materials and leaves every other record as it was |
| Structures.StoreSearchStep | enhanced_mcp_materials/local_server.py:127-133 | one more material stores exactly one more record |
| Structures.KeyDeterminesId | enhanced_mcp_materials/local_server.py:128 | two materials with the same storage key have the same material id |
| Structures.Fetch | enhanced_mcp_materials/local_server.py:195-222 | one content item: "Structure not found" for an unknown id, "No structure data available" for a record without structure, and a file exactly when the record holds a structure |
| Structures.SearchedHasNoData | enhanced_mcp_materials/local_server.py:127-133 | a record stored by a search is found by its URI but holds no structure yet |
| Structures.SelectAfterSearchFetches | enhanced_mcp_materials/local_server.py:176-181 | a select after a search replaces the empty record with one whose structure can be fetched |
| LocalServer.Server.constructor | enhanced_mcp_materials/local_server.py:31 | the structure table starts empty |
| LocalServer.Server.SearchMaterialsByFormula | enhanced_mcp_materials/local_server.py:103-148 | without an API key, on a lookup error or with no results the table is unchanged and the matching message returned; otherwise the first ten results are stored without structure and described in order |
| LocalServer.Server.SelectMaterialById | enhanced_mcp_materials/local_server.py:151-192 | without a key or on an error the table is unchanged; a missing structure gives "Material not found"; a found structure is stored under `mp_<id>` |
| LocalServer.Server.GetStructureData | enhanced_mcp_materials/local_server.py:195-225 | the fetch of the URI from the current table |
| LocalServer.Server.CreateStructure | enhanced_mcp_materials/local_server.py:228-283 | a parse error leaves the table unchanged; a parsed structure is stored under its digest with no material id |
| LocalServer.Server.PlotStructure | enhanced_mcp_materials/local_server.py:286-353 | the image is empty exactly when the URI names no stored structure |
| LocalServer.Server.BuildSupercell | enhanced_mcp_materials/local_server.py:356-407 | an unknown or empty bulk entry leaves the table unchanged with its message; otherwise the supercell made with the requested or default matrix is stored under its digest |
| LocalServer.Server.MoireHomobilayer | enhanced_mcp_materials/local_server.py:410-486 | an unknown or empty bulk entry leaves the table unchanged; otherwise the stacked bilayer cut to `max_num_atoms` is stored under its digest and its URI reported |
| AwsServer.GenerateStructureId | enhanced_mcp_materials/aws_server.py:79-90 | a non-empty material id gives an id starting with `mp-` and no longer than the id plus that prefix; otherwise the digest |
| AwsServer.GenerateStructureIdIgnoresPrefix | enhanced_mcp_materials/aws_server.py:82-84 | a numeric id gives the same structure id with or without its `mp-` prefix |
| AwsServer.NormalizeMaterialId | enhanced_mcp_materials/aws_server.py:233-234 | the id always starts with `mp-`; one that had it is unchanged, one that lacked it gets it in front |
| AwsServer.NormalizeIdempotent | enhanced_mcp_materials/aws_server.py:233-234 | normalising twice is normalising once, and a bare id and its prefixed form normalise alike |
| AwsServer.SelectKey | enhanced_mcp_materials/aws_server.py:122-125 | the table key of a selected material is `mp_` followed by the normalised id |
| AwsServer.ReloadAsWrittenMisnames | enhanced_mcp_materials/aws_server.py:308-310 | as written, the reload of a selected material's key asks for `mp-mp-<n>`, which is not the id that was selected |
| AwsServer.ReloadOfPrefixed | enhanced_mcp_materials/aws_server.py:308-310 | as written, the reload of the key `mp_<rest>`, where `rest` has no underscore, asks for `mp-<rest>` |
| AwsServer.ReloadId | enhanced_mcp_materials/aws_server.py:308-310 | the corrected reading: the id to reload is the key without its `mp_` prefix |
| AwsServer.ReloadIdRoundTrip | enhanced_mcp_materials/aws_server.py:308-325 | with the corrected reading, reloading a selected material's key asks for exactly the id that was selected |
| AwsServer.Reload | enhanced_mcp_materials/aws_server.py:306-330 | for any id function: a present key leaves the table unchanged; otherwise at most that one key is added, only for an `mp_` key with an API key and a found structure, stored under the id the function gives; every existing record is kept |
| AwsServer.RestartedServerReloads | enhanced_mcp_materials/aws_server.py:306-330 | with the corrected id reading, after a restart has emptied the table a selected material's URI still yields its structure file when the Materials Project finds it again |
| AwsServer.RestartedServerLosesSelection | enhanced_mcp_materials/aws_server.py:306-330 | as written, after a restart has emptied the table a selected material's URI answers "Structure not found" whenever `mp-mp-<n>` is not found |
| AwsServer.ForeignKeyNotFound | enhanced_mcp_materials/aws_server.py:306-308 | a missing key that is not an `mp_` key is never reloaded and is reported as not found |
| AwsServer.UltraFastSites | enhanced_mcp_materials/aws_server.py:770-773 | the first `max // 2` sites of the bottom layer, then as many of the top layer; never more than `max_num_atoms` sites |
| AwsServer.BuiltInMoire | enhanced_mcp_materials/aws_server.py:755-808 | the ultra-fast route gives the half-and-half structure, the fallback the stacked bilayer cut to the limit; either way at most `max_num_atoms` sites |
| AwsServer.Diagnostics | enhanced_mcp_materials/aws_server.py:761-807 | three lines on the ultra-fast route, five on the fallback, each starting with the name of one of the two routes |
| AwsServer.MethodTypeAsWritten | enhanced_mcp_materials/aws_server.py:719-723 | diagnostics that mention the ultra-fast marker are reported as ultra-fast |
| AwsServer.MethodTypeAsWrittenAlwaysUltraFast | enhanced_mcp_materials/aws_server.py:719-723 | as written the fallback route is also reported as ultra-fast, because its diagnostics keep the two earlier ultra-fast lines |
| AwsServer.MethodType | enhanced_mcp_materials/aws_server.py:719-723 | the corrected reading: a fallback line makes the type fallback; otherwise an ultra-fast line makes it ultra-fast |
| AwsServer.MethodTypeNamesRoute | enhanced_mcp_materials/aws_server.py:755-808 | the corrected method type names the route that actually ran |
| AwsServer.Server.constructor | enhanced_mcp_materials/aws_server.py:20 | the structure table starts empty |
| AwsServer.Server.SearchMaterialsByFormula | enhanced_mcp_materials/aws_server.py:159-215 | without a key, on a legacy-query failure, on a crash or with no results the table is unchanged and the matching message returned; otherwise the first ten results are stored without structure |
| AwsServer.Server.SelectMaterialById | enhanced_mcp_materials/aws_server.py:218-289 | the normalised id's structure is stored under `mp_<id>`; without a key or a structure the table is unchanged |
| AwsServer.Server.GetStructureData | enhanced_mcp_materials/aws_server.py:292-358 | the table becomes the table reloaded with the id as written (`mp_` replaced by `mp-`) and the reply is the fetch from it |
| AwsServer.Server.BuildSupercell | enhanced_mcp_materials/aws_server.py:554-615 | a missing bulk entry is reported with the available keys and the table unchanged; otherwise the supercell is stored under its digest |
| AwsServer.Server.MoireHomobilayer | enhanced_mcp_materials/aws_server.py:618-752 | a missing or empty bulk entry leaves the table unchanged; an external result is stored and announced; otherwise the built-in structure is stored and the reply starts with the method type as written |
| Dispatcher.Dispatch | enhanced_mcp_materials/server.py:9-14 | the AWS server is chosen exactly when one of the three AWS variables is set non-empty or the application directory exists |
| Dispatcher.DispatchReadsOnlySignals | enhanced_mcp_materials/server.py:9-14 | no other environment variable changes the choice |
| Dispatcher.EmptyVariableIsUnset | enhanced_mcp_materials/server.py:9-14 | a variable set to the empty string counts as unset |
| Dispatcher.StartServer | enhanced_mcp_materials/server.py:6-23 | exactly one server is started, the one the choice names |
| AwsClient.LineVerdict | utils/aws_client.py:99-111 | a line decides the handshake only when it is non-blank and decodes; it is success exactly when Python's `"result" in` the decoded value holds (a key of a dict, a substring of a string, an element of a list), and failure exactly when a dict has `error` but not `result`; any other value, and a number on which `in` raises, decides nothing |
| AwsClient.QuietStep | utils/aws_client.py:89-116 | a poll that decides nothing is skipped |
| AwsClient.ReadyAtGivesReady | utils/aws_client.py:89-119 | a first decisive poll carrying a `result` ends the handshake in success |
| AwsClient.ReadyHasReadyAt | utils/aws_client.py:89-119 | a successful handshake has a first decisive poll that carries a `result` |
| AwsClient.HandshakeReadyIff | utils/aws_client.py:59-123 | the handshake succeeds exactly when, before the 15-second deadline and while the process lives, the first decisive line is a `result` |
| AwsClient.NoiseIsSkipped | utils/aws_client.py:101-114 | blank, undecodable or undecided lines read while waiting change nothing |
| AwsClient.ToolResult | utils/aws_client.py:164-211 | content comes back only when the request was written and a non-empty line read and decoded; a decoded object gets the content its classification gives; any other value gives the empty list exactly when Python's `in` finds neither `error` nor `result` in it, and nothing otherwise |
| AwsClient.AgreesWithLocalClient | utils/aws_client.py:184-205 | a reply that decodes to an object, or does not decode, is classified exactly as the local client classifies it, and so is every reply for which this client returns content |
| AwsClient.NonObjectRepliesFail | utils/aws_client.py:186-211 | a line decoding to a number makes `in` raise, so this client returns nothing, though the object classification would give the empty list |
| AwsClient.TextOf | utils/aws_client.py:258-259 | `item.get("text", "")` succeeds exactly on a dict whose text, if present, is a string; it is that text or the empty text |
| AwsClient.ItemString | utils/aws_client.py:390-396 | a dict's string `text`, the empty text for a dict without one, and `str(item)` for anything else |
| AwsClient.ItemText | utils/aws_client.py:231-236 | a string item is its own text; a dict's string `text` is taken |
| AwsClient.Texts | utils/aws_client.py:230-242 | one text per item, in order |
| AwsClient.MaterialTexts | utils/aws_client.py:228-247 | no content gives no materials; otherwise one text per item in order, unless some item reports a server error, which empties the list; Content that is not a JSON array is read as no content (see Left out). |
| AwsClient.CollectTexts | utils/aws_client.py:229-245 | the loop over the reply items computes exactly the material texts |
| AwsClient.FirstContaining | utils/aws_client.py:286-290 | the first search result mentioning the id: it mentions it, and no earlier one does; none when no result mentions it |
| AwsClient.FindSearchData | utils/aws_client.py:285-290 | the search-result loop finds a result exactly when one mentions the id, and it is the first such |
| AwsClient.TextField | utils/aws_client.py:295-301 | a field is kept only when its stripped text is not empty, and it is the text the selector's line reading gives |
| AwsClient.PreferredText | utils/aws_client.py:293-301 | a text field from the search result when it has one, otherwise from the description |
| AwsClient.ReadNumber | utils/aws_client.py:309-315 | absent exactly when the pattern does not match; a reading is the decimal value of the matched group |
| AwsClient.PreferredNumber | utils/aws_client.py:307-315 | a number from the search result when it has one, otherwise from the description |
| AwsClient.DescriptionData | utils/aws_client.py:274-349 | the record keeps the id, URI and source; formula and crystal system come from the search result first, then the description; no geometry yet |
| AwsClient.ParseMaterialDescription | utils/aws_client.py:274-290 | the search result used is the first one that mentions the material id, when search results are given, and the record is the one that search result and the description determine |
| AwsClient.SearchDataFor | utils/aws_client.py:284-290 | the search result used is one of the given results and mentions the id; none is used only when no result mentions it |
| AwsClient.SearchResultTakesPrecedence | utils/aws_client.py:293-297 | a field the search result supplies wins over the description's |
| AwsClient.DefaultsWhenAbsent | utils/aws_client.py:317-330 | without readable numbers the band gap is 0.0 and the formation energy -3.0 |
| AwsClient.FirstText | utils/aws_client.py:390-397 | text exactly when the reply has at least one item, and it is the first item's text; Content that is not a JSON array is read as no content (see Left out). |
| AwsClient.PairReply | utils/aws_client.py:404-409 | a pair exactly when the reply has at least two items: the texts of the first two; Content that is not a JSON array is read as no content (see Left out). |
| AwsClient.MoireReply | utils/aws_client.py:670-688 | only a first text containing "Moire structure is created" is accepted; the record keeps that text and a `structure://` URI found in it; Content that is not a JSON array is read as no content (see Left out). |
| AwsClient.LocalMoireReplyAccepted | utils/aws_client.py:674 | the reply the local server's moire tool writes is accepted |
| AwsClient.McpClient.constructor | utils/aws_client.py:16-18 | a new client has no server process |
| AwsClient.McpClient.InitializeSession | utils/aws_client.py:84-119 | the polling loop returns true exactly when the handshake ends in success |
| AwsClient.McpClient.StartServer | utils/aws_client.py:20-57 | a launched process is kept whatever the handshake says, and success means the handshake succeeded; a failed launch changes nothing |
| AwsClient.McpClient.StopServer | utils/aws_client.py:125-140 | afterwards there is no server process |
| AwsClient.McpClient.CallTool | utils/aws_client.py:142-217 | without a process nothing is written and nothing returned; otherwise one `tools/call` request is written and its reply classified |
| AwsClient.McpClient.SearchMaterials | utils/aws_client.py:220-247 | no materials without a process; otherwise the material texts of the reply; Content that is not a JSON array is read as no content (see Left out). |
| AwsClient.McpClient.GetMaterialById | utils/aws_client.py:249-272 | a select reply of fewer than two items gives None; items without text raise; otherwise the record is the description parse of the first item with the URI of the second, raising what the parse raises, and its geometry is that of the fetched POSCAR text when a non-empty one comes back; Content that is not a JSON array is read as no content (see Left out). |
| AwsClient.IdSearch | utils/aws_client.py:465-472 | found exactly when the lookup finds a record, which is returned; otherwise the not-found error |
| AwsClient.SelectedSearch | utils/aws_client.py:500-523 | the record of the selector's pick with the results attached, else the plain listing |
| AwsClient.FormulaSearch | utils/aws_client.py:474-526 | no results give "No materials found"; a listing carries the query and all results; a show-all phrase gives the full listing |
| AwsClient.AgentSearch | utils/aws_client.py:460-530 | a query starting with `mp-` is an id search, anything else a formula search |
| AwsClient.FormulaQueryFindsSelected | utils/aws_client.py:502-511 | a material found by a formula query is the one the selector picked, with the search results attached |
| AwsClient.IdQueryIgnoresSearch | utils/aws_client.py:465-472 | an id query never consults the formula search |
| LocalAgent.SearchMaterials | utils/enhanced_mcp_client.py:427-476 | no materials without a server process; otherwise the texts of the reply, emptied by any server-side error; Content that is not a JSON array is read as no content (see Left out). |
| LocalAgent.QueryId | utils/enhanced_mcp_client.py:886-888 | an id found in the query is `mp-` followed by digits |
| LocalAgent.AgentSearch | utils/enhanced_mcp_client.py:880-959 | an `mp-<digits>` anywhere in the query is looked up; otherwise a known stable phase wins; otherwise the formula search runs |
| LocalAgent.StablePhaseWins | utils/enhanced_mcp_client.py:898-904 | a known stable phase is answered whatever the formula search would have found |
| LocalAgent.UnknownFormulaSearches | utils/enhanced_mcp_client.py:906-959 | a formula not in the stable-phase table goes to the formula search |
| LocalAgent.Seed | utils/enhanced_mcp_client.py:1012-1013 | the digits after the first `mp-` when there are some, otherwise the given hash modulo 10000 |
| LocalAgent.FallbackFormula | utils/enhanced_mcp_client.py:1026-1042 | the fixed table wins; otherwise an element when the seed is a multiple of 3, else that element's oxide |
| LocalAgent.FallbackGeometry | utils/enhanced_mcp_client.py:1044-1050 | the geometry begins with the formula's first two characters at the origin |
| LocalAgent.FallbackData | utils/enhanced_mcp_client.py:1008-1069 | band gap, crystal system and formation energy are picked by the seed; the URI names the id; a non-empty error is kept and marks the source as a timeout, an empty or absent one leaves both out |
| LocalAgent.FallbackIgnoresHashForMpIds | utils/enhanced_mcp_client.py:1012-1016 | the same `mp-<n>` id always gives the same record, whatever the hash |
| LocalAgent.SeedOfMpId | utils/enhanced_mcp_client.py:1012-1013 | the seed of `mp-<n>` is `n` |
| LocalAgent.SelectMaterialById | utils/enhanced_mcp_client.py:992-1006 | a dict of more than two keys is kept as it is; anything else becomes the fallback record, which carries the message of an exception exactly when that message is not empty |
| Replies.IndexOf | agents/strands_supervisor.py:103 | the first index of the character, or none when it does not occur |
| Replies.LastIndexOf | agents/strands_supervisor.py:103 | the last index of the character, or none when it does not occur |
| Replies.BraceSpan | agents/strands_supervisor.py:103 | the greedy match exists exactly when some `{` precedes some `}`, and runs from the first `{` to the last `}` |
| Replies.ReadReply | agents/strands_supervisor.py:103-106 | no span, an undecodable span, or the value the span decodes to |
| Replies.NoBraceNoJson | agents/strands_supervisor.py:103-106 | a reply without any `{` never parses |
| Dft.ValidateParameters | agents/dft_parameter_agent.py:88-106 | true exactly when both values read as numbers (a missing key as 0) and 0 < t ≤ 10, 0 ≤ U ≤ 5 and U ≤ 2t |
| Dft.StrictValidate | agents/strands_dft_agent.py:121-128 | true exactly when both values read as numbers and 0 < t < 10, 0 ≤ U < 5 and U ≤ 2t |
| Dft.StrictIsNarrower | agents/strands_dft_agent.py:121-142 | the strict check implies the lenient one, and they disagree only at t = 10 or U = 5 |
| Dft.MissingHoppingFails | agents/dft_parameter_agent.py:92-97 | a dict without `t_hopping` passes neither check |
| Dft.LiteratureDict | agents/dft_parameter_agent.py:16-37 | a table entry's dict holds its t and U and the given source |
| Dft.LiteraturePlausible | agents/dft_parameter_agent.py:16-37 | every literature entry passes both checks |
| Dft.Estimate | agents/dft_parameter_agent.py:62-70 | t is max(1, 4.5·gap) for a gap above 0.1 and 3 otherwise; U is max(0.2, 0.3·\|formation energy\|) |
| Dft.EstimateLowerBounds | agents/dft_parameter_agent.py:64-70 | an estimate always has t ≥ 1 and U ≥ 0.2 |
| Dft.ModerateEstimatePlausible | agents/dft_parameter_agent.py:62-70 | a gap up to 2 eV with a formation energy within 6 eV/atom gives plausible parameters |
| Dft.EstimateFromMpData | agents/dft_parameter_agent.py:55-86 | readable data gives the estimate labelled `MP_estimated`; unreadable data the default 2.0 / 1.0 |
| Dft.ExtractDftParameters | agents/dft_parameter_agent.py:39-53 | a copy of the literature entry for a known material, otherwise the estimate |
| Dft.KnownMaterialPlausible | agents/dft_parameter_agent.py:44-48 | a known material always gets plausible parameters |
| Dft.ParseParameters | agents/strands_dft_agent.py:108-119 | the decoded JSON span of the reply, else the fixed fallback 2.0 / 1.0 |
| Dft.FallbackParameters | agents/strands_dft_agent.py:197-223 | the literature entry relabelled "literature", else the estimate with a band gap defaulting to 1.0 |
| Dft.StrandsExtract | agents/strands_dft_agent.py:67-106 | parameters from the model that pass the strict check are kept; a failed call or a rejected answer gets the fallback |
| Dft.StrandsResultPlausible | agents/strands_dft_agent.py:67-106 | what the Strands agent returns for a known material passes the lenient check |
| Dft.NoJsonKeepsParseFallback | agents/strands_dft_agent.py:108-126 | a reply without JSON is answered with t = 2, U = 1 |
| BaseAgent.SafeMcpCall | agents/base_agent.py:18-29 | no agent gives the service-unavailable error, a missing method the validation error, and a call's outcome passes through the error decorator |
| BaseAgent.ValueErrorBecomesValidation | agents/base_agent.py:18 | a ValueError raised inside the delegated method reaches the caller as a validation error |
| BaseAgent.ValidateMaterialId | agents/base_agent.py:31-40 | accepted exactly when the stripped id is non-empty and starts with `mp-`, and then the stripped id is returned; a blank id gives the empty-id error |
| BaseAgent.ValidateIdempotent | agents/base_agent.py:31-40 | a validated id passes the check again unchanged |
| BaseAgent.ExtractMaterialIdFromResults | agents/base_agent.py:42-48 | an id found is `mp-` followed by digits, and one is found exactly when `Material ID: mp-<digits>` occurs in the text |
| BaseAgent.ExtractedIdOccurs | agents/base_agent.py:45-48 | the id found is written after `Material ID: ` in the text |
| BaseAgent.AgreesWithSelector | agents/base_agent.py:42-48 | the agent scrapes the same id as the material selector's parser |
| Formulas.ElementSymbols | agents/strands_structure_agent.py:216-217 | each symbol is a capital letter, optionally followed by one small letter |
| Formulas.LoneCapital | agents/strands_structure_agent.py:216-217 | a lone capital letter followed by anything but a small letter is a symbol on its own |
| Formulas.CapitalStep | agents/strands_structure_agent.py:216-217 | a capital letter takes the next character with it exactly when that is a small letter |
| Formulas.SymbolsOfConcat | agents/strands_structure_agent.py:216-217 | scanning a concatenation scans each half, unless the first half ends in a capital the second half's small letter would complete |
| StructureAgent.CompareFormulas | agents/strands_structure_agent.py:212-220 | two formulas match exactly when they name the same set of element symbols |
| StructureAgent.BlockOrderIgnored | agents/strands_structure_agent.py:216-218 | swapping two closed element blocks does not change the comparison, so "SiO2" and "O2Si" match |
| StructureAgent.FallbackSearch | agents/strands_structure_agent.py:222-241 | a usable answer to the formula search becomes a success with score 0.6; anything else is the no-match record |
| StructureAgent.ParseMatchResult | agents/strands_structure_agent.py:161-181 | the decoded JSON span; else the first `mp-<digits>` with confidence 0.7; else mp-149 with confidence 0.5 |
| StructureAgent.ValidateWithMp | agents/strands_structure_agent.py:183-210 | match data that is not a dict raises; a usable answer scales the confidence by 0.9 for a matching formula and 0.6 otherwise; a missing answer falls back to the formula search |
| StructureAgent.ErrorRecord | agents/strands_structure_agent.py:158-159 | an error record has status "error" and is truthy |
| StructureAgent.AnalysisMatch | agents/strands_structure_agent.py:128-159 | a failed model call gives an error record; otherwise the validated match; the result is always truthy |
| StructureAgent.MismatchCapsScore | agents/strands_structure_agent.py:194-199 | an answer of confidence 1 whose formula does not match scores only 0.6 |
| StructureAgent.MatchPoscarToMp | agents/strands_structure_agent.py:24-54 | a pymatgen score above 0.8 is returned as it is; two results are averaged, preferring pymatgen's id and data; otherwise the analysis, then pymatgen, then the fallback |
| StructureAgent.CombinedScoreBetween | agents/strands_structure_agent.py:39-41 | a combined score lies between its two parts |
| StructureAgent.ValidateStructureMatch | agents/strands_structure_agent.py:243-258 | accepted exactly when the score exceeds 0.9, or exceeds 0.7 with a truthy RMS distance below 0.2 |
| StructureAgent.ZeroRmsDoesNotHelp | agents/strands_structure_agent.py:252 | an RMS distance of exactly 0 is falsy, so it does not help a score of at most 0.9 |
| StructureAgent.FallbackNeverValidates | agents/strands_structure_agent.py:222-258 | a match found only by the formula-search fallback never passes the quality gate |
| StructureAgent.MismatchNeverValidates | agents/strands_structure_agent.py:194-258 | a model answer with confidence at most 1 passes the gate only when its formula matches |
| PoscarFormula.Part | agents/supervisor_agent.py:290-294 | an element with its count, the count left out when it is "1" |
| PoscarFormula.BuildFormula | agents/supervisor_agent.py:289-295 | the loop over the element and count lines builds exactly the joined parts |
| PoscarFormula.NoCapitalsNoSymbols | agents/strands_structure_agent.py:216 | a string without capital letters holds no element symbol |
| PoscarFormula.SymbolScansAsItself | agents/strands_structure_agent.py:216 | an element symbol scans as itself |
| PoscarFormula.PartScansAsElement | agents/supervisor_agent.py:290-294 | a formula part scans as its element: the count adds no symbol |
| PoscarFormula.FormulaNamesElements | agents/supervisor_agent.py:282-295 | the built formula names exactly the elements of the element line, in order |
| PoscarFormula.Lines | agents/supervisor_agent.py:279 | splitting the stripped text gives at least one line |
| PoscarFormula.ElementLineAt | agents/supervisor_agent.py:280-282 | the first element line among the first ten lines: no earlier line is one, and none exists when nothing is found |
| PoscarFormula.FirstElementLine | agents/supervisor_agent.py:280-282 | the element line at `i` decides once no earlier line is one |
| PoscarFormula.NoElementLine | agents/supervisor_agent.py:280-282 | without an element line in the first ten lines the scan finds nothing |
| PoscarFormula.FormulaAt | agents/supervisor_agent.py:283-296 | the formula read at an element line: elements with counts when the next line has one count per element, else the first element |
| PoscarFormula.ScanElementLines | agents/supervisor_agent.py:280-296 | the scan with its early return finds the formula of the first element line, if any |
| PoscarFormula.ExtractFormulaFromPoscar | agents/supervisor_agent.py:276-299 | the scan's formula, else "Si" |
| PoscarFormula.LeadingSymbol | models/base_model.py:87-88 | a symbol exactly when the line starts with a capital letter; it is a prefix of the line, with the small letter after it when there is one |
| PoscarFormula.LeadingSymbolIsFirstScanned | models/base_model.py:87-88 | the leading symbol is the first symbol a full scan of the line finds |
| PoscarFormula.ExtractFormulaForCode | models/base_model.py:60-91 | the supervisors' scan, then the leading symbol of the first line, then "Si" |
| PoscarFormula.FirstElement | agents/strands_coordinator.py:315-324 | "Si" without an element line; otherwise an element symbol |
| PoscarFormula.CoordinatorAgreesWithSupervisor | agents/strands_coordinator.py:315-324 | the coordinator's formula is the first symbol of the supervisors' formula |
| Supervisor.ProcessQueryRoute | agents/supervisor_agent.py:22-42 | moire words win; a search word routes to the formula search only for a formula that is not an `mp-` id; then creation, visualization and supercell; otherwise the standard lookup |
| Supervisor.RouteIgnoresCase | agents/supervisor_agent.py:22 | routing ignores case |
| Supervisor.IdsAreLookedUp | agents/supervisor_agent.py:28 | an `mp-` formula whose query has no moire, file, plot or supercell words is looked up, whatever search words the query holds |
| Supervisor.Lookup | agents/supervisor_agent.py:48-50 | the answer is used exactly when the search succeeds with a truthy answer that carries no error; otherwise "Material not found" |
| Supervisor.WithStructure | agents/supervisor_agent.py:44-68 | a lookup failure is reported with no tool call; a success needs a truthy structure URI, and a missing URI gives the no-URI error |
| Supervisor.HandleVisualization | agents/supervisor_agent.py:44-68 | success exactly when the lookup yields a structure URI; the plot is then requested at [1, 1, 1] and the three actions reported |
| Supervisor.DimsFrom | agents/supervisor_agent.py:82 | no match means no position from the start holds `AxBxC` |
| Supervisor.Diagonal | agents/supervisor_agent.py:83-85 | a 3×3 matrix with the three numbers on the diagonal and zeros elsewhere |
| Supervisor.SupercellScaling | agents/supervisor_agent.py:80-88 | the first `AxBxC` of the query as diag(A, B, C), else diag(2, 2, 2) |
| Supervisor.RunOfDigits | agents/supervisor_agent.py:82 | a digit run followed by a non-digit is read whole |
| Supervisor.DigitsThenX | agents/supervisor_agent.py:82 | a digit run, an `x` and the rest: the run is read whole and the scan resumes after the `x` |
| Supervisor.DimsOfWrittenSize | agents/supervisor_agent.py:82-85 | a query starting with `AxBxC` asks for diag(A, B, C) |
| Supervisor.HandleSupercell | agents/supervisor_agent.py:70-103 | a success builds the supercell of the looked-up URI with the query's scaling and reports the actions; a lookup failure is reported |
| Supervisor.FirstMaterial | agents/supervisor_agent.py:123-127 | the first table entry named in the query, and no earlier one is |
| Supervisor.TableAvoidsHydrogen | agents/supervisor_agent.py:110-120 | no formula of the 2D-material table is "H2" or "H" |
| Supervisor.MoireFormula | agents/supervisor_agent.py:108-133 | the first 2D material named in the query, else graphene for a hydrogen formula, else the formula itself |
| Supervisor.HandleMoire | agents/supervisor_agent.py:105-168 | the twist angle and spacing default when the query gives none; a success carries the lookup of the overridden formula |
| Supervisor.Len | agents/supervisor_agent.py:176 | `len` of a list is its length; values without a length have none |
| Supervisor.HandleFormulaSearch | agents/supervisor_agent.py:170-183 | no tool call; a raised search is reported; a list answer is returned with its count |
| Supervisor.HandleStructureCreation | agents/supervisor_agent.py:185-207 | a POSCAR query sends the sample structure; a CIF query calls nothing; success reports `created` |
| Supervisor.HandleStandardLookup | agents/supervisor_agent.py:209-223 | no tool call; success exactly when the search gives a usable answer, which is returned with the lookup actions |
| Supervisor.ProcessQuery | agents/supervisor_agent.py:18-42 | the handler the route names |
| Supervisor.MissingMaterialIsError | agents/supervisor_agent.py:48-76 | every handler that looks the material up reports an error when the answer is missing or carries an error |
| Supervisor.PoscarReplyFor | agents/supervisor_agent.py:237-274 | no match gives the no-match reply; a match carries the formula, confidence "high" exactly above 0.9, the DFT agent's parameters and their validation |
| Supervisor.ProcessPoscarQuery | agents/supervisor_agent.py:225-274 | the formula is read from the POSCAR text and the matcher's result for it is turned into the reply |
| Supervisor.LiteratureMatchIsValid | agents/supervisor_agent.py:250-274 | a match to a literature material always carries parameters the DFT agent accepts |
| StrandsSupervisor.ActionRecord | agents/strands_supervisor.py:110-118 | an action record names its action |
| StrandsSupervisor.KeywordAction | agents/strands_supervisor.py:107-118 | moire words pick the moire tool; "search" is chosen exactly when no moire, supercell, plot or search word occurs |
| StrandsSupervisor.ParseAgentResponse | agents/strands_supervisor.py:98-122 | the decoded JSON span; without a span the keyword fallback; an undecodable span means "search" |
| StrandsSupervisor.HandlerUri | agents/strands_supervisor.py:188 | the handlers' URI is the scheme, `mp_`, then the material id |
| StrandsSupervisor.Locate | agents/strands_supervisor.py:215-232 | a falsy search answer is "not found"; success exactly when the search answers, the answer is truthy and an id can be scraped from it, and then that id's detailed data |
| StrandsSupervisor.WithTool | agents/strands_supervisor.py:215-272 | a location failure is reported with no call; otherwise exactly one tool call on the material's URI, and success exactly when it answers |
| StrandsSupervisor.HandleMoire | agents/strands_supervisor.py:144-213 | the rule-based formula override, then the moire tool with the query's angle and spacing or their defaults |
| StrandsSupervisor.HandleSupercell | agents/strands_supervisor.py:215-242 | at most one call, always with the 2×2×2 scaling whatever the query asks |
| StrandsSupervisor.HandleVisualization | agents/strands_supervisor.py:244-272 | the plot is requested at [1, 1, 1], and a success keeps its result |
| StrandsSupervisor.HandleFormulaSearch | agents/strands_supervisor.py:274-293 | no tool call; the detailed data of the scraped id, else the raw results; a raised search is reported |
| Values.PyContains | agents/strands_supervisor.py:301 | Python's `in` tests a dict's keys, a string's substrings and a list's elements, and raises on any other value; on a dict it is the key test |
| StrandsSupervisor.PyLen | agents/strands_supervisor.py:334 | `len` of a list is its length |
| StrandsSupervisor.HandleStandardLookup | agents/strands_supervisor.py:295-342 | no tool call; an `mp-` formula is looked up directly and a falsy answer is "not found"; any other formula goes through the formula search, and no results give the `no_results` record |
| StrandsSupervisor.ExecuteMcpAction | agents/strands_supervisor.py:124-142 | the handler the action names; an unknown action the standard lookup; a non-dict record raises |
| StrandsSupervisor.UndecodableReplyLooksUp | agents/strands_supervisor.py:98-138 | a span that does not decode sends the query to the standard lookup, whatever the reply's words say |
| StrandsSupervisor.FormulaWords | agents/strands_supervisor.py:481-482 | every match is a whole word in the formula shape |
| StrandsSupervisor.LoneFormulaWord | agents/strands_supervisor.py:481-482 | a formula word standing alone is found as itself |
| StrandsSupervisor.TableFormulas | agents/strands_supervisor.py:464-472 | every formula of the query table starts with a capital and is not a jargon word |
| StrandsSupervisor.Candidates | agents/strands_supervisor.py:485 | the intended filter keeps only matches of at most ten characters that are not jargon words |
| StrandsSupervisor.LowerIsNeverJargon | agents/strands_supervisor.py:485 | a lower-cased word is never one of the upper-case jargon words |
| StrandsSupervisor.FilterAsWrittenKeepsJargon | agents/strands_supervisor.py:485 | the filter as written drops nothing but long matches |
| StrandsSupervisor.QueryFormula | agents/strands_supervisor.py:452-495 | an `mp-<digits>` id first, then the first table name, then the first candidate, then "Si" |
| StrandsSupervisor.QueryFormulaShape | agents/strands_supervisor.py:452-495 | with capitalised non-jargon candidates the formula is a non-blank non-jargon word |
| StrandsSupervisor.ExtractFormulaFromQuery | agents/strands_supervisor.py:452-495 | with the intended filter the formula is never blank and never a jargon word |
| StrandsSupervisor.NoIdIn | agents/strands_supervisor.py:457 | no material id occurs in "vqe" |
| StrandsSupervisor.NoTableNameIn | agents/strands_supervisor.py:464-478 | no name of the query table occurs in "vqe" |
| StrandsSupervisor.VqeCandidates | agents/strands_supervisor.py:481-485 | "VQE" is a formula word, kept by the filter as written and dropped by the intended one |
| StrandsSupervisor.JargonSlipsThrough | agents/strands_supervisor.py:485 | the query "VQE" names no material, yet as written its formula, and so the formula `process_query` acts on, is "VQE"; the intended filter falls back to "Si" |
| StrandsSupervisor.QueryFormulaFor | agents/strands_supervisor.py:56-65 | the given formula when it is not blank, else the one the filter as written reads from the query when that is not blank; never blank |
| StrandsSupervisor.ProcessQuery | agents/strands_supervisor.py:54-96 | a failed model call is reported; otherwise the action read from the reply is executed on the formula |
| StrandsSupervisor.ChooseWorkflow | agents/strands_supervisor.py:399-446 | POSCAR analysis exactly when a non-blank POSCAR text is given; otherwise the complex workflow exactly when the complexity answer says so; otherwise the simple one |
| StrandsSupervisor.IntelligentWorkflowDispatch | agents/strands_supervisor.py:395-450 | the result always carries `workflow_used`, naming the workflow chosen, or "Error" when the result could not take it |
| Workflow.AgentsOfAppend | agents/strands_coordinator.py:141-157 | appending a task adds its agent name |
| Workflow.SubsetCard | agents/strands_coordinator.py:141 | a subset has no more elements |
| Workflow.Step | agents/strands_coordinator.py:153-155 | running one task records it as completed, stores its result under its agent name and appends it to the run order |
| Workflow.StepValid | agents/strands_coordinator.py:149-155 | running a ready listed task keeps the loop invariant |
| Workflow.RoundValid | agents/strands_coordinator.py:142-156 | a pass keeps the invariant, only adds completions, and changes nothing when no task is ready |
| Workflow.FewerLeft | agents/strands_coordinator.py:141 | a strictly larger completed set leaves fewer agents to complete |
| Workflow.Schedule | agents/strands_coordinator.py:141-157 | the loop ends with the invariant kept; it finishes exactly when as many agents completed as there are tasks, and is stuck when a pass changes nothing |
| Workflow.RunRound | agents/strands_coordinator.py:142-156 | one pass of the task list computes the pass function |
| Workflow.StartValid | agents/strands_coordinator.py:138-139 | the invariant holds before any task ran |
| Workflow.ScheduleRound | agents/strands_coordinator.py:141-157 | a pass without progress is stuck; otherwise the loop continues from the pass's state |
| Workflow.ExecuteWorkflow | agents/strands_coordinator.py:138-157 | the loop computes the schedule from the empty state |
| Workflow.LastIsNew | agents/strands_coordinator.py:141-155 | in a list of distinct agents the last is not among the earlier ones |
| Workflow.DistinctCount | agents/strands_coordinator.py:141 | distinct agents: as many names as tasks |
| Workflow.AgentCount | agents/strands_coordinator.py:141 | never more agent names than tasks, and as many only when the names are distinct |
| Workflow.ProperSubsetCard | agents/strands_coordinator.py:141 | a proper subset has fewer elements |
| Workflow.ScheduleDone | agents/strands_coordinator.py:141 | once as many agents completed as there are tasks the loop stops |
| Workflow.CompleteState | agents/strands_coordinator.py:141-157 | a valid state with as many completions as tasks ran every task once, and the agents are distinct |
| Workflow.CompletedDeps | agents/strands_coordinator.py:149 | every dependency of a completed task has completed |
| Workflow.FinishedRunsEveryTask | agents/strands_coordinator.py:138-157 | when the loop finishes every listed task ran exactly once, after all of its dependencies, and every agent has a result |
| Workflow.FinishedDepsListed | agents/strands_coordinator.py:138-157 | the loop finishes only when every dependency names a listed task |
| Workflow.UnlistedDependencyIsStuck | agents/strands_coordinator.py:138-157 | a dependency naming no listed task keeps the loop from ever finishing |
| Workflow.OrderedPass | agents/strands_coordinator.py:142-156 | with distinct agents and dependencies on earlier tasks only, one pass runs every task in list order |
| Workflow.OrderedFinishes | agents/strands_coordinator.py:138-157 | such a task list finishes, in list order |
| StrandsCoordinator.StrList | agents/strands_coordinator.py:199 | The default agent list is a Python list holding each name, in order, as a string. |
| StrandsCoordinator.ParseWorkflowPlan | agents/strands_coordinator.py:107-122 | The plan is the decoded brace span of the coordinator's answer when it decodes, and the default three-agent sequential plan otherwise. |
| StrandsCoordinator.AnswerWithoutJsonGivesDefaultPlan | agents/strands_coordinator.py:111-122 | An answer holding no `{` always yields the default plan. |
| StrandsCoordinator.ModeFields | agents/strands_coordinator.py:160-165 | `execution_mode` is always set; it is "parallel_batch" exactly when the plan's sequence is "parallel" and "sequential" exactly otherwise; `performance` is set exactly in the parallel case. |
| StrandsCoordinator.Mapped | agents/strands_coordinator.py:200-204 | Only the short names "structure", "dft" and "quantum" map to an agent; any name that maps is at least three characters long. |
| StrandsCoordinator.CanonicalShape | agents/strands_coordinator.py:173-196 | The three task definitions are in canonical order and each depends only on agents ranked before its own. |
| StrandsCoordinator.Chars | agents/strands_coordinator.py:208 | Iterating a string requested-agents value visits its characters one by one, each as a one-character string. |
| StrandsCoordinator.Requests | agents/strands_coordinator.py:208-211 | For a list of strings the inner loop never errors; an error only arises from an unhashable (list or dict) name met before a match. |
| StrandsCoordinator.StringRequestsNothing | agents/strands_coordinator.py:199-211 | A plan whose "agents" is a string keeps no task, since no single character names an agent. |
| StrandsCoordinator.Filter | agents/strands_coordinator.py:206-213 | Filtering succeeds exactly when every task's inner loop succeeds, and then keeps exactly the tasks whose agent is requested. |
| StrandsCoordinator.FilterKeepsOrder | agents/strands_coordinator.py:206-213 | The kept tasks stay in canonical order. |
| StrandsCoordinator.RankOrderedDistinct | agents/strands_coordinator.py:173-213 | Tasks in strictly increasing canonical rank name distinct agents. |
| StrandsCoordinator.TaskDefinitions | agents/strands_coordinator.py:169-213 | A plan that is not a dict raises; a successful result is a canonically ordered, duplicate-free subset of the three task definitions built from the POSCAR's first element. |
| StrandsCoordinator.RequestedBy | agents/strands_coordinator.py:208-211 | The inner loop with its `break` computes exactly the specification `Keeps`. |
| StrandsCoordinator.FilterStep | agents/strands_coordinator.py:207-211 | One turn of the outer loop: an error stops filtering with that error, a kept task is prepended to the rest, a skipped task leaves the rest as it is. |
| StrandsCoordinator.PrefixedAppend | agents/strands_coordinator.py:210 | Appending a kept task moves it from the remaining result to the kept prefix. |
| StrandsCoordinator.FilterTasks | agents/strands_coordinator.py:206-213 | The outer loop computes exactly the specification `Filter`. |
| StrandsCoordinator.CreateTaskDefinitions | agents/strands_coordinator.py:169-213 | The method builds exactly the task list `TaskDefinitions` specifies. |
| StrandsCoordinator.Reference | agents/strands_coordinator.py:256-261 | A value names an `(agent, field)` pair only when it starts with "${" and its body splits on '.' into exactly two dot-free parts; a value not starting with "${" names nothing. |
| StrandsCoordinator.ReferenceRoundTrip | agents/strands_coordinator.py:256-261 | The text `${agent.field}` for dot-free names parses back to that agent and field. |
| StrandsCoordinator.ResolveReference | agents/strands_coordinator.py:261-262 | A reference becomes the recorded field when the agent's result holds it, and stays as written otherwise. |
| StrandsCoordinator.NonReferenceUnchanged | agents/strands_coordinator.py:263-266 | Non-reference values, and references without exactly two parts, pass through unchanged. |
| StrandsCoordinator.InputsMap | agents/strands_coordinator.py:177-193 | The keys of an inputs dict literal are exactly the keys of its pairs. |
| StrandsCoordinator.InputsMapLookup | agents/strands_coordinator.py:177-193 | Each key maps to its pair's value when no later pair repeats the key. |
| StrandsCoordinator.ResolveAll | agents/strands_coordinator.py:255-266 | Every pair keeps its key and has its value resolved. |
| StrandsCoordinator.ResolveInputs | agents/strands_coordinator.py:252-267 | The loop yields the inputs with every value resolved, under the same keys as the inputs. |
| StrandsCoordinator.GenerateQuantumCode | agents/strands_coordinator.py:269-313 | The status is "success" exactly when the code generator answers; then the record carries the code, the DFT parameters used and the material id. |
| StrandsCoordinator.RunTask | agents/strands_coordinator.py:215-250 | An unknown agent's task completes with a bare status; each of the three known agents' results is recorded under that agent's result key. |
| StrandsCoordinator.Unwrapped | agents/strands_coordinator.py:234-248 | Taking each agent's result out of its result key keeps the same agents. |
| StrandsCoordinator.DftGetsReferenceText | agents/strands_coordinator.py:183 | As written, the DFT extractor receives the literal text "${structure_matcher.material_id}" in place of the matched id. |
| StrandsCoordinator.StructureRecordHasNoMaterialId | agents/strands_coordinator.py:233-234 | The structure task's record never has a "material_id" key, so the reference never resolves as written. |
| StrandsCoordinator.DftGetsMatchedId | agents/strands_coordinator.py:236-241 | Resolving against the agents' own results, the DFT task gets the matched material id. |
| StrandsCoordinator.ExecuteWorkflow | agents/strands_coordinator.py:124-167 | The method produces exactly the run `WorkflowRun` specifies: the dependency loop over the kept tasks with `_execute_task` as written, then the results and execution mode. |
| StrandsCoordinator.PoscarWorkflow | agents/strands_coordinator.py:68-105 | A failing coordinator call returns the error record with its message; otherwise the workflow run of the parsed plan gives its results, its exception's error record, or no return. |
| StrandsCoordinator.RankedDepsEarlier | agents/strands_coordinator.py:138-157 | In a canonically ordered list whose dependencies rank lower and are all listed, each dependency comes earlier. |
| StrandsCoordinator.KeptTasksFinishIff | agents/strands_coordinator.py:141-157 | The kept tasks finish exactly when every dependency is among the kept tasks. |
| StrandsCoordinator.DefaultAgentsKeepAll | agents/strands_coordinator.py:199-213 | The default agent list keeps all three tasks. |
| StrandsCoordinator.DefaultPlanKeepsAll | agents/strands_coordinator.py:117-122 | The default plan keeps all three canonical tasks. |
| StrandsCoordinator.CanonicalDepsEarlier | agents/strands_coordinator.py:173-196 | The canonical tasks name distinct agents and list each dependency before its dependant. |
| StrandsCoordinator.DefaultPlanCompletes | agents/strands_coordinator.py:92-101 | An answer without a plan runs all three tasks, in canonical order, to completion. |
| StrandsCoordinator.DftAloneKeepsDftTask | agents/strands_coordinator.py:206-213 | The agent list ["dft"] keeps only the DFT task. |
| StrandsCoordinator.DftOnlyPlanSpins | agents/strands_coordinator.py:141-157 | A plan asking for the DFT agent alone keeps a task whose dependency was dropped, so the loop never ends. |
| StrandsCoordinator.ExecutionModeIff | agents/strands_coordinator.py:158-165 | In a finished run's results, `execution_mode` is "parallel_batch" exactly when the plan's sequence is "parallel". |
| AwsCoordinator.Registry | agents/aws_strands_coordinator.py:44-45 | The registry holds exactly the names of the configurations registered. |
| AwsCoordinator.RegistryStep | agents/aws_strands_coordinator.py:104-112 | Registering one more configuration on top of an earlier registry sets that name's entry. |
| AwsCoordinator.UnionUpdate | agents/aws_strands_coordinator.py:108 | Updating the newly registered part of a registry updates the whole registry the same way. |
| AwsCoordinator.RegistryOfConfigs | agents/aws_strands_coordinator.py:21-45 | After initialisation the registry maps each of the four configured names to its own entry. |
| AwsCoordinator.RegistryLookup | agents/aws_strands_coordinator.py:104-112 | A registered agent's entry comes from its last registration. |
| AwsCoordinator.ConfigNamesDistinct | agents/aws_strands_coordinator.py:21-42 | The four configured agent names are pairwise distinct. |
| AwsCoordinator.FourAgents | agents/aws_strands_coordinator.py:17-48 | Initialisation registers exactly the supervisor, structure matcher, DFT extractor and quantum simulator: four agents. |
| AwsCoordinator.NamesDiffer | agents/aws_strands_coordinator.py:21-42 | The four agent names, and the three worker names, are all different. |
| AwsCoordinator.AgentsReady | agents/aws_strands_coordinator.py:104-112 | Every configured agent is registered with status "ready", its configured capabilities and its type. |
| AwsCoordinator.PoscarTaskDependencies | agents/aws_strands_coordinator.py:60-86 | The workflow has three tasks: the structure match with no dependency, the DFT extraction after the match, and the simulation after both. |
| AwsCoordinator.SimulatedTask | agents/aws_strands_coordinator.py:141-165 | Each worker returns its fixed simulated result whatever the earlier results; any other agent returns a bare completion. |
| AwsCoordinator.PoscarPass | agents/aws_strands_coordinator.py:122-137 | The first pass of the loop runs all three tasks. |
| AwsCoordinator.AfterPoscarShape | agents/aws_strands_coordinator.py:122-139 | After that pass, the three agents are completed in task order with their simulated results. |
| AwsCoordinator.PoscarWorkflowFinishes | agents/aws_strands_coordinator.py:115-139 | The POSCAR workflow finishes, running its three tasks in order and recording each simulated result. |
| AwsCoordinator.Coordinator.constructor | agents/aws_strands_coordinator.py:12-15 | A new coordinator keeps its configuration, with no agents and an empty workflow state. |
| AwsCoordinator.Coordinator.RegisterAgent | agents/aws_strands_coordinator.py:104-113 | Registering sets that agent's entry and changes nothing else. |
| AwsCoordinator.Coordinator.InitializeAgents | agents/aws_strands_coordinator.py:17-48 | Initialisation reports success and adds the four configured entries; any other agent already registered keeps its entry. |
| AwsCoordinator.Coordinator.ExecuteWorkflow | agents/aws_strands_coordinator.py:115-139 | The loop computes exactly the dependency schedule with the simulated executor. |
| AwsCoordinator.Coordinator.ExecutePoscarWorkflow | agents/aws_strands_coordinator.py:54-98 | The POSCAR workflow returns the three simulated results, keyed by agent name. |
| AgenticLoop.StrList | agents/strands_agentic_loop.py:172 | The default materials list is a Python list with one string per name. |
| AgenticLoop.ParseDecision | agents/strands_agentic_loop.py:99-115 | The decision is the decoded brace span of the model's answer when it decodes, and the fallback decision otherwise. |
| AgenticLoop.UnparsedAnswerIsUnsolved | agents/strands_agentic_loop.py:103-115 | An answer holding no `{` gives the fallback decision, which does not mark the problem solved. |
| AgenticLoop.SingleCall | agents/strands_agentic_loop.py:199-222 | Only non-dict parameters raise; a tool other than the four named makes no call; a moiré, plot or supercell call is made only with a truthy structure URI. |
| AgenticLoop.NoUriNoCall | agents/strands_agentic_loop.py:205-222 | A structure tool without a structure URI calls nothing and reports "action_executed" with the tool's name. |
| AgenticLoop.Iterated | agents/strands_agentic_loop.py:176 | Iterating a list visits its items; iterating a string visits one item per character. |
| AgenticLoop.ExecuteBatch | agents/strands_agentic_loop.py:168-197 | A tool other than "search" creates no invocation, so the batch reports "no_batch_operations" with its message. |
| AgenticLoop.LastActionResultAsWritten | agents/strands_agentic_loop.py:136 | As written, reading the last action result from an empty history raises "list index out of range". |
| AgenticLoop.LastActionResult | agents/strands_agentic_loop.py:136 | The corrected reading gives `{}` for an empty history and agrees with the original otherwise. |
| AgenticLoop.EnhancedActionWith | agents/strands_agentic_loop.py:117-166 | Carrying out a decision fails only when the decision is not a dict; every other failure becomes an error record. |
| AgenticLoop.DefaultActionIsSearch | agents/strands_agentic_loop.py:119-160 | A decision without agent type, tool name or batch flag makes a single "search" MCP action with its params. |
| AgenticLoop.FallbackSearchesSilicon | agents/strands_agentic_loop.py:109-115 | The fallback decision searches for "Si" and returns the tool's answer or its error record. |
| AgenticLoop.UnknownAgentType | agents/strands_agentic_loop.py:162 | An agent type none of the branches names is reported back as "unknown_agent_type". |
| AgenticLoop.FirstRoundDftFails | agents/strands_agentic_loop.py:133-137 | As written, a DFT decision in round 1 always ends in the "list index out of range" error record. |
| AgenticLoop.FirstRoundDftExtracts | agents/strands_agentic_loop.py:133-144 | With an empty history read as `{}`, a round-1 DFT decision reaches the DFT agent with empty material data. |
| AgenticLoop.FirstRoundDftRecordsError | agents/strands_agentic_loop.py:63-92 | As written, a first round that decides on the DFT agent completes with the "list index out of range" error record as its action result. |
| AgenticLoop.GenerateNextQuery | agents/strands_agentic_loop.py:227-255 | A model failure keeps the current query; otherwise an error in the result asks to fix it, then a completed batch asks to analyse it, then DFT parameters ask for the simulation, and else the model's stripped answer is used. |
| AgenticLoop.Entry | agents/strands_agentic_loop.py:71-76 | Each round's record carries its own round number. |
| AgenticLoop.RunRound | agents/strands_agentic_loop.py:63-92 | A round that completes, acting as written on the decision, leaves a record numbered with that round. |
| AgenticLoop.RoundsNumberEntries | agents/strands_agentic_loop.py:63-77 | Every completed round of the loop records its own number. |
| AgenticLoop.LoopShape | agents/strands_agentic_loop.py:36-92 | At most five rounds run; records are numbered from 1; an error round leaves no record and sets the error; a loop that neither solved nor raised ran all five rounds. |
| AgenticLoop.ResultsShape | agents/strands_agentic_loop.py:82-97 | The returned dict always has a status and the records; an error round adds its message. |
| AgenticLoop.LoopFromStart | agents/strands_agentic_loop.py:29-97 | From the first round, any rounds that number their records end after 1 to 5 rounds, with at most five numbered records and a status. |
| AgenticLoop.SolveShape | agents/strands_agentic_loop.py:29-97 | The whole loop ends with a status and at most five numbered records; an error adds "error" and leaves one record fewer than rounds. |
| AgenticLoop.LoopStep | agents/strands_agentic_loop.py:36-92 | One round unfolds as: an exception stops with "error", a solved decision stops with "solved" after recording, otherwise the loop continues with the refined query. |
| AgenticLoop.SolvedInLastRoundReportsMax | agents/strands_agentic_loop.py:94-95 | A problem solved in the fifth round is reported as "max_iterations_reached". |
| AgenticLoop.SolvedEarlyReportsSolved | agents/strands_agentic_loop.py:80-83 | A problem solved before the fifth round is reported as "solved". |
| AgenticLoop.SolveLoop | agents/strands_agentic_loop.py:29-97 | The while-loop computes exactly the specification `Loop`'s results. |
| AgenticLoop.IterativeSolve | agents/strands_agentic_loop.py:29-97 | `iterative_solve` returns a status and at most five records, numbered 1, 2, … in order. |
| BaseModel.Alnums | models/base_model.py:50-58 | Keeping only letters and digits never lengthens a text. |
| BaseModel.AlnumsConcat | models/base_model.py:52-53 | The letters and digits of a concatenation are those of each part, in order. |
| BaseModel.AlnumsLower | models/base_model.py:58 | Lower-casing commutes with keeping the letters and digits. |
| BaseModel.LowerConcat | models/base_model.py:58 | Lower-casing a concatenation lower-cases each part. |
| BaseModel.ReplaceInvalid | models/base_model.py:52 | Replacing each run of other characters by `_` leaves only letters, digits and `_`, and keeps the letters and digits in order. |
| BaseModel.Collapse | models/base_model.py:53 | Collapsing runs of `_` leaves no `__`, keeps a text of word characters so, and keeps its letters and digits. |
| BaseModel.StripLeading | models/base_model.py:53 | Stripping leading `_` leaves a suffix that does not start with `_`, with the same letters and digits. |
| BaseModel.StripTrailing | models/base_model.py:53 | Stripping trailing `_` leaves a prefix that does not end with `_`, with the same letters and digits. |
| BaseModel.SliceKeeps | models/base_model.py:53 | A slice of a clean text still has only word characters and no `__`. |
| BaseModel.Collapsed | models/base_model.py:52-53 | After both substitutions the text has only word characters, no `__`, and the input's letters and digits. |
| BaseModel.StripKeeps | models/base_model.py:53 | `strip('_')` keeps the character set, the lack of `__` and the letters and digits, and leaves no `_` at either end. |
| BaseModel.Trimmed | models/base_model.py:52-53 | The stripped text is clean, keeps the letters and digits, and has no `_` at either end. |
| BaseModel.HasAlnum | models/base_model.py:54-55 | A non-empty stripped text has at least one letter or digit, so "obj" is used only when there are none. |
| BaseModel.UnderscoreFront | models/base_model.py:56-57 | Prefixing `_` to a text starting with a letter or digit keeps it a clean identifier body. |
| BaseModel.ObjIsClean | models/base_model.py:54-55 | The fallback "obj" is a clean identifier that does not start with a digit. |
| BaseModel.Unlowered | models/base_model.py:50-57 | Before lower-casing the result is non-empty and clean, does not start with a digit, keeps the letters and digits, and is "obj" when there are none. |
| BaseModel.LowerKeeps | models/base_model.py:58 | Lower-casing a clean identifier leaves lower-case letters, digits and `_`, with the same shape. |
| BaseModel.SanitizedIsIdentifier | models/base_model.py:50-58 | `_sanitize_ident` gives a non-empty lower-case identifier without a leading digit or `__`, holding the text's letters and digits lower-cased, and "obj" when there are none. |
| BaseModel.FirstAt | models/base_model.py:139 | A position found lies within the text at or after the start, and the pattern matches there. |
| BaseModel.FirstAtIsLeftmost | models/base_model.py:139 | No earlier position matches the pattern, and none matches at all when nothing is found. |
| BaseModel.SearchFrom | models/base_model.py:139-141 | `re.search` finds a match exactly when some position matches. |
| BaseModel.SupercellMatrix | models/base_model.py:168-174 | The scaling matrix is diag(A, B, C) from the first `AxBxC supercell`, and diag(2, 2, 2) when there is none. |
| BaseModel.TheNeverGetsUccsd | models/base_model.py:121-124 | As written, a query containing "the" never gets the UCCSD family; a UCCSD request without the later family words gets two_local. |
| BaseModel.UccsdRequestGetsUccsd | models/base_model.py:121-128 | With "he" read as a whole word, the request "the uccsd" gets UCCSD. |
| BaseModel.HeIsNoWordThere | models/base_model.py:123 | In that request "he" occurs only inside "the", never as a word. |
| BaseModel.AbsentFamilies | models/base_model.py:123-128 | No other family keyword occurs in that request. |
| BaseModel.Absent | models/base_model.py:123-128 | A word whose first two characters never follow each other in a text does not occur in it. |
| BaseModel.DetectTask | models/base_model.py:112-118 | The first task keyword that fires is kept, and a supercell mention overrides it with "supercell_vqe". |
| BaseModel.DetectFamily | models/base_model.py:120-128 | The ansatz family is the last family check that fires, with "he" tested as a substring as written. |
| BaseModel.DetectCircuitChoices | models/base_model.py:130-152 | The mapping, entanglement and rotations are each the last of their checks that fires. |
| BaseModel.DetectRequirements | models/base_model.py:159-165 | Each requirement is listed exactly when its keyword occurs, in the order device-agnostic, parameters, depth, at most three. |
| BaseModel.DetectSupercell | models/base_model.py:167-174 | A supercell matrix is set exactly when "supercell" is mentioned, and it is the matched size or 2x2x2. |
| BaseModel.DetectIntent | models/base_model.py:97-177 | The lower-cased query sets each intent field as its checks dictate: task, family (as written), mapping, layers, entanglement, rotations, active space, requirements in order and supercell. |
| BaseModel.SupercellMatchMentionsSupercell | models/base_model.py:168-169 | A matched `AxBxC supercell` always mentions "supercell". |
| BaseModel.SupercellEnd | models/base_model.py:168 | In an anchored supercell match, "supercell" begins within the text. |
| BaseModel.WantsCode | models/base_model.py:182-198 | Code is generated exactly when the query has a code keyword, or a task was detected and the query has no listing keyword. |
| BaseModel.ListingWithoutCodeSkips | models/base_model.py:190-193 | A listing request without any code keyword never generates code, whatever the task. |
| BaseModel.SupercellTaskGenerates | models/base_model.py:167-198 | A supercell request with no listing keyword generates code. |
| McpToolsWrapper.StructureUri | utils/mcp_tools_wrapper.py:89 | The structure URI is "structure://mp_" followed by the material id, and the id can be read back from it. |
| McpToolsWrapper.Reply | utils/mcp_tools_wrapper.py:26-44 | Every record has its status, its method's `mcp_action` tag and exactly the extra fields given. |
| McpToolsWrapper.Accepted | utils/mcp_tools_wrapper.py:24 | `result and not result.get('error')` holds exactly for a usable answer, and raises exactly for a truthy answer that is not a dict. |
| McpToolsWrapper.Unselected | utils/mcp_tools_wrapper.py:81-87 | A structure method goes on to its tool exactly when selecting the material gives a usable answer. |
| McpToolsWrapper.SearchOutcome | utils/mcp_tools_wrapper.py:17-44 | search_material succeeds with the answer exactly when it is usable, reports not_found for any other answer, and error when the search raises. |
| McpToolsWrapper.DetailsOutcome | utils/mcp_tools_wrapper.py:46-73 | get_material_details follows the same mapping over the selection's answer. |
| McpToolsWrapper.EveryOutcomeTagged | utils/mcp_tools_wrapper.py:17-303 | Every method tags every outcome, success or not, with its own MCP action. |
| McpToolsWrapper.UnselectedSkipsTool | utils/mcp_tools_wrapper.py:80-87 | When the material cannot be selected, the structure methods never succeed, and their answers do not depend on the tools. |
| McpToolsWrapper.SelectedCallsTool | utils/mcp_tools_wrapper.py:89-175 | Once the material is selected, each tool is called on its structure URI with the fixed arguments: [1, 1, 1] for plots, 2x2x2 when no matrix is given, spacing 10 and 15.0 for moiré. |
| McpToolsWrapper.GetStructureReadsUri | utils/mcp_tools_wrapper.py:277-289 | get_structure reads the material's structure URI, and success carries the id and format back. |
| McpToolsWrapper.StructureDataOutcome | utils/mcp_tools_wrapper.py:177-204 | get_structure_data succeeds exactly when the answer is truthy and has a length, and reports not_found for a falsy answer. |
| McpToolsWrapper.CreateFromTextOutcome | utils/mcp_tools_wrapper.py:206-260 | A falsy answer from either create_structure_from_* method is "failed", never "not_found". |
| McpToolsWrapper.NineTools | utils/mcp_tools_wrapper.py:305-317 | The wrapper lists exactly nine tools, one per method. |
| McpToolsWrapper.Registry.constructor | utils/mcp_tools_wrapper.py:320 | No wrapper is published before initialisation. |
| McpToolsWrapper.Registry.Initialize | utils/mcp_tools_wrapper.py:322-326 | Initialisation publishes a wrapper around the given agent. |
| McpToolsWrapper.Registry.Get | utils/mcp_tools_wrapper.py:328-330 | get_mcp_wrapper returns whatever is published. |
| McpToolsWrapper.InitializeThenGet | utils/mcp_tools_wrapper.py:322-330 | After initialising with an agent, get_mcp_wrapper returns a wrapper around that agent. |
| BraketModels.ParseGateType | BraketMCP/amazon-braket-mcp-server/awslabs/amazon_braket_mcp_server/models.py:26-51 | `GateType(name)` gives back only a member whose value is exactly that name. |
| BraketModels.GateTypeNamesRoundTrip | BraketMCP/amazon-braket-mcp-server/awslabs/amazon_braket_mcp_server/models.py:26-51 | Every gate value parses back to its own member, so no two members share a value. |
| BraketModels.SixteenGateTypes | BraketMCP/amazon-braket-mcp-server/awslabs/amazon_braket_mcp_server/models.py:26-51 | The enumeration lists each of the sixteen gate types exactly once. |
| BraketModels.NamedGate | BraketMCP/amazon-braket-mcp-server/awslabs/amazon_braket_mcp_server/models.py:54-65 | A gate built from a name alone has no qubits and no parameters. |
| BraketModels.Circuit | BraketMCP/amazon-braket-mcp-server/awslabs/amazon_braket_mcp_server/models.py:68-79 | A circuit built from a qubit count and gates keeps both and has no metadata. |
| BraketModels.IntsOf | BraketMCP/amazon-braket-mcp-server/awslabs/amazon_braket_mcp_server/models.py:64 | A value validates as `List[int]` only when it is a list, with one int per item. |
| BraketModels.IntsRoundTrip | BraketMCP/amazon-braket-mcp-server/awslabs/amazon_braket_mcp_server/models.py:64 | A dumped list of ints validates back to itself. |
| BraketModels.ParamsOf | BraketMCP/amazon-braket-mcp-server/awslabs/amazon_braket_mcp_server/models.py:65 | Validated parameters are all numeric angles. |
| BraketModels.GateOf | BraketMCP/amazon-braket-mcp-server/awslabs/amazon_braket_mcp_server/server.py:99-105 | Validating a gate dict fails on anything that is not a dict; an accepted gate has numeric parameters and the dict's name. |
| BraketModels.GateValue | BraketMCP/amazon-braket-mcp-server/awslabs/amazon_braket_mcp_server/models.py:54-65 | A dumped gate has exactly the fields name, qubits and params. |
| BraketModels.GateRoundTrip | BraketMCP/amazon-braket-mcp-server/awslabs/amazon_braket_mcp_server/models.py:54-65 | A dumped gate validates back to itself exactly when its parameters are numbers. |
| BraketModels.GatesOf | BraketMCP/amazon-braket-mcp-server/awslabs/amazon_braket_mcp_server/server.py:98-105 | The gate list converts item by item, and fails exactly when some gate dict does not validate. |
| BraketModels.GatesValue | BraketMCP/amazon-braket-mcp-server/awslabs/amazon_braket_mcp_server/models.py:78 | A dumped gate list has one item per gate. |
| BraketModels.GatesRoundTrip | BraketMCP/amazon-braket-mcp-server/awslabs/amazon_braket_mcp_server/models.py:78 | A dumped list of numeric gates converts back to itself. |
| BraketModels.CircuitValue | BraketMCP/amazon-braket-mcp-server/awslabs/amazon_braket_mcp_server/models.py:68-79 | A dumped circuit has exactly the fields num_qubits, gates and metadata. |
| BraketModels.CircuitFrom | BraketMCP/amazon-braket-mcp-server/awslabs/amazon_braket_mcp_server/server.py:157-161 | A circuit built from a dict carries exactly the converted gates. |
| BraketModels.CircuitOf | BraketMCP/amazon-braket-mcp-server/awslabs/amazon_braket_mcp_server/server.py:147-161 | Converting a circuit that is not a dict raises. |
| BraketModels.CircuitRoundTrip | BraketMCP/amazon-braket-mcp-server/awslabs/amazon_braket_mcp_server/models.py:68-79 | A dumped circuit with numeric parameters converts back to itself. |
| BraketModels.ParseStatus | BraketMCP/amazon-braket-mcp-server/awslabs/amazon_braket_mcp_server/models.py:82-90 | `TaskStatus(name)` gives back only a member whose value is exactly that name. |
| BraketModels.StatusesEnumerated | BraketMCP/amazon-braket-mcp-server/awslabs/amazon_braket_mcp_server/models.py:82-90 | There are exactly six statuses, each named by its own string. |
| BraketModels.NewTaskResult | BraketMCP/amazon-braket-mcp-server/awslabs/amazon_braket_mcp_server/models.py:93-114 | A task result built from its required fields has every optional field unset. |
| BraketModels.MeasurementsRoundTrip | BraketMCP/amazon-braket-mcp-server/awslabs/amazon_braket_mcp_server/models.py:109 | Dumped measurements validate back to themselves. |
| BraketModels.CountsRoundTrip | BraketMCP/amazon-braket-mcp-server/awslabs/amazon_braket_mcp_server/models.py:110 | Dumped counts validate back to themselves. |
| BraketModels.TaskResultOf | BraketMCP/amazon-braket-mcp-server/awslabs/amazon_braket_mcp_server/server.py:445-454 | A result that is not a dict raises; an accepted result keeps the dict's task id and status name. |
| BraketModels.TaskResultValue | BraketMCP/amazon-braket-mcp-server/awslabs/amazon_braket_mcp_server/models.py:93-114 | `model_dump()` of a task result is a dict. |
| BraketModels.TaskResultRoundTrip | BraketMCP/amazon-braket-mcp-server/awslabs/amazon_braket_mcp_server/models.py:93-114 | A dumped task result validates back to itself. |
| AsciiVisualizer.Dashes | BraketMCP/amazon-braket-mcp-server/awslabs/amazon_braket_mcp_server/visualization/ascii_visualizer.py:86 | `"─" * k` has exactly k characters. |
| AsciiVisualizer.LabelWidth | BraketMCP/amazon-braket-mcp-server/awslabs/amazon_braket_mcp_server/visualization/ascii_visualizer.py:81-82 | The padding width is at least as wide as every qubit's label. |
| AsciiVisualizer.Padded | BraketMCP/amazon-braket-mcp-server/awslabs/amazon_braket_mcp_server/visualization/ascii_visualizer.py:84-86 | After the padding every line is exactly as wide as the widest label. |
| AsciiVisualizer.Segment | BraketMCP/amazon-braket-mcp-server/awslabs/amazon_braket_mcp_server/visualization/ascii_visualizer.py:90-170 | For any gate, every line gets a segment of the same width. |
| AsciiVisualizer.Row | BraketMCP/amazon-braket-mcp-server/awslabs/amazon_braket_mcp_server/visualization/ascii_visualizer.py:90-170 | A line gains the same total width from the gates whichever qubit it belongs to. |
| AsciiVisualizer.CircuitLines | BraketMCP/amazon-braket-mcp-server/awslabs/amazon_braket_mcp_server/visualization/ascii_visualizer.py:76-86 | There is one line per qubit. |
| AsciiVisualizer.GateSequence | BraketMCP/amazon-braket-mcp-server/awslabs/amazon_braket_mcp_server/visualization/ascii_visualizer.py:89-170 | There is one description per gate. |
| AsciiVisualizer.Repeat | BraketMCP/amazon-braket-mcp-server/awslabs/amazon_braket_mcp_server/visualization/ascii_visualizer.py:233 | `['cx'] * k` is k copies of "cx". |
| AsciiVisualizer.Effects | BraketMCP/amazon-braket-mcp-server/awslabs/amazon_braket_mcp_server/visualization/ascii_visualizer.py:192-207 | The description always lists at least one effect: superposition, entanglement, measurements, or "applies quantum operations". |
| AsciiVisualizer.LabelledLines | BraketMCP/amazon-braket-mcp-server/awslabs/amazon_braket_mcp_server/visualization/ascii_visualizer.py:76-86 | The labelling loops give one line per qubit: its label padded with wire up to the widest label. |
| AsciiVisualizer.AppendColumn | BraketMCP/amazon-braket-mcp-server/awslabs/amazon_braket_mcp_server/visualization/ascii_visualizer.py:93-168 | Each gate appends its own segment to every line. |
| AsciiVisualizer.RowStep | BraketMCP/amazon-braket-mcp-server/awslabs/amazon_braket_mcp_server/visualization/ascii_visualizer.py:90 | Processing one more gate appends that gate's segment to the line. |
| AsciiVisualizer.CircuitToAscii | BraketMCP/amazon-braket-mcp-server/awslabs/amazon_braket_mcp_server/visualization/ascii_visualizer.py:63-181 | A circuit without qubits raises in `max()`; otherwise the result holds the joined lines, one description per gate, the qubit and gate counts, and the circuit description. |
| AsciiVisualizer.LinesEqualLength | BraketMCP/amazon-braket-mcp-server/awslabs/amazon_braket_mcp_server/visualization/ascii_visualizer.py:84-170 | All lines end equally long: the widest label plus every gate's column. |
| AsciiVisualizer.CnotColumn | BraketMCP/amazon-braket-mcp-server/awslabs/amazon_braket_mcp_server/visualization/ascii_visualizer.py:131-142 | In a cx column the control line gets a dot, the target an X, and every other line a vertical bar. |
| AsciiVisualizer.MeasureAllColumn | BraketMCP/amazon-braket-mcp-server/awslabs/amazon_braket_mcp_server/visualization/ascii_visualizer.py:91-96 | A measure_all gate puts the same M on every line. |
| AsciiVisualizer.LexLessTransitive | BraketMCP/amazon-braket-mcp-server/awslabs/amazon_braket_mcp_server/visualization/ascii_visualizer.py:272 | Python's string order, used by `sorted`, is transitive. |
| AsciiVisualizer.LexLessTotal | BraketMCP/amazon-braket-mcp-server/awslabs/amazon_braket_mcp_server/visualization/ascii_visualizer.py:272 | Any two different strings are ordered one way or the other. |
| AsciiVisualizer.LexLessIrreflexive | BraketMCP/amazon-braket-mcp-server/awslabs/amazon_braket_mcp_server/visualization/ascii_visualizer.py:272 | No string comes before itself. |
| AsciiVisualizer.Least | BraketMCP/amazon-braket-mcp-server/awslabs/amazon_braket_mcp_server/visualization/ascii_visualizer.py:272 | A non-empty set of states has a least state, which comes before every other. |
| AsciiVisualizer.Sorted | BraketMCP/amazon-braket-mcp-server/awslabs/amazon_braket_mcp_server/visualization/ascii_visualizer.py:272 | `sorted(keys)` lists exactly the states, as many as there are. |
| AsciiVisualizer.SortedIncreasing | BraketMCP/amazon-braket-mcp-server/awslabs/amazon_braket_mcp_server/visualization/ascii_visualizer.py:272 | The sorted states strictly increase, so none comes twice. |
| AsciiVisualizer.BarLengthBounded | BraketMCP/amazon-braket-mcp-server/awslabs/amazon_braket_mcp_server/visualization/ascii_visualizer.py:285 | A count between zero and the largest count gets a bar of at most 40 blocks, and the largest count exactly 40. |
| AsciiVisualizer.DivBounded | BraketMCP/amazon-braket-mcp-server/awslabs/amazon_braket_mcp_server/visualization/ascii_visualizer.py:285 | A quotient of naturals below a bound's multiple stays within that bound. |
| AsciiVisualizer.DivExact | BraketMCP/amazon-braket-mcp-server/awslabs/amazon_braket_mcp_server/visualization/ascii_visualizer.py:285 | `(b * k) / b` is k. |
| AsciiVisualizer.MulMonotone | BraketMCP/amazon-braket-mcp-server/awslabs/amazon_braket_mcp_server/visualization/ascii_visualizer.py:285 | Multiplying by a natural keeps the order. |
| AsciiVisualizer.MaxOf | BraketMCP/amazon-braket-mcp-server/awslabs/amazon_braket_mcp_server/visualization/ascii_visualizer.py:276 | `max(counts.values())` is one of the counts and no count exceeds it. |
| AsciiVisualizer.BarLines | BraketMCP/amazon-braket-mcp-server/awslabs/amazon_braket_mcp_server/visualization/ascii_visualizer.py:283-291 | There is one histogram line per state, in order, with that state's bar and count. |
| AsciiVisualizer.ResultsToAscii | BraketMCP/amazon-braket-mcp-server/awslabs/amazon_braket_mcp_server/visualization/ascii_visualizer.py:256-269 | No counts, or empty counts, give the "No measurement data available" result. |
| AsciiVisualizer.SumPositive | BraketMCP/amazon-braket-mcp-server/awslabs/amazon_braket_mcp_server/visualization/ascii_visualizer.py:273 | Counts that are never negative, one of them positive, have a positive total. |
| AsciiVisualizer.SumAtLeastZero | BraketMCP/amazon-braket-mcp-server/awslabs/amazon_braket_mcp_server/visualization/ascii_visualizer.py:273 | Counts that are never negative have a non-negative total. |
| AsciiVisualizer.BarsBounded | BraketMCP/amazon-braket-mcp-server/awslabs/amazon_braket_mcp_server/visualization/ascii_visualizer.py:265-296 | For shot counts that are not all zero there is one line per state, every bar is at most 40 blocks, and the largest count's bar is exactly 40. |
| AsciiVisualizer.BellPairPatternExactly | BraketMCP/amazon-braket-mcp-server/awslabs/amazon_braket_mcp_server/visualization/ascii_visualizer.py:357-361 | The Bell-pair pattern holds exactly when the measured states are "00" and "11". |
| AsciiVisualizer.SubsetSize | BraketMCP/amazon-braket-mcp-server/awslabs/amazon_braket_mcp_server/visualization/ascii_visualizer.py:361 | A subset is no larger than its superset. |
| AsciiVisualizer.TwoSorted | BraketMCP/amazon-braket-mcp-server/awslabs/amazon_braket_mcp_server/visualization/ascii_visualizer.py:371 | A two-element set sorts into its two different elements. |
| AsciiVisualizer.GhzPatternExactly | BraketMCP/amazon-braket-mcp-server/awslabs/amazon_braket_mcp_server/visualization/ascii_visualizer.py:363-376 | The GHZ pattern holds exactly when the states are k zeros and k ones for some k of at least one. |
| AsciiVisualizer.GhzPatternStates | BraketMCP/amazon-braket-mcp-server/awslabs/amazon_braket_mcp_server/visualization/ascii_visualizer.py:363-376 | A GHZ pattern's states are k zeros and k ones. |
| AsciiVisualizer.StatesAreGhz | BraketMCP/amazon-braket-mcp-server/awslabs/amazon_braket_mcp_server/visualization/ascii_visualizer.py:363-376 | The states k zeros and k ones form a GHZ pattern. |
| AsciiVisualizer.DrawGates | BraketMCP/amazon-braket-mcp-server/awslabs/amazon_braket_mcp_server/visualization/ascii_visualizer.py:88-170 | The gate loop writes one description per gate, in gate order, and leaves the lines exactly as drawing the gates one after another onto the padded lines would. |
| VisualizationUtils.Names | BraketMCP/amazon-braket-mcp-server/awslabs/amazon_braket_mcp_server/visualization/visualization_utils.py:275 | The gate names, one per gate, in order. |
| VisualizationUtils.SummaryKindOf | BraketMCP/amazon-braket-mcp-server/awslabs/amazon_braket_mcp_server/visualization/visualization_utils.py:222-236 | A summary is a Bell pair exactly for h and cx in at most four gates on two qubits, and a superposition exactly when every gate is h; it is custom exactly when no earlier rule applies. |
| VisualizationUtils.BellPairSummarised | BraketMCP/amazon-braket-mcp-server/awslabs/amazon_braket_mcp_server/visualization/visualization_utils.py:226-228 | A two-qubit circuit of h then cx, plus measurements, in at most four gates is summarised as a Bell pair. |
| VisualizationUtils.KeptNamesOccur | BraketMCP/amazon-braket-mcp-server/awslabs/amazon_braket_mcp_server/visualization/visualization_utils.py:225 | Every name the measure_all filter keeps is the name of some gate. |
| VisualizationUtils.FirstOccurrences | BraketMCP/amazon-braket-mcp-server/awslabs/amazon_braket_mcp_server/visualization/visualization_utils.py:240-246 | The keys of the counting dict are exactly the gate names that occur. |
| VisualizationUtils.FirstOccurrencesDistinct | BraketMCP/amazon-braket-mcp-server/awslabs/amazon_braket_mcp_server/visualization/visualization_utils.py:246 | No gate type is listed twice. |
| VisualizationUtils.CountOfAbsent | BraketMCP/amazon-braket-mcp-server/awslabs/amazon_braket_mcp_server/visualization/visualization_utils.py:242 | A name that does not occur has count zero. |
| VisualizationUtils.SumOfCountsStep | BraketMCP/amazon-braket-mcp-server/awslabs/amazon_braket_mcp_server/visualization/visualization_utils.py:241-242 | Counting one more gate adds one to the sum of the counts when its name is a key, and nothing otherwise. |
| VisualizationUtils.CountsSumToTotal | BraketMCP/amazon-braket-mcp-server/awslabs/amazon_braket_mcp_server/visualization/visualization_utils.py:240-247 | The counts of the distinct names add up to the number of gates. |
| VisualizationUtils.CountOfStep | BraketMCP/amazon-braket-mcp-server/awslabs/amazon_braket_mcp_server/visualization/visualization_utils.py:242 | One more gate adds one to its own name's count and leaves every other count unchanged. |
| VisualizationUtils.CountNames | BraketMCP/amazon-braket-mcp-server/awslabs/amazon_braket_mcp_server/visualization/visualization_utils.py:240-242 | The counting loop gives the names in first-occurrence order, a count for exactly the names that occur, and each name's number of occurrences. |
| VisualizationUtils.AnalyzeCircuitStructure | BraketMCP/amazon-braket-mcp-server/awslabs/amazon_braket_mcp_server/visualization/visualization_utils.py:238-251 | The structure has the gate and qubit counts, distinct gate types in first-occurrence order, and a count of at least one for exactly the names that occur. |
| VisualizationUtils.StructureOfUnique | BraketMCP/amazon-braket-mcp-server/awslabs/amazon_braket_mcp_server/visualization/visualization_utils.py:238-251 | The structure of a circuit is determined: two structures that both describe it are equal. |
| VisualizationUtils.CountOfPresent | BraketMCP/amazon-braket-mcp-server/awslabs/amazon_braket_mcp_server/visualization/visualization_utils.py:242 | A name that occurs has a count of at least one. |
| VisualizationUtils.Step | BraketMCP/amazon-braket-mcp-server/awslabs/amazon_braket_mcp_server/visualization/visualization_utils.py:257-269 | Each step is numbered from 1; it raises exactly for an h or x gate without a qubit, or a cx gate with fewer than two. |
| VisualizationUtils.DescribeGateSequence | BraketMCP/amazon-braket-mcp-server/awslabs/amazon_braket_mcp_server/visualization/visualization_utils.py:253-271 | There is one numbered step per gate, in order; the first gate without the qubits its description reads raises IndexError. |
| VisualizationUtils.PredictBehavior | BraketMCP/amazon-braket-mcp-server/awslabs/amazon_braket_mcp_server/visualization/visualization_utils.py:273-287 | An equal superposition is predicted exactly when there is no h-and-cx pair, no qft, and every gate other than measure_all is h. |
| VisualizationUtils.NoGatesPredictsSuperposition | BraketMCP/amazon-braket-mcp-server/awslabs/amazon_braket_mcp_server/visualization/visualization_utils.py:284-285 | A circuit without gates, or with only measure_all gates, is predicted to create an equal superposition. |
| VisualizationUtils.AssessComplexity | BraketMCP/amazon-braket-mcp-server/awslabs/amazon_braket_mcp_server/visualization/visualization_utils.py:289-296 | Depth is the number of gates and width the number of qubits; the level is low up to 5 gates and high above 20; the runtime is fast up to 10 gates. |
| VisualizationUtils.ComplexityMonotone | BraketMCP/amazon-braket-mcp-server/awslabs/amazon_braket_mcp_server/visualization/visualization_utils.py:294-295 | More gates never rate a circuit as less complex or faster. |
| VisualizationUtils.DescribeCircuit | BraketMCP/amazon-braket-mcp-server/awslabs/amazon_braket_mcp_server/visualization/visualization_utils.py:49-72 | The description fails exactly when some step raises, with "Failed to describe circuit: " and the message; otherwise it holds the summary, the circuit's structure, each gate's step description in order, the prediction and the complexity. |
| VisualizationUtils.HadamardWithoutQubitFails | BraketMCP/amazon-braket-mcp-server/awslabs/amazon_braket_mcp_server/visualization/visualization_utils.py:258-259 | An h gate without qubits turns the description into an error. |
| BraketService.MeasureInstrs | BraketMCP/amazon-braket-mcp-server/awslabs/amazon_braket_mcp_server/braket_service.py:181-186 | `measure` without qubits measures everything; with qubits it measures each listed qubit into the classical bit of the same index, in order. |
| BraketService.GateInstrsAsWritten | BraketMCP/amazon-braket-mcp-server/awslabs/amazon_braket_mcp_server/braket_service.py:152-190 | A gate is dispatched exactly when its name is listed and it has the operands its branch reads; an unlisted name raises "Unsupported gate: <name>". |
| BraketService.QftLayer | BraketMCP/amazon-braket-mcp-server/awslabs/amazon_braket_mcp_server/braket_service.py:638-641 | Layer i is h on qubit i, then a controlled phase pi/2^(j-i) from qubit i to every later qubit j. |
| BraketService.QftSwaps | BraketMCP/amazon-braket-mcp-server/awslabs/amazon_braket_mcp_server/braket_service.py:644-645 | The closing swaps exchange qubit i with qubit m-1-i for every i below m div 2. |
| BraketService.QftLayersLength | BraketMCP/amazon-braket-mcp-server/awslabs/amazon_braket_mcp_server/braket_service.py:638-641 | The first k layers on m qubits hold k*m - k*(k-1)/2 instructions. |
| BraketService.QftSize | BraketMCP/amazon-braket-mcp-server/awslabs/amazon_braket_mcp_server/braket_service.py:637-645 | The transform on m qubits has m(m+1)/2 gates and m div 2 swaps. |
| BraketService.QftSwapsDisjoint | BraketMCP/amazon-braket-mcp-server/awslabs/amazon_braket_mcp_server/braket_service.py:644-645 | The swapped pairs are disjoint, so no qubit is swapped twice. |
| BraketService.GateInstrs | BraketMCP/amazon-braket-mcp-server/awslabs/amazon_braket_mcp_server/braket_service.py:152-190 | The corrected dispatch expands a qft gate into the transform on its qubits, and dispatches every other name as written. |
| BraketService.QftUnsupportedAsWritten | BraketMCP/amazon-braket-mcp-server/awslabs/amazon_braket_mcp_server/braket_service.py:152-190 | As written, a qft gate matches no branch and raises "Unsupported gate: qft". |
| BraketService.CompilesIffEveryGate | BraketMCP/amazon-braket-mcp-server/awslabs/amazon_braket_mcp_server/braket_service.py:152-190 | Compiling succeeds exactly when every gate's branch does. |
| BraketService.FirstFailureReported | BraketMCP/amazon-braket-mcp-server/awslabs/amazon_braket_mcp_server/braket_service.py:152-195 | The error reported is that of the first gate that raises. |
| BraketService.CompileAppend | BraketMCP/amazon-braket-mcp-server/awslabs/amazon_braket_mcp_server/braket_service.py:152-190 | The instructions of the first k gates are a prefix of those of the first k+1. |
| BraketService.CreateQiskitCircuit | BraketMCP/amazon-braket-mcp-server/awslabs/amazon_braket_mcp_server/braket_service.py:135-195 | The circuit has the requested width with each gate's instructions appended in order; the first gate that raises makes the call raise "Error creating Qiskit circuit: …". |
| BraketService.CompilesIffWellFormed | BraketMCP/amazon-braket-mcp-server/awslabs/amazon_braket_mcp_server/braket_service.py:152-190 | As written, a circuit compiles exactly when every gate has a listed name and the operands its branch reads, so any qft gate makes it fail. |
| BraketService.CompilesWithQftIffWellFormed | BraketMCP/amazon-braket-mcp-server/awslabs/amazon_braket_mcp_server/braket_service.py:152-190 | With the corrected qft branch, a circuit compiles exactly when every gate is qft or has a listed name and the operands its branch reads. |
| BraketService.MeasureRange | BraketMCP/amazon-braket-mcp-server/awslabs/amazon_braket_mcp_server/braket_service.py:617 | `measure(range(n), range(n))` measures qubit i into bit i, for every i. |
| BraketService.CxChain | BraketMCP/amazon-braket-mcp-server/awslabs/amazon_braket_mcp_server/braket_service.py:613-614 | The chain has a cx from every qubit to the next. |
| BraketService.Range | BraketMCP/amazon-braket-mcp-server/awslabs/amazon_braket_mcp_server/braket_service.py:617 | `range(n)` lists 0 to n-1 in order. |
| BraketService.GhzInstrs | BraketMCP/amazon-braket-mcp-server/awslabs/amazon_braket_mcp_server/braket_service.py:609-617 | The GHZ instructions are h on qubit 0, cx from qubit i-1 to qubit i for every later i, then every qubit measured. |
| BraketService.CreateGhzCircuit | BraketMCP/amazon-braket-mcp-server/awslabs/amazon_braket_mcp_server/braket_service.py:596-622 | A width below 1 raises "Error creating GHZ circuit: …"; otherwise the circuit has n qubits and n bits and exactly the GHZ instructions. |
| BraketService.BellPairCircuit | BraketMCP/amazon-braket-mcp-server/awslabs/amazon_braket_mcp_server/braket_service.py:572-594 | The Bell pair circuit is the two-qubit GHZ circuit. |
| BraketService.AppendMeasurements | BraketMCP/amazon-braket-mcp-server/awslabs/amazon_braket_mcp_server/braket_service.py:617 | The loop appends the measurement of every qubit into its own bit. |
| BraketService.BuildQftLayer | BraketMCP/amazon-braket-mcp-server/awslabs/amazon_braket_mcp_server/braket_service.py:639-641 | The inner loop builds exactly layer i of the transform. |
| BraketService.BuildQftSwaps | BraketMCP/amazon-braket-mcp-server/awslabs/amazon_braket_mcp_server/braket_service.py:644-645 | The swap loop builds exactly the closing swaps. |
| BraketService.CreateQftCircuit | BraketMCP/amazon-braket-mcp-server/awslabs/amazon_braket_mcp_server/braket_service.py:624-653 | A negative width raises "Error creating QFT circuit: …"; otherwise the circuit is the transform on all qubits followed by every qubit measured. |
| BraketService.S3Destination | BraketMCP/amazon-braket-mcp-server/awslabs/amazon_braket_mcp_server/braket_service.py:293 | The S3 destination is passed only when both bucket and prefix are non-empty. |
| BraketService.RunQuantumTask | BraketMCP/amazon-braket-mcp-server/awslabs/amazon_braket_mcp_server/braket_service.py:250-299 | The device runs the Braket form of the input (a definition compiled then converted, a Qiskit circuit converted, a Braket circuit as given) with the S3 destination; any other input type is refused before a device is contacted; every failure comes back as "Error running quantum task: …". |
| BraketService.MapStatus | BraketMCP/amazon-braket-mcp-server/awslabs/amazon_braket_mcp_server/braket_service.py:321-329 | The six known names map to their status and any other hashable value to FAILED. |
| BraketService.MapStatusRoundTrip | BraketMCP/amazon-braket-mcp-server/awslabs/amazon_braket_mcp_server/braket_service.py:321-329 | Every status reads back as itself. |
| BraketService.GetTaskResult | BraketMCP/amazon-braket-mcp-server/awslabs/amazon_braket_mcp_server/braket_service.py:301-357 | The result keeps the task id and metadata, and its status is the mapped one; measurements, counts and execution time come only with a completed task; an execution time needs both timestamps. |
| BraketService.UnknownStatusFails | BraketMCP/amazon-braket-mcp-server/awslabs/amazon_braket_mcp_server/braket_service.py:329 | A task whose status is not one of the six names is reported as FAILED, without measurements. |
| BraketService.BuildFilters | BraketMCP/amazon-braket-mcp-server/awslabs/amazon_braket_mcp_server/braket_service.py:491-516 | The filters the method appends one by one are exactly the filter list of the given arguments. |
| BraketService.FiltersForShape | BraketMCP/amazon-braket-mcp-server/awslabs/amazon_braket_mcp_server/braket_service.py:491-516 | One filter per given argument, ordered device, state, created after, created before. |
| BraketService.FiltersForMembers | BraketMCP/amazon-braket-mcp-server/awslabs/amazon_braket_mcp_server/braket_service.py:491-516 | Each given argument has its filter with its value; with no device or state there is no device or status filter. |
| BraketService.SearchQuantumTasks | BraketMCP/amazon-braket-mcp-server/awslabs/amazon_braket_mcp_server/braket_service.py:467-527 | The search succeeds exactly when the client answers with a dictionary for the built filters; the result is its "quantumTasks", or [] when absent; failures come back as "Error searching quantum tasks: …". |
| BraketService.CreateCircuitVisualization | BraketMCP/amazon-braket-mcp-server/awslabs/amazon_braket_mcp_server/braket_service.py:716-742 | A circuit that does not compile, or whose drawing fails, raises "Error creating circuit visualization: …"; otherwise the response is built from the circuit, its drawing and its type. |
| BraketServer.DefaultDeviceArn | BraketMCP/amazon-braket-mcp-server/awslabs/amazon_braket_mcp_server/server.py:68-73 | The default device is the stripped BRAKET_DEFAULT_DEVICE_ARN when it is set and not blank, and the SV1 simulator otherwise; it is never empty. |
| BraketServer.ServiceHolder.constructor | BraketMCP/amazon-braket-mcp-server/awslabs/amazon_braket_mcp_server/server.py:44 | No service exists before the first request. |
| BraketServer.ServiceHolder.GetService | BraketMCP/amazon-braket-mcp-server/awslabs/amazon_braket_mcp_server/server.py:47-64 | An existing service is returned unchanged; otherwise one is created from AWS_REGION and BRAKET_WORKSPACE_DIR (the working directory when unset); at most one is ever constructed. |
| BraketServer.GetServiceTwice | BraketMCP/amazon-braket-mcp-server/awslabs/amazon_braket_mcp_server/server.py:47-64 | Two requests return the same service and construct it once. |
| BraketServer.ErrorReply | BraketMCP/amazon-braket-mcp-server/awslabs/amazon_braket_mcp_server/server.py:116-118 | A failing tool replies with a dictionary holding only "error" with the message. |
| BraketServer.ErrorListReply | BraketMCP/amazon-braket-mcp-server/awslabs/amazon_braket_mcp_server/server.py:217-219 | A failing list tool replies with a one-element list holding the error dictionary. |
| BraketServer.Reply | BraketMCP/amazon-braket-mcp-server/awslabs/amazon_braket_mcp_server/server.py:111-118 | A tool passes the service's value through, and turns its failure into the error dictionary. |
| BraketServer.BellCircuit | BraketMCP/amazon-braket-mcp-server/awslabs/amazon_braket_mcp_server/server.py:313-320 | The Bell tool's circuit is h on qubit 0, cx from 0 to 1, then measure_all, on two qubits. |
| BraketServer.BellCircuitIsBellPair | BraketMCP/amazon-braket-mcp-server/awslabs/amazon_braket_mcp_server/server.py:304-330 | The Bell tool's circuit is recognised by the visualiser as a Bell pair and summarised as one. |
| BraketServer.GhzToolGates | BraketMCP/amazon-braket-mcp-server/awslabs/amazon_braket_mcp_server/server.py:345-348 | The GHZ tool's gates are h on qubit 0, cx from each qubit i to i+1 below n-1, then measure_all. |
| BraketServer.BuildGhzGates | BraketMCP/amazon-braket-mcp-server/awslabs/amazon_braket_mcp_server/server.py:343-353 | The gate list the tool appends one by one is the GHZ gate list. |
| BraketServer.GhzToolCircuitIsGhzState | BraketMCP/amazon-braket-mcp-server/awslabs/amazon_braket_mcp_server/server.py:333-363 | For three or more qubits the GHZ tool's circuit is recognised by the visualiser as a GHZ state. |
| BraketServer.QubitRange | BraketMCP/amazon-braket-mcp-server/awslabs/amazon_braket_mcp_server/server.py:380 | list(range(n)) holds 0 to n-1, and nothing for a negative n. |
| BraketServer.QftToolCircuit | BraketMCP/amazon-braket-mcp-server/awslabs/amazon_braket_mcp_server/server.py:378-382 | The QFT tool's circuit is one qft gate on every qubit followed by measure_all. |
| BraketServer.QftToolFailsAsWritten | BraketMCP/amazon-braket-mcp-server/awslabs/amazon_braket_mcp_server/server.py:366-392 | With the gate dispatch as written, the QFT tool's circuit always fails with "Unsupported gate: qft". |
| BraketServer.QftToolCompiles | BraketMCP/amazon-braket-mcp-server/awslabs/amazon_braket_mcp_server/server.py:366-392 | With a qft branch, the QFT tool's circuit compiles on every width into the transform followed by a measurement of all qubits. |
| BraketServer.CreateQftCircuitTool | BraketMCP/amazon-braket-mcp-server/awslabs/amazon_braket_mcp_server/server.py:366-392 | As written, the QFT tool answers every width with the error dictionary naming the unsupported qft gate. |
| BraketServer.VisualizeToolCircuit | BraketMCP/amazon-braket-mcp-server/awslabs/amazon_braket_mcp_server/server.py:322-330 | A circuit tool replies with the drawn circuit's response, or with an error dictionary carrying the compilation or drawing failure. |
| BraketServer.CreateGhzCircuitTool | BraketMCP/amazon-braket-mcp-server/awslabs/amazon_braket_mcp_server/server.py:333-363 | The GHZ tool's circuit always compiles, so the reply is the drawn circuit's response unless drawing fails. |
| BraketServer.CreateQuantumCircuitTool | BraketMCP/amazon-braket-mcp-server/awslabs/amazon_braket_mcp_server/server.py:82-118 | Gate dictionaries that cannot be read, and gates that do not compile, give an error dictionary with the failure. |
| BraketServer.UsedArn | BraketMCP/amazon-braket-mcp-server/awslabs/amazon_braket_mcp_server/server.py:143-145 | A task runs on the named device, or on the default device when none is named. |
| BraketServer.RunQuantumTaskTool | BraketMCP/amazon-braket-mcp-server/awslabs/amazon_braket_mcp_server/server.py:121-180 | A readable circuit is run on the used device, and the reply is CREATED with the task id, device and shots; an unreadable circuit, a failed conversion or a failed run gives an error dictionary. |
| BraketServer.RunCircuit | BraketMCP/amazon-braket-mcp-server/awslabs/amazon_braket_mcp_server/server.py:163-180 | a circuit that was read runs through the service on the given device: a started task gives the CREATED reply with its id, device and shots, and any error gives an error dict |
| BraketServer.GetTaskResultTool | BraketMCP/amazon-braket-mcp-server/awslabs/amazon_braket_mcp_server/server.py:183-201 | The reply reads back as the task result the service produced, or is the error dictionary of its failure. |
| BraketServer.ListDevicesTool | BraketMCP/amazon-braket-mcp-server/awslabs/amazon_braket_mcp_server/server.py:204-219 | The devices are listed as dictionaries, or a failure gives a one-element list holding the error dictionary. |
| BraketServer.SearchQuantumTasksTool | BraketMCP/amazon-braket-mcp-server/awslabs/amazon_braket_mcp_server/server.py:266-301 | days_ago becomes the only time filter (created after) and no created-before filter is sent; the reply is the service's task list for those filters, or a one-element error list. |
| BraketServer.DescribeVisualization | BraketMCP/amazon-braket-mcp-server/awslabs/amazon_braket_mcp_server/server.py:465-533 | A circuit_def is read back and described and wins over a result; a result is read back as a task result; anything else is refused with the unknown-format error; a description fails exactly when the circuit is not describable. |
| BraketServer.DescribeCircuitDef | BraketMCP/amazon-braket-mcp-server/awslabs/amazon_braket_mcp_server/server.py:477-502 | Describing the circuit_def written from a circuit describes that same circuit. |
| BraketIntegration.Unavailable | utils/braket_integration.py:139-140 | Without a service every operation answers with the "Braket service not available" error dictionary. |
| BraketIntegration.CountUpper | utils/braket_integration.py:284 | The atom count is at most the formula's length, and zero when it has no upper-case letter. |
| BraketIntegration.QubitsForMaterial | utils/braket_integration.py:269-286 | A formula in the table gets its listed qubit count; any other gets twice its atom count, clamped to between 4 and 16. |
| BraketIntegration.QubitsBounded | utils/braket_integration.py:269-286 | Every material gets between 2 and 16 qubits, and fewer than 4 exactly for H and He. |
| BraketIntegration.SelectAnsatz | utils/braket_integration.py:288-295 | Hardware-efficient exactly for a numeric gap above 5 eV, UCCSD exactly for one in (0.1, 5], adaptive for a smaller gap or a gap that is no number. |
| BraketIntegration.AnsatzMonotone | utils/braket_integration.py:288-295 | A larger band gap never selects a less constrained ansatz (adaptive, then UCCSD, then hardware-efficient). |
| BraketIntegration.UccsdX | utils/braket_integration.py:303-304 | The UCCSD reference gates are x on qubits 0 and 2, as far as the circuit has them. |
| BraketIntegration.RyLayer | utils/braket_integration.py:307-308 | A UCCSD layer puts ry with angle theta_<layer>_<i> on every qubit i. |
| BraketIntegration.PairCx | utils/braket_integration.py:309-310 | A UCCSD layer entangles the disjoint neighbouring pairs (0, 1), (2, 3), … with cx. |
| BraketIntegration.RotationPairs | utils/braket_integration.py:315-317 | A hardware-efficient layer puts ry then rz, with angles theta and phi, on every qubit. |
| BraketIntegration.RingCx | utils/braket_integration.py:318-319 | A hardware-efficient layer entangles every qubit with the next, the last wrapping round to qubit 0. |
| BraketIntegration.Hadamards | utils/braket_integration.py:322-323 | The adaptive ansatz starts with h on every qubit. |
| BraketIntegration.Chain | utils/braket_integration.py:324-325 | The adaptive ansatz then chains cx from every qubit to the next, without wrapping. |
| BraketIntegration.VqeGates | utils/braket_integration.py:297-328 | Every ansatz ends with a single measure_all. |
| BraketIntegration.AppendXGates | utils/braket_integration.py:303-304 | The loop appends exactly the UCCSD reference gates. |
| BraketIntegration.AppendRyLayer | utils/braket_integration.py:307-308 | The loop appends exactly one ry layer. |
| BraketIntegration.AppendPairCx | utils/braket_integration.py:309-310 | The loop appends exactly the paired cx gates. |
| BraketIntegration.AppendRotationPairs | utils/braket_integration.py:315-317 | The loop appends exactly the ry/rz pairs of one layer. |
| BraketIntegration.AppendRingCx | utils/braket_integration.py:318-319 | The loop appends exactly the cx ring. |
| BraketIntegration.AppendHadamards | utils/braket_integration.py:322-323 | The loop appends exactly one h per qubit. |
| BraketIntegration.AppendChain | utils/braket_integration.py:324-325 | The loop appends exactly the cx chain. |
| BraketIntegration.GenerateVqeGates | utils/braket_integration.py:297-328 | The gate list built step by step is the chosen ansatz followed by measure_all. |
| BraketIntegration.UccsdLayersLength | utils/braket_integration.py:306-310 | k UCCSD layers hold k times (qubits plus pairs) gates. |
| BraketIntegration.HardwareLayersLength | utils/braket_integration.py:314-319 | k hardware-efficient layers hold 3k gates per qubit. |
| BraketIntegration.VqeGateCounts | utils/braket_integration.py:297-328 | On n qubits the hardware-efficient ansatz has 9n + 1 gates, the adaptive one 2n (n at least 1) and UCCSD its reference, layer and pair gates plus one. |
| BraketIntegration.VqeQubitsInRange | utils/braket_integration.py:297-328 | Every gate of every ansatz acts only on the circuit's own qubits, the ring's wrap-around included. |
| BraketIntegration.SymbolicAnsatzRefused | utils/braket_integration.py:246-249 | The UCCSD and hardware-efficient circuits carry symbolic angles the circuit model's float parameters refuse; exactly the adaptive circuit is valid. |
| BraketIntegration.UccsdSymbolic | utils/braket_integration.py:308 | The first UCCSD rotation carries a symbolic angle. |
| BraketIntegration.HardwareSymbolic | utils/braket_integration.py:316 | The first hardware-efficient rotation carries a symbolic angle. |
| BraketIntegration.AdaptiveNumeric | utils/braket_integration.py:321-327 | The adaptive circuit carries no parameters and is a valid circuit. |
| BraketIntegration.AdaptiveCompiles | utils/braket_integration.py:321-327 | The adaptive circuit always compiles. |
| BraketIntegration.Integration.constructor | utils/braket_integration.py:110-131 | Availability is whether the Braket modules imported; then the service uses AWS_REGION (default us-east-1) and BRAKET_WORKSPACE_DIR (default ~/quantum_workspace), or is a bare service when that fails. |
| BraketIntegration.Integration.CreateBellPairCircuit | utils/braket_integration.py:137-159 | Unavailable gives the error dictionary; otherwise the Bell circuit compiles and the reply is its drawn response or the drawing error. |
| BraketIntegration.Integration.CreateGhzCircuit | utils/braket_integration.py:161-185 | Unavailable gives the error dictionary; otherwise the server's GHZ gates compile and the reply is their drawn response or the drawing error. |
| BraketIntegration.Integration.CreateCustomCircuit | utils/braket_integration.py:203-228 | Unavailable gives the error dictionary; unreadable gates and gates that do not compile give their errors; otherwise the reply is the drawn custom circuit's response or the drawing error. |
| BraketIntegration.Integration.CreateVqeCircuit | utils/braket_integration.py:230-267 | Unavailable gives the error dictionary; a formula that is no string fails; UCCSD and hardware-efficient circuits fail validation; an adaptive circuit is drawn and its response gets the material context (or fails when the response is no dictionary). |
| BraketIntegration.Integration.GetBraketStatus | utils/braket_integration.py:423-444 | The status reports availability and whether a service exists; the seven capabilities and five supported circuits are listed only while available. |
| BraketIntegration.UccsdGates | utils/braket_integration.py:301-310 | The uccsd branch's loops produce the X gates on the first even qubits followed by two layers of ry rotations and cx pairs. |
| BraketIntegration.HardwareEfficientGates | utils/braket_integration.py:312-319 | The hardware_efficient branch's loops produce three layers of ry/rz pairs on every qubit, each followed by a ring of cx gates from every qubit to the next modulo the qubit count. |

## Left out

- Subprocess and stream I/O are not modelled: `Popen`, the reader threads, `select`, `readline`, terminate/kill and the sleeps. The exchanges, handshake polls and clock readings are parameters. A sleep is recorded by its duration only.
- Request correlation: the clients keep no table of pending requests (every tool call uses id 1), so the model keeps one request outstanding at a time.
- Language-model calls (the Strands agents and the Bedrock model wrappers) are not modelled. A reply is a string parameter: the reply's text, as agents/strands_supervisor.py:88 reads it with `getattr(response, 'text', str(response))`. Prompt texts are replaced by the inputs they carry.
- Reply objects passed to the parsers. Both the Strands `Agent` and the `MockAgent` fallbacks return a reply object, not a string. The coordinator, DFT, structure and agentic-loop agents pass that object straight to `re.search` or `.strip()`. As written, those calls raise TypeError or AttributeError, so every parse takes its fallback. The members below read the reply's text instead, as agents/strands_supervisor.py:88 does.
- StrandsCoordinator.ParseWorkflowPlan: the source passes the reply object, not its text, so as written every parse takes its fallback, the default three-agent sequential plan. The model reads the reply's text as agents/strands_supervisor.py:88 does.
- StrandsCoordinator.PoscarWorkflow: the source passes the reply object, not its text, to `_parse_workflow_plan`, so as written every run follows the default plan. The model reads the reply's text as agents/strands_supervisor.py:88 does.
- AgenticLoop.ParseDecision: the source passes the reply object, not its text, so as written every parse takes its fallback, a `search` for Si. The model reads the reply's text as agents/strands_supervisor.py:88 does.
- AgenticLoop.GenerateNextQuery: the source calls `.strip()` on the reply object, not its text. As written, the branch without an error, a completed batch or DFT parameters raises and falls back to the current query. The model reads the reply's text as agents/strands_supervisor.py:88 does.
- AgenticLoop.RunRound: the source passes the reply object, not its text, to `_parse_decision`, so as written every round acts on the fallback decision. The model reads the reply's text as agents/strands_supervisor.py:88 does.
- Dft.ParseParameters: the source passes the reply object, not its text, so as written every parse takes its fallback, the fixed 2.0 / 1.0 / 1.0 parameters. The model reads the reply's text as agents/strands_supervisor.py:88 does.
- Dft.StrandsExtract: the source passes the reply object, not its text, to `_parse_parameters`. As written, the fixed fallback parameters pass the strict check and are always returned. The model reads the reply's text as agents/strands_supervisor.py:88 does.
- StructureAgent.ParseMatchResult: the source passes the reply object, not its text. As written, the first `re.search` raises inside its `try`, and the `mp-` search after it raises outside one. The model reads the reply's text as agents/strands_supervisor.py:88 does.
- StructureAgent.AnalysisMatch: the source passes the reply object, not its text, to `_parse_match_result`. As written, every successful model call ends in the error record of the TypeError that parse raises. The model reads the reply's text as agents/strands_supervisor.py:88 does.
- Foreign libraries are parameters or are left out: MPRester, pymatgen (matching, space groups, lattices, coordinates, POSCAR writing), plotly and matplotlib, Qiskit, the Braket SDK, boto3, hashing (`sha256`, `md5`, `hash()`) and base64.
- Floating-point formatting and arithmetic outside comparisons are not modelled. This covers coordinate scaling and `%.3f` in `_poscar_to_geometry` (the `coord` parameter), floats parsed from message bodies, visualiser probabilities, entropy and correlation, QFT phase angles and rotation-angle formatting. Thresholds and scores are Dafny `real`s.
- Dft: `round(…, 2)` in the estimates is not modelled; the stated `t` and `U` are the values before rounding.
- Code and text templates are left out because they are constant text: `generate_base_code`'s template bodies and molecule geometries, `_is_small_molecule`, the tight-binding Hamiltonian, `generate_braket_code`, `get_safe_code_guidelines` and the regex extraction of code from model replies.
- The Streamlit interface is left out: session state, the display and markdown parts of the loggers, and the audit logger.
- Logging calls everywhere are left out; where a value is only logged (such as a workflow id), it is not modelled.
- Authentication, credentials and the secrets manager are left out: the Cognito modules, `get_secure_api_key`, `validate_working_directory` and the SSM reads. `validate_cognito_config` is modelled over given values.
- Deployment and setup scripts, and psutil probing in the monitor's health check, are left out.
- Exceptions are one error datatype (`Errors.Exc`). The messages of Python's own `TypeError`, `IndexError` and item-assignment errors are approximated by fixed texts. For example, `BraketService.ExecutionTime` reports only the start of the `TypeError` of a subtraction (`UnsupportedMinus`), without the operand types Python appends.
- Text: case mapping, `isupper` and the regex character classes cover ASCII only.
- ConfigValidator.PathPrecheck: only the checks made before the path is resolved are modelled. `resolve()` and the base-directory containment check need the file system.
- ConfigValidator.ValidatePythonExecutable: whether the interpreter exists is the `onPath` parameter.
- CodeSecurity.ValidateCodeSafety: Python iterates the dangerous-name sets in an order that depends on hashing. The model uses one fixed order, so the order of issues may differ from a given run; which issues are found does not.
- Structures: coordinates, lattices and structure properties are not modelled. A site keeps its species and its layer.
- LocalServer, AwsServer: Materials Project lookups, structure parsers, supercell builders and the hash of a new structure are parameters.
- Workflow: as written, the loop runs forever when a task depends on one that was filtered out. The model reports that state as `Stuck`, and the coordinators' results as `Spins`.
- StrandsCoordinator: the `MockAgent` classes and import fallbacks are left out, and so is the text extraction inside `_generate_quantum_code`. The code generator is a parameter.
- AwsCoordinator: `except` branches that no modelled step can reach are left out.
- AgenticLoop: a dict-valued "materials" entry counts as not iterable, where Python iterates its keys. `json.dumps` failures are not modelled, and the POSCAR path of the coordinator is delegated to a parameter.
- BaseModel: only the gating part of `generate_base_code` is modelled. The formula reader of the same class is `PoscarFormula.ExtractFormulaForCode`.
- McpToolsWrapper: logging of each call is left out.
- BraketModels: pydantic's lax coercion (such as a string "1" accepted as an int) is not modelled. Values must already have the declared types.
- BraketService: Qiskit's own checks (such as qubit indices out of range) belong to Qiskit and are left out. The Qiskit-to-Braket conversion and the device are parameters.
- BraketService: `list_devices`, `get_device_info` and `cancel_quantum_task` are thin boto3 calls and are left out.
- BraketService: `visualize_circuit`, `visualize_results` and `create_results_visualization` draw with matplotlib and encode in base64, so they are left out. `describe_circuit` and `describe_results` only delegate, and `__init__` and `_validate_service_access` reach AWS.
- BraketServer.DefaultDeviceArn: it does not state that stripping the SV1 ARN leaves it unchanged.
- BraketServer: the `days_ago` date arithmetic and ISO formatting are a parameter. `describe_results`, `visualize_circuit` and `visualize_results` are left out with the service methods they call. `get_device_info` and `cancel_quantum_task` are left out with the device calls.
- AsciiVisualizer: `_analyze_results`, `_detect_superposition_pattern`, `_calculate_correlation` and `_generate_summary` compute float probabilities, so they are left out. The `visualize_*` wrappers only combine the modelled parts.
- AsciiVisualizer.ResultsToAscii: each line's percentage text and padding are left out; the bar lengths and the sorted order are modelled. The sort is specified, not computed, so the function is ghost.
- VisualizationUtils: `describe_results` and its helpers (summary, statistics, distribution, insights, entropy, classification) work on float probabilities and are left out. `save_visualization_to_file` writes files with a timestamp. `create_circuit_response` and `create_results_response` are the `respond` parameter, and the `mkdir` in the constructor is left out.
- BraketIntegration: the mock fallback classes used when Braket cannot be imported are left out. `list_braket_devices`, `run_circuit_on_simulator`, `get_task_result` and `list_available_devices` are thin calls into the service and are left out.
- BraketIntegration.Integration.CreateVqeCircuit: the UCCSD and hardware-efficient ansätze carry symbolic angles, which the circuit model's float parameters refuse. These paths are modelled as the validation error the real service raises, not as the mock fallback's acceptance.
- StrandsSupervisor.HandleMoire: the twist angle and interlayer spacing that the handler reads from the query with regular expressions and `float` are parameters (`angle`, `spacing`). The regex matching and the number parsing are not modelled.
- Reply content that is not a JSON array. Section "Calling Tools" of the Model Context Protocol makes a `tools/call` result's `content` an array, and both servers here always send one. The members below read any other content as no content. Falsy content gives the same result in Python and in the model. Truthy content that is not an array does not: a dict's keys come in insertion order, which the model's unordered `Value.Dict` map cannot represent, and the dict and number cases raise exceptions that these members' results do not carry.
- AwsClient.MaterialTexts: returns [] for truthy `content` that is not a list. Python iterates it instead: a string gives one text per character and a dict one per key. A number raises TypeError. This is the non-array gap above.
- AwsClient.FirstText: returns None for truthy `content` that is not a list. Python's `result[0]` gives the first character of a string and raises KeyError(0) on a dict. `len` raises TypeError on a number. This is the non-array gap above.
- AwsClient.PairReply: returns None for truthy `content` that is not a list. Python returns the first two characters of a string of length 2 or more and raises KeyError on a dict of two or more keys. `len` raises TypeError on a number. This is the non-array gap above.
- AwsClient.MoireReply: inherits FirstText's gap. For a string `content` Python tests only its first character, which cannot hold "Moire structure is created", so it returns None as the model does. A dict raises KeyError and a number raises TypeError, where the model returns None.
- AwsClient.McpClient.SearchMaterials: inherits MaterialTexts' gap on truthy `content` that is not a list.
- AwsClient.McpClient.GetMaterialById: returns Ok(None) for truthy `content` that is not a list. In Python a string of length 2 or more raises AttributeError at `result[0].get`, a dict of two or more keys raises KeyError, and a number raises TypeError in `len`. This is the non-array gap above.
- LocalAgent.SearchMaterials: returns [] for truthy `content` that is not a list, as AwsClient.MaterialTexts does. The loop at enhanced_mcp_client.py:444-462 iterates such content or raises on a number.
- Decorators.Backoff: the cap is the integer `maxDelay`, which config/app_config.py:26 reads as `int(os.getenv('RETRY_MAX_DELAY', '10'))` (default `DefaultRetryMaxDelay`). Reading the environment and parsing the integer are not modelled. A value that does not parse raises when the configuration loads, before any retry.
- LocalClient: a reply line is decoded only when it starts with `{`, so a real JSON decoder gives an object there. The `decode` parameter may give another value, which the model reads as an object with neither `result` nor `error`.

## Findings

| source | as written | input that shows it | evidently intended | confidence | as-written member | corrected member |
|---|---|---|---|---|---|---|
| enhanced_mcp_materials/aws_server.py:308-310 | A missing `mp_` entry is reloaded from the key with "mp_" replaced by "mp-". A selected material is stored under `mp_` + its normalised `mp-<n>` id, so its key `mp_mp-<n>` reloads `mp-mp-<n>`. | the URI `structure://mp_mp-149` of a selected mp-149 that is no longer stored | reload `mp-149`, the id that was selected | not executed | AwsServer.ReloadAsWrittenMisnames | AwsServer.ReloadIdRoundTrip |
| enhanced_mcp_materials/aws_server.py:719-723 | The method type tests for "ULTRA-FAST MODE" first. The fallback route's diagnostics still begin with the ultra-fast lines written before the failure, so every route reports ultra-fast. | a moire build that took the basic fallback route | report the route that actually ran | not executed | AwsServer.MethodTypeAsWrittenAlwaysUltraFast | AwsServer.MethodTypeNamesRoute |
| agents/strands_supervisor.py:485 | The jargon filter compares the lower-cased candidate with an upper-case list, so it never drops anything. | the query "VQE" | skip "VQE" and fall back to "Si" | not executed | StrandsSupervisor.JargonSlipsThrough | StrandsSupervisor.ExtractFormulaFromQuery |
| agents/strands_coordinator.py:183 | The DFT task's `${structure_matcher.material_id}` is looked up in a context whose entries are wrapped under "structure_analysis", so it never resolves. The literal reference text reaches the DFT agent. | any plan running structure_matcher then dft_extractor | pass the matched material id | not executed | StrandsCoordinator.DftGetsReferenceText | StrandsCoordinator.DftGetsMatchedId |
| agents/strands_agentic_loop.py:136 | `context.get("iterations", [{}])[-1]` indexes the iterations list, which exists but is still empty in round 1, so the DFT action ends in an error record. | a first-round decision with agent_type "dft_agent" | read the previous round when there is one, else nothing | not executed | AgenticLoop.FirstRoundDftFails | AgenticLoop.FirstRoundDftExtracts |
| models/base_model.py:123 | The substring test for "he" (hardware-efficient) matches inside "the", and it runs after the UCCSD test, so the family becomes two_local. | the query "the uccsd" | keep uccsd | not executed | BaseModel.TheNeverGetsUccsd | BaseModel.UccsdRequestGetsUccsd |
| BraketMCP/amazon-braket-mcp-server/awslabs/amazon_braket_mcp_server/server.py:378-389 | The QFT tool builds `Gate('qft', …)`, but the gate dispatch of `create_qiskit_circuit` has no qft branch, so the tool always fails with "Unsupported gate: qft". | create_qft_circuit(3) | compile the transform (BraketService.GateInstrs adds the branch) | not executed | BraketServer.QftToolFailsAsWritten | BraketServer.QftToolCompiles |
