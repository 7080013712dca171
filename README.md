# A verified model of web-claude's CLI bridge, control server and pages

This project models, in Dafny, the logic of the web-claude repository's two
back-end services and two pages:

- **The CLI connector** (`ClaudeCli`, from
  `mini-services/ai-orchestrator/claude-cli.ts`).
  - It holds at most one child-process handle and an ordered list of
    message handlers.
  - It splits every stdout chunk into lines, drops the blank ones and
    classifies each remaining line by its tag (`<thinking>`, `<execute>`,
    `<result>`).
  - It forwards every stderr chunk whole as an error.
  - It writes user input to the child's stdin, or fails with
    `CLI process not running` when it holds no child.
- **The control server** (`ControlServer`, from
  `mini-services/claude-code-control/index.ts`).
  - The uptime string and the parse of `free -m` output.
  - The slash-command dispatch.
  - The routing of `execute-command` to slash commands or the shell.
  - The events that report a shell result.
  - The `execute-task` flow over the shared `systemStatus`.
- **The chat page** (`ChatInterface`, from
  `src/components/chat/ChatInterface.tsx`): a state machine over the
  conversation, the thinking steps of the answer in progress, the error
  banner, the input box and the connection flags.
- **The remote-control page** (`ControlPanel`, from `src/app/page.tsx`): a
  transcript of typed terminal lines, the command box, the last reported
  status and the active task that disables the task buttons.

Supporting modules:

- `Text` holds the JavaScript string operations the code relies on:
  - `split` on one character, and `split(/\s+/)`;
  - `trim()` emptiness, over ECMAScript white space and line terminators;
  - `trimStart`, `startsWith`, and ASCII `toLowerCase`.
- `Numerals` holds `${n}` for integral numbers and `parseInt` with no radix.
- `Types` holds the shared message shapes of `src/lib/ai-types.ts`.

How I/O is represented:

- The stateful parts are classes whose methods update their fields.
- Each method is specified by a pure function of the old state; the
  properties of those functions are proved as lemmas.
- Sockets, child processes and shell runs enter as parameters:
  - an event a handler receives;
  - an abstract child-process handle that records writes and kills;
  - a `ShellResult` that is either the captured output or the thrown error.
- What a component sends is recorded as a log of events.

The model follows the code as written, except where a row of "## Findings"
shows a defect: there the defect is modelled and exhibited by its own member,
and the rest of the model uses the corrected behaviour. It follows the code
as written also where it does less than a session-based bridge might be
expected to:

- Each stdout chunk is split on its own. There is no line buffering across
  chunks (`CutLineIsTwoMessages`).
- `start` has no already-running guard (`StartTwice`).
- No registry maps connections to connectors.
- Command output is not truncated.
- stderr is not classified line by line; each chunk becomes one error
  message.

Modelling the page and the server together also shows this: the server's
help lists `/restart`, but its `handleSystemCommand` has no `/restart`
case. The page's Restart quick command therefore gets the server's
"Unknown command" error back (`RestartUnknownToServer`).

## Model

| member | source | states |
|---|---|---|
| ClaudeCli.Classify | mini-services/ai-orchestrator/claude-cli.ts:66-74 | a line is `thinking` iff it starts with `<thinking>`, `command` iff it starts with `<execute>` and not `<thinking>`, `result` otherwise; never `error`; the content is the line unchanged |
| ClaudeCli.TagsExclusive | mini-services/ai-orchestrator/claude-cli.ts:66-74 | no line starts with two of the tags, so test order never matters, and a `<result>` line is classified like an untagged one |
| ClaudeCli.KeepNonBlank | mini-services/ai-orchestrator/claude-cli.ts:63 | `filter(line => line.trim())`: keeps no more pieces than it is given; which pieces it keeps is stated by `KeepNonBlankMembers` |
| ClaudeCli.ClassifyAll | mini-services/ai-orchestrator/claude-cli.ts:65-75 | one message per line, in order, each the classification of its line |
| ClaudeCli.ChunkMessages | mini-services/ai-orchestrator/claude-cli.ts:61-76 | one message per kept line of the chunk; which lines those are is stated by `ChunkMessagesAreLines`, `ChunkAtLineBreak` and `OneLineChunk` |
| ClaudeCli.FanOut | mini-services/ai-orchestrator/claude-cli.ts:78-82 | `notify(m)` calls every handler in registration order, each with `m`, one call per registration |
| ClaudeCli.ChunkMessagesAreLines | mini-services/ai-orchestrator/claude-cli.ts:61-76 | every message of a stdout chunk carries one non-blank `'\n'` piece of it, untrimmed and without a line break, and every non-blank piece is carried |
| ClaudeCli.ChunkAtLineBreak | mini-services/ai-orchestrator/claude-cli.ts:61-76 | a chunk made of two stretches joined at a line break yields the messages of the first stretch, then those of the second |
| ClaudeCli.OneLineChunk | mini-services/ai-orchestrator/claude-cli.ts:61-76 | a chunk holding one non-blank line, with or without its line break, yields exactly that line's message |
| ClaudeCli.CutLineIsTwoMessages | mini-services/ai-orchestrator/claude-cli.ts:23-25 | a `<thinking>` line cut in two by a chunk boundary becomes a thinking message and a result message; sent in one chunk it is one thinking message |
| ClaudeCli.FanOutReachesHandlerOnce | mini-services/ai-orchestrator/claude-cli.ts:78-82 | one notification calls a handler registered once exactly once, with the message |
| ClaudeCli.NotRegistered | mini-services/ai-orchestrator/claude-cli.ts:78-82 | a handler that is not registered is never called |
| ClaudeCli.EveryHandlerSeesEveryMessage | mini-services/ai-orchestrator/claude-cli.ts:57-82 | every handler registered once receives the whole message stream, in the order it was produced |
| ClaudeCli.ChildProcess.constructor | mini-services/ai-orchestrator/claude-cli.ts:18-21 | a freshly spawned child has had nothing written and is not killed |
| ClaudeCli.ChildProcess.Write | mini-services/ai-orchestrator/claude-cli.ts:54 | a write appends one entry to stdin and does not kill the child |
| ClaudeCli.ChildProcess.Kill | mini-services/ai-orchestrator/claude-cli.ts:86 | a kill marks the child killed and writes nothing |
| ClaudeCli.StartPromise.constructor | mini-services/ai-orchestrator/claude-cli.ts:16 | the promise `start` returns begins unsettled |
| ClaudeCli.StartPromise.Resolve | mini-services/ai-orchestrator/claude-cli.ts:43 | resolving settles an unsettled promise as fulfilled and leaves a settled one alone |
| ClaudeCli.StartPromise.Reject | mini-services/ai-orchestrator/claude-cli.ts:39 | rejecting settles an unsettled promise with the reason and leaves a settled one alone |
| ClaudeCli.Connector.constructor | mini-services/ai-orchestrator/claude-cli.ts:10-13 | a new connector holds no process, no handlers and has delivered nothing |
| ClaudeCli.Connector.Start | mini-services/ai-orchestrator/claude-cli.ts:15-21 | `start` takes the new child as the held process whatever was held before, and returns an unsettled promise |
| ClaudeCli.Connector.OnStartTimer | mini-services/ai-orchestrator/claude-cli.ts:42-43 | the 500 ms timer fulfils the start promise unless the child's error already rejected it |
| ClaudeCli.Connector.OnMessage | mini-services/ai-orchestrator/claude-cli.ts:57-59 | registering appends the handler and changes nothing else |
| ClaudeCli.Connector.Notify | mini-services/ai-orchestrator/claude-cli.ts:78-82 | the new deliveries are the message to every handler, in registration order |
| ClaudeCli.Connector.ParseOutput | mini-services/ai-orchestrator/claude-cli.ts:61-76 | the new deliveries are the fan-out of the chunk's classified non-blank lines, line by line |
| ClaudeCli.Connector.NotifyLines | mini-services/ai-orchestrator/claude-cli.ts:65-75 | the new deliveries are the fan-out of each line's classified message, line after line |
| ClaudeCli.Connector.OnStderrData | mini-services/ai-orchestrator/claude-cli.ts:27-32 | a stderr chunk is delivered whole as one error message |
| ClaudeCli.Connector.OnProcessError | mini-services/ai-orchestrator/claude-cli.ts:34-40 | a child error is delivered as `CLI process error: ` plus its message, and rejects an unsettled start promise with it |
| ClaudeCli.Connector.SendMessage | mini-services/ai-orchestrator/claude-cli.ts:50-55 | fails with `CLI process not running` when no child or no stdin is held; otherwise writes exactly the message plus `'\n'` and nothing else |
| ClaudeCli.Connector.Stop | mini-services/ai-orchestrator/claude-cli.ts:84-89 | a held child is killed and let go; with none held nothing happens; the connector holds no process afterwards |
| ClaudeCli.SendAfterStop | mini-services/ai-orchestrator/claude-cli.ts:50-89 | after `stop`, sending fails with `CLI process not running` and the stopped child receives nothing |
| ClaudeCli.StartTwice | mini-services/ai-orchestrator/claude-cli.ts:15-21 | a second `start` without `stop` replaces the handle and leaves the first child neither killed nor written to |
| Text.Split | mini-services/ai-orchestrator/claude-cli.ts:63 | `split(sep)` always gives at least one piece, the whole string when there is no separator; its inverse is `Join` (`JoinSplit`, `SplitJoin`) |
| Text.JoinSplit | mini-services/ai-orchestrator/claude-cli.ts:63 | joining the pieces of `split(sep)` with `sep` gives the string back |
| Text.SplitJoin | mini-services/ai-orchestrator/claude-cli.ts:63 | splitting a join of separator-free pieces gives the pieces back |
| Text.SplitAtSeparator | mini-services/ai-orchestrator/claude-cli.ts:63 | a separator is a hard boundary: `split(a + sep + b)` is `split(a)` followed by `split(b)` |
| ClaudeCli.KeepNonBlankMembers | mini-services/ai-orchestrator/claude-cli.ts:63 | the filter keeps every piece whose trim is not empty and no other |
| Text.SplitFirstIsPrefix | mini-services/claude-code-control/index.ts:233-234 | the first piece of a split is a prefix of the string |
| Text.SplitRunsPiecesHaveNoSpace | mini-services/claude-code-control/index.ts:57 | no piece of `split(/\s+/)` contains white space |
| Text.SplitRuns | mini-services/claude-code-control/index.ts:57 | `split(/\s+/)` always gives at least one piece; its pieces hold no white space (`SplitRunsPiecesHaveNoSpace`) and it undoes `JoinGaps` (`SplitRunsJoinGaps`) |
| Text.SplitRunsAfterGap | mini-services/claude-code-control/index.ts:57 | a run of white space of any length in front of a field opens exactly one new piece |
| Text.SplitRunsJoinGaps | mini-services/claude-code-control/index.ts:57 | non-empty fields without white space, separated by any non-empty runs of white space, are split back into exactly those fields by `split(/\s+/)` |
| Text.JoinGapsAvoids | mini-services/claude-code-control/index.ts:54-57 | a character in no field and no gap is not in the joined line, so a padded table row holds no line break |
| Text.ToLower | mini-services/claude-code-control/index.ts:234 | lower-casing keeps the length and maps every character by itself, `A`-`Z` to `a`-`z` |
| Text.TrimStart | mini-services/claude-code-control/index.ts:58-59 | the result is a suffix of the input that does not start with white space, and everything dropped is white space |
| Numerals.IntToString | mini-services/claude-code-control/index.ts:45-47 | `${i}`: a minus sign in front of the digits of a negative value; `parseInt` reads it back (`ParseIntToString`) |
| Numerals.ParseInt | mini-services/claude-code-control/index.ts:58-59 | `parseInt(s)` with no radix, NaN as `None`; it inverts `IntToString` (`ParseIntToString`) and gives NaN without digits (`NoDigitsReadsZero`) |
| Numerals.ParseIntOrZero | mini-services/claude-code-control/index.ts:58-59 | `parseInt(x) \|\| 0`, a missing element reading as 0; it inverts `IntToString` (`ParseIntOrZeroToString`) |
| Numerals.Decimal | mini-services/claude-code-control/index.ts:45-47 | `${n}` of a non-negative integer is a non-empty run of decimal digits without a leading zero |
| Numerals.DecimalValue | mini-services/claude-code-control/index.ts:45-47 | the digits of `${n}` read back as `n` |
| Numerals.ParseIntToString | mini-services/claude-code-control/index.ts:58-60 | `parseInt` reads back `${i}` as `i` for every integer |
| Numerals.ParseIntOrZeroToString | mini-services/claude-code-control/index.ts:58-60 | `parseInt(x) \|\| 0` reads back `${i}` as `i`, zero included |
| ControlServer.Uptime | mini-services/claude-code-control/index.ts:39-48 | `getUptime()` for the elapsed milliseconds; what the string says is stated by `UptimeReadsElapsed` |
| ControlServer.MemoryUsage | mini-services/claude-code-control/index.ts:53-67 | the parse of the `free -m` output; its meaning is stated by `MemoryUnavailable`, `MemoryFromFields` and `MemoryFromFreeTable` |
| ControlServer.UptimeReadsElapsed | mini-services/claude-code-control/index.ts:39-48 | from one day on the string is whole days and the hours past them, from one hour on whole hours and the minutes past them, below that whole minutes; the hour part is below 24 and the minute part below 60 |
| ControlServer.DivDiv | mini-services/claude-code-control/index.ts:41-43 | flooring minutes to hours and hours to days is flooring the milliseconds once by the product |
| ControlServer.MemoryUnavailable | mini-services/claude-code-control/index.ts:54-68 | the memory string is `N/A` exactly when the output has no second line or an empty one |
| ControlServer.MemoryFromFields | mini-services/claude-code-control/index.ts:57-61 | a second line whose fields 1 and 2 are decimal numbers gives `used/total MB` |
| ControlServer.MemoryFromFreeTable | mini-services/claude-code-control/index.ts:54-61 | a `free -m` table whose second line is a row name, total, used and further fields, separated by any non-empty padding of white space other than a line break, gives `used/total MB` |
| ControlServer.OneLineOutputUnread | mini-services/claude-code-control/index.ts:56-58 | a one-line output, such as the `echo` fallback, gives `N/A`: its figures are never read |
| ControlServer.NoDigitsReadsZero | mini-services/claude-code-control/index.ts:58-59 | a field without any decimal digit reads as NaN and so counts as 0 |
| ControlServer.CommandWord | mini-services/claude-code-control/index.ts:233-234 | the first `' '`-separated token, lower-cased; it ignores case and arguments (`CommandWordIgnoresCaseAndArguments`) |
| ControlServer.SystemCommandEvents | mini-services/claude-code-control/index.ts:232-267 | the events `handleSystemCommand` emits; what they are is stated by `SystemCommandOutcome` and `SystemCommandIgnoresCaseAndArguments` |
| ControlServer.SystemCommandOutcome | mini-services/claude-code-control/index.ts:232-267 | `/clear` alone emits nothing; `/status` and `/help` emit one `info` event; any other word emits the one `error` naming it |
| ControlServer.SystemCommandIgnoresCaseAndArguments | mini-services/claude-code-control/index.ts:233-234 | only the first `' '`-separated word counts, whatever its case and whatever follows it |
| ControlServer.CommandWordIgnoresCaseAndArguments | mini-services/claude-code-control/index.ts:233-234 | the command word of the lower-cased word followed by a space and anything is the word's own command word |
| ControlServer.CommandFailure | mini-services/claude-code-control/index.ts:149-156 | a killed command reports the 30 s timeout; otherwise a non-empty error message; otherwise `Command execution failed` |
| ControlServer.ShellEvents | mini-services/claude-code-control/index.ts:138-156 | the events reporting a shell result; what they are is stated by `ShellEventsReport` |
| ControlServer.ShellEventsReport | mini-services/claude-code-control/index.ts:138-156 | a shell command reports one or two non-empty events: stdout as output iff non-empty and then first, stderr as error iff non-empty, the success line alone when both are empty; the success line appears iff both are empty or stdout is that line; a failure is one error |
| ControlServer.ExecuteCommandEvents | mini-services/claude-code-control/index.ts:128-156 | the `execute-command` handler's events; their routing is stated by `SlashCommandsNeverRunShell` |
| ControlServer.SlashCommandsNeverRunShell | mini-services/claude-code-control/index.ts:128-136 | a command starting with `/` gets the slash-command events whatever the shell would give; any other command gets the shell's events |
| ControlServer.InheritedNamePassesGuard | mini-services/claude-code-control/index.ts:165-166 | as written, the guard `tasks[task]` admits `constructor`, which is not a task |
| ControlServer.InheritedTaskRunsFlow | mini-services/claude-code-control/index.ts:165-205 | as written, an inherited name broadcasts `running` and `idle`, reports all six progress steps and completes once with failure under the inherited value's name, where the intended lookup rejects it as unknown |
| ControlServer.TaskEventsAsWritten | mini-services/claude-code-control/index.ts:161-206 | the `execute-task` events as written, inherited names included; stated by `InheritedTaskRunsFlow` |
| ControlServer.LookupTask | mini-services/claude-code-control/index.ts:165-166 | a task is found iff it is one of the table's own entries, and then it is that entry |
| ControlServer.ProgressEvents | mini-services/claude-code-control/index.ts:180-183 | `n` progress events, the k-th reporting `20 * k` under the task's name |
| ControlServer.TaskRunEvents | mini-services/claude-code-control/index.ts:185-202 | the events of running the task's command; stated by `RunSummary` |
| ControlServer.TaskEvents | mini-services/claude-code-control/index.ts:161-206 | the `execute-task` events with the intended lookup; stated by `UnknownTaskRejected` and `KnownTaskFlow` |
| ControlServer.ProgressSummary | mini-services/claude-code-control/index.ts:180-183 | the progress loop reports 0, 20, 40, ... in order and nothing else |
| ControlServer.RunSummary | mini-services/claude-code-control/index.ts:185-201 | running the task's command completes once under the display name, successfully iff it did not throw, with no progress or status events |
| ControlServer.UnknownTaskRejected | mini-services/claude-code-control/index.ts:165-173 | an unknown task gives the `Unknown task` error and a failed completion, and no status change or progress |
| ControlServer.KnownTaskFlow | mini-services/claude-code-control/index.ts:175-205 | a known task broadcasts `running` first and `idle` last, reports progress 0 to 100 in steps of 20, and completes once, successfully iff its command did not throw |
| ControlServer.FlowStatuses | mini-services/claude-code-control/index.ts:175-205 | a known task's events broadcast exactly `running` then `idle` |
| ControlServer.FlowProgresses | mini-services/claude-code-control/index.ts:180-183 | a known task's events report exactly the progress 0, 20, 40, 60, 80, 100 |
| ControlServer.FlowCompletions | mini-services/claude-code-control/index.ts:185-202 | a known task's events complete exactly once, successfully iff its command did not throw |
| ControlServer.Server.constructor | mini-services/claude-code-control/index.ts:28-34 | the shared status starts disconnected, idle, `0m`, `0 MB`, `0%` |
| ControlServer.Server.OnConnection | mini-services/claude-code-control/index.ts:115-120 | a connection marks the server connected and sends the client the status |
| ControlServer.Server.RefreshMetrics | mini-services/claude-code-control/index.ts:82-89 | the periodic refresh stores uptime, memory and CPU and broadcasts the status |
| ControlServer.Server.OnExecuteCommand | mini-services/claude-code-control/index.ts:123-158 | the events sent are exactly the slash-command or shell events of the command |
| ControlServer.Server.OnExecuteTask | mini-services/claude-code-control/index.ts:161-206 | the events sent are the task's events; a known task leaves the status idle, an unknown one leaves it untouched |
| ControlServer.Server.ReportProgress | mini-services/claude-code-control/index.ts:180-183 | the progress loop sends 0, 20, ..., 100 to the asking client, six events in order |
| ControlServer.Server.OnGetStatus | mini-services/claude-code-control/index.ts:209-211 | `get-status` sends the status to the asking client |
| ControlServer.Server.OnRestart | mini-services/claude-code-control/index.ts:214-220 | `restart` announces `Restarting server...` as info |
| ControlServer.Server.OnDisconnect | mini-services/claude-code-control/index.ts:222-225 | after a disconnect the server is connected iff any client remains |
| ChatInterface.Receive | src/components/chat/ChatInterface.tsx:59-94 | a CLI message never removes a chat message and adds at most one |
| ChatInterface.Replay | src/components/chat/ChatInterface.tsx:40-42 | a stream of CLI messages never removes a chat message |
| ChatInterface.ReceiveThinking | src/components/chat/ChatInterface.tsx:61-69 | a thinking message appends one in-progress step numbered one past the steps seen, with the message as its description, and changes no chat message or error |
| ChatInterface.ReceiveResult | src/components/chat/ChatInterface.tsx:71-81 | a result appends one assistant message with the content, carrying the seen steps iff there are any, and empties the panel |
| ChatInterface.ReceiveError | src/components/chat/ChatInterface.tsx:83-93 | an error sets the banner to the content and appends one `Error: ` system message, steps untouched |
| ChatInterface.FreshStep | src/components/chat/ChatInterface.tsx:59-94 | with the latest steps read, one more message extends the replayed state exactly as the three cases above say, the banner untouched by thinking and result, and a command message changes nothing |
| ChatInterface.CommandMessagesIgnored | src/components/chat/ChatInterface.tsx:59-94 | a message the bridge classifies as a command changes nothing on the page |
| ChatInterface.FreshReplayKeepsChains | src/components/chat/ChatInterface.tsx:59-94 | with handlers that read the latest steps, the steps stay numbered 1, 2, ... and every answer's chain is non-empty and well numbered |
| ChatInterface.FreshThinkingBuildsChain | src/components/chat/ChatInterface.tsx:61-69 | from an empty panel, thinking messages build steps numbered 1 to n, in progress, with the messages as descriptions, and touch nothing else |
| ChatInterface.FreshResultKeepsChain | src/components/chat/ChatInterface.tsx:71-81 | the answer after a run of thinking messages carries exactly that chain, or none if there was no thinking, and the panel is emptied |
| ChatInterface.StaleThinkingNumbersOne | src/components/chat/ChatInterface.tsx:40-42 | as written, the handler registered at mount numbers every step 1 |
| ChatInterface.StaleResultDropsChain | src/components/chat/ChatInterface.tsx:40-42 | as written, the answer after thinking messages carries no chain at all |
| ChatInterface.StaleWiringDiffers | src/components/chat/ChatInterface.tsx:24-53 | for two thinking steps and an answer, the as-written wiring numbers the steps 1, 1 and drops the chain, while the intended one numbers them 1, 2 and keeps it |
| ChatInterface.Chat.constructor | src/components/chat/ChatInterface.tsx:15-21 | the page starts with no messages, steps, error, input, connection or socket |
| ChatInterface.Chat.Mount | src/components/chat/ChatInterface.tsx:48 | the mount effect creates the socket |
| ChatInterface.Chat.OnConnect | src/components/chat/ChatInterface.tsx:30-33 | `connect` sets the connected flag |
| ChatInterface.Chat.OnDisconnect | src/components/chat/ChatInterface.tsx:35-38 | `disconnect` clears both connection flags |
| ChatInterface.Chat.OnClaudeStatus | src/components/chat/ChatInterface.tsx:44-46 | the CLI counts as connected iff the reported status is `connected` |
| ChatInterface.Chat.HandleClaudeMessage | src/components/chat/ChatInterface.tsx:59-94 | the new conversation is the transition `Receive` of the old one, reading the current steps |
| ChatInterface.Chat.SetInput | src/components/chat/ChatInterface.tsx:168 | typing stores the text as the input and changes nothing else |
| ChatInterface.Chat.SendMessage | src/components/chat/ChatInterface.tsx:96-109 | a blank input or a missing socket changes nothing; otherwise one user message with the untrimmed input is added, `userMessage` is sent and the input emptied |
| ChatInterface.Chat.StartClaude | src/components/chat/ChatInterface.tsx:111-113 | `startClaude` is sent iff the socket exists |
| ChatInterface.Chat.StopClaude | src/components/chat/ChatInterface.tsx:115-117 | `stopClaude` is sent iff the socket exists |
| ChatInterface.Chat.DismissError | src/components/chat/ChatInterface.tsx:145-150 | dismissing the banner clears the error |
| ControlPanel.SlashCommandEffect | src/app/page.tsx:151-176 | the page's handling of a slash command; stated case by case by `ClearEmptiesTranscript`, `StatusOnlyAsks`, `HelpAddsFiveLines`, `RestartAnnounced` and `UnknownSlashCommand` |
| ControlPanel.SendCommandEffect | src/app/page.tsx:139-149 | the effect of sending a command; stated by `BlankCommandIgnored`, `PlainCommandEchoed` and the slash-command lemmas |
| ControlPanel.SlashWordMeansSlashCommand | src/app/page.tsx:151-153 | a command word starting with `/` comes from a command that starts with `/` and is not blank |
| ControlPanel.BlankCommandIgnored | src/app/page.tsx:139-140 | a whitespace-only command changes nothing and sends nothing |
| ControlPanel.PlainCommandEchoed | src/app/page.tsx:139-149 | a command without the slash is echoed as `> command` and sent, and nothing else |
| ControlPanel.ClearEmptiesTranscript | src/app/page.tsx:139-158 | sending `/clear` leaves the transcript empty, echo included, and only sends the command |
| ControlPanel.StatusOnlyAsks | src/app/page.tsx:159-161 | `/status` adds only the echo and asks the server for its status |
| ControlPanel.HelpAddsFiveLines | src/app/page.tsx:162-168 | `/help` adds exactly five info lines after the echo |
| ControlPanel.RestartAnnounced | src/app/page.tsx:169-172 | `/restart` adds one info line after the echo and asks the server to restart |
| ControlPanel.UnknownSlashCommand | src/app/page.tsx:173-174 | any other slash command adds one error line naming the lower-cased command word |
| ControlPanel.Receive | src/app/page.tsx:110-128 | a server event never removes a transcript line and adds at most one |
| ControlPanel.ReceiveAll | src/app/page.tsx:110-128 | a stream of server events never removes a transcript line |
| ControlPanel.ReceiveAllAppend | src/app/page.tsx:110-128 | receiving two streams in turn is receiving their concatenation |
| ControlPanel.CompletionEndsTask | src/app/page.tsx:122-128 | a completion always ends the active task and adds one line, an info line iff the task succeeded |
| ControlPanel.ProgressLineShowsPercent | src/app/page.tsx:118-120 | a progress event adds exactly one info line and changes nothing else, and the text between the `Task "X": ` prefix and the `% complete` suffix reads back as the percentage sent |
| ControlPanel.PredefinedTasksKnown | src/app/page.tsx:55-60 | every task button names one of the server's tasks, under the same display name |
| ControlPanel.TaskRunFreesButtons | src/app/page.tsx:178-182 | whatever its command gives, a task started from a button ends with the buttons enabled, the page showing the server idle, and no earlier line lost |
| ControlPanel.FlowFreesButtons | src/app/page.tsx:114-128 | the events of any known task leave the page with no active task and the idle status stored |
| ControlPanel.RestartUnknownToServer | mini-services/claude-code-control/index.ts:232-267 | the server answers `/restart` with its unknown-command error, though its help lists it |
| ControlPanel.UnknownWordToServer | mini-services/claude-code-control/index.ts:232-267 | a lower-case slash word without spaces that is not `/status`, `/help` or `/clear` gets exactly the unknown-command error naming it |
| ControlPanel.RestartShowsServerError | src/app/page.tsx:110-112 | so the Restart quick command shows that error before the server's restart notice |
| ControlPanel.UnknownWordThenRestart | src/app/page.tsx:110-112 | an unknown-command answer followed by the restart notice adds the error line and then the info line |
| ControlPanel.ControlPage.constructor | src/app/page.tsx:63-71 | the page starts with an empty transcript and input, the initial status, no active task, no connection and no socket |
| ControlPanel.ControlPage.AddTerminalMessage | src/app/page.tsx:74-82 | exactly one line is added at the end and the earlier lines are kept in order |
| ControlPanel.ControlPage.Mount | src/app/page.tsx:84-137 | the mount effect creates the socket and adds the two welcome lines |
| ControlPanel.ControlPage.OnConnect | src/app/page.tsx:98-102 | `connect` sets both connected flags and adds the connected line |
| ControlPanel.ControlPage.OnDisconnect | src/app/page.tsx:104-108 | `disconnect` clears both connected flags and adds the disconnected error line |
| ControlPanel.ControlPage.OnCommandOutput | src/app/page.tsx:110-112 | `command-output` adds the output as a line of its own type |
| ControlPanel.ControlPage.OnSystemStatus | src/app/page.tsx:114-116 | `system-status` replaces the stored status |
| ControlPanel.ControlPage.OnTaskProgress | src/app/page.tsx:118-120 | `task-progress` adds the `Task "X": N% complete` info line |
| ControlPanel.ControlPage.OnTaskComplete | src/app/page.tsx:122-128 | `task-complete` adds the completion line and ends the active task |
| ControlPanel.ControlPage.HandleSystemCommand | src/app/page.tsx:151-176 | the new transcript and sends are the slash-command effect of the lower-cased first word |
| ControlPanel.ControlPage.SendCommand | src/app/page.tsx:139-149 | the new transcript and sends are the effect of sending the command; the command box is emptied unless the command was blank |
| ControlPanel.ControlPage.SetCommandInput | src/app/page.tsx:384 | typing stores the text as the command and changes nothing else |
| ControlPanel.ControlPage.ExecuteTask | src/app/page.tsx:178-182 | `executeTask` adds `Starting task: name`, makes the task active and asks the server to run its command |
| ControlPanel.ControlPage.ClickTask | src/app/page.tsx:264-281 | a task button does nothing while a task is active, and starts the task otherwise |

## Left out

- Socket.io server and client set-up: CORS, ports, reconnection options, and the SIGTERM/SIGINT handlers. Each socket handler is one method, run to completion.
- Process spawning and shell execution. Timeouts, `maxBuffer` and `kill` enter only as an abstract child handle or an abstract `ShellResult`.
- `ClaudeCli.Connector.Start`: a `spawn` that throws synchronously is not modelled; the spawned child is a parameter.
- `getCPUUsage` (floating point and a shell pipeline). The CPU string is a parameter of `ControlServer.Server.RefreshMetrics`.
- The heap-usage fallback of `getMemoryUsage`, taken when the shell call throws. It uses `process.memoryUsage` and `Math.round` on floating point.
- Clocks, timers and random identifiers. Elapsed milliseconds are a parameter of `Uptime`, and message ids and timestamps are dropped.
- The JSON rendering of `systemStatus` that `/status` sends. It is a parameter, `statusJson`.
- The `process.exit` after `restart`.
- Races between asynchronous handlers on the shared `systemStatus`.
- Numbers are unbounded integers: no floating-point precision and no exponent notation in `${n}`.
- `Text.ToLower`: only `A`-`Z` are lower-cased; other Unicode case mappings of `toLowerCase` are not modelled.
- `ControlPanel.ControlPage.OnCommandOutput`: the event's `type` is taken from the server's three output types. The page's unchecked cast of any other string is not modelled.
- Handlers that throw are not modelled: in the source a throwing handler stops the fan-out to later handlers and the rest of the chunk's lines, and the exception escapes the stream's `data` listener. Handlers that register or notify from inside a handler call are not modelled either.
- `ControlServer.Server.OnExecuteTask`: the handler runs the intended lookup, so a name inherited from `Object.prototype` (`constructor`, `toString`, `__proto__`, ...) is rejected as unknown. As written it would run the task flow; that path is `TaskEventsAsWritten`, exhibited by `InheritedTaskRunsFlow`, and the handler does not promise it.
- `ControlServer.UnknownTaskRejected`: holds for the intended lookup only; as written, inherited names are not rejected (`InheritedTaskRunsFlow`).
- `ControlServer.InheritedDisplayName`: `Object.prototype` has no `name`, so for `__proto__` the source sends `task-complete` without a task name; the model uses the empty string.
- The orchestrator server (mini-services/ai-orchestrator/index.ts), the CLI check, the validation schemas, the test driver and the presentation components are not part of this model.

## Findings

| source | as written | input that shows it | evidently intended | confidence | as-written member | corrected member |
|---|---|---|---|---|---|---|
| src/components/chat/ChatInterface.tsx:40-42 | the `claude-message` handler registered at mount calls the first render's `handleClaudeMessage`, which always sees `currentThinking` as empty | two `thinking` messages then a `result` | steps numbered 1, 2, and the answer keeps the two steps | not executed | ChatInterface.StaleResultDropsChain | ChatInterface.FreshResultKeepsChain |
| mini-services/claude-code-control/index.ts:165-166 | `tasks[task]` is truthy for names inherited from `Object.prototype`, so the unknown-task branch is skipped | `execute-task` with task `constructor` | only the table's own entries are tasks; anything else is rejected as unknown | not executed | ControlServer.InheritedTaskRunsFlow | ControlServer.LookupTask |
