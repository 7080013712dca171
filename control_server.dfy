/**
 * The command-and-task server (mini-services/claude-code-control/index.ts):
 * uptime and memory strings for the periodic status broadcast, the
 * slash-command dispatch, the routing of `execute-command` to slash commands
 * or the shell, the rules that turn a shell result into `command-output`
 * events, and the `execute-task` flow over the shared `systemStatus`.
 *
 * A shell execution is an abstract result (its stdout and stderr, or the
 * thrown error's `killed` flag and message). What the server sends is a log
 * of outbound events: `Emit` to the socket that asked, `Broadcast` to all.
 */
module ControlServer {
  import opened Wrappers
  import opened Text
  import opened Numerals

  // ---------------------------------------------------------------------
  // getUptime
  // ---------------------------------------------------------------------

  const MsPerMinute := 60000
  const MsPerHour := 3600000
  const MsPerDay := 86400000

  /** `getUptime()` for `elapsedMs` milliseconds since the server started:
      whole minutes, hours and days, each floored from the one before. */
  function Uptime(elapsedMs: int): string
  {
    var minutes := elapsedMs / 60000;
    var hours := minutes / 60;
    var days := hours / 24;
    if days > 0 then IntToString(days) + "d " + IntToString(hours % 24) + "h"
    else if hours > 0 then IntToString(hours) + "h " + IntToString(minutes % 60) + "m"
    else IntToString(minutes) + "m"
  }

  /** Flooring twice is flooring once by the product. */
  lemma DivDiv(a: int, b: int, c: int)
    requires b > 0 && c > 0
    ensures (a / b) / c == a / (b * c)
  {
    var q, r := a / b, a % b;
    var q2, r2 := q / c, q % c;
    assert a == b * q + r && 0 <= r < b;
    assert q == c * q2 + r2 && 0 <= r2 < c;
    MulSpread(b, c, q2, r2);
    MulBelow(b, r2, c);
    DivUnique(a, b * c, q2, b * r2 + r);
  }

  lemma MulSpread(b: int, c: int, q: int, r: int)
    ensures b * (c * q + r) == (b * c) * q + b * r
  {
  }

  lemma MulBelow(b: int, r: int, c: int)
    requires b > 0 && 0 <= r < c
    ensures 0 <= b * r && b * r + b <= b * c
  {
    MulDistance(b, c, r);
  }

  /** Euclidean division is unique. */
  lemma DivUnique(a: int, d: int, q: int, r: int)
    requires d > 0 && a == d * q + r && 0 <= r < d
    ensures a / d == q
  {
    var q0, r0 := a / d, a % d;
    assert a == d * q0 + r0 && 0 <= r0 < d;
    if q0 > q {
      MulDistance(d, q0, q);
      assert false;
    } else if q0 < q {
      MulDistance(d, q, q0);
      assert false;
    }
  }

  lemma MulDistance(d: int, x: int, y: int)
    requires d > 0 && x > y
    ensures d * x >= d * y + d
  {
    var k := x - y - 1;
    assert k >= 0;
    assert d * x == d * y + d + d * k;
    assert d * k >= 0;
  }

  /** What the uptime string says, in terms of the elapsed time itself:
      whole days and the hours past them from one day on, whole hours and
      the minutes past them from one hour on, whole minutes below that (and
      a negative minute count if the clock went backwards). The displayed
      hour part is always below 24 and the minute part below 60. */
  lemma UptimeReadsElapsed(ms: int)
    ensures ms >= MsPerDay ==>
      Uptime(ms) == Decimal(ms / MsPerDay) + "d " + Decimal(ms / MsPerHour % 24) + "h"
      && ms / MsPerHour % 24 < 24
    ensures MsPerHour <= ms < MsPerDay ==>
      Uptime(ms) == Decimal(ms / MsPerHour) + "h " + Decimal(ms / MsPerMinute % 60) + "m"
      && ms / MsPerHour < 24 && ms / MsPerMinute % 60 < 60
    ensures ms < MsPerHour ==> Uptime(ms) == IntToString(ms / MsPerMinute) + "m"
    ensures 0 <= ms < MsPerHour ==> ms / MsPerMinute < 60
  {
    DivDiv(ms, 60000, 60);
    DivDiv(ms, 3600000, 24);
    var hours := ms / 3600000;
    var days := ms / 86400000;
    if ms >= MsPerDay {
      assert days >= 1;
    } else if ms >= MsPerHour {
      assert days == 0 && hours >= 1 && hours < 24;
    } else {
      assert hours <= 0;
      if ms < 0 {
        assert days < 0;
      }
    }
  }

  // ---------------------------------------------------------------------
  // getMemoryUsage: the parse of `free -m` output
  // ---------------------------------------------------------------------

  /** The element at `i` of a JavaScript array, `undefined` past the end. */
  function At(xs: seq<string>, i: nat): Option<string>
  {
    if i < |xs| then Some(xs[i]) else None
  }

  /** The parse step of `getMemoryUsage()`: the second line of the output,
      split on white-space runs; fields 1 and 2 are the total and the used
      megabytes. A missing or empty second line gives "N/A". */
  function MemoryUsage(stdout: string): string
  {
    match At(Split(stdout, '\n'), 1)
    case Some(memLine) =>
      if memLine != "" then
        var parts := SplitRuns(memLine);
        var total := ParseIntOrZero(At(parts, 1));
        var used := ParseIntOrZero(At(parts, 2));
        IntToString(used) + "/" + IntToString(total) + " MB"
      else "N/A"
    case None => "N/A"
  }

  /** The result is "N/A" exactly when there is no second line or it is empty. */
  lemma MemoryUnavailable(stdout: string)
    ensures MemoryUsage(stdout) == "N/A" <==> At(Split(stdout, '\n'), 1) in {None, Some("")}
  {
    match At(Split(stdout, '\n'), 1)
    case Some(memLine) =>
      if memLine != "" {
        var parts := SplitRuns(memLine);
        var r := MemoryUsage(stdout);
        var u := IntToString(ParseIntOrZero(At(parts, 2)));
        assert |r| > 3 by {
          assert r == u + "/" + IntToString(ParseIntOrZero(At(parts, 1))) + " MB";
        }
      }
    case None =>
  }

  /** A one-line output, such as the `echo` fallback used when `free` is
      missing, has an empty second piece, so its figures are never read. */
  lemma OneLineOutputUnread(line: string)
    requires '\n' !in line
    ensures MemoryUsage(line + "\n") == "N/A"
  {
    assert line + "\n" == line + ['\n'] + "";
    SplitAtSeparator(line, "", '\n');
    SplitWithoutSeparator(line, '\n');
  }

  /** The second `'\n'` piece of a text whose first two lines are given. */
  lemma SecondLine(header: string, line: string, rest: string)
    requires '\n' !in header && '\n' !in line
    ensures At(Split(header + "\n" + line + "\n" + rest, '\n'), 1) == Some(line)
  {
    assert header + "\n" + line + "\n" + rest == header + ['\n'] + (line + ['\n'] + rest);
    SplitAtSeparator(header, line + ['\n'] + rest, '\n');
    SplitAtSeparator(line, rest, '\n');
    SplitWithoutSeparator(header, '\n');
    SplitWithoutSeparator(line, '\n');
  }

  /** The memory string of an output whose second line has the given fields. */
  lemma MemoryFromFields(stdout: string, fields: seq<string>, total: nat, used: nat)
    requires |fields| >= 3 && fields[1] == Decimal(total) && fields[2] == Decimal(used)
    requires exists line :: At(Split(stdout, '\n'), 1) == Some(line) && line != "" && SplitRuns(line) == fields
    ensures MemoryUsage(stdout) == Decimal(used) + "/" + Decimal(total) + " MB"
  {
    ParseNonNegative(total);
    ParseNonNegative(used);
  }

  /** Reading a `free -m` table: when the second line holds a row name and the
      decimal total and used megabytes, followed by any further fields, each
      separated from the next by a non-empty run of white space other than a
      line break (as `free` pads its columns), the result is "used/total MB". */
  lemma MemoryFromFreeTable(header: string, rowName: string, total: nat, used: nat,
                            more: seq<string>, gaps: seq<string>, rest: string)
    requires '\n' !in header
    requires |rowName| > 0 && forall i :: 0 <= i < |rowName| ==> !IsSpace(rowName[i])
    requires forall k :: 0 <= k < |more| ==> |more[k]| > 0
    requires forall k, i :: 0 <= k < |more| && 0 <= i < |more[k]| ==> !IsSpace(more[k][i])
    requires |gaps| == |more| + 2
    requires forall k :: 0 <= k < |gaps| ==> |gaps[k]| > 0 && IsBlank(gaps[k]) && '\n' !in gaps[k]
    ensures MemoryUsage(header + "\n" + JoinGaps([rowName, Decimal(total), Decimal(used)] + more, gaps) + "\n" + rest)
         == Decimal(used) + "/" + Decimal(total) + " MB"
  {
    var fields := [rowName, Decimal(total), Decimal(used)] + more;
    var line := JoinGaps(fields, gaps);
    FieldsWellFormed(rowName, total, used, more);
    SplitRunsJoinGaps(fields, gaps);
    assert '\n' !in line by {
      assert IsSpace('\n');
      JoinGapsAvoids(fields, gaps, '\n');
    }
    SecondLine(header, line, rest);
    JoinGapsStartsWithFirst(fields, gaps);
    MemoryFromFields(header + "\n" + line + "\n" + rest, fields, total, used);
  }

  lemma FieldsWellFormed(rowName: string, total: nat, used: nat, more: seq<string>)
    requires |rowName| > 0 && forall i :: 0 <= i < |rowName| ==> !IsSpace(rowName[i])
    requires forall k :: 0 <= k < |more| ==> |more[k]| > 0
    requires forall k, i :: 0 <= k < |more| && 0 <= i < |more[k]| ==> !IsSpace(more[k][i])
    ensures var fields := [rowName, Decimal(total), Decimal(used)] + more;
      && (forall k :: 0 <= k < |fields| ==> |fields[k]| > 0)
      && (forall k, i :: 0 <= k < |fields| && 0 <= i < |fields[k]| ==> !IsSpace(fields[k][i]))
  {
    var fields := [rowName, Decimal(total), Decimal(used)] + more;
    forall k | 0 <= k < |fields| ensures |fields[k]| > 0 {
      if k >= 3 { assert fields[k] == more[k - 3]; }
    }
    forall k, i | 0 <= k < |fields| && 0 <= i < |fields[k]| ensures !IsSpace(fields[k][i]) {
      if k >= 3 { assert fields[k] == more[k - 3]; }
    }
  }

  /** A field with no decimal digit at all reads as NaN, so counts as 0. */
  lemma NoDigitsReadsZero(field: string)
    requires forall i :: 0 <= i < |field| ==> !('0' <= field[i] <= '9')
    ensures ParseInt(field) == None && ParseIntOrZero(Some(field)) == 0
  {
    var t := TrimStart(field);
    forall i | 0 <= i < |t| ensures !('0' <= t[i] <= '9') {
      assert t[i] == field[|field| - |t| + i];
    }
    NoDigitsNoSign(t);
  }

  lemma NoDigitsNoSign(t: string)
    requires forall i :: 0 <= i < |t| ==> !('0' <= t[i] <= '9')
    ensures ParseSigned(t) == None
  {
    NoDigitsNoMagnitude(t);
    if |t| > 0 {
      NoDigitsNoMagnitude(t[1..]);
    }
  }

  lemma NoDigitsNoMagnitude(u: string)
    requires forall i :: 0 <= i < |u| ==> !('0' <= u[i] <= '9')
    ensures ParseMagnitude(u) == None
  {
    assert |u| > 0 ==> DigitValue(u[0], 10).None?;
  }

  // ---------------------------------------------------------------------
  // Events and status
  // ---------------------------------------------------------------------

  /** The `type` of a `command-output` event. */
  datatype OutputType = Output | ErrorOutput | Info

  /** `systemStatus.status`. */
  datatype RunState = Idle | Running | Stopped | Errored

  /** The server's shared `systemStatus`. */
  datatype SystemStatus = SystemStatus(connected: bool, status: RunState, uptime: string, memory: string, cpu: string)

  const InitialStatus := SystemStatus(false, Idle, "0m", "0 MB", "0%")

  datatype ServerEvent =
    | CommandOutput(output: string, outputType: OutputType)
    | TaskProgress(task: string, progress: int)
    | TaskComplete(task: string, success: bool)
    | StatusUpdate(status: SystemStatus)

  /** `socket.emit` to the requesting client, or `io.emit` to every client. */
  datatype Outbound = Emit(event: ServerEvent) | Broadcast(event: ServerEvent)

  function EmitAll(events: seq<ServerEvent>): (out: seq<Outbound>)
    ensures |out| == |events|
    ensures forall i :: 0 <= i < |events| ==> out[i] == Emit(events[i])
  {
    seq(|events|, i requires 0 <= i < |events| => Emit(events[i]))
  }

  // ---------------------------------------------------------------------
  // handleSystemCommand
  // ---------------------------------------------------------------------

  const HelpText :=
    "Available System Commands:\n"
    + "  /status     - Get current system status\n"
    + "  /help       - Show this help message\n"
    + "  /clear      - Clear terminal (handled by client)\n"
    + "  /restart    - Restart the server\n"
    + "\n"
    + "Available Tasks:\n"
    + "  - System Check: Run system diagnostics\n"
    + "  - Build Project: Build the Next.js project\n"
    + "  - Run Tests: Run linting and tests\n"
    + "  - Deploy: Deploy the application"

  /** The command word: the first `' '`-separated token, lower-cased. */
  function CommandWord(command: string): string
  {
    ToLower(Split(command, ' ')[0])
  }

  /** `handleSystemCommand(socket, command)`: the events it emits.
      `statusJson` is the JSON text of `systemStatus` that `/status` sends. */
  function SystemCommandEvents(command: string, statusJson: string): seq<ServerEvent>
  {
    var cmd := CommandWord(command);
    if cmd == "/status" then [CommandOutput(statusJson, Info)]
    else if cmd == "/help" then [CommandOutput(HelpText, Info)]
    else if cmd == "/clear" then []
    else [CommandOutput("Unknown command: " + cmd + ". Type /help for available commands.", ErrorOutput)]
  }

  /** Every slash command emits at most one event: one `info` event for
      `/status` and `/help`, none for `/clear`, and one `error` naming the
      command word for anything else. */
  lemma SystemCommandOutcome(command: string, statusJson: string)
    ensures var cmd := CommandWord(command);
      var evs := SystemCommandEvents(command, statusJson);
      && (evs == [] <==> cmd == "/clear")
      && (cmd in {"/status", "/help"} ==> |evs| == 1 && evs[0].CommandOutput? && evs[0].outputType == Info)
      && (cmd !in {"/status", "/help", "/clear"} ==>
            evs == [CommandOutput("Unknown command: " + cmd + ". Type /help for available commands.", ErrorOutput)])
  {
  }

  lemma {:induction false} ToLowerIdempotent(s: string)
    ensures ToLower(ToLower(s)) == ToLower(s)
  {
    if |s| > 0 {
      ToLowerIdempotent(s[1..]);
      assert ToLower(s)[1..] == ToLower(s[1..]);
    }
  }

  /** Slash commands ignore letter case and everything after the first space. */
  lemma SystemCommandIgnoresCaseAndArguments(word: string, args: string, statusJson: string)
    requires ' ' !in word
    ensures SystemCommandEvents(ToLower(word) + " " + args, statusJson) == SystemCommandEvents(word, statusJson)
  {
    CommandWordIgnoresCaseAndArguments(word, args);
    SameWordSameEvents(ToLower(word) + " " + args, word, statusJson);
  }

  lemma CommandWordIgnoresCaseAndArguments(word: string, args: string)
    requires ' ' !in word
    ensures CommandWord(ToLower(word) + " " + args) == CommandWord(word)
  {
    SplitWithoutSeparator(word, ' ');
    var lw := ToLower(word);
    assert ' ' !in lw by {
      forall i | 0 <= i < |lw| ensures lw[i] != ' ' { assert lw[i] == LowerChar(word[i]); }
    }
    SplitAfterPiece(lw, args, ' ');
    assert lw + " " + args == lw + [' '] + args;
    ToLowerIdempotent(word);
  }

  lemma SameWordSameEvents(c: string, d: string, statusJson: string)
    requires CommandWord(c) == CommandWord(d)
    ensures SystemCommandEvents(c, statusJson) == SystemCommandEvents(d, statusJson)
  {
  }

  // ---------------------------------------------------------------------
  // execute-command
  // ---------------------------------------------------------------------

  /** What a shell execution gave: the captured output, or the thrown error
      (`killed` is set when the process was killed: the 30 s timeout or the
      output buffer limit). */
  datatype ShellResult =
    | Completed(stdout: string, stderr: string)
    | Threw(killed: bool, message: Option<string>)

  /** What the `restart` handler announces before the process exits. */
  const RestartNotice := "Restarting server..."

  const TimeoutMessage := "Command timed out (30s limit)"
  const CommandFailedMessage := "Command execution failed"
  const NoOutputMessage := "Command executed successfully"

  /** The text reported for a failed shell command. */
  function CommandFailure(killed: bool, message: Option<string>): (text: string)
    ensures killed ==> text == TimeoutMessage
    ensures !killed && message.Some? && message.value != "" ==> text == message.value
    ensures !killed && (message.None? || message.value == "") ==> text == CommandFailedMessage
  {
    if killed then TimeoutMessage
    else if message.Some? && message.value != "" then message.value
    else CommandFailedMessage
  }

  /** The `command-output` events a shell command produces. */
  function ShellEvents(r: ShellResult): seq<ServerEvent>
  {
    match r
    case Completed(out, err) =>
      (if out != "" then [CommandOutput(out, Output)] else [])
      + (if err != "" then [CommandOutput(err, ErrorOutput)] else [])
      + (if out == "" && err == "" then [CommandOutput(NoOutputMessage, Output)] else [])
    case Threw(killed, message) => [CommandOutput(CommandFailure(killed, message), ErrorOutput)]
  }

  /** A shell command always reports something, at most twice: its stdout as
      output (when there is any), then its stderr as an error (when there is
      any), or the one success line when both are empty. The success line is
      therefore seen exactly when both are empty or when stdout is that very
      line. A thrown error is reported once, as an error. */
  lemma ShellEventsReport(r: ShellResult)
    ensures 1 <= |ShellEvents(r)| <= 2
    ensures forall e :: e in ShellEvents(r) ==> e.CommandOutput? && e.output != ""
    ensures r.Completed? ==>
      (CommandOutput(r.stdout, Output) in ShellEvents(r) <==> r.stdout != "")
      && (CommandOutput(r.stderr, ErrorOutput) in ShellEvents(r) <==> r.stderr != "")
      && (r.stdout != "" ==> ShellEvents(r)[0] == CommandOutput(r.stdout, Output))
      && (r.stdout == "" && r.stderr == "" ==> ShellEvents(r) == [CommandOutput(NoOutputMessage, Output)])
      && (CommandOutput(NoOutputMessage, Output) in ShellEvents(r)
          <==> (r.stdout == "" && r.stderr == "") || r.stdout == NoOutputMessage)
    ensures r.Threw? ==> ShellEvents(r) == [CommandOutput(CommandFailure(r.killed, r.message), ErrorOutput)]
  {
    assert TimeoutMessage != "" && CommandFailedMessage != "" && NoOutputMessage != "";
    assert NoOutputMessage[0] != ' ';
  }

  /** The `execute-command` handler's events: a command starting with `/` is
      a slash command, anything else is run by the shell. `shell` is what the
      shell run would give; it is consulted only for shell commands. */
  function ExecuteCommandEvents(command: string, statusJson: string, shell: ShellResult): seq<ServerEvent>
  {
    if StartsWith(command, "/") then SystemCommandEvents(command, statusJson) else ShellEvents(shell)
  }

  /** A slash command never reaches the shell: its events do not depend on
      any shell result; a command without the slash gets the shell's events. */
  lemma SlashCommandsNeverRunShell(command: string, statusJson: string, s1: ShellResult, s2: ShellResult)
    ensures StartsWith(command, "/") ==>
      ExecuteCommandEvents(command, statusJson, s1) == ExecuteCommandEvents(command, statusJson, s2)
      == SystemCommandEvents(command, statusJson)
    ensures !StartsWith(command, "/") ==> ExecuteCommandEvents(command, statusJson, s1) == ShellEvents(s1)
  {
  }

  // ---------------------------------------------------------------------
  // execute-task
  // ---------------------------------------------------------------------

  /** An entry of the `tasks` table. */
  datatype TaskInfo = TaskInfo(name: string, command: string, description: string)

  const Tasks: map<string, TaskInfo> := map[
    "system-check" := TaskInfo("System Check",
      "echo \"System Status: OK\" && echo \"Node Version:\" && node --version && echo \"Bun Version:\" && bun --version",
      "Run system diagnostics"),
    "build-project" := TaskInfo("Build Project",
      "cd /home/z/my-project && bun run build 2>&1 || echo \"Build completed with warnings\"",
      "Build the Next.js project"),
    "run-tests" := TaskInfo("Run Tests",
      "cd /home/z/my-project && bun run lint 2>&1 || echo \"Lint check completed\"",
      "Run linting and tests"),
    "deploy" := TaskInfo("Deploy",
      "echo \"Deploying to production...\" && sleep 2 && echo \"Deployment successful!\"",
      "Deploy the application")
  ]

  /** The names every plain JavaScript object inherits from `Object.prototype`. */
  const InheritedNames: set<string> := {
    "constructor", "hasOwnProperty", "isPrototypeOf", "propertyIsEnumerable",
    "toLocaleString", "toString", "valueOf", "__proto__",
    "__defineGetter__", "__defineSetter__", "__lookupGetter__", "__lookupSetter__"
  }

  /** The guard as written: `tasks[task]` is truthy for the table's own keys
      and also for every name inherited from `Object.prototype`. */
  predicate KnownAsWritten(task: string)
  {
    task in Tasks || task in InheritedNames
  }

  /** The guard lets inherited names through: "constructor" is not a task,
      yet `tasks["constructor"]` is a function, so the unknown-task branch
      is skipped and the task flow runs. */
  lemma InheritedNamePassesGuard()
    ensures KnownAsWritten("constructor") && "constructor" !in Tasks
  {
    assert "constructor" != "system-check" && "constructor" != "build-project";
    assert "constructor" != "run-tests" && "constructor" != "deploy";
  }

  /** The lookup as intended: only the table's own entries are tasks. */
  function LookupTask(task: string): (r: Option<TaskInfo>)
    ensures r.Some? <==> task in Tasks
    ensures r.Some? ==> r.value == Tasks[task]
  {
    if task in Tasks then Some(Tasks[task]) else None
  }

  /** The `name` of the value `tasks[task]` gives for an inherited name: the
      `Object` constructor is named "Object", every other inherited method
      carries its own name, and `Object.prototype` itself, reached through
      `__proto__`, has none (the empty string here). */
  function InheritedDisplayName(task: string): string
  {
    if task == "constructor" then "Object" else if task == "__proto__" then "" else task
  }

  /** The `execute-task` handler as written: an inherited name passes the
      guard and the task flow runs on the inherited value, whose missing
      `command` makes `execAsync` reject with the message `thrown`. */
  function TaskEventsAsWritten(before: SystemStatus, task: string, run: ShellResult, thrown: string): seq<Outbound>
  {
    if task !in Tasks && task in InheritedNames then
      Flow(before, InheritedDisplayName(task), Threw(false, Some(thrown)))
    else
      TaskEvents(before, task, run)
  }

  /** No inherited name is a key of the task table. */
  lemma InheritedNamesAreNotTasks(task: string)
    requires task in InheritedNames
    ensures task !in Tasks
  {
  }

  /** As written, an inherited name is not rejected: it broadcasts `running`
      and `idle`, reports all six progress steps and completes with failure
      under the inherited value's name, where the intended lookup rejects it
      as an unknown task. */
  lemma InheritedTaskRunsFlow(before: SystemStatus, task: string, run: ShellResult, thrown: string)
    requires task in InheritedNames
    ensures var evs := TaskEventsAsWritten(before, task, run, thrown);
      && Statuses(evs) == [Running, Idle]
      && Progresses(evs) == [0, 20, 40, 60, 80, 100]
      && Completions(evs) == [TaskComplete(InheritedDisplayName(task), false)]
    ensures TaskEvents(before, task, run)
         == [Emit(CommandOutput("Unknown task: " + task, ErrorOutput)), Emit(TaskComplete(task, false))]
  {
    InheritedNamesAreNotTasks(task);
    var name, thrownRun := InheritedDisplayName(task), Threw(false, Some(thrown));
    FlowStatuses(before, name, thrownRun);
    FlowProgresses(before, name, thrownRun);
    FlowCompletions(before, name, thrownRun);
    UnknownTaskRejected(before, task, run);
  }

  /** The progress events of a task: 0, 20, ... up to (not including) 20 * n. */
  function ProgressEvents(name: string, n: nat): (out: seq<Outbound>)
    ensures |out| == n
    ensures forall k :: 0 <= k < n ==> out[k] == Emit(TaskProgress(name, 20 * k))
  {
    seq(n, k requires 0 <= k < n => Emit(TaskProgress(name, 20 * k)))
  }

  lemma ProgressEventsStep(name: string, n: nat)
    ensures ProgressEvents(name, n + 1) == ProgressEvents(name, n) + [Emit(TaskProgress(name, 20 * n))]
  {
  }

  /** What the task's command run reports: stdout and stderr when not empty
      and success, or the error's message (or a default) and failure. */
  function TaskRunEvents(name: string, run: ShellResult): seq<Outbound>
  {
    match run
    case Completed(out, err) =>
      (if out != "" then [Emit(CommandOutput(out, Output))] else [])
      + (if err != "" then [Emit(CommandOutput(err, ErrorOutput))] else [])
      + [Emit(TaskComplete(name, true))]
    case Threw(_, message) =>
      var text := if message.Some? && message.value != "" then message.value else "Task execution failed";
      [Emit(CommandOutput(text, ErrorOutput)), Emit(TaskComplete(name, false))]
  }

  /** The outbound events of the `execute-task` handler, given the status
      before it and what the task's command gives. */
  function TaskEvents(before: SystemStatus, task: string, run: ShellResult): seq<Outbound>
  {
    match LookupTask(task)
    case None =>
      [Emit(CommandOutput("Unknown task: " + task, ErrorOutput)), Emit(TaskComplete(task, false))]
    case Some(info) =>
      var running := before.(status := Running);
      [Broadcast(StatusUpdate(running))] + ProgressEvents(info.name, 6)
      + TaskRunEvents(info.name, run) + [Broadcast(StatusUpdate(running.(status := Idle)))]
  }

  /** The progress percentages among some events, in order. */
  function Progresses(out: seq<Outbound>): seq<int>
  {
    if |out| == 0 then []
    else
      var last := out[|out| - 1];
      Progresses(out[..|out| - 1]) + (if last.event.TaskProgress? then [last.event.progress] else [])
  }

  /** The `task-complete` events among some events, in order. */
  function Completions(out: seq<Outbound>): seq<ServerEvent>
  {
    if |out| == 0 then []
    else
      var last := out[|out| - 1];
      Completions(out[..|out| - 1]) + (if last.event.TaskComplete? then [last.event] else [])
  }

  /** The status broadcasts among some events, in order. */
  function Statuses(out: seq<Outbound>): seq<RunState>
  {
    if |out| == 0 then []
    else
      var last := out[|out| - 1];
      Statuses(out[..|out| - 1]) + (if last.event.StatusUpdate? then [last.event.status.status] else [])
  }

  lemma {:induction false} SummariesAppend(xs: seq<Outbound>, ys: seq<Outbound>)
    ensures Progresses(xs + ys) == Progresses(xs) + Progresses(ys)
    ensures Completions(xs + ys) == Completions(xs) + Completions(ys)
    ensures Statuses(xs + ys) == Statuses(xs) + Statuses(ys)
  {
    if |ys| > 0 {
      SummariesAppend(xs, ys[..|ys| - 1]);
      assert (xs + ys)[..|xs + ys| - 1] == xs + ys[..|ys| - 1];
    } else {
      assert xs + ys == xs;
    }
  }

  lemma {:induction false} ProgressSummary(name: string, n: nat)
    ensures Progresses(ProgressEvents(name, n)) == seq(n, k requires 0 <= k < n => 20 * k)
    ensures Completions(ProgressEvents(name, n)) == []
    ensures Statuses(ProgressEvents(name, n)) == []
  {
    if n > 0 {
      ProgressSummary(name, n - 1);
      assert ProgressEvents(name, n)[..n - 1] == ProgressEvents(name, n - 1);
    }
  }

  lemma RunSummary(name: string, run: ShellResult)
    ensures Progresses(TaskRunEvents(name, run)) == []
    ensures Completions(TaskRunEvents(name, run)) == [TaskComplete(name, run.Completed?)]
    ensures Statuses(TaskRunEvents(name, run)) == []
  {
    var evs := TaskRunEvents(name, run);
    var reports := evs[..|evs| - 1];
    assert evs == reports + [evs[|evs| - 1]];
    assert evs[|evs| - 1] == Emit(TaskComplete(name, run.Completed?));
    assert forall o :: o in reports ==> o.event.CommandOutput?;
    OnlyOutputs(reports);
    SummariesAppend(reports, [evs[|evs| - 1]]);
    SummariesOfOne(evs[|evs| - 1]);
  }

  /** Output events alone carry no progress, completion or status. */
  lemma {:induction false} OnlyOutputs(xs: seq<Outbound>)
    requires forall o :: o in xs ==> o.event.CommandOutput?
    ensures Progresses(xs) == [] && Completions(xs) == [] && Statuses(xs) == []
  {
    if |xs| > 0 {
      assert xs[|xs| - 1] in xs;
      forall o | o in xs[..|xs| - 1] ensures o.event.CommandOutput? {
        assert o in xs;
      }
      OnlyOutputs(xs[..|xs| - 1]);
    }
  }

  lemma SummariesOfOne(o: Outbound)
    ensures Progresses([o]) == (if o.event.TaskProgress? then [o.event.progress] else [])
    ensures Completions([o]) == (if o.event.TaskComplete? then [o.event] else [])
    ensures Statuses([o]) == (if o.event.StatusUpdate? then [o.event.status.status] else [])
  {
    assert [o][..0] == [];
  }

  /** An unknown task is rejected at once: an error naming it and a failed
      completion, no status change and no progress. */
  lemma UnknownTaskRejected(before: SystemStatus, task: string, run: ShellResult)
    requires task !in Tasks
    ensures TaskEvents(before, task, run)
         == [Emit(CommandOutput("Unknown task: " + task, ErrorOutput)), Emit(TaskComplete(task, false))]
    ensures Statuses(TaskEvents(before, task, run)) == [] && Progresses(TaskEvents(before, task, run)) == []
  {
    var evs := TaskEvents(before, task, run);
    SummariesAppend([evs[0]], [evs[1]]);
    SummariesOfOne(evs[0]);
    SummariesOfOne(evs[1]);
    assert evs == [evs[0]] + [evs[1]];
  }

  /** The events of a known task, part by part. */
  lemma KnownTaskParts(before: SystemStatus, task: string, run: ShellResult)
    requires task in Tasks
    ensures TaskEvents(before, task, run) == Flow(before, Tasks[task].name, run)
  {
    assert before.(status := Running).(status := Idle) == before.(status := Idle);
  }

  lemma SixSteps()
    ensures seq(6, k requires 0 <= k < 6 => 20 * k) == [0, 20, 40, 60, 80, 100]
  {
  }

  /** A known task broadcasts `running` first and `idle` last, whatever its
      command gives; in between it reports progress 0, 20, 40, 60, 80 and
      100, in order, and completes once under its display name, successfully
      exactly when the command did not throw. */
  lemma KnownTaskFlow(before: SystemStatus, task: string, run: ShellResult)
    requires task in Tasks
    ensures var evs := TaskEvents(before, task, run);
      && evs[0] == Broadcast(StatusUpdate(before.(status := Running)))
      && evs[|evs| - 1] == Broadcast(StatusUpdate(before.(status := Idle)))
      && Statuses(evs) == [Running, Idle]
      && Progresses(evs) == [0, 20, 40, 60, 80, 100]
      && Completions(evs) == [TaskComplete(Tasks[task].name, run.Completed?)]
  {
    KnownTaskParts(before, task, run);
    FlowStatuses(before, Tasks[task].name, run);
    FlowProgresses(before, Tasks[task].name, run);
    FlowCompletions(before, Tasks[task].name, run);
  }

  /** The events of a known task under its display name, in four parts. */
  function Flow(before: SystemStatus, name: string, run: ShellResult): seq<Outbound>
  {
    [Broadcast(StatusUpdate(before.(status := Running)))] + ProgressEvents(name, 6)
    + TaskRunEvents(name, run) + [Broadcast(StatusUpdate(before.(status := Idle)))]
  }

  lemma FlowStatuses(before: SystemStatus, name: string, run: ShellResult)
    ensures Statuses(Flow(before, name, run)) == [Running, Idle]
  {
    var first: seq<Outbound> := [Broadcast(StatusUpdate(before.(status := Running)))];
    var progress := ProgressEvents(name, 6);
    var middle := TaskRunEvents(name, run);
    var last: seq<Outbound> := [Broadcast(StatusUpdate(before.(status := Idle)))];
    assert Statuses(first) == [Running] by {
      SummariesOfOne(first[0]);
      assert first == [first[0]];
    }
    assert Statuses(last) == [Idle] by {
      SummariesOfOne(last[0]);
      assert last == [last[0]];
    }
    assert Statuses(progress) == [] by { ProgressSummary(name, 6); }
    assert Statuses(middle) == [] by { RunSummary(name, run); }
    StatusesOfParts(first, progress, middle, last);
  }

  lemma FlowProgresses(before: SystemStatus, name: string, run: ShellResult)
    ensures Progresses(Flow(before, name, run)) == [0, 20, 40, 60, 80, 100]
  {
    var first: seq<Outbound> := [Broadcast(StatusUpdate(before.(status := Running)))];
    var progress := ProgressEvents(name, 6);
    var middle := TaskRunEvents(name, run);
    var last: seq<Outbound> := [Broadcast(StatusUpdate(before.(status := Idle)))];
    assert Progresses(first) == [] by {
      SummariesOfOne(first[0]);
      assert first == [first[0]];
    }
    assert Progresses(last) == [] by {
      SummariesOfOne(last[0]);
      assert last == [last[0]];
    }
    assert Progresses(progress) == [0, 20, 40, 60, 80, 100] by {
      ProgressSummary(name, 6);
      SixSteps();
    }
    assert Progresses(middle) == [] by { RunSummary(name, run); }
    ProgressesOfParts(first, progress, middle, last);
  }

  lemma FlowCompletions(before: SystemStatus, name: string, run: ShellResult)
    ensures Completions(Flow(before, name, run)) == [TaskComplete(name, run.Completed?)]
  {
    var first: seq<Outbound> := [Broadcast(StatusUpdate(before.(status := Running)))];
    var progress := ProgressEvents(name, 6);
    var middle := TaskRunEvents(name, run);
    var last: seq<Outbound> := [Broadcast(StatusUpdate(before.(status := Idle)))];
    assert Completions(first) == [] by {
      SummariesOfOne(first[0]);
      assert first == [first[0]];
    }
    assert Completions(last) == [] by {
      SummariesOfOne(last[0]);
      assert last == [last[0]];
    }
    assert Completions(progress) == [] by { ProgressSummary(name, 6); }
    assert Completions(middle) == [TaskComplete(name, run.Completed?)] by { RunSummary(name, run); }
    CompletionsOfParts(first, progress, middle, last);
  }

  lemma AppendFour(o: seq<Outbound>, a: seq<Outbound>, b: seq<Outbound>, c: seq<Outbound>, d: seq<Outbound>)
    ensures o + a + b + c + d == o + (a + b + c + d)
  {
  }

  lemma StatusesOfParts(w: seq<Outbound>, x: seq<Outbound>, y: seq<Outbound>, z: seq<Outbound>)
    requires Statuses(x) == [] && Statuses(y) == []
    ensures Statuses(w + x + y + z) == Statuses(w) + Statuses(z)
  {
    SummariesAppend(w, x);
    SummariesAppend(w + x, y);
    SummariesAppend(w + x + y, z);
  }

  lemma ProgressesOfParts(w: seq<Outbound>, x: seq<Outbound>, y: seq<Outbound>, z: seq<Outbound>)
    requires Progresses(w) == [] && Progresses(y) == [] && Progresses(z) == []
    ensures Progresses(w + x + y + z) == Progresses(x)
  {
    SummariesAppend(w, x);
    SummariesAppend(w + x, y);
    SummariesAppend(w + x + y, z);
  }

  lemma CompletionsOfParts(w: seq<Outbound>, x: seq<Outbound>, y: seq<Outbound>, z: seq<Outbound>)
    requires Completions(w) == [] && Completions(x) == [] && Completions(z) == []
    ensures Completions(w + x + y + z) == Completions(y)
  {
    SummariesAppend(w, x);
    SummariesAppend(w + x, y);
    SummariesAppend(w + x + y, z);
  }

  // ---------------------------------------------------------------------
  // The server's shared state and its socket handlers
  // ---------------------------------------------------------------------

  class Server {
    /** The shared `systemStatus`. */
    var status: SystemStatus
    /** Everything sent so far, in order. */
    var out: seq<Outbound>

    constructor ()
      ensures status == InitialStatus && out == []
    {
      status := InitialStatus;
      out := [];
    }

    /** A client connects: the server counts as connected and sends the
        new client the status. */
    method OnConnection()
      modifies this
      ensures status == old(status).(connected := true)
      ensures out == old(out) + [Emit(StatusUpdate(status))]
    {
      status := status.(connected := true);
      out := out + [Emit(StatusUpdate(status))];
    }

    /** The periodic refresh: uptime from the elapsed time, memory from the
        output of `free -m`, the CPU string as given; then a broadcast. */
    method RefreshMetrics(elapsedMs: int, freeStdout: string, cpu: string)
      modifies this
      ensures status == old(status).(uptime := Uptime(elapsedMs), memory := MemoryUsage(freeStdout), cpu := cpu)
      ensures out == old(out) + [Broadcast(StatusUpdate(status))]
    {
      status := status.(uptime := Uptime(elapsedMs));
      status := status.(memory := MemoryUsage(freeStdout));
      status := status.(cpu := cpu);
      out := out + [Broadcast(StatusUpdate(status))];
    }

    /** `execute-command`; `statusJson` is the JSON text of `status`. */
    method OnExecuteCommand(command: string, statusJson: string, shell: ShellResult)
      modifies this`out
      ensures out == old(out) + EmitAll(ExecuteCommandEvents(command, statusJson, shell))
    {
      if StartsWith(command, "/") {
        out := out + EmitAll(SystemCommandEvents(command, statusJson));
      } else {
        out := out + EmitAll(ShellEvents(shell));
      }
    }

    /** `execute-task`: rejects an unknown task; otherwise sets the status to
        running, reports progress in steps of 20 up to 100, runs the task's
        command and reports it, and sets the status back to idle. */
    method OnExecuteTask(task: string, run: ShellResult)
      modifies this
      ensures status == if task in Tasks then old(status).(status := Idle) else old(status)
      ensures out == old(out) + TaskEvents(old(status), task, run)
    {
      var info := LookupTask(task);
      if info.None? {
        out := out + [Emit(CommandOutput("Unknown task: " + task, ErrorOutput)), Emit(TaskComplete(task, false))];
        return;
      }
      var name := info.value.name;
      ghost var before := status;
      status := status.(status := Running);
      var first := [Broadcast(StatusUpdate(status))];
      out := out + first;
      ReportProgress(name);
      var middle := TaskRunEvents(name, run);
      out := out + middle;
      status := status.(status := Idle);
      var last := [Broadcast(StatusUpdate(status))];
      out := out + last;
      assert status == before.(status := Idle);
      KnownTaskParts(before, task, run);
      AppendFour(old(out), first, ProgressEvents(name, 6), middle, last);
    }

    /** The progress loop of `execute-task`: 0 to 100 in steps of 20. */
    method ReportProgress(name: string)
      modifies this`out
      ensures out == old(out) + ProgressEvents(name, 6)
    {
      var i := 0;
      ghost var n := 0;
      while i <= 100
        invariant 0 <= n <= 6 && i == 20 * n
        invariant out == old(out) + ProgressEvents(name, n)
      {
        ProgressEventsStep(name, n);
        out := out + [Emit(TaskProgress(name, i))];
        i := i + 20;
        n := n + 1;
      }
    }

    /** `get-status`: sends the status to the asking client. */
    method OnGetStatus()
      modifies this`out
      ensures out == old(out) + [Emit(StatusUpdate(status))]
    {
      out := out + [Emit(StatusUpdate(status))];
    }

    /** `restart`: announces the restart (the exit that follows is not modelled). */
    method OnRestart()
      modifies this`out
      ensures out == old(out) + [Emit(CommandOutput(RestartNotice, Info))]
    {
      out := out + [Emit(CommandOutput(RestartNotice, Info))];
    }

    /** `disconnect`: connected while any client remains. */
    method OnDisconnect(remainingClients: nat)
      modifies this`status
      ensures status == old(status).(connected := remainingClients > 0)
    {
      status := status.(connected := remainingClients > 0);
    }
  }
}
