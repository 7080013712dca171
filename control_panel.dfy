/**
 * The remote-control page (src/app/page.tsx): a transcript of typed
 * terminal lines, the command box, the status the server last reported, and
 * the name of the task being run (`activeTask`), which disables every task
 * button while it is set.
 *
 * The page talks to the control server modelled in `ControlServer`: it
 * parses a slash command the same way (`ControlServer.CommandWord`), and
 * the server events it shows are `ControlServer.ServerEvent`s.
 */
module ControlPanel {
  import opened Wrappers
  import opened Text
  import opened Numerals
  import opened ControlServer

  /** `TerminalMessage['type']`. */
  datatype LineKind = CommandLine | OutputLine | ErrorLine | InfoLine

  /** A transcript line, without its random `id` and its timestamp. */
  datatype TerminalMessage = TerminalMessage(content: string, kind: LineKind)

  /** The page's `SystemStatus`: the optional fields are absent until the
      server first reports them. */
  datatype PanelStatus = PanelStatus(connected: bool, status: RunState,
                                     uptime: Option<string>, memory: Option<string>, cpu: Option<string>)

  const InitialPanelStatus := PanelStatus(false, Idle, None, None, None)

  /** What the page emits on its socket. */
  datatype PanelEmit = ExecuteCommand(command: string) | GetStatus | Restart | ExecuteTask(task: string, taskId: int)

  /** An entry of `predefinedTasks` (its icon left out). */
  datatype PanelTask = PanelTask(id: int, name: string, command: string)

  const PredefinedTasks := [
    PanelTask(1, "System Check", "system-check"),
    PanelTask(2, "Build Project", "build-project"),
    PanelTask(3, "Run Tests", "run-tests"),
    PanelTask(4, "Deploy", "deploy")
  ]

  /** The kind of line a `command-output` event becomes. */
  function LineKindOf(t: OutputType): LineKind
  {
    match t
    case Output => OutputLine
    case ErrorOutput => ErrorLine
    case Info => InfoLine
  }

  /** The status as the page stores it after a `system-status` event. */
  function Reported(s: SystemStatus): PanelStatus
  {
    PanelStatus(s.connected, s.status, Some(s.uptime), Some(s.memory), Some(s.cpu))
  }

  // ---------------------------------------------------------------------
  // Commands typed by the user
  // ---------------------------------------------------------------------

  /** The transcript together with what the page has emitted. */
  datatype Terminal = Terminal(messages: seq<TerminalMessage>, emits: seq<PanelEmit>)

  /** `socket?.emit(e)`: nothing is sent before the socket exists. */
  function Sent(socket: bool, e: PanelEmit): seq<PanelEmit>
  {
    if socket then [e] else []
  }

  /** The echo of a typed command. */
  function Echo(command: string): TerminalMessage
  {
    TerminalMessage("> " + command, CommandLine)
  }

  /** The five lines `/help` shows. */
  const HelpLines := [
    TerminalMessage("Available commands:", InfoLine),
    TerminalMessage("  /status  - Get system status", InfoLine),
    TerminalMessage("  /clear   - Clear terminal", InfoLine),
    TerminalMessage("  /help    - Show this help message", InfoLine),
    TerminalMessage("  /restart - Restart the system", InfoLine)
  ]

  const RestartingLine := TerminalMessage("Restarting system...", InfoLine)

  /** The page's `handleSystemCommand(command)`, by the lower-cased first
      `' '`-separated token: `/clear` empties the transcript, `/status` asks
      the server for its status, `/help` lists the commands, `/restart`
      announces the restart and asks the server for it, and anything else
      is reported as unknown. */
  function SlashCommandEffect(t: Terminal, command: string, socket: bool): Terminal
  {
    var cmd := CommandWord(command);
    if cmd == "/clear" then t.(messages := [])
    else if cmd == "/status" then t.(emits := t.emits + Sent(socket, GetStatus))
    else if cmd == "/help" then t.(messages := t.messages + HelpLines)
    else if cmd == "/restart" then
      Terminal(t.messages + [RestartingLine], t.emits + Sent(socket, Restart))
    else t.(messages := t.messages + [TerminalMessage("Unknown command: " + cmd, ErrorLine)])
  }

  /** `sendCommand(command)`: a blank command does nothing; any other is
      echoed and sent to the server as `execute-command`, and a command that
      starts with `/` is then also handled on the page. */
  function SendCommandEffect(t: Terminal, command: string, socket: bool): Terminal
  {
    if IsBlank(command) then t
    else
      var sent := Terminal(t.messages + [Echo(command)], t.emits + Sent(socket, ExecuteCommand(command)));
      if StartsWith(command, "/") then SlashCommandEffect(sent, command, socket) else sent
  }

  /** A command word that starts with `/` comes from a command that starts
      with `/`, which is not blank. */
  lemma SlashWordMeansSlashCommand(command: string)
    requires |CommandWord(command)| > 0 && CommandWord(command)[0] == '/'
    ensures StartsWith(command, "/") && !IsBlank(command)
  {
    var w := Split(command, ' ')[0];
    SplitFirstIsPrefix(command, ' ');
    assert LowerChar(w[0]) == '/';
    assert command[0] == w[0] == '/';
    assert !IsSpace(command[0]);
  }

  /** A blank command changes nothing and sends nothing. */
  lemma BlankCommandIgnored(t: Terminal, command: string, socket: bool)
    requires IsBlank(command)
    ensures SendCommandEffect(t, command, socket) == t
  {
  }

  /** A command without the slash is echoed and sent, and nothing else. */
  lemma PlainCommandEchoed(t: Terminal, command: string, socket: bool)
    requires !IsBlank(command) && !StartsWith(command, "/")
    ensures SendCommandEffect(t, command, socket)
         == Terminal(t.messages + [Echo(command)], t.emits + Sent(socket, ExecuteCommand(command)))
  {
  }

  /** Sending `/clear` leaves the transcript empty: the echo goes too. */
  lemma ClearEmptiesTranscript(t: Terminal, command: string, socket: bool)
    requires CommandWord(command) == "/clear"
    ensures SendCommandEffect(t, command, socket) == Terminal([], t.emits + Sent(socket, ExecuteCommand(command)))
  {
    SlashWordMeansSlashCommand(command);
  }

  /** `/status` only asks the server: the transcript gets the echo alone. */
  lemma StatusOnlyAsks(t: Terminal, command: string, socket: bool)
    requires CommandWord(command) == "/status"
    ensures SendCommandEffect(t, command, socket)
         == Terminal(t.messages + [Echo(command)], t.emits + Sent(socket, ExecuteCommand(command)) + Sent(socket, GetStatus))
  {
    SlashWordMeansSlashCommand(command);
  }

  /** `/help` adds exactly five information lines after the echo. */
  lemma HelpAddsFiveLines(t: Terminal, command: string, socket: bool)
    requires CommandWord(command) == "/help"
    ensures SendCommandEffect(t, command, socket)
         == Terminal(t.messages + [Echo(command)] + HelpLines, t.emits + Sent(socket, ExecuteCommand(command)))
    ensures |HelpLines| == 5 && forall i :: 0 <= i < 5 ==> HelpLines[i].kind == InfoLine
  {
    SlashWordMeansSlashCommand(command);
  }

  /** `/restart` adds one information line and asks the server to restart. */
  lemma RestartAnnounced(t: Terminal, command: string, socket: bool)
    requires CommandWord(command) == "/restart"
    ensures SendCommandEffect(t, command, socket)
         == Terminal(t.messages + [Echo(command), RestartingLine],
                     t.emits + Sent(socket, ExecuteCommand(command)) + Sent(socket, Restart))
  {
    SlashWordMeansSlashCommand(command);
  }

  /** Any other slash command adds one error line naming the command word. */
  lemma UnknownSlashCommand(t: Terminal, command: string, socket: bool)
    requires StartsWith(command, "/")
    requires CommandWord(command) !in {"/clear", "/status", "/help", "/restart"}
    ensures SendCommandEffect(t, command, socket)
         == Terminal(t.messages + [Echo(command), TerminalMessage("Unknown command: " + CommandWord(command), ErrorLine)],
                     t.emits + Sent(socket, ExecuteCommand(command)))
  {
    assert !IsSpace(command[0]);
  }

  // ---------------------------------------------------------------------
  // Events from the server
  // ---------------------------------------------------------------------

  /** The part of the page state that server events update. */
  datatype Panel = Panel(messages: seq<TerminalMessage>, status: PanelStatus, activeTask: Option<string>)

  /** The line a `task-progress` event adds. */
  function ProgressLine(task: string, progress: int): TerminalMessage
  {
    TerminalMessage("Task \"" + task + "\": " + IntToString(progress) + "% complete", InfoLine)
  }

  /** The line a `task-complete` event adds. */
  function CompletionLine(task: string, success: bool): TerminalMessage
  {
    if success then TerminalMessage("Task \"" + task + "\" completed successfully", InfoLine)
    else TerminalMessage("Task \"" + task + "\" failed", ErrorLine)
  }

  /** The page's socket handlers for the server's events: output becomes a
      line of its own kind, progress and completion become lines, a
      completion also ends the active task, and a status replaces the
      stored one. */
  function Receive(p: Panel, e: ServerEvent): (q: Panel)
    ensures p.messages <= q.messages && |q.messages| <= |p.messages| + 1
  {
    match e
    case CommandOutput(output, t) => p.(messages := p.messages + [TerminalMessage(output, LineKindOf(t))])
    case TaskProgress(task, progress) => p.(messages := p.messages + [ProgressLine(task, progress)])
    case TaskComplete(task, success) =>
      p.(messages := p.messages + [CompletionLine(task, success)], activeTask := None)
    case StatusUpdate(s) => p.(status := Reported(s))
  }

  /** The page after it received the server's events in order; a broadcast
      reaches this page as well as the others. */
  function ReceiveAll(p: Panel, out: seq<Outbound>): (q: Panel)
    ensures p.messages <= q.messages
  {
    if |out| == 0 then p else Receive(ReceiveAll(p, out[..|out| - 1]), out[|out| - 1].event)
  }

  lemma {:induction false} ReceiveAllAppend(p: Panel, xs: seq<Outbound>, ys: seq<Outbound>)
    ensures ReceiveAll(p, xs + ys) == ReceiveAll(ReceiveAll(p, xs), ys)
  {
    if |ys| == 0 {
      assert xs + ys == xs;
    } else {
      ReceiveAllAppend(p, xs, ys[..|ys| - 1]);
      assert (xs + ys)[..|xs + ys| - 1] == xs + ys[..|ys| - 1];
    }
  }

  /** A completion always ends the active task and adds one line, an
      information line exactly when the task succeeded. */
  lemma CompletionEndsTask(p: Panel, task: string, success: bool)
    ensures Receive(p, TaskComplete(task, success)).activeTask == None
    ensures Receive(p, TaskComplete(task, success)).messages == p.messages + [CompletionLine(task, success)]
    ensures CompletionLine(task, success).kind == InfoLine <==> success
  {
  }

  /** A `task-progress` event adds one information line and changes nothing
      else; between the task's `Task "X": ` prefix and the `% complete`
      suffix the line holds text that reads back as the percentage sent. */
  lemma ProgressLineShowsPercent(p: Panel, task: string, progress: int)
    ensures var q := Receive(p, TaskProgress(task, progress));
      var prefix := "Task \"" + task + "\": ";
      var suffix := "% complete";
      && q.(messages := p.messages) == p
      && |q.messages| == |p.messages| + 1 && q.messages[..|p.messages|] == p.messages
      && q.messages[|p.messages|].kind == InfoLine
      && |prefix| + |suffix| <= |q.messages[|p.messages|].content|
      && prefix <= q.messages[|p.messages|].content
      && q.messages[|p.messages|].content[|q.messages[|p.messages|].content| - |suffix|..] == suffix
      && ParseInt(q.messages[|p.messages|].content[|prefix|..|q.messages[|p.messages|].content| - |suffix|])
         == Some(progress)
  {
    var prefix, suffix, digits := "Task \"" + task + "\": ", "% complete", IntToString(progress);
    var line := prefix + digits + suffix;
    assert line[|prefix|..|line| - |suffix|] == digits;
    assert line[|line| - |suffix|..] == suffix;
    assert Receive(p, TaskProgress(task, progress)).messages[|p.messages|].content == line;
    ParseIntToString(progress);
  }

  /** Every task button names a task the server knows, under the same
      display name, so the server's completion names the page's active task. */
  lemma PredefinedTasksKnown()
    ensures forall i :: 0 <= i < |PredefinedTasks| ==>
      PredefinedTasks[i].command in Tasks && Tasks[PredefinedTasks[i].command].name == PredefinedTasks[i].name
  {
  }

  /** Whatever the server was doing and whatever the task's command gives,
      a task started from a button ends with the buttons enabled again and
      the page showing the server idle; no earlier line is lost. */
  lemma TaskRunFreesButtons(p: Panel, i: int, before: SystemStatus, run: ShellResult)
    requires 0 <= i < |PredefinedTasks|
    ensures var q := ReceiveAll(p, TaskEvents(before, PredefinedTasks[i].command, run));
      && q.activeTask == None
      && q.status == Reported(before.(status := Idle))
      && p.messages <= q.messages
  {
    var task := PredefinedTasks[i].command;
    PredefinedTasksKnown();
    KnownTaskParts(before, task, run);
    FlowFreesButtons(p, before, Tasks[task].name, run);
  }

  /** The events of a known task leave no task active and the idle status
      stored, whatever came before. */
  lemma FlowFreesButtons(p: Panel, before: SystemStatus, name: string, run: ShellResult)
    ensures var q := ReceiveAll(p, Flow(before, name, run));
      && q.activeTask == None
      && q.status == Reported(before.(status := Idle))
  {
    var head := [Broadcast(StatusUpdate(before.(status := Running)))] + ProgressEvents(name, 6);
    var run' := TaskRunEvents(name, run);
    var reports := run'[..|run'| - 1];
    var done := [Emit(TaskComplete(name, run.Completed?))];
    var last: seq<Outbound> := [Broadcast(StatusUpdate(before.(status := Idle)))];
    assert run' == reports + done;
    assert Flow(before, name, run) == (head + reports) + done + last;
    ReceiveAllAppend(p, (head + reports) + done, last);
    ReceiveAllAppend(p, head + reports, done);
    assert done[..0] == [];
    assert last[..0] == [];
  }

  /** The server's answer to a slash command it does not know. */
  function UnknownToServer(word: string): ServerEvent
  {
    CommandOutput("Unknown command: " + word + ". Type /help for available commands.", ErrorOutput)
  }

  /** The server answers a lower-case slash word it does not know, with no
      space in it, with its unknown-command error naming the word. */
  lemma UnknownWordToServer(command: string, statusJson: string, shell: ShellResult)
    requires |command| > 0 && command[0] == '/' && ' ' !in command
    requires forall i :: 0 <= i < |command| ==> !('A' <= command[i] <= 'Z')
    requires command != "/status" && command != "/help" && command != "/clear"
    ensures ExecuteCommandEvents(command, statusJson, shell) == [UnknownToServer(command)]
  {
    SplitWithoutSeparator(command, ' ');
    assert ToLower(command) == command;
    assert command[..1] == "/";
  }

  /** `/restart` through the server: the server does not know the command
      its own help lists, and answers it with its unknown-command error. */
  lemma RestartUnknownToServer(statusJson: string, shell: ShellResult)
    ensures ExecuteCommandEvents("/restart", statusJson, shell) == [UnknownToServer("/restart")]
  {
    UnknownWordToServer("/restart", statusJson, shell);
  }

  /** Two output events add their two lines, in order. */
  lemma ReceiveTwoOutputs(p: Panel, a: ServerEvent, b: ServerEvent)
    requires a.CommandOutput? && b.CommandOutput?
    ensures ReceiveAll(p, [Emit(a), Emit(b)]).messages
         == p.messages + [TerminalMessage(a.output, LineKindOf(a.outputType)),
                          TerminalMessage(b.output, LineKindOf(b.outputType))]
  {
    var out := [Emit(a), Emit(b)];
    assert out[..1] == [Emit(a)] && out[..1][..0] == [];
    assert ReceiveAll(p, out[..1]) == Receive(p, a);
    assert ReceiveAll(p, out) == Receive(Receive(p, a), b);
  }

  /** A slash word the server does not know, sent before a restart, shows
      the server's unknown-command error before the restart notice. */
  lemma UnknownWordThenRestart(p: Panel, command: string, statusJson: string, shell: ShellResult)
    requires ExecuteCommandEvents(command, statusJson, shell) == [UnknownToServer(command)]
    ensures ReceiveAll(p, EmitAll(ExecuteCommandEvents(command, statusJson, shell))
                          + [Emit(CommandOutput(RestartNotice, Info))]).messages
         == p.messages + [TerminalMessage(UnknownToServer(command).output, ErrorLine),
                          TerminalMessage(RestartNotice, InfoLine)]
  {
    var unknown := UnknownToServer(command);
    var restarting := CommandOutput(RestartNotice, Info);
    assert EmitAll([unknown]) == [Emit(unknown)];
    ReceiveTwoOutputs(p, unknown, restarting);
  }

  /** So the Restart quick command shows the server's unknown-command error
      before the server's restart notice. */
  lemma RestartShowsServerError(p: Panel, statusJson: string, shell: ShellResult)
    ensures ReceiveAll(p, EmitAll(ExecuteCommandEvents("/restart", statusJson, shell))
                          + [Emit(CommandOutput(RestartNotice, Info))]).messages
         == p.messages + [TerminalMessage(UnknownToServer("/restart").output, ErrorLine),
                          TerminalMessage(RestartNotice, InfoLine)]
  {
    RestartUnknownToServer(statusJson, shell);
    UnknownWordThenRestart(p, "/restart", statusJson, shell);
  }

  // ---------------------------------------------------------------------
  // The page's state and handlers
  // ---------------------------------------------------------------------

  /** The `ClaudeCodeControl` component's state. */
  class ControlPage {
    var messages: seq<TerminalMessage>
    var commandInput: string
    var status: PanelStatus
    var activeTask: Option<string>
    var isConnected: bool
    /** Whether the mount effect has created the socket. */
    var hasSocket: bool
    /** Everything emitted on the socket so far, in order. */
    var emitted: seq<PanelEmit>

    function View(): Panel
      reads this
    {
      Panel(messages, status, activeTask)
    }

    function Term(): Terminal
      reads this
    {
      Terminal(messages, emitted)
    }

    constructor ()
      ensures messages == [] && commandInput == "" && status == InitialPanelStatus && activeTask == None
      ensures !isConnected && !hasSocket && emitted == []
    {
      messages := [];
      commandInput := "";
      status := InitialPanelStatus;
      activeTask := None;
      isConnected := false;
      hasSocket := false;
      emitted := [];
    }

    /** `addTerminalMessage(content, type)`: one line at the end. */
    method AddTerminalMessage(content: string, kind: LineKind)
      modifies this`messages
      ensures messages == old(messages) + [TerminalMessage(content, kind)]
    {
      messages := messages + [TerminalMessage(content, kind)];
    }

    /** The mount effect: creates the socket and shows the two welcome lines. */
    method Mount()
      modifies this`hasSocket, this`messages
      ensures hasSocket
      ensures messages == old(messages) + [TerminalMessage("Claude Code Remote Control Panel", InfoLine),
                                           TerminalMessage("Type /help for available commands", InfoLine)]
    {
      hasSocket := true;
      AddTerminalMessage("Claude Code Remote Control Panel", InfoLine);
      AddTerminalMessage("Type /help for available commands", InfoLine);
    }

    /** The `connect` handler. */
    method OnConnect()
      modifies this`isConnected, this`status, this`messages
      ensures isConnected && status == old(status).(connected := true)
      ensures messages == old(messages) + [TerminalMessage("Connected to Claude Code Control Server", InfoLine)]
    {
      isConnected := true;
      status := status.(connected := true);
      AddTerminalMessage("Connected to Claude Code Control Server", InfoLine);
    }

    /** The `disconnect` handler. */
    method OnDisconnect()
      modifies this`isConnected, this`status, this`messages
      ensures !isConnected && status == old(status).(connected := false)
      ensures messages == old(messages) + [TerminalMessage("Disconnected from server", ErrorLine)]
    {
      isConnected := false;
      status := status.(connected := false);
      AddTerminalMessage("Disconnected from server", ErrorLine);
    }

    /** The `command-output` handler. */
    method OnCommandOutput(output: string, t: OutputType)
      modifies this`messages
      ensures View() == Receive(old(View()), CommandOutput(output, t))
    {
      AddTerminalMessage(output, LineKindOf(t));
    }

    /** The `system-status` handler. */
    method OnSystemStatus(s: SystemStatus)
      modifies this`status
      ensures View() == Receive(old(View()), StatusUpdate(s))
    {
      status := Reported(s);
    }

    /** The `task-progress` handler. */
    method OnTaskProgress(task: string, progress: int)
      modifies this`messages
      ensures View() == Receive(old(View()), TaskProgress(task, progress))
    {
      AddTerminalMessage("Task \"" + task + "\": " + IntToString(progress) + "% complete", InfoLine);
    }

    /** The `task-complete` handler. */
    method OnTaskComplete(task: string, success: bool)
      modifies this`messages, this`activeTask
      ensures View() == Receive(old(View()), TaskComplete(task, success))
    {
      if success {
        AddTerminalMessage("Task \"" + task + "\" completed successfully", InfoLine);
      } else {
        AddTerminalMessage("Task \"" + task + "\" failed", ErrorLine);
      }
      activeTask := None;
    }

    /** The command box's `onChange`. */
    method SetCommandInput(text: string)
      modifies this`commandInput
      ensures commandInput == text
    {
      commandInput := text;
    }

    /** The page's `handleSystemCommand(command)`. */
    method HandleSystemCommand(command: string)
      modifies this`messages, this`emitted
      ensures Term() == SlashCommandEffect(old(Term()), command, hasSocket)
    {
      var parts := Split(command, ' ');
      var cmd := ToLower(parts[0]);
      if cmd == "/clear" {
        messages := [];
      } else if cmd == "/status" {
        if hasSocket {
          emitted := emitted + [GetStatus];
        }
      } else if cmd == "/help" {
        AddTerminalMessage("Available commands:", InfoLine);
        AddTerminalMessage("  /status  - Get system status", InfoLine);
        AddTerminalMessage("  /clear   - Clear terminal", InfoLine);
        AddTerminalMessage("  /help    - Show this help message", InfoLine);
        AddTerminalMessage("  /restart - Restart the system", InfoLine);
      } else if cmd == "/restart" {
        AddTerminalMessage("Restarting system...", InfoLine);
        if hasSocket {
          emitted := emitted + [Restart];
        }
      } else {
        AddTerminalMessage("Unknown command: " + cmd, ErrorLine);
      }
    }

    /** `sendCommand(command)`; the command box is emptied unless the
        command was blank. */
    method SendCommand(command: string)
      modifies this`messages, this`emitted, this`commandInput
      ensures Term() == SendCommandEffect(old(Term()), command, hasSocket)
      ensures commandInput == if IsBlank(command) then old(commandInput) else ""
    {
      if IsBlank(command) {
        return;
      }
      AddTerminalMessage("> " + command, CommandLine);
      if hasSocket {
        emitted := emitted + [ExecuteCommand(command)];
      }
      commandInput := "";
      if StartsWith(command, "/") {
        HandleSystemCommand(command);
      }
    }

    /** `executeTask(task)`: announces the task, marks it active and asks
        the server to run it. */
    method ExecuteTask(task: PanelTask)
      modifies this`messages, this`activeTask, this`emitted
      ensures messages == old(messages) + [TerminalMessage("Starting task: " + task.name, InfoLine)]
      ensures activeTask == Some(task.name)
      ensures emitted == old(emitted) + Sent(hasSocket, PanelEmit.ExecuteTask(task.command, task.id))
    {
      AddTerminalMessage("Starting task: " + task.name, InfoLine);
      activeTask := Some(task.name);
      if hasSocket {
        emitted := emitted + [PanelEmit.ExecuteTask(task.command, task.id)];
      }
    }

    /** A click on a task button: the buttons are disabled while a task is
        active, so the click then does nothing. */
    method ClickTask(task: PanelTask)
      modifies this`messages, this`activeTask, this`emitted
      ensures old(activeTask).Some? ==>
        messages == old(messages) && activeTask == old(activeTask) && emitted == old(emitted)
      ensures old(activeTask).None? ==>
        messages == old(messages) + [TerminalMessage("Starting task: " + task.name, InfoLine)]
        && activeTask == Some(task.name)
        && emitted == old(emitted) + Sent(hasSocket, PanelEmit.ExecuteTask(task.command, task.id))
    {
      if activeTask.None? {
        ExecuteTask(task);
      }
    }
  }
}
