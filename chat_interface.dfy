/**
 * The chat page's state machine (src/components/chat/ChatInterface.tsx): the
 * conversation shown (`messages`), the thinking steps of the answer being
 * produced (`currentThinking`), the error banner (`error`), the text box
 * (`input`) and the two connection flags.
 *
 * `handleClaudeMessage` reads `currentThinking` from the render it was
 * created in, while its list updates go through the `prev` argument and so
 * act on the latest state. `Receive` therefore takes the thinking steps the
 * handler sees (`seen`) apart from the conversation it updates. The socket
 * handler is registered once, at mount, and keeps calling the first
 * render's `handleClaudeMessage`, for which `seen` is always empty:
 * `Replay(c, events, true)` is that wiring as written, and
 * `Replay(c, events, false)` the evidently intended one that reads the
 * latest steps.
 */
module ChatInterface {
  import opened Wrappers
  import opened Text
  import opened Types

  /** The part of the page state that CLI messages update. */
  datatype Conversation = Conversation(messages: seq<ChatMessage>, thinking: seq<ThinkingStep>, error: Option<string>)

  /** What the page sends over its socket. */
  datatype ChatEmit = UserMessage(message: string) | StartClaude | StopClaude

  /** `handleClaudeMessage(data)` with `data.type == kind`, run by a handler
      that sees `seen` as `currentThinking`: a `thinking` message adds a step
      in progress numbered after the seen steps; a `result` message adds an
      assistant message carrying a copy of the seen steps (none when there
      are none) and empties the steps; an `error` message sets the banner and
      adds a system message; any other type changes nothing. The
      conversation only ever grows, by at most one message. */
  function Receive(c: Conversation, seen: seq<ThinkingStep>, kind: string, content: string): (d: Conversation)
    ensures c.messages <= d.messages && |d.messages| <= |c.messages| + 1
  {
    if kind == "thinking" then
      c.(thinking := c.thinking + [ThinkingStep(|seen| + 1, content, InProgress)])
    else if kind == "result" then
      c.(messages := c.messages + [ChatMessage(Assistant, content, if |seen| > 0 then Some(seen) else None)],
         thinking := [])
    else if kind == "error" then
      c.(messages := c.messages + [ChatMessage(System, "Error: " + content, None)], error := Some(content))
    else c
  }

  /** The page after the socket delivered `events` in order, each handled
      either by the mount-time handler (`stale`: it sees no steps) or by a
      handler that sees the latest steps. */
  function Replay(c: Conversation, events: seq<ClaudeMessage>, stale: bool): (d: Conversation)
    ensures c.messages <= d.messages
  {
    if |events| == 0 then c
    else
      var p := Replay(c, events[..|events| - 1], stale);
      var e := events[|events| - 1];
      Receive(p, if stale then [] else p.thinking, KindName(e.kind), e.content)
  }

  /** Steps numbered 1, 2, ... in order, all in progress: the chain the
      thinking panel is meant to show. */
  predicate Numbered(steps: seq<ThinkingStep>)
  {
    forall i :: 0 <= i < |steps| ==> steps[i].stepNumber == i + 1 && steps[i].status == InProgress
  }

  /** Every assistant message that carries thinking steps carries a
      non-empty, well-numbered chain. */
  predicate ChainsKept(messages: seq<ChatMessage>)
  {
    forall i :: 0 <= i < |messages| && messages[i].thinking.Some? ==>
      |messages[i].thinking.value| > 0 && Numbered(messages[i].thinking.value)
  }

  /** The thinking messages for the given descriptions, in order. */
  function Thoughts(descriptions: seq<string>): (events: seq<ClaudeMessage>)
    ensures |events| == |descriptions|
    ensures forall i :: 0 <= i < |events| ==> events[i] == ClaudeMessage(Thinking, descriptions[i])
  {
    seq(|descriptions|, i requires 0 <= i < |descriptions| => ClaudeMessage(Thinking, descriptions[i]))
  }

  /** The steps for the given descriptions numbered from `first` on. */
  function Steps(descriptions: seq<string>, first: int): (steps: seq<ThinkingStep>)
    ensures |steps| == |descriptions|
    ensures forall i :: 0 <= i < |steps| ==> steps[i] == ThinkingStep(first + i, descriptions[i], InProgress)
  {
    seq(|descriptions|, i requires 0 <= i < |descriptions| => ThinkingStep(first + i, descriptions[i], InProgress))
  }

  /** Handling one more event after a replay is one more `Receive`. */
  lemma ReplayStep(c: Conversation, events: seq<ClaudeMessage>, e: ClaudeMessage, stale: bool)
    ensures Replay(c, events + [e], stale) ==
      var p := Replay(c, events, stale);
      Receive(p, if stale then [] else p.thinking, KindName(e.kind), e.content)
  {
    assert (events + [e])[..|events|] == events;
  }

  /** A message the CLI bridge classifies as a command (`<execute>` lines)
      never shows up on the page. */
  lemma CommandMessagesIgnored(c: Conversation, seen: seq<ThinkingStep>, content: string)
    ensures Receive(c, seen, KindName(Command), content) == c
  {
    assert KindName(Command) == "command";
  }

  /** A `thinking` message, in any state: one step in progress is added,
      numbered after the steps the handler sees; the messages and the
      banner stay as they were. */
  lemma ReceiveThinking(c: Conversation, seen: seq<ThinkingStep>, content: string)
    ensures var d := Receive(c, seen, KindName(Thinking), content);
      && d.thinking == c.thinking + [ThinkingStep(|seen| + 1, content, InProgress)]
      && d.messages == c.messages && d.error == c.error
  {
    assert KindName(Thinking) == "thinking";
  }

  /** A `result` message, in any state: one assistant message with the
      content and a copy of the seen steps (none when there are none) is
      added, the steps are emptied and the banner stays as it was. */
  lemma ReceiveResult(c: Conversation, seen: seq<ThinkingStep>, content: string)
    ensures var d := Receive(c, seen, KindName(Result), content);
      && d.messages == c.messages + [ChatMessage(Assistant, content, if |seen| > 0 then Some(seen) else None)]
      && d.thinking == [] && d.error == c.error
  {
    assert KindName(Result) == "result";
  }

  /** An `error` message, in any state: the banner shows the content, one
      system message `Error: ` plus the content is added, and the steps stay
      as they were. */
  lemma ReceiveError(c: Conversation, seen: seq<ThinkingStep>, content: string)
    ensures var d := Receive(c, seen, KindName(Error), content);
      && d.error == Some(content)
      && d.messages == c.messages + [ChatMessage(System, "Error: " + content, None)]
      && d.thinking == c.thinking
  {
    assert KindName(Error) == "error";
  }

  /** With handlers that read the latest steps, after any history: a
      thinking message extends the chain with the next number, a result
      message stores the whole chain with the answer and empties the panel
      (neither touches the banner), an error message sets the banner and
      keeps the chain, and a command message changes nothing. */
  lemma FreshStep(c: Conversation, events: seq<ClaudeMessage>, e: ClaudeMessage)
    ensures var p := Replay(c, events, false);
      var d := Replay(c, events + [e], false);
      && (e.kind == Thinking ==>
            d.thinking == p.thinking + [ThinkingStep(|p.thinking| + 1, e.content, InProgress)]
            && d.messages == p.messages && d.error == p.error)
      && (e.kind == Result ==>
            d.messages == p.messages + [ChatMessage(Assistant, e.content, if |p.thinking| > 0 then Some(p.thinking) else None)]
            && d.thinking == [] && d.error == p.error)
      && (e.kind == Error ==>
            d.error == Some(e.content) && d.thinking == p.thinking
            && d.messages == p.messages + [ChatMessage(System, "Error: " + e.content, None)])
      && (e.kind == Command ==> d == p)
  {
    ReplayStep(c, events, e, false);
    var p := Replay(c, events, false);
    ReceiveThinking(p, p.thinking, e.content);
    ReceiveResult(p, p.thinking, e.content);
    ReceiveError(p, p.thinking, e.content);
    CommandMessagesIgnored(p, p.thinking, e.content);
  }

  /** With handlers that read the latest steps, the thinking panel always
      holds a well-numbered chain and every answer keeps the chain it was
      preceded by. */
  lemma {:induction false} FreshReplayKeepsChains(c: Conversation, events: seq<ClaudeMessage>)
    requires Numbered(c.thinking) && ChainsKept(c.messages)
    ensures Numbered(Replay(c, events, false).thinking)
    ensures ChainsKept(Replay(c, events, false).messages)
  {
    if |events| > 0 {
      var xs, e := events[..|events| - 1], events[|events| - 1];
      FreshReplayKeepsChains(c, xs);
      assert events == xs + [e];
      ReplayStep(c, xs, e, false);
      var p := Replay(c, xs, false);
      ReceiveKeepsChains(p, KindName(e.kind), e.content);
    }
  }

  /** One event received with the live chain keeps the chain numbered and
      every stored chain well formed. */
  lemma ReceiveKeepsChains(p: Conversation, kind: string, content: string)
    requires Numbered(p.thinking) && ChainsKept(p.messages)
    ensures Numbered(Receive(p, p.thinking, kind, content).thinking)
    ensures ChainsKept(Receive(p, p.thinking, kind, content).messages)
  {
    var d := Receive(p, p.thinking, kind, content);
    if kind == "thinking" {
      assert d.messages == p.messages;
    } else if kind == "result" {
      assert d.messages == p.messages + [ChatMessage(Assistant, content, if |p.thinking| > 0 then Some(p.thinking) else None)];
    }
  }

  /** Intended behaviour: starting from an empty panel, thinking messages
      build the chain 1, 2, ..., n. */
  lemma {:induction false} FreshThinkingBuildsChain(c: Conversation, descriptions: seq<string>)
    requires c.thinking == []
    ensures Replay(c, Thoughts(descriptions), false) == c.(thinking := Steps(descriptions, 1))
  {
    if |descriptions| > 0 {
      var n := |descriptions| - 1;
      var ds := descriptions[..n];
      FreshThinkingBuildsChain(c, ds);
      assert Thoughts(descriptions) == Thoughts(ds) + [ClaudeMessage(Thinking, descriptions[n])];
      ReplayStep(c, Thoughts(ds), ClaudeMessage(Thinking, descriptions[n]), false);
      assert Steps(descriptions, 1) == Steps(ds, 1) + [ThinkingStep(n + 1, descriptions[n], InProgress)];
    }
  }

  /** Intended behaviour: the answer to a run of thinking messages carries
      exactly that chain (no chain when there was no thinking), and the
      panel is emptied. */
  lemma FreshResultKeepsChain(c: Conversation, descriptions: seq<string>, answer: string)
    requires c.thinking == []
    ensures Replay(c, Thoughts(descriptions) + [ClaudeMessage(Result, answer)], false) ==
      c.(messages := c.messages + [ChatMessage(Assistant, answer,
           if |descriptions| > 0 then Some(Steps(descriptions, 1)) else None)])
  {
    FreshThinkingBuildsChain(c, descriptions);
    ReplayStep(c, Thoughts(descriptions), ClaudeMessage(Result, answer), false);
  }

  /** As written: the mount-time handler numbers every step 1. */
  lemma {:induction false} StaleThinkingNumbersOne(c: Conversation, descriptions: seq<string>)
    ensures Replay(c, Thoughts(descriptions), true) == c.(thinking := c.thinking + StaleSteps(descriptions))
  {
    if |descriptions| > 0 {
      var n := |descriptions| - 1;
      var ds := descriptions[..n];
      StaleThinkingNumbersOne(c, ds);
      assert Thoughts(descriptions) == Thoughts(ds) + [ClaudeMessage(Thinking, descriptions[n])];
      ReplayStep(c, Thoughts(ds), ClaudeMessage(Thinking, descriptions[n]), true);
      assert StaleSteps(descriptions) == StaleSteps(ds) + [ThinkingStep(1, descriptions[n], InProgress)];
    } else {
      assert c.thinking + StaleSteps(descriptions) == c.thinking;
    }
  }

  /** Steps all numbered 1, as the mount-time handler makes them. */
  function StaleSteps(descriptions: seq<string>): (steps: seq<ThinkingStep>)
    ensures |steps| == |descriptions|
    ensures forall i :: 0 <= i < |steps| ==> steps[i] == ThinkingStep(1, descriptions[i], InProgress)
  {
    seq(|descriptions|, i requires 0 <= i < |descriptions| => ThinkingStep(1, descriptions[i], InProgress))
  }

  /** As written: the answer that follows the thinking carries no chain at
      all, even though the panel showed the steps until then. */
  lemma StaleResultDropsChain(c: Conversation, descriptions: seq<string>, answer: string)
    ensures Replay(c, Thoughts(descriptions) + [ClaudeMessage(Result, answer)], true) ==
      c.(messages := c.messages + [ChatMessage(Assistant, answer, None)], thinking := [])
  {
    StaleThinkingNumbersOne(c, descriptions);
    ReplayStep(c, Thoughts(descriptions), ClaudeMessage(Result, answer), true);
  }

  /** The two wirings part as soon as there are two thinking steps: the
      second step is numbered 1 instead of 2, and the answer loses its chain. */
  lemma StaleWiringDiffers(a: string, b: string, answer: string)
    ensures Replay(Conversation([], [], None), Thoughts([a, b]), true).thinking
      == [ThinkingStep(1, a, InProgress), ThinkingStep(1, b, InProgress)]
    ensures Replay(Conversation([], [], None), Thoughts([a, b]), false).thinking
      == [ThinkingStep(1, a, InProgress), ThinkingStep(2, b, InProgress)]
    ensures Replay(Conversation([], [], None), Thoughts([a, b]) + [ClaudeMessage(Result, answer)], true).messages
      == [ChatMessage(Assistant, answer, None)]
    ensures Replay(Conversation([], [], None), Thoughts([a, b]) + [ClaudeMessage(Result, answer)], false).messages
      == [ChatMessage(Assistant, answer, Some([ThinkingStep(1, a, InProgress), ThinkingStep(2, b, InProgress)]))]
  {
    var c := Conversation([], [], None);
    StaleThinkingNumbersOne(c, [a, b]);
    FreshThinkingBuildsChain(c, [a, b]);
    StaleResultDropsChain(c, [a, b], answer);
    FreshResultKeepsChain(c, [a, b], answer);
  }

  /** The `ChatInterface` component's state. */
  class Chat {
    var messages: seq<ChatMessage>
    var currentThinking: seq<ThinkingStep>
    var error: Option<string>
    var input: string
    var isConnected: bool
    var isClaudeConnected: bool
    /** Whether the mount effect has created the socket (`socket` is not null). */
    var hasSocket: bool
    /** Everything emitted on the socket so far, in order. */
    var emitted: seq<ChatEmit>

    function View(): Conversation
      reads this
    {
      Conversation(messages, currentThinking, error)
    }

    /** The first render: nothing shown, nothing connected, no socket yet. */
    constructor ()
      ensures View() == Conversation([], [], None) && input == ""
      ensures !isConnected && !isClaudeConnected && !hasSocket && emitted == []
    {
      messages := [];
      currentThinking := [];
      error := None;
      input := "";
      isConnected := false;
      isClaudeConnected := false;
      hasSocket := false;
      emitted := [];
    }

    /** The mount effect's `setSocket(socketInstance)`. */
    method Mount()
      modifies this`hasSocket
      ensures hasSocket
    {
      hasSocket := true;
    }

    /** The socket's `connect` handler. */
    method OnConnect()
      modifies this`isConnected
      ensures isConnected
    {
      isConnected := true;
    }

    /** The socket's `disconnect` handler: clears both connection flags. */
    method OnDisconnect()
      modifies this`isConnected, this`isClaudeConnected
      ensures !isConnected && !isClaudeConnected
    {
      isConnected := false;
      isClaudeConnected := false;
    }

    /** The `claude-status` handler: the CLI counts as connected exactly when
        the reported status is `connected`. */
    method OnClaudeStatus(status: string)
      modifies this`isClaudeConnected
      ensures isClaudeConnected <==> status == "connected"
    {
      isClaudeConnected := status == "connected";
    }

    /** `handleClaudeMessage` of the current render, reading the latest
        `currentThinking`. */
    method HandleClaudeMessage(kind: string, content: string)
      modifies this`messages, this`currentThinking, this`error
      ensures View() == Receive(old(View()), old(currentThinking), kind, content)
    {
      var seen := currentThinking;
      if kind == "thinking" {
        currentThinking := currentThinking + [ThinkingStep(|seen| + 1, content, InProgress)];
      } else if kind == "result" {
        var thinking := if |seen| > 0 then Some(seen) else None;
        messages := messages + [ChatMessage(Assistant, content, thinking)];
        currentThinking := [];
      } else if kind == "error" {
        error := Some(content);
        messages := messages + [ChatMessage(System, "Error: " + content, None)];
      }
    }

    /** The text box's `onChange`. */
    method SetInput(text: string)
      modifies this`input
      ensures input == text
    {
      input := text;
    }

    /** `sendMessage()`: does nothing when the input is blank or there is no
        socket; otherwise adds the input, untrimmed, as a user message, sends
        it as `userMessage` and empties the text box. */
    method SendMessage()
      modifies this`messages, this`emitted, this`input
      ensures if IsBlank(old(input)) || !hasSocket then
          messages == old(messages) && emitted == old(emitted) && input == old(input)
        else
          messages == old(messages) + [ChatMessage(User, old(input), None)]
          && emitted == old(emitted) + [UserMessage(old(input))] && input == ""
    {
      if IsBlank(input) || !hasSocket {
        return;
      }
      messages := messages + [ChatMessage(User, input, None)];
      emitted := emitted + [UserMessage(input)];
      input := "";
    }

    /** The Start button: `socket?.emit('startClaude')`. */
    method StartClaude()
      modifies this`emitted
      ensures emitted == old(emitted) + if hasSocket then [ChatEmit.StartClaude] else []
    {
      if hasSocket {
        emitted := emitted + [ChatEmit.StartClaude];
      }
    }

    /** The Stop button: `socket?.emit('stopClaude')`. */
    method StopClaude()
      modifies this`emitted
      ensures emitted == old(emitted) + if hasSocket then [ChatEmit.StopClaude] else []
    {
      if hasSocket {
        emitted := emitted + [ChatEmit.StopClaude];
      }
    }

    /** The error banner's dismiss button. */
    method DismissError()
      modifies this`error
      ensures error == None
    {
      error := None;
    }
  }
}
