/**
 * The message shapes shared by the CLI bridge and the chat page
 * (src/lib/ai-types.ts). Identifiers built from `Date.now()` and timestamps
 * are not part of the model.
 */
module Types {
  import opened Wrappers

  /** The `type` of a message coming from the CLI bridge. */
  datatype MessageKind = Thinking | Command | Result | Error

  /** `ClaudeMessage` / `ClaudeSocketMessage`: a typed piece of CLI output. */
  datatype ClaudeMessage = ClaudeMessage(kind: MessageKind, content: string)

  /** The wire name of a message kind, as the chat page compares it. */
  function KindName(k: MessageKind): string
  {
    match k
    case Thinking => "thinking"
    case Command => "command"
    case Result => "result"
    case Error => "error"
  }

  datatype StepStatus = Pending | InProgress | Completed | Failed

  /** `ThinkingStep`, without its `id`, `details` and `duration`. */
  datatype ThinkingStep = ThinkingStep(stepNumber: int, description: string, status: StepStatus)

  datatype Role = User | Assistant | System

  /** `ChatMessage`, without its `id`, `timestamp` and `artifacts`;
      `thinking` is `None` where the source leaves it `undefined`. */
  datatype ChatMessage = ChatMessage(role: Role, content: string, thinking: Option<seq<ThinkingStep>>)
}
