/**
  The conversation state of the chat widget: a transcript of messages, the
  active channel and the typing flag, together with the fixed texts the
  widget writes into the transcript itself.
 */
module ChatTypes {

  /** Who a transcript entry is shown as coming from. */
  datatype Sender = ChatGPT | User | Agent | System

  /** Outgoing entries were typed by the local user; incoming ones arrived. */
  datatype Direction = Incoming | Outgoing

  /** One transcript entry. */
  datatype ChatMessage = ChatMessage(message: string, sender: Sender, direction: Direction)

  /** The channel the user's text is routed to: the AI assistant or a human agent. */
  datatype Mode = AiMode | AgentMode

  /** The whole widget state. */
  datatype State = State(messages: seq<ChatMessage>, mode: Mode, isTyping: bool)

  const GreetingText: string := "Hello, Welcome to Vizx Global AI Assistant Support!"
  const SentToAgentText: string := "\U{1F4E8} Sent to human agent..."
  const AgentModeText: string := "\U{1F514} You are now connected with a real Vizx Global human agent."
  const AiModeText: string := "\U{1F916} You are now back with the Vizx Global AI Assistant."

  /** The entry the widget opens with. */
  const Greeting: ChatMessage := ChatMessage(GreetingText, ChatGPT, Incoming)

  /** The notice appended after text is handed to the human-agent channel. */
  const SentToAgentNotice: ChatMessage := ChatMessage(SentToAgentText, System, Incoming)

  /** The other channel. */
  function Other(m: Mode): (r: Mode)
    ensures r != m
  {
    match m
    case AiMode => AgentMode
    case AgentMode => AiMode
  }

  /** An entry typed by the local user. */
  function UserEntry(text: string): ChatMessage {
    ChatMessage(text, User, Outgoing)
  }

  /** An entry pushed by a human agent. */
  function AgentEntry(text: string): ChatMessage {
    ChatMessage(text, Agent, Incoming)
  }

  /** An entry holding an assistant reply. */
  function ReplyEntry(text: string): ChatMessage {
    ChatMessage(text, ChatGPT, Incoming)
  }

  /** The notice announcing that the channel is now `now`. */
  function SwitchNotice(now: Mode): ChatMessage {
    match now
    case AgentMode => ChatMessage(AgentModeText, System, Incoming)
    case AiMode => ChatMessage(AiModeText, System, Incoming)
  }

  /** The widget state replaced by `s` with `added` written after its transcript. */
  function AppendAll(s: State, added: seq<ChatMessage>): State {
    s.(messages := s.messages + added)
  }
}
