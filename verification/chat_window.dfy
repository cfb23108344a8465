/**
  The chat widget's conversation controller as pure transitions. Each user
  intent or asynchronous arrival is one transition from a State to a new
  State; calls the widget makes to the outside (the completion endpoint, the
  live-agent SDK) are returned as an Effect instead of being performed.
 */
module ChatWindow {
  import opened Wrappers
  import opened ChatTypes
  import opened ChatRequest

  /** What a transition asks of the outside world. */
  datatype Effect =
    | NoEffect
    | RequestCompletion(request: Request)   // a POST of `request` to the completion endpoint
    | ForwardToAgent(text: string)          // the live-agent SDK's send-message call

  datatype Transition = Transition(state: State, effect: Effect)

  /**
    What the page holds under `window.$zoho` when text is handed to the live
    agent: nothing, the pre-load stub (`salesiq` exists but `visitor` does not
    yet, so reaching `visitor.chat.sendMessage` throws), or the loaded SDK.
   */
  datatype ZohoSdk = NoSdk | SdkStub | SdkLoaded

  /** How one completion request settled. `Success` carries the reply's `choices` contents. */
  datatype Outcome =
    | Success(choices: seq<string>)
    | ErrorPayload
    | NetworkFailure

  /** The widget as first rendered: only the greeting, AI channel, nobody typing. */
  function Init(): (s: State)
    ensures |s.messages| == 1
    ensures s.messages[0].message == GreetingText
    ensures s.messages[0].sender == ChatGPT && s.messages[0].direction == Incoming
    ensures s.mode == AiMode && !s.isTyping
  {
    State([Greeting], AiMode, false)
  }

  /**
    The text is handed to the live-agent channel. Without the SDK no call is
    made and the "sent" notice is appended; with the loaded SDK the call is
    made and the notice appended; with the stub the lookup of the send call
    throws before the notice, so nothing is appended and nothing is sent.
   */
  function SendToZoho(s: State, sdk: ZohoSdk, text: string): (r: Transition)
    ensures sdk != SdkStub ==> r.state.messages == s.messages + [SentToAgentNotice]
    ensures sdk == SdkStub ==> r.state.messages == s.messages
    ensures r.state.mode == s.mode && r.state.isTyping == s.isTyping
    ensures r.effect == ForwardToAgent(text) <==> sdk == SdkLoaded
    ensures sdk != SdkLoaded ==> r.effect == NoEffect
  {
    match sdk
    case NoSdk => Transition(AppendAll(s, [SentToAgentNotice]), NoEffect)
    case SdkStub => Transition(s, NoEffect)
    case SdkLoaded => Transition(AppendAll(s, [SentToAgentNotice]), ForwardToAgent(text))
  }

  /**
    The user submits `text`. It is recorded as an outgoing user entry; in the AI
    channel the typing flag is raised and a completion is requested for the
    transcript as of this send, in the agent channel the text is handed to the
    live agent.
   */
  function HandleSend(s: State, sdk: ZohoSdk, text: string): (r: Transition)
    ensures s.messages < r.state.messages
    ensures r.state.messages[|s.messages|] == ChatMessage(text, User, Outgoing)
    ensures r.state.mode == s.mode
    ensures s.mode == AiMode ==>
      && |r.state.messages| == |s.messages| + 1
      && r.state.isTyping
      && r.effect == RequestCompletion(BuildRequest(r.state.messages))
    ensures s.mode == AgentMode ==>
      && r.state.isTyping == s.isTyping
      && (r.effect == ForwardToAgent(text) <==> sdk == SdkLoaded)
      && (sdk != SdkLoaded ==> r.effect == NoEffect)
    ensures s.mode == AgentMode && sdk != SdkStub ==>
      && |r.state.messages| == |s.messages| + 2
      && r.state.messages[|s.messages| + 1] == SentToAgentNotice
    ensures s.mode == AgentMode && sdk == SdkStub ==> |r.state.messages| == |s.messages| + 1
  {
    var sent := AppendAll(s, [UserEntry(text)]);
    match s.mode
    case AiMode =>
      Transition(sent.(isTyping := true), RequestCompletion(BuildRequest(s.messages + [UserEntry(text)])))
    case AgentMode =>
      SendToZoho(sent, sdk, text)
  }

  /**
    Seed text handed over by page navigation. A missing or empty seed is falsy
    and does nothing; any other seed is sent exactly as if the user had typed it.
   */
  function SeedSend(s: State, sdk: ZohoSdk, seed: Option<string>): (r: Transition)
    ensures (seed == None || seed == Some("")) ==> r == Transition(s, NoEffect)
    ensures seed.Some? && seed.value != "" ==>
      && r == HandleSend(s, sdk, seed.value)
      && r.state.messages[|s.messages|] == ChatMessage(seed.value, User, Outgoing)
  {
    match seed
    case None => Transition(s, NoEffect)
    case Some(text) => if text == "" then Transition(s, NoEffect) else HandleSend(s, sdk, text)
  }

  /** The header button: flip the channel and announce the channel now in use. */
  function SwitchMode(s: State): (r: State)
    ensures r.mode != s.mode
    ensures |r.messages| == |s.messages| + 1 && s.messages < r.messages
    ensures r.messages[|s.messages|].sender == System
    ensures r.messages[|s.messages|].direction == Incoming
    ensures r.mode == AgentMode ==> r.messages[|s.messages|].message == AgentModeText
    ensures r.mode == AiMode ==> r.messages[|s.messages|].message == AiModeText
    ensures r.isTyping == s.isTyping
  {
    var now := Other(s.mode);
    AppendAll(s, [SwitchNotice(now)]).(mode := now)
  }

  /** A human agent's message arrives; it is recorded whichever channel is active. */
  function AgentPush(s: State, text: string): (r: State)
    ensures r.messages == s.messages + [ChatMessage(text, Agent, Incoming)]
    ensures r.mode == s.mode && r.isTyping == s.isTyping
  {
    AppendAll(s, [AgentEntry(text)])
  }

  /**
    A completion request settles. Only a successful reply with at least one
    choice adds an entry (the first choice's content); an error payload, a
    network failure, or a reply without choices (indexing it throws, and the
    throw is caught) adds nothing. The typing flag is cleared in every case.
   */
  function Complete(s: State, outcome: Outcome): (r: State)
    ensures !r.isTyping && r.mode == s.mode
    ensures outcome.Success? && |outcome.choices| > 0 ==>
      r.messages == s.messages + [ChatMessage(outcome.choices[0], ChatGPT, Incoming)]
    ensures !(outcome.Success? && |outcome.choices| > 0) ==> r.messages == s.messages
  {
    var settled := s.(isTyping := false);
    match outcome
    case Success(choices) =>
      if |choices| == 0 then settled else AppendAll(settled, [ReplyEntry(choices[0])])
    case ErrorPayload => settled
    case NetworkFailure => settled
  }

  /** The "Assistant is answering..." indicator is rendered only in the AI channel while a reply is awaited. */
  predicate TypingShown(s: State) {
    s.mode == AiMode && s.isTyping
  }

  /**
    Sending in the AI channel shows the indicator; every completion outcome
    hides it. A send in the agent channel keeps the flag, so switching back to
    the AI channel shows the indicator exactly when `isTyping` was already set
    before that send.
   */
  lemma TypingIndicator(s: State, sdk: ZohoSdk, text: string, outcome: Outcome)
    ensures s.mode == AiMode ==> TypingShown(HandleSend(s, sdk, text).state)
    ensures !TypingShown(Complete(s, outcome))
    ensures s.mode == AgentMode ==> TypingShown(SwitchMode(HandleSend(s, sdk, text).state)) == s.isTyping
  {
  }

  /** Two switches in a row restore the channel and add exactly the two notices, in order. */
  lemma DoubleSwitch(s: State)
    ensures SwitchMode(SwitchMode(s)).mode == s.mode
    ensures SwitchMode(SwitchMode(s)).messages
         == s.messages + [SwitchNotice(Other(s.mode)), SwitchNotice(s.mode)]
    ensures SwitchMode(SwitchMode(s)).isTyping == s.isTyping
  {
  }

  /**
    The request a send makes in the AI channel is the request the previous
    transcript would have made, extended by the user's text with role `user`.
   */
  lemma AiRequestExtendsPrevious(s: State, sdk: ZohoSdk, text: string)
    requires s.mode == AiMode
    ensures HandleSend(s, sdk, text).effect.RequestCompletion?
    ensures HandleSend(s, sdk, text).effect.request.messages
         == BuildRequest(s.messages).messages + [ApiMessage(UserRole, text)]
  {
    BuildRequestSnoc(s.messages, UserEntry(text));
  }
}
