/**
  Runs of the controller: any sequence of user intents and asynchronous
  arrivals, applied one at a time in the order they happen. Completions are
  independent events, so replies land in the order requests settle, which
  need not be the order they were sent.
 */
module ChatTrace {
  import opened Wrappers
  import opened ChatTypes
  import opened ChatWindow

  /**
    The events of a run. A send carries the state of the live-agent SDK at that
    moment, so a run can follow the SDK from its pre-load stub to the loaded SDK.
   */
  datatype Event =
    | Send(text: string, sdk: ZohoSdk)          // the input box's send, with the SDK as it is then
    | Seed(seed: Option<string>, sdk: ZohoSdk)  // navigation state delivered to the widget
    | Switch                           // the header's channel button
    | Push(pushed: string)             // the live-agent SDK's message callback
    | Settle(outcome: Outcome)         // one completion request settles

  /** One event's effect on the state; what it asks of the outside is not kept. */
  function Step(s: State, e: Event): (r: State)
    ensures s.messages <= r.messages
    ensures |r.messages| <= |s.messages| + 2
  {
    match e
    case Send(text, sdk) => HandleSend(s, sdk, text).state
    case Seed(seed, sdk) => SeedSend(s, sdk, seed).state
    case Switch => SwitchMode(s)
    case Push(text) => AgentPush(s, text)
    case Settle(outcome) => Complete(s, outcome)
  }

  /** The state after the events of `evs`, first to last. */
  function Run(s: State, evs: seq<Event>): (r: State)
    ensures s.messages <= r.messages
    ensures |r.messages| <= |s.messages| + 2 * |evs|
    decreases |evs|
  {
    if |evs| == 0 then s
    else Step(Run(s, evs[..|evs| - 1]), evs[|evs| - 1])
  }

  /**
    The entries an event appends, as a reference independent of the
    transitions: it depends only on the active channel and the event.
   */
  function Added(mode: Mode, e: Event): seq<ChatMessage> {
    match e
    case Send(text, sdk) => SentEntries(mode, sdk, text)
    case Seed(seed, sdk) => if seed.Some? && seed.value != "" then SentEntries(mode, sdk, seed.value) else []
    case Switch => [SwitchNotice(Other(mode))]
    case Push(text) => [AgentEntry(text)]
    case Settle(outcome) =>
      if outcome.Success? && |outcome.choices| > 0 then [ReplyEntry(outcome.choices[0])] else []
  }

  /** A send records the user's text, followed in the agent channel by the notice unless the SDK stub throws first. */
  function SentEntries(mode: Mode, sdk: ZohoSdk, text: string): seq<ChatMessage> {
    if mode == AiMode || sdk == SdkStub then [UserEntry(text)] else [UserEntry(text), SentToAgentNotice]
  }

  /** Every event appends exactly its `Added` entries and leaves the rest of the transcript as it was. */
  lemma StepAppends(s: State, e: Event)
    ensures Step(s, e).messages == s.messages + Added(s.mode, e)
  {
  }

  /** The texts of the entries from sender `who`, in transcript order. */
  function TextsFrom(ms: seq<ChatMessage>, who: Sender): seq<string> {
    if |ms| == 0 then [] else Own(ms[0], who) + TextsFrom(ms[1..], who)
  }

  /** The entry's text if `who` sent it. */
  function Own(m: ChatMessage, who: Sender): seq<string> {
    if m.sender == who then [m.message] else []
  }

  /** What one event contributes to the user's texts. */
  function EventSent(e: Event): seq<string> {
    match e
    case Send(text, _) => [text]
    case Seed(seed, _) => if seed.Some? && seed.value != "" then [seed.value] else []
    case _ => []
  }

  /** What one event contributes to the assistant's replies. */
  function EventReply(e: Event): seq<string> {
    if e.Settle? && e.outcome.Success? && |e.outcome.choices| > 0 then [e.outcome.choices[0]] else []
  }

  /** What one event contributes to the live agent's messages. */
  function EventPushed(e: Event): seq<string> {
    if e.Push? then [e.pushed] else []
  }

  /** The user texts the events submit: every send, and every non-empty seed. */
  function SentTexts(evs: seq<Event>): seq<string> {
    if |evs| == 0 then [] else SentTexts(evs[..|evs| - 1]) + EventSent(evs[|evs| - 1])
  }

  /** The reply texts of the successful completions, in the order they settle. */
  function ReplyTexts(evs: seq<Event>): seq<string> {
    if |evs| == 0 then [] else ReplyTexts(evs[..|evs| - 1]) + EventReply(evs[|evs| - 1])
  }

  /** The texts the live agent pushes, in arrival order. */
  function PushedTexts(evs: seq<Event>): seq<string> {
    if |evs| == 0 then [] else PushedTexts(evs[..|evs| - 1]) + EventPushed(evs[|evs| - 1])
  }

  /** Selecting one sender's texts distributes over concatenation. */
  lemma {:induction false} TextsFromAppend(a: seq<ChatMessage>, b: seq<ChatMessage>, who: Sender)
    ensures TextsFrom(a + b, who) == TextsFrom(a, who) + TextsFrom(b, who)
    decreases |a|
  {
    if |a| == 0 {
      assert a + b == b;
    } else {
      assert (a + b)[0] == a[0];
      assert (a + b)[1..] == a[1..] + b;
      TextsFromAppend(a[1..], b, who);
    }
  }

  /** One sender's texts in a two-entry transcript. */
  lemma TextsFromPair(x: ChatMessage, y: ChatMessage, who: Sender)
    ensures TextsFrom([x, y], who) == Own(x, who) + Own(y, who)
  {
    assert [x, y][1..] == [y];
    SingleTexts(y, who);
  }

  /** The entries of a send carry its text as the one user text and nothing from the assistant or an agent. */
  lemma SentEntriesTexts(mode: Mode, sdk: ZohoSdk, text: string)
    ensures TextsFrom(SentEntries(mode, sdk, text), User) == [text]
    ensures TextsFrom(SentEntries(mode, sdk, text), ChatGPT) == []
    ensures TextsFrom(SentEntries(mode, sdk, text), Agent) == []
  {
    if mode == AiMode || sdk == SdkStub {
      SingleTexts(UserEntry(text), User);
      SingleTexts(UserEntry(text), ChatGPT);
      SingleTexts(UserEntry(text), Agent);
    } else {
      TextsFromPair(UserEntry(text), SentToAgentNotice, User);
      TextsFromPair(UserEntry(text), SentToAgentNotice, ChatGPT);
      TextsFromPair(UserEntry(text), SentToAgentNotice, Agent);
    }
  }

  /** One sender's texts in a one-entry transcript. */
  lemma SingleTexts(m: ChatMessage, who: Sender)
    ensures TextsFrom([m], who) == Own(m, who)
  {
  }

  /** The entries an event appends carry exactly that event's user, reply and agent texts. */
  lemma AddedTexts(mode: Mode, e: Event)
    ensures TextsFrom(Added(mode, e), User) == EventSent(e)
    ensures TextsFrom(Added(mode, e), ChatGPT) == EventReply(e)
    ensures TextsFrom(Added(mode, e), Agent) == EventPushed(e)
  {
    match e
    case Send(text, sdk) =>
      SentEntriesTexts(mode, sdk, text);
    case Seed(seed, sdk) =>
      if seed.Some? && seed.value != "" {
        SentEntriesTexts(mode, sdk, seed.value);
      }
    case Switch =>
      SingleTexts(SwitchNotice(Other(mode)), User);
      SingleTexts(SwitchNotice(Other(mode)), ChatGPT);
      SingleTexts(SwitchNotice(Other(mode)), Agent);
    case Push(text) =>
      SingleTexts(AgentEntry(text), User);
      SingleTexts(AgentEntry(text), ChatGPT);
      SingleTexts(AgentEntry(text), Agent);
    case Settle(outcome) =>
      if outcome.Success? && |outcome.choices| > 0 {
        SingleTexts(ReplyEntry(outcome.choices[0]), User);
        SingleTexts(ReplyEntry(outcome.choices[0]), ChatGPT);
        SingleTexts(ReplyEntry(outcome.choices[0]), Agent);
      }
  }

  /** One step adds exactly the event's user, reply and agent texts after those already present. */
  lemma StepTexts(s: State, e: Event)
    ensures TextsFrom(Step(s, e).messages, User) == TextsFrom(s.messages, User) + EventSent(e)
    ensures TextsFrom(Step(s, e).messages, ChatGPT) == TextsFrom(s.messages, ChatGPT) + EventReply(e)
    ensures TextsFrom(Step(s, e).messages, Agent) == TextsFrom(s.messages, Agent) + EventPushed(e)
  {
    var added := Added(s.mode, e);
    StepAppends(s, e);
    AddedTexts(s.mode, e);
    TextsFromAppend(s.messages, added, User);
    TextsFromAppend(s.messages, added, ChatGPT);
    TextsFromAppend(s.messages, added, Agent);
  }

  /**
    Nothing any run does loses or reorders an entry: the user's texts appear in
    the order sent, assistant replies in the order their requests settled, and
    agent messages in the order they arrived, each after those already present.
   */
  lemma {:induction false} RunTexts(s: State, evs: seq<Event>)
    ensures TextsFrom(Run(s, evs).messages, User)
         == TextsFrom(s.messages, User) + SentTexts(evs)
    ensures TextsFrom(Run(s, evs).messages, ChatGPT)
         == TextsFrom(s.messages, ChatGPT) + ReplyTexts(evs)
    ensures TextsFrom(Run(s, evs).messages, Agent)
         == TextsFrom(s.messages, Agent) + PushedTexts(evs)
    decreases |evs|
  {
    if |evs| > 0 {
      var init, e := evs[..|evs| - 1], evs[|evs| - 1];
      RunTexts(s, init);
      StepTexts(Run(s, init), e);
      assert Run(s, evs) == Step(Run(s, init), e);
      assert SentTexts(evs) == SentTexts(init) + EventSent(e);
      assert ReplyTexts(evs) == ReplyTexts(init) + EventReply(e);
      assert PushedTexts(evs) == PushedTexts(init) + EventPushed(e);
    }
  }

  /** Every state the widget can reach still opens with the greeting. */
  lemma ReachableStartsWithGreeting(evs: seq<Event>)
    ensures |Run(Init(), evs).messages| >= 1
    ensures Run(Init(), evs).messages[0] == Greeting
  {
  }

  /** Running one more event is one more step. */
  lemma RunSnoc(s: State, evs: seq<Event>, e: Event)
    ensures Run(s, evs + [e]) == Step(Run(s, evs), e)
  {
    assert (evs + [e])[..|evs|] == evs;
  }

  /** A send in the AI channel appends the user entry and raises the typing flag. */
  lemma AiSendStep(s: State, sdk: ZohoSdk, text: string)
    requires s.mode == AiMode
    ensures Step(s, Send(text, sdk)) == State(s.messages + [UserEntry(text)], AiMode, true)
  {
  }

  /** A successful settlement appends the reply and clears the typing flag. */
  lemma SuccessStep(s: State, reply: string)
    ensures Step(s, Settle(Success([reply]))) == State(s.messages + [ReplyEntry(reply)], s.mode, false)
  {
  }

  /**
    Two sends in the AI channel before either reply, the second reply settling
    first: both user entries stay in send order, the replies appear in the
    order they settled, and the first settlement already clears the typing
    flag although the other request is still in flight.
   */
  lemma OutOfOrderReplies(s: State, sdkA: ZohoSdk, sdkB: ZohoSdk, a: string, b: string, replyA: string, replyB: string)
    requires s.mode == AiMode
    ensures
      var evs := [Send(a, sdkA), Send(b, sdkB), Settle(Success([replyB])), Settle(Success([replyA]))];
      var r := Run(s, evs);
      && r.messages == s.messages + [UserEntry(a), UserEntry(b), ReplyEntry(replyB), ReplyEntry(replyA)]
      && r.mode == AiMode
      && !r.isTyping
      && !Run(s, evs[..3]).isTyping
  {
    var e1, e2, e3, e4 := Send(a, sdkA), Send(b, sdkB), Settle(Success([replyB])), Settle(Success([replyA]));
    var evs := [e1, e2, e3, e4];
    var s1 := State(s.messages + [UserEntry(a)], AiMode, true);
    var s2 := State(s1.messages + [UserEntry(b)], AiMode, true);
    var s3 := State(s2.messages + [ReplyEntry(replyB)], AiMode, false);
    var s4 := State(s3.messages + [ReplyEntry(replyA)], AiMode, false);
    assert Run(s, evs[..3]) == s3 by {
      calc {
        Run(s, evs[..3]);
        { assert evs[..3] == [e1, e2] + [e3]; RunSnoc(s, [e1, e2], e3); }
        Step(Run(s, [e1, e2]), e3);
        { assert [e1, e2] == [e1] + [e2]; RunSnoc(s, [e1], e2); }
        Step(Step(Run(s, [e1]), e2), e3);
        { assert [e1] == [] + [e1]; RunSnoc(s, [], e1); }
        Step(Step(Step(s, e1), e2), e3);
        { AiSendStep(s, sdkA, a); }
        Step(Step(s1, e2), e3);
        { AiSendStep(s1, sdkB, b); }
        Step(s2, e3);
        { SuccessStep(s2, replyB); }
        s3;
      }
    }
    assert Run(s, evs) == s4 by {
      calc {
        Run(s, evs);
        { assert evs == evs[..3] + [e4]; RunSnoc(s, evs[..3], e4); }
        Step(s3, e4);
        { SuccessStep(s3, replyA); }
        s4;
      }
    }
    assert s4.messages == s.messages + [UserEntry(a), UserEntry(b), ReplyEntry(replyB), ReplyEntry(replyA)];
  }

  /**
    A conversation in the agent channel while the SDK loads: a send meeting the
    pre-load stub records only the user entry, a later send meeting the loaded
    SDK records the user entry and the notice.
   */
  lemma SdkLoadsMidConversation(s: State, first: string, second: string)
    requires s.mode == AgentMode
    ensures
      Run(s, [Send(first, SdkStub), Send(second, SdkLoaded)]).messages
      == s.messages + [UserEntry(first), UserEntry(second), SentToAgentNotice]
  {
    var e1, e2 := Send(first, SdkStub), Send(second, SdkLoaded);
    var s1 := Step(s, e1);
    assert s1.messages == s.messages + [UserEntry(first)] && s1.mode == AgentMode by {
      StepAppends(s, e1);
    }
    assert Run(s, [e1, e2]) == Step(s1, e2) by {
      RunSnoc(s, [], e1);
      assert [] + [e1] == [e1];
      RunSnoc(s, [e1], e2);
      assert [e1] + [e2] == [e1, e2];
    }
    assert Step(s1, e2).messages == s1.messages + [UserEntry(second), SentToAgentNotice] by {
      StepAppends(s1, e2);
    }
  }
}
