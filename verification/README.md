# Chat widget conversation controller

A Dafny model of the conversation logic in the Vizx Global website's chat
widget (`src/components/chatWindowComponent.tsx`). The widget keeps one
transcript of messages, each with a sender (`ChatGPT`, `user`, `agent`,
`system`) and a direction (`incoming`, `outgoing`). It also keeps the active
channel (`ai` or `agent`) and an `isTyping` flag. User text goes either to the
OpenAI chat-completions endpoint or to the Zoho SalesIQ live-agent SDK.

The model is a pure state machine:

- `ChatTypes`: the message, sender, direction, mode and state datatypes. It also holds the fixed greeting and notice texts.
- `ChatRequest`: maps the transcript to the role-tagged request body, with the fixed system prompt first.
- `ChatWindow`: one function per transition.
  - Initial state.
  - `handleSend` and `sendToZoho`.
  - The seed-text effect.
  - The mode switch.
  - The Zoho push callback.
  - The settling of a completion request.

  Calls to the outside are returned as an `Effect` value instead of being made.
- `ChatTrace`: runs of arbitrary event sequences. Each completion is an independent event, applied whenever it settles. It holds the lemmas that no run loses or reorders an entry.

External inputs become parameters:

- What `window.$zoho` holds when text goes to the live agent is a `ZohoSdk`. In a run, each send or seed event carries the SDK state of its own moment:
  - `NoSdk`: no `$zoho.salesiq`.
  - `SdkStub`: `salesiq` exists but `visitor` is not yet defined, so `visitor.chat.sendMessage` throws.
  - `SdkLoaded`: the send call returns normally.
- The navigation seed is an `Option<string>`.
- A completion's result is an `Outcome`: `Success(choices)`, `ErrorPayload` or `NetworkFailure`.

What the widget's code does and does not do:

- In agent mode, a send appends "📨 Sent to human agent..." both without the SDK and with the loaded SDK. Only the loaded SDK receives the text. With the stub SDK, the lookup of the send call throws before the notice is appended, so the send adds only the user entry.
- Blank input is not trimmed or rejected by `handleSend`. Only the seed path skips an empty string, because of JavaScript truthiness.
- Failed completions add no transcript entry; the code only logs them. Every outcome clears `isTyping`.
- A second completion still in flight does not keep the typing flag up. The first request to settle clears it, as `OutOfOrderReplies` shows.

## Model

| member | source | states |
|---|---|---|
| ChatWindow.Init | src/components/chatWindowComponent.tsx:47-55 | the widget opens with exactly one entry, the greeting, sent by ChatGPT and incoming; mode is `ai` and nobody is typing |
| ChatWindow.HandleSend | src/components/chatWindowComponent.tsx:95-109 | the old transcript is a strict prefix of the new one, and the next entry is `{text, user, outgoing}`; in `ai` mode that is the only entry, `isTyping` becomes true, and the completion request is built from the transcript as of the send; in `agent` mode `isTyping` is unchanged and the text is forwarded iff the SDK is loaded; exactly one incoming system notice follows unless the stub SDK throws first, in which case the user entry is the only one |
| ChatWindow.SendToZoho | src/components/chatWindowComponent.tsx:111-123 | without the SDK or with the loaded SDK exactly the "Sent to human agent..." system notice is appended; with the stub SDK the throw at the send call leaves the transcript unchanged; the text is forwarded iff the SDK is loaded; mode and typing flag untouched |
| ChatWindow.SeedSend | src/components/chatWindowComponent.tsx:77-93 | a missing or empty seed changes nothing and calls nothing; any other seed behaves exactly as a user send of that text |
| ChatWindow.SwitchMode | src/components/chatWindowComponent.tsx:168-190 | the mode flips; exactly one incoming system notice is appended after the unchanged old transcript, and its text depends on the new mode; the typing flag is unchanged |
| ChatWindow.AgentPush | src/components/chatWindowComponent.tsx:62-72 | a human agent's message appends exactly `{text, agent, incoming}` in either mode; mode and typing flag are unchanged |
| ChatWindow.Complete | src/components/chatWindowComponent.tsx:146-165 | a success with at least one choice appends exactly `{choices[0], ChatGPT, incoming}`; an error payload, a thrown network error or an empty `choices` appends nothing; `isTyping` is false after every outcome and mode is kept |
| ChatWindow.TypingIndicator | src/components/chatWindowComponent.tsx:224-228 | the indicator shows after a send in `ai` mode and is hidden after any completion outcome; an `agent`-mode send keeps `isTyping`, so switching back to `ai` shows the indicator exactly when `isTyping` was already set before the agent-mode send |
| ChatWindow.DoubleSwitch | src/components/chatWindowComponent.tsx:168-190 | two switches in a row restore the mode and the typing flag and add exactly the two notices, in order |
| ChatWindow.AiRequestExtendsPrevious | src/components/chatWindowComponent.tsx:103-105 | the request a send makes is the previous transcript's request extended by one `user`-role message carrying the sent text |
| ChatRequest.RoleOf | src/components/chatWindowComponent.tsx:127 | the role is `assistant` exactly when the sender is ChatGPT; it is never `system` |
| ChatRequest.ToApiMessages | src/components/chatWindowComponent.tsx:126-129 | one message per transcript entry, in order, with the same content; role `assistant` iff the sender is ChatGPT, never `system` |
| ChatRequest.BuildRequest | src/components/chatWindowComponent.tsx:131-134 | model `gpt-4`; n+1 messages for n entries; the system prompt first; then entry i at position i+1 with its content; role `assistant` iff sender ChatGPT, `user` iff not |
| ChatRequest.ContentsRoundTrip | src/components/chatWindowComponent.tsx:126-134 | dropping the system prompt from a request gives back exactly the transcript's texts in order |
| ChatRequest.AssistantCount | src/components/chatWindowComponent.tsx:126-134 | the request holds as many `assistant` messages as the transcript holds ChatGPT entries |
| ChatRequest.BuildRequestSnoc | src/components/chatWindowComponent.tsx:131-134 | the request for a transcript with one more entry is the old request plus that entry's role-tagged message |
| ChatTrace.Step | src/components/chatWindowComponent.tsx:60-190 | every transition keeps the old transcript as a prefix and adds at most two entries |
| ChatTrace.Run | src/components/chatWindowComponent.tsx:60-190 | any sequence of events keeps the starting transcript as a prefix and adds at most two entries per event |
| ChatTrace.StepAppends | src/components/chatWindowComponent.tsx:60-190 | each event's transcript is the old one followed by exactly the entries of an independent per-event table that depends only on the mode and the event (sends carry their SDK state) |
| ChatTrace.RunTexts | src/components/chatWindowComponent.tsx:60-190 | over any run, user texts appear in send order, assistant replies in the order requests settle, and agent messages in arrival order, all after those already present |
| ChatTrace.ReachableStartsWithGreeting | src/components/chatWindowComponent.tsx:47-55 | every reachable transcript still starts with the greeting |
| ChatTrace.SdkLoadsMidConversation | src/components/chatWindowComponent.tsx:111-123 | in `agent` mode, a send that meets the pre-load stub adds only the user entry; a later send that meets the loaded SDK adds the user entry and the notice; both happen within one run |
| ChatTrace.OutOfOrderReplies | src/components/chatWindowComponent.tsx:146-165 | from any `ai`-mode state and for any texts, two sends whose replies settle in reverse order append both user entries in send order, then the replies in settle order; the mode stays `ai`, and `isTyping` is already false after the first settlement |

## Left out

- Rendering is not modelled because it has no state behaviour to state. This covers the JSX, the chatscope UI kit, icons, styling, placeholders, the close button and the `isOpen` early return.
- React hook scheduling is not modelled. The seed effect and the Zoho listener are plain transitions. The request is built from the transcript as it stands at the send, not from a stale render-time closure.
- The `fetch` call is network I/O and is not modelled. Nor are the API key, the headers and the JSON parsing. A settled request is an `Outcome`:
  - A truthy `error` field is `ErrorPayload`.
  - Anything that throws is `NetworkFailure`. That covers an unreachable endpoint, a body that is not JSON, and a body with no `choices` field.
  - `Success(choices)` with an empty list covers `choices[0]` throwing.
- A choice without a `message` or `content` field is not modelled; choices are taken to carry their content as a string.
- The Zoho SalesIQ SDK is a foreign global of unknown shape. The model keeps only which `ZohoSdk` state it is in at a send, and the text of each pushed message.
- `AgentPush` events arrive only if the `onMessage` listener was attached, and the model does not track that condition. The mount effect only replaces `salesiq.ready`, overwriting any hook already there. The listener is attached only if the SDK calls that replacement after the mount effect ran. If the SDK became ready before mount, no listener is attached and no agent message ever reaches the transcript.
- Concurrency is modelled only as settlement order. Completions are independent events applied in any order; in-flight requests are not tracked.
- The console logging of errors is not modelled because it has no effect on state.
- `api/chat.js`, the hero carousel, the industries cards, the navigation menu and the app routing are not modelled. They are an HTTP proxy, timers and static markup outside the widget's conversation logic.
- ChatWindow.SeedSend: with the stub SDK in agent mode, the throw happens inside the passive seed effect. `App.tsx` puts no error boundary around the widget. Unless an error boundary above `App` (in the module that renders it) catches the throw, React tears down the page's whole tree. The model's state after this event matches nothing on screen, and neither does any run that continues from it.
- ChatWindow.HandleSend: with the stub SDK, the promise `handleSend` returns rejects. The model records only the state change.
