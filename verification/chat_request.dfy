/**
  The request body the widget sends to the completion endpoint: the fixed
  system prompt followed by the transcript, each entry tagged with a role.
 */
module ChatRequest {
  import opened ChatTypes

  datatype Role = SystemRole | UserRole | AssistantRole

  datatype ApiMessage = ApiMessage(role: Role, content: string)

  datatype Request = Request(model: string, messages: seq<ApiMessage>)

  const Model: string := "gpt-4"

  /** The persona prompt, kept verbatim including the template's line breaks and indentation. */
  const SystemPrompt: string :=
    "\n    You are Vizx Global's AI Assistant.\n"
    + "    - Always answer as a representative of Vizx Global.\n"
    + "    - Vizx Global is a BPO and RPO company headquartered in Kenya with US partnerships.\n"
    + "    - We specialize in technology, finance, real estate, healthcare, and outsourcing.\n"
    + "    - We provide cost-effective recruitment, customer support, and digital workflow automation.\n"
    + "    - Speak in a professional, clear, supportive tone.\n  "

  const SystemMessage: ApiMessage := ApiMessage(SystemRole, SystemPrompt)

  /** Assistant replies go back as `assistant`; every other sender, agents and notices included, as `user`. */
  function RoleOf(sender: Sender): (r: Role)
    ensures r == AssistantRole <==> sender == ChatGPT
    ensures r != SystemRole
  {
    if sender == ChatGPT then AssistantRole else UserRole
  }

  /** The transcript as role-tagged messages, one per entry and in order. */
  function ToApiMessages(ms: seq<ChatMessage>): (r: seq<ApiMessage>)
    ensures |r| == |ms|
    ensures forall i :: 0 <= i < |ms| ==> r[i].content == ms[i].message
    ensures forall i :: 0 <= i < |ms| ==> (r[i].role == AssistantRole <==> ms[i].sender == ChatGPT)
    ensures forall i :: 0 <= i < |ms| ==> r[i].role != SystemRole
  {
    if |ms| == 0 then []
    else [ApiMessage(RoleOf(ms[0].sender), ms[0].message)] + ToApiMessages(ms[1..])
  }

  /** The request body for a transcript snapshot. */
  function BuildRequest(ms: seq<ChatMessage>): (r: Request)
    ensures r.model == Model
    ensures |r.messages| == |ms| + 1
    ensures r.messages[0] == SystemMessage
    ensures forall i :: 0 <= i < |ms| ==> r.messages[i + 1].content == ms[i].message
    ensures forall i :: 0 <= i < |ms| ==>
      (r.messages[i + 1].role == AssistantRole <==> ms[i].sender == ChatGPT)
    ensures forall i :: 0 <= i < |ms| ==>
      (r.messages[i + 1].role == UserRole <==> ms[i].sender != ChatGPT)
  {
    var tagged := ToApiMessages(ms);
    var all := [SystemMessage] + tagged;
    assert forall i :: 0 <= i < |ms| ==> all[i + 1] == tagged[i];
    Request(Model, all)
  }

  /** The message texts of a transcript, in order. */
  function Texts(ms: seq<ChatMessage>): seq<string> {
    if |ms| == 0 then [] else [ms[0].message] + Texts(ms[1..])
  }

  /** The contents of role-tagged messages, in order. */
  function Contents(ms: seq<ApiMessage>): seq<string> {
    if |ms| == 0 then [] else [ms[0].content] + Contents(ms[1..])
  }

  /** How many entries of a transcript are assistant replies. */
  function CountReplies(ms: seq<ChatMessage>): nat {
    if |ms| == 0 then 0 else (if ms[0].sender == ChatGPT then 1 else 0) + CountReplies(ms[1..])
  }

  /** How many role-tagged messages carry the `assistant` role. */
  function CountAssistant(ms: seq<ApiMessage>): nat {
    if |ms| == 0 then 0 else (if ms[0].role == AssistantRole then 1 else 0) + CountAssistant(ms[1..])
  }

  /** Dropping the system prompt from a request gives back the transcript's texts unchanged. */
  lemma {:induction false} ContentsRoundTrip(ms: seq<ChatMessage>)
    ensures Contents(BuildRequest(ms).messages[1..]) == Texts(ms)
  {
    var r := BuildRequest(ms);
    assert r.messages[1..] == ToApiMessages(ms);
    ToApiContents(ms);
  }

  /** Tagging keeps every content, in order. */
  lemma {:induction false} ToApiContents(ms: seq<ChatMessage>)
    ensures Contents(ToApiMessages(ms)) == Texts(ms)
  {
    if |ms| > 0 {
      var a := ToApiMessages(ms);
      assert a[1..] == ToApiMessages(ms[1..]);
      ToApiContents(ms[1..]);
    }
  }

  /** The request has exactly as many `assistant` messages as the transcript has assistant replies. */
  lemma {:induction false} AssistantCount(ms: seq<ChatMessage>)
    ensures CountAssistant(BuildRequest(ms).messages) == CountReplies(ms)
  {
    var r := BuildRequest(ms).messages;
    assert r[1..] == ToApiMessages(ms);
    ToApiAssistantCount(ms);
  }

  /** Tagging gives the `assistant` role to exactly the ChatGPT entries. */
  lemma {:induction false} ToApiAssistantCount(ms: seq<ChatMessage>)
    ensures CountAssistant(ToApiMessages(ms)) == CountReplies(ms)
  {
    if |ms| > 0 {
      var a := ToApiMessages(ms);
      assert a[1..] == ToApiMessages(ms[1..]);
      ToApiAssistantCount(ms[1..]);
    }
  }

  /** Building from a snapshot with one more entry extends the previous request by that entry's message. */
  lemma BuildRequestSnoc(ms: seq<ChatMessage>, m: ChatMessage)
    ensures BuildRequest(ms + [m]).messages
         == BuildRequest(ms).messages + [ApiMessage(RoleOf(m.sender), m.message)]
  {
  }
}
