/** The AI cog of shibeai/ai.py: two configuration fields, the chat-completion
    payload built from them, the decoding of the endpoint's answer, and the
    command boundary that turns any exception into a reply text.
    The HTTP exchange itself is a parameter: `endpoint` maps the request the cog
    sends to what comes back (a response, or an exception from the client). */
module ShibeAI {
  import opened PyJson

  const DEFAULT_URL := "http://placeholder.ai:5001/v1/chat/completions"
  const DEFAULT_PROMPT := "You are Shibebot, an AI made for the Thunderdoge gaming community. Keep responses short and funny."

  /** The sampling temperature, kept as the literal the cog writes; its value is never reasoned about. */
  const TEMPERATURE: Json := Float("0.7")
  const MAX_TOKENS := 150

  const PARSE_FAILED := "Error: Could not parse AI response."
  const FETCH_FAILED := "Error: Failed to fetch response from AI."
  const URL_UPDATED := "AI endpoint URL has been updated."
  const PROMPT_UPDATED := "AI system prompt has been updated."

  // ---------------------------------------------------------------------------
  // Outbound messages and payload

  datatype Role = System | User

  datatype Message = Message(role: Role, content: string)

  function RoleName(role: Role): string
  {
    match role
    case System => "system"
    case User => "user"
  }

  /** One entry of the payload's "messages" list. */
  function EncodeMessage(m: Message): Json
  {
    Dict(map["role" := Str(RoleName(m.role)), "content" := Str(m.content)])
  }

  /** How the endpoint reads one entry of "messages": a dict with a known role and a string content. */
  function DecodeMessage(j: Json): (m: Option<Message>)
    ensures m.Some? ==> Has(j, "role") && At(j, "role") == Str(RoleName(m.value.role))
    ensures m.Some? ==> Has(j, "content") && At(j, "content") == Str(m.value.content)
  {
    if Has(j, "role") && Has(j, "content") && At(j, "content").Str? then
      if At(j, "role") == Str("system") then Some(Message(System, At(j, "content").s))
      else if At(j, "role") == Str("user") then Some(Message(User, At(j, "content").s))
      else None
    else None
  }

  lemma MessageRoundTrip(m: Message)
    ensures DecodeMessage(EncodeMessage(m)) == Some(m)
  {
  }

  /** How the endpoint reads the whole "messages" list: every entry must be a message. */
  function DecodeMessages(items: seq<Json>): (ms: Option<seq<Message>>)
    ensures ms.Some? ==> |ms.value| == |items|
    ensures ms.Some? ==> forall i :: 0 <= i < |items| ==> DecodeMessage(items[i]) == Some(ms.value[i])
    ensures ms.None? ==> exists i :: 0 <= i < |items| && DecodeMessage(items[i]).None?
  {
    if items == [] then Some([])
    else
      match DecodeMessage(items[0])
      case None => None
      case Some(m) =>
        match DecodeMessages(items[1..])
        case None => None
        case Some(rest) => Some([m] + rest)
  }

  /** The request body `fetch_ai_response` posts: the system prompt, then the user's text,
      and the fixed generation settings. */
  function BuildPayload(systemPrompt: string, userContent: string): (p: Json)
    ensures p.Dict? && p.fields.Keys == {"messages", "temperature", "max_tokens", "stream"}
    ensures At(p, "messages").List? && |At(p, "messages").items| == 2
    ensures forall j | j in At(p, "messages").items :: j.Dict? && j.fields.Keys == {"role", "content"}
    ensures DecodeMessages(At(p, "messages").items)
            == Some([Message(System, systemPrompt), Message(User, userContent)])
    ensures At(p, "temperature") == TEMPERATURE
    ensures At(p, "max_tokens") == Int(MAX_TOKENS)
    ensures At(p, "stream") == Bool(false)
  {
    var messages := [EncodeMessage(Message(System, systemPrompt)), EncodeMessage(Message(User, userContent))];
    MessageRoundTrip(Message(System, systemPrompt));
    MessageRoundTrip(Message(User, userContent));
    var tail := messages[1..];
    assert tail == [EncodeMessage(Message(User, userContent))];
    assert tail[1..] == [];
    assert DecodeMessages(tail[1..]) == Some([]);
    assert [Message(User, userContent)] + [] == [Message(User, userContent)];
    assert DecodeMessages(tail) == Some([Message(User, userContent)]);
    assert [Message(System, systemPrompt)] + [Message(User, userContent)]
        == [Message(System, systemPrompt), Message(User, userContent)];
    Dict(map[
      "messages" := List(messages),
      "temperature" := TEMPERATURE,
      "max_tokens" := Int(MAX_TOKENS),
      "stream" := Bool(false)])
  }

  /** Two payloads differ in nothing but their "messages" list. */
  lemma PayloadSettingsFixed(prompt1: string, content1: string, prompt2: string, content2: string)
    ensures BuildPayload(prompt1, content1).fields - {"messages"}
            == BuildPayload(prompt2, content2).fields - {"messages"}
  {
  }

  // ---------------------------------------------------------------------------
  // The exchange with the endpoint and the decoding of its answer

  datatype Request = Request(url: string, payload: Json)

  /** What the POST yields: a response with its status and what `await response.json()`
      would give, or an exception raised by the HTTP client. */
  datatype HttpOutcome =
    | Response(status: int, json: Result<Json>)
    | TransportError(error: PyError)

  /** The first entry of "choices", when the body is a dict whose "choices" is a non-empty list. */
  function FirstChoice(data: Json): Option<Json>
  {
    if Has(data, "choices") && At(data, "choices").List? && At(data, "choices").items != []
    then Some(At(data, "choices").items[0])
    else None
  }

  /** The "message" of the first choice, when that choice is a dict that has one. */
  function MessageOf(data: Json): Option<Json>
  {
    if FirstChoice(data).Some? && Has(FirstChoice(data).value, "message")
    then Some(At(FirstChoice(data).value, "message"))
    else None
  }

  /** The status-200 decoding: the content of the first choice's message. A missing
      "choices" counts as one empty choice, a missing "message" as an empty dict, and a
      missing "content" as PARSE_FAILED; any other shape the defaults do not cover raises. */
  function Decode(data: Json): (r: Result<Json>)
    // the answer is there: it is returned as it is
    ensures MessageOf(data).Some? && Has(MessageOf(data).value, "content")
            ==> r == Ok(At(MessageOf(data).value, "content"))
    // a missing key falls back to the parse-error text
    ensures data.Dict? && !Has(data, "choices") ==> r == Ok(Str(PARSE_FAILED))
    ensures FirstChoice(data).Some? && FirstChoice(data).value.Dict? && MessageOf(data).None?
            ==> r == Ok(Str(PARSE_FAILED))
    ensures MessageOf(data).Some? && MessageOf(data).value.Dict? && !Has(MessageOf(data).value, "content")
            ==> r == Ok(Str(PARSE_FAILED))
    // an empty "choices" list is not covered by the defaults: indexing it raises
    ensures Has(data, "choices") && At(data, "choices") == List([])
            ==> r == Raise(IndexError(LIST_INDEX_OUT_OF_RANGE))
    // exactly these shapes return without raising, and they return the answer or the fallback
    ensures r.Ok? <==>
              data.Dict?
              && (!Has(data, "choices")
                  || (FirstChoice(data).Some? && FirstChoice(data).value.Dict?
                      && (MessageOf(data).None? || MessageOf(data).value.Dict?)))
    ensures r.Ok? ==>
              r.value == Str(PARSE_FAILED)
              || (MessageOf(data).Some? && Has(MessageOf(data).value, "content")
                  && r.value == At(MessageOf(data).value, "content"))
  {
    var choices :- Get(data, "choices", List([Dict(map[])]));
    var first :- First(choices);
    var message :- Get(first, "message", Dict(map[]));
    Get(message, "content", Str(PARSE_FAILED))
  }

  /** What `fetch_ai_response` returns or raises for one outcome of the POST. */
  function Fetch(outcome: HttpOutcome): (r: Result<Json>)
    ensures outcome.TransportError? ==> r == Raise(outcome.error)
    ensures outcome.Response? && outcome.status != 200 ==> r == Ok(Str(FETCH_FAILED))
    ensures outcome.Response? && outcome.status == 200 && outcome.json.Raise?
            ==> r == Raise(outcome.json.error)
    ensures outcome.Response? && outcome.status == 200 && outcome.json.Ok?
            ==> r == Decode(outcome.json.value)
  {
    match outcome
    case TransportError(e) => Raise(e)
    case Response(status, json) =>
      if status == 200 then
        match json
        case Raise(e) => Raise(e)
        case Ok(data) => Decode(data)
      else Ok(Str(FETCH_FAILED))
  }

  /** A status other than 200 gives the fetch-error text whatever the body is. */
  lemma NonOkStatusIgnoresBody(status: int, json1: Result<Json>, json2: Result<Json>)
    requires status != 200
    ensures Fetch(Response(status, json1)) == Fetch(Response(status, json2)) == Ok(Str(FETCH_FAILED))
  {
  }

  /** The `ai` command boundary: a returned value is sent as it is; an exception
      is caught and sent as "Error: " followed by its message. */
  function Reply(r: Result<Json>): (sent: Json)
    ensures r.Ok? ==> sent == r.value
    ensures r.Raise? ==> sent == Str("Error: " + r.error.message)
  {
    match r
    case Ok(v) => v
    case Raise(e) => Str("Error: " + e.message)
  }

  /** A 200 answer whose "choices" is an empty list is reported, not crashed on. */
  lemma EmptyChoicesReported(data: Json)
    requires Has(data, "choices") && At(data, "choices") == List([])
    ensures Reply(Fetch(Response(200, Ok(data)))) == Str("Error: list index out of range")
  {
  }

  // ---------------------------------------------------------------------------
  // The cog and its configuration

  class AICommand {
    var aiUrl: string
    var systemPrompt: string

    /** Each setting is the environment's value when one is given, else the placeholder. */
    constructor (envUrl: Option<string>, envPrompt: Option<string>)
      ensures aiUrl == if envUrl.Some? then envUrl.value else DEFAULT_URL
      ensures systemPrompt == if envPrompt.Some? then envPrompt.value else DEFAULT_PROMPT
    {
      aiUrl := if envUrl.Some? then envUrl.value else DEFAULT_URL;
      systemPrompt := if envPrompt.Some? then envPrompt.value else DEFAULT_PROMPT;
    }

    /** Posts the payload for `userContent` to the current URL and decodes the answer;
        no field changes, so the request depends on the configuration and this text only. */
    method FetchAIResponse(userContent: string, endpoint: Request -> HttpOutcome) returns (result: Result<Json>)
      ensures result == Fetch(endpoint(Request(aiUrl, BuildPayload(systemPrompt, userContent))))
    {
      var request := Request(aiUrl, BuildPayload(systemPrompt, userContent));
      var outcome := endpoint(request);
      result := Fetch(outcome);
    }

    /** The `ai` command: what is sent back to the channel. */
    method HandleAi(userContent: string, endpoint: Request -> HttpOutcome) returns (sent: Json)
      ensures sent == Reply(Fetch(endpoint(Request(aiUrl, BuildPayload(systemPrompt, userContent)))))
    {
      var result := FetchAIResponse(userContent, endpoint);
      sent := Reply(result);
    }

    /** The `aisetup` command: replaces the URL, unvalidated, and nothing else. */
    method AiSetup(url: string) returns (ack: string)
      modifies this`aiUrl
      ensures aiUrl == url && systemPrompt == old(systemPrompt)
      ensures ack == URL_UPDATED
    {
      aiUrl := url;
      ack := URL_UPDATED;
    }

    /** The `aisys` command: replaces the system prompt, unvalidated, and nothing else. */
    method AiSys(prompt: string) returns (ack: string)
      modifies this`systemPrompt
      ensures systemPrompt == prompt && aiUrl == old(aiUrl)
      ensures ack == PROMPT_UPDATED
    {
      systemPrompt := prompt;
      ack := PROMPT_UPDATED;
    }
  }

  /** An endpoint that answers "hi" to exactly the request `[system: "You are Bob.", user: "hello"]`
      posted to the default URL, and fails with status 500 for every other request. */
  function BobEndpoint(q: Request): HttpOutcome
  {
    if q.url == DEFAULT_URL && Has(q.payload, "messages")
       && At(q.payload, "messages")
          == List([EncodeMessage(Message(System, "You are Bob.")), EncodeMessage(Message(User, "hello"))])
    then Response(200, Ok(Dict(map["choices" := List([Dict(map["message" := Dict(map["content" := Str("hi")])])])])))
    else Response(500, Ok(Null))
  }

  /** With the prompt "You are Bob.", the text "hello" gets that endpoint's answer back
      and any other text gets the fetch-error text. */
  lemma BobReplies(userContent: string)
    ensures Reply(Fetch(BobEndpoint(Request(DEFAULT_URL, BuildPayload("You are Bob.", userContent)))))
            == if userContent == "hello" then Str("hi") else Str(FETCH_FAILED)
  {
    var payload := BuildPayload("You are Bob.", userContent);
    var answer := Dict(map["choices" := List([Dict(map["message" := Dict(map["content" := Str("hi")])])])]);
    if userContent == "hello" {
      assert BobEndpoint(Request(DEFAULT_URL, payload)) == Response(200, Ok(answer));
      assert MessageOf(answer) == Some(Dict(map["content" := Str("hi")]));
    } else {
      var entry := At(payload, "messages").items[1];
      assert entry == EncodeMessage(Message(User, userContent));
      assert At(entry, "content") != Str("hello");
    }
  }

  /** A session: the prompt is changed at run time, and the next request carries it. */
  method PromptChangeScenario()
  {
    var cog := new AICommand(None, None);
    assert cog.aiUrl == DEFAULT_URL && cog.systemPrompt == DEFAULT_PROMPT;
    var ack := cog.AiSys("You are Bob.");
    assert ack == PROMPT_UPDATED && cog.aiUrl == DEFAULT_URL;
    var sent := cog.HandleAi("hello", BobEndpoint);
    BobReplies("hello");
    assert sent == Str("hi");
    var other := cog.HandleAi("bye", BobEndpoint);
    BobReplies("bye");
    assert other == Str(FETCH_FAILED);
  }
}
