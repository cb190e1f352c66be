/**
 * src/services/openai.ts: the four calls to the chat-completion API and how
 * each turns the model's free-form text into a result, with its fixed
 * fallbacks. The HTTP exchange is the `Reply` parameter; `JSON.parse` is the
 * `parse` parameter; `keyConfigured` stands for a truthy VITE_OPENAI_API_KEY.
 */
module OpenAI {
  import opened Wrappers
  import opened Types
  import opened Json
  import JsText
  import JsonSpan

  // ---- createPetPersona ----

  const NoKeyGreeting: string := "I need to get to know you better before we can chat!"
  const EmptyReplyGreeting: string := "Woof! I'm excited to meet you!"
  const ErrorGreeting: string := "Hi there! I'm so happy to meet you! Let's be best friends! \U{1F43E}"

  /** The first message of a new pet: the model's text, or one of three fixed greetings. */
  function CreatePetPersona(keyConfigured: bool, reply: Reply): (greeting: string)
    ensures greeting != ""
    ensures !keyConfigured ==> greeting == NoKeyGreeting
    ensures keyConfigured && reply.Failed? ==> greeting == ErrorGreeting
    ensures keyConfigured && ContentOf(reply).Some? ==> greeting == ContentOf(reply).value
    ensures keyConfigured && reply.Received? && ContentOf(reply).None? ==> greeting == EmptyReplyGreeting
  {
    if !keyConfigured then NoKeyGreeting
    else match reply
      case Failed => ErrorGreeting
      case Received(_) =>
        match ContentOf(reply)
        case Some(text) => text
        case None => EmptyReplyGreeting
  }

  // ---- chatWithPet ----

  /** How many past turns are sent along with a new message (`chatHistory.slice(-10)`). */
  const HistoryWindow: nat := 10

  /** `history.slice(-10)`: the last ten entries, or all of them when there are fewer. */
  function RecentHistory(history: seq<HistoryEntry>): (recent: seq<HistoryEntry>)
    ensures |recent| == if |history| < HistoryWindow then |history| else HistoryWindow
    ensures recent == history[|history| - |recent|..]
  {
    if |history| <= HistoryWindow then history else history[|history| - HistoryWindow..]
  }

  /** The `messages` of the request: the persona prompt, the recent history in order, the new message. */
  function ChatRequest(systemPrompt: string, history: seq<HistoryEntry>, message: string): (messages: seq<HistoryEntry>)
    ensures 2 <= |messages| <= HistoryWindow + 2
    ensures |messages| - 2 == if |history| < HistoryWindow then |history| else HistoryWindow
    ensures messages[0] == HistoryEntry(System, systemPrompt)
    ensures messages[|messages| - 1] == HistoryEntry(User, message)
    ensures |messages| - 2 <= |history| && messages[1..|messages| - 1] == history[|history| - (|messages| - 2)..]
    ensures |history| <= HistoryWindow ==> messages == [HistoryEntry(System, systemPrompt)] + history + [HistoryEntry(User, message)]
  {
    [HistoryEntry(System, systemPrompt)] + RecentHistory(history) + [HistoryEntry(User, message)]
  }

  const NoKeyReply: AIResponse :=
    AIResponse("Woof! I need my human to set up my voice first!", "API key not configured")
  const ErrorReply: AIResponse :=
    AIResponse("I'm a bit sleepy right now, can you try again? \U{1F43E}",
               "An error occurred while processing your message. Please try again.")
  const UnparsedReasoning: string :=
    "The AI response couldn't be parsed properly. This might be a temporary issue."
  /** The JSON text used in place of a missing or empty `content`. */
  const MissingContent: string :=
    "{" + "\"response\": \"Woof! I didn't quite catch that!\", \"reasoning\": \"No response received from AI\"" + "}"
  const MissingContentReply: AIResponse :=
    AIResponse("Woof! I didn't quite catch that!", "No response received from AI")

  /** `data.choices[0]?.message?.content || MissingContent`. */
  function ChatContent(reply: Reply): (content: string)
    ensures content != ""
    ensures content == if ContentOf(reply).Some? then ContentOf(reply).value else MissingContent
  {
    match ContentOf(reply)
    case Some(text) => text
    case None => MissingContent
  }

  /**
   * The inner `try`: parse the trimmed content and accept it only when both
   * `response` and `reasoning` are present. `null` (a TypeError on the field
   * read), a missing field and an empty string all reject it.
   */
  function ParsedChatReply(content: string, parse: string -> Option<Json>): (r: Option<AIResponse>)
    ensures r.Some? <==>
      && parse(JsText.Trim(content)).Some?
      && StringField(parse(JsText.Trim(content)).value, "response").Some?
      && StringField(parse(JsText.Trim(content)).value, "reasoning").Some?
    ensures r.Some? ==>
      var parsed := parse(JsText.Trim(content)).value;
      && Get(parsed, "response") == Value(JString(r.value.response)) && r.value.response != ""
      && Get(parsed, "reasoning") == Value(JString(r.value.reasoning)) && r.value.reasoning != ""
  {
    match parse(JsText.Trim(content))
    case None => None
    case Some(parsed) =>
      match (StringField(parsed, "response"), StringField(parsed, "reasoning"))
      case (Some(response), Some(reasoning)) => Some(AIResponse(response, reasoning))
      case _ => None
  }

  /**
   * An in-character reply: the parsed pair when both fields are present,
   * otherwise the raw content with the fixed "couldn't be parsed" reasoning;
   * fixed pairs for a missing key and for any error of the exchange.
   */
  function ChatWithPet(keyConfigured: bool, reply: Reply, parse: string -> Option<Json>): (r: AIResponse)
    ensures r.response != "" && r.reasoning != ""
    ensures !keyConfigured ==> r == NoKeyReply
    ensures keyConfigured && reply.Failed? ==> r == ErrorReply
    ensures keyConfigured && reply.Received? ==>
      var content := ChatContent(reply);
      r == if ParsedChatReply(content, parse).Some? then ParsedChatReply(content, parse).value
           else AIResponse(content, UnparsedReasoning)
  {
    if !keyConfigured then NoKeyReply
    else match reply
      case Failed => ErrorReply
      case Received(_) =>
        var content := ChatContent(reply);
        match ParsedChatReply(content, parse)
        case Some(parsed) => parsed
        case None => AIResponse(content, UnparsedReasoning)
  }

  /** `parse` agrees with `JSON.parse` on the replacement text for a missing content. */
  ghost predicate ParsesMissingContent(parse: string -> Option<Json>) {
    parse(MissingContent) == Some(JObject(map[
      "response" := JString(MissingContentReply.response),
      "reasoning" := JString(MissingContentReply.reasoning)]))
  }

  /** With a real JSON parser, a reply with no content yields the "didn't quite catch that" pair. */
  lemma MissingContentGivesDefaultReply(reply: Reply, parse: string -> Option<Json>)
    requires ParsesMissingContent(parse)
    requires reply.Received? && ContentOf(reply).None?
    ensures ChatWithPet(true, reply, parse) == MissingContentReply
  {
    var c := MissingContent;
    assert c[0] == '{' && c[|c| - 1] == '}';
    JsText.TrimUnchanged(c);
    var parsed := parse(c).value;
    assert StringField(parsed, "response") == Some(MissingContentReply.response);
    assert StringField(parsed, "reasoning") == Some(MissingContentReply.reasoning);
  }

  /** A well-formed reply comes back as exactly its two fields. */
  lemma WellFormedReplyIsParsed(text: string, response: string, reasoning: string, parse: string -> Option<Json>)
    requires text != "" && response != "" && reasoning != ""
    requires parse(JsText.Trim(text)) == Some(JObject(map["response" := JString(response), "reasoning" := JString(reasoning)]))
    ensures ChatWithPet(true, Received(Some(text)), parse) == AIResponse(response, reasoning)
  {
    var reply := Received(Some(text));
    assert ContentOf(reply) == Some(text);
    assert ChatContent(reply) == text;
    var parsed := parse(JsText.Trim(text)).value;
    assert Get(parsed, "response") == Value(JString(response));
    assert Get(parsed, "reasoning") == Value(JString(reasoning));
    assert ParsedChatReply(text, parse) == Some(AIResponse(response, reasoning));
  }

  // ---- generateDietPlan and generatePetMoodScenario ----

  /**
   * A weekly diet plan: the parse of the reply's first-'{'-to-last-'}' span,
   * or `None` for a missing key, a failed exchange, an empty content, no span
   * or a span that does not parse. No field of the plan is checked.
   */
  function GenerateDietPlan(keyConfigured: bool, reply: Reply, parse: string -> Option<Json>): (plan: Option<Json>)
    ensures plan.Some? <==>
      && keyConfigured && ContentOf(reply).Some?
      && JsonSpan.ExtractSpan(ContentOf(reply).value).Some?
      && parse(JsonSpan.ExtractSpan(ContentOf(reply).value).value).Some?
    ensures plan.Some? ==> plan == parse(JsonSpan.ExtractSpan(ContentOf(reply).value).value)
  {
    if !keyConfigured then None
    else match ContentOf(reply)
      case None => None
      case Some(content) => JsonSpan.ParseEmbedded(content, parse)
  }

  /** A mood-quiz scenario, normalised exactly as the diet plan is. */
  function GeneratePetMoodScenario(keyConfigured: bool, reply: Reply, parse: string -> Option<Json>): (scenario: Option<Json>)
    ensures scenario.Some? <==>
      && keyConfigured && ContentOf(reply).Some?
      && JsonSpan.ExtractSpan(ContentOf(reply).value).Some?
      && parse(JsonSpan.ExtractSpan(ContentOf(reply).value).value).Some?
    ensures scenario.Some? ==> scenario == parse(JsonSpan.ExtractSpan(ContentOf(reply).value).value)
  {
    if !keyConfigured then None
    else match ContentOf(reply)
      case None => None
      case Some(content) =>
        match JsonSpan.ExtractSpan(content)
        case None => None
        case Some(span) => parse(span)
  }

  /** A reply whose text has no '{' before a later '}' gives no plan and no scenario. */
  lemma NoSpanNoResult(text: string, parse: string -> Option<Json>)
    requires forall i, j :: 0 <= i < j < |text| ==> !(text[i] == '{' && text[j] == '}')
    ensures GenerateDietPlan(true, Received(Some(text)), parse).None?
    ensures GeneratePetMoodScenario(true, Received(Some(text)), parse).None?
  {
    assert forall i, j :: !JsonSpan.IsMatchAt(text, i, j);
  }
}
