/** The language-model side of the service: the prompts sent for the company
    analysis, for each custom question and for a follow-up chat message, and
    how the replies become records. The configured model (or its absence) and
    the JSON decoder are parameters. */
module AiAnalyzer {
  import opened Wrappers
  import opened PyStr
  import opened ApiModels
  import opened WebScraper

  /** The three fixed system prompts, by name; `PromptText` gives their text. */
  datatype Prompt = AnalysisPrompt | QaPrompt | FollowUpPrompt

  /** A message's content: a fixed system prompt, or text composed for the
      request at hand. */
  datatype Content = Fixed(prompt: Prompt) | Composed(text: string)

  datatype ChatMessage = ChatMessage(role: string, content: Content)

  /** The configured model: none, or one that answers a message list (in JSON
      mode or not) with a reply text or fails with the text of its error. */
  datatype LlmClient = NoClient | Client(complete: (seq<ChatMessage>, bool) -> Result<string, string>)

  const NoClientMessage := "LLM client is not initialized. Please check your configuration and ensure the service (Ollama or Groq) is running."
  const InvalidFormatMessage := "The AI model returned data in an invalid format. Could not parse company info."
  const AnswerErrorPrefix := "Error generating answer: "
  const FollowUpErrorPrefix := "An error occurred during conversational LLM call: "
  const HomepageSource := "Homepage Text Content"

  const AnalysisSystemPrompt: string :=
    "\n"
    + "You are an expert business analyst AI. Your task is to analyze the content from a company's homepage and extract key business information.\n"
    + "Respond ONLY with a single, valid JSON object. Do not include any text, explanations, or markdown formatting before or after the JSON.\n"
    + "The JSON object must strictly follow this structure:\n"
    + "{\n"
    + "  \"industry\": \"A specific industry category (e.g., 'Financial Technology', 'E-commerce', 'Healthcare SaaS') or 'N/A' if not found.\",\n"
    + "  \"company_size\": \"An estimated size (e.g., 'Startup (1-10 employees)', 'Medium (50-200 employees)', 'Large Enterprise (>1000 employees)') or 'N/A' if not found.\",\n"
    + "  \"location\": \"The primary headquarters or location (e.g., 'San Francisco, CA, USA') or 'N/A' if not found.\",\n"
    + "  \"core_products_services\": [\"A list of the main products or services offered.\"],\n"
    + "  \"unique_selling_proposition\": \"A concise, one-sentence summary of what makes the company unique.\",\n"
    + "  \"target_audience\": \"A description of the primary customer demographic (e.g., 'Small to Medium Businesses (SMBs)', 'Individual Consumers', 'Large Enterprises').\"\n"
    + "}\n"
    + "If information for a field is not available in the provided text, use \"N/A\" for strings and an empty list [] for arrays.\n"

  const QaSystemPrompt: string :=
    "You are a helpful question-answering assistant. Use the provided context to answer the user's question concisely. If the answer is not in the context, state that the information is not available on the homepage."

  const FollowUpSystemPrompt: string :=
    "You are a helpful and conversational AI agent. Your purpose is to answer questions about a company based on the content of their website.\n"
    + "    Use the 'Website Content Context' and the 'Conversation History' to provide a comprehensive answer to the 'User's Latest Query'.\n"
    + "    Be conversational and clear. If the information is not present in the provided context, state that you cannot find the answer on the homepage."

  function PromptText(p: Prompt): string {
    match p
    case AnalysisPrompt => AnalysisSystemPrompt
    case QaPrompt => QaSystemPrompt
    case FollowUpPrompt => FollowUpSystemPrompt
  }

  /** The text a message carries. */
  function ContentText(c: Content): string {
    match c
    case Fixed(p) => PromptText(p)
    case Composed(t) => t
  }

  /** One model call: without a client it fails before anything is sent. */
  function GenerateLlmResponse(client: LlmClient, messages: seq<ChatMessage>, jsonMode: bool): (r: Result<string, string>)
    ensures client.NoClient? ==> r == Failure(NoClientMessage)
    ensures client.Client? ==> r == client.complete(messages, jsonMode)
  {
    match client
    case NoClient => Failure(NoClientMessage)
    case Client(complete) => complete(messages, jsonMode)
  }

  // ---------------------------------------------------------------------------
  // Context and fences

  const ContextTitleLabel := "Title: "
  const ContextDescriptionLabel := "\nMeta Description: "
  const ContextContentLabel := "\n\n--- Website Content ---\n"

  /** The page context both entry points give the model. */
  function ContextText(title: string, description: string, content: string): (r: string)
    ensures StartsWith(r, ContextTitleLabel + title + ContextDescriptionLabel + description + ContextContentLabel)
    ensures |r| == |ContextTitleLabel| + |title| + |ContextDescriptionLabel| + |description| + |ContextContentLabel| + |content|
    ensures r[|r| - |content|..] == content
  {
    var head := ContextTitleLabel + title + ContextDescriptionLabel + description + ContextContentLabel;
    var r := head + content;
    assert r[..|head|] == head;
    assert r[|r| - |content|..] == content;
    r
  }

  function ContextOf(d: ScrapedData): string {
    ContextText(d.metadata.title, d.metadata.description, d.mainContent)
  }

  const Fence := "```json"

  /** `s[7:-3]` for a string of at least seven characters. */
  function DropFenceEnds(s: string): (r: string)
    requires |s| >= 7
    ensures |r| == if |s| >= 10 then |s| - 10 else 0
    ensures 7 + |r| <= |s| && r == s[7..7 + |r|]
  {
    s[7..if |s| - 3 < 7 then 7 else |s| - 3]
  }

  /** A reply wrapped in a fenced JSON block is cut down to what lies between
      the fence marks; any other reply is kept as it came. */
  function StripFence(raw: string): (r: string)
    ensures !StartsWith(Strip(raw), Fence) ==> r == raw
    ensures StartsWith(Strip(raw), Fence) ==> r == DropFenceEnds(Strip(raw))
  {
    var s := Strip(raw);
    if StartsWith(s, Fence) then DropFenceEnds(s) else raw
  }

  /** Whatever whitespace surrounds it, a block opened by the JSON fence and
      closed by three backquotes gives back exactly its body. */
  lemma FenceRoundTrip(pre: string, body: string, post: string)
    requires AllSpace(pre) && AllSpace(post)
    ensures StripFence(pre + Fence + body + "```" + post) == body
  {
    var t := Fence + body + "```";
    FencedBlock(body);
    assert pre + Fence + body + "```" + post == pre + t + post;
    StripPadded(pre, t, post);
  }

  /** The fenced block on its own: it opens with the fence, has a non-blank
      first and last character, and `[7:-3]` of it is the body. */
  lemma FencedBlock(body: string)
    ensures var t := Fence + body + "```";
            && t[0] == '`' && t[|t| - 1] == '`'
            && StartsWith(t, Fence) && DropFenceEnds(t) == body
  {
    var t := Fence + body + "```";
    assert |t| == |body| + 10;
    assert t[..|Fence|] == Fence;
    assert t[7..|t| - 3] == body;
  }

  // ---------------------------------------------------------------------------
  // Company analysis

  function AnalysisMessages(context: string): seq<ChatMessage> {
    [ChatMessage("system", Fixed(AnalysisPrompt)), ChatMessage("user", Composed(context))]
  }

  /** The error raised by `company_info['contact_info'] = ...` when the decoded
      reply is not a dictionary. */
  function ItemAssignmentError(v: Json): string
    requires !v.JObject?
  {
    match v
    case JArray(_) => "list indices must be integers or slices, not str"
    case JString(_) => "'str' object does not support item assignment"
    case JInt(_) => "'int' object does not support item assignment"
    case JFloat(_) => "'float' object does not support item assignment"
    case JBool(_) => "'bool' object does not support item assignment"
    case JNull => "'NoneType' object does not support item assignment"
  }

  function First(xs: seq<string>): (r: Option<string>)
    ensures r.None? <==> xs == []
    ensures r.Some? ==> r.value == xs[0]
  {
    if xs == [] then None else Some(xs[0])
  }

  /** The contact record built from the scraped data, not from the model. */
  function ContactRecord(c: ContactData): Json {
    ContactJson(First(c.emails), First(c.phones), c.socialLinks)
  }

  /** The company record: the decoded reply to the analysis prompt, with its
      `contact_info` replaced by the scraped contact record. */
  function CompanyRecord(client: LlmClient, context: string, contact: ContactData,
                         parseJson: string -> Option<Json>): Result<map<string, Json>, string>
  {
    var raw :- GenerateLlmResponse(client, AnalysisMessages(context), true);
    match parseJson(StripFence(raw))
    case None => Failure(InvalidFormatMessage)
    case Some(v) =>
      if v.JObject? then Success(v.fields["contact_info" := ContactRecord(contact)])
      else Failure(ItemAssignmentError(v))
  }

  function QaMessages(context: string, question: string): seq<ChatMessage> {
    [ChatMessage("system", Fixed(QaPrompt)),
     ChatMessage("user", Composed("Context:\n" + context + "\n\nQuestion: " + question))]
  }

  /** One custom question: the model's answer, or the error text in its place. */
  function AnswerFor(client: LlmClient, context: string, question: string): ExtractedAnswer {
    match GenerateLlmResponse(client, QaMessages(context, question), false)
    case Success(a) => ExtractedAnswer(question, a)
    case Failure(e) => ExtractedAnswer(question, AnswerErrorPrefix + e)
  }

  /** The answers to the custom questions, one per question and in order;
      none when there are no questions. */
  function Answers(client: LlmClient, context: string, questions: Option<seq<string>>): (r: seq<ExtractedAnswer>)
    ensures questions.None? ==> r == []
    ensures questions.Some? ==> |r| == |questions.value|
  {
    if questions.None? then []
    else seq(|questions.value|, k requires 0 <= k < |questions.value| => AnswerFor(client, context, questions.value[k]))
  }

  datatype AnalysisResult = AnalysisResult(companyInfo: map<string, Json>, extractedAnswers: seq<ExtractedAnswer>)

  /** What `analyze_content_with_llm` returns or raises. */
  function AnalyzeSpec(client: LlmClient, data: ScrapedData, questions: Option<seq<string>>,
                       parseJson: string -> Option<Json>): Result<AnalysisResult, string>
  {
    var context := ContextOf(data);
    var info :- CompanyRecord(client, context, data.contact, parseJson);
    Success(AnalysisResult(info, Answers(client, context, questions)))
  }

  /** The per-question loop. */
  method AnswerQuestions(client: LlmClient, context: string, questions: Option<seq<string>>)
    returns (answers: seq<ExtractedAnswer>)
    ensures answers == Answers(client, context, questions)
  {
    answers := [];
    if questions.Some? && questions.value != [] {
      var qs := questions.value;
      for i := 0 to |qs|
        invariant |answers| == i
        invariant forall k :: 0 <= k < i ==> answers[k] == AnswerFor(client, context, qs[k])
      {
        var messages := QaMessages(context, qs[i]);
        var reply := GenerateLlmResponse(client, messages, false);
        if reply.Success? {
          answers := answers + [ExtractedAnswer(qs[i], reply.value)];
        } else {
          answers := answers + [ExtractedAnswer(qs[i], AnswerErrorPrefix + reply.error)];
        }
      }
    }
  }

  /** `analyze_content_with_llm`. */
  method AnalyzeContent(client: LlmClient, data: ScrapedData, questions: Option<seq<string>>,
                        parseJson: string -> Option<Json>) returns (r: Result<AnalysisResult, string>)
    ensures r == AnalyzeSpec(client, data, questions, parseJson)
  {
    var context := ContextOf(data);
    var raw := GenerateLlmResponse(client, AnalysisMessages(context), true);
    if raw.Failure? {
      return Failure(raw.error);
    }
    var parsed := parseJson(StripFence(raw.value));
    if parsed.None? {
      return Failure(InvalidFormatMessage);
    }
    if !parsed.value.JObject? {
      return Failure(ItemAssignmentError(parsed.value));
    }
    var companyInfo := parsed.value.fields;
    companyInfo := companyInfo["contact_info" := ContactRecord(data.contact)];
    var answers := AnswerQuestions(client, context, questions);
    r := Success(AnalysisResult(companyInfo, answers));
  }

  /** The ways the analysis fails: no client, a failed model call (re-raised
      as is), a reply that does not decode, and a decoded reply that is not
      a dictionary. */
  lemma AnalyzeFailures(client: LlmClient, data: ScrapedData, questions: Option<seq<string>>,
                        parseJson: string -> Option<Json>)
    ensures client.NoClient? ==> AnalyzeSpec(client, data, questions, parseJson) == Failure(NoClientMessage)
    ensures var call := GenerateLlmResponse(client, AnalysisMessages(ContextOf(data)), true);
            && (call.Failure? ==> AnalyzeSpec(client, data, questions, parseJson) == Failure(call.error))
            && (call.Success? && parseJson(StripFence(call.value)).None? ==>
                  AnalyzeSpec(client, data, questions, parseJson) == Failure(InvalidFormatMessage))
            && (call.Success? && parseJson(StripFence(call.value)).Some? && !parseJson(StripFence(call.value)).value.JObject? ==>
                  AnalyzeSpec(client, data, questions, parseJson) == Failure(ItemAssignmentError(parseJson(StripFence(call.value)).value)))
    ensures AnalyzeSpec(client, data, questions, parseJson).Success? <==>
              var call := GenerateLlmResponse(client, AnalysisMessages(ContextOf(data)), true);
              call.Success? && parseJson(StripFence(call.value)).Some? && parseJson(StripFence(call.value)).value.JObject?
  {
  }

  /** On success the contact record always comes from the scraped data,
      whatever the model said about contacts, and every other key of the
      decoded reply is kept; there is one answer per question, in order, each
      echoing its question. */
  lemma AnalyzeSuccess(client: LlmClient, data: ScrapedData, questions: Option<seq<string>>,
                       parseJson: string -> Option<Json>)
    requires AnalyzeSpec(client, data, questions, parseJson).Success?
    ensures var res := AnalyzeSpec(client, data, questions, parseJson).value;
            var decoded := parseJson(StripFence(GenerateLlmResponse(client, AnalysisMessages(ContextOf(data)), true).value)).value.fields;
            && "contact_info" in res.companyInfo
            && ContactInfoFrom(res.companyInfo["contact_info"]) ==
                 Success(ContactInfo(First(data.contact.emails), First(data.contact.phones),
                                     SocialMedia(Lookup(data.contact.socialLinks, "linkedin"), Lookup(data.contact.socialLinks, "twitter"),
                                                 Lookup(data.contact.socialLinks, "facebook"), Lookup(data.contact.socialLinks, "instagram"))))
            && (forall k :: k != "contact_info" ==> (k in res.companyInfo <==> k in decoded))
            && (forall k :: k != "contact_info" && k in decoded ==> res.companyInfo[k] == decoded[k])
    ensures var res := AnalyzeSpec(client, data, questions, parseJson).value;
            && |res.extractedAnswers| == (if questions.Some? then |questions.value| else 0)
            && forall k :: 0 <= k < |res.extractedAnswers| ==>
                 res.extractedAnswers[k].question == questions.value[k] &&
                 var call := GenerateLlmResponse(client, QaMessages(ContextOf(data), questions.value[k]), false);
                 res.extractedAnswers[k].answer == if call.Success? then call.value else AnswerErrorPrefix + call.error
  {
    ContactJsonRoundTrip(First(data.contact.emails), First(data.contact.phones), data.contact.socialLinks);
  }

  /** Without custom questions no question is put to the model: two models
      that give the same analysis reply give the same result. */
  lemma NoQuestionsNoQaCalls(c1: LlmClient, c2: LlmClient, data: ScrapedData, questions: Option<seq<string>>,
                             parseJson: string -> Option<Json>)
    requires questions.None? || questions == Some([])
    requires GenerateLlmResponse(c1, AnalysisMessages(ContextOf(data)), true) ==
             GenerateLlmResponse(c2, AnalysisMessages(ContextOf(data)), true)
    ensures AnalyzeSpec(c1, data, questions, parseJson) == AnalyzeSpec(c2, data, questions, parseJson)
    ensures AnalyzeSpec(c1, data, questions, parseJson).Success? ==>
              AnalyzeSpec(c1, data, questions, parseJson).value.extractedAnswers == []
  {
  }

  // ---------------------------------------------------------------------------
  // Follow-up questions

  /** An entry of the conversation history as the follow-up step receives it:
      a dictionary, or the request's own turn record. */
  datatype HistoryItem = TurnDict(entries: map<string, string>) | TurnModel(turn: ConversationTurn)

  /** The attribute error raised by `turn.get(...)` on a turn record. */
  const NoGetMessage := "'ConversationTurn' object has no attribute 'get'"

  function DictGet(m: map<string, string>, key: string): string {
    if key in m then m[key] else ""
  }

  /** One turn of the history as the prompt shows it. */
  function TurnText(item: HistoryItem): Result<string, string> {
    match item
    case TurnDict(m) => Success("User: " + DictGet(m, "user_query") + "\nAI: " + DictGet(m, "agent_response"))
    case TurnModel(_) => Failure(NoGetMessage)
  }

  /** The turn texts in order; the first turn that cannot be read raises. */
  function TurnTexts(items: seq<HistoryItem>): (r: Result<seq<string>, string>)
    ensures r.Success? ==> |r.value| == |items| && forall k :: 0 <= k < |items| ==> TurnText(items[k]) == Success(r.value[k])
  {
    if items == [] then Success([])
    else
      var first :- TurnText(items[0]);
      var rest :- TurnTexts(items[1..]);
      Success([first] + rest)
  }

  /** The history can be rendered exactly when every entry is a dictionary;
      a turn record anywhere raises the attribute error. */
  lemma {:induction false} TurnTextsReadable(items: seq<HistoryItem>)
    ensures TurnTexts(items).Success? <==> forall k :: 0 <= k < |items| ==> items[k].TurnDict?
    ensures TurnTexts(items).Failure? ==> TurnTexts(items).error == NoGetMessage
  {
    if items != [] {
      TurnTextsReadable(items[1..]);
      assert forall k :: 1 <= k < |items| ==> items[k] == items[1..][k - 1];
    }
  }

  /** The turns of the history as dictionaries, the form the follow-up step reads. */
  function TurnDicts(turns: seq<ConversationTurn>): (r: seq<HistoryItem>)
    ensures |r| == |turns|
    ensures forall k :: 0 <= k < |turns| ==>
              r[k] == TurnDict(map["user_query" := turns[k].userQuery, "agent_response" := turns[k].agentResponse])
  {
    seq(|turns|, k requires 0 <= k < |turns| =>
      TurnDict(map["user_query" := turns[k].userQuery, "agent_response" := turns[k].agentResponse]))
  }

  /** The turns as they are handed over without conversion. */
  function TurnModels(turns: seq<ConversationTurn>): (r: seq<HistoryItem>)
    ensures |r| == |turns| && forall k :: 0 <= k < |turns| ==> r[k] == TurnModel(turns[k])
  {
    seq(|turns|, k requires 0 <= k < |turns| => TurnModel(turns[k]))
  }

  /** A converted turn renders as its question and its answer. */
  lemma TurnDictText(t: ConversationTurn)
    ensures TurnText(TurnDict(map["user_query" := t.userQuery, "agent_response" := t.agentResponse])) ==
              Success("User: " + t.userQuery + "\nAI: " + t.agentResponse)
  {
  }

  /** The message list of a follow-up: the system prompt, the page context, the
      rendered history when there is one, and the user's query last. */
  function FollowUpMessages(context: string, historyText: Option<string>, query: string): seq<ChatMessage> {
    [ChatMessage("system", Fixed(FollowUpPrompt)), ChatMessage("system", Composed("Website Content Context:\n" + context))]
    + (if historyText.Some? then [ChatMessage("system", Composed("Conversation History:\n" + historyText.value))] else [])
    + [ChatMessage("user", Composed("User's Latest Query: " + query))]
  }

  /** The messages of a follow-up, or the error raised while rendering the history. */
  function FollowUpMessagesFor(context: string, history: seq<HistoryItem>, query: string): Result<seq<ChatMessage>, string> {
    if history == [] then Success(FollowUpMessages(context, None, query))
    else
      var texts :- TurnTexts(history);
      Success(FollowUpMessages(context, Some(Join("\n", texts)), query))
  }

  /** The layout of the follow-up messages: three without history, four with
      it, the history block third and only when the history is not empty. */
  lemma FollowUpLayout(context: string, history: seq<HistoryItem>, query: string)
    requires FollowUpMessagesFor(context, history, query).Success?
    ensures var ms := FollowUpMessagesFor(context, history, query).value;
            && |ms| == (if history == [] then 3 else 4)
            && ms[0] == ChatMessage("system", Fixed(FollowUpPrompt))
            && ms[1] == ChatMessage("system", Composed("Website Content Context:\n" + context))
            && ms[|ms| - 1] == ChatMessage("user", Composed("User's Latest Query: " + query))
            && (history != [] ==> ms[2] == ChatMessage("system", Composed("Conversation History:\n" + Join("\n", TurnTexts(history).value))))
            && (forall k :: 0 <= k < |ms| - 1 ==> ms[k].role == "system")
  {
  }

  /** Building the message list by successive appends. */
  method BuildFollowUpMessages(context: string, history: seq<HistoryItem>, query: string)
    returns (r: Result<seq<ChatMessage>, string>)
    ensures r == FollowUpMessagesFor(context, history, query)
  {
    var messages := [ChatMessage("system", Fixed(FollowUpPrompt))];
    messages := messages + [ChatMessage("system", Composed("Website Content Context:\n" + context))];
    var historyText := None;
    if history != [] {
      var texts := TurnTexts(history);
      if texts.Failure? {
        return Failure(texts.error);
      }
      historyText := Some(Join("\n", texts.value));
      messages := messages + [ChatMessage("system", Composed("Conversation History:\n" + historyText.value))];
    }
    messages := messages + [ChatMessage("user", Composed("User's Latest Query: " + query))];
    assert messages == FollowUpMessages(context, historyText, query);
    r := Success(messages);
  }

  /** A follow-up answer with the sources it claims to rest on. */
  datatype FollowUpAnswer = FollowUpAnswer(response: string, contextSources: seq<string>)

  /** What `answer_follow_up_question` returns or raises. */
  function FollowUpSpec(client: LlmClient, data: ScrapedData, query: string, history: seq<HistoryItem>): Result<FollowUpAnswer, string> {
    var messages :- FollowUpMessagesFor(ContextOf(data), history, query);
    match GenerateLlmResponse(client, messages, false)
    case Success(a) => Success(FollowUpAnswer(a, [HomepageSource]))
    case Failure(e) => Failure(FollowUpErrorPrefix + e)
  }

  /** `answer_follow_up_question`. */
  method AnswerFollowUp(client: LlmClient, data: ScrapedData, query: string, history: seq<HistoryItem>)
    returns (r: Result<FollowUpAnswer, string>)
    ensures r == FollowUpSpec(client, data, query, history)
  {
    var messages := BuildFollowUpMessages(ContextOf(data), history, query);
    if messages.Failure? {
      return Failure(messages.error);
    }
    var reply := GenerateLlmResponse(client, messages.value, false);
    if reply.Failure? {
      return Failure(FollowUpErrorPrefix + reply.error);
    }
    r := Success(FollowUpAnswer(reply.value, [HomepageSource]));
  }

  /** A follow-up either names the homepage text as its only source or fails:
      with the attribute error when the history holds a turn record, and
      otherwise with the model's error under the conversational prefix. */
  lemma FollowUpOutcome(client: LlmClient, data: ScrapedData, query: string, history: seq<HistoryItem>)
    ensures FollowUpSpec(client, data, query, history).Success? ==>
              FollowUpSpec(client, data, query, history).value.contextSources == [HomepageSource]
    ensures history != [] && (exists k :: 0 <= k < |history| && history[k].TurnModel?) ==>
              FollowUpSpec(client, data, query, history) == Failure(NoGetMessage)
    ensures (forall k :: 0 <= k < |history| ==> history[k].TurnDict?) && client.NoClient? ==>
              FollowUpSpec(client, data, query, history) == Failure(FollowUpErrorPrefix + NoClientMessage)
  {
    TurnTextsReadable(history);
  }
}
