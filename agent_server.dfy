/** The HTTP endpoints: the health check, `/analyze` and `/chat`. Each
    endpoint scrapes the page, refuses a page without text with 404, passes
    on an HTTP error raised inside unchanged and turns any other failure into
    502 with an endpoint-specific prefix. The clock readings are parameters. */
module AgentServer {
  import opened Wrappers
  import opened PyStr
  import opened ApiModels
  import opened WebScraper
  import opened AiAnalyzer

  const NotFound: int := 404
  const BadGateway: int := 502

  const NoContentMessage := "Could not find any meaningful text content on the homepage."
  const AnalyzeErrorPrefix := "An unexpected error occurred while analyzing the website: "
  const ChatErrorPrefix := "An unexpected error occurred while processing the chat request: "

  const Version := "1.0.0"
  const ServiceName := "AI Business Insights Agent"

  /** What a handler body can raise: an HTTP error, or any other exception
      with its text. */
  datatype Raised = HttpException(status: int, detail: string) | PyException(message: string)

  /** What the client receives. */
  datatype Reply<+T> = Ok(body: T) | HttpError(status: int, detail: string)

  /** The handlers' `except` clauses. */
  function Guard<T>(outcome: Result<T, Raised>, prefix: string): (r: Reply<T>)
    ensures outcome.Success? ==> r == Ok(outcome.value)
    ensures outcome.Failure? && outcome.error.HttpException? ==> r == HttpError(outcome.error.status, outcome.error.detail)
    ensures outcome.Failure? && outcome.error.PyException? ==> r == HttpError(BadGateway, prefix + outcome.error.message)
  {
    match outcome
    case Success(v) => Ok(v)
    case Failure(HttpException(status, detail)) => HttpError(status, detail)
    case Failure(PyException(message)) => HttpError(BadGateway, prefix + message)
  }

  /** `not content or not content.strip()`: empty or whitespace only. */
  predicate Blank(content: string)
    ensures Blank(content) <==> AllSpace(content)
  {
    Strip(content) == []
  }

  // ---------------------------------------------------------------------------
  // Health check and timestamps

  datatype Health = Health(status: string, timestamp: real, version: string, service: string)

  /** `read_root`, given the current time in seconds. */
  function ReadRoot(now: real): (h: Health)
    ensures h.status == "ok" && h.version == Version && h.service == ServiceName
    ensures h.timestamp == now
  {
    Health("ok", now, Version, ServiceName)
  }

  /** `s.replace(pat, rep)`: every occurrence, scanning left to right without overlaps. */
  function ReplaceAll(s: string, pat: string, rep: string): string
    requires pat != []
    decreases |s|
  {
    if |s| < |pat| then s
    else if s[..|pat|] == pat then rep + ReplaceAll(s[|pat|..], pat, rep)
    else [s[0]] + ReplaceAll(s[1..], pat, rep)
  }

  const UtcOffset := "+00:00"

  /** The response timestamp: the ISO text of the current UTC time with its
      offset written as `Z`. */
  function UtcTimestamp(iso: string): string {
    ReplaceAll(iso, UtcOffset, "Z")
  }

  /** An ISO time whose only `+` is that of the UTC offset ends in `Z` instead. */
  lemma {:induction false} UtcTimestampZ(base: string)
    requires forall k :: 0 <= k < |base| ==> base[k] != '+'
    ensures UtcTimestamp(base + UtcOffset) == base + "Z"
  {
    if base == [] {
      assert base + UtcOffset == UtcOffset;
      assert UtcOffset[6..] == [];
    } else {
      var s := base + UtcOffset;
      assert s[0] == base[0] && s[0] != '+';
      assert s[..|UtcOffset|] != UtcOffset by { assert s[..|UtcOffset|][0] != UtcOffset[0]; }
      assert s[1..] == base[1..] + UtcOffset;
      UtcTimestampZ(base[1..]);
      assert [base[0]] + (base[1..] + "Z") == base + "Z";
    }
  }

  // ---------------------------------------------------------------------------
  // /analyze

  /** The body of the `try` in `analyze_website`, given what the scraper
      returned for the requested URL, the model, the JSON decoder and the
      current UTC time in ISO form. */
  function AnalyzeAttempt(req: AnalysisRequest, scraped: Result<ScrapedData, string>, client: LlmClient,
                          parseJson: string -> Option<Json>, now: string): Result<AnalysisResponse, Raised>
  {
    match scraped
    case Failure(m) => Failure(PyException(m))
    case Success(data) =>
      if Blank(data.mainContent) then Failure(HttpException(NotFound, NoContentMessage))
      else
        match AnalyzeSpec(client, data, req.questions, parseJson)
        case Failure(m) => Failure(PyException(m))
        case Success(analysis) =>
          match CompanyInfoFrom(analysis.companyInfo)
          case Failure(e) => Failure(PyException(ErrorText(e)))
          case Success(info) =>
            Success(MakeAnalysisResponse(req.url, UtcTimestamp(now), info, Given(analysis.extractedAnswers)))
  }

  /** `POST /analyze`. */
  function AnalyzeWebsite(req: AnalysisRequest, scraped: Result<ScrapedData, string>, client: LlmClient,
                          parseJson: string -> Option<Json>, now: string): Reply<AnalysisResponse>
  {
    Guard(AnalyzeAttempt(req, scraped, client, parseJson, now), AnalyzeErrorPrefix)
  }

  /** The endpoint fails in exactly these ways: the scraper's error and the
      analyzer's error become 502 with the endpoint's prefix, a page without
      text is 404 whichever model is configured, and an invalid company
      record from the model is 502 as well. */
  lemma AnalyzeOutcomes(req: AnalysisRequest, scraped: Result<ScrapedData, string>, client: LlmClient,
                        parseJson: string -> Option<Json>, now: string)
    ensures scraped.Failure? ==>
              AnalyzeWebsite(req, scraped, client, parseJson, now) == HttpError(BadGateway, AnalyzeErrorPrefix + scraped.error)
    ensures scraped.Success? && AllSpace(scraped.value.mainContent) ==>
              AnalyzeWebsite(req, scraped, client, parseJson, now) == HttpError(NotFound, NoContentMessage)
    ensures scraped.Success? && !AllSpace(scraped.value.mainContent) && AnalyzeSpec(client, scraped.value, req.questions, parseJson).Failure? ==>
              AnalyzeWebsite(req, scraped, client, parseJson, now) ==
                HttpError(BadGateway, AnalyzeErrorPrefix + AnalyzeSpec(client, scraped.value, req.questions, parseJson).error)
    ensures AnalyzeWebsite(req, scraped, client, parseJson, now).HttpError? ==>
              AnalyzeWebsite(req, scraped, client, parseJson, now).status in {NotFound, BadGateway}
  {
    var attempt := AnalyzeAttempt(req, scraped, client, parseJson, now);
    match scraped
    case Failure(m) =>
      assert attempt == Failure(PyException(m));
    case Success(data) =>
      if Blank(data.mainContent) {
        assert attempt == Failure(HttpException(NotFound, NoContentMessage));
      } else {
        match AnalyzeSpec(client, data, req.questions, parseJson)
        case Failure(m) =>
          assert attempt == Failure(PyException(m));
        case Success(analysis) =>
          assert attempt.Success? || attempt.error.PyException?;
      }
  }

  /** A successful analysis echoes the requested URL, carries the analyzer's
      answers (one per question), stamps the UTC time, and reports the
      scraped first e-mail, first phone and social links as its contact
      details. */
  lemma AnalyzeSuccessEchoes(req: AnalysisRequest, data: ScrapedData, client: LlmClient,
                             parseJson: string -> Option<Json>, now: string)
    requires AnalyzeWebsite(req, Success(data), client, parseJson, now).Ok?
    ensures var body := AnalyzeWebsite(req, Success(data), client, parseJson, now).body;
            && body.url == req.url
            && body.analysisTimestamp == UtcTimestamp(now)
            && body.extractedAnswers == AnalyzeSpec(client, data, req.questions, parseJson).value.extractedAnswers
            && |body.extractedAnswers| == (if req.questions.Some? then |req.questions.value| else 0)
            && (forall k :: 0 <= k < |body.extractedAnswers| ==> body.extractedAnswers[k].question == req.questions.value[k])
            && body.companyInfo.contactInfo ==
                 ContactInfo(First(data.contact.emails), First(data.contact.phones),
                             SocialMedia(Lookup(data.contact.socialLinks, "linkedin"), Lookup(data.contact.socialLinks, "twitter"),
                                         Lookup(data.contact.socialLinks, "facebook"), Lookup(data.contact.socialLinks, "instagram")))
  {
    var analysis := AnalyzeSpec(client, data, req.questions, parseJson).value;
    AnalyzeSuccess(client, data, req.questions, parseJson);
    var info := CompanyInfoFrom(analysis.companyInfo).value;
    assert AnalyzeWebsite(req, Success(data), client, parseJson, now).body ==
           MakeAnalysisResponse(req.url, UtcTimestamp(now), info, Given(analysis.extractedAnswers));
  }

  /** Every link the scraper can report has a field of its own in
      `SocialMedia`: none is lost on the way into the company record. */
  lemma ScrapedLinksFitSocialMedia(raw: string)
    ensures SocialLinks(raw).Keys <= PlatformKeys
    ensures SocialMediaFrom(StringMapJson(SocialLinks(raw))).Success?
    ensures SocialMediaLinks(SocialMediaFrom(StringMapJson(SocialLinks(raw))).value) == SocialLinks(raw)
  {
    SocialLinksEntries(raw);
    SocialMediaFromLinks(SocialLinks(raw));
  }

  /** Scraping and then analysing: the scrape's outcome is as the scraper
      promises, and the reply is the endpoint's answer to it. */
  method ServeAnalyze(req: AnalysisRequest, fetched: FetchOutcome, parse: string -> seq<Soup.Node>,
                      emailMatches: string -> seq<string>, phoneMatches: string -> seq<PhoneMatch>,
                      client: LlmClient, parseJson: string -> Option<Json>, now: string)
    returns (scraped: Result<ScrapedData, string>, reply: Reply<AnalysisResponse>)
    ensures fetched.RequestError? ==> reply == HttpError(BadGateway, AnalyzeErrorPrefix + FetchFailedMessage)
    ensures fetched.Response? && !IsSuccess(fetched.statusCode) ==> reply == HttpError(BadGateway, AnalyzeErrorPrefix + UnexpectedMessage)
    ensures fetched.Response? && IsSuccess(fetched.statusCode) && PageTitleAsWritten(parse(fetched.text)).Failure? ==>
              reply == HttpError(BadGateway, AnalyzeErrorPrefix + UnexpectedMessage)
    ensures fetched.Response? && IsSuccess(fetched.statusCode) && PageTitleAsWritten(parse(fetched.text)).Success? ==>
              scraped.Success? && ScrapedFrom(scraped.value, req.url, fetched.text, parse(fetched.text), emailMatches, phoneMatches)
    ensures reply == AnalyzeWebsite(req, scraped, client, parseJson, now)
  {
    scraped := Scrape(req.url, fetched, parse, emailMatches, phoneMatches);
    reply := AnalyzeWebsite(req, scraped, client, parseJson, now);
  }

  // ---------------------------------------------------------------------------
  // /chat

  /** The body of the `try` in `conversational_chat`, with the history in the
      form handed to the follow-up step. */
  function ChatAttempt(req: ChatRequest, scraped: Result<ScrapedData, string>, client: LlmClient,
                       history: seq<HistoryItem>): Result<ChatResponse, Raised>
  {
    match scraped
    case Failure(m) => Failure(PyException(m))
    case Success(data) =>
      if Blank(data.mainContent) then Failure(HttpException(NotFound, NoContentMessage))
      else
        match FollowUpSpec(client, data, req.query, history)
        case Failure(m) => Failure(PyException(m))
        case Success(a) => Success(MakeChatResponse(req.url, req.query, a.response, Given(Some(a.contextSources))))
  }

  /** `POST /chat` as written: the request's turn records are handed over as
      they are. */
  function ConversationalChatAsWritten(req: ChatRequest, scraped: Result<ScrapedData, string>, client: LlmClient): Reply<ChatResponse> {
    Guard(ChatAttempt(req, scraped, client, TurnModels(req.conversationHistory)), ChatErrorPrefix)
  }

  /** `POST /chat` with each turn handed over as a dictionary of its two fields. */
  function ConversationalChat(req: ChatRequest, scraped: Result<ScrapedData, string>, client: LlmClient): Reply<ChatResponse> {
    Guard(ChatAttempt(req, scraped, client, TurnDicts(req.conversationHistory)), ChatErrorPrefix)
  }

  /** As written, any request with history that gets past the content check
      fails with 502, whatever the model would answer; without history it
      behaves like the corrected endpoint. */
  lemma ChatHistoryAlwaysFails(req: ChatRequest, data: ScrapedData, client: LlmClient)
    ensures req.conversationHistory != [] && !AllSpace(data.mainContent) ==>
              ConversationalChatAsWritten(req, Success(data), client) == HttpError(BadGateway, ChatErrorPrefix + NoGetMessage)
    ensures req.conversationHistory == [] ==>
              ConversationalChatAsWritten(req, Success(data), client) == ConversationalChat(req, Success(data), client)
  {
    var h := req.conversationHistory;
    if h != [] {
      assert TurnModels(h)[0].TurnModel?;
      FollowUpOutcome(client, data, req.query, TurnModels(h));
    } else {
      assert TurnModels(h) == [] && TurnDicts(h) == [];
    }
  }

  /** The corrected endpoint sends every turn to the model as its question and
      answer on two lines, the turns joined by newlines. */
  lemma ChatHistoryRendered(ctx: string, turns: seq<ConversationTurn>, query: string)
    ensures FollowUpMessagesFor(ctx, TurnDicts(turns), query).Success?
    ensures turns != [] ==>
              FollowUpMessagesFor(ctx, TurnDicts(turns), query).value[2].content ==
                Composed("Conversation History:\n" +
                         Join("\n", seq(|turns|, k requires 0 <= k < |turns| => "User: " + turns[k].userQuery + "\nAI: " + turns[k].agentResponse)))
  {
    var items := TurnDicts(turns);
    TurnTextsReadable(items);
    var texts := TurnTexts(items).value;
    var expected := seq(|turns|, k requires 0 <= k < |turns| => "User: " + turns[k].userQuery + "\nAI: " + turns[k].agentResponse);
    forall k | 0 <= k < |turns|
      ensures texts[k] == expected[k]
    {
      TurnDictText(turns[k]);
    }
    assert texts == expected;
  }

  /** The chat endpoint fails as the analysis endpoint does: 502 with its own
      prefix for the scraper's error, 404 for a page without text. */
  lemma ChatOutcomes(req: ChatRequest, scraped: Result<ScrapedData, string>, client: LlmClient)
    ensures scraped.Failure? ==>
              ConversationalChat(req, scraped, client) == HttpError(BadGateway, ChatErrorPrefix + scraped.error)
    ensures scraped.Success? && AllSpace(scraped.value.mainContent) ==>
              ConversationalChat(req, scraped, client) == HttpError(NotFound, NoContentMessage)
  {
  }

  /** Without a model, a page with text gets 502 carrying the follow-up step's
      error under both prefixes. */
  lemma ChatWithoutClient(req: ChatRequest, data: ScrapedData)
    requires !AllSpace(data.mainContent)
    ensures ConversationalChat(req, Success(data), NoClient) ==
              HttpError(BadGateway, ChatErrorPrefix + FollowUpErrorPrefix + NoClientMessage)
  {
    var items := TurnDicts(req.conversationHistory);
    assert forall k :: 0 <= k < |items| ==> items[k].TurnDict?;
    FollowUpOutcome(NoClient, data, req.query, items);
    var m := FollowUpErrorPrefix + NoClientMessage;
    assert ChatAttempt(req, Success(data), NoClient, items) == Failure(PyException(m));
    assert ChatErrorPrefix + m == ChatErrorPrefix + FollowUpErrorPrefix + NoClientMessage;
  }

  /** A chat reply echoes the URL and the query and names the homepage text
      as its only source. */
  lemma ChatEchoes(req: ChatRequest, scraped: Result<ScrapedData, string>, client: LlmClient)
    requires ConversationalChat(req, scraped, client).Ok?
    ensures var body := ConversationalChat(req, scraped, client).body;
            body.url == req.url && body.userQuery == req.query && body.contextSources == Some([HomepageSource])
  {
    FollowUpOutcome(client, scraped.value, req.query, TurnDicts(req.conversationHistory));
  }
}
