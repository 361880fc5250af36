/** The request and response records of the service and the records nested in
    them, with their defaults, and record construction from JSON-like data the
    way the validating model classes do it: a missing field takes its default,
    a present field must have the field's type, and unknown keys are ignored. */
module ApiModels {
  import opened Wrappers

  /** A decoded JSON value, also used for the plain dictionaries the service
      builds before turning them into records. */
  datatype Json =
    | JNull
    | JBool(b: bool)
    | JInt(i: int)
    | JFloat(f: real)
    | JString(s: string)
    | JArray(items: seq<Json>)
    | JObject(fields: map<string, Json>)

  datatype SocialMedia = SocialMedia(linkedin: Option<string>, twitter: Option<string>,
                                     facebook: Option<string>, instagram: Option<string>)

  datatype ContactInfo = ContactInfo(email: Option<string>, phone: Option<string>, socialMedia: SocialMedia)

  datatype SentimentInfo = SentimentInfo(overall: string, confidence: real, keyThemes: seq<string>)

  datatype CompanyInfo = CompanyInfo(
    industry: string,
    companySize: string,
    location: string,
    coreProductsServices: seq<string>,
    uniqueSellingProposition: string,
    targetAudience: string,
    contactInfo: ContactInfo,
    sentiment: Option<SentimentInfo>)

  datatype ExtractedAnswer = ExtractedAnswer(question: string, answer: string)

  datatype ConversationTurn = ConversationTurn(userQuery: string, agentResponse: string)

  /** `url` is the validated URL in its normalised text form, `str(request.url)`. */
  datatype AnalysisRequest = AnalysisRequest(url: string, questions: Option<seq<string>>)

  datatype AnalysisResponse = AnalysisResponse(url: string, analysisTimestamp: string,
                                               companyInfo: CompanyInfo, extractedAnswers: seq<ExtractedAnswer>)

  datatype ChatRequest = ChatRequest(url: string, query: string, conversationHistory: seq<ConversationTurn>)

  datatype ChatResponse = ChatResponse(url: string, userQuery: string, agentResponse: string,
                                       contextSources: Option<seq<string>>)

  const NotAvailable := "N/A"

  /** Keyword arguments a caller may leave out. */
  datatype Arg<T> = Omitted | Given(value: T)

  function ArgOr<T>(a: Arg<T>, default: T): T {
    if a.Given? then a.value else default
  }

  /** `AnalysisResponse(...)`: `extracted_answers` may be left out and is then empty. */
  function MakeAnalysisResponse(url: string, timestamp: string, info: CompanyInfo,
                                answers: Arg<seq<ExtractedAnswer>>): (r: AnalysisResponse)
    ensures answers.Omitted? ==> r.extractedAnswers == []
    ensures answers.Given? ==> r.extractedAnswers == answers.value
    ensures r.url == url && r.analysisTimestamp == timestamp && r.companyInfo == info
  {
    AnalysisResponse(url, timestamp, info, ArgOr(answers, []))
  }

  /** `ChatResponse(...)`: `context_sources` may be left out and is then `None`. */
  function MakeChatResponse(url: string, query: string, answer: string,
                            sources: Arg<Option<seq<string>>>): (r: ChatResponse)
    ensures sources.Omitted? ==> r.contextSources == None
    ensures sources.Given? ==> r.contextSources == sources.value
    ensures r.url == url && r.userQuery == query && r.agentResponse == answer
  {
    ChatResponse(url, query, answer, ArgOr(sources, None))
  }

  // ---------------------------------------------------------------------------
  // Validation

  /** The record and the field whose value did not fit (the first such field
      in declaration order). */
  datatype ValidationError = ValidationError(model: string, field: string)

  /** The text of the error raised on a failed validation. */
  function ErrorText(e: ValidationError): string {
    "validation error for " + e.model + ": " + e.field
  }

  /** A required `str` field. */
  function RequiredStr(model: string, obj: map<string, Json>, key: string): (r: Result<string, ValidationError>)
    ensures r.Success? <==> key in obj && obj[key].JString?
    ensures r.Success? ==> obj[key] == JString(r.value)
    ensures r.Failure? ==> r.error == ValidationError(model, key)
  {
    if key in obj && obj[key].JString? then Success(obj[key].s) else Failure(ValidationError(model, key))
  }

  /** A `str` field with a default. */
  function StrField(model: string, obj: map<string, Json>, key: string, default: string): (r: Result<string, ValidationError>)
    ensures key !in obj ==> r == Success(default)
    ensures key in obj ==> (r.Success? <==> obj[key].JString?)
    ensures key in obj && r.Success? ==> obj[key] == JString(r.value)
    ensures r.Failure? ==> r.error == ValidationError(model, key)
  {
    if key !in obj then Success(default) else RequiredStr(model, obj, key)
  }

  /** An `Optional[str]` field defaulting to `None`: absent and `null` both give `None`. */
  function OptStrField(model: string, obj: map<string, Json>, key: string): (r: Result<Option<string>, ValidationError>)
    ensures key !in obj || obj[key] == JNull ==> r == Success(None)
    ensures r.Success? && r.value.Some? ==> key in obj && obj[key] == JString(r.value.value)
    ensures r.Failure? <==> key in obj && !obj[key].JNull? && !obj[key].JString?
    ensures r.Failure? ==> r.error == ValidationError(model, key)
  {
    if key !in obj || obj[key] == JNull then Success(None)
    else if obj[key].JString? then Success(Some(obj[key].s))
    else Failure(ValidationError(model, key))
  }

  /** The strings of an array whose items are all strings. */
  function Strings(items: seq<Json>): (r: Option<seq<string>>)
    ensures r.Some? <==> forall k :: 0 <= k < |items| ==> items[k].JString?
    ensures r.Some? ==> |r.value| == |items| && forall k :: 0 <= k < |items| ==> items[k] == JString(r.value[k])
  {
    if items == [] then Some([])
    else if !items[0].JString? then None
    else
      match Strings(items[1..])
      case None => None
      case Some(rest) => Some([items[0].s] + rest)
  }

  /** A `List[str]` field defaulting to the empty list. */
  function StrListField(model: string, obj: map<string, Json>, key: string): (r: Result<seq<string>, ValidationError>)
    ensures key !in obj ==> r == Success([])
    ensures key in obj ==> (r.Success? <==> obj[key].JArray? && Strings(obj[key].items).Some?)
    ensures key in obj && r.Success? ==> obj[key].JArray? && Strings(obj[key].items) == Some(r.value)
    ensures r.Failure? ==> r.error == ValidationError(model, key)
  {
    if key !in obj then Success([])
    else if obj[key].JArray? && Strings(obj[key].items).Some? then Success(Strings(obj[key].items).value)
    else Failure(ValidationError(model, key))
  }

  /** `SocialMedia` from a dictionary: each platform link is optional and any
      other key is ignored. */
  function SocialMediaFrom(v: Json): (r: Result<SocialMedia, ValidationError>)
    ensures r.Success? <==> v.JObject? && OptStrField("SocialMedia", v.fields, "linkedin").Success? &&
                            OptStrField("SocialMedia", v.fields, "twitter").Success? &&
                            OptStrField("SocialMedia", v.fields, "facebook").Success? &&
                            OptStrField("SocialMedia", v.fields, "instagram").Success?
    ensures r.Success? ==> && OptStrField("SocialMedia", v.fields, "linkedin") == Success(r.value.linkedin)
                           && OptStrField("SocialMedia", v.fields, "twitter") == Success(r.value.twitter)
                           && OptStrField("SocialMedia", v.fields, "facebook") == Success(r.value.facebook)
                           && OptStrField("SocialMedia", v.fields, "instagram") == Success(r.value.instagram)
    ensures v == JObject(map[]) ==> r == Success(SocialMedia(None, None, None, None))
  {
    if !v.JObject? then Failure(ValidationError("ContactInfo", "social_media"))
    else
      var o := v.fields;
      var linkedin :- OptStrField("SocialMedia", o, "linkedin");
      var twitter :- OptStrField("SocialMedia", o, "twitter");
      var facebook :- OptStrField("SocialMedia", o, "facebook");
      var instagram :- OptStrField("SocialMedia", o, "instagram");
      Success(SocialMedia(linkedin, twitter, facebook, instagram))
  }

  /** `ContactInfo` from a dictionary: e-mail and phone are optional, and the
      social media record defaults to one with no links. */
  function ContactInfoFrom(v: Json): (r: Result<ContactInfo, ValidationError>)
    ensures r.Success? <==> v.JObject? && OptStrField("ContactInfo", v.fields, "email").Success? &&
                            OptStrField("ContactInfo", v.fields, "phone").Success? &&
                            ("social_media" in v.fields ==> SocialMediaFrom(v.fields["social_media"]).Success?)
    ensures r.Success? ==> && OptStrField("ContactInfo", v.fields, "email") == Success(r.value.email)
                           && OptStrField("ContactInfo", v.fields, "phone") == Success(r.value.phone)
                           && ("social_media" !in v.fields ==> r.value.socialMedia == SocialMedia(None, None, None, None))
                           && ("social_media" in v.fields ==> SocialMediaFrom(v.fields["social_media"]) == Success(r.value.socialMedia))
    ensures v == JObject(map[]) ==> r == Success(ContactInfo(None, None, SocialMedia(None, None, None, None)))
  {
    if !v.JObject? then Failure(ValidationError("CompanyInfo", "contact_info"))
    else
      var o := v.fields;
      var email :- OptStrField("ContactInfo", o, "email");
      var phone :- OptStrField("ContactInfo", o, "phone");
      var social :- if "social_media" in o then SocialMediaFrom(o["social_media"])
                    else Success(SocialMedia(None, None, None, None));
      Success(ContactInfo(email, phone, social))
  }

  /** A JSON number as a `float` field takes it. */
  function Number(v: Json): Option<real> {
    match v
    case JInt(i) => Some(i as real)
    case JFloat(f) => Some(f)
    case _ => None
  }

  /** The fields of a sentiment dictionary fit: `overall` is a string,
      `confidence` a number and `key_themes`, if present, a list of strings. */
  predicate SentimentFieldsValid(o: map<string, Json>) {
    && RequiredStr("SentimentInfo", o, "overall").Success?
    && "confidence" in o && Number(o["confidence"]).Some?
    && StrListField("SentimentInfo", o, "key_themes").Success?
  }

  /** `Optional[SentimentInfo]` defaulting to `None`: `overall` and `confidence`
      are required, `key_themes` defaults to the empty list. */
  function SentimentFrom(obj: map<string, Json>): (r: Result<Option<SentimentInfo>, ValidationError>)
    ensures "sentiment" !in obj || obj["sentiment"] == JNull ==> r == Success(None)
    ensures "sentiment" in obj && obj["sentiment"] != JNull ==>
              (r.Success? <==> obj["sentiment"].JObject? && SentimentFieldsValid(obj["sentiment"].fields))
    ensures r.Success? && r.value.Some? ==>
              "sentiment" in obj && obj["sentiment"].JObject? &&
              var o := obj["sentiment"].fields;
              && o["overall"] == JString(r.value.value.overall)
              && Number(o["confidence"]) == Some(r.value.value.confidence)
              && StrListField("SentimentInfo", o, "key_themes") == Success(r.value.value.keyThemes)
  {
    if "sentiment" !in obj || obj["sentiment"] == JNull then Success(None)
    else if !obj["sentiment"].JObject? then Failure(ValidationError("CompanyInfo", "sentiment"))
    else
      var o := obj["sentiment"].fields;
      var overall :- RequiredStr("SentimentInfo", o, "overall");
      var confidence :- if "confidence" in o && Number(o["confidence"]).Some? then Success(Number(o["confidence"]).value)
                        else Failure(ValidationError("SentimentInfo", "confidence"));
      var themes :- StrListField("SentimentInfo", o, "key_themes");
      Success(Some(SentimentInfo(overall, confidence, themes)))
  }

  /** `CompanyInfo(**fields)`. */
  function CompanyInfoFrom(fields: map<string, Json>): (r: Result<CompanyInfo, ValidationError>)
    ensures r.Success? <==>
              && StrField("CompanyInfo", fields, "industry", NotAvailable).Success?
              && StrField("CompanyInfo", fields, "company_size", NotAvailable).Success?
              && StrField("CompanyInfo", fields, "location", NotAvailable).Success?
              && StrListField("CompanyInfo", fields, "core_products_services").Success?
              && StrField("CompanyInfo", fields, "unique_selling_proposition", NotAvailable).Success?
              && StrField("CompanyInfo", fields, "target_audience", NotAvailable).Success?
              && ("contact_info" in fields ==> ContactInfoFrom(fields["contact_info"]).Success?)
              && SentimentFrom(fields).Success?
    ensures r.Success? ==>
              && StrField("CompanyInfo", fields, "industry", NotAvailable) == Success(r.value.industry)
              && StrField("CompanyInfo", fields, "company_size", NotAvailable) == Success(r.value.companySize)
              && StrField("CompanyInfo", fields, "location", NotAvailable) == Success(r.value.location)
              && StrListField("CompanyInfo", fields, "core_products_services") == Success(r.value.coreProductsServices)
              && StrField("CompanyInfo", fields, "unique_selling_proposition", NotAvailable) == Success(r.value.uniqueSellingProposition)
              && StrField("CompanyInfo", fields, "target_audience", NotAvailable) == Success(r.value.targetAudience)
              && ("contact_info" !in fields ==> r.value.contactInfo == ContactInfo(None, None, SocialMedia(None, None, None, None)))
              && ("contact_info" in fields ==> ContactInfoFrom(fields["contact_info"]) == Success(r.value.contactInfo))
              && SentimentFrom(fields) == Success(r.value.sentiment)
  {
    var industry :- StrField("CompanyInfo", fields, "industry", NotAvailable);
    var size :- StrField("CompanyInfo", fields, "company_size", NotAvailable);
    var location :- StrField("CompanyInfo", fields, "location", NotAvailable);
    var products :- StrListField("CompanyInfo", fields, "core_products_services");
    var usp :- StrField("CompanyInfo", fields, "unique_selling_proposition", NotAvailable);
    var audience :- StrField("CompanyInfo", fields, "target_audience", NotAvailable);
    var contact :- if "contact_info" in fields then ContactInfoFrom(fields["contact_info"])
                   else Success(ContactInfo(None, None, SocialMedia(None, None, None, None)));
    var sentiment :- SentimentFrom(fields);
    Success(CompanyInfo(industry, size, location, products, usp, audience, contact, sentiment))
  }

  /** What a validated `CompanyInfo` holds: each absent field its default,
      each present text field the given string. */
  lemma CompanyInfoFieldValues(fields: map<string, Json>)
    requires CompanyInfoFrom(fields).Success?
    ensures var c := CompanyInfoFrom(fields).value;
            && ("industry" !in fields ==> c.industry == NotAvailable)
            && ("company_size" !in fields ==> c.companySize == NotAvailable)
            && ("location" !in fields ==> c.location == NotAvailable)
            && ("core_products_services" !in fields ==> c.coreProductsServices == [])
            && ("unique_selling_proposition" !in fields ==> c.uniqueSellingProposition == NotAvailable)
            && ("target_audience" !in fields ==> c.targetAudience == NotAvailable)
            && ("sentiment" !in fields ==> c.sentiment == None)
    ensures var c := CompanyInfoFrom(fields).value;
            && ("industry" in fields ==> fields["industry"] == JString(c.industry))
            && ("company_size" in fields ==> fields["company_size"] == JString(c.companySize))
            && ("location" in fields ==> fields["location"] == JString(c.location))
            && ("core_products_services" in fields ==>
                  fields["core_products_services"].JArray? &&
                  Strings(fields["core_products_services"].items) == Some(c.coreProductsServices))
            && ("unique_selling_proposition" in fields ==> fields["unique_selling_proposition"] == JString(c.uniqueSellingProposition))
            && ("target_audience" in fields ==> fields["target_audience"] == JString(c.targetAudience))
  {
  }

  /** The keys `CompanyInfo` reads; every other key is ignored. */
  const CompanyInfoKeys: set<string> := {"industry", "company_size", "location", "core_products_services",
                                         "unique_selling_proposition", "target_audience", "contact_info", "sentiment"}

  /** The default record: every text field `"N/A"`, no products, no contact
      details, no sentiment. */
  lemma CompanyInfoDefaults()
    ensures CompanyInfoFrom(map[]) ==
              Success(CompanyInfo(NotAvailable, NotAvailable, NotAvailable, [], NotAvailable, NotAvailable,
                                  ContactInfo(None, None, SocialMedia(None, None, None, None)), None))
  {
  }

  /** Keys outside the record's fields make no difference. */
  lemma CompanyInfoIgnoresExtraKeys(fields: map<string, Json>)
    ensures CompanyInfoFrom(fields) == CompanyInfoFrom(map k | k in fields && k in CompanyInfoKeys :: fields[k])
  {
    var known := map k | k in fields && k in CompanyInfoKeys :: fields[k];
    assert forall k :: k in CompanyInfoKeys ==> (k in fields <==> k in known) && (k in fields ==> fields[k] == known[k]);
    assert StrField("CompanyInfo", fields, "industry", NotAvailable) == StrField("CompanyInfo", known, "industry", NotAvailable);
    assert StrField("CompanyInfo", fields, "company_size", NotAvailable) == StrField("CompanyInfo", known, "company_size", NotAvailable);
    assert StrField("CompanyInfo", fields, "location", NotAvailable) == StrField("CompanyInfo", known, "location", NotAvailable);
    assert StrListField("CompanyInfo", fields, "core_products_services") == StrListField("CompanyInfo", known, "core_products_services");
    assert StrField("CompanyInfo", fields, "unique_selling_proposition", NotAvailable) ==
           StrField("CompanyInfo", known, "unique_selling_proposition", NotAvailable);
    assert StrField("CompanyInfo", fields, "target_audience", NotAvailable) == StrField("CompanyInfo", known, "target_audience", NotAvailable);
    assert SentimentFrom(fields) == SentimentFrom(known);
  }

  /** `ConversationTurn` from a dictionary: both fields are required. */
  function ConversationTurnFrom(v: Json): (r: Result<ConversationTurn, ValidationError>)
    ensures r.Success? <==> v.JObject? && "user_query" in v.fields && v.fields["user_query"].JString? &&
                            "agent_response" in v.fields && v.fields["agent_response"].JString?
    ensures r.Success? ==> v.fields["user_query"] == JString(r.value.userQuery) &&
                           v.fields["agent_response"] == JString(r.value.agentResponse)
  {
    if !v.JObject? then Failure(ValidationError("ChatRequest", "conversation_history"))
    else
      var q :- RequiredStr("ConversationTurn", v.fields, "user_query");
      var a :- RequiredStr("ConversationTurn", v.fields, "agent_response");
      Success(ConversationTurn(q, a))
  }

  /** A history: every turn must validate. */
  function TurnsFrom(items: seq<Json>): (r: Result<seq<ConversationTurn>, ValidationError>)
    ensures r.Success? <==> forall k :: 0 <= k < |items| ==> ConversationTurnFrom(items[k]).Success?
    ensures r.Success? ==>
              |r.value| == |items| && forall k :: 0 <= k < |items| ==> ConversationTurnFrom(items[k]) == Success(r.value[k])
  {
    if items == [] then Success([])
    else
      assert forall k :: 1 <= k < |items| ==> items[1..][k - 1] == items[k];
      var first :- ConversationTurnFrom(items[0]);
      var rest :- TurnsFrom(items[1..]);
      Success([first] + rest)
  }

  /** The `url` field is a string the URL validator accepts. */
  predicate UrlValid(o: map<string, Json>, parseUrl: string -> Option<string>) {
    "url" in o && o["url"].JString? && parseUrl(o["url"].s).Some?
  }

  /** The body of a `/chat` request. `parseUrl` is the URL validator, giving
      the normalised URL text or nothing. `conversation_history` defaults to
      the empty list. */
  function ChatRequestFrom(v: Json, parseUrl: string -> Option<string>): (r: Result<ChatRequest, ValidationError>)
    ensures r.Success? ==> v.JObject? && "query" in v.fields && v.fields["query"] == JString(r.value.query)
    ensures r.Success? && "conversation_history" !in v.fields ==> r.value.conversationHistory == []
    ensures r.Success? ==> "url" in v.fields && v.fields["url"].JString? && parseUrl(v.fields["url"].s) == Some(r.value.url)
    ensures r.Success? && "conversation_history" in v.fields ==>
              v.fields["conversation_history"].JArray? &&
              TurnsFrom(v.fields["conversation_history"].items) == Success(r.value.conversationHistory)
    ensures r.Success? <==>
              && v.JObject? && UrlValid(v.fields, parseUrl)
              && "query" in v.fields && v.fields["query"].JString?
              && ("conversation_history" in v.fields ==>
                    v.fields["conversation_history"].JArray? && TurnsFrom(v.fields["conversation_history"].items).Success?)
  {
    if !v.JObject? then Failure(ValidationError("ChatRequest", ""))
    else
      var o := v.fields;
      var raw :- RequiredStr("ChatRequest", o, "url");
      var url :- if parseUrl(raw).Some? then Success(parseUrl(raw).value) else Failure(ValidationError("ChatRequest", "url"));
      var query :- RequiredStr("ChatRequest", o, "query");
      var history :- if "conversation_history" !in o then Success([])
                     else if o["conversation_history"].JArray? then TurnsFrom(o["conversation_history"].items)
                     else Failure(ValidationError("ChatRequest", "conversation_history"));
      Success(ChatRequest(url, query, history))
  }

  /** The body of an `/analyze` request: `questions` is optional, `null` or absent giving `None`. */
  function AnalysisRequestFrom(v: Json, parseUrl: string -> Option<string>): (r: Result<AnalysisRequest, ValidationError>)
    ensures r.Success? ==> v.JObject?
    ensures r.Success? && ("questions" !in v.fields || v.fields["questions"] == JNull) ==> r.value.questions == None
    ensures r.Success? && r.value.questions.Some? ==>
              "questions" in v.fields && v.fields["questions"].JArray? && Strings(v.fields["questions"].items) == r.value.questions
    ensures r.Success? ==> v.JObject? && "url" in v.fields && v.fields["url"].JString? && parseUrl(v.fields["url"].s) == Some(r.value.url)
    ensures r.Success? <==>
              && v.JObject? && UrlValid(v.fields, parseUrl)
              && ("questions" !in v.fields || v.fields["questions"] == JNull ||
                  (v.fields["questions"].JArray? && Strings(v.fields["questions"].items).Some?))
  {
    if !v.JObject? then Failure(ValidationError("AnalysisRequest", ""))
    else
      var o := v.fields;
      var raw :- RequiredStr("AnalysisRequest", o, "url");
      var url :- if parseUrl(raw).Some? then Success(parseUrl(raw).value) else Failure(ValidationError("AnalysisRequest", "url"));
      var questions :- if "questions" !in o || o["questions"] == JNull then Success(None)
                       else if o["questions"].JArray? && Strings(o["questions"].items).Some? then Success(Strings(o["questions"].items))
                       else Failure(ValidationError("AnalysisRequest", "questions"));
      Success(AnalysisRequest(url, questions))
  }

  // ---------------------------------------------------------------------------
  // Contact records

  function OptionJson(v: Option<string>): Json {
    if v.Some? then JString(v.value) else JNull
  }

  /** A dictionary of string values. */
  function StringMapJson(m: map<string, string>): Json {
    JObject(map k | k in m :: JString(m[k]))
  }

  function Lookup(m: map<string, string>, k: string): Option<string> {
    if k in m then Some(m[k]) else None
  }

  /** The platform keys, which are exactly the fields of `SocialMedia`. */
  const PlatformKeys: set<string> := {"linkedin", "twitter", "facebook", "instagram"}

  /** The links of a `SocialMedia` record, keyed by field name. */
  function SocialMediaLinks(s: SocialMedia): (m: map<string, string>)
    ensures m.Keys <= PlatformKeys
  {
    var m0: map<string, string> := map[];
    var m1 := if s.linkedin.Some? then m0["linkedin" := s.linkedin.value] else m0;
    var m2 := if s.twitter.Some? then m1["twitter" := s.twitter.value] else m1;
    var m3 := if s.facebook.Some? then m2["facebook" := s.facebook.value] else m2;
    if s.instagram.Some? then m3["instagram" := s.instagram.value] else m3
  }

  /** A platform field read from a dictionary of links is that link, if any. */
  lemma LinkField(links: map<string, string>, key: string)
    ensures OptStrField("SocialMedia", StringMapJson(links).fields, key) == Success(Lookup(links, key))
  {
    var o := StringMapJson(links).fields;
    assert key in o <==> key in links;
    if key in links {
      assert o[key] == JString(links[key]);
    }
  }

  /** Reading back the four platform fields loses nothing from a dictionary
      keyed by platform names only. */
  lemma LookupsCoverLinks(links: map<string, string>)
    requires links.Keys <= PlatformKeys
    ensures SocialMediaLinks(SocialMedia(Lookup(links, "linkedin"), Lookup(links, "twitter"),
                                         Lookup(links, "facebook"), Lookup(links, "instagram"))) == links
  {
    var m := SocialMediaLinks(SocialMedia(Lookup(links, "linkedin"), Lookup(links, "twitter"),
                                          Lookup(links, "facebook"), Lookup(links, "instagram")));
    forall k | k in links
      ensures k in m && m[k] == links[k]
    {
      assert k in PlatformKeys;
    }
    assert m.Keys == links.Keys;
  }

  /** A dictionary of links validates into the `SocialMedia` with those links;
      when its keys are platform keys nothing is lost on the way. */
  lemma SocialMediaFromLinks(links: map<string, string>)
    ensures SocialMediaFrom(StringMapJson(links)) ==
              Success(SocialMedia(Lookup(links, "linkedin"), Lookup(links, "twitter"),
                                  Lookup(links, "facebook"), Lookup(links, "instagram")))
    ensures links.Keys <= PlatformKeys ==> SocialMediaLinks(SocialMediaFrom(StringMapJson(links)).value) == links
  {
    LinkField(links, "linkedin");
    LinkField(links, "twitter");
    LinkField(links, "facebook");
    LinkField(links, "instagram");
    if links.Keys <= PlatformKeys {
      LookupsCoverLinks(links);
    }
  }

  /** The dictionary form of a contact record. */
  function ContactJson(email: Option<string>, phone: Option<string>, links: map<string, string>): Json {
    JObject(map["email" := OptionJson(email), "phone" := OptionJson(phone), "social_media" := StringMapJson(links)])
  }

  /** A contact dictionary validates into the record it describes. */
  lemma ContactJsonRoundTrip(email: Option<string>, phone: Option<string>, links: map<string, string>)
    ensures ContactInfoFrom(ContactJson(email, phone, links)) ==
              Success(ContactInfo(email, phone, SocialMedia(Lookup(links, "linkedin"), Lookup(links, "twitter"),
                                                            Lookup(links, "facebook"), Lookup(links, "instagram"))))
  {
    SocialMediaFromLinks(links);
  }
}
