# Website intelligence agent: a verified Dafny model

This project models the request path of a small web service.
- The service fetches a company's homepage and extracts metadata, cleaned main text and contact signals from it.
- It asks a language model for a structured company profile and answers to custom questions.
- It answers follow-up chat questions about the page.
- Its protected endpoints check a bearer token first.

The model covers what happens to the data: the parse tree, strings, dictionaries and records. The network, the HTML parser, the regular-expression engine for e-mails and phones, the language model and the JSON decoder are parameters of the model.

Modules, one per source file plus three shared ones:

- `Wrappers` (`wrappers.dfy`): `Option` and `Result`.
- `PyStr` (`pystr.dfy`): the Python `str` operations the code relies on.
  - `isspace`/`strip`, `startswith`, single-character `split`, `join` and slicing.
  - The character folding `re.IGNORECASE` applies to the lower-case ASCII patterns used here.
- `Soup` (`soup.dfy`): the parsed document.
  - A tree of text, comment and element nodes.
  - The parser's `find`, `find_all`, `.string` and `get_text`.
  - A `Soup` class whose `DecomposeAll` detaches the subtrees of the given tags. It is proved to leave exactly the tree with those subtrees removed.
- `WebScraper` (`web_scraper.dfy`): `scrape_homepage_content`.
  - Title and description.
  - Removal of `script/style/nav/footer/header/aside/form`.
  - The main-content priority search.
  - The `\n{3,}` collapse and the 16000-character cut.
  - E-mail/phone de-duplication.
  - The social-link search and loop.
  - The two error paths.
- `Security` (`security.dfy`): start-up configuration of the secret and `get_api_key`.
- `ApiModels` (`api_models.dfy`): the request and response records with their defaults, built from the dictionaries and JSON bodies the service handles as the validating model classes do it.
- `AiAnalyzer` (`ai_analyzer.dfy`): the prompts, fence stripping, the contact record, the custom-question loop and the follow-up message list.
- `AgentServer` (`agent_server.dfy`):
  - The health check.
  - The `/analyze` and `/chat` outcome mapping: 404 for a page without text, HTTP errors passed through, 502 for anything else.
  - The UTC timestamp rewrite.

Behaviour worth knowing, where the code does something other than its comments and names suggest:
- Contact text is taken after the clean-up, not from the raw page.
- A response with a non-2xx status takes the generic error path ("An unexpected error occurred…"), not the fetch-failure path. `raise_for_status` raises an `HTTPStatusError`, which is not an `httpx.RequestError`.
- That status check rejects every non-2xx status that survives redirects, not only 4xx/5xx.
- Only `div` elements qualify in the class-based main-content step.
- A title element without a single string makes the title step raise, and the scrape then fails with the generic message (see Findings).
- The order of `emails` and `phones` comes from iterating a set. It is left open, so two runs need not list them in the same order.

## Model

| member | source | states |
|---|---|---|
| PyStr.Strip | fastapi-web-agent-main1/processing/web_scraper.py:35 | `strip()` removes the leading and the trailing whitespace run and nothing else; the result is empty exactly when the input is all whitespace, and otherwise starts and ends with non-whitespace |
| PyStr.StripPadded | fastapi-web-agent-main1/processing/web_scraper.py:37 | whitespace around a text with non-blank ends is exactly what `strip()` removes |
| PyStr.SplitFirst | fastapi-web-agent-main1/utils/security.py:53 | the first piece of `split(c)` is the text before the first `c` |
| PyStr.SplitAfterHead | fastapi-web-agent-main1/utils/security.py:53 | a separator-free head followed by the separator is split off as the first piece, the rest splitting on its own |
| PyStr.JoinAppend | fastapi-web-agent-main1/processing/ai_analyzer.py:179 | joining two non-empty lists is joining each and putting one separator between the results |
| PyStr.Take | fastapi-web-agent-main1/processing/web_scraper.py:86 | `s[:n]` is a prefix of `s` of length at most `n`, and `s` itself when it is short enough |
| PyStr.OccursAtCISplit | fastapi-web-agent-main1/processing/web_scraper.py:78 | a case-insensitive occurrence of two patterns in a row is an occurrence of the first followed by one of the second |
| Soup.Find | fastapi-web-agent-main1/processing/web_scraper.py:45-47 | `find` gives the first node in document order that satisfies the test, and nothing exactly when no node does |
| Soup.StrippedNonEmpty | fastapi-web-agent-main1/processing/web_scraper.py:51 | each string `get_text(strip=True)` keeps is non-empty and already stripped |
| Soup.StrippedNonEmptyAppend | fastapi-web-agent-main1/processing/web_scraper.py:51 | the strings are stripped one run after another: the kept strings of two runs are those of the first followed by those of the second |
| Soup.StrippedNonEmptyInOrder | fastapi-web-agent-main1/processing/web_scraper.py:51 | the kept strings follow the element's strings in order: each string contributes its stripped form, when non-empty, right after what the strings before it contributed |
| Soup.StrippedNonEmptyMembers | fastapi-web-agent-main1/processing/web_scraper.py:51 | a text is kept exactly when it is non-empty and is the stripped form of some string of the element |
| Soup.RemoveTagsLeavesNone | fastapi-web-agent-main1/processing/web_scraper.py:41-42 | after removal no element with a removed tag is left anywhere in the document |
| Soup.RemoveTagsNoop | fastapi-web-agent-main1/processing/web_scraper.py:41-42 | removal leaves a document without such elements unchanged |
| Soup.RemoveTagsIgnoresRemoved | fastapi-web-agent-main1/processing/web_scraper.py:41-42 | two documents that differ only inside removed subtrees are equal after removal |
| Soup.FindAllMarks | fastapi-web-agent-main1/processing/web_scraper.py:41 | any set of paths that agrees with the paths `find_all` returns below a position marks exactly the elements with a removed tag, at every level that survives the removal |
| Soup.PruneMarked | fastapi-web-agent-main1/processing/web_scraper.py:41-42 | detaching every element `find_all` returned, nested ones included, leaves the document with those subtrees removed |
| Soup.Soup.DecomposeAll | fastapi-web-agent-main1/processing/web_scraper.py:41-42 | the decompose loop leaves the document with every subtree of the given tags removed |
| WebScraper.PageTitle | fastapi-web-agent-main1/processing/web_scraper.py:35 | the corrected title: `''` without a title element or when the first one has no single string, and otherwise exactly that string stripped |
| WebScraper.PageTitleAsWritten | fastapi-web-agent-main1/processing/web_scraper.py:35 | the title step as written fails exactly when the first title element has no single string; without a title element it gives `''`; any title it gives has no surrounding whitespace |
| WebScraper.TitleAsWrittenAgrees | fastapi-web-agent-main1/processing/web_scraper.py:35 | the title step as written fails exactly when the title element has no single string, and otherwise gives the corrected title |
| WebScraper.EmptyTitleCounterexample | fastapi-web-agent-main1/processing/web_scraper.py:35 | for `<title></title>` the step as written fails while the corrected title is `''` |
| WebScraper.PageDescription | fastapi-web-agent-main1/processing/web_scraper.py:36-37 | the description is `''` without a `meta` element whose name mentions description, `''` when the first such element has no `content`, and otherwise that `content` stripped |
| WebScraper.MainContentTag | fastapi-web-agent-main1/processing/web_scraper.py:45-48 | the chosen element is the first `main` in document order if there is one, else the first `article`, else the first `div` whose class mentions content/main/post, else the first `body`; nothing only when none exists |
| WebScraper.LeadingNewlines | fastapi-web-agent-main1/processing/web_scraper.py:53 | the length of the newline run at the start of the text |
| WebScraper.ConsLeading | fastapi-web-agent-main1/processing/web_scraper.py:53 | a text's leading newline run grows by one with a leading newline and is empty after any other character |
| WebScraper.PairCollapsed | fastapi-web-agent-main1/processing/web_scraper.py:53 | the two newlines a long run is replaced by, put before a collapsed text with no leading newline, leave it collapsed |
| WebScraper.CollapseNewlinesCollapsed | fastapi-web-agent-main1/processing/web_scraper.py:53 | after `re.sub(r'\n{3,}', '\n\n', …)` no three newlines in a row remain |
| WebScraper.CollapseNewlinesNoop | fastapi-web-agent-main1/processing/web_scraper.py:53 | the collapse changes nothing on text without three newlines in a row |
| WebScraper.CollapseNewlinesIdempotent | fastapi-web-agent-main1/processing/web_scraper.py:53 | collapsing twice is collapsing once |
| WebScraper.CollapseNewlinesKeepsText | fastapi-web-agent-main1/processing/web_scraper.py:53 | the collapse removes newlines only; all other characters survive in order |
| WebScraper.CollapseAppend | fastapi-web-agent-main1/processing/web_scraper.py:53 | text that does not end inside a newline run collapses independently of what follows it |
| WebScraper.CollapseLeadingRun | fastapi-web-agent-main1/processing/web_scraper.py:53 | a leading run of three or more newlines becomes exactly two, and a shorter run is kept |
| WebScraper.CollapseRun | fastapi-web-agent-main1/processing/web_scraper.py:53 | a run of newlines anywhere in the text, between non-newline characters, becomes two newlines when it has three or more and is kept as it is otherwise, and the text around it collapses on its own |
| WebScraper.CollapsedPrefix | fastapi-web-agent-main1/processing/web_scraper.py:86 | cutting a text without three newlines in a row cannot create such a run |
| WebScraper.MainContentBounded | fastapi-web-agent-main1/processing/web_scraper.py:86 | the returned main text has at most 16000 characters, is a prefix of the collapsed text and has no run of three newlines |
| WebScraper.CleanedTextIgnoresRemoved | fastapi-web-agent-main1/processing/web_scraper.py:41-58 | neither the main text nor the text searched for contacts depends on anything inside the removed subtrees |
| WebScraper.ListedGroups | fastapi-web-agent-main1/processing/web_scraper.py:62-67 | the phones listed from `set(findall(…))` are exactly the group texts of the matches (`''` for a match whose group did not take part), never the whole match |
| WebScraper.ListOfSet | fastapi-web-agent-main1/processing/web_scraper.py:62 | `list(set(…))` lists every element once and nothing else |
| WebScraper.HandleRun | fastapi-web-agent-main1/processing/web_scraper.py:72-75 | the greedy `+` run: every character it takes is in the platform's handle class, and it stops only at the end of the text or at a character outside the class |
| WebScraper.FirstOfSpec | fastapi-web-agent-main1/processing/web_scraper.py:78 | an alternation or optional part takes the first alternative that occurs, and fails exactly when none occurs |
| WebScraper.FirstOfForced | fastapi-web-agent-main1/processing/web_scraper.py:78 | when an alternative occurs and none before it does, the alternation takes it |
| WebScraper.SchemesExclusive | fastapi-web-agent-main1/processing/web_scraper.py:78 | at most one of `https://` and `http://` occurs at a position |
| WebScraper.SitesExclusive | fastapi-web-agent-main1/processing/web_scraper.py:72-75 | at most one site text of a platform (`twitter.com/` or `x.com/`) occurs at a position |
| WebScraper.NoWwwBeforeSite | fastapi-web-agent-main1/processing/web_scraper.py:72-78 | where a site text occurs `www.` does not, so the greedy `(www\.)?` never hides a match |
| WebScraper.PatternEndMatches | fastapi-web-agent-main1/processing/web_scraper.py:78 | the end the greedy engine finds is the end of a match by the alternatives it took |
| WebScraper.PatternEndLongest | fastapi-web-agent-main1/processing/web_scraper.py:78 | a match whose alternatives are each the first that occurs ends no later than the greedy end |
| WebScraper.MatchEnd | fastapi-web-agent-main1/processing/web_scraper.py:78 | a match found at a position is non-empty and lies within the text |
| WebScraper.MatchEndSpec | fastapi-web-agent-main1/processing/web_scraper.py:71-78 | `https?://(www\.)?<site><handle>+` matches at a position exactly when an end is found there, and that end is the longest match there |
| WebScraper.MatchEndLongest | fastapi-web-agent-main1/processing/web_scraper.py:78 | no match at a position ends after the end found there |
| WebScraper.GreedyChoices | fastapi-web-agent-main1/processing/web_scraper.py:71-78 | in any match of the pattern, no alternative listed before the chosen scheme, `www.` part or site text also occurs there, so the greedy regex choices are the ones the match uses |
| WebScraper.MatchViaBound | fastapi-web-agent-main1/processing/web_scraper.py:71-78 | whichever scheme, `www.` part and site text a match uses, it ends no later than the end found |
| WebScraper.SearchFrom | fastapi-web-agent-main1/processing/web_scraper.py:78 | `re.search` finds the leftmost starting position with a match, and nothing only when no position has one |
| WebScraper.LinkScheme | fastapi-web-agent-main1/processing/web_scraper.py:78 | the text of a platform match starts with `https://` or `http://` in some mix of cases |
| WebScraper.FirstLinkLeftmost | fastapi-web-agent-main1/processing/web_scraper.py:78-80 | a platform's link exists exactly when its pattern matches somewhere, and is then the leftmost match's text |
| WebScraper.LeftmostLongestAt | fastapi-web-agent-main1/processing/web_scraper.py:78-80 | the first position with a match, and the end found there, give a match that no earlier position has and that no other match at that position outlasts |
| WebScraper.FirstLinkLeftmostLongest | fastapi-web-agent-main1/processing/web_scraper.py:78-80 | a platform's link is found exactly when its pattern matches somewhere, and it is the text of the longest match at the leftmost position where one starts |
| WebScraper.Key | fastapi-web-agent-main1/processing/web_scraper.py:71-76 | every key is one of linkedin, twitter, facebook, instagram |
| WebScraper.GatherKeys | fastapi-web-agent-main1/processing/web_scraper.py:77-80 | collecting links over a list of platforms adds no key other than theirs |
| WebScraper.GatherEntries | fastapi-web-agent-main1/processing/web_scraper.py:77-80 | over platforms with distinct keys, a key is present exactly when its platform's lookup finds a link, and holds that link |
| WebScraper.LinksOverEntries | fastapi-web-agent-main1/processing/web_scraper.py:77-80 | trying platforms with distinct keys yields one entry per matching platform, holding its first link, and no other key |
| WebScraper.SocialLinksEntries | fastapi-web-agent-main1/processing/web_scraper.py:70-80 | the keys of `social_links` are among the four platform names, and each platform is present with its first link exactly when its pattern matches |
| WebScraper.KeyNotYetCollected | fastapi-web-agent-main1/processing/web_scraper.py:79 | when the loop reaches a platform, its key is not yet among the collected links, so the `not in` check always passes |
| WebScraper.CollectSocialLinks | fastapi-web-agent-main1/processing/web_scraper.py:77-80 | the loop over the four patterns builds exactly those links; the key-absent check never fails |
| WebScraper.Scrape | fastapi-web-agent-main1/processing/web_scraper.py:21-103 | a transport failure gives the fetch-failure message; a non-2xx status, or a title element without a single string, gives the generic message; there is no partial result; otherwise every field of the result is as specified: metadata from the full page, main text and contacts after clean-up, social links from the raw body |
| WebScraper.PhonesAreGroups | fastapi-web-agent-main1/processing/web_scraper.py:61-67 | every phone entry is the country-code group of some match, each such group is listed, and neither list has duplicates |
| Security.ConfigureSecret | fastapi-web-agent-main1/utils/security.py:13-19 | start-up succeeds exactly when the variable is set and non-empty, and the secret is its value |
| Security.GetApiKey | fastapi-web-agent-main1/utils/security.py:27-64 | a missing or empty header gives 401 "missing"; one without the exact `Bearer ` prefix gives 401 "format"; every rejection is 401; an accepted token is the secret |
| Security.SplitPrefixed | fastapi-web-agent-main1/utils/security.py:53 | after the prefix check `split(" ")` has at least two pieces, so `[1]` cannot fail, and the second is the text up to the next space |
| Security.AcceptedIff | fastapi-web-agent-main1/utils/security.py:53-58 | a header is accepted exactly when it has the prefix and the text between the first and second space equals the secret, and the result is that token |
| Security.TrailingSegmentsIgnored | fastapi-web-agent-main1/utils/security.py:53 | `Bearer <secret> extra` is accepted |
| Security.ExactHeaderAccepted | fastapi-web-agent-main1/utils/security.py:46-58 | `Bearer <secret>` is accepted for a secret without spaces |
| Security.DoubleSpaceRejected | fastapi-web-agent-main1/utils/security.py:53-64 | `Bearer  <secret>` (two spaces) yields the empty token and is rejected as an invalid key |
| Security.SpacedSecretNeverAccepted | fastapi-web-agent-main1/utils/security.py:53-58 | a secret containing a space can never be presented successfully |
| Security.LowerCasePrefixRejected | fastapi-web-agent-main1/utils/security.py:46-50 | the prefix is case-sensitive: `bearer <secret>` is a format error |
| Security.IndexOfAfterHead | fastapi-web-agent-main1/utils/security.py:53 | the first space after a space-free head is right after it |
| ApiModels.MakeAnalysisResponse | fastapi-web-agent-main1/schemas/api_models.py:58-63 | `extracted_answers` defaults to the empty list; the other fields are as given |
| ApiModels.MakeChatResponse | fastapi-web-agent-main1/schemas/api_models.py:71-76 | `context_sources` defaults to `None`; the other fields are as given |
| ApiModels.RequiredStr | fastapi-web-agent-main1/schemas/api_models.py:42-48 | a required text field is accepted exactly when present as a string, and is that string |
| ApiModels.StrField | fastapi-web-agent-main1/schemas/api_models.py:31-36 | a text field with a default takes the default when absent and must otherwise be a string |
| ApiModels.OptStrField | fastapi-web-agent-main1/schemas/api_models.py:12-20 | an optional text field is `None` when absent or null, the string when a string, and an error otherwise |
| ApiModels.Strings | fastapi-web-agent-main1/schemas/api_models.py:34 | a list of strings is accepted exactly when every item is a string, and keeps them in order |
| ApiModels.StrListField | fastapi-web-agent-main1/schemas/api_models.py:34 | a list field defaults to the empty list when absent; a present one is accepted exactly when it is an array of strings, and holds them in order |
| ApiModels.SocialMediaFrom | fastapi-web-agent-main1/schemas/api_models.py:10-15 | a social media record is accepted exactly when it is a dictionary and each of the four links validates as an optional string, and holds those links; an empty dictionary gives no links at all |
| ApiModels.ContactInfoFrom | fastapi-web-agent-main1/schemas/api_models.py:17-21 | a contact record is accepted exactly when it is a dictionary whose e-mail and phone validate as optional strings and whose social media record, if present, validates; it holds those values, and no links when the record is absent |
| ApiModels.SentimentFrom | fastapi-web-agent-main1/schemas/api_models.py:23-38 | sentiment is `None` when absent or null; otherwise it is accepted exactly when it is a dictionary with a string `overall`, a numeric `confidence` and a valid `key_themes`, and holds those values |
| ApiModels.CompanyInfoFrom | fastapi-web-agent-main1/schemas/api_models.py:29-38 | a record is accepted exactly when every field's validator accepts it (the contact record only when present), and then holds in each field what that validator gives; an absent contact record is the empty one |
| ApiModels.CompanyInfoFieldValues | fastapi-web-agent-main1/schemas/api_models.py:29-38 | each absent field takes its default (`"N/A"`, empty list, no sentiment) and each present text or list field holds exactly the given strings |
| ApiModels.CompanyInfoDefaults | fastapi-web-agent-main1/schemas/api_models.py:29-38 | `CompanyInfo()` has `"N/A"` text fields, no products, a contact record with nothing in it and no sentiment |
| ApiModels.CompanyInfoIgnoresExtraKeys | fastapi-web-agent-main1/schemas/api_models.py:29-38 | keys other than the record's fields make no difference |
| ApiModels.ConversationTurnFrom | fastapi-web-agent-main1/schemas/api_models.py:45-48 | a turn is accepted exactly when both `user_query` and `agent_response` are present as strings |
| ApiModels.TurnsFrom | fastapi-web-agent-main1/schemas/api_models.py:69 | a history is accepted exactly when every turn is, and keeps the validated turns in order |
| ApiModels.ChatRequestFrom | fastapi-web-agent-main1/schemas/api_models.py:65-69 | a chat request is accepted exactly when the body is a dictionary with a URL the validator accepts, a string query and, if present, a valid history; it carries those values, the history defaulting to empty |
| ApiModels.AnalysisRequestFrom | fastapi-web-agent-main1/schemas/api_models.py:53-56 | an analysis request is accepted exactly when the body is a dictionary with a URL the validator accepts and questions that are absent, null or a list of strings; it carries the validated URL, and the questions are `None` when absent or null and otherwise the given strings |
| ApiModels.SocialMediaLinks | fastapi-web-agent-main1/schemas/api_models.py:10-15 | the links of a `SocialMedia` record are keyed by the four platform names only |
| ApiModels.LinkField | fastapi-web-agent-main1/schemas/api_models.py:10-15 | each `SocialMedia` field validated from a dictionary of links is that key's link, or `None` without one |
| ApiModels.LookupsCoverLinks | fastapi-web-agent-main1/schemas/api_models.py:10-15 | a dictionary keyed by platform names only is rebuilt exactly from its four lookups |
| ApiModels.SocialMediaFromLinks | fastapi-web-agent-main1/schemas/api_models.py:10-15 | a dictionary of links becomes the `SocialMedia` record with those links; with platform keys only, nothing is lost |
| ApiModels.ContactJsonRoundTrip | fastapi-web-agent-main1/schemas/api_models.py:17-21 | a contact dictionary validates into the contact record it describes |
| AiAnalyzer.GenerateLlmResponse | fastapi-web-agent-main1/processing/ai_analyzer.py:72-75 | without a client the call fails with the not-initialized message before anything is sent |
| AiAnalyzer.ContextText | fastapi-web-agent-main1/processing/ai_analyzer.py:105-108 | the context is the title line, the description line, a blank line, the content marker and then the content, with no other characters |
| AiAnalyzer.DropFenceEnds | fastapi-web-agent-main1/processing/ai_analyzer.py:122 | `s[7:-3]` is the text between the first seven and the last three characters, empty when they overlap |
| AiAnalyzer.StripFence | fastapi-web-agent-main1/processing/ai_analyzer.py:121-122 | a reply whose stripped form starts with the JSON fence is cut to `stripped[7:-3]`; any other reply is kept unstripped |
| AiAnalyzer.FencedBlock | fastapi-web-agent-main1/processing/ai_analyzer.py:121-122 | a block wrapped in the JSON fence and the closing backticks starts with the fence, ends with a backtick, and `[7:-3]` gives back its body |
| AiAnalyzer.FenceRoundTrip | fastapi-web-agent-main1/processing/ai_analyzer.py:121-122 | a fenced block, with any surrounding whitespace, gives back exactly its body |
| AiAnalyzer.First | fastapi-web-agent-main1/processing/ai_analyzer.py:136-137 | the first element of a list, or `None` exactly when it is empty |
| AiAnalyzer.Answers | fastapi-web-agent-main1/processing/ai_analyzer.py:142-157 | one answer per custom question, and none when there are no questions |
| AiAnalyzer.AnswerQuestions | fastapi-web-agent-main1/processing/ai_analyzer.py:147-157 | the question loop builds the specified answers: each question echoed, with the model's answer or the error text in its place |
| AiAnalyzer.AnalyzeContent | fastapi-web-agent-main1/processing/ai_analyzer.py:101-159 | the analysis returns or raises what the specification says |
| AiAnalyzer.AnalyzeFailures | fastapi-web-agent-main1/processing/ai_analyzer.py:117-139 | no client, a failed call (re-raised as is), an undecodable reply ("invalid format") and a decoded non-dictionary (`TypeError` on item assignment) are exactly the ways the analysis fails |
| AiAnalyzer.AnalyzeSuccess | fastapi-web-agent-main1/processing/ai_analyzer.py:133-159 | the contact record always comes from the scraped first e-mail, first phone and links, replacing any the model gave; the other keys of the reply are kept; answers are one per question, in order, each echoing its question |
| AiAnalyzer.NoQuestionsNoQaCalls | fastapi-web-agent-main1/processing/ai_analyzer.py:142-143 | without custom questions no question is put to the model and there are no answers |
| AiAnalyzer.TurnTexts | fastapi-web-agent-main1/processing/ai_analyzer.py:179 | the turns are rendered one by one, in order |
| AiAnalyzer.TurnTextsReadable | fastapi-web-agent-main1/processing/ai_analyzer.py:179 | the history renders exactly when every entry is a dictionary; a turn record raises the missing-`get` attribute error |
| AiAnalyzer.TurnDictText | fastapi-web-agent-main1/processing/ai_analyzer.py:179 | a turn dictionary renders as `User: q` and `AI: a` on two lines |
| AiAnalyzer.FollowUpLayout | fastapi-web-agent-main1/processing/ai_analyzer.py:174-182 | the system prompt, then the page context, then the history only when it is non-empty, and the user's query last; all but the last are system messages |
| AiAnalyzer.BuildFollowUpMessages | fastapi-web-agent-main1/processing/ai_analyzer.py:174-182 | the successive appends build exactly that list |
| AiAnalyzer.AnswerFollowUp | fastapi-web-agent-main1/processing/ai_analyzer.py:162-190 | the follow-up returns or raises what the specification says |
| AiAnalyzer.FollowUpOutcome | fastapi-web-agent-main1/processing/ai_analyzer.py:184-190 | a successful follow-up names only the homepage text as source; a turn record in the history raises the attribute error; without a client the error carries the conversational prefix |
| AgentServer.Guard | fastapi-web-agent-main1/agent_server.py:121-128 | an HTTP error raised inside passes through unchanged; any other exception becomes 502 with the endpoint's prefix |
| AgentServer.Blank | fastapi-web-agent-main1/agent_server.py:105 | the content check fires exactly for empty or whitespace-only text |
| AgentServer.ReadRoot | fastapi-web-agent-main1/agent_server.py:78-86 | the health check always reports status `ok`, version `1.0.0` and the service name, with the given time |
| AgentServer.UtcTimestampZ | fastapi-web-agent-main1/agent_server.py:115 | an ISO UTC time ending in `+00:00` is reported ending in `Z` instead |
| AgentServer.AnalyzeOutcomes | fastapi-web-agent-main1/agent_server.py:103-128 | a scraper error is 502 with the analyze prefix; a page without text is 404 whatever the model; an analyzer error is 502 with the prefix; no other status occurs |
| AgentServer.AnalyzeSuccessEchoes | fastapi-web-agent-main1/agent_server.py:113-118 | a successful reply echoes the URL, stamps the UTC time, carries one answer per question, and reports the scraped contact details |
| AgentServer.ScrapedLinksFitSocialMedia | fastapi-web-agent-main1/schemas/api_models.py:10-15 | every link key the scraper can produce is a `SocialMedia` field, so no link is lost in the company record |
| AgentServer.ServeAnalyze | fastapi-web-agent-main1/agent_server.py:103-111 | scraping then analysing: a fetch failure, a non-2xx status and a title without a single string each give 502 with the scraper's message; otherwise the scrape is as specified, and the reply is the endpoint's answer to it |
| AgentServer.ChatHistoryAlwaysFails | fastapi-web-agent-main1/agent_server.py:153-157 | as written, a chat with history past the content check is always 502 with the missing-`get` error; without history it behaves as corrected |
| AgentServer.ChatHistoryRendered | fastapi-web-agent-main1/processing/ai_analyzer.py:178-180 | with converted turns the history message shows every turn as its question and its answer, joined by newlines |
| AgentServer.ChatOutcomes | fastapi-web-agent-main1/agent_server.py:145-174 | a scraper error is 502 with the chat prefix; a page without text is 404 |
| AgentServer.ChatWithoutClient | fastapi-web-agent-main1/agent_server.py:153-174 | without a model a page with text gets 502 carrying the follow-up error under both prefixes |
| AgentServer.ChatEchoes | fastapi-web-agent-main1/agent_server.py:159-164 | a chat reply echoes the URL and the query and names the homepage text as its only source |

## Left out

- The HTTP fetch (client, headers, timeout, redirects) is input/output. Only its outcome is modelled: a transport error, or the final status and body.
- HTML parsing is a foreign library. The parser is a parameter from text to tree of elements, text and comments.
  - The `lxml` repair rules are not modelled.
  - So are `get_text` details beyond the ones modelled (string order, separator, stripping, comments skipped).
- The e-mail and phone regular expressions are parameters giving the matches. The social-link patterns are modelled in full.
- PyStr.FoldChar: case-insensitive matching is modelled only for the characters that can match the lower-case ASCII patterns used. Unicode case folding in general is not modelled.
- Choosing and calling the model backend (Groq or Ollama, environment variables, import probing) is left out. The client is a parameter that is either absent or a function from messages and JSON mode to a reply or an error text. `json.loads` is a parameter from text to an optional JSON value.
- AiAnalyzer.GenerateLlmResponse: the reply is always text. A backend reply without content (`None`) is not modelled.
- The system prompts are carried in the messages by name (`Fixed(AnalysisPrompt)` and so on). `AiAnalyzer.PromptText` gives each one's exact text as a constant. What the model makes of them is not modelled.
- FastAPI routing, dependency injection, CORS, the Redis-backed rate limiter, the `lifespan` start-up, the global exception handler and response-model re-validation are framework plumbing and external state. The token check is modelled on its own; running it as a dependency before the handler, and the 422 for invalid bodies, are not.
- URL validation (`HttpUrl`) is a foreign validator, passed as a parameter giving the normalised URL text.
- ApiModels.SentimentFrom: `confidence` accepts JSON integers and floats as reals. Other lax coercions (numeric strings, booleans) and floating-point rounding are not modelled.
- ApiModels.ErrorText: the text of a validation error is reduced to the record and the field. Only the first failing field in declaration order is reported, where the library reports all of them with its own wording.
- ApiModels.StrField: only JSON-native values are considered. The library's lax coercions of other Python types are not modelled.
- AiAnalyzer.TurnText: history dictionaries hold string values only. How an f-string renders other values is not modelled.
- `time.time()` and `datetime.now(timezone.utc)` are nondeterministic clock readings and are parameters.
- `print` logging and `async`/`await` do not change the behaviour of one sequential request.
- WebScraper.ListOfSet: the order of `list(set(…))` follows string hashing, which varies between processes. The contract and `Scrape` leave the order open.
- The defaults in `analysis_result.get("company_info", {})` and `analysis_result.get("extracted_answers", [])` are not modelled as separate cases, because the analysis result always has both keys.

## Findings

| source | as written | input that shows it | evidently intended | confidence | as-written member | corrected member |
|---|---|---|---|---|---|---|
| fastapi-web-agent-main1/processing/web_scraper.py:35 | `soup.title.string.strip()` raises `AttributeError` when the title element has no single string, and the `except Exception` turns it into the generic scrape failure; the whole request then fails with 502 | `<html><head><title></title></head><body><main>text</main></body></html>` | a title without text gives `''`, as an absent title does | not executed | WebScraper.PageTitleAsWritten, WebScraper.EmptyTitleCounterexample | WebScraper.PageTitle, WebScraper.TitleAsWrittenAgrees |
| fastapi-web-agent-main1/agent_server.py:153-157 | the request's `ConversationTurn` records are passed to `answer_follow_up_question`, which calls `turn.get(...)` on them; every `/chat` request with a non-empty history that gets past the content check fails with 502 | `{"url": "https://example.com", "query": "q", "conversation_history": [{"user_query": "a", "agent_response": "b"}]}` for a page with text | each turn is handed over as a dictionary of its two fields and appears in the history message | not executed | AgentServer.ConversationalChatAsWritten, AgentServer.ChatHistoryAlwaysFails | AgentServer.ConversationalChat, AgentServer.ChatHistoryRendered |
