# propoto (AgencyOS) core, modelled in Dafny

propoto is an agency back office. Its FastAPI backend gathers intelligence about a prospect's
website, asks an LLM agent for a sales proposal, and turns that proposal into a Gamma
presentation. It also keeps brand-voice memories, finds and stores leads, and answers Telegram
commands. A Convex database holds proposals, leads, assets, knowledge and an append-only audit
log. A React dashboard lists, filters, edits and exports the proposals.

This project models the deterministic core of that system:

- the bounded poll loops (Gamma generation, Firecrawl crawling, the brand agent's Gamma call), with
  every remote reply taken from an oracle sequence;
- the heuristic business-intelligence extraction;
- the URL security check, the ordered request validation and the credit-exhaustion fallback of
  `/agents/proposal/generate`;
- prompt and payload assembly (model resolution, the enriched prompt, the Gamma prompt and pricing
  text, brand guidelines, brand memory, Telegram replies);
- the error taxonomy and its HTTP status mapping;
- the small stateful services (lead-store counters, the token tracker, the Telegram running flag,
  the lazily cached Mem0 client, the request context);
- the Convex mutations and queries over tables held as sequences, where an id is a position;
- the dashboard's filtering, metrics and pending-proposal reconciliation, the proposal editor, and
  the sidebar's active-link rule.

Remote services (Gamma, Firecrawl, Mem0, OpenRouter, Convex over HTTP, Telegram), clocks and the
LLM are parameters. A remote call is a reply value, or a function from the attempt number to
the reply. An agent run is the reply it produced. A clock reading is an integer argument.

Files follow the source: one module per core source file, plus `Wrappers` (Option, Result) and
`Strings` (the Python and JavaScript string operations the core uses, with ASCII case mapping).
`ConvexDb` holds the database class shared by the Convex table modules.

## Model

| member | source | states |
|---|---|---|
| Exceptions.CodeValueRoundTrip | propoto/api/utils/exceptions.py:11-61 | every `ErrorCode` member's string value reads back to that member |
| Exceptions.CodeValuesUnique | propoto/api/utils/exceptions.py:11-61 | no two error codes share a string value |
| Exceptions.CodeValueFormat | propoto/api/utils/exceptions.py:11-61 | each value is its category prefix (AUTH_, EXT_, VAL_, AGT_, CFG_, INT_) followed by three digits |
| Exceptions.AgentServiceErr | propoto/api/utils/exceptions.py:64-84 | the base error keeps message, code, status, retry flag, retry hint and details as given |
| Exceptions.AuthenticationErr | propoto/api/utils/exceptions.py:105-122 | status 401 exactly for a missing key, 403 otherwise; never retryable, no retry hint |
| Exceptions.ProviderErr | propoto/api/utils/exceptions.py:130-170 | Gamma, Exa (and OpenRouter, lines 229-250) errors have status 502, no details, and carry the given code, retry flag and optional retry hint |
| Exceptions.BackendErr | propoto/api/utils/exceptions.py:172-227 | Firecrawl, Mem0 and Convex errors have status 502, no details and never a retry hint |
| Exceptions.ValidationErr | propoto/api/utils/exceptions.py:252-274 | status 400, not retryable; a named field is added to the details under "field" and every other given detail is kept |
| Exceptions.AgentExecutionErr | propoto/api/utils/exceptions.py:277-297 | the agent-execution class with the given message and code, status 500, the given retry flag, no retry hint, details hold exactly the agent name |
| Exceptions.ConfigurationErr | propoto/api/utils/exceptions.py:300-321 | the configuration class with the given message and code, status 500, not retryable, no retry hint; the details are exactly the missing variables when some are missing, and empty otherwise |
| Exceptions.ToDict | propoto/api/utils/exceptions.py:86-102 | the body carries message, code value and retry flag; the retry hint only when non-zero; the details only when non-empty |
| Exceptions.BuildServiceError | propoto/api/utils/exceptions.py:130-250 | calling a service class with a retry hint fails (unexpected keyword) exactly for the classes without that parameter |
| Exceptions.ServiceEntryFor | propoto/api/utils/exceptions.py:327-340 | each of the six lower-cased service names selects its own class with its API, rate-limit and timeout codes (Firecrawl, Mem0 and Convex reuse their API code for rate limits); any other name selects the generic class with UNKNOWN_ERROR three times |
| Exceptions.ServiceEntryCategories | propoto/api/utils/exceptions.py:327-340 | a named service's three codes are all external-service (EXT_) codes; the generic entry's are general (INT_) codes |
| Exceptions.ServiceEntryIgnoresCase | propoto/api/utils/exceptions.py:337-340 | the service name is looked up lower-cased, so its case never changes the entry |
| Exceptions.HandleHttpStatusRateLimitTypeError | propoto/api/utils/exceptions.py:352-358 | as written, a 429 for firecrawl, mem0 or convex cannot build its error |
| Exceptions.HandleHttpStatusCorrectedSpec | propoto/api/utils/exceptions.py:324-377 | the corrected mapping: 401 is an authentication error, otherwise the service's class; retryable exactly for 429, 408, 504 and 5xx; code and message per branch |
| Exceptions.HandleHttpStatusCorrectedAgrees | propoto/api/utils/exceptions.py:324-377 | wherever the written mapping yields an error it equals the corrected one, and it fails only for 429 on a class without a retry hint |
| Exceptions.InvalidCredentialsExample | propoto/api/tests/test_exceptions.py:208-212 | a 401 from Gamma is an authentication error with the invalid-key code |
| Exceptions.NoCreditsExample | propoto/api/tests/test_exceptions.py:214-218 | a 402 from Gamma is a Gamma error that is not retryable |
| Exceptions.RateLimitExample | propoto/api/tests/test_exceptions.py:220-226 | a 429 from Exa is an Exa rate-limit error, retryable, with a 60-second retry hint |
| Exceptions.TimeoutExample | propoto/api/tests/test_exceptions.py:228-233 | a 504 from Firecrawl is a retryable Firecrawl timeout error: the as-written mapping succeeds here |
| Exceptions.ServerErrorExample | propoto/api/tests/test_exceptions.py:235-239 | a 500 from Convex is a retryable Convex error |
| Exceptions.UnknownServiceExample | propoto/api/tests/test_exceptions.py:241-244 | a 500 from an unknown service carries the unknown-error code |
| UrlParse.RemoveUnsafe | propoto/api/main.py:71 | `urlparse` first strips tab, CR and LF: none is left in the result |
| UrlParse.Split | propoto/api/main.py:71 | `urlparse` reduced to scheme and netloc; it fails on an unbalanced bracket, and the netloc never holds '/', '?' or '#' |
| UrlParse.Hostname | propoto/api/main.py:77 | the `hostname` of a netloc is non-empty when present |
| UrlParse.HostnamePlain | propoto/api/main.py:77 | a netloc without userinfo, port or brackets has itself, lower-cased, as hostname |
| UrlParse.CleanUrl | propoto/api/main.py:71 | a URL starting with a letter and free of tab, CR and LF is not altered before splitting |
| UrlParse.SplitAuthority | propoto/api/main.py:71-77 | `scheme://host/path` splits into that scheme and that host |
| IpAddress.ParseOctet | propoto/api/main.py:90 | a decimal octet is 1 to 3 digits, no leading zero, below 256 |
| IpAddress.ParseIPv4 | propoto/api/main.py:90 | an IPv4 literal denotes a 32-bit value |
| IpAddress.ParseAddress | propoto/api/main.py:90 | `ip_address` tries IPv4 first, then IPv6, and fails only when both fail |
| IpAddress.OctetRoundTrip | propoto/api/main.py:90 | the decimal text of an octet value parses back to it |
| IpAddress.DottedQuadRoundTrip | propoto/api/main.py:90-93 | a dotted quad of four octets parses to the expected 32-bit value |
| TextPatterns.RunEnd | propoto/api/services/scraping_service.py:277-286 | a greedy character-class run ends at the first character outside the class |
| TextPatterns.FirstAltAt | propoto/api/services/scraping_service.py:298-305 | regex alternation at a position: an alternative that occurs there with no earlier one occurring, or none exactly when no alternative occurs; compared case-insensitively when asked |
| TextPatterns.GapThenLine | propoto/api/services/scraping_service.py:299 | `[\s:]+([^\n]+)`: a non-empty gap of space or ':' then a non-empty capture with no line break |
| TextPatterns.MatchAt | propoto/api/services/scraping_service.py:277-305 | a pattern match at a position consumes at least one character and stays inside the text |
| TextPatterns.CountNounReportsNoun | propoto/api/services/scraping_service.py:279 | `findall` of the count pattern reports only its captured group: one of customers, clients, users, companies |
| TextPatterns.PhraseReportsLead | propoto/api/services/scraping_service.py:278-281 | every "trusted by / used by / featured in" match starts with its lead phrase and continues with at least one `[\w\s,]` character |
| TextPatterns.FeatureAt | propoto/api/services/scraping_service.py:299 | one feature match reports a non-empty piece of a single line |
| TextPatterns.FeatureCaptureOneLine | propoto/api/services/scraping_service.py:303-306 | every feature capture is non-empty and lies within one line |
| TextPatterns.HexColorShape | propoto/api/services/brand_memory_service.py:243 | every colour match is '#' followed by six hexadecimal digits |
| ScrapingService.PageContents | propoto/api/services/scraping_service.py:140-141 | every kept text is non-empty and is the markdown of some page; every page with non-empty markdown has it kept |
| ScrapingService.PageContentsSingle | propoto/api/services/scraping_service.py:141 | one page contributes its markdown exactly when it is present and non-empty |
| ScrapingService.PageContentsConcat | propoto/api/services/scraping_service.py:141 | the texts of two runs of pages are the first run's texts followed by the second's, so page order and repeats are kept |
| ScrapingService.ScrapeUrl | propoto/api/services/scraping_service.py:50-90 | `scrape_url` returns text exactly on HTTP 200, the page markdown or "" when the body has none; any other status or an exception gives nothing |
| ScrapingService.SinglePage | propoto/api/services/scraping_service.py:123-126 | the single-page fallback yields at most one page, never an empty one |
| ScrapingService.CrawlPollFromSpec | propoto/api/services/scraping_service.py:150-187 | polling issues at most `max_attempts` requests, stops at the first terminal reply and returns what it yields, and returns nothing after `max_attempts` non-terminal replies |
| ScrapingService.PollCrawlJob | propoto/api/services/scraping_service.py:150-187 | the poll loop equals the recursive polling definition and never exceeds the attempt bound |
| ScrapingService.CrawlFallbackAtMostOnePage | propoto/api/services/scraping_service.py:121-148 | a failed crawl submission falls back to one scrape: at most one page, and no returned page is empty |
| ScrapingService.CrawlWebsite | propoto/api/services/scraping_service.py:92-148 | `crawl_website` submits a crawl, polls an asynchronous job or reads synchronous results, and falls back to one scrape on failure |
| ScrapingService.TitleLowerInvariant | propoto/api/services/scraping_service.py:231 | `title()` changes only letter case |
| ScrapingService.CompanyNameHintSpec | propoto/api/services/scraping_service.py:230-231 | the company-name hint is the first host label without "www.", up to letter case, and holds no '.' |
| ScrapingService.PainLines | propoto/api/services/scraping_service.py:258-264 | the collected pain-point lines are no more than the lines |
| ScrapingService.PainLinesFromLines | propoto/api/services/scraping_service.py:258-264 | every pain point is the stripped text of a line under 200 characters that mentions an indicator, ignoring case |
| ScrapingService.SocialProof | propoto/api/services/scraping_service.py:276-286 | at most two matches are kept per social-proof pattern |
| ScrapingService.StripAll | propoto/api/services/scraping_service.py:305-306 | each feature capture is stripped, in order |
| ScrapingService.ExtractIntelligence | propoto/api/services/scraping_service.py:219-308 | `_extract_intelligence` fails only when the URL cannot be parsed, and otherwise returns exactly the extraction record of the text and the URL's network location |
| ScrapingService.FirstIndustryIsFirst | propoto/api/services/scraping_service.py:247-250 | the detected industry is "" exactly when no entry's keywords occur, and otherwise the name of the first entry in table order whose keywords occur |
| ScrapingService.ToneOf | propoto/api/services/scraping_service.py:266-274 | corporate words decide first, then startup words; "professional" exactly when none of the three word lists occurs |
| ScrapingService.ExtractedFields | propoto/api/services/scraping_service.py:219-308 | the record's company name comes from the URL alone, its industry is the first matching table entry, pain points the first three qualifying lines, social proof, tech hints and features as collected, and the fields the heuristics do not fill stay empty |
| ScrapingService.IndustryNamesNonEmpty | propoto/api/services/scraping_service.py:236-245 | every industry label is non-empty, so "" means no industry matched |
| ScrapingService.DetectIndustry | propoto/api/services/scraping_service.py:247-250 | the loop with its early exit yields the first-matching-entry industry |
| ScrapingService.CollectPainPoints | propoto/api/services/scraping_service.py:258-264 | the loop collects the first three qualifying lines |
| ScrapingService.CollectSocialProof | propoto/api/services/scraping_service.py:283-286 | the loop collects up to two matches per pattern, in pattern order |
| ScrapingService.CollectTechHints | propoto/api/services/scraping_service.py:294-296 | the loop keeps every hint that occurs, in vocabulary order |
| ScrapingService.CollectFeatures | propoto/api/services/scraping_service.py:303-306 | the loop keeps the first five feature captures, stripped |
| ScrapingService.TakeStable | propoto/api/services/scraping_service.py:262-264 | once three pain points are collected, later lines do not change them (the early `break`) |
| ScrapingService.ExtractionBounds | propoto/api/services/scraping_service.py:276-306 | at most eight proof entries and eleven tech hints; count entries are nouns; feature captures are one-line texts |
| ScrapingService.AnalyzeProspect | propoto/api/services/scraping_service.py:189-217 | no content gives the all-empty record; unparseable URLs give nothing; otherwise exactly the extraction record of the combined text with its first 10000 characters as `raw_content` |
| GammaService.Present | propoto/api/services/gamma_service.py:193-199 | with export URLs requested the whole link triple is returned, otherwise only the Gamma link |
| GammaService.PollFromSpec | propoto/api/services/gamma_service.py:168-217 | polling issues at most `max_attempts` status requests and stops at the first terminal reply; "COMPLETED" yields exactly its links, "FAILED" or exhausting the attempts yields null links |
| GammaService.PollForCompletion | propoto/api/services/gamma_service.py:147-217 | the polling loop computes the same links and request count as the recursive poll specification, never more than `max_attempts` requests |
| GammaService.HttpErrorLogShape | propoto/api/services/gamma_service.py:219-233 | the logged line starts with "Gamma API"; a 400 logs "Bad request - " and the error text, an unrecognised status carries the error text |
| GammaService.KnownStatusLines | propoto/api/services/gamma_service.py:224-231 | the fixed lines logged for 401, 402 and 429, and the bad-request line for 400 |
| GammaService.HttpErrorLogDistinguishes | propoto/api/services/gamma_service.py:224-231 | 401, 402, 429 and 400 get four distinct lines, and the first three do not depend on the error text |
| GammaService.TierTexts | propoto/api/services/gamma_service.py:295-307 | one rendered entry per tier, in the tiers' order |
| GammaService.FormatPricingTiers | propoto/api/services/gamma_service.py:287-309 | the appending loop produces exactly the pricing section specification |
| GammaService.PricingTextCases | propoto/api/services/gamma_service.py:289-309 | a falsy investment reads "Contact us for custom pricing.", a truthy non-list "Contact us for pricing.", a single tier its own entry |
| GammaService.TierTextDefaults | propoto/api/services/gamma_service.py:297-306 | a tier with no attributes and no features gets the "Package", "TBD" and "Custom features" defaults |
| GammaService.PricingTextJoinsTiers | propoto/api/services/gamma_service.py:309 | several tiers are joined by blank lines, first tier first |
| GammaService.SlideBodies | propoto/api/services/gamma_service.py:243-285 | there is one body per slide heading |
| GammaService.Slides | propoto/api/services/gamma_service.py:255-285 | there is one rendered slide per heading |
| GammaService.ProposalPrompt | propoto/api/services/gamma_service.py:235-285 | the prompt opens by naming the prospect the deck is for |
| GammaService.ProposalPromptSlides | propoto/api/services/gamma_service.py:243-285 | seven slides in fixed order under numbered headings, bodies taken from the proposal's own sections (missing ones empty), the pricing slide from the tier formatter, and "Client" when no name is given |
| GammaService.BuildPayload | propoto/api/services/gamma_service.py:87-110 | the request carries the prompt, format and card count given, and a theme exactly when a non-empty theme id is given |
| GammaService.GenerationOutcomeSpec | propoto/api/services/gamma_service.py:83-145 | without a key nothing is sent; otherwise one generation request and at most 30 status requests, and any link returned comes from a "COMPLETED" status reply |
| GammaService.GenerationFailureIsNull | propoto/api/services/gamma_service.py:118-145 | a rejected, timed-out or raising generation request, or one with no job id, yields null links after exactly one request |
| GammaService.Client.constructor | propoto/api/services/gamma_service.py:49-52 | the key is the argument when given, otherwise the environment's |
| GammaService.Client.GeneratePresentation | propoto/api/services/gamma_service.py:61-145 | the method never raises and returns what the generation specification says |
| GammaService.Client.ListObjects | propoto/api/services/gamma_service.py:311-353 | listing themes or folders returns what the listing specification says |
| GammaService.ListOutcomeSpec | propoto/api/services/gamma_service.py:311-353 | without a key no request is sent; a failed request or a body without the list gives an empty list; otherwise the listed objects |
| ProposalAgent.LookupModel | propoto/api/agents/proposal_agent.py:126 | a catalogue lookup finds a path exactly when the key is in the catalogue, and the path found is that key's |
| ProposalAgent.CataloguePathsHaveSlash | propoto/api/agents/proposal_agent.py:80-95 | every catalogue path and the default model are in provider/model form, and no catalogue key contains a slash |
| ProposalAgent.ResolveModelNameSpec | propoto/api/agents/proposal_agent.py:125-138 | no override means the default model; a catalogue key means its path; an unknown name is kept, with its first ':' turned into '/' when it has no '/'; the name is never empty |
| ProposalAgent.ResolveModelNameIdempotent | propoto/api/agents/proposal_agent.py:125-138 | resolving an already resolved model name gives it back unchanged |
| ProposalAgent.TemplateTitle | propoto/api/agents/proposal_agent.py:277-322 | every template, and the fallback, has a non-empty heading |
| ProposalAgent.TemplatePrompt | propoto/api/agents/proposal_agent.py:273-322 | the guidance opens with a blank line and the "TEMPLATE:" heading of the chosen template |
| ProposalAgent.TemplatePromptFallback | propoto/api/agents/proposal_agent.py:322 | a key naming no template gets exactly the default guidance |
| ProposalAgent.TemplatePromptsDistinct | propoto/api/agents/proposal_agent.py:277-320 | the five templates give five different guidance texts |
| ProposalAgent.FieldLines | propoto/api/agents/proposal_agent.py:360-392 | the intelligence section has eleven candidate field lines |
| ProposalAgent.PresentLines | propoto/api/agents/proposal_agent.py:360-392 | only lines whose field is set are kept, each one of the candidates |
| ProposalAgent.PresentLinesSnoc | propoto/api/agents/proposal_agent.py:360-392 | taking one more candidate line adds its text exactly when its field is set |
| ProposalAgent.SetFieldTexts | propoto/api/agents/proposal_agent.py:360-392 | the appending loop keeps exactly the set field lines in order |
| ProposalAgent.BuildEnrichedPrompt | propoto/api/agents/proposal_agent.py:324-398 | the building method produces exactly the enriched-prompt specification |
| ProposalAgent.EnrichedPromptLayout | propoto/api/agents/proposal_agent.py:345-398 | the prompt opens with the prospect name, website, pain points and template guidance, joined by blank lines; intelligence adds exactly one more part |
| ProposalAgent.EmptyIntelligenceSection | propoto/api/agents/proposal_agent.py:354-396 | an all-empty analysis still adds the header, IMPORTANT and ACTION lines and nothing else |
| ProposalAgent.NoneIsPresent | propoto/api/agents/proposal_agent.py:360-392 | when no field is set no field line is kept |
| ProposalAgent.IntelLinesFrame | propoto/api/agents/proposal_agent.py:355-394 | the section is framed by the header pair and the ACTION line, and every line between is the line of a set field, at most eleven |
| ProposalAgent.IntelLinesCapped | propoto/api/agents/proposal_agent.py:376-392 | only the first five features and tech hints, three pain points, proof items and competitors, and 2000 characters of content reach the prompt |
| ApiMain.ValidateUrlSecurity | propoto/api/main.py:63-101 | the check answers valid exactly when it gives no error message |
| ApiMain.ValidateUrlSecurityAccepts | propoto/api/main.py:63-101 | a URL is accepted exactly when it parses with scheme http or https, has a host name, the lower-cased host holds no blocked name and the host is no IP literal in a blocked network |
| ApiMain.BlockedNameRejected | propoto/api/main.py:81-85 | a host holding any blocked name is rejected, with the host in the message |
| ApiMain.MetadataUrlSplit | propoto/api/main.py:70-77 | the cloud metadata URL splits into scheme http and the metadata host |
| ApiMain.MetadataHostname | propoto/api/main.py:77 | the metadata host is its own host name |
| ApiMain.MetadataHostBlocked | propoto/api/main.py:61 | the metadata address is itself one of the blocked names |
| ApiMain.MetadataAddressRejected | propoto/api/main.py:61 | `http://169.254.169.254/` is rejected as a blocked host name (also main.py lines 82-85) |
| ApiMain.PrivateAndLoopbackBlocked | propoto/api/main.py:50-58 | every dotted quad in 10.0.0.0/8 or 127.0.0.0/8 is a blocked IP literal (also main.py lines 87-93) |
| ApiMain.PrivateOrLoopbackRange | propoto/api/main.py:50-58 | an address with top octet 10 or 127 lies in the first or the fourth blocked network |
| ApiMain.BlockedByRange | propoto/api/main.py:87-93 | a host that parses to an address in any blocked network is a blocked IP literal |
| ApiMain.SlashTwelveMember | propoto/api/main.py:50-58 | an address of 172.16.0.0/12 lies in the second blocked network |
| ApiMain.SlashSixteenMember | propoto/api/main.py:50-58 | an address of 192.168.0.0/16 or 169.254.0.0/16 lies in the third or the fifth blocked network |
| ApiMain.PrivateTwelveBlocked | propoto/api/main.py:87-93 | every dotted quad in 172.16.0.0/12 is a blocked IP literal |
| ApiMain.PrivateAndLinkLocalBlocked | propoto/api/main.py:87-93 | every dotted quad in 192.168.0.0/16 or 169.254.0.0/16 is a blocked IP literal |
| ApiMain.VerifyKey | propoto/api/main.py:175-185 | the key check passes exactly when a service key is configured and the header equals it; 500 means no service key, otherwise the failure is 403 |
| ApiMain.MissingHeaderRejected | propoto/api/main.py:177-185 | a missing or empty header never passes |
| ApiMain.FirstKeyForSpec | propoto/api/main.py:384-389 | the lookup finds a key exactly when some catalogue entry has the path, and then the first such entry's key |
| ApiMain.DefaultModelKey | propoto/api/main.py:380-391 | the scanning loop yields the first key whose path is the default model, or "grok" when there is none |
| ApiMain.DefaultKeyIsGrok | propoto/api/main.py:384-389 | with the shipped catalogue the default key is "grok" |
| ApiMain.ValidationFailure | propoto/api/main.py:465-487 | every input-check failure is a 400 |
| ApiMain.ValidationPasses | propoto/api/main.py:465-491 | a request passes exactly when name, URL and pain points are non-blank, the URL has an http(s) prefix and passes the security check, and any template given is known; the model never makes it fail |
| ApiMain.BlankNameFirst | propoto/api/main.py:465-466 | a blank prospect name is the reply whatever else is wrong |
| ApiMain.Is402Simplified | propoto/api/main.py:537-544 | the credit-exhaustion test holds exactly when the text contains "402", "requires more credits" or "can only afford" ignoring case, or the repr carries a 402 code |
| ApiMain.OrDefault | propoto/api/main.py:513 | `x or default`: the value when it is non-empty, the default otherwise (also main.py lines 606-607) |
| ApiMain.DeepScrape | propoto/api/main.py:494-506 | the deep scrape hands on at most 10000 characters of content; with no content the analysis is the empty record; an exception inside it leaves the intelligence unset |
| ApiMain.PrepareRun | propoto/api/main.py:493-515 | the deep scrape runs only when asked for and hands on at most 10000 characters; the prompt is the enriched prompt of the request, that intelligence and the template or "default" |
| ApiMain.RunWithFallback | propoto/api/main.py:524-583 | one run on the requested model; exactly one retry on the free Grok model iff the first run failed for lack of credits and a paid model was requested; a failed retry or a credit failure without a fallback is a 402, any other failure a 500 |
| ApiMain.AgentStep | propoto/api/main.py:517-609 | the runs and their fallback as above; the reply is the successful output with no presentation links, `model_used` the requested model or the default and the template and deep-scrape flags echoed, or a 402 for credit failures and a 500 otherwise |
| ApiMain.GenerateValidated | propoto/api/main.py:493-609 | the prompt is built from the request and the scraped intelligence; the reply is the first successful run's output, with no presentation links, `model_used` the requested model or the default even after a fallback, and the template and deep-scrape flags echoed |
| ApiMain.GenerateProposal | propoto/api/main.py:447-609 | an invalid request is answered with its 400 before any scrape or agent run; otherwise the deep scrape runs exactly when asked for and the agent step follows |
| BrandAgent.BrandGuidelines | propoto/api/agents/brand.py:305-374 | no Mem0 key, or a voice with no guideline lines, gives the default guidelines; otherwise the voice's lines joined by newlines |
| BrandAgent.GetBrandGuidelines | propoto/api/agents/brand.py:295-374 | the formatting method computes exactly the guidelines specification |
| BrandAgent.GuidelineLines | propoto/api/agents/brand.py:322-359 | the append chain produces exactly the voice's guideline lines in their fixed order |
| BrandAgent.TakeOfLonger | propoto/api/agents/brand.py:331 | a cap already reached is not changed by more elements (also brand.py lines 347, 351, 355) |
| BrandAgent.ColorsBeyondFiveIgnored | propoto/api/agents/brand.py:330-332 | colours after the fifth never reach the guidelines |
| BrandAgent.KeyMessagesBeyondThreeIgnored | propoto/api/agents/brand.py:346-348 | key messages after the third never reach the guidelines |
| BrandAgent.PhrasesBeyondFiveIgnored | propoto/api/agents/brand.py:350-356 | avoided and preferred phrases after the fifth never reach the guidelines |
| BrandAgent.PrimaryColorOnlyWithoutColors | propoto/api/agents/brand.py:330-334 | the primary colour is shown exactly when there is no colour list |
| BrandAgent.DefaultVoiceGuidelines | propoto/api/agents/brand.py:313-368 | with a key but no stored memories the guidelines are the default voice's three lines, not the default guidelines |
| BrandAgent.AppendGuideline | propoto/api/agents/brand.py:466-470 | the first guideline is stored as is; later ones are appended after a blank line, keeping the existing text |
| BrandAgent.AppendGuidelineTwice | propoto/api/agents/brand.py:466-470 | saving two guidelines keeps both, in order |
| BrandAgent.SaveBrandGuideline | propoto/api/agents/brand.py:425-486 | no Mem0 key is a configuration error that saves nothing; without a client nothing is saved and the call fails; otherwise the messages of the stored voice with the guideline appended are added under the org's user up to the first failed add, and the call succeeds exactly when every add did, with the saved message, else a Mem0 error |
| BrandAgent.StoredVoice | propoto/api/services/brand_memory_service.py:62-100 | the voice read back always belongs to the org asked for |
| BrandAgent.GuidelineVoice | propoto/api/agents/brand.py:464-470 | the stored voice with its custom guidelines updated by the append rule, still of the same org |
| BrandAgent.SavedGuidelineIsLast | propoto/api/services/brand_memory_service.py:305-306 | the last message saved is the guidelines line, and the guidelines end with the new guideline |
| BrandAgent.EnrichedInput | propoto/api/agents/brand.py:131-133 | the Gamma input is the caller's prompt followed by the brand-guidelines section |
| BrandAgent.BuildPayload | propoto/api/agents/brand.py:130-151 | the request carries the enriched prompt and the given format, cards, tone and image style, and a theme exactly when a non-empty one is given |
| BrandAgent.HttpStatusError | propoto/api/agents/brand.py:236-272 | every HTTP error is a Gamma error with status 502; 401 is a non-retryable bad key, 429 a retryable rate limit with 60 s, 402 non-retryable credits, any other status a retryable API error |
| BrandAgent.Capitalize | propoto/api/agents/brand.py:211 | Python `str.capitalize`: same length, first character upper-cased, every other character lower-cased |
| BrandAgent.CapitalizeIdempotent | propoto/api/agents/brand.py:211 | capitalising twice changes nothing more, and the case the text came in does not matter |
| BrandAgent.CompletedText | propoto/api/agents/brand.py:211-215 | the completion text names the format and the view link, and ends with a PDF line exactly when there is a PDF link |
| BrandAgent.Terminal | propoto/api/agents/brand.py:200-230 | a COMPLETED reply returns the completion text, FAILED raises a Gamma error, an HTTP error on the check is mapped by the HTTP-status handler (also brand.py lines 236-292) |
| BrandAgent.PollCount | propoto/api/agents/brand.py:182 | the loop makes at most thirty checks |
| BrandAgent.PollStopsAtFirstTerminal | propoto/api/agents/brand.py:182-230 | the first reply that is not pending decides the outcome, after exactly that many checks |
| BrandAgent.PollExhausted | propoto/api/agents/brand.py:182-235 | thirty pending replies end in the 2.5-minute timeout error after thirty checks |
| BrandAgent.PollSuccessIsCompleted | propoto/api/agents/brand.py:200-215 | a successful poll returned the text of some COMPLETED reply |
| BrandAgent.PollGeneration | propoto/api/agents/brand.py:182-235 | the polling loop computes the poll outcome specification, with at most thirty checks |
| BrandAgent.Conclude | propoto/api/agents/brand.py:200-230 | one terminal check returns or raises as the terminal specification says |
| BrandAgent.CreateGammaPresentation | propoto/api/agents/brand.py:86-292 | without a key it raises a non-retryable configuration error and sends nothing; otherwise it sends the built payload, and status checks happen only after a job id came back |
| BrandAgent.RetriedOutcome | propoto/api/agents/brand.py:85 | two attempts: the first success is returned; when both fail the last error is wrapped |
| BrandAgent.CreateGammaPresentationRetried | propoto/api/agents/brand.py:85-292 | the tool runs once, or twice exactly when the first call failed; a missing key fails both attempts |
| SalesAgent.Simplified | propoto/api/agents/sales.py:191-195 | a simplified result keeps title and url and at most the first 500 characters of the text, all of a shorter text |
| SalesAgent.SimplifyAll | propoto/api/agents/sales.py:189-195 | one simplified entry per search result, in search order |
| SalesAgent.SimplifyAllConcat | propoto/api/agents/sales.py:189-195 | simplifying distributes over concatenation, so the order of results is kept |
| SalesAgent.Simplify | propoto/api/agents/sales.py:189-195 | the appending loop builds exactly the simplified list |
| SalesAgent.SearchFailure | propoto/api/agents/sales.py:206-238 | every search failure is a retryable Exa error: a timeout has the timeout code, HTTP 429 the rate-limit code, any other HTTP status or exception the API-error code |
| SalesAgent.SearchLeads | propoto/api/agents/sales.py:146-238 | without a key it raises a configuration error before any request; otherwise one search for ten results with autoprompt and text, whose results are simplified or whose failure is mapped |
| SalesAgent.PayloadOf | propoto/api/agents/sales.py:271-277 | a lead's mutation arguments carry its name, website, score, status and description |
| SalesAgent.Requests | propoto/api/agents/sales.py:269-291 | exactly one `leads:create` request per lead, in order, with that lead's arguments |
| SalesAgent.StoredCount | propoto/api/agents/sales.py:292-311 | no more leads are counted stored than were posted |
| SalesAgent.StoredCountAll | propoto/api/agents/sales.py:292-311 | every lead is counted stored exactly when every reply is a 200 |
| SalesAgent.StoreLeads | propoto/api/agents/sales.py:241-320 | without a Convex URL or token it raises before any request; otherwise every lead is posted once, a 200 counts as stored and anything else, an exception included, as failed, and both counts are reported |
| BrandMemory.EmptyVoice | propoto/api/services/brand_memory_service.py:234 | a fresh voice belongs to the given organisation |
| BrandMemory.UserId | propoto/api/services/brand_memory_service.py:58-60 | an organisation's Mem0 user is "brand_" followed by its id |
| BrandMemory.UserIdInjective | propoto/api/services/brand_memory_service.py:58-60 | different organisations never share a Mem0 user |
| BrandMemory.DefaultBrandVoice | propoto/api/services/brand_memory_service.py:223-230 | the default voice has three tone keywords, a writing style and custom guidelines, and no colours or name |
| BrandMemory.ParseBrandMemories | propoto/api/services/brand_memory_service.py:232-271 | the loop over memories computes exactly the parsed-voice specification |
| BrandMemory.ReadColors | propoto/api/services/brand_memory_service.py:240-246 | the colour step appends the memory's hex colours and sets the primary colour if unset |
| BrandMemory.ReadTone | propoto/api/services/brand_memory_service.py:248-254 | the tone step appends each vocabulary word the memory contains |
| BrandMemory.ReadStyle | propoto/api/services/brand_memory_service.py:256-262 | the style step sets formal, casual or technical, in that preference |
| BrandMemory.ParsedColorsAreHex | propoto/api/services/brand_memory_service.py:240-244 | every colour read back is '#' and six hexadecimal digits |
| BrandMemory.ParsedPrimaryIsFirstColor | propoto/api/services/brand_memory_service.py:244-246 | the primary colour is the first colour found, and is set exactly when some colour is |
| BrandMemory.ParsedToneInVocabulary | propoto/api/services/brand_memory_service.py:248-254 | tone keywords come only from the fixed vocabulary |
| BrandMemory.ParsedStyleKnown | propoto/api/services/brand_memory_service.py:256-262 | the writing style is one of the three recognised styles, or unset |
| BrandMemory.LastAudienceMention | propoto/api/services/brand_memory_service.py:236-238 | no position exactly when no memory mentions "audience"; otherwise the position of a memory that does, with none after it (also brand_memory_service.py line 268) |
| BrandMemory.ParsedAudienceIsLastMatch | propoto/api/services/brand_memory_service.py:236-238 | the target audience is unset when no memory mentions "audience", and otherwise the whole lower-cased text of the last memory that does (also brand_memory_service.py lines 268-269) |
| BrandMemory.ParseLeavesOtherFields | propoto/api/services/brand_memory_service.py:232-271 | parsing never fills the name, tagline, messages, phrase lists or custom guidelines |
| BrandMemory.KeyMessageLines | propoto/api/services/brand_memory_service.py:295-297 | one "Key message:" line per key message, in order |
| BrandMemory.BrandMessagesCount | propoto/api/services/brand_memory_service.py:273-308 | one message per key message and one for each other field that is set |
| BrandMemory.DefaultVoiceMessages | propoto/api/services/brand_memory_service.py:223-230 | the default voice is saved as exactly three messages (also brand_memory_service.py lines 273-308) |
| BrandMemory.BuildBrandMessages | propoto/api/services/brand_memory_service.py:273-308 | the append chain with its key-message loop produces exactly the message specification |
| BrandMemory.BrandPromptFallback | propoto/api/services/brand_memory_service.py:182-221 | the fallback sentence is used exactly when no prompt field is set, and colours never affect the prompt |
| BrandMemory.BrandPromptNameOnly | propoto/api/services/brand_memory_service.py:194-195 | with only a company name the prompt is that one line (also brand_memory_service.py line 221) |
| BrandMemory.GetBrandPrompt | propoto/api/services/brand_memory_service.py:182-221 | the append chain and join compute exactly the prompt specification |
| BrandMemory.AddsBeforeFailure | propoto/api/services/brand_memory_service.py:123-134 | the adds that happen are the longest run of successes, stopping at the first failure |
| BrandMemory.Tagged | propoto/api/services/brand_memory_service.py:123-127 | each message is added under the given Mem0 user, in order |
| BrandMemory.BrandMemoryService.constructor | propoto/api/services/brand_memory_service.py:44-46 | the key is the argument when given, else the environment's; no client exists yet |
| BrandMemory.BrandMemoryService.GetClient | propoto/api/services/brand_memory_service.py:48-56 | a client is created at most once, on first use, and only when a key is set and construction succeeds |
| BrandMemory.BrandMemoryService.GetBrandVoice | propoto/api/services/brand_memory_service.py:62-99 | no client, a failed search or no results give the default voice; otherwise the memories are parsed; nothing is added |
| BrandMemory.BrandMemoryService.SaveBrandVoice | propoto/api/services/brand_memory_service.py:101-134 | false without a client; otherwise one add per built message, in order, under the organisation's user, until one fails; true exactly when all succeeded |
| BrandMemory.BrandMemoryService.AddMessages | propoto/api/services/brand_memory_service.py:123-127 | the messages are added in order under the user id up to the first failing add; the result says whether every add succeeded; the client is kept and no other client is created |
| BrandMemory.BrandMemoryService.UpdateBrandElement | propoto/api/services/brand_memory_service.py:136-180 | one "Brand <element>: <value>" message is added exactly when there is a client and the add succeeds; the result says which |
| BrandMemory.FailedInitIsRetried | propoto/api/services/brand_memory_service.py:48-56 | a failed construction leaves no client, so the next use tries again; after one failure and one success exactly one client exists |
| TelegramBot.NormalizeUrl | propoto/api/services/telegram_bot.py:184-186 | a URL with an http(s) scheme is kept; any other gets `https://` in front, so the result always has a scheme |
| TelegramBot.ParseArgs | propoto/api/services/telegram_bot.py:168-186 | fewer than three words give no command; otherwise name, normalised URL and the remaining words as pain points, with deep scraping always requested (also telegram_bot.py line 204) |
| TelegramBot.ReadArgs | propoto/api/services/telegram_bot.py:168-186 | the step-by-step argument handling yields exactly the parsed command, and none for fewer than three words |
| TelegramBot.PainPointsRoundTrip | propoto/api/services/telegram_bot.py:182 | splitting the joined pain points at spaces gives back the words the command was split into |
| TelegramBot.FeatureLinesSnoc | propoto/api/services/telegram_bot.py:255-256 | one more feature adds exactly its bullet line |
| TelegramBot.Bullets | propoto/api/services/telegram_bot.py:256 | one bullet per feature, in order |
| TelegramBot.FeatureLinesSplit | propoto/api/services/telegram_bot.py:255-256 | read back line by line, the feature lines are exactly one bullet per feature |
| TelegramBot.TierBlockLines | propoto/api/services/telegram_bot.py:253-256 | a tier shows an empty line, its heading and the bullets of its first three features only |
| TelegramBot.Links | propoto/api/services/telegram_bot.py:263-267 | the presentation link comes first and the PDF link last, each exactly when its URL is present and non-empty |
| TelegramBot.OutcomeText | propoto/api/services/telegram_bot.py:211-281 | a non-200 answer shows its detail, a 200 without success the failure text, a timeout the timeout text, an exception its text, and a successful answer the proposal reply |
| TelegramBot.StatusText | propoto/api/services/telegram_bot.py:148-162 | the status reply is online only for a 200, degraded for any other status, offline with the error for an exception |
| TelegramBot.IntentOf | propoto/api/services/telegram_bot.py:283-305 | proposal words win over help words, and a message with neither is greeted |
| TelegramBot.IntentIgnoresCase | propoto/api/services/telegram_bot.py:285 | lower-casing a message first does not change its intent |
| TelegramBot.IntentReply | propoto/api/services/telegram_bot.py:288-305 | the help text is the reply exactly for the help intent |
| TelegramBot.TelegramBotService.constructor | propoto/api/services/telegram_bot.py:52-59 | a given configuration is kept; otherwise token, API URL and key come from the environment with their defaults; the bot is not running |
| TelegramBot.TelegramBotService.Start | propoto/api/services/telegram_bot.py:66-90 | unconfigured, start changes nothing; configured, it builds the application and marks the bot running |
| TelegramBot.TelegramBotService.Stop | propoto/api/services/telegram_bot.py:92-100 | stop clears the running flag only when an application exists and runs; otherwise nothing changes |
| TelegramBot.TelegramBotService.HandleProposal | propoto/api/services/telegram_bot.py:164-281 | fewer than three arguments answer with the usage text and call nothing; otherwise the parsed command is posted, the "generating" message shown and edited to the outcome |
| TelegramBot.EditedText | propoto/api/services/telegram_bot.py:211-281 | the edited message is what the outcome specification says |
| TelegramBot.BuildReply | propoto/api/services/telegram_bot.py:233-267 | the reply grown piece by piece equals the reply specification |
| TelegramBot.BuildTiers | propoto/api/services/telegram_bot.py:253-256 | the tier loop appends exactly each tier's block, in order |
| TelegramBot.BuildTier | propoto/api/services/telegram_bot.py:254-256 | one tier's block as the tier specification gives it |
| Logger.ContextPairs | propoto/api/utils/logger.py:143-154 | the context holds the request id, then the org id, each exactly when it is set and non-empty |
| Logger.PairTexts | propoto/api/utils/logger.py:161 | each context entry is rendered as key=value, in order |
| Logger.FormatMessage | propoto/api/utils/logger.py:157-163 | without context the message is unchanged; with it the message ends the line after the context prefix |
| Logger.FormatMessageFullContext | propoto/api/utils/logger.py:157-163 | with both ids set the prefix names the request id first, then the org id |
| Logger.FormatMessageRequestIdOnly | propoto/api/utils/logger.py:157-163 | with only the request id set the prefix holds it alone |
| Logger.FormatMessageOrgIdOnly | propoto/api/utils/logger.py:157-163 | with only the org id set the prefix holds it alone |
| Logger.LogContext.constructor | propoto/api/utils/logger.py:19-21 | the context variables start unset |
| Logger.LogContext.SetRequestContext | propoto/api/utils/logger.py:269-274 | each id is set only when given non-empty; the other variables are kept |
| Logger.LogContext.GetRequestId | propoto/api/utils/logger.py:277-283 | a set request id is returned unchanged; otherwise the first eight characters of a fresh UUID become the id and are stored |
| Logger.InputRate | propoto/api/utils/logger.py:205-220 | a listed model has its listed rate, and no rate is negative |
| Logger.InputRateByBase | propoto/api/utils/logger.py:214-220 | an unlisted name is priced by the part before its first ':', else at $1 per million |
| Logger.VariantUsesBaseRate | propoto/api/utils/logger.py:218-220 | a variant `base:suffix` of a listed base name costs what the base costs |
| Logger.FreeExactlyForFreeGrok | propoto/api/utils/logger.py:205-220 | only the two free Grok names are free; every other name costs something |
| Logger.UsageCost | propoto/api/utils/logger.py:222-225 | a call with non-negative token counts never has a negative cost |
| Logger.UsageCostSign | propoto/api/utils/logger.py:195-225 | calls on the default free model cost nothing; calls with tokens on any other paid model cost something |
| Logger.LookupRate | propoto/api/utils/logger.py:214-220 | the lookup method finds exactly the rate specification |
| Logger.TokenTracker.constructor | propoto/api/utils/logger.py:189-193 | the counters and the estimate start at zero |
| Logger.TokenTracker.RecordUsage | propoto/api/utils/logger.py:195-225 | the counters grow by the call's tokens, the total stays their sum, and the estimate grows by the call's cost |
| ConvexDb.OrgOrDefault | propoto/web/convex/proposals.ts:18 | a missing or empty org id means the demo org, so the org is never empty |
| ConvexDb.Lookup | propoto/web/convex/proposals.ts:78-80 | a document is found exactly when the id is in the table, and it is that document |
| ConvexDb.Newest | propoto/web/convex/proposals.ts:63-67 | the scan returns exactly the matching documents of the table, each once with its id, newest first |
| ConvexDb.Oldest | propoto/web/convex/auditLogs.ts:56-59 | the scan returns exactly the matching documents of the table, each once with its id, oldest first |
| ConvexDb.Where | propoto/web/convex/leads.ts:57-59 | filtering keeps exactly the documents that satisfy the condition |
| ConvexDb.WhereIsSubsequence | propoto/web/convex/leads.ts:57-59 | filtering only drops documents and keeps the order of the rest |
| ConvexDb.DropHeadSubsequence | propoto/web/convex/leads.ts:57-59 | a subsequence of the tail is a subsequence of the whole |
| ConvexDb.SubsequenceOfTail | propoto/web/convex/leads.ts:57-59 | dropping the first element of a subsequence keeps it a subsequence |
| ConvexDb.NewestWhere | propoto/web/convex/leads.ts:50-59 | filtering a newest-first scan gives the newest-first scan on both conditions |
| ConvexDb.WhereConcat | propoto/web/convex/auditLogs.ts:48-63 | filtering two runs of documents is filtering each in turn |
| ConvexDb.OldestWhere | propoto/web/convex/auditLogs.ts:48-63 | filtering an oldest-first scan gives the oldest-first scan on both conditions |
| ConvexDb.Database.constructor | propoto/web/convex/proposals.ts:21 | the tables start empty |
| ConvexDb.Database.InsertAudit | propoto/web/convex/proposals.ts:36-48 | an audit insert appends exactly one entry and touches no other table |
| ConvexProposals.NewProposal | propoto/web/convex/proposals.ts:17-34 | the inserted proposal has the defaulted org, status "draft" by default, equal created and updated times, no views, and the given content |
| ConvexProposals.Create | propoto/web/convex/proposals.ts:5-54 | one proposal and one "proposal.generated" audit entry are appended; nothing else is touched |
| ConvexProposals.List | propoto/web/convex/proposals.ts:56-72 | the listing is exactly the org's proposals, newest first |
| ConvexProposals.Get | propoto/web/convex/proposals.ts:74-82 | the proposal with that id when there is one, whatever its org |
| ConvexProposals.PatchContent | propoto/web/convex/proposals.ts:102-120 | content and update time always change; the status only when given non-empty; each URL only when given; nothing else changes |
| ConvexProposals.PatchContentIdempotent | propoto/web/convex/proposals.ts:102-120 | sending the same update twice leaves the proposal as one update does |
| ConvexProposals.UpdateContent | propoto/web/convex/proposals.ts:84-138 | a missing proposal or one of another org throws and writes nothing; otherwise the patch is applied and one "proposal.updated" entry appended |
| ConvexProposals.UpdateStatus | propoto/web/convex/proposals.ts:140-169 | any existing proposal gets the new status whatever its org, without a new update time, and the previous and new status are logged; a missing id throws and writes nothing |
| ConvexProposals.TrackExport | propoto/web/convex/proposals.ts:171-197 | only one "proposal.exported.<type>" entry is appended, with the prospect's name when the proposal exists |
| ConvexProposals.Viewed | propoto/web/convex/proposals.ts:207-212 | a view raises the count by one, an absent count counting as zero, and stamps the view time; nothing else changes |
| ConvexProposals.ViewsCount | propoto/web/convex/proposals.ts:207-212 | after k views the count has grown by k and the other fields are untouched |
| ConvexProposals.TrackView | propoto/web/convex/proposals.ts:199-220 | a missing id changes nothing; otherwise the view is counted and the new count returned; no audit entry is written |
| ConvexLeads.NewLead | propoto/web/convex/leads.ts:14-22 | the inserted lead has the arguments, the defaulted org and the contact time stamped |
| ConvexLeads.Create | propoto/web/convex/leads.ts:5-41 | one lead and one "lead.created" audit entry are appended; nothing else is touched |
| ConvexLeads.ListSpec | propoto/web/convex/leads.ts:43-64 | the listing is exactly the org's leads of the asked status (any status when none is given), newest first |
| ConvexLeads.WithStatus | propoto/web/convex/leads.ts:77-80 | the new status is set; the contact time is now for "contacted" and removed otherwise; nothing else changes |
| ConvexLeads.UpdateStatus | propoto/web/convex/leads.ts:66-97 | an existing lead of any org is patched and its company name, previous and new status logged; a missing id throws and writes nothing |
| ConvexAssets.NewAsset | propoto/web/convex/assets.ts:14-23 | the inserted asset has the given type, URL and prompt, status "ready" by default, the defaulted org and the creation time |
| ConvexAssets.PromptHead | propoto/web/convex/assets.ts:32 | the audit entry keeps the first 100 characters of the prompt, the whole prompt when shorter |
| ConvexAssets.Create | propoto/web/convex/assets.ts:5-41 | one asset and one "asset.created" audit entry are appended; nothing else is touched |
| ConvexAssets.ListSpec | propoto/web/convex/assets.ts:43-65 | the listing is exactly the org's assets of the asked type (any type when none is given), newest first |
| ConvexAssets.Get | propoto/web/convex/assets.ts:67-75 | the asset with that id when there is one, whatever its org; like ConvexProposals.Get, it is `ctx.db.get` on its own table |
| ConvexAssets.UpdateStatus | propoto/web/convex/assets.ts:77-87 | only that asset's status changes and nothing is logged; a missing id throws and writes nothing |
| ConvexAuditLogs.NewEntry | propoto/web/convex/auditLogs.ts:13-21 | the entry has the given action and details, actor "system" by default, the defaulted org and the time |
| ConvexAuditLogs.Log | propoto/web/convex/auditLogs.ts:5-26 | exactly one entry is added after all existing ones, which stay as they were; no other table changes |
| ConvexAuditLogs.LimitOrDefault | propoto/web/convex/auditLogs.ts:35 | an absent or zero limit means 50, any other limit is kept |
| ConvexAuditLogs.List | propoto/web/convex/auditLogs.ts:28-46 | the first min(limit, count) of the org's entries, newest first: a prefix of the org's newest-first scan of exactly that length, the limit being 50 when absent or zero |
| ConvexAuditLogs.GetByActionSpec | propoto/web/convex/auditLogs.ts:48-63 | the result is exactly the org's entries with the asked action, oldest first |
| ConvexKnowledge.NewKnowledge | propoto/web/convex/knowledge.ts:14-22 | the entry has the summary, entities and score given, the URL or "" when none, the defaulted org and the ingest time |
| ConvexKnowledge.EntityCount | propoto/web/convex/knowledge.ts:30 | the counted entities are the array's length, 0 for anything that is not an array |
| ConvexKnowledge.Create | propoto/web/convex/knowledge.ts:5-40 | one entry and one "knowledge.ingested" audit entry are appended; nothing else is touched |
| ConvexKnowledge.List | propoto/web/convex/knowledge.ts:42-58 | the first min(limit, count) of the org's entries, newest first: a prefix of the org's newest-first scan of exactly that length, the limit being 50 when absent or zero |
| Dashboard.TotalProposals | propoto/web/src/app/dashboard/page.tsx:66 | the total is the number of proposals, 0 while the query loads |
| Dashboard.SentProposals | propoto/web/src/app/dashboard/page.tsx:67 | the sent count never exceeds the total |
| Dashboard.DraftsAreTheUnsent | propoto/web/src/app/dashboard/page.tsx:67 | the drafts figure, total minus sent, is exactly the number of proposals whose status is not "sent" (also page.tsx line 473) |
| Dashboard.AllSent | propoto/web/src/app/dashboard/page.tsx:67 | all proposals count as sent exactly when each has status "sent" |
| Dashboard.SuccessRate | propoto/web/src/app/dashboard/page.tsx:68 | without proposals the rate is 0; otherwise it is within half a point of the exact percentage, and it lies in 0..100 |
| Dashboard.RoundedShare | propoto/web/src/app/dashboard/page.tsx:68 | the rounding formula lands within half a point of the exact percentage, inside 0..100 |
| Dashboard.SuccessRateUnique | propoto/web/src/app/dashboard/page.tsx:68 | the rate is the only whole number within half a point of the exact percentage, halves going up |
| Dashboard.Filtered | propoto/web/src/app/dashboard/page.tsx:70-81 | nothing is listed while the query loads; every listed proposal passes the status and search tests |
| Dashboard.FilteredSpec | propoto/web/src/app/dashboard/page.tsx:70-81 | the filtered list is the proposals with the failing ones dropped, order kept, and a proposal is in it exactly when it passes both tests |
| Dashboard.WhereKeepsAll | propoto/web/src/app/dashboard/page.tsx:72-80 | filtering keeps everything when everything passes |
| Dashboard.NoFilterListsAll | propoto/web/src/app/dashboard/page.tsx:73-78 | with the "all" filter and a blank search every proposal is listed, in order |
| Dashboard.Visible | propoto/web/src/app/dashboard/page.tsx:233 | the list shows the first twelve filtered proposals, all of them when there are at most twelve |
| Dashboard.RecentActivity | propoto/web/src/app/dashboard/page.tsx:453 | the activity panel shows the first three filtered proposals, all of them when there are at most three |
| Dashboard.ActivityHeadsVisible | propoto/web/src/app/dashboard/page.tsx:233 | the activity panel shows the head of what the list shows, three items once there are three (also page.tsx line 453) |
| Dashboard.NumberOr | propoto/web/src/app/dashboard/page.tsx:115-116 | JavaScript `n \|\| d` on a number: an absent or zero value falls back to the default |
| Dashboard.ResultOf | propoto/web/src/app/dashboard/page.tsx:93-104 | the result view of a stored proposal shows its content, links, prospect, status and times |
| Dashboard.Normalized | propoto/web/src/app/dashboard/page.tsx:111-117 | a generated result gets status "draft" when it has none and both times from the generation instant unless given; nothing else changes |
| Dashboard.PendingOf | propoto/web/src/app/dashboard/page.tsx:121-126 | the page waits for a stored copy with the generated prospect, as given or empty, and the generation instant |
| Dashboard.UpdatesNeedAView | propoto/web/src/app/dashboard/page.tsx:138-162 | the update handlers change nothing when there is neither a result nor a selection |
| Dashboard.UpdatesKeepTimes | propoto/web/src/app/dashboard/page.tsx:138-162 | an update with a timestamp stamps both views with it; without one both keep their times; only the content or status moves, and the selection keeps its id |
| Dashboard.Candidates | propoto/web/src/app/dashboard/page.tsx:195-200 | the candidates are exactly the stored proposals whose prospect matches, and their pain points too when the pending match has any |
| Dashboard.LatestIndex | propoto/web/src/app/dashboard/page.tsx:206-208 | the chosen candidate has the latest creation time, and is the first of those that share it |
| Dashboard.LatestIndexUnique | propoto/web/src/app/dashboard/page.tsx:206-208 | those two properties single out the chosen candidate |
| Dashboard.Adopted | propoto/web/src/app/dashboard/page.tsx:217-222 | the result view, if any, takes the stored copy's status and times and keeps the rest |
| Dashboard.ReconciledIdempotent | propoto/web/src/app/dashboard/page.tsx:176-225 | running the effect again on the same query value changes nothing |
| Dashboard.ReconcileAdopts | propoto/web/src/app/dashboard/page.tsx:191-224 | while a generated proposal is pending, a stored copy is adopted exactly when a newest candidate lies within five minutes; it then becomes the selection and the active id and the pending match is dropped; otherwise nothing changes |
| Dashboard.HandlersSurviveEffect | propoto/web/src/app/dashboard/page.tsx:83-136 | the effect keeps a selection active and undoes nothing the select, reset and create handlers did (also page.tsx lines 176-189) |
| Dashboard.FreshlyStoredIsAdopted | propoto/web/src/app/dashboard/page.tsx:110-128 | right after a generation whose stored copy is the only proposal and was created at the generation instant, the effect adopts that copy (also page.tsx lines 191-224) |
| Dashboard.DashboardPage.constructor | propoto/web/src/app/dashboard/page.tsx:55-62 | the page starts on the list with nothing selected, the "all" filter and an empty search |
| Dashboard.DashboardPage.SetStatusFilter | propoto/web/src/app/dashboard/page.tsx:61 | only the status filter changes (also page.tsx line 442) |
| Dashboard.DashboardPage.SetSearchTerm | propoto/web/src/app/dashboard/page.tsx:62 | only the search term changes |
| Dashboard.DashboardPage.HandleStartCreate | propoto/web/src/app/dashboard/page.tsx:83-89 | the page goes to the form with every selection cleared |
| Dashboard.DashboardPage.HandleSelectProposal | propoto/web/src/app/dashboard/page.tsx:91-108 | the page shows that proposal's result view and makes it the active one |
| Dashboard.DashboardPage.HandleCreateSuccess | propoto/web/src/app/dashboard/page.tsx:110-128 | the page shows the normalised result with nothing selected and waits for the stored copy |
| Dashboard.DashboardPage.HandleReset | propoto/web/src/app/dashboard/page.tsx:130-136 | the page goes back to the list with every selection cleared |
| Dashboard.DashboardPage.HandleResultDataUpdate | propoto/web/src/app/dashboard/page.tsx:138-149 | new content in both views that exist; a missing timestamp keeps the old one |
| Dashboard.DashboardPage.HandleStatusChange | propoto/web/src/app/dashboard/page.tsx:151-162 | the new status in both views that exist; a missing timestamp keeps the old one |
| Dashboard.DashboardPage.ReconcileEffect | propoto/web/src/app/dashboard/page.tsx:176-225 | one run of the effect moves the page to the reconciled state |
| ProposalResult.Clone | propoto/web/src/components/dashboard/ProposalResult.tsx:43-49 | the copy is equal to the original proposal |
| ProposalResult.WithSection | propoto/web/src/components/dashboard/ProposalResult.tsx:121-126 | the edited section takes the new text; every other section and the tiers stay |
| ProposalResult.TrimAll | propoto/web/src/components/dashboard/ProposalResult.tsx:138 | every line is trimmed, one result per line |
| ProposalResult.NonEmpty | propoto/web/src/components/dashboard/ProposalResult.tsx:139 | every kept line is a non-empty input line, and every non-empty input line is kept |
| ProposalResult.NonEmptyCounts | propoto/web/src/components/dashboard/ProposalResult.tsx:139 | the kept lines are the input lines with every empty one removed, each non-empty line kept as often as it occurs |
| ProposalResult.NonEmptyConcat | propoto/web/src/components/dashboard/ProposalResult.tsx:139 | filtering two runs of lines is filtering each in turn, so the kept lines stay in input order |
| ProposalResult.TrimIdempotent | propoto/web/src/components/dashboard/ProposalResult.tsx:138 | trimming twice trims no more than trimming once |
| ProposalResult.TrimmedLinesClean | propoto/web/src/components/dashboard/ProposalResult.tsx:136-139 | a kept trimmed line is a clean feature: non-empty with nothing to trim |
| ProposalResult.ParseFeatures | propoto/web/src/components/dashboard/ProposalResult.tsx:136-139 | every parsed feature is non-empty and trimmed |
| ProposalResult.NonEmptyKeepsAll | propoto/web/src/components/dashboard/ProposalResult.tsx:139 | when no line is empty every line is kept |
| ProposalResult.FeaturesRoundTrip | propoto/web/src/components/dashboard/ProposalResult.tsx:136-139 | reading back the features the text area shows, one per line, gives the same features, as long as each is clean and on one line (also ProposalResult.tsx line 485) |
| ProposalResult.BlankParsesToNothing | propoto/web/src/components/dashboard/ProposalResult.tsx:136-139 | an empty text area has no features |
| ProposalResult.CleanLinesParse | propoto/web/src/components/dashboard/ProposalResult.tsx:136-139 | clean lines survive trimming and filtering unchanged |
| ProposalResult.WithTierField | propoto/web/src/components/dashboard/ProposalResult.tsx:133-146 | the name or price takes the text as is; the features are parsed from it |
| ProposalResult.TierEdited | propoto/web/src/components/dashboard/ProposalResult.tsx:128-151 | only the tier at the index changes, in that one field; an index outside the list changes nothing; the sections stay |
| ProposalResult.UnchangedFeaturesText | propoto/web/src/components/dashboard/ProposalResult.tsx:128-151 | typing back the features the text area shows leaves the proposal as it was (also ProposalResult.tsx line 485) |
| ProposalResult.InitialStatus | propoto/web/src/components/dashboard/ProposalResult.tsx:73 | the status shown is the given one, or "draft" (also ProposalResult.tsx line 85) |
| ProposalResult.NextStatus | propoto/web/src/components/dashboard/ProposalResult.tsx:180 | a sent proposal goes back to draft; anything else becomes sent |
| ProposalResult.ToggleTwice | propoto/web/src/components/dashboard/ProposalResult.tsx:180 | toggling twice returns a draft or sent proposal to where it was |
| ProposalResult.DownloadTarget | propoto/web/src/components/dashboard/ProposalResult.tsx:197-206 | nothing when download is disabled; otherwise the PDF link when present, else the PPTX link, with the matching export type (also ProposalResult.tsx line 246) |
| ProposalResult.CopyText | propoto/web/src/components/dashboard/ProposalResult.tsx:110-112 | a stored proposal copies its tracking link; otherwise the proposal's JSON text |
| ProposalResult.RelativeAge | propoto/web/src/components/dashboard/ProposalResult.tsx:88-98 | an absent or zero timestamp has no age; otherwise the age falls in exactly one band (under a minute, minutes, hours, days under a week, older), counted in whole units rounded down |
| ProposalResult.FormatRelativeTime | propoto/web/src/components/dashboard/ProposalResult.tsx:88-99 | no timestamp reads "—", under a minute "just now", then "Nm ago", "Nh ago" and "Nd ago" with the whole count elapsed, and a week or more the locale date |
| ProposalResult.UpdatedStamp | propoto/web/src/components/dashboard/ProposalResult.tsx:102 | the updated label uses the update time when set and non-zero, else the creation time |
| ProposalResult.MinuteLabelReadsBack | propoto/web/src/components/dashboard/ProposalResult.tsx:91-93 | a minutes label shows the whole minutes elapsed, between 1 and 59 |
| ProposalResult.HourLabelReadsBack | propoto/web/src/components/dashboard/ProposalResult.tsx:94-96 | an hours label shows the whole hours elapsed, between 1 and 23, and reads back as that number |
| ProposalResult.DayLabelReadsBack | propoto/web/src/components/dashboard/ProposalResult.tsx:96-98 | a days label shows the whole days elapsed, between 1 and 6, and reads back as that number |
| ProposalResult.ProposalResultView.constructor | propoto/web/src/components/dashboard/ProposalResult.tsx:66-75 | the view starts with a copy of the proposal, not editing, idle, with the initial status |
| ProposalResult.ProposalResultView.StartEditing | propoto/web/src/components/dashboard/ProposalResult.tsx:367 | only the editing flag is raised |
| ProposalResult.ProposalResultView.HandleSectionChange | propoto/web/src/components/dashboard/ProposalResult.tsx:121-126 | only the edited copy changes, in that one section |
| ProposalResult.ProposalResultView.HandleTierFieldChange | propoto/web/src/components/dashboard/ProposalResult.tsx:128-151 | only the edited copy changes, in that one tier field |
| ProposalResult.ProposalResultView.HandleCancelEdit | propoto/web/src/components/dashboard/ProposalResult.tsx:78-82 | the edited copy is reset to the proposal, editing stops and the save state is idle (also ProposalResult.tsx lines 153-157) |
| ProposalResult.ProposalResultView.HandleStatusProp | propoto/web/src/components/dashboard/ProposalResult.tsx:84-86 | a new status prop resets the shown status to it, or "draft", and changes nothing else |
| ProposalResult.ProposalResultView.SaveTimerElapsed | propoto/web/src/components/dashboard/ProposalResult.tsx:170-174 | when the save timer fires the save indicator is idle again and nothing else changes |
| ProposalResult.ProposalResultView.DownloadTimerElapsed | propoto/web/src/components/dashboard/ProposalResult.tsx:208-212 | when the download timer fires the download indicator is idle again and nothing else changes |
| ProposalResult.ProposalResultView.HandleSaveEdits | propoto/web/src/components/dashboard/ProposalResult.tsx:159-176 | nothing without a stored proposal; otherwise one update request with the edited copy; success ends editing and tells the parent the content and save instant; failure keeps editing and tells nobody |
| ProposalResult.ProposalResultView.HandleStatusToggle | propoto/web/src/components/dashboard/ProposalResult.tsx:178-195 | nothing without a stored proposal; otherwise one status request with the next status, adopted and reported only on success; the busy flag is down afterwards |
| ProposalResult.ProposalResultView.HandleDownload | propoto/web/src/components/dashboard/ProposalResult.tsx:197-214 | nothing when download is disabled; otherwise the chosen link is opened and one export of the matching type is recorded |
| Sidebar.TopRail | propoto/web/src/components/Sidebar.tsx:18-25 | the rail's top shows exactly the first five items, dashboard first and settings not among them (also Sidebar.tsx line 36) |
| Sidebar.DashboardExactOnly | propoto/web/src/components/Sidebar.tsx:37 | the dashboard link is highlighted on the dashboard path and nowhere else |
| Sidebar.OtherLinksByPrefix | propoto/web/src/components/Sidebar.tsx:37 | any other link is highlighted exactly on the paths that start with it |
| Sidebar.PrefixesComparable | propoto/web/src/components/Sidebar.tsx:37 | two prefixes of one path are prefixes of each other |
| Sidebar.NotPrefix | propoto/web/src/components/Sidebar.tsx:18-25 | texts that differ at a position are not prefixes of each other |
| Sidebar.TopHrefsIndependent | propoto/web/src/components/Sidebar.tsx:18-25 | no top link other than the dashboard's is a prefix of another top link |
| Sidebar.AtMostOneActive | propoto/web/src/components/Sidebar.tsx:18-25 | at most one top-rail link is highlighted, whatever the path (also Sidebar.tsx lines 36-37) |
| Sidebar.KnowledgePageHighlight | propoto/web/src/components/__tests__/Sidebar.test.tsx:48-57 | on the knowledge page its link is highlighted and the dashboard link is not |
| Sidebar.SettingsSubpathNotActive | propoto/web/src/components/Sidebar.tsx:37 | below the settings path the bottom settings link is not highlighted, though the top-rail rule would highlight it (also Sidebar.tsx line 69) |
| ProposalResult.EmailSubject | propoto/web/src/components/dashboard/ProposalResult.tsx:222 | the subject is "Proposal for " followed by the prospect's name, or by "your prospect" when no name is given; an empty name stays empty |
| ProposalResult.EmailSharesCopyLink | propoto/web/src/components/dashboard/ProposalResult.tsx:223-227 | the email body is the greeting, a deck line with the link the copy button copies for the same proposal, then the closing line; for a stored proposal the deck line is always there (also ProposalResult.tsx lines 110-112) |
| ProposalResult.ProposalResultView.HandleEmailExport | propoto/web/src/components/dashboard/ProposalResult.tsx:216-238 | nothing without a stored proposal; otherwise one "email" export is recorded; when recording succeeds, the mail draft with the tracking link opens and the indicator shows success; when it fails, no mail opens and the indicator shows an error; nothing else changes |
| ProposalResult.ProposalResultView.EmailTimerElapsed | propoto/web/src/components/dashboard/ProposalResult.tsx:230-236 | when the email timer fires the email indicator is idle again and nothing else changes |

## Left out

- HTTP clients, `asyncio.sleep`, wall-clock timing and all other I/O: each remote reply is a parameter or an oracle, and a poll loop counts its requests instead of seconds.
- The LLM itself: agent construction, instruction prose and model calls in `proposal_agent.py`, `sales.py` and `brand.py`. An agent run is modelled by the reply it returned.
- `propoto/api/agents/knowledge.py`: a thin wrapper over the Firecrawl SDK. The Convex `knowledge` table it writes to is modelled.
- Server plumbing in `main.py`. This covers the FastAPI app, CORS, slowapi rate limiting, the exception-handler wiring, `validate_environment`, the disabled 503 endpoints, `ingest_knowledge`, `find_leads`, `list_templates`, and the Telegram start/stop endpoints with their `asyncio.Task`.
- ApiMain.GenerateProposal: does not model the outer `except Exception` (a 500 "Failed to generate proposal") or `get_proposal_agent` raising, because both wrap failures of code outside the core.
- Concurrency and tenacity retry internals (waits, backoff, `RetryError` wrapping). `get_brand_guidelines` and `search_leads` are modelled as one attempt each. The brand agent's Gamma call records its attempt bound as a number.
- Floating point. The token tracker's cost estimate is an exact real. The dashboard's success rate is rounded with exact rational arithmetic, so it can differ from `Math.round` on floats at exact halves only through float error. `TimingContext` durations are not modelled.
- Logging output: `JSONFormatter`, `ColoredFormatter`, `setup_logging`, and every log call, which is a side effect only. The structured message text (`_format_message`) is modelled.
- The regex engine. Only the patterns the core uses are modelled, as hand-written matchers: hex colours, the "trusted by / used by / featured in" runs, "N+ customers", "features:" to end of line, and the brand-memory tag prefixes.
- UrlParse.Split: models `urllib.parse.urlsplit` without the bracketed-host validation added in recent Python 3 releases. The only error modelled is the unbalanced-bracket `ValueError` ("Invalid IPv6 URL").
- `brand.py`'s `ImportError` fallbacks, taken when the brand-memory service cannot be imported.
- Python `str()` of a dict (leads' `data` when it is not a dict) and JSON `null` versus an absent key. In both cases the model keeps the value, not its rendering.
- The `TelegramBotService` and `BrandMemoryService` singleton getters, `run_telegram_bot`, the `/start` welcome text, and the Telegram SDK (`Update`, `Application`, message editing). The edited reply text is modelled.
- httpx timeouts do not raise `asyncio.TimeoutError`. The model keeps the source's branches as written and treats every timeout as an ordinary exception.
- JavaScript strings are UTF-16. `substring` counts code units, while the model counts characters.
- Convex `limit` arguments and numeric fields are taken as integers. Negative or fractional limits are not modelled.
- `Date.now()` is one integer parameter per mutation.
- `ctx.db.patch` on an id with no document is modelled as a thrown error (`MissingDocument`) that writes nothing.
- Case mapping (`lower()`, `title()`, `toLowerCase()`) is ASCII only.
- The regex character classes in `TextPatterns` are ASCII only. Python 3 applies `\w`, `\d` and IGNORECASE to Unicode on `str` patterns. The model takes `\w` as ASCII letters, digits and '_', takes `\d` as '0' to '9', and folds case for ASCII letters only. `\s` follows Python's `isspace`.
- CountNounReportsNoun: the count in "N+ customers" is a run of ASCII digits. Python's `\d+` also accepts other Unicode decimal digits, such as Arabic-Indic ones, so the model reports no match where Python reports one.
- PhraseReportsLead: the run after "trusted by", "used by" and "featured in" stops at the first non-ASCII letter. Python's `[\w\s,]+` continues through it, so on "trusted by café owners" the model reports "trusted by caf" where Python reports "trusted by café owners".
- ProposalResult.Clone: works on values, so "the clone shares no arrays with the original" (aliasing) is not captured.
- The dashboard's and the editor's rendering: JSX, the `copied` flag reset by `setTimeout`, `formatDate` and the locale date. The save, download and email indicator timers are modelled as the call that fires them; their delays are not. `JSON.stringify` and the locale date are parameters where text depends on them.
- `ProposalResultView.HandleEmailExport`: the mail draft is returned as its subject and body text. The `encodeURIComponent` percent-encoding and the `mailto:` URL built from them are not modelled. The fallback to the presentation, PDF or PPTX link is left out because it cannot be reached: the handler returns early without a `proposalId`, so the tracking link always exists.
- React effect scheduling. One run of the pending-proposal effect is modelled as one call of `ReconcileEffect`.
- ProposalAgent.BuildEnrichedPrompt: `if website_intel:` on an empty dict is modelled as `None`. Callers always pass a full `BusinessIntelligence`, so the empty-dict case does not arise.

## Findings

| source | as written | input that shows it | evidently intended | confidence | as-written member | corrected member |
|---|---|---|---|---|---|---|
| propoto/api/utils/exceptions.py:352-358 | a 429 passes `retry_after_seconds` to the service's error class, but `FirecrawlError`, `Mem0Error` and `ConvexError` do not accept it | `handle_http_status(429, "firecrawl", …)` raises a `TypeError` instead of returning an error | a retryable rate-limit error for that service | not executed | Exceptions.HandleHttpStatusRateLimitTypeError | Exceptions.HandleHttpStatusCorrectedSpec |
