/**
 * The brand agent's tools: `create_gamma_presentation` (key check, payload,
 * start request, a poll loop of at most thirty status checks that raises typed
 * Gamma errors, and the two-attempt retry wrapper around it), the
 * `get_brand_guidelines` formatting, the `save_brand_guideline` append rule and
 * the default guidelines. HTTP replies, the guidelines text and the brand voice
 * are passed in.
 */
module BrandAgent {
  import opened Wrappers
  import opened Strings
  import opened Exceptions
  import opened BrandMemory

  // ---------------------------------------------------------------- guidelines

  /** `_get_default_guidelines`. */
  const DefaultGuidelines: string :=
    "Brand Colors: Professional palette (blues, grays, whites)\n"
    + "Tone: Professional, innovative, value-focused\n"
    + "Writing Style: Direct, clear, no corporate jargon\n"
    + "Target Audience: Business decision-makers"

  /** The colour line: up to five colours, else the primary colour, else nothing. */
  function ColorLine(v: BrandVoice): seq<string>
  {
    if v.brandColors != [] then ["Brand Colors: " + Join(Take(v.brandColors, 5), ", ")]
    else if Truthy(v.primaryColor) then ["Primary Color: " + v.primaryColor.value]
    else []
  }

  /** The guideline lines of a voice, in the fixed order, with their caps. */
  function GuidelineParts(v: BrandVoice): seq<string>
  {
    TextLine("Company: ", v.companyName)
    + TextLine("Tagline: ", v.tagline)
    + ColorLine(v)
    + ListLine("Tone: ", v.toneKeywords, ", ")
    + TextLine("Writing Style: ", v.writingStyle)
    + TextLine("Target Audience: ", v.targetAudience)
    + ListLine("Key Messages: ", Take(v.keyMessages, 3), "; ")
    + ListLine("Avoid Phrases: ", Take(v.avoidPhrases, 5), ", ")
    + ListLine("Preferred Phrases: ", Take(v.preferredPhrases, 5), ", ")
    + TextLine("Custom Guidelines: ", v.customGuidelines)
  }

  /** The guidelines text of a voice: its lines, or the defaults when it has none. */
  function GuidelinesText(v: BrandVoice): string
  {
    var parts := GuidelineParts(v);
    if parts == [] then DefaultGuidelines else Join(parts, "\n")
  }

  /** `get_brand_guidelines`, given the voice the brand-memory service returns. */
  function BrandGuidelines(mem0Key: string, voice: BrandVoice): (g: string)
    ensures mem0Key == "" ==> g == DefaultGuidelines
    ensures mem0Key != "" && GuidelineParts(voice) == [] ==> g == DefaultGuidelines
    ensures mem0Key != "" && GuidelineParts(voice) != [] ==> g == Join(GuidelineParts(voice), "\n")
  {
    if mem0Key == "" then DefaultGuidelines else GuidelinesText(voice)
  }

  /** The formatting in `get_brand_guidelines`: the append chain, then the join or the defaults. */
  method GetBrandGuidelines(mem0Key: string, voice: BrandVoice) returns (g: string)
    ensures g == BrandGuidelines(mem0Key, voice)
  {
    if mem0Key == "" {
      return DefaultGuidelines;
    }
    var parts := GuidelineLines(voice);
    g := if parts == [] then DefaultGuidelines else Join(parts, "\n");
  }

  /** The `guidelines_parts.append` chain. */
  method GuidelineLines(v: BrandVoice) returns (parts: seq<string>)
    ensures parts == GuidelineParts(v)
  {
    parts := TextLine("Company: ", v.companyName);
    parts := parts + TextLine("Tagline: ", v.tagline);
    parts := parts + ColorLine(v);
    parts := parts + ListLine("Tone: ", v.toneKeywords, ", ");
    parts := parts + TextLine("Writing Style: ", v.writingStyle);
    parts := parts + TextLine("Target Audience: ", v.targetAudience);
    parts := parts + ListLine("Key Messages: ", Take(v.keyMessages, 3), "; ");
    parts := parts + ListLine("Avoid Phrases: ", Take(v.avoidPhrases, 5), ", ");
    parts := parts + ListLine("Preferred Phrases: ", Take(v.preferredPhrases, 5), ", ");
    parts := parts + TextLine("Custom Guidelines: ", v.customGuidelines);
  }

  lemma TakeOfLonger<T>(xs: seq<T>, extra: seq<T>, n: nat)
    requires |xs| >= n
    ensures Take(xs + extra, n) == Take(xs, n)
  {
    assert (xs + extra)[..n] == xs[..n];
  }

  /** Colours after the fifth never reach the guidelines. */
  lemma ColorsBeyondFiveIgnored(v: BrandVoice, extra: seq<string>)
    requires |v.brandColors| >= 5
    ensures GuidelinesText(v.(brandColors := v.brandColors + extra)) == GuidelinesText(v)
  {
    TakeOfLonger(v.brandColors, extra, 5);
    assert ColorLine(v.(brandColors := v.brandColors + extra)) == ColorLine(v);
  }

  /** Key messages after the third never reach the guidelines. */
  lemma KeyMessagesBeyondThreeIgnored(v: BrandVoice, extra: seq<string>)
    requires |v.keyMessages| >= 3
    ensures GuidelinesText(v.(keyMessages := v.keyMessages + extra)) == GuidelinesText(v)
  {
    TakeOfLonger(v.keyMessages, extra, 3);
  }

  /** Avoided and preferred phrases after the fifth never reach the guidelines. */
  lemma PhrasesBeyondFiveIgnored(v: BrandVoice, avoidExtra: seq<string>, preferExtra: seq<string>)
    requires |v.avoidPhrases| >= 5 && |v.preferredPhrases| >= 5
    ensures GuidelinesText(v.(avoidPhrases := v.avoidPhrases + avoidExtra,
                              preferredPhrases := v.preferredPhrases + preferExtra)) == GuidelinesText(v)
  {
    TakeOfLonger(v.avoidPhrases, avoidExtra, 5);
    TakeOfLonger(v.preferredPhrases, preferExtra, 5);
  }

  /** The primary colour is shown only when there is no colour list. */
  lemma PrimaryColorOnlyWithoutColors(v: BrandVoice, primary: Option<string>)
    ensures v.brandColors != [] ==> GuidelinesText(v.(primaryColor := primary)) == GuidelinesText(v)
    ensures v.brandColors == [] && Truthy(v.primaryColor) ==> "Primary Color: " + v.primaryColor.value in GuidelineParts(v)
  {
    if v.brandColors != [] {
      assert ColorLine(v.(primaryColor := primary)) == ColorLine(v);
    }
  }

  /**
   * With a Mem0 key but no brand memories the service returns its default voice,
   * so the guidelines are that voice's three lines, not the default guidelines.
   */
  lemma DefaultVoiceGuidelines(orgId: string)
    ensures |GuidelineParts(DefaultBrandVoice(orgId))| == 3
    ensures GuidelineParts(DefaultBrandVoice(orgId))[1] == "Writing Style: direct and conversational"
  {
    var v := DefaultBrandVoice(orgId);
    var tone := ListLine("Tone: ", v.toneKeywords, ", ");
    var style := TextLine("Writing Style: ", v.writingStyle);
    var custom := TextLine("Custom Guidelines: ", v.customGuidelines);
    assert |tone| == 1 && style == ["Writing Style: " + "direct and conversational"] && |custom| == 1;
    assert GuidelineParts(v) == tone + style + custom;
    StyleLineText();
  }

  lemma StyleLineText()
    ensures "Writing Style: " + "direct and conversational" == "Writing Style: direct and conversational"
  {
  }

  // ---------------------------------------------------------------- save_brand_guideline

  /** The custom-guidelines update: set when empty, otherwise appended after a blank line. */
  function AppendGuideline(existing: Option<string>, guideline: string): (r: Option<string>)
    ensures r.Some?
    ensures !Truthy(existing) ==> r.value == guideline
    ensures Truthy(existing) ==> StartsWith(r.value, existing.value + "\n\n") && r.value[|existing.value| + 2..] == guideline
  {
    if !Truthy(existing) then Some(guideline) else Some(existing.value + "\n\n" + guideline)
  }

  /** Saving twice keeps both guidelines, in order. */
  lemma AppendGuidelineTwice(existing: Option<string>, first: string, second: string)
    requires first != ""
    ensures AppendGuideline(AppendGuideline(existing, first), second) ==
      Some(AppendGuideline(existing, first).value + "\n\n" + second)
  {
  }

  function SavedMessage(orgId: string, guideline: string): string
  {
    "\U{2705} Brand guideline saved to memory for org " + orgId + ": " + Take(guideline, 100) + "..."
  }

  /**
   * The voice `get_brand_voice` hands back: the default without a client, when
   * the search raises or when it finds nothing, otherwise the parsed memories.
   */
  function StoredVoice(orgId: string, client: bool, reply: SearchReply): (v: BrandVoice)
    ensures v.orgId == orgId
  {
    if !client || reply.SearchRaised? || reply.memories == [] then DefaultBrandVoice(orgId)
    else
      ParseLeavesOtherFields(orgId, reply.memories);
      ParseMemories(orgId, reply.memories)
  }

  /** The stored voice with the new guideline added to its custom guidelines. */
  function GuidelineVoice(orgId: string, client: bool, reply: SearchReply, guideline: string): (v: BrandVoice)
    ensures v.orgId == orgId
    ensures v.customGuidelines == AppendGuideline(StoredVoice(orgId, client, reply).customGuidelines, guideline)
  {
    var stored := StoredVoice(orgId, client, reply);
    stored.(customGuidelines := AppendGuideline(stored.customGuidelines, guideline))
  }

  /** The messages saved for the updated voice end with the guidelines line, which ends with the new guideline. */
  lemma SavedGuidelineIsLast(orgId: string, client: bool, reply: SearchReply, guideline: string)
    requires guideline != ""
    ensures var msgs := BrandMessages(GuidelineVoice(orgId, client, reply, guideline));
            var g := GuidelineVoice(orgId, client, reply, guideline).customGuidelines.value;
            |msgs| > 0 && msgs[|msgs| - 1] == "Brand guideline: " + g
            && g[|g| - |guideline|..] == guideline
  {
    var v := GuidelineVoice(orgId, client, reply, guideline);
    var g := v.customGuidelines.value;
    var msgs := BrandMessages(v);
    var head := msgs[..|msgs| - 1];
    assert msgs == (TextLine("Our company name is ", v.companyName)
      + TextLine("Our tagline is: ", v.tagline)
      + ListLine("Brand colors: ", v.brandColors, ", ")
      + ListLine("Our brand tone is ", v.toneKeywords, ", ")
      + (if Truthy(v.writingStyle) then ["We write in a " + v.writingStyle.value + " style"] else [])
      + TextLine("Our target audience is ", v.targetAudience)
      + KeyMessageLines(v.keyMessages)
      + ListLine("Avoid using: ", v.avoidPhrases, ", ")
      + ListLine("Prefer using: ", v.preferredPhrases, ", "))
      + ["Brand guideline: " + g];
  }

  /**
   * `save_brand_guideline` through the brand-memory service: no Mem0 key is a
   * configuration error; otherwise the stored voice is read, its custom
   * guidelines updated and the voice saved again; a failed save is a Mem0 error.
   */
  method SaveBrandGuideline(mem0Key: string, service: BrandMemoryService, orgId: string, guideline: string,
                            initOk: bool, reply: SearchReply, addOk: nat -> bool)
    returns (r: Result<string, ServiceError>)
    requires service.Valid()
    modifies service
    ensures service.Valid()
    ensures mem0Key == "" ==> r == Failure(BackendErr(Mem0, "Mem0 API key not configured", ConfigMissingEnv, true))
                              && service.added == old(service.added) && service.hasClient == old(service.hasClient)
    ensures mem0Key != "" ==> service.hasClient == (old(service.hasClient) || (Truthy(service.apiKey) && initOk))
    ensures mem0Key != "" && r.Success? ==> r.value == SavedMessage(orgId, guideline)
    ensures mem0Key != "" && r.Failure? ==>
              r.error == BackendErr(Mem0, "BrandMemoryService save returned False", Mem0ApiError, true)
    ensures mem0Key != "" && !service.hasClient ==> r.Failure? && service.added == old(service.added)
    ensures mem0Key != "" && service.hasClient ==>
              var msgs := BrandMessages(GuidelineVoice(orgId, true, reply, guideline));
              var n := AddsBeforeFailure(addOk, |msgs|);
              service.added == old(service.added) + Tagged(UserId(orgId), msgs[..n])
              && (r.Success? <==> n == |msgs|)
  {
    if mem0Key == "" {
      return Failure(BackendErr(Mem0, "Mem0 API key not configured", ConfigMissingEnv, true));
    }
    var voice := service.GetBrandVoice(orgId, initOk, reply);
    voice := voice.(customGuidelines := AppendGuideline(voice.customGuidelines, guideline));
    assert service.hasClient ==> voice == GuidelineVoice(orgId, true, reply, guideline);
    var ok := service.SaveBrandVoice(voice, initOk, addOk);
    if ok {
      r := Success(SavedMessage(orgId, guideline));
    } else {
      r := Failure(BackendErr(Mem0, "BrandMemoryService save returned False", Mem0ApiError, true));
    }
  }

  // ---------------------------------------------------------------- create_gamma_presentation

  /** The JSON body of the generation request. */
  datatype GammaPayload = GammaPayload(
    inputText: string,
    textMode: string,
    format: string,
    numCards: int,
    cardSplit: string,
    tone: string,
    amount: string,
    language: string,
    imageSource: string,
    imageModel: string,
    imageStyle: string,
    exportAs: string,
    themeId: Option<string>)

  /** The prompt sent to Gamma: the caller's prompt, then the brand guidelines. */
  function EnrichedInput(prompt: string, guidelines: string): (r: string)
    ensures StartsWith(r, prompt)
    ensures r[|prompt|..] == "\n\nBrand Guidelines:\n" + guidelines
  {
    prompt + "\n\nBrand Guidelines:\n" + guidelines
  }

  function BuildPayload(prompt: string, guidelines: string, themeId: Option<string>, numCards: int,
                        format: string, tone: string, imageStyle: string): (p: GammaPayload)
    ensures p.inputText == EnrichedInput(prompt, guidelines)
    ensures p.themeId.Some? <==> Truthy(themeId)
    ensures p.themeId.Some? ==> p.themeId == themeId
    ensures p.format == format && p.numCards == numCards && p.tone == tone && p.imageStyle == imageStyle
  {
    GammaPayload(EnrichedInput(prompt, guidelines), "generate", format, numCards, "auto", tone, "detailed", "en",
                 "aiGenerated", "flux-1-pro", imageStyle, "pdf", if Truthy(themeId) then themeId else None)
  }

  /** The reply to the generation request. */
  datatype StartReply =
    | Started(id: Option<string>)
    | StartHttpError(code: int, text: string)
    | StartTimeout
    | StartRaised(text: string)

  /** The reply to one status check. */
  datatype StatusReply =
    | Status(status: Option<string>, gammaUrl: Option<string>, pdfUrl: Option<string>, error: Option<string>)
    | StatusHttpError(code: int, text: string)
    | StatusTimeout
    | StatusRaised(text: string)

  /** `for attempt in range(30)`. */
  const MaxPolls: nat := 30

  const MissingKeyError: ServiceError := ProviderErr(Gamma, "Gamma API key not configured", ConfigMissingEnv, false, None)
  const NoJobIdError: ServiceError := ProviderErr(Gamma, "No job ID returned from Gamma", GammaApiError, true, None)
  const PollTimeoutError: ServiceError := ProviderErr(Gamma, "Generation timed out after 2.5 minutes", GammaTimeout, true, None)
  const RequestTimeoutError: ServiceError := ProviderErr(Gamma, "Request timed out", GammaTimeout, true, None)

  function UnexpectedError(text: string): ServiceError
  {
    ProviderErr(Gamma, "Unexpected error: " + text, GammaApiError, true, None)
  }

  /** The `httpx.HTTPStatusError` handler: 401, 429 and 402 have their own codes. */
  function HttpStatusError(status: int, text: string): (e: ServiceError)
    ensures e.errorClass == Gamma && e.status == 502
    ensures status == 401 ==> e.code == AuthInvalidKey && !e.retryable
    ensures status == 429 ==> e.code == GammaRateLimit && e.retryable && e.retryAfterSeconds == Some(60)
    ensures status == 402 ==> e.code == GammaCredits && !e.retryable
    ensures status !in {401, 429, 402} ==>
              e.code == GammaApiError && e.retryable && e.retryAfterSeconds.None?
              && e.message == "Gamma API error (" + IntToString(status) + "): " + Take(text, 200)
  {
    if status == 401 then ProviderErr(Gamma, "Invalid Gamma API key", AuthInvalidKey, false, None)
    else if status == 429 then ProviderErr(Gamma, "Gamma rate limit exceeded", GammaRateLimit, true, Some(60))
    else if status == 402 then ProviderErr(Gamma, "Insufficient Gamma credits", GammaCredits, false, None)
    else ProviderErr(Gamma, "Gamma API error (" + IntToString(status) + "): " + Take(text, 200), GammaApiError, true, None)
  }

  /** Python `str.capitalize()`, ASCII only. */
  function Capitalize(s: string): (r: string)
    ensures |r| == |s|
    ensures |s| > 0 ==> r[0] == UpperChar(s[0])
    ensures forall i :: 1 <= i < |s| ==> r[i] == LowerChar(s[i])
  {
    if s == "" then "" else [UpperChar(s[0])] + Lower(s[1..])
  }

  /** Upper-casing an upper-cased character, or one lower-cased first, gives the upper-cased character. */
  lemma UpperCharStable(c: char)
    ensures UpperChar(UpperChar(c)) == UpperChar(c) && UpperChar(LowerChar(c)) == UpperChar(c)
  {
  }

  /** Capitalizing ignores the case the text came in, so applying it twice changes nothing more. */
  lemma CapitalizeIdempotent(s: string)
    ensures Capitalize(Capitalize(s)) == Capitalize(s)
    ensures Capitalize(Lower(s)) == Capitalize(s)
  {
    if s != "" {
      var c := Capitalize(s);
      UpperCharStable(s[0]);
      assert Lower(c[1..]) == Lower(s[1..]) by {
        forall i | 0 <= i < |s| - 1
          ensures Lower(c[1..])[i] == Lower(s[1..])[i]
        {
          assert LowerChar(LowerChar(s[i + 1])) == LowerChar(s[i + 1]);
        }
      }
      assert Lower(s)[1..] == Lower(s[1..]);
      assert Lower(Lower(s)[1..]) == Lower(s[1..]) by {
        forall i | 0 <= i < |s| - 1
          ensures Lower(Lower(s)[1..])[i] == Lower(s[1..])[i]
        {
          assert LowerChar(LowerChar(s[i + 1])) == LowerChar(s[i + 1]);
        }
      }
    }
  }

  /** The first two lines of the completion text: the header and the view line. */
  function CompletedHead(format: string, gammaUrl: Option<string>): string
  {
    "\U{2705} " + Capitalize(format) + " created successfully!\n" + "View: " + Show(gammaUrl) + "\n"
  }

  /** The text returned on completion: a header, the view line, and a PDF line only when there is a PDF. */
  function CompletedText(format: string, gammaUrl: Option<string>, pdfUrl: Option<string>): (r: string)
    ensures StartsWith(r, CompletedHead(format, gammaUrl))
    ensures !Truthy(pdfUrl) ==> |r| == |CompletedHead(format, gammaUrl)|
    ensures Truthy(pdfUrl) ==> |r| >= |"PDF: " + pdfUrl.value| && r[|r| - |"PDF: " + pdfUrl.value|..] == "PDF: " + pdfUrl.value
  {
    var head := CompletedHead(format, gammaUrl);
    if Truthy(pdfUrl) then
      var line := "PDF: " + pdfUrl.value;
      assert (head + line)[..|head|] == head && (head + line)[|head|..] == line;
      head + line
    else head
  }

  /** A status reply that lets the loop go on: any status other than COMPLETED or FAILED. */
  predicate Pending(reply: StatusReply)
  {
    reply.Status? && reply.status != Some("COMPLETED") && reply.status != Some("FAILED")
  }

  /** How a status reply that ends the loop ends the call. */
  function Terminal(format: string, reply: StatusReply): (r: Result<string, ServiceError>)
    requires !Pending(reply)
    ensures reply.Status? && reply.status == Some("FAILED") ==>
              r.Failure? && !r.error.retryable && r.error.code == GammaApiError
              && r.error.message == "Generation failed: " + reply.error.GetOr("Unknown error")
    ensures r.Success? <==> reply.Status? && reply.status == Some("COMPLETED")
    ensures r.Success? ==> r.value == CompletedText(format, reply.gammaUrl, reply.pdfUrl)
    ensures reply.StatusHttpError? ==> r == Failure(HttpStatusError(reply.code, reply.text))
  {
    match reply
    case Status(status, gammaUrl, pdfUrl, error) =>
      if status == Some("COMPLETED") then Success(CompletedText(format, gammaUrl, pdfUrl))
      else Failure(ProviderErr(Gamma, "Generation failed: " + error.GetOr("Unknown error"), GammaApiError, false, None))
    case StatusHttpError(status, text) => Failure(HttpStatusError(status, text))
    case StatusTimeout => Failure(RequestTimeoutError)
    case StatusRaised(text) => Failure(UnexpectedError(text))
  }

  /** The outcome of the poll loop from attempt `k` on. */
  function PollOutcome(format: string, respond: nat -> StatusReply, k: nat): Result<string, ServiceError>
    requires k <= MaxPolls
    decreases MaxPolls - k
  {
    if k == MaxPolls then Failure(PollTimeoutError)
    else if Pending(respond(k)) then PollOutcome(format, respond, k + 1)
    else Terminal(format, respond(k))
  }

  /** The number of status checks made from attempt `k` on. */
  function PollCount(respond: nat -> StatusReply, k: nat): (n: nat)
    requires k <= MaxPolls
    ensures n <= MaxPolls - k
    decreases MaxPolls - k
  {
    if k == MaxPolls then 0
    else if Pending(respond(k)) then 1 + PollCount(respond, k + 1)
    else 1
  }

  /** The first reply that is not pending decides the outcome, after exactly that many checks. */
  lemma {:induction false} PollStopsAtFirstTerminal(format: string, respond: nat -> StatusReply, i: nat, k: nat)
    requires i <= k < MaxPolls
    requires forall j :: i <= j < k ==> Pending(respond(j))
    requires !Pending(respond(k))
    ensures PollOutcome(format, respond, i) == Terminal(format, respond(k))
    ensures PollCount(respond, i) == k - i + 1
    decreases k - i
  {
    if i < k {
      PollStopsAtFirstTerminal(format, respond, i + 1, k);
    }
  }

  /** Thirty pending replies end in the timeout error after thirty checks. */
  lemma {:induction false} PollExhausted(format: string, respond: nat -> StatusReply, i: nat)
    requires i <= MaxPolls
    requires forall j :: i <= j < MaxPolls ==> Pending(respond(j))
    ensures PollOutcome(format, respond, i) == Failure(PollTimeoutError)
    ensures PollCount(respond, i) == MaxPolls - i
    decreases MaxPolls - i
  {
    if i < MaxPolls {
      PollExhausted(format, respond, i + 1);
    }
  }

  /** A successful poll loop returned the text of a COMPLETED reply. */
  lemma {:induction false} PollSuccessIsCompleted(format: string, respond: nat -> StatusReply, i: nat)
    requires i <= MaxPolls
    requires PollOutcome(format, respond, i).Success?
    ensures exists k :: i <= k < MaxPolls && respond(k).Status? && respond(k).status == Some("COMPLETED")
              && PollOutcome(format, respond, i).value == CompletedText(format, respond(k).gammaUrl, respond(k).pdfUrl)
    decreases MaxPolls - i
  {
    if Pending(respond(i)) {
      PollSuccessIsCompleted(format, respond, i + 1);
    }
  }

  /** The status loop: at most thirty checks; an HTTP error, timeout or exception on any check ends it. */
  method PollGeneration(format: string, respond: nat -> StatusReply) returns (r: Result<string, ServiceError>, polls: nat)
    ensures r == PollOutcome(format, respond, 0)
    ensures polls == PollCount(respond, 0) && polls <= MaxPolls
  {
    var attempt := 0;
    while attempt < MaxPolls
      invariant 0 <= attempt <= MaxPolls
      invariant PollOutcome(format, respond, 0) == PollOutcome(format, respond, attempt)
      invariant PollCount(respond, 0) == attempt + PollCount(respond, attempt)
    {
      var reply := respond(attempt);
      if !Pending(reply) {
        r := Conclude(format, reply);
        return r, attempt + 1;
      }
      attempt := attempt + 1;
    }
    return Failure(PollTimeoutError), MaxPolls;
  }

  /** The body of one status check that ends the loop: return the text, or raise. */
  method Conclude(format: string, reply: StatusReply) returns (r: Result<string, ServiceError>)
    requires !Pending(reply)
    ensures r == Terminal(format, reply)
  {
    match reply
    case StatusHttpError(code, text) =>
      r := Failure(HttpStatusError(code, text));
    case StatusTimeout =>
      r := Failure(RequestTimeoutError);
    case StatusRaised(text) =>
      r := Failure(UnexpectedError(text));
    case Status(status, gammaUrl, pdfUrl, error) =>
      if status == Some("COMPLETED") {
        var result := "\U{2705} " + Capitalize(format) + " created successfully!\n";
        result := result + "View: " + Show(gammaUrl) + "\n";
        if Truthy(pdfUrl) {
          result := result + ("PDF: " + pdfUrl.value);
        }
        r := Success(result);
      } else {
        var message := "Generation failed: " + error.GetOr("Unknown error");
        r := Failure(ProviderErr(Gamma, message, GammaApiError, false, None));
      }
  }

  /** The outcome of one call of `create_gamma_presentation`. */
  function PresentationOutcome(gammaKey: string, format: string, start: StartReply, respond: nat -> StatusReply)
    : Result<string, ServiceError>
  {
    if gammaKey == "" then Failure(MissingKeyError)
    else
      match start
      case StartHttpError(status, text) => Failure(HttpStatusError(status, text))
      case StartTimeout => Failure(RequestTimeoutError)
      case StartRaised(text) => Failure(UnexpectedError(text))
      case Started(id) => if !Truthy(id) then Failure(NoJobIdError) else PollOutcome(format, respond, 0)
  }

  /**
   * One call of `create_gamma_presentation`. Without a key it raises a
   * non-retryable configuration error and sends nothing; otherwise it builds
   * the payload, starts the job and polls it.
   */
  method CreateGammaPresentation(gammaKey: string, prompt: string, themeId: Option<string>, numCards: int,
                                 format: string, tone: string, imageStyle: string, guidelines: string,
                                 start: StartReply, respond: nat -> StatusReply)
    returns (r: Result<string, ServiceError>, payload: Option<GammaPayload>, polls: nat)
    ensures payload.None? <==> gammaKey == ""
    ensures gammaKey == "" ==> r == Failure(MissingKeyError) && !r.error.retryable && r.error.code == ConfigMissingEnv && polls == 0
    ensures payload.Some? ==> payload.value == BuildPayload(prompt, guidelines, themeId, numCards, format, tone, imageStyle)
    ensures r == PresentationOutcome(gammaKey, format, start, respond)
    ensures polls <= MaxPolls
    ensures polls > 0 ==> start.Started? && Truthy(start.id)
  {
    if gammaKey == "" {
      return Failure(MissingKeyError), None, 0;
    }
    var p := BuildPayload(prompt, guidelines, themeId, numCards, format, tone, imageStyle);
    payload := Some(p);
    polls := 0;
    match start
    case StartHttpError(status, text) =>
      r := Failure(HttpStatusError(status, text));
    case StartTimeout =>
      r := Failure(RequestTimeoutError);
    case StartRaised(text) =>
      r := Failure(UnexpectedError(text));
    case Started(id) =>
      if !Truthy(id) {
        r := Failure(NoJobIdError);
      } else {
        r, polls := PollGeneration(format, respond);
      }
  }

  /** What the retry decorator finally yields: a result, or `RetryError` around the last error. */
  datatype ToolOutcome = Returned(text: string) | RetryError(last: ServiceError)

  /** `@retry(stop=stop_after_attempt(2))`: a failed first call is repeated once, whatever the error. */
  function RetriedOutcome(first: Result<string, ServiceError>, second: Result<string, ServiceError>): (o: ToolOutcome)
    ensures first.Success? ==> o == Returned(first.value)
    ensures first.Failure? && second.Success? ==> o == Returned(second.value)
    ensures first.Failure? && second.Failure? ==> o == RetryError(second.error)
  {
    if first.Success? then Returned(first.value)
    else if second.Success? then Returned(second.value)
    else RetryError(second.error)
  }

  /**
   * The tool as the agent calls it: up to two calls, attempt `a` seeing its own
   * guidelines, start reply and status replies. A missing key fails both calls.
   */
  method CreateGammaPresentationRetried(gammaKey: string, prompt: string, themeId: Option<string>, numCards: int,
                                        format: string, tone: string, imageStyle: string,
                                        guidelines: nat -> string, start: nat -> StartReply,
                                        respond: nat -> nat -> StatusReply)
    returns (out: ToolOutcome, attempts: nat)
    ensures 1 <= attempts <= 2
    ensures out == RetriedOutcome(PresentationOutcome(gammaKey, format, start(0), respond(0)),
                                  PresentationOutcome(gammaKey, format, start(1), respond(1)))
    ensures attempts == 2 <==> PresentationOutcome(gammaKey, format, start(0), respond(0)).Failure?
    ensures gammaKey == "" ==> attempts == 2 && out == RetryError(MissingKeyError)
  {
    var r, payload, polls := CreateGammaPresentation(gammaKey, prompt, themeId, numCards, format, tone, imageStyle,
                                                     guidelines(0), start(0), respond(0));
    if r.Success? {
      return Returned(r.value), 1;
    }
    var r2, payload2, polls2 := CreateGammaPresentation(gammaKey, prompt, themeId, numCards, format, tone, imageStyle,
                                                        guidelines(1), start(1), respond(1));
    out := if r2.Success? then Returned(r2.value) else RetryError(r2.error);
    attempts := 2;
  }
}
