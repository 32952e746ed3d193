/**
 * The Gamma presentation client (`GammaService`): prompt and pricing
 * formatting, the generation request, and the bounded status poll. Every
 * HTTP exchange is an oracle reply; the five-second sleeps are not modelled.
 * `generate_presentation` never raises: every failure degrades to null URLs.
 */
module GammaService {
  import opened Wrappers
  import opened Strings

  // ---------------------------------------------------------------- results

  /** The three links a finished generation reports; any of them may be absent. */
  datatype Urls = Urls(gammaUrl: Option<string>, pdfUrl: Option<string>, pptxUrl: Option<string>)

  const NullUrls: Urls := Urls(None, None, None)

  /** What `generate_presentation` returns: the URL dict, or only the Gamma link when export URLs are not requested. */
  datatype GammaResult = ExportUrls(urls: Urls) | GammaUrl(url: Option<string>)

  function Present(u: Urls, returnExportUrls: bool): (r: GammaResult)
    ensures returnExportUrls <==> r.ExportUrls?
    ensures r.ExportUrls? ==> r.urls == u
    ensures r.GammaUrl? ==> r.url == u.gammaUrl
  {
    if returnExportUrls then ExportUrls(u) else GammaUrl(u.gammaUrl)
  }

  // ---------------------------------------------------------------- status poll

  /**
   * One status request. `RequestFailed` covers a transport error, a non-2xx
   * status (raised by `raise_for_status`) and a body that is not JSON.
   */
  datatype StatusReply =
    | RequestFailed
    | StatusBody(status: Option<string>, urls: Urls)

  /** A reply that ends the poll: job status "COMPLETED" or "FAILED". */
  predicate IsTerminal(reply: StatusReply)
  {
    reply.StatusBody? && (reply.status == Some("COMPLETED") || reply.status == Some("FAILED"))
  }

  /** The links a terminal reply yields: the body's links when completed, null links when failed. */
  function TerminalUrls(reply: StatusReply): Urls
  {
    if reply.StatusBody? && reply.status == Some("COMPLETED") then reply.urls else NullUrls
  }

  /** Polling from the k-th status request on: (links, number of status requests issued in total). */
  function PollFrom(respond: nat -> StatusReply, k: nat, maxAttempts: nat): (Urls, nat)
    decreases maxAttempts - k
  {
    if k >= maxAttempts then (NullUrls, maxAttempts)
    else if IsTerminal(respond(k)) then (TerminalUrls(respond(k)), k + 1)
    else PollFrom(respond, k + 1, maxAttempts)
  }

  /**
   * The poll issues at most `maxAttempts` requests and stops at the first terminal reply.
   * A completed reply yields exactly its links; a failed one, or running out of attempts
   * (in which case every one of the `maxAttempts` replies was non-terminal), yields null links.
   */
  lemma {:induction false} PollFromSpec(respond: nat -> StatusReply, k: nat, maxAttempts: nat)
    requires k <= maxAttempts
    ensures var (urls, requests) := PollFrom(respond, k, maxAttempts);
            && k <= requests <= maxAttempts
            && (forall j :: k <= j < requests - 1 ==> !IsTerminal(respond(j)))
            && (if requests > k && IsTerminal(respond(requests - 1))
                then urls == TerminalUrls(respond(requests - 1))
                else requests == maxAttempts && urls == NullUrls
                     && forall j :: k <= j < maxAttempts ==> !IsTerminal(respond(j)))
    decreases maxAttempts - k
  {
    if k < maxAttempts && !IsTerminal(respond(k)) {
      PollFromSpec(respond, k + 1, maxAttempts);
    }
  }

  /** The default number of status checks (30 checks, five seconds apart). */
  const MaxPollAttempts: nat := 30

  /** `_poll_for_completion`: one status request per attempt; an error or an unknown status uses up the attempt. */
  method PollForCompletion(respond: nat -> StatusReply, maxAttempts: nat) returns (urls: Urls, requests: nat)
    ensures (urls, requests) == PollFrom(respond, 0, maxAttempts)
    ensures requests <= maxAttempts
  {
    var attempt := 0;
    while attempt < maxAttempts
      invariant attempt <= maxAttempts
      invariant PollFrom(respond, attempt, maxAttempts) == PollFrom(respond, 0, maxAttempts)
    {
      var reply := respond(attempt);
      if reply.StatusBody? {
        if reply.status == Some("COMPLETED") {
          return reply.urls, attempt + 1;
        } else if reply.status == Some("FAILED") {
          return NullUrls, attempt + 1;
        }
      }
      attempt := attempt + 1;
    }
    PollFromSpec(respond, 0, maxAttempts);
    return NullUrls, maxAttempts;
  }

  // ---------------------------------------------------------------- HTTP error log

  /** `_handle_http_error`: the line it logs for a failed generation request; nothing is returned or raised. */
  function HttpErrorLog(status: int, text: string): string
  {
    "Gamma API" + HttpErrorDetail(status, text)
  }

  /** What follows "Gamma API" in the logged line, by status. */
  function HttpErrorDetail(status: int, text: string): string
  {
    if status == 401 then ": Invalid API key"
    else if status == 402 then ": Insufficient credits or subscription required"
    else if status == 429 then ": Rate limit exceeded"
    else if status == 400 then ": Bad request - " + text
    else " HTTP error " + IntText(status) + ": " + text
  }

  /** The line names the Gamma API; a 400 and an unrecognised status carry the error text. */
  lemma HttpErrorLogShape(status: int, text: string)
    ensures StartsWith(HttpErrorLog(status, text), "Gamma API")
    ensures status == 400 ==> HttpErrorLog(status, text) == "Gamma API: Bad request - " + text
    ensures status != 400 && status != 401 && status != 402 && status != 429 ==> Contains(HttpErrorLog(status, text), text)
  {
    var detail := HttpErrorDetail(status, text);
    ConcatParts("Gamma API", detail);
    if status == 400 {
      assert detail == ": Bad request - " + text;
      BadRequestLine(text);
    } else if status != 401 && status != 402 && status != 429 {
      var pre := " HTTP error " + IntText(status) + ": ";
      assert detail == pre + text;
      ConcatParts(pre, text);
      ContainsInLonger("Gamma API", detail, text);
    }
  }

  /** Text contained in the second part of a concatenation is contained in the whole. */
  lemma ContainsInLonger(a: string, b: string, sub: string)
    requires Contains(b, sub)
    ensures Contains(a + b, sub)
  {
    var i :| 0 <= i <= |b| - |sub| && OccursAt(b, sub, i);
    assert (a + b)[|a| + i..|a| + i + |sub|] == b[i..i + |sub|];
    assert OccursAt(a + b, sub, |a| + i);
  }

  lemma BadRequestLine(text: string)
    ensures "Gamma API" + (": Bad request - " + text) == "Gamma API: Bad request - " + text
  {
    assert "Gamma API" + ": Bad request - " == "Gamma API: Bad request - ";
  }

  /** The lines of the four recognised statuses. */
  lemma KnownStatusLines(text: string)
    ensures HttpErrorLog(401, text) == "Gamma API" + ": Invalid API key"
    ensures HttpErrorLog(402, text) == "Gamma API" + ": Insufficient credits or subscription required"
    ensures HttpErrorLog(429, text) == "Gamma API" + ": Rate limit exceeded"
    ensures HttpErrorLog(400, text) == "Gamma API" + (": Bad request - " + text)
  {
  }

  /** The four recognised statuses get four different lines, none of which depends on the error text. */
  lemma HttpErrorLogDistinguishes(text: string, other: string)
    ensures HttpErrorLog(401, text) == HttpErrorLog(401, other)
    ensures HttpErrorLog(402, text) == HttpErrorLog(402, other)
    ensures HttpErrorLog(429, text) == HttpErrorLog(429, other)
    ensures |{HttpErrorLog(401, text), HttpErrorLog(402, text), HttpErrorLog(429, text), HttpErrorLog(400, text)}| == 4
  {
    KnownStatusLines(text);
    KnownStatusLines(other);
    var a, b, c := "Gamma API" + ": Invalid API key", "Gamma API" + ": Insufficient credits or subscription required",
                   "Gamma API" + ": Rate limit exceeded";
    var d := "Gamma API" + (": Bad request - " + text);
    assert a[11] == ": Invalid API key"[2] == 'I';
    assert b[11] == ": Insufficient credits or subscription required"[2] == 'I';
    assert c[11] == ": Rate limit exceeded"[2] == 'R';
    assert d[11] == (": Bad request - " + text)[2] == 'B';
    assert |a| != |b|;
    FourDistinct(a, b, c, d);
  }

  /** Four pairwise different texts make a set of four. */
  lemma FourDistinct(a: string, b: string, c: string, d: string)
    requires a != b && a != c && a != d && b != c && b != d && c != d
    ensures |{a, b, c, d}| == 4
  {
  }

  function IntText(n: int): string
  {
    if n < 0 then "-" + NatToString(-n) else NatToString(n)
  }

  // ---------------------------------------------------------------- pricing tiers

  /** A pricing tier as a dict or model; an absent attribute is `None`. */
  datatype TierInput = TierInput(name: Option<string>, price: Option<string>, features: Option<seq<string>>)

  /** The `investment` value: a list of tiers, or some other value that is falsy or not. */
  datatype Investment = TierList(tiers: seq<TierInput>) | Other(truthy: bool)

  predicate InvestmentTruthy(inv: Investment)
  {
    match inv
    case TierList(tiers) => |tiers| > 0
    case Other(truthy) => truthy
  }

  /** One tier's lines: name (default "Package"), price (default "TBD") and features (default "Custom features"). */
  function TierText(t: TierInput): string
  {
    var features := if t.features.Some? && |t.features.value| > 0 then Join(t.features.value, ", ") else "Custom features";
    "**" + t.name.GetOr("Package") + "** - " + t.price.GetOr("TBD") + "\n  Includes: " + features
  }

  function TierTexts(tiers: seq<TierInput>): (r: seq<string>)
    ensures |r| == |tiers|
    ensures forall i :: 0 <= i < |tiers| ==> r[i] == TierText(tiers[i])
  {
    if |tiers| == 0 then [] else TierTexts(tiers[..|tiers| - 1]) + [TierText(tiers[|tiers| - 1])]
  }

  /** The pricing section of the prompt. */
  function PricingText(inv: Investment): string
  {
    if !InvestmentTruthy(inv) then "Contact us for custom pricing."
    else if inv.Other? then "Contact us for pricing."
    else Join(TierTexts(inv.tiers), "\n\n")
  }

  /** `_format_pricing_tiers`: one entry per tier, appended in order, then joined by blank lines. */
  method FormatPricingTiers(inv: Investment) returns (text: string)
    ensures text == PricingText(inv)
  {
    if !InvestmentTruthy(inv) {
      return "Contact us for custom pricing.";
    }
    var lines: seq<string> := [];
    if inv.TierList? {
      var i := 0;
      while i < |inv.tiers|
        invariant 0 <= i <= |inv.tiers|
        invariant lines == TierTexts(inv.tiers[..i])
      {
        assert inv.tiers[..i + 1][..i] == inv.tiers[..i];
        lines := lines + [TierText(inv.tiers[i])];
        i := i + 1;
      }
      assert inv.tiers[..i] == inv.tiers;
    }
    text := if |lines| > 0 then Join(lines, "\n\n") else "Contact us for pricing.";
  }

  /** The pricing section distinguishes the falsy, non-list and list cases, and fills every default. */
  lemma PricingTextCases(inv: Investment)
    ensures !InvestmentTruthy(inv) ==> PricingText(inv) == "Contact us for custom pricing."
    ensures inv.Other? && inv.truthy ==> PricingText(inv) == "Contact us for pricing."
    ensures inv.TierList? && |inv.tiers| == 1 ==> PricingText(inv) == TierText(inv.tiers[0])
  {
  }

  /** A tier with no attributes, or with an empty feature list, gets every default. */
  lemma TierTextDefaults(features: Option<seq<string>>)
    requires features.None? || features == Some([])
    ensures TierText(TierInput(None, None, features)) == "**Package** - TBD\n  Includes: Custom features"
  {
    assert TierText(TierInput(None, None, features)) == "**" + "Package" + "** - " + "TBD" + "\n  Includes: " + "Custom features";
    DefaultTierLiteral();
  }

  /** The default tier text, piece by piece. */
  lemma DefaultTierLiteral()
    ensures "**" + "Package" + "** - " + "TBD" + "\n  Includes: " + "Custom features" == "**Package** - TBD\n  Includes: Custom features"
  {
    assert "**" + "Package" + "** - " == "**Package** - ";
    assert "**Package** - " + "TBD" + "\n  Includes: " == "**Package** - TBD\n  Includes: ";
  }

  /** With two or more tiers the section is the first tier, a blank line, then the rest. */
  lemma PricingTextJoinsTiers(tiers: seq<TierInput>)
    requires |tiers| >= 2
    ensures PricingText(TierList(tiers)) == TierText(tiers[0]) + "\n\n" + PricingText(TierList(tiers[1..]))
  {
    var texts := TierTexts(tiers);
    assert texts[1..] == TierTexts(tiers[1..]);
  }

  // ---------------------------------------------------------------- prompt

  /** The proposal fields the prompt reads; `None` is a missing key. */
  datatype ProposalData = ProposalData(
    prospectName: Option<string>,
    executiveSummary: Option<string>,
    currentSituation: Option<string>,
    proposedStrategy: Option<string>,
    whyUs: Option<string>,
    investment: Option<Investment>,
    nextSteps: Option<string>)

  /** The seven slide headings, in deck order. */
  const SlideHeadings: seq<string> := [
    "Title", "Executive Summary", "Understanding Your Situation", "Our Proposed Strategy",
    "Why Partner With Us", "Investment Options", "Next Steps"
  ]

  function ProspectName(data: ProposalData): string
  {
    data.prospectName.GetOr("Client")
  }

  /** The body text under each of the seven headings. */
  function SlideBodies(data: ProposalData): (r: seq<string>)
    ensures |r| == |SlideHeadings|
  {
    var p := ProspectName(data);
    [ "Title: \"Strategic Proposal for " + p + "\"\nSubtitle: \"Transforming Your Digital Presence\"",
      data.executiveSummary.GetOr(""),
      data.currentSituation.GetOr(""),
      data.proposedStrategy.GetOr(""),
      data.whyUs.GetOr(""),
      PricingText(data.investment.GetOr(TierList([]))),
      data.nextSteps.GetOr("") ]
  }

  function SlideHeader(i: nat): string
    requires i < |SlideHeadings|
  {
    "## Slide " + NatToString(i + 1) + ": " + SlideHeadings[i]
  }

  /** The rendered slides: header line, then body. */
  function Slides(data: ProposalData): (r: seq<string>)
    ensures |r| == |SlideHeadings|
  {
    var bodies := SlideBodies(data);
    seq(|SlideHeadings|, i requires 0 <= i < |SlideHeadings| => SlideHeader(i) + "\n" + bodies[i])
  }

  const DesignNotes: string :=
    "Design Notes:\n- Use a professional, modern aesthetic\n- Include relevant imagery for each section\n"
    + "- Use icons and visual hierarchy for pricing tiers\n- End with a clear call-to-action"

  /** `_construct_proposal_prompt`. */
  function ProposalPrompt(data: ProposalData): (prompt: string)
    ensures StartsWith(prompt, "Create a professional sales proposal presentation for " + ProspectName(data) + ".\n\n")
  {
    var intro := "Create a professional sales proposal presentation for " + ProspectName(data) + ".\n\n";
    var rest := Join(Slides(data), "\n\n") + "\n\n" + DesignNotes;
    assert (intro + rest)[..|intro|] == intro;
    intro + rest
  }

  /**
   * The prompt lists the seven slides in fixed order, each under its numbered heading,
   * with the proposal's own sections as bodies; a missing prospect name reads "Client".
   */
  lemma ProposalPromptSlides(data: ProposalData)
    ensures |Slides(data)| == 7
    ensures forall i :: 0 <= i < 7 ==> StartsWith(Slides(data)[i], SlideHeader(i) + "\n")
    ensures Slides(data)[1] == SlideHeader(1) + "\n" + data.executiveSummary.GetOr("")
    ensures Slides(data)[5] == SlideHeader(5) + "\n" + PricingText(data.investment.GetOr(TierList([])))
    ensures Slides(data)[6] == SlideHeader(6) + "\n" + data.nextSteps.GetOr("")
    ensures data.prospectName.None? ==>
              StartsWith(ProposalPrompt(data), "Create a professional sales proposal presentation for Client.\n\n")
    ensures SlideHeader(0) == "## Slide 1: Title" && SlideHeader(6) == "## Slide 7: Next Steps"
  {
    var s := Slides(data);
    forall i | 0 <= i < 7
      ensures StartsWith(s[i], SlideHeader(i) + "\n")
    {
      assert s[i] == SlideHeader(i) + "\n" + SlideBodies(data)[i];
    }
    FirstAndLastHeader();
    if data.prospectName.None? {
      ClientIntroLiteral();
    }
  }

  /** The opening line for a proposal without a prospect name. */
  lemma ClientIntroLiteral()
    ensures "Create a professional sales proposal presentation for " + "Client" + ".\n\n"
            == "Create a professional sales proposal presentation for Client.\n\n"
  {
  }

  /** The first and the last slide headings, with their numbers. */
  lemma FirstAndLastHeader()
    ensures SlideHeader(0) == "## Slide 1: Title" && SlideHeader(6) == "## Slide 7: Next Steps"
  {
    assert NatToString(1) == "1" && NatToString(7) == "7";
  }

  // ---------------------------------------------------------------- generation

  /** The generation request body sent to `/generations`. */
  datatype GenerationPayload = GenerationPayload(
    inputText: string,
    textMode: string,
    format: string,
    numCards: int,
    cardSplit: string,
    tone: string,
    amount: string,
    language: string,
    imageSource: string,
    imageModel: string,
    imageStyle: string,
    exportAs: string,
    themeId: Option<string>)

  function BuildPayload(data: ProposalData, format: string, numCards: int, themeId: Option<string>): (p: GenerationPayload)
    ensures p.inputText == ProposalPrompt(data) && p.format == format && p.numCards == numCards
    ensures p.themeId.Some? <==> themeId.Some? && themeId.value != ""
    ensures p.themeId.Some? ==> p.themeId == themeId
  {
    GenerationPayload(
      ProposalPrompt(data), "generate", format, numCards, "auto",
      "professional, persuasive", "detailed", "en",
      "aiGenerated", "flux-1-pro", "professional, modern, clean", "pdf",
      if themeId.Some? && themeId.value != "" then themeId else None)
  }

  /** Reply to the generation request. */
  datatype SubmitReply =
    | SubmitTimeout
      /** Any other exception, including a body that is not JSON. */
    | SubmitRaised
      /** An HTTP reply; `jobId` is the body's "id" when present. */
    | SubmitResponse(status: int, text: string, jobId: Option<string>)

  predicate IsSuccess(status: int)
  {
    200 <= status < 300
  }

  /** What a generation comes to: the links, and the number of HTTP requests issued in total. */
  function GenerationOutcome(apiKey: string, data: ProposalData, format: string, numCards: int, themeId: Option<string>,
                             submit: GenerationPayload -> SubmitReply, respond: nat -> StatusReply): (Urls, nat)
  {
    if apiKey == "" then (NullUrls, 0)
    else
      match submit(BuildPayload(data, format, numCards, themeId))
      case SubmitTimeout => (NullUrls, 1)
      case SubmitRaised => (NullUrls, 1)
      case SubmitResponse(status, _, jobId) =>
        if !IsSuccess(status) || jobId.None? || jobId.value == "" then (NullUrls, 1)
        else
          var (urls, polls) := PollFrom(respond, 0, MaxPollAttempts);
          (urls, 1 + polls)
  }

  /**
   * `generate_presentation` without a key sends nothing; otherwise it sends one generation
   * request and at most 30 status requests. Any link it returns comes from the first terminal
   * status reply, which reported "COMPLETED"; every other path yields null links.
   */
  lemma GenerationOutcomeSpec(apiKey: string, data: ProposalData, format: string, numCards: int, themeId: Option<string>,
                              submit: GenerationPayload -> SubmitReply, respond: nat -> StatusReply)
    ensures var (urls, requests) := GenerationOutcome(apiKey, data, format, numCards, themeId, submit, respond);
            && (apiKey == "" ==> urls == NullUrls && requests == 0)
            && requests <= 1 + MaxPollAttempts
            && (urls != NullUrls ==>
                  && 2 <= requests
                  && respond(requests - 2).StatusBody?
                  && respond(requests - 2).status == Some("COMPLETED")
                  && respond(requests - 2).urls == urls
                  && forall j :: 0 <= j < requests - 2 ==> !IsTerminal(respond(j)))
  {
    if apiKey != "" {
      var reply := submit(BuildPayload(data, format, numCards, themeId));
      if reply.SubmitResponse? && IsSuccess(reply.status) && reply.jobId.Some? && reply.jobId.value != "" {
        PollFromSpec(respond, 0, MaxPollAttempts);
        var polled := PollFrom(respond, 0, MaxPollAttempts);
        assert GenerationOutcome(apiKey, data, format, numCards, themeId, submit, respond) == (polled.0, 1 + polled.1);
      } else {
        assert GenerationOutcome(apiKey, data, format, numCards, themeId, submit, respond) == (NullUrls, 1);
      }
    }
  }

  /**
   * A generation request that is rejected, times out, raises or returns no job id
   * yields null links after exactly one request.
   */
  lemma GenerationFailureIsNull(apiKey: string, data: ProposalData, format: string, numCards: int, themeId: Option<string>,
                                submit: GenerationPayload -> SubmitReply, respond: nat -> StatusReply)
    requires apiKey != ""
    requires var reply := submit(BuildPayload(data, format, numCards, themeId));
             !reply.SubmitResponse? || !IsSuccess(reply.status) || reply.jobId.None? || reply.jobId == Some("")
    ensures GenerationOutcome(apiKey, data, format, numCards, themeId, submit, respond) == (NullUrls, 1)
  {
  }

  /** The client; the key is the constructor argument, or the environment's key when that is empty. */
  class Client {
    const apiKey: string

    constructor (apiKey: string, environmentKey: string)
      ensures this.apiKey == if apiKey != "" then apiKey else environmentKey
    {
      this.apiKey := if apiKey != "" then apiKey else environmentKey;
    }

    /** `generate_presentation`: never raises; returns the links and the number of requests issued. */
    method GeneratePresentation(data: ProposalData, format: string, numCards: int, themeId: Option<string>,
                                returnExportUrls: bool,
                                submit: GenerationPayload -> SubmitReply, respond: nat -> StatusReply)
      returns (result: GammaResult, requests: nat)
      ensures var (urls, n) := GenerationOutcome(apiKey, data, format, numCards, themeId, submit, respond);
              result == Present(urls, returnExportUrls) && requests == n
    {
      if apiKey == "" {
        return Present(NullUrls, returnExportUrls), 0;
      }
      var payload := BuildPayload(data, format, numCards, themeId);
      var reply := submit(payload);
      match reply {
        case SubmitTimeout =>
          return Present(NullUrls, returnExportUrls), 1;
        case SubmitRaised =>
          return Present(NullUrls, returnExportUrls), 1;
        case SubmitResponse(status, text, jobId) =>
          if !IsSuccess(status) {
            var _ := HttpErrorLog(status, text);
            return Present(NullUrls, returnExportUrls), 1;
          }
          if jobId.None? || jobId.value == "" {
            return Present(NullUrls, returnExportUrls), 1;
          }
          var urls, polls := PollForCompletion(respond, MaxPollAttempts);
          return Present(urls, returnExportUrls), 1 + polls;
      }
    }

    /** `list_themes` / `list_folders`: the listed objects, or nothing when there is no key or the request fails. */
    method ListObjects<T>(reply: ListReply<T>) returns (items: seq<T>, requests: nat)
      ensures (items, requests) == ListOutcome(apiKey, reply)
    {
      if apiKey == "" {
        return [], 0;
      }
      match reply {
        case ListFailed => return [], 1;
        case ListBody(found) => return found.GetOr([]), 1;
      }
    }
  }

  /** Reply to a themes or folders request; `ListFailed` is any error, including a non-2xx status. */
  datatype ListReply<T> = ListFailed | ListBody(found: Option<seq<T>>)

  function ListOutcome<T>(apiKey: string, reply: ListReply<T>): (seq<T>, nat)
  {
    if apiKey == "" then ([], 0)
    else if reply.ListFailed? || reply.found.None? then ([], 1)
    else (reply.found.value, 1)
  }

  /** The listing never fails: without a key no request goes out, and any failure lists nothing. */
  lemma ListOutcomeSpec<T>(apiKey: string, reply: ListReply<T>)
    ensures var (items, requests) := ListOutcome(apiKey, reply);
            && (requests == 0 <==> apiKey == "")
            && requests <= 1
            && (items != [] ==> apiKey != "" && reply == ListBody(Some(items)))
  {
  }
}
