/**
 * The request-handling logic of the FastAPI backend: the URL security check
 * with its blocklists, the API-key check, the default key of the model
 * catalogue and the proposal endpoint (ordered input validation, optional
 * deep scrape, one agent run and the credit-exhaustion fallback to the free
 * model). The agent runs are oracle replies; the deep scrape calls the
 * scraping model with its own oracles.
 */
module ApiMain {
  import opened Wrappers
  import opened Strings
  import UrlParse
  import opened IpAddress
  import opened ScrapingService
  import opened ProposalAgent

  // ---------------------------------------------------------------- URL security

  /** `BLOCKED_IP_RANGES`: private, loopback and link-local networks of both versions. */
  const BlockedRanges: seq<Network> := [
    Network(false, 0x0A00_0000, 8),
    Network(false, 0xAC10_0000, 12),
    Network(false, 0xC0A8_0000, 16),
    Network(false, 0x7F00_0000, 8),
    Network(false, 0xA9FE_0000, 16),
    Network(true, 1, 128),
    Network(true, 0xFC00_0000_0000_0000_0000_0000_0000_0000, 7),
    Network(true, 0xFE80_0000_0000_0000_0000_0000_0000_0000, 10)
  ]

  /** `BLOCKED_HOSTNAMES`: matched as substrings of the lower-cased host name. */
  const BlockedHostnames: seq<string> := ["localhost", "internal", "metadata", "169.254.169.254"]

  /** The host is an IP literal inside one of the blocked networks. */
  predicate IsBlockedIp(host: string)
  {
    var a := ParseAddress(host);
    a.Some? && exists i :: 0 <= i < |BlockedRanges| && InNetwork(a.value, BlockedRanges[i])
  }

  /** The text of the `ValueError` `urlsplit` raises for an unbalanced '[' or ']'. */
  const InvalidIPv6Url: string := "Invalid IPv6 URL"

  /**
   * `validate_url_security`: (is_valid, error_message). The checks run in order: scheme,
   * hostname, the substring blocklist, then the blocked networks for an IP literal.
   */
  function ValidateUrlSecurity(url: string): (r: (bool, string))
    ensures r.0 <==> r.1 == ""
  {
    match UrlParse.Split(url)
    case None => (false, "URL validation error: " + InvalidIPv6Url)
    case Some(p) =>
      if p.scheme != "http" && p.scheme != "https" then
        (false, "Invalid URL scheme: " + p.scheme + ". Only http/https allowed.")
      else
        match UrlParse.Hostname(p.netloc)
        case None => (false, "Invalid URL: no hostname found")
        case Some(host) =>
          if ContainsAny(Lower(host), BlockedHostnames) then (false, "Blocked hostname: " + host)
          else if IsBlockedIp(host) then (false, "Internal IP address not allowed: " + host)
          else (true, "")
  }

  /**
   * A URL is accepted exactly when it parses with scheme http or https, has a host name,
   * the lower-cased host contains no blocked name, and the host is not an IP literal in a
   * blocked network. In particular a host name that is not an IP literal is accepted as
   * soon as it avoids the blocked names.
   */
  lemma ValidateUrlSecurityAccepts(url: string)
    ensures ValidateUrlSecurity(url).0 <==>
              && UrlParse.Split(url).Some?
              && (UrlParse.Split(url).value.scheme == "http" || UrlParse.Split(url).value.scheme == "https")
              && UrlParse.Hostname(UrlParse.Split(url).value.netloc).Some?
              && (forall k :: 0 <= k < |BlockedHostnames| ==>
                    !Contains(Lower(UrlParse.Hostname(UrlParse.Split(url).value.netloc).value), BlockedHostnames[k]))
              && (ParseAddress(UrlParse.Hostname(UrlParse.Split(url).value.netloc).value).Some? ==>
                    forall i :: 0 <= i < |BlockedRanges| ==>
                      !InNetwork(ParseAddress(UrlParse.Hostname(UrlParse.Split(url).value.netloc).value).value, BlockedRanges[i]))
  {
    match UrlParse.Split(url)
    case None =>
    case Some(p) =>
      match UrlParse.Hostname(p.netloc)
      case None =>
      case Some(host) =>
        HostChecksPass(host);
  }

  /** A host passes the two host checks exactly when it holds no blocked name and is no blocked IP literal. */
  lemma HostChecksPass(host: string)
    ensures (!ContainsAny(Lower(host), BlockedHostnames) && !IsBlockedIp(host)) <==>
              && (forall k :: 0 <= k < |BlockedHostnames| ==> !Contains(Lower(host), BlockedHostnames[k]))
              && (ParseAddress(host).Some? ==>
                    forall i :: 0 <= i < |BlockedRanges| ==> !InNetwork(ParseAddress(host).value, BlockedRanges[i]))
  {
  }

  /** Any host containing a blocked name is rejected with the host in the message, whatever its scheme-valid URL. */
  lemma BlockedNameRejected(url: string, k: nat)
    requires UrlParse.Split(url).Some?
    requires UrlParse.Split(url).value.scheme == "http" || UrlParse.Split(url).value.scheme == "https"
    requires UrlParse.Hostname(UrlParse.Split(url).value.netloc).Some?
    requires k < |BlockedHostnames|
    requires Contains(Lower(UrlParse.Hostname(UrlParse.Split(url).value.netloc).value), BlockedHostnames[k])
    ensures ValidateUrlSecurity(url) == (false, "Blocked hostname: " + UrlParse.Hostname(UrlParse.Split(url).value.netloc).value)
  {
  }

  /** "http://169.254.169.254/" splits into scheme http and that host. */
  lemma MetadataUrlSplit(host: string)
    requires host == "169.254.169.254"
    ensures UrlParse.Split("http" + "://" + host + "/") == Some(UrlParse.SplitUrl("http", host))
  {
    UrlParse.SplitAuthority("http", host, "/");
  }

  /** A host spelled with digits and dots only is its own host name. */
  lemma NumericHostname(host: string)
    requires |host| > 0
    requires forall j :: 0 <= j < |host| ==> host[j] == '.' || '0' <= host[j] <= '9'
    ensures UrlParse.Hostname(host) == Some(host)
  {
    UrlParse.HostnamePlain(host);
    LowerNoop(host);
  }

  /** The metadata host is its own host name. */
  lemma MetadataHostname(host: string)
    requires host == "169.254.169.254"
    ensures UrlParse.Hostname(host) == Some(host)
  {
    NumericHostname(host);
  }

  /** The metadata host holds a blocked name: itself. */
  lemma MetadataHostBlocked(host: string)
    requires host == "169.254.169.254"
    ensures Contains(Lower(host), BlockedHostnames[3])
  {
    LowerNoop(host);
    assert OccursAt(Lower(host), BlockedHostnames[3], 0);
  }

  /** The cloud metadata address is rejected: it is a blocked name itself. */
  lemma MetadataAddressRejected(url: string, host: string)
    requires host == "169.254.169.254" && url == "http" + "://" + host + "/"
    ensures ValidateUrlSecurity(url) == (false, "Blocked hostname: " + host)
  {
    MetadataUrlSplit(host);
    MetadataHostname(host);
    MetadataHostBlocked(host);
    BlockedNameRejected(url, 3);
  }

  /** The network address of a /8 scale: 2 to the 24. */
  lemma Pow2Of24()
    ensures Pow2(24) == 16777216
  {
    assert Pow2(2) == 4;
    assert Pow2(4) == 16;
    assert Pow2(6) == 64;
    assert Pow2(8) == 256;
    assert Pow2(10) == 1024;
    assert Pow2(12) == 4096;
    assert Pow2(14) == 16384;
    assert Pow2(16) == 65536;
    assert Pow2(18) == 262144;
    assert Pow2(20) == 1048576;
    assert Pow2(22) == 4194304;
  }

  /** An address whose top octet is `a` lies in the /8 network with base `a` times 2 to the 24. */
  lemma SlashEightMember(a: nat, low: nat)
    requires low < 16777216
    ensures InNetwork(V4(a * 16777216 + low), Network(false, a * 16777216, 8))
  {
    Pow2Of24();
    assert (a * 16777216 + low) / 16777216 == a;
    assert (a * 16777216) / 16777216 == a;
  }

  /** The value of the dotted quad a.b.c.d has top octet `a`. */
  lemma QuadValueSplit(a: nat, b: nat, c: nat, d: nat)
    requires b < 256 && c < 256 && d < 256
    ensures ((a * 256 + b) * 256 + c) * 256 + d == a * 16777216 + ((b * 256 + c) * 256 + d)
    ensures (b * 256 + c) * 256 + d < 16777216
  {
  }

  /** The dotted quad a.b.c.d parses to the address with top octet `a` and lower bits from b, c and d. */
  lemma DottedQuadAddress(a: nat, b: nat, c: nat, d: nat)
    requires a < 256 && b < 256 && c < 256 && d < 256
    ensures ParseAddress(DottedQuad(a, b, c, d)) == Some(V4(a * 16777216 + ((b * 256 + c) * 256 + d)))
  {
    DottedQuadRoundTrip(a, b, c, d);
    QuadValueSplit(a, b, c, d);
  }

  /** An address with top octet 10 or 127 lies in the first or the fourth blocked network. */
  lemma PrivateOrLoopbackRange(a: nat, low: nat) returns (i: nat)
    requires a == 10 || a == 127
    requires low < 16777216
    ensures i < |BlockedRanges| && InNetwork(V4(a * 16777216 + low), BlockedRanges[i])
  {
    SlashEightMember(a, low);
    i := if a == 10 then 0 else 3;
    if a == 10 {
      assert a * 16777216 == 0x0A00_0000;
    } else {
      assert a * 16777216 == 0x7F00_0000;
    }
  }

  /** Every dotted quad in 10.0.0.0/8 or 127.0.0.0/8 is a blocked IP literal. */
  lemma PrivateAndLoopbackBlocked(a: nat, b: nat, c: nat, d: nat)
    requires a == 10 || a == 127
    requires b < 256 && c < 256 && d < 256
    ensures IsBlockedIp(DottedQuad(a, b, c, d))
  {
    var low := (b * 256 + c) * 256 + d;
    QuadValueSplit(a, b, c, d);
    DottedQuadAddress(a, b, c, d);
    var i := PrivateOrLoopbackRange(a, low);
    BlockedByRange(DottedQuad(a, b, c, d), V4(a * 16777216 + low), i);
  }

  /** The network address scales of a /16 and a /12 network. */
  lemma Pow2Of16And20()
    ensures Pow2(16) == 65536 && Pow2(20) == 1048576
  {
    Pow2Of24();
  }

  /** An address in the upper half of 172.0.0.0/11 lies in the second blocked network, 172.16.0.0/12. */
  lemma SlashTwelveMember(low: nat)
    requires low < 1048576
    ensures InNetwork(V4(0xAC10_0000 + low), BlockedRanges[1])
  {
    Pow2Of16And20();
    assert (0xAC10_0000 + low) / 1048576 == 0xAC1;
  }

  /** An address in one of the two /16 networks lies in the third or the fifth blocked network. */
  lemma SlashSixteenMember(base: nat, low: nat) returns (i: nat)
    requires base == 0xC0A8_0000 || base == 0xA9FE_0000
    requires low < 65536
    ensures i < |BlockedRanges| && InNetwork(V4(base + low), BlockedRanges[i])
  {
    Pow2Of16And20();
    i := if base == 0xC0A8_0000 then 2 else 4;
    assert (base + low) / 65536 == base / 65536;
  }

  /** Every dotted quad in 172.16.0.0/12 is a blocked IP literal. */
  lemma PrivateTwelveBlocked(a: nat, b: nat, c: nat, d: nat)
    requires a == 172 && 16 <= b < 32 && c < 256 && d < 256
    ensures IsBlockedIp(DottedQuad(a, b, c, d))
  {
    var low := (b * 256 + c) * 256 + d;
    QuadValueSplit(a, b, c, d);
    DottedQuadAddress(a, b, c, d);
    assert a * 16777216 + low == 0xAC10_0000 + (low - 1048576);
    SlashTwelveMember(low - 1048576);
    BlockedByRange(DottedQuad(a, b, c, d), V4(a * 16777216 + low), 1);
  }

  /** Every dotted quad in 192.168.0.0/16 or in the link-local 169.254.0.0/16 is a blocked IP literal. */
  lemma PrivateAndLinkLocalBlocked(a: nat, b: nat, c: nat, d: nat)
    requires (a == 192 && b == 168) || (a == 169 && b == 254)
    requires c < 256 && d < 256
    ensures IsBlockedIp(DottedQuad(a, b, c, d))
  {
    var low := (b * 256 + c) * 256 + d;
    QuadValueSplit(a, b, c, d);
    DottedQuadAddress(a, b, c, d);
    var base := if a == 192 then 0xC0A8_0000 else 0xA9FE_0000;
    assert a * 16777216 + low == base + (c * 256 + d);
    var i := SlashSixteenMember(base, c * 256 + d);
    BlockedByRange(DottedQuad(a, b, c, d), V4(a * 16777216 + low), i);
  }

  /** A host that parses to an address inside one of the blocked networks is a blocked IP literal. */
  lemma BlockedByRange(host: string, addr: Address, i: nat)
    requires ParseAddress(host) == Some(addr)
    requires i < |BlockedRanges| && InNetwork(addr, BlockedRanges[i])
    ensures IsBlockedIp(host)
  {
  }

  // ---------------------------------------------------------------- API key

  datatype HttpError = HttpError(status: nat, detail: string)

  /**
   * `verify_key`: 500 when no service key is configured (absent or empty), 403 when the
   * `x-api-key` header is not exactly the service key (a missing header included).
   */
  function VerifyKey(header: Option<string>, serviceKey: Option<string>): (r: Result<(), HttpError>)
    ensures r.Success? <==> Truthy(serviceKey) && header == serviceKey
    ensures r.Failure? ==> (r.error.status == 500 <==> !Truthy(serviceKey))
    ensures r.Failure? ==> r.error.status == 500 || r.error.status == 403
  {
    if !Truthy(serviceKey) then Failure(HttpError(500, "Service misconfigured"))
    else if header != serviceKey then Failure(HttpError(403, "Invalid API Key"))
    else Success(())
  }

  /** A request without the header, or with an empty one, never passes the key check. */
  lemma MissingHeaderRejected(serviceKey: Option<string>)
    ensures VerifyKey(None, serviceKey).Failure? && VerifyKey(Some(""), serviceKey).Failure?
  {
  }

  // ---------------------------------------------------------------- model catalogue

  /** The key of the first catalogue entry whose path is `path`. */
  function FirstKeyFor(models: seq<(string, string)>, path: string): Option<string>
  {
    if |models| == 0 then None
    else if models[0].1 == path then Some(models[0].0)
    else FirstKeyFor(models[1..], path)
  }

  /** `FirstKeyFor` finds a key exactly when some entry has the path, and then the first such entry's key. */
  lemma {:induction false} FirstKeyForSpec(models: seq<(string, string)>, path: string)
    ensures FirstKeyFor(models, path).Some? <==> exists i :: 0 <= i < |models| && models[i].1 == path
    ensures FirstKeyFor(models, path).Some? ==>
              exists i :: 0 <= i < |models| && models[i] == (FirstKeyFor(models, path).value, path)
                            && forall j :: 0 <= j < i ==> models[j].1 != path
  {
    if |models| > 0 && models[0].1 != path {
      FirstKeyForSpec(models[1..], path);
      var r := FirstKeyFor(models[1..], path);
      if r.Some? {
        var i :| 0 <= i < |models| - 1 && models[1..][i] == (r.value, path)
                  && forall j :: 0 <= j < i ==> models[1..][j].1 != path;
        assert models[i + 1] == (r.value, path);
        assert forall j :: 0 <= j < i + 1 ==> models[j].1 != path by {
          forall j | 0 <= j < i + 1
            ensures models[j].1 != path
          {
            if j > 0 {
              assert models[j] == models[1..][j - 1];
            }
          }
        }
      } else {
        forall i | 0 <= i < |models|
          ensures models[i].1 != path
        {
          if i > 0 {
            assert models[i] == models[1..][i - 1];
          }
        }
      }
    } else if |models| > 0 {
      assert models[0] == (models[0].0, path);
    }
  }

  /** `list_models`: the default key is the first catalogue key whose path is the default model, else "grok". */
  method DefaultModelKey(models: seq<(string, string)>, defaultPath: string) returns (key: string)
    ensures key == FirstKeyFor(models, defaultPath).GetOr("grok")
  {
    key := "grok";
    var i := 0;
    while i < |models|
      invariant 0 <= i <= |models|
      invariant FirstKeyFor(models, defaultPath) == FirstKeyFor(models[i..], defaultPath)
      decreases |models| - i
    {
      if models[i].1 == defaultPath {
        key := models[i].0;
        return;
      }
      assert models[i..][1..] == models[i + 1..];
      i := i + 1;
    }
  }

  /** With the shipped catalogue the default key is "grok". */
  lemma DefaultKeyIsGrok()
    ensures FirstKeyFor(AvailableModels, DefaultModel).GetOr("grok") == "grok"
  {
    assert AvailableModels[0] == ("grok", DefaultModel);
  }

  // ---------------------------------------------------------------- request validation

  predicate IsBlank(s: string)
  {
    Strip(s) == ""
  }

  /** The detail of the unknown-template error, listing the template keys. */
  function InvalidTemplateDetail(): string
  {
    "Invalid template. Available: " + Join(TemplateKeys, ", ")
  }

  /**
   * The input checks of `generate_proposal`, in order: name, URL and pain points
   * non-blank, an http(s):// prefix, the security check, then a known template when one
   * is given. The first failure is the reply.
   */
  function ValidationFailure(req: ProposalRequest): (r: Option<HttpError>)
    ensures r.Some? ==> r.value.status == 400
  {
    if IsBlank(req.prospectName) then Some(HttpError(400, "prospect_name is required"))
    else if IsBlank(req.prospectUrl) then Some(HttpError(400, "prospect_url is required"))
    else if IsBlank(req.painPoints) then Some(HttpError(400, "pain_points is required"))
    else if !StartsWith(req.prospectUrl, "http://") && !StartsWith(req.prospectUrl, "https://") then
      Some(HttpError(400, "prospect_url must be a valid HTTP/HTTPS URL"))
    else if !ValidateUrlSecurity(req.prospectUrl).0 then Some(HttpError(400, ValidateUrlSecurity(req.prospectUrl).1))
    else if Truthy(req.template) && req.template.value !in TemplateKeys then Some(HttpError(400, InvalidTemplateDetail()))
    else None
  }

  /** A request passes validation exactly when every check holds; the model is never checked. */
  lemma ValidationPasses(req: ProposalRequest)
    ensures ValidationFailure(req).None? <==>
              && !IsBlank(req.prospectName) && !IsBlank(req.prospectUrl) && !IsBlank(req.painPoints)
              && (StartsWith(req.prospectUrl, "http://") || StartsWith(req.prospectUrl, "https://"))
              && ValidateUrlSecurity(req.prospectUrl).0
              && (Truthy(req.template) ==> req.template.value in TemplateKeys)
    ensures forall m :: ValidationFailure(req.(model := m)) == ValidationFailure(req)
  {
  }

  /** The checks are ordered: a blank name is the reply whatever else is wrong with the request. */
  lemma BlankNameFirst(req: ProposalRequest)
    requires IsBlank(req.prospectName)
    ensures ValidationFailure(req) == Some(HttpError(400, "prospect_name is required"))
  {
  }

  // ---------------------------------------------------------------- credit exhaustion

  /**
   * `is_402_error`, on the error's `str` and `repr`: the text mentions status 402 or a
   * credit shortage (ignoring case), or the repr carries a 402 code.
   */
  predicate Is402(errorText: string, errorRepr: string)
  {
    || Contains(errorText, "status_code: 402")
    || Contains(errorText, "402")
    || Contains(Lower(errorText), "requires more credits")
    || Contains(Lower(errorText), "can only afford")
    || Contains(errorRepr, "'code': 402")
    || Contains(errorRepr, "\"code\": 402")
  }

  /** A text containing `sub` contains every piece of `sub`. */
  lemma ContainsInner(s: string, sub: string, i: nat, j: nat)
    requires i <= j <= |sub|
    requires Contains(s, sub)
    ensures Contains(s, sub[i..j])
  {
    var k :| 0 <= k <= |s| - |sub| && OccursAt(s, sub, k);
    assert forall t :: i <= t < j ==> sub[t] == s[k + t];
    assert s[k + i..k + j] == sub[i..j];
    assert OccursAt(s, sub[i..j], k + i);
  }

  /** The "status_code: 402" test is subsumed by the plain "402" test. */
  lemma Is402Simplified(errorText: string, errorRepr: string)
    ensures Is402(errorText, errorRepr) <==>
              || Contains(errorText, "402")
              || Contains(Lower(errorText), "requires more credits")
              || Contains(Lower(errorText), "can only afford")
              || Contains(errorRepr, "'code': 402")
              || Contains(errorRepr, "\"code\": 402")
  {
    if Contains(errorText, "status_code: 402") {
      ContainsInner(errorText, "status_code: 402", 13, 16);
      assert "status_code: 402"[13..16] == "402";
    }
  }

  /** The fallback condition: a model was requested and it is not one of the free Grok names. */
  predicate FallbackAllowed(model: Option<string>)
  {
    Truthy(model) && model.value != "grok" && model.value != "grok-fast" && model.value != DefaultModel
  }

  /** An agent run: the structured output, a result without output data, or an exception. */
  datatype AgentReply = Output(output: ProposalOutput) | NoOutput | Raised(text: string, repr: string)

  const NoOutputText: string := "Could not access result data - check pydantic-ai version"

  /** `str` of the error an agent run ends with. */
  function ErrorText(reply: AgentReply): string
  {
    match reply
    case Raised(t, _) => t
    case _ => NoOutputText
  }

  /** `repr` of the error an agent run ends with. */
  function ErrorRepr(reply: AgentReply): string
  {
    match reply
    case Raised(_, r) => r
    case _ => "ValueError('" + NoOutputText + "')"
  }

  const CreditsUrl: string := "https://openrouter.ai/settings/credits"

  /** The 402 detail after a failed fallback. */
  function FallbackFailedDetail(errorText: string): string
  {
    "Insufficient OpenRouter credits. Requested model requires more credits than available. Error: "
    + errorText + ". Please upgrade your OpenRouter account at " + CreditsUrl + " or use the free 'grok' model."
  }

  /** The 402 detail when no fallback is tried. */
  function NoFallbackDetail(errorText: string): string
  {
    "Insufficient OpenRouter credits. Error: " + errorText + ". Please upgrade your OpenRouter account at " + CreditsUrl
  }

  function AgentFailedDetail(errorText: string): string
  {
    "Failed to generate proposal content: " + errorText
  }

  // ---------------------------------------------------------------- the endpoint

  /** The success body of `generate_proposal`. */
  datatype ProposalResponse = ProposalResponse(
    data: ProposalOutput,
    presentationUrl: Option<string>,
    pdfUrl: Option<string>,
    pptxUrl: Option<string>,
    modelUsed: string,
    templateUsed: string,
    deepScrapeEnabled: bool)

  function OrDefault(o: Option<string>, default: string): (r: string)
    ensures Truthy(o) ==> r == o.value
    ensures !Truthy(o) ==> r == default
  {
    if Truthy(o) then o.value else default
  }

  /**
   * The deep-scrape step: the prospect analysis with crawling, its record handed on as is
   * (a record is always truthy). An exception inside the analysis, `None` here, leaves the
   * intelligence unset and the request goes on.
   */
  method DeepScrape(url: string, scrape: ScrapeReply, submit: CrawlSubmit, respond: nat -> CrawlPoll)
    returns (intel: Option<BusinessIntelligence>)
    ensures intel.Some? ==> |intel.value.rawContent| <= 10000
    ensures CombinedContent(true, scrape, submit, respond) == "" ==> intel == Some(EmptyIntelligence)
    ensures CombinedContent(true, scrape, submit, respond) != "" ==> (intel.None? <==> UrlParse.Split(url).None?)
  {
    intel := AnalyzeProspect(url, true, scrape, submit, respond);
  }

  /**
   * The steps before the agent runs: the deep scrape when the request asks for it (no
   * intelligence otherwise), then the prompt from the request and that intelligence.
   */
  method PrepareRun(req: ProposalRequest, scrape: ScrapeReply, submit: CrawlSubmit, respond: nat -> CrawlPoll)
    returns (intel: Option<BusinessIntelligence>, prompt: string)
    ensures !req.deepScrape ==> intel.None?
    ensures intel.Some? ==> req.deepScrape && |intel.value.rawContent| <= 10000
    ensures prompt == EnrichedPrompt(req.prospectName, req.prospectUrl, req.painPoints, intel, OrDefault(req.template, "default"))
  {
    intel := None;
    if req.deepScrape {
      intel := DeepScrape(req.prospectUrl, scrape, submit, respond);
    }
    prompt := BuildEnrichedPrompt(req.prospectName, req.prospectUrl, req.painPoints, intel,
                                  OrDefault(req.template, "default"));
  }

  /**
   * The agent step of `generate_proposal`: a run on the requested model and, when it fails
   * for lack of credits and a paid model was asked for, exactly one more run on the free
   * model, with the same prompt. `first` and `retry` are the replies of the two runs;
   * `runs` lists the model names run on, in order.
   */
  method RunWithFallback(requested: Option<string>, first: AgentReply, retry: AgentReply)
    returns (r: Result<ProposalOutput, HttpError>, runs: seq<string>)
    ensures 1 <= |runs| <= 2 && runs[0] == ResolveModelName(requested)
    ensures |runs| == 2 <==> (!first.Output? && Is402(ErrorText(first), ErrorRepr(first)) && FallbackAllowed(requested))
    ensures |runs| == 2 ==> runs[1] == ResolveModelName(Some("grok"))
    ensures first.Output? ==> r == Success(first.output)
    ensures !first.Output? && !Is402(ErrorText(first), ErrorRepr(first)) ==>
              r == Failure(HttpError(500, AgentFailedDetail(ErrorText(first))))
    ensures !first.Output? && Is402(ErrorText(first), ErrorRepr(first)) && !FallbackAllowed(requested) ==>
              r == Failure(HttpError(402, NoFallbackDetail(ErrorText(first))))
    ensures |runs| == 2 ==>
              r == if retry.Output? then Success(retry.output) else Failure(HttpError(402, FallbackFailedDetail(ErrorText(first))))
  {
    runs := [ResolveModelName(requested)];
    if first.Output? {
      return Success(first.output), runs;
    }
    var errorText := ErrorText(first);
    if !Is402(errorText, ErrorRepr(first)) {
      return Failure(HttpError(500, AgentFailedDetail(errorText))), runs;
    }
    if !FallbackAllowed(requested) {
      return Failure(HttpError(402, NoFallbackDetail(errorText))), runs;
    }
    runs := runs + [ResolveModelName(Some("grok"))];
    if retry.Output? {
      r := Success(retry.output);
    } else {
      r := Failure(HttpError(402, FallbackFailedDetail(errorText)));
    }
  }

  /**
   * The agent step and the reply of `generate_proposal`: the runs with their credit
   * fallback, then the success body built from the output, the requested model and
   * template and the deep-scrape flag.
   */
  method AgentStep(req: ProposalRequest, first: AgentReply, retry: AgentReply)
    returns (r: Result<ProposalResponse, HttpError>, runs: seq<string>)
    ensures 1 <= |runs| <= 2 && runs[0] == ResolveModelName(req.model)
    // exactly one retry, on the free model, iff the first run ran out of credits and a paid model was requested
    ensures |runs| == 2 <==> !first.Output? && Is402(ErrorText(first), ErrorRepr(first)) && FallbackAllowed(req.model)
    ensures |runs| == 2 ==> runs[1] == ResolveModelName(Some("grok"))
    // a failed generation is a 402 for credit errors and a 500 otherwise
    ensures r.Failure? ==>
              && !first.Output?
              && (r.error.status == 402 <==> Is402(ErrorText(first), ErrorRepr(first)))
              && (r.error.status == 500 <==> !Is402(ErrorText(first), ErrorRepr(first)))
    // the success reply
    ensures r.Success? <==> first.Output? || (|runs| == 2 && retry.Output?)
    ensures r.Success? ==>
              && r.value.data == (if first.Output? then first.output else retry.output)
              && r.value.presentationUrl.None? && r.value.pdfUrl.None? && r.value.pptxUrl.None?
              && r.value.modelUsed == OrDefault(req.model, DefaultModel)
              && r.value.templateUsed == OrDefault(req.template, "default")
              && r.value.deepScrapeEnabled == req.deepScrape
  {
    var outcome;
    outcome, runs := RunWithFallback(req.model, first, retry);
    match outcome
    case Failure(e) =>
      r := Failure(e);
    case Success(data) =>
      r := Success(ProposalResponse(data, None, None, None, OrDefault(req.model, DefaultModel),
                                    OrDefault(req.template, "default"), req.deepScrape));
  }

  /**
   * `generate_proposal` once the input checks have passed: the optional deep scrape, the
   * prompt, the agent step and the success body. `scrape`, `submit` and `respond` answer
   * the deep scrape's Firecrawl calls; `first` is the reply of the run on the requested
   * model and `retry` that of the run on the free model; every run is given the same
   * prompt. Returns the reply, the model names run on in order, the intelligence handed
   * to the prompt and the prompt.
   */
  method GenerateValidated(req: ProposalRequest, scrape: ScrapeReply, submit: CrawlSubmit, respond: nat -> CrawlPoll,
                           first: AgentReply, retry: AgentReply)
    returns (r: Result<ProposalResponse, HttpError>, runs: seq<string>, intel: Option<BusinessIntelligence>,
             prompt: string)
    ensures 1 <= |runs| <= 2 && runs[0] == ResolveModelName(req.model)
    ensures prompt == EnrichedPrompt(req.prospectName, req.prospectUrl, req.painPoints, intel, OrDefault(req.template, "default"))
    ensures !req.deepScrape ==> intel.None?
    // exactly one retry, on the free model, iff the first run ran out of credits and a paid model was requested
    ensures |runs| == 2 <==> !first.Output? && Is402(ErrorText(first), ErrorRepr(first)) && FallbackAllowed(req.model)
    ensures |runs| == 2 ==> runs[1] == ResolveModelName(Some("grok"))
    // a failed generation is a 402 for credit errors and a 500 otherwise
    ensures r.Failure? ==>
              && !first.Output?
              && (r.error.status == 402 <==> Is402(ErrorText(first), ErrorRepr(first)))
              && (r.error.status == 500 <==> !Is402(ErrorText(first), ErrorRepr(first)))
    // the success reply
    ensures r.Success? <==> first.Output? || (|runs| == 2 && retry.Output?)
    ensures r.Success? ==>
              && r.value.data == (if first.Output? then first.output else retry.output)
              && r.value.presentationUrl.None? && r.value.pdfUrl.None? && r.value.pptxUrl.None?
              && r.value.modelUsed == OrDefault(req.model, DefaultModel)
              && r.value.templateUsed == OrDefault(req.template, "default")
              && r.value.deepScrapeEnabled == req.deepScrape
  {
    intel, prompt := PrepareRun(req, scrape, submit, respond);
    r, runs := AgentStep(req, first, retry);
  }


  /**
   * `generate_proposal` after the key check: the input checks, and on success the rest of
   * the request. An invalid request is answered with its 400 before any scrape or agent
   * run; `scraped` says whether the deep scrape ran.
   */
  method GenerateProposal(req: ProposalRequest, scrape: ScrapeReply, submit: CrawlSubmit, respond: nat -> CrawlPoll,
                          first: AgentReply, retry: AgentReply)
    returns (r: Result<ProposalResponse, HttpError>, runs: seq<string>, scraped: bool)
    ensures ValidationFailure(req).Some? ==> r == Failure(ValidationFailure(req).value) && runs == [] && !scraped
    ensures ValidationFailure(req).None? ==> scraped == req.deepScrape && 1 <= |runs| <= 2 && runs[0] == ResolveModelName(req.model)
    ensures |runs| == 2 <==>
              ValidationFailure(req).None? && !first.Output? && Is402(ErrorText(first), ErrorRepr(first))
              && FallbackAllowed(req.model)
    ensures r.Success? ==> ValidationFailure(req).None? && r.value.modelUsed == OrDefault(req.model, DefaultModel)
  {
    var invalid := ValidationFailure(req);
    if invalid.Some? {
      return Failure(invalid.value), [], false;
    }
    scraped := req.deepScrape;
    var intel, prompt;
    r, runs, intel, prompt := GenerateValidated(req, scrape, submit, respond, first, retry);
  }
}
