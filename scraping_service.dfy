/**
 * Website analysis through a Firecrawl-compatible service: single-page scrape,
 * multi-page crawl with job polling, and heuristic extraction of business
 * intelligence from the page text. Every remote reply is an input: `ScrapeReply`
 * for the scrape request, `CrawlSubmit` for the crawl request and
 * `respond(k)` for the k-th status request of a crawl job.
 */
module ScrapingService {
  import opened Wrappers
  import opened Strings
  import opened TextPatterns
  import UrlParse

  /** Extracted business intelligence; every field defaults to empty. */
  datatype BusinessIntelligence = BusinessIntelligence(
    companyName: string,
    industry: string,
    valueProposition: string,
    targetAudience: string,
    productsServices: seq<string>,
    keyFeatures: seq<string>,
    painPointsIdentified: seq<string>,
    competitorsMentioned: seq<string>,
    socialProof: seq<string>,
    techStackHints: seq<string>,
    toneStyle: string,
    rawContent: string)

  /** `BusinessIntelligence()` with every field at its default. */
  const EmptyIntelligence := BusinessIntelligence("", "", "", "", [], [], [], [], [], [], "", "")

  /** One result page of a crawl; `markdown` is absent when the page has no such key. */
  datatype Page = Page(markdown: Option<string>)

  /** The non-empty markdown texts of the pages, in order. */
  function PageContents(pages: seq<Page>): (r: seq<string>)
    ensures |r| <= |pages|
    ensures forall k :: 0 <= k < |r| ==> r[k] != ""
    ensures forall k :: 0 <= k < |pages| && pages[k].markdown.Some? && pages[k].markdown.value != "" ==>
              pages[k].markdown.value in r
    ensures forall k :: 0 <= k < |r| ==> exists j :: 0 <= j < |pages| && pages[j].markdown == Some(r[k])
  {
    if |pages| == 0 then []
    else
      var head := pages[0].markdown;
      var rest := PageContents(pages[1..]);
      assert forall k :: 1 <= k < |pages| ==> pages[k] == pages[1..][k - 1];
      if head.Some? && head.value != "" then [head.value] + rest else rest
  }

  /** One page contributes its text exactly when it has a non-empty one. */
  lemma PageContentsSingle(p: Page)
    ensures PageContents([p]) == if p.markdown.Some? && p.markdown.value != "" then [p.markdown.value] else []
  {
    assert [p][1..] == [];
  }

  /** The texts of two runs of pages are the texts of the first run followed by those of the second: order and repeats are kept. */
  lemma {:induction false} PageContentsConcat(a: seq<Page>, b: seq<Page>)
    ensures PageContents(a + b) == PageContents(a) + PageContents(b)
    decreases |a|
  {
    if |a| > 0 {
      assert (a + b)[0] == a[0] && (a + b)[1..] == a[1..] + b;
      PageContentsConcat(a[1..], b);
    } else {
      assert a + b == b;
    }
  }

  // ---------------------------------------------------------------- scrape_url

  datatype ScrapeReply =
    | ScrapeRaised
      /** HTTP reply; `markdown` is `data.markdown` of the JSON body when present. */
    | ScrapeStatus(status: int, markdown: Option<string>)

  /** `scrape_url`: the page markdown on 200 ("" when the body has none), otherwise nothing. */
  function ScrapeUrl(reply: ScrapeReply): (r: Option<string>)
    ensures r.Some? <==> reply.ScrapeStatus? && reply.status == 200
    ensures r.Some? ==> r.value == reply.markdown.GetOr("")
  {
    match reply
    case ScrapeRaised => None
    case ScrapeStatus(status, markdown) => if status == 200 then Some(markdown.GetOr("")) else None
  }

  /** `[content] if content else []` — the single-page fallback of a crawl. */
  function SinglePage(reply: ScrapeReply): (r: seq<string>)
    ensures |r| <= 1
    ensures forall k :: 0 <= k < |r| ==> r[k] != ""
  {
    match ScrapeUrl(reply)
    case None => []
    case Some(c) => if c != "" then [c] else []
  }

  // ---------------------------------------------------------------- crawl polling

  datatype CrawlPoll =
    | PollRaised
      /** HTTP reply; `jobStatus` is the body's `status`, `pages` its `data` list. */
    | PollStatus(status: int, jobStatus: Option<string>, pages: seq<Page>)

  /** A status reply that ends the polling: HTTP 200 with job status "completed" or "failed". */
  predicate IsTerminal(reply: CrawlPoll)
  {
    reply.PollStatus? && reply.status == 200
    && (reply.jobStatus == Some("completed") || reply.jobStatus == Some("failed"))
  }

  /** What a terminal reply yields: the page texts when completed, nothing when failed. */
  function TerminalContents(reply: CrawlPoll): seq<string>
  {
    if reply.PollStatus? && reply.jobStatus == Some("completed") then PageContents(reply.pages) else []
  }

  /** Polling from the k-th status request on: (contents, number of requests issued in total). */
  function CrawlPollFrom(respond: nat -> CrawlPoll, k: nat, maxAttempts: nat): (seq<string>, nat)
    decreases maxAttempts - k
  {
    if k >= maxAttempts then ([], maxAttempts)
    else if IsTerminal(respond(k)) then (TerminalContents(respond(k)), k + 1)
    else CrawlPollFrom(respond, k + 1, maxAttempts)
  }

  /**
   * Polling issues at most `maxAttempts` requests, stops at the first terminal reply and
   * returns what it yields; if no reply among the first `maxAttempts` is terminal it
   * issues exactly `maxAttempts` requests and returns nothing.
   */
  lemma {:induction false} CrawlPollFromSpec(respond: nat -> CrawlPoll, k: nat, maxAttempts: nat)
    requires k <= maxAttempts
    ensures var (contents, requests) := CrawlPollFrom(respond, k, maxAttempts);
            && k <= requests <= maxAttempts
            && (forall j :: k <= j < requests - 1 ==> !IsTerminal(respond(j)))
            && (if requests > k && IsTerminal(respond(requests - 1))
                then contents == TerminalContents(respond(requests - 1))
                else requests == maxAttempts && contents == []
                     && forall j :: k <= j < maxAttempts ==> !IsTerminal(respond(j)))
    decreases maxAttempts - k
  {
    if k < maxAttempts && !IsTerminal(respond(k)) {
      CrawlPollFromSpec(respond, k + 1, maxAttempts);
    }
  }

  /** `_poll_crawl_job`: one status request per attempt; a non-200 reply or an error just moves on. */
  method PollCrawlJob(respond: nat -> CrawlPoll, maxAttempts: nat) returns (contents: seq<string>, requests: nat)
    ensures (contents, requests) == CrawlPollFrom(respond, 0, maxAttempts)
    ensures requests <= maxAttempts
  {
    var attempt := 0;
    while attempt < maxAttempts
      invariant attempt <= maxAttempts
      invariant CrawlPollFrom(respond, attempt, maxAttempts) == CrawlPollFrom(respond, 0, maxAttempts)
    {
      var reply := respond(attempt);
      if reply.PollStatus? && reply.status == 200 {
        if reply.jobStatus == Some("completed") {
          return PageContents(reply.pages), attempt + 1;
        } else if reply.jobStatus == Some("failed") {
          return [], attempt + 1;
        }
      }
      attempt := attempt + 1;
    }
    CrawlPollFromSpec(respond, 0, maxAttempts);
    return [], maxAttempts;
  }

  /** The default number of crawl status checks. */
  const CrawlMaxAttempts: nat := 30

  // ---------------------------------------------------------------- crawl_website

  datatype CrawlSubmit =
    | SubmitRaised
      /** HTTP reply; `jobId` is present when the body has an "id" key, `pages` is its `data` list. */
    | SubmitStatus(status: int, jobId: Option<string>, pages: seq<Page>)

  /** The pages a crawl yields, and how many status requests it issued. */
  function CrawlContents(submit: CrawlSubmit, fallback: ScrapeReply, respond: nat -> CrawlPoll): (seq<string>, nat)
  {
    match submit
    case SubmitRaised => (SinglePage(fallback), 0)
    case SubmitStatus(status, jobId, pages) =>
      if status != 200 then (SinglePage(fallback), 0)
      else if jobId.Some? then CrawlPollFrom(respond, 0, CrawlMaxAttempts)
      else (PageContents(pages), 0)
  }

  /**
   * A failed submission falls back to one scrape: the result then has at most one page,
   * and no returned page is ever empty.
   */
  lemma CrawlFallbackAtMostOnePage(submit: CrawlSubmit, fallback: ScrapeReply, respond: nat -> CrawlPoll)
    ensures var (contents, requests) := CrawlContents(submit, fallback, respond);
            && (forall k :: 0 <= k < |contents| ==> contents[k] != "")
            && requests <= CrawlMaxAttempts
            && (submit.SubmitRaised? || submit.status != 200 ==>
                  |contents| <= 1 && requests == 0 && contents == SinglePage(fallback))
  {
    var (c, n) := CrawlPollFrom(respond, 0, CrawlMaxAttempts);
    CrawlPollFromSpec(respond, 0, CrawlMaxAttempts);
    if n > 0 && IsTerminal(respond(n - 1)) {
      var reply := respond(n - 1);
      if reply.jobStatus == Some("completed") {
        assert c == PageContents(reply.pages);
      }
    }
  }

  /** `crawl_website`: submit a crawl; poll an asynchronous job; fall back to one scrape on failure. */
  method CrawlWebsite(submit: CrawlSubmit, fallback: ScrapeReply, respond: nat -> CrawlPoll)
    returns (contents: seq<string>, pollRequests: nat)
    ensures (contents, pollRequests) == CrawlContents(submit, fallback, respond)
  {
    match submit
    case SubmitRaised =>
      contents, pollRequests := SinglePage(fallback), 0;
    case SubmitStatus(status, jobId, pages) =>
      if status != 200 {
        contents, pollRequests := SinglePage(fallback), 0;
      } else if jobId.Some? {
        contents, pollRequests := PollCrawlJob(respond, CrawlMaxAttempts);
      } else {
        contents, pollRequests := PageContents(pages), 0;
      }
  }

  // ---------------------------------------------------------------- extraction tables

  const IndustryTable: seq<(string, seq<string>)> := [
    ("saas", ["saas", "software", "platform", "cloud", "api", "integration"]),
    ("ecommerce", ["shop", "store", "cart", "checkout", "products", "shipping"]),
    ("agency", ["agency", "marketing", "digital", "creative", "campaigns"]),
    ("consulting", ["consulting", "advisory", "strategy", "solutions"]),
    ("healthcare", ["health", "medical", "patient", "care", "clinical"]),
    ("fintech", ["finance", "payment", "banking", "invest", "crypto"]),
    ("education", ["learning", "course", "training", "education", "students"]),
    ("real estate", ["property", "real estate", "housing", "rental", "mortgage"])
  ]

  const PainIndicators: seq<string> := [
    "struggling with", "challenge", "problem", "difficult", "pain point",
    "frustrated", "time-consuming", "expensive", "complex", "outdated"
  ]

  const CorporateWords: seq<string> := ["enterprise", "fortune 500", "corporate"]
  const StartupWords: seq<string> := ["startup", "disrupt", "innovative"]
  const CasualWords: seq<string> := ["fun", "love", "awesome", "\U{1F680}"]

  /** The social-proof patterns, in the order their matches are collected. */
  const ProofPatterns: seq<Pattern> := [Phrase("trusted by "), CountNoun, Phrase("used by "), Phrase("featured in ")]

  const TechHints: seq<string> := [
    "react", "vue", "angular", "shopify", "wordpress", "hubspot",
    "salesforce", "stripe", "aws", "google cloud", "azure"
  ]

  // ---------------------------------------------------------------- extraction specifications

  /** The first label of the host, title-cased: `netloc.replace("www.", "").split(".")[0].title()`. */
  function CompanyNameHint(netloc: string): string
  {
    Title(FirstLabel(netloc), false)
  }

  function FirstLabel(netloc: string): string
  {
    Split(ReplaceAll(netloc, "www.", ""), '.')[0]
  }

  lemma {:induction false} TitleLowerInvariant(s: string, prevCased: bool)
    ensures Lower(Title(s, prevCased)) == Lower(s)
    decreases |s|
  {
    if |s| > 0 {
      TitleLowerInvariant(s[1..], IsAsciiLetter(s[0]));
      assert Title(s, prevCased)[1..] == Title(s[1..], IsAsciiLetter(s[0]));
      assert Lower(Title(s, prevCased))[1..] == Lower(Title(s, prevCased)[1..]);
      assert Lower(s)[1..] == Lower(s[1..]);
    }
  }

  /**
   * The company-name hint depends on the URL only; it is the first label of the host
   * (without "www.") up to letter case, and it never contains a '.'.
   */
  lemma CompanyNameHintSpec(netloc: string)
    ensures Lower(CompanyNameHint(netloc)) == Lower(FirstLabel(netloc))
    ensures '.' !in CompanyNameHint(netloc)
  {
    TitleLowerInvariant(FirstLabel(netloc), false);
    SplitPiecesFree(ReplaceAll(netloc, "www.", ""), '.');
  }

  /** A line is a pain point when it mentions an indicator (ignoring case) and is under 200 characters. */
  predicate IsPainLine(line: string)
  {
    ContainsAny(Lower(line), PainIndicators) && |line| < 200
  }

  /** The stripped pain-point lines, in order. */
  function PainLines(lines: seq<string>): (r: seq<string>)
    ensures |r| <= |lines|
  {
    if |lines| == 0 then []
    else
      var last := lines[|lines| - 1];
      PainLines(lines[..|lines| - 1]) + (if IsPainLine(last) then [Strip(last)] else [])
  }

  /** `e` is the stripped text of a qualifying line of `lines`. */
  predicate FromPainLine(lines: seq<string>, e: string)
  {
    exists j :: 0 <= j < |lines| && IsPainLine(lines[j]) && e == Strip(lines[j])
  }

  /** Every collected pain point is a stripped line that qualifies. */
  lemma {:induction false} PainLinesFromLines(lines: seq<string>)
    ensures forall k :: 0 <= k < |PainLines(lines)| ==> FromPainLine(lines, PainLines(lines)[k])
  {
    if |lines| > 0 {
      var init := lines[..|lines| - 1];
      PainLinesFromLines(init);
      var last := lines[|lines| - 1];
      assert PainLines(lines) == PainLines(init) + (if IsPainLine(last) then [Strip(last)] else []);
      forall k | 0 <= k < |PainLines(lines)|
        ensures FromPainLine(lines, PainLines(lines)[k])
      {
        if k < |PainLines(init)| {
          var j :| 0 <= j < |init| && IsPainLine(init[j]) && PainLines(init)[k] == Strip(init[j]);
          assert lines[j] == init[j];
        } else {
          assert IsPainLine(lines[|lines| - 1]) && PainLines(lines)[k] == Strip(lines[|lines| - 1]);
        }
      }
    }
  }

  /** The social-proof matches of the first `n` patterns: at most two per pattern. */
  function SocialProof(lower: string, pats: seq<Pattern>): (r: seq<string>)
    ensures |r| <= 2 * |pats|
  {
    if |pats| == 0 then []
    else SocialProof(lower, pats[..|pats| - 1]) + Take(FindAll(pats[|pats| - 1], lower, 0), 2)
  }

  /** The feature captures: at most the first five matches, each stripped. */
  function StripAll(xs: seq<string>): (r: seq<string>)
    ensures |r| == |xs|
    ensures forall k :: 0 <= k < |xs| ==> r[k] == Strip(xs[k])
  {
    seq(|xs|, k requires 0 <= k < |xs| => Strip(xs[k]))
  }

  /** Some keyword of the `k`-th industry entry occurs in the text. */
  predicate IndustryMatches(lower: string, k: nat)
    requires k < |IndustryTable|
  {
    ContainsAny(lower, IndustryTable[k].1)
  }

  /** The industry of the first table entry from `k` on whose keywords occur, or "" when none does. */
  function FirstIndustry(lower: string, k: nat): string
    requires k <= |IndustryTable|
    decreases |IndustryTable| - k
  {
    if k == |IndustryTable| then ""
    else if IndustryMatches(lower, k) then IndustryTable[k].0
    else FirstIndustry(lower, k + 1)
  }

  /** No industry exactly when no entry matches; otherwise the name of the first entry that does. */
  lemma {:induction false} FirstIndustryIsFirst(lower: string, k: nat)
    requires k <= |IndustryTable|
    ensures FirstIndustry(lower, k) == "" <==> forall j :: k <= j < |IndustryTable| ==> !IndustryMatches(lower, j)
    ensures FirstIndustry(lower, k) != "" ==>
              exists m :: k <= m < |IndustryTable| && IndustryTable[m].0 == FirstIndustry(lower, k) && IndustryMatches(lower, m)
                          && forall j :: k <= j < m ==> !IndustryMatches(lower, j)
    decreases |IndustryTable| - k
  {
    if k < |IndustryTable| {
      IndustryNamesNonEmpty();
      if !IndustryMatches(lower, k) {
        FirstIndustryIsFirst(lower, k + 1);
      }
    }
  }

  /** The tone: the first word list that matches decides, else "professional". */
  function ToneOf(lower: string): (tone: string)
    ensures ContainsAny(lower, CorporateWords) ==> tone == "corporate, enterprise"
    ensures !ContainsAny(lower, CorporateWords) && ContainsAny(lower, StartupWords) ==> tone == "tech-forward, startup"
    ensures tone == "professional" <==>
              !ContainsAny(lower, CorporateWords) && !ContainsAny(lower, StartupWords) && !ContainsAny(lower, CasualWords)
  {
    if ContainsAny(lower, CorporateWords) then "corporate, enterprise"
    else if ContainsAny(lower, StartupWords) then "tech-forward, startup"
    else if ContainsAny(lower, CasualWords) then "casual, friendly"
    else "professional"
  }

  /** The record `_extract_intelligence` builds from the text and the URL's network location. */
  function Extracted(content: string, netloc: string): BusinessIntelligence
  {
    var lower := Lower(content);
    BusinessIntelligence(
      CompanyNameHint(netloc), FirstIndustry(lower, 0), "", "", [],
      StripAll(Take(FindAll(FeatureIntro, content, 0), 5)),
      Take(PainLines(Split(content, '\n')), 3),
      [], SocialProof(lower, ProofPatterns), WordsFound(lower, TechHints), ToneOf(lower), "")
  }

  /**
   * What the extracted record holds: the company name comes from the URL alone; the
   * industry is the first table entry with a keyword in the text; pain points are the
   * first three qualifying lines; social proof takes up to two matches of each pattern
   * in order; technology hints keep vocabulary order; features are the first five
   * captures, stripped; the fields the heuristics do not fill stay empty.
   */
  lemma ExtractedFields(content: string, netloc: string)
    ensures var intel := Extracted(content, netloc);
      var lower := Lower(content);
      && intel.companyName == CompanyNameHint(netloc)
      && (intel.industry == "" <==> forall k :: 0 <= k < |IndustryTable| ==> !IndustryMatches(lower, k))
      && (intel.industry != "" ==>
            exists k :: 0 <= k < |IndustryTable| && IndustryTable[k].0 == intel.industry && IndustryMatches(lower, k)
                        && forall j :: 0 <= j < k ==> !IndustryMatches(lower, j))
      && intel.painPointsIdentified == Take(PainLines(Split(content, '\n')), 3)
      && intel.socialProof == SocialProof(lower, ProofPatterns)
      && intel.techStackHints == WordsFound(lower, TechHints)
      && intel.keyFeatures == StripAll(Take(FindAll(FeatureIntro, content, 0), 5))
      && intel.valueProposition == "" && intel.targetAudience == "" && intel.rawContent == ""
      && intel.productsServices == [] && intel.competitorsMentioned == []
  {
    FirstIndustryIsFirst(Lower(content), 0);
  }

  // ---------------------------------------------------------------- _extract_intelligence

  /** `_extract_intelligence`. Fails only when the URL cannot be parsed; otherwise the record above. */
  method ExtractIntelligence(content: string, url: string) returns (r: Option<BusinessIntelligence>)
    ensures r.None? <==> UrlParse.Split(url).None?
    ensures r.Some? ==> r.value == Extracted(content, UrlParse.Split(url).value.netloc)
  {
    var parsed := UrlParse.Split(url);
    if parsed.None? {
      return None;
    }
    var companyName := CompanyNameHint(parsed.value.netloc);
    var lower := Lower(content);
    var industry := DetectIndustry(lower);
    var pains := CollectPainPoints(Split(content, '\n'));
    var tone :=
      if ContainsAny(lower, CorporateWords) then "corporate, enterprise"
      else if ContainsAny(lower, StartupWords) then "tech-forward, startup"
      else if ContainsAny(lower, CasualWords) then "casual, friendly"
      else "professional";
    var proof := CollectSocialProof(lower);
    var tech := CollectTechHints(lower);
    var features := CollectFeatures(content);
    r := Some(BusinessIntelligence(companyName, industry, "", "", [], features, pains, [], proof, tech, tone, ""));
  }

  lemma IndustryNamesNonEmpty()
    ensures forall m :: 0 <= m < |IndustryTable| ==> IndustryTable[m].0 != ""
  {
    forall m | 0 <= m < |IndustryTable|
      ensures IndustryTable[m].0 != ""
    {
      assert IndustryTable[m].0 in {"saas", "ecommerce", "agency", "consulting", "healthcare", "fintech", "education", "real estate"};
    }
  }

  /** The industry loop: the first table entry with a keyword in the text, or "". */
  method DetectIndustry(lower: string) returns (industry: string)
    ensures industry == FirstIndustry(lower, 0)
  {
    industry := "";
    var k := 0;
    while k < |IndustryTable|
      invariant 0 <= k <= |IndustryTable|
      invariant industry == ""
      invariant FirstIndustry(lower, k) == FirstIndustry(lower, 0)
    {
      if ContainsAny(lower, IndustryTable[k].1) {
        industry := IndustryTable[k].0;
        return;
      }
      k := k + 1;
    }
  }

  /** One more line adds its stripped text exactly when it qualifies. */
  lemma PainLinesSnoc(lines: seq<string>, i: nat)
    requires i < |lines|
    ensures PainLines(lines[..i + 1]) == PainLines(lines[..i]) + (if IsPainLine(lines[i]) then [Strip(lines[i])] else [])
  {
    assert lines[..i + 1][..i] == lines[..i];
  }

  /** The pain-point loop: qualifying lines, stopping once three are collected. */
  method CollectPainPoints(lines: seq<string>) returns (pains: seq<string>)
    ensures pains == Take(PainLines(lines), 3)
  {
    pains := [];
    var i := 0;
    while i < |lines| && |pains| < 3
      invariant 0 <= i <= |lines|
      invariant pains == PainLines(lines[..i]) && |pains| <= 3
    {
      PainLinesSnoc(lines, i);
      if IsPainLine(lines[i]) {
        pains := pains + [Strip(lines[i])];
      }
      i := i + 1;
    }
    if |pains| == 3 {
      TakeStable(lines, i);
    } else {
      assert lines[..i] == lines;
    }
  }

  /** The social-proof loop: up to two matches of each pattern, in pattern order. */
  method CollectSocialProof(lower: string) returns (proof: seq<string>)
    ensures proof == SocialProof(lower, ProofPatterns)
  {
    proof := [];
    var p := 0;
    while p < |ProofPatterns|
      invariant 0 <= p <= |ProofPatterns|
      invariant proof == SocialProof(lower, ProofPatterns[..p])
    {
      assert ProofPatterns[..p + 1][..p] == ProofPatterns[..p];
      var matches := FindAll(ProofPatterns[p], lower, 0);
      proof := proof + Take(matches, 2);
      p := p + 1;
    }
    assert ProofPatterns[..|ProofPatterns|] == ProofPatterns;
  }

  /** The technology loop: every hint that occurs, in vocabulary order. */
  method CollectTechHints(lower: string) returns (tech: seq<string>)
    ensures tech == WordsFound(lower, TechHints)
  {
    tech := [];
    var t := 0;
    while t < |TechHints|
      invariant 0 <= t <= |TechHints|
      invariant tech == WordsFound(lower, TechHints[..t])
    {
      assert TechHints[..t + 1][..t] == TechHints[..t];
      if Contains(lower, TechHints[t]) {
        tech := tech + [TechHints[t]];
      }
      t := t + 1;
    }
    assert TechHints[..|TechHints|] == TechHints;
  }

  /** The feature loop: the first five captures of the feature pattern, stripped. */
  method CollectFeatures(content: string) returns (features: seq<string>)
    ensures features == StripAll(Take(FindAll(FeatureIntro, content, 0), 5))
  {
    features := StripEach(Take(FindAll(FeatureIntro, content, 0), 5));
  }

  /** The loop over the captures: each one stripped, in order. */
  method StripEach(captures: seq<string>) returns (stripped: seq<string>)
    ensures stripped == StripAll(captures)
  {
    stripped := [];
    var f := 0;
    while f < |captures|
      invariant 0 <= f <= |captures|
      invariant stripped == StripAll(captures[..f])
    {
      StripAllSnoc(captures, f);
      stripped := stripped + [Strip(captures[f])];
      f := f + 1;
    }
    assert captures[..|captures|] == captures;
  }

  /** Stripping one more capture appends its stripped text. */
  lemma StripAllSnoc(xs: seq<string>, f: nat)
    requires f < |xs|
    ensures StripAll(xs[..f + 1]) == StripAll(xs[..f]) + [Strip(xs[f])]
  {
    var a, b := StripAll(xs[..f + 1]), StripAll(xs[..f]) + [Strip(xs[f])];
    assert |a| == |b|;
    forall k | 0 <= k < |a|
      ensures a[k] == b[k]
    {
      if k < f {
        assert xs[..f + 1][k] == xs[..f][k];
      }
    }
  }

  lemma TakeOfExtended(a: seq<string>, b: seq<string>, k: nat)
    requires k <= |a|
    ensures Take(a + b, k) == Take(a, k)
  {
    assert (a + b)[..k] == a[..k];
  }

  /** Once three pain points are collected, later lines do not change the first three. */
  lemma {:induction false} TakeStable(lines: seq<string>, n: nat)
    requires n <= |lines|
    requires |PainLines(lines[..n])| >= 3
    ensures Take(PainLines(lines), 3) == Take(PainLines(lines[..n]), 3)
    decreases |lines| - n
  {
    if n < |lines| {
      var extra := if IsPainLine(lines[n]) then [Strip(lines[n])] else [];
      PainLinesSnoc(lines, n);
      TakeOfExtended(PainLines(lines[..n]), extra, 3);
      TakeStable(lines, n + 1);
    } else {
      assert lines[..n] == lines;
    }
  }

  /**
   * Bounds on what extraction collects: at most eight social-proof entries and
   * eleven distinct technology hints; each count-pattern
   * entry is a noun, and each feature is the stripped text of a single line.
   */
  lemma ExtractionBounds(content: string)
    ensures |SocialProof(Lower(content), ProofPatterns)| <= 8
    ensures |WordsFound(Lower(content), TechHints)| <= 11
    ensures forall k :: 0 <= k < |FindAll(CountNoun, Lower(content), 0)| ==> FindAll(CountNoun, Lower(content), 0)[k] in CountNouns
    ensures forall k :: 0 <= k < |Take(FindAll(FeatureIntro, content, 0), 5)| ==>
              '\n' !in Take(FindAll(FeatureIntro, content, 0), 5)[k]
  {
    CountNounReportsNoun(Lower(content), 0);
    FeatureCaptureOneLine(content, 0);
  }

  // ---------------------------------------------------------------- analyze_prospect

  const PageSeparator := "\n\n---\n\n"

  /** The text analysed: crawled pages joined by a separator, or the single scraped page. */
  function CombinedContent(deepCrawl: bool, scrape: ScrapeReply, submit: CrawlSubmit, respond: nat -> CrawlPoll): string
  {
    if deepCrawl then Join(CrawlContents(submit, scrape, respond).0, PageSeparator)
    else ScrapeUrl(scrape).GetOr("")
  }

  /**
   * `analyze_prospect`: no content gives the all-empty record; otherwise the extracted
   * record with the first 10000 characters of the text as `raw_content`. `scrape` is the
   * reply to the single-page scrape (or to the crawl's fallback scrape).
   */
  method AnalyzeProspect(url: string, deepCrawl: bool, scrape: ScrapeReply, submit: CrawlSubmit, respond: nat -> CrawlPoll)
    returns (r: Option<BusinessIntelligence>)
    ensures var combined := CombinedContent(deepCrawl, scrape, submit, respond);
            && (combined == "" ==> r == Some(EmptyIntelligence))
            && (combined != "" ==> (r.None? <==> UrlParse.Split(url).None?))
            && (combined != "" && r.Some? ==>
                  r.value == Extracted(combined, UrlParse.Split(url).value.netloc).(rawContent := Take(combined, 10000)))
  {
    var combined: string;
    if deepCrawl {
      var contents, _ := CrawlWebsite(submit, scrape, respond);
      combined := Join(contents, PageSeparator);
    } else {
      var content := ScrapeUrl(scrape);
      combined := content.GetOr("");
    }
    if combined == "" {
      return Some(EmptyIntelligence);
    }
    var intel := ExtractIntelligence(combined, url);
    if intel.None? {
      return None;
    }
    r := Some(intel.value.(rawContent := Take(combined, 10000)));
  }
}
