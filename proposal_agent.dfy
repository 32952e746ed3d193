/**
 * The proposal agent's deterministic parts: the request and output shapes,
 * the model catalogue and model-name resolution, the template guidance, and
 * the enriched user prompt built from the request and the website analysis.
 * The language-model agent itself is not part of this model.
 */
module ProposalAgent {
  import opened Wrappers
  import opened Strings
  import opened ScrapingService

  // ---------------------------------------------------------------- shapes

  /** `ProposalRequest`; an absent or null optional field is `None`, a null `deep_scrape` is `false`. */
  datatype ProposalRequest = ProposalRequest(
    prospectName: string,
    prospectUrl: string,
    painPoints: string,
    model: Option<string>,
    template: Option<string>,
    deepScrape: bool,
    tone: Option<string>)

  datatype PricingTier = PricingTier(name: string, price: string, features: seq<string>)

  /** `ProposalOutput`: `investment` is any list of tiers; its length is not constrained. */
  datatype ProposalOutput = ProposalOutput(
    executiveSummary: string,
    currentSituation: string,
    proposedStrategy: string,
    whyUs: string,
    investment: seq<PricingTier>,
    nextSteps: string)

  // ---------------------------------------------------------------- models

  /** `AVAILABLE_MODELS`, in declaration order: catalogue key and OpenRouter model path. */
  const AvailableModels: seq<(string, string)> := [
    ("grok", "x-ai/grok-4.1-fast:free"),
    ("grok-fast", "x-ai/grok-4.1-fast:free"),
    ("gpt-4o", "openai/gpt-4o"),
    ("gpt-4o-mini", "openai/gpt-4o-mini"),
    ("claude-sonnet", "anthropic/claude-3.5-sonnet"),
    ("claude-haiku", "anthropic/claude-3-haiku"),
    ("gemini-pro", "google/gemini-pro-1.5"),
    ("deepseek", "deepseek/deepseek-chat")
  ]

  const DefaultModel: string := "x-ai/grok-4.1-fast:free"

  const DefaultMaxTokens: nat := 2000

  /** `AVAILABLE_MODELS.get(key)`. */
  function LookupModel(key: string, models: seq<(string, string)>): (r: Option<string>)
    ensures r.Some? <==> exists i :: 0 <= i < |models| && models[i].0 == key
    ensures r.Some? ==> exists i :: 0 <= i < |models| && models[i] == (key, r.value)
  {
    if |models| == 0 then None
    else if models[0].0 == key then Some(models[0].1)
    else
      var r := LookupModel(key, models[1..]);
      assert forall i :: 1 <= i < |models| ==> models[i] == models[1..][i - 1];
      r
  }

  /** Every catalogue path is in provider/model form. */
  lemma CataloguePathsHaveSlash()
    ensures forall i :: 0 <= i < |AvailableModels| ==> '/' in AvailableModels[i].1 && '/' !in AvailableModels[i].0
    ensures '/' in DefaultModel
  {
    assert DefaultModel[4] == '/';
  }

  /**
   * The model name `get_proposal_agent` uses: the catalogue path for a known key, the
   * override itself otherwise, with a first ':' turned into '/' when the name has no '/'.
   * No override (absent or empty) means the default model.
   */
  function ResolveModelName(modelOverride: Option<string>): string
  {
    if !Truthy(modelOverride) then DefaultModel
    else
      var name := LookupModel(modelOverride.value, AvailableModels).GetOr(modelOverride.value);
      if ':' in name && '/' !in name then ReplaceFirst(name, ':', '/') else name
  }

  /** All the cases of model resolution. */
  lemma ResolveModelNameSpec(modelOverride: Option<string>)
    ensures !Truthy(modelOverride) ==> ResolveModelName(modelOverride) == DefaultModel
    ensures Truthy(modelOverride) && LookupModel(modelOverride.value, AvailableModels).Some? ==>
              ResolveModelName(modelOverride) == LookupModel(modelOverride.value, AvailableModels).value
    ensures Truthy(modelOverride) && LookupModel(modelOverride.value, AvailableModels).None? && '/' in modelOverride.value ==>
              ResolveModelName(modelOverride) == modelOverride.value
    ensures Truthy(modelOverride) && LookupModel(modelOverride.value, AvailableModels).None? && '/' !in modelOverride.value ==>
              ResolveModelName(modelOverride) == ReplaceFirst(modelOverride.value, ':', '/')
    ensures ResolveModelName(modelOverride) != ""
  {
    CataloguePathsHaveSlash();
    if Truthy(modelOverride) {
      var r := LookupModel(modelOverride.value, AvailableModels);
      if r.Some? {
        var i :| 0 <= i < |AvailableModels| && AvailableModels[i] == (modelOverride.value, r.value);
        assert '/' in r.value;
      }
    }
  }

  /** A resolved name resolves to itself: resolution is idempotent. */
  lemma ResolveModelNameIdempotent(modelOverride: Option<string>)
    ensures ResolveModelName(Some(ResolveModelName(modelOverride))) == ResolveModelName(modelOverride)
  {
    CataloguePathsHaveSlash();
    ResolveModelNameSpec(modelOverride);
    var name := ResolveModelName(modelOverride);
    ResolveModelNameSpec(Some(name));
    if '/' !in name {
      // Only a verbatim override without '/' or ':' that names no catalogue entry gets here.
      assert Truthy(modelOverride) && LookupModel(modelOverride.value, AvailableModels).None?;
      assert name == ReplaceFirst(modelOverride.value, ':', '/');
      assert ':' !in modelOverride.value && name == modelOverride.value;
    }
  }

  // ---------------------------------------------------------------- templates

  /** The keys of `PROPOSAL_TEMPLATES`, in declaration order. */
  const TemplateKeys: seq<string> := ["default", "consultative", "enterprise", "startup", "agency"]

  /** The heading of a template's guidance; any unknown key gets the default template's. */
  function TemplateTitle(templateKey: string): (title: string)
    ensures |title| > 0
  {
    match templateKey
    case "consultative" => "Consultative Advisor"
    case "enterprise" => "Enterprise Professional"
    case "startup" => "Startup Partner"
    case "agency" => "Agency Partnership"
    case _ => "Trojan Horse (Default)"
  }

  /** The bullet points of a template's guidance; any unknown key gets the default template's. */
  function TemplateBullets(templateKey: string): seq<string>
  {
    match templateKey
    case "consultative" => [
      "Position yourself as a trusted expert, not a vendor",
      "Spend more time on diagnosis (Current Situation section should be longer)",
      "Use educational language to build understanding",
      "Softer close - focus on helping them make the right decision",
      "Include questions that help them think through the problem"]
    case "enterprise" => [
      "Formal, data-driven language",
      "Include ROI projections and metrics where possible",
      "Reference similar enterprise clients (without names)",
      "Emphasize scalability, security, and process",
      "Longer sections with more detail",
      "Use business terminology (KPIs, OKRs, etc.)"]
    case "startup" => [
      "Energetic, fast-paced tone",
      "Emphasize speed and agility",
      "Focus on growth metrics and quick wins",
      "Shorter sections, more concise",
      "Use startup terminology (MVP, product-market fit, etc.)",
      "Highlight how you'll help them move fast"]
    case "agency" => [
      "Collaborative, transparent tone",
      "Emphasize workflow integration and process",
      "Highlight white-label and partnership benefits",
      "Focus on how you'll make their team more effective",
      "Use agency terminology (retainers, deliverables, etc.)",
      "Show understanding of agency business model"]
    case _ => [
      "Lead with value and insights",
      "Diagnose problems deeply before proposing solutions",
      "Use mechanism names, not service names",
      "Be direct and results-focused"]
  }

  /** Bullet lines, each "- " + text + newline. */
  function BulletLines(bullets: seq<string>): string
  {
    if |bullets| == 0 then "" else "- " + bullets[0] + "\n" + BulletLines(bullets[1..])
  }

  /** `get_template_prompt`: a blank line, the "TEMPLATE:" heading, then the bullet lines. */
  function TemplatePrompt(templateKey: string): (r: string)
    ensures StartsWith(r, "\nTEMPLATE: " + TemplateTitle(templateKey) + "\n")
    ensures |r| > 11 && r[11] == TemplateTitle(templateKey)[0]
  {
    var title := TemplateTitle(templateKey);
    var head := "\nTEMPLATE: " + title + "\n";
    var r := head + BulletLines(TemplateBullets(templateKey));
    assert r[..|head|] == head;
    assert r[11] == head[11] == title[0];
    r
  }

  /** Any key that names no template gets exactly the default guidance. */
  lemma TemplatePromptFallback(templateKey: string)
    ensures templateKey !in TemplateKeys ==> TemplatePrompt(templateKey) == TemplatePrompt("default")
  {
  }

  /** Two different template keys give different texts: their headings already differ. */
  lemma TemplatePromptsDistinct(key1: string, key2: string)
    requires key1 in TemplateKeys && key2 in TemplateKeys && key1 != key2
    ensures TemplatePrompt(key1) != TemplatePrompt(key2)
  {
    assert TemplateTitle(key1)[0] != TemplateTitle(key2)[0];
  }

  // ---------------------------------------------------------------- enriched prompt

  const IntelHeader: string := "\n--- WEBSITE INTELLIGENCE (Use this to deeply personalize the proposal) ---"
  const IntelImportant: string := "IMPORTANT: Reference specific details from this analysis throughout your proposal."
  const IntelAction: string :=
    "\nACTION: Weave these insights naturally into your proposal. Don't just list them - use them to show deep understanding."

  /** One line of the section per field, in fixed order; `present` is the field's truthiness. */
  datatype FieldLine = FieldLine(present: bool, text: string)

  function OfferingsLine(features: seq<string>): string
  {
    "Their Key Offerings: " + Join(Take(features, 5), ", ") + " - Reference these to show understanding"
  }

  function PainLine(pains: seq<string>): string
  {
    "Pain Points Detected on Website: " + Join(Take(pains, 3), "; ") + " - Use these to enrich the diagnosis"
  }

  function ProofLine(proof: seq<string>): string
  {
    "Their Social Proof: " + Join(Take(proof, 3), ", ") + " - Reference their credibility in Why Us section"
  }

  function TechLine(tech: seq<string>): string
  {
    "Tech Stack: " + Join(Take(tech, 5), ", ") + " - Shows their technical sophistication level"
  }

  function CompetitorLine(competitors: seq<string>): string
  {
    "Competitors Mentioned: " + Join(Take(competitors, 3), ", ") + " - Understand competitive landscape"
  }

  function ExcerptLine(content: string): string
  {
    "\nWebsite Content Excerpt (for context):\n" + Take(content, 2000) + "..."
  }

  /** The eleven candidate lines, in the order the section lists them. */
  function FieldLines(bi: BusinessIntelligence): (r: seq<FieldLine>)
    ensures |r| == 11
  {
    [ FieldLine(bi.companyName != "", "Company Name: " + bi.companyName),
      FieldLine(bi.industry != "", "Industry: " + bi.industry + " - Use industry-specific language and examples"),
      FieldLine(bi.toneStyle != "", "Their Brand Tone: " + bi.toneStyle + " - Match this tone in your writing"),
      FieldLine(bi.valueProposition != "",
                "Their Value Proposition: " + bi.valueProposition + " - Reference this in Current Situation"),
      FieldLine(bi.targetAudience != "",
                "Target Audience: " + bi.targetAudience + " - Show you understand who they serve"),
      FieldLine(bi.keyFeatures != [], OfferingsLine(bi.keyFeatures)),
      FieldLine(bi.painPointsIdentified != [], PainLine(bi.painPointsIdentified)),
      FieldLine(bi.socialProof != [], ProofLine(bi.socialProof)),
      FieldLine(bi.techStackHints != [], TechLine(bi.techStackHints)),
      FieldLine(bi.competitorsMentioned != [], CompetitorLine(bi.competitorsMentioned)),
      FieldLine(bi.rawContent != "", ExcerptLine(bi.rawContent)) ]
  }

  /** The texts of the present lines, in order. */
  function PresentLines(lines: seq<FieldLine>): (r: seq<string>)
    ensures |r| <= |lines|
    ensures forall k :: 0 <= k < |r| ==> exists j :: 0 <= j < |lines| && lines[j].present && lines[j].text == r[k]
  {
    if |lines| == 0 then []
    else
      var rest := PresentLines(lines[1..]);
      assert forall j :: 1 <= j < |lines| ==> lines[j] == lines[1..][j - 1];
      if lines[0].present then [lines[0].text] + rest else rest
  }

  /** The lines of the website-intelligence section. */
  function IntelLines(bi: BusinessIntelligence): seq<string>
  {
    [IntelHeader, IntelImportant] + PresentLines(FieldLines(bi)) + [IntelAction]
  }

  /** The parts of the user prompt: the three request lines, the template guidance, then the intelligence section if any. */
  function PromptParts(prospectName: string, prospectUrl: string, painPoints: string,
                       websiteIntel: Option<BusinessIntelligence>, templateKey: string): seq<string>
  {
    ["Prospect Name: " + prospectName, "Website: " + prospectUrl, "Pain Points: " + painPoints, TemplatePrompt(templateKey)]
    + (if websiteIntel.Some? then [Join(IntelLines(websiteIntel.value), "\n")] else [])
  }

  /** `build_enriched_prompt`: the parts joined by blank lines. */
  function EnrichedPrompt(prospectName: string, prospectUrl: string, painPoints: string,
                          websiteIntel: Option<BusinessIntelligence>, templateKey: string): string
  {
    Join(PromptParts(prospectName, prospectUrl, painPoints, websiteIntel, templateKey), "\n\n")
  }

  /** Taking one more line adds its text exactly when it is set. */
  lemma {:induction false} PresentLinesSnoc(lines: seq<FieldLine>, x: FieldLine)
    ensures PresentLines(lines + [x]) == PresentLines(lines) + (if x.present then [x.text] else [])
    decreases |lines|
  {
    if |lines| > 0 {
      assert (lines + [x])[1..] == lines[1..] + [x];
      PresentLinesSnoc(lines[1..], x);
    } else {
      assert [x][1..] == [];
    }
  }

  /** The texts of the set lines, appended one by one in order. */
  method SetFieldTexts(fields: seq<FieldLine>) returns (texts: seq<string>)
    ensures texts == PresentLines(fields)
  {
    texts := [];
    var i := 0;
    while i < |fields|
      invariant 0 <= i <= |fields|
      invariant texts == PresentLines(fields[..i])
      decreases |fields| - i
    {
      assert fields[..i + 1] == fields[..i] + [fields[i]];
      PresentLinesSnoc(fields[..i], fields[i]);
      if fields[i].present {
        texts := texts + [fields[i].text];
      }
      i := i + 1;
    }
    assert fields[..i] == fields;
  }

  /**
   * `build_enriched_prompt` as the source builds it: the request lines and the template
   * guidance are appended to the parts, then, with intelligence, each set field line in
   * turn, and the parts are joined by blank lines.
   */
  method BuildEnrichedPrompt(prospectName: string, prospectUrl: string, painPoints: string,
                             websiteIntel: Option<BusinessIntelligence>, templateKey: string)
    returns (prompt: string)
    ensures prompt == EnrichedPrompt(prospectName, prospectUrl, painPoints, websiteIntel, templateKey)
  {
    var parts := ["Prospect Name: " + prospectName, "Website: " + prospectUrl, "Pain Points: " + painPoints];
    parts := parts + [TemplatePrompt(templateKey)];
    if websiteIntel.Some? {
      var intelParts := [IntelHeader, IntelImportant];
      var present := SetFieldTexts(FieldLines(websiteIntel.value));
      intelParts := intelParts + present + [IntelAction];
      assert intelParts == IntelLines(websiteIntel.value);
      parts := parts + [Join(intelParts, "\n")];
    }
    assert parts == PromptParts(prospectName, prospectUrl, painPoints, websiteIntel, templateKey);
    prompt := Join(parts, "\n\n");
  }

  /**
   * The prompt always opens with the prospect name, website, pain points and template guidance,
   * in that order; without intelligence that is the whole prompt, and with it exactly one more
   * part follows.
   */
  lemma EnrichedPromptLayout(prospectName: string, prospectUrl: string, painPoints: string,
                             websiteIntel: Option<BusinessIntelligence>, templateKey: string)
    ensures var head := ("Prospect Name: " + prospectName) + "\n\n" + ("Website: " + prospectUrl)
                        + "\n\n" + ("Pain Points: " + painPoints) + "\n\n" + TemplatePrompt(templateKey);
            && StartsWith(EnrichedPrompt(prospectName, prospectUrl, painPoints, websiteIntel, templateKey), head)
            && (websiteIntel.None? ==> EnrichedPrompt(prospectName, prospectUrl, painPoints, websiteIntel, templateKey) == head)
            && (websiteIntel.Some? ==>
                  EnrichedPrompt(prospectName, prospectUrl, painPoints, websiteIntel, templateKey)
                  == head + "\n\n" + Join(IntelLines(websiteIntel.value), "\n"))
    ensures |PromptParts(prospectName, prospectUrl, painPoints, websiteIntel, templateKey)| == if websiteIntel.Some? then 5 else 4
  {
    var a, b, c, d := "Prospect Name: " + prospectName, "Website: " + prospectUrl, "Pain Points: " + painPoints,
                      TemplatePrompt(templateKey);
    var tail := if websiteIntel.Some? then [Join(IntelLines(websiteIntel.value), "\n")] else [];
    assert PromptParts(prospectName, prospectUrl, painPoints, websiteIntel, templateKey) == [a, b, c, d] + tail;
    PartsLayout(a, b, c, d, tail);
  }

  /** Four parts and at most one more, joined by blank lines: the first four, then the last after a blank line. */
  lemma PartsLayout(a: string, b: string, c: string, d: string, tail: seq<string>)
    requires |tail| <= 1
    ensures var head := a + "\n\n" + b + "\n\n" + c + "\n\n" + d;
            && StartsWith(Join([a, b, c, d] + tail, "\n\n"), head)
            && (tail == [] ==> Join([a, b, c, d] + tail, "\n\n") == head)
            && (tail != [] ==> Join([a, b, c, d] + tail, "\n\n") == head + "\n\n" + tail[0])
  {
    var sep := "\n\n";
    JoinFour(a, b, c, d, tail, sep);
    var head := a + sep + b + sep + c + sep + d;
    if tail != [] {
      assert Join([d] + tail, sep) == d + sep + tail[0];
      assert (head + (sep + tail[0]))[..|head|] == head;
    } else {
      assert [d] + tail == [d];
    }
  }

  /**
   * Even an all-empty analysis adds the section: its header, the IMPORTANT line and the
   * ACTION line, and nothing else.
   */
  lemma EmptyIntelligenceSection(bi: BusinessIntelligence)
    requires bi.companyName == "" && bi.industry == "" && bi.toneStyle == "" && bi.valueProposition == ""
    requires bi.targetAudience == "" && bi.keyFeatures == [] && bi.painPointsIdentified == []
    requires bi.socialProof == [] && bi.techStackHints == [] && bi.competitorsMentioned == [] && bi.rawContent == ""
    ensures IntelLines(bi) == [IntelHeader, IntelImportant, IntelAction]
  {
    var lines := FieldLines(bi);
    forall j | 0 <= j < 11
      ensures !lines[j].present
    {
    }
    NoneIsPresent(lines);
  }

  lemma {:induction false} NoneIsPresent(lines: seq<FieldLine>)
    requires forall j :: 0 <= j < |lines| ==> !lines[j].present
    ensures PresentLines(lines) == []
  {
    if |lines| > 0 {
      assert forall j :: 0 <= j < |lines| - 1 ==> lines[1..][j] == lines[j + 1];
      NoneIsPresent(lines[1..]);
    }
  }

  /** `line` is the line of a field of `bi` that is set. */
  predicate IsSetFieldLine(bi: BusinessIntelligence, line: string)
  {
    exists j :: 0 <= j < 11 && FieldLines(bi)[j].present && FieldLines(bi)[j].text == line
  }

  /**
   * The section frames its field lines, and every line between the frame is the line of
   * a field that is set, so there are at most eleven of them.
   */
  lemma IntelLinesFrame(bi: BusinessIntelligence)
    ensures var lines := IntelLines(bi);
            && 3 <= |lines| <= 14
            && lines[0] == IntelHeader && lines[1] == IntelImportant && lines[|lines| - 1] == IntelAction
            && forall k :: 2 <= k < |lines| - 1 ==> IsSetFieldLine(bi, lines[k])
  {
    var fields := FieldLines(bi);
    var mid := PresentLines(fields);
    var lines := IntelLines(bi);
    forall k | 2 <= k < |lines| - 1
      ensures IsSetFieldLine(bi, lines[k])
    {
      assert lines[k] == mid[k - 2];
      var j :| 0 <= j < |fields| && fields[j].present && fields[j].text == mid[k - 2];
    }
  }

  /** `bi` with each list and the excerpt cut to what the prompt shows. */
  function Capped(bi: BusinessIntelligence): BusinessIntelligence
  {
    bi.(keyFeatures := Take(bi.keyFeatures, 5),
        painPointsIdentified := Take(bi.painPointsIdentified, 3),
        socialProof := Take(bi.socialProof, 3),
        techStackHints := Take(bi.techStackHints, 5),
        competitorsMentioned := Take(bi.competitorsMentioned, 3),
        rawContent := Take(bi.rawContent, 2000))
  }

  /**
   * The caps: only the first five features and tech hints, the first three pain points,
   * proof items and competitors, and the first 2000 characters of content reach the prompt.
   */
  lemma IntelLinesCapped(bi: BusinessIntelligence)
    ensures IntelLines(Capped(bi)) == IntelLines(bi)
  {
    OfferingsCapped(bi.keyFeatures);
    PainCapped(bi.painPointsIdentified);
    ProofCapped(bi.socialProof);
    TechCapped(bi.techStackHints);
    CompetitorsCapped(bi.competitorsMentioned);
    ExcerptCapped(bi.rawContent);
    assert FieldLines(Capped(bi)) == FieldLines(bi);
  }

  // Cutting a field to what its line shows changes neither the line nor whether the field is set.

  lemma OfferingsCapped(xs: seq<string>)
    ensures OfferingsLine(Take(xs, 5)) == OfferingsLine(xs) && (Take(xs, 5) != []) == (xs != [])
  {
    TakeTwice(xs, 5);
  }

  lemma PainCapped(xs: seq<string>)
    ensures PainLine(Take(xs, 3)) == PainLine(xs) && (Take(xs, 3) != []) == (xs != [])
  {
    TakeTwice(xs, 3);
  }

  lemma ProofCapped(xs: seq<string>)
    ensures ProofLine(Take(xs, 3)) == ProofLine(xs) && (Take(xs, 3) != []) == (xs != [])
  {
    TakeTwice(xs, 3);
  }

  lemma TechCapped(xs: seq<string>)
    ensures TechLine(Take(xs, 5)) == TechLine(xs) && (Take(xs, 5) != []) == (xs != [])
  {
    TakeTwice(xs, 5);
  }

  lemma CompetitorsCapped(xs: seq<string>)
    ensures CompetitorLine(Take(xs, 3)) == CompetitorLine(xs) && (Take(xs, 3) != []) == (xs != [])
  {
    TakeTwice(xs, 3);
  }

  lemma ExcerptCapped(content: string)
    ensures ExcerptLine(Take(content, 2000)) == ExcerptLine(content) && (Take(content, 2000) != "") == (content != "")
  {
    TakeTwice(content, 2000);
  }

  /** Cutting twice to the same length cuts once, and a cut is empty only when the whole was. */
  lemma TakeTwice<T>(s: seq<T>, n: nat)
    requires n > 0
    ensures Take(Take(s, n), n) == Take(s, n)
    ensures (Take(s, n) == []) == (s == [])
  {
    if s != [] {
      assert Take(s, n)[0] == s[0];
    }
  }

}
