/**
 * The Telegram bot service: whether it is configured, the running flag that
 * `start` and `stop` keep, the parsing of `/proposal <name> <url> <pain…>`,
 * the reply built from the proposal API's answer, the `/status` reply and the
 * intent chosen for a plain text message. The Telegram SDK and the HTTP calls
 * are replaced by the replies they would deliver.
 */
module TelegramBot {
  import opened Wrappers
  import opened Strings

  // ---------------------------------------------------------------- fixed texts

  const HelpText: string :=
    "\n\U{1F4D6} *AgencyOS Bot Commands*\n\n/proposal <name> <url> <pain_point>\nGenerate a sales proposal\n\n"
    + "/status\nCheck if the service is running\n\n/help\nShow this help message\n\n*Tips:*\n"
    + "• Be specific about the pain point\n• Include the full website URL\n• The more context, the better!\n\n"
    + "*Example:*\n`/proposal TechStartup https://techstartup.io They need better lead generation and their website is outdated`\n        "

  const UsageText: string :=
    "❌ *Invalid format*\n\nUse: `/proposal CompanyName https://url.com Pain point description`\n\n"
    + "Example: `/proposal Acme Corp https://acme.com Low website conversion`"

  const TimeoutText: string :=
    "⏱️ *Request timed out*\n\nThe proposal is taking longer than expected. Please try again."

  const FailedText: string := "❌ *Failed to generate proposal*\n\nPlease try again later."

  const TipText: string :=
    "\U{1F4A1} *Tip:* To generate a proposal, use the /proposal command:\n\n`/proposal CompanyName https://url.com Pain point`\n\nType /help for more info."

  const GreetingText: string := "\U{1F44B} I'm the AgencyOS Proposal Bot!\n\nType /help to see available commands."

  function GeneratingText(name: string): string
  {
    "\U{1F504} *Generating proposal for " + name + "...*\n\n"
    + "This typically takes 30-60 seconds. I'll analyze their website and craft a personalized proposal."
  }

  // ---------------------------------------------------------------- /proposal arguments

  /** What a well-formed `/proposal` command asks for. */
  datatype ProposalCommand = ProposalCommand(name: string, url: string, painPoints: string, deepScrape: bool)

  /** A URL without an `http://` or `https://` scheme gets `https://` in front. */
  function NormalizeUrl(u: string): (r: string)
    ensures StartsWith(r, "http://") || StartsWith(r, "https://")
    ensures StartsWith(u, "http://") || StartsWith(u, "https://") ==> r == u
    ensures !(StartsWith(u, "http://") || StartsWith(u, "https://")) ==> r == "https://" + u && r[8..] == u
  {
    if StartsWith(u, "http://") || StartsWith(u, "https://") then u else "https://" + u
  }

  /**
   * The command's arguments: none below three words; otherwise the first word
   * is the name, the second the URL and the rest, joined by single spaces, the
   * pain points. Deep scraping is always asked for.
   */
  function ParseArgs(args: seq<string>): (r: Option<ProposalCommand>)
    ensures r.None? <==> |args| < 3
    ensures r.Some? ==> r.value.name == args[0] && r.value.url == NormalizeUrl(args[1]) && r.value.deepScrape
    ensures r.Some? ==> StartsWith(r.value.painPoints, args[2])
  {
    if |args| < 3 then None
    else
      JoinStartsWithFirst(args[2..], " ");
      Some(ProposalCommand(args[0], NormalizeUrl(args[1]), Join(args[2..], " "), true))
  }

  /** Telegram splits a command at white space, so the pain-point words come back from the joined text. */
  lemma PainPointsRoundTrip(args: seq<string>)
    requires |args| >= 3
    requires forall k :: 2 <= k < |args| ==> ' ' !in args[k]
    ensures Split(ParseArgs(args).value.painPoints, ' ') == args[2..]
  {
    var words := args[2..];
    forall k | 0 <= k < |words|
      ensures ' ' !in words[k]
    {
      assert words[k] == args[k + 2];
    }
    SplitJoinInverse(words, ' ');
  }

  /** The JSON body and the headers of the request to the proposal API. */
  datatype ProposalRequest = ProposalRequest(
    endpoint: string, prospectName: string, prospectUrl: string, painPoints: string,
    deepScrape: bool, contentType: string, apiKey: string)

  function RequestFor(apiUrl: string, apiKey: string, cmd: ProposalCommand): ProposalRequest
  {
    ProposalRequest(apiUrl + "/agents/proposal/generate", cmd.name, cmd.url, cmd.painPoints,
                    cmd.deepScrape, "application/json", apiKey)
  }

  // ---------------------------------------------------------------- the reply

  /** One pricing tier of the returned proposal; absent name or price print as "None". */
  datatype Tier = Tier(name: Option<string>, price: Option<string>, features: seq<string>)

  /** The proposal data; an absent text section prints as "N/A". */
  datatype ProposalData = ProposalData(
    executiveSummary: Option<string>, currentSituation: Option<string>, proposedStrategy: Option<string>,
    whyUs: Option<string>, investment: seq<Tier>, nextSteps: Option<string>)

  function Section(o: Option<string>): string
  {
    o.GetOr("N/A")
  }

  function Bullet(f: string): string
  {
    "  • " + f
  }

  /** The bullet lines of some features, one per feature, each ending in a newline. */
  function FeatureLines(fs: seq<string>): string
  {
    if |fs| == 0 then "" else Bullet(fs[0]) + "\n" + FeatureLines(fs[1..])
  }

  lemma {:induction false} FeatureLinesSnoc(fs: seq<string>, f: string)
    ensures FeatureLines(fs + [f]) == FeatureLines(fs) + Bullet(f) + "\n"
  {
    if |fs| > 0 {
      assert (fs + [f])[1..] == fs[1..] + [f];
      FeatureLinesSnoc(fs[1..], f);
    } else {
      assert FeatureLines([f]) == Bullet(f) + "\n" + FeatureLines([]);
    }
  }

  function Bullets(fs: seq<string>): (r: seq<string>)
    ensures |r| == |fs| && forall k :: 0 <= k < |fs| ==> r[k] == Bullet(fs[k])
  {
    seq(|fs|, k requires 0 <= k < |fs| => Bullet(fs[k]))
  }

  /** Read back line by line, the feature lines are exactly one bullet per feature. */
  lemma {:induction false} FeatureLinesSplit(fs: seq<string>)
    requires forall k :: 0 <= k < |fs| ==> '\n' !in fs[k]
    ensures Split(FeatureLines(fs), '\n') == Bullets(fs) + [""]
  {
    if |fs| > 0 {
      FeatureLinesSplit(fs[1..]);
      BulletOneLine(fs[0]);
      SplitAtFirst(Bullet(fs[0]), '\n', FeatureLines(fs[1..]));
      BulletsCons(fs);
    }
  }

  /** A bullet of a one-line feature is one line. */
  lemma BulletOneLine(f: string)
    requires '\n' !in f
    ensures '\n' !in Bullet(f)
  {
    assert forall i :: 0 <= i < |Bullet(f)| ==> Bullet(f)[i] == if i < 4 then "  • "[i] else f[i - 4];
  }

  lemma BulletsCons(fs: seq<string>)
    requires |fs| > 0
    ensures Bullets(fs) == [Bullet(fs[0])] + Bullets(fs[1..])
  {
  }

  function TierHeading(t: Tier): string
  {
    "*" + Show(t.name) + "* - " + Show(t.price)
  }

  /** A tier's block: an empty line, its name and price, and at most three of its features. */
  function TierBlock(t: Tier): string
  {
    "\n" + TierHeading(t) + "\n" + FeatureLines(Take(t.features, 3))
  }

  /** Read line by line, a tier block shows the heading and the bullets of the first three features only. */
  lemma TierBlockLines(t: Tier)
    requires '\n' !in TierHeading(t)
    requires forall k :: 0 <= k < |t.features| ==> '\n' !in t.features[k]
    ensures Split(TierBlock(t), '\n') == ["", TierHeading(t)] + Bullets(Take(t.features, 3)) + [""]
    ensures |Split(TierBlock(t), '\n')| <= 6
  {
    var shown := Take(t.features, 3);
    forall k | 0 <= k < |shown|
      ensures '\n' !in shown[k]
    {
      assert shown[k] == t.features[k];
    }
    FeatureLinesSplit(shown);
    var fl := FeatureLines(shown);
    SplitAtFirst(TierHeading(t), '\n', fl);
    SplitAtFirst("", '\n', TierHeading(t) + "\n" + fl);
    assert TierBlock(t) == "" + "\n" + (TierHeading(t) + "\n" + fl);
  }

  /** The blocks of all tiers, in order. */
  function TierBlocks(ts: seq<Tier>): string
  {
    if |ts| == 0 then "" else TierBlocks(ts[..|ts| - 1]) + TierBlock(ts[|ts| - 1])
  }

  function ReplyHead(name: string, d: ProposalData): string
  {
    "\n✅ *Proposal for " + name + "*\n\n\U{1F4CB} *Executive Summary*\n" + Section(d.executiveSummary)
    + "\n\n\U{1F4CA} *Current Situation*\n" + Section(d.currentSituation)
    + "\n\n\U{1F3AF} *Proposed Strategy*\n" + Section(d.proposedStrategy)
    + "\n\n\U{1F4AA} *Why Us*\n" + Section(d.whyUs)
    + "\n\n\U{1F4B0} *Investment Options*\n"
  }

  function ReplyFoot(d: ProposalData): string
  {
    "\n\U{1F4DE} *Next Steps*\n" + Section(d.nextSteps) + "\n"
  }

  function PresentationLink(url: string): string
  {
    "\n\U{1F3A8} [View Presentation](" + url + ")"
  }

  function PdfLink(url: string): string
  {
    "\n\U{1F4C4} [Download PDF](" + url + ")"
  }

  /** The link lines: the presentation link, then the PDF link, each only when its URL is present and non-empty. */
  function Links(presentationUrl: Option<string>, pdfUrl: Option<string>): (r: string)
    ensures r == "" <==> !Truthy(presentationUrl) && !Truthy(pdfUrl)
    ensures Truthy(presentationUrl) ==> StartsWith(r, PresentationLink(presentationUrl.value))
    ensures Truthy(pdfUrl) ==> |PdfLink(pdfUrl.value)| <= |r| && r[|r| - |PdfLink(pdfUrl.value)|..] == PdfLink(pdfUrl.value)
    ensures !Truthy(presentationUrl) && Truthy(pdfUrl) ==> r == PdfLink(pdfUrl.value)
    ensures Truthy(presentationUrl) && !Truthy(pdfUrl) ==> r == PresentationLink(presentationUrl.value)
  {
    (if Truthy(presentationUrl) then PresentationLink(presentationUrl.value) else "")
    + (if Truthy(pdfUrl) then PdfLink(pdfUrl.value) else "")
  }

  /** The full reply for a generated proposal: the sections and tiers, then the links, which end it. */
  function ProposalReply(name: string, d: ProposalData, presentationUrl: Option<string>, pdfUrl: Option<string>): string
  {
    ReplyHead(name, d) + TierBlocks(d.investment) + ReplyFoot(d) + Links(presentationUrl, pdfUrl)
  }

  function HttpErrorText(detail: Option<string>): string
  {
    "❌ *Error generating proposal*\n\n" + detail.GetOr("Unknown error")
  }

  function RaisedText(text: string): string
  {
    "❌ *Error*\n\n" + text
  }

  /** The answer of the proposal API, or the exception its call raised. */
  datatype ApiReply =
    | ApiResponse(code: int, detail: Option<string>, success: bool, data: ProposalData,
                  presentationUrl: Option<string>, pdfUrl: Option<string>)
    | ApiTimeout
    | ApiRaised(text: string)

  /** The text the "generating" message is edited to once the API has answered. */
  function OutcomeText(name: string, reply: ApiReply): (r: string)
    ensures reply.ApiResponse? && reply.code == 200 && reply.success ==>
              r == ProposalReply(name, reply.data, reply.presentationUrl, reply.pdfUrl)
    ensures reply.ApiResponse? && reply.code != 200 ==> r == HttpErrorText(reply.detail)
    ensures reply.ApiResponse? && reply.code == 200 && !reply.success ==> r == FailedText
    ensures reply.ApiTimeout? ==> r == TimeoutText
    ensures reply.ApiRaised? ==> r == RaisedText(reply.text)
  {
    match reply
    case ApiTimeout => TimeoutText
    case ApiRaised(text) => RaisedText(text)
    case ApiResponse(code, detail, success, data, presentationUrl, pdfUrl) =>
      if code != 200 then HttpErrorText(detail)
      else if !success then FailedText
      else ProposalReply(name, data, presentationUrl, pdfUrl)
  }

  // ---------------------------------------------------------------- /status

  /** The answer of the health check, or the exception its call raised. */
  datatype HealthReply = Health(code: int) | HealthRaised(text: string)

  const OnlineText: string := "✅ *AgencyOS Status: Online*\n\nAll systems operational."
  const DegradedText: string := "⚠️ *AgencyOS Status: Degraded*\n\nSome features may be unavailable."

  /** Online only for a 200, degraded for any other status, offline with the error for an exception. */
  function StatusText(reply: HealthReply): (r: string)
    ensures reply == Health(200) ==> r == OnlineText
    ensures reply.Health? && reply.code != 200 ==> r == DegradedText
    ensures reply.HealthRaised? ==> r == "❌ *AgencyOS Status: Offline*\n\nError: " + reply.text
  {
    match reply
    case Health(code) => if code == 200 then OnlineText else DegradedText
    case HealthRaised(text) => "❌ *AgencyOS Status: Offline*\n\nError: " + text
  }

  // ---------------------------------------------------------------- plain messages

  datatype Intent = ProposalTip | ShowHelp | Greeting

  const ProposalWords: seq<string> := ["proposal", "generate", "create"]
  const HelpWords: seq<string> := ["help", "how", "what"]

  /** The reply chosen for a plain message: proposal words win over help words, and anything else is greeted. */
  function IntentOf(text: string): (i: Intent)
    ensures i == ProposalTip <==> ContainsAny(Lower(text), ProposalWords)
    ensures i == ShowHelp <==> !ContainsAny(Lower(text), ProposalWords) && ContainsAny(Lower(text), HelpWords)
    ensures i == Greeting <==> !ContainsAny(Lower(text), ProposalWords) && !ContainsAny(Lower(text), HelpWords)
  {
    var t := Lower(text);
    if ContainsAny(t, ProposalWords) then ProposalTip
    else if ContainsAny(t, HelpWords) then ShowHelp
    else Greeting
  }

  /** Lower-casing a message first does not change the intent found in it. */
  lemma IntentIgnoresCase(text: string)
    ensures IntentOf(Lower(text)) == IntentOf(text)
  {
    assert Lower(Lower(text)) == Lower(text);
  }

  function IntentReply(i: Intent): (r: string)
    ensures i == ShowHelp <==> r == HelpText
  {
    match i
    case ProposalTip => TipText
    case ShowHelp => HelpText
    case Greeting => GreetingText
  }

  // ---------------------------------------------------------------- the service

  /** The bot configuration; the token, the API base URL and the service key. */
  datatype BotConfig = BotConfig(token: string, webhookUrl: Option<string>, apiUrl: string, apiKey: string)

  class TelegramBotService {
    const token: string
    const apiUrl: string
    const apiKey: string
    /** Whether the Telegram library could be imported. */
    const telegramAvailable: bool
    /** Whether `application` has been built. */
    var hasApplication: bool
    var running: bool

    /** The bot only runs with a built application, and only when configured. */
    ghost predicate Valid()
      reads this
    {
      running ==> hasApplication && IsConfigured()
    }

    /**
     * A given configuration is taken as is; otherwise the token comes from
     * TELEGRAM_BOT_TOKEN (empty when unset), the API URL from
     * NEXT_PUBLIC_API_URL (default http://localhost:8000) and the key from
     * AGENT_SERVICE_KEY (default empty).
     */
    constructor(config: Option<BotConfig>, envToken: Option<string>, envApiUrl: Option<string>,
                envApiKey: Option<string>, available: bool)
      ensures config.Some? ==> token == config.value.token && apiUrl == config.value.apiUrl && apiKey == config.value.apiKey
      ensures config.None? ==> token == (if Truthy(envToken) then envToken.value else "")
      ensures config.None? ==> apiUrl == envApiUrl.GetOr("http://localhost:8000") && apiKey == envApiKey.GetOr("")
      ensures telegramAvailable == available
      ensures !hasApplication && !running && Valid()
    {
      if config.Some? {
        token, apiUrl, apiKey := config.value.token, config.value.apiUrl, config.value.apiKey;
      } else {
        token := if Truthy(envToken) then envToken.value else "";
        apiUrl := envApiUrl.GetOr("http://localhost:8000");
        apiKey := envApiKey.GetOr("");
      }
      telegramAvailable := available;
      hasApplication, running := false, false;
    }

    /** Configured exactly when the library is present and the token is non-empty. */
    predicate IsConfigured()
    {
      telegramAvailable && token != ""
    }

    /** Unconfigured, start only logs an error; otherwise it builds the application and marks the bot running. */
    method Start()
      requires Valid()
      modifies this
      ensures Valid()
      ensures !IsConfigured() ==> running == old(running) && hasApplication == old(hasApplication)
      ensures IsConfigured() ==> running && hasApplication
    {
      if !IsConfigured() {
        return;
      }
      hasApplication := true;
      running := true;
    }

    /** Stop shuts a running application down; otherwise nothing changes. The application is kept. */
    method Stop()
      requires Valid()
      modifies this
      ensures Valid()
      ensures old(hasApplication && running) ==> !running
      ensures !old(hasApplication && running) ==> running == old(running)
      ensures hasApplication == old(hasApplication)
    {
      if hasApplication && running {
        running := false;
      }
    }

    /**
     * The `/proposal` handler: with fewer than three arguments it answers with
     * the usage text and calls nothing; otherwise it posts the parsed command,
     * shows the "generating" message and then edits it to the outcome.
     */
    method HandleProposal(args: seq<string>, reply: ApiReply)
      returns (shown: seq<string>, request: Option<ProposalRequest>)
      ensures |args| < 3 ==> shown == [UsageText] && request.None?
      ensures |args| >= 3 ==> request == Some(RequestFor(apiUrl, apiKey, ParseArgs(args).value))
      ensures |args| >= 3 ==> shown == [GeneratingText(args[0]), OutcomeText(args[0], reply)]
    {
      var command := ReadArgs(args);
      if command.None? {
        return [UsageText], None;
      }
      request := Some(RequestFor(apiUrl, apiKey, command.value));
      var edited := EditedText(args[0], reply);
      shown := [GeneratingText(args[0]), edited];
    }
  }

  /** The argument handling of `/proposal`: name, URL with a scheme put in front if missing, the rest as pain points. */
  method ReadArgs(args: seq<string>) returns (command: Option<ProposalCommand>)
    ensures command == ParseArgs(args)
  {
    if |args| < 3 {
      return None;
    }
    var url := args[1];
    var hasScheme := StartsWith(url, "http://") || StartsWith(url, "https://");
    if !hasScheme {
      url := "https://" + url;
    }
    assert url == NormalizeUrl(args[1]);
    command := Some(ProposalCommand(args[0], url, Join(args[2..], " "), true));
  }

  /** What the "generating" message becomes, by the kind of answer. */
  method EditedText(name: string, reply: ApiReply) returns (edited: string)
    ensures edited == OutcomeText(name, reply)
  {
    match reply {
      case ApiTimeout =>
        edited := TimeoutText;
      case ApiRaised(text) =>
        edited := RaisedText(text);
      case ApiResponse(code, detail, success, data, presentationUrl, pdfUrl) =>
        if code != 200 {
          edited := HttpErrorText(detail);
        } else if !success {
          edited := FailedText;
        } else {
          edited := BuildReply(name, data, presentationUrl, pdfUrl);
        }
    }
  }

  /** The reply is grown piece by piece: head, each tier with its first three features, foot, links. */
  method BuildReply(name: string, d: ProposalData, presentationUrl: Option<string>, pdfUrl: Option<string>)
    returns (response: string)
    ensures response == ProposalReply(name, d, presentationUrl, pdfUrl)
  {
    var tiers := BuildTiers(d.investment);
    var links := "";
    if Truthy(presentationUrl) {
      links := links + PresentationLink(presentationUrl.value);
    }
    if Truthy(pdfUrl) {
      links := links + PdfLink(pdfUrl.value);
    }
    assert links == Links(presentationUrl, pdfUrl);
    response := ReplyHead(name, d) + tiers + ReplyFoot(d) + links;
  }

  method BuildTiers(ts: seq<Tier>) returns (blocks: string)
    ensures blocks == TierBlocks(ts)
  {
    blocks := "";
    var i := 0;
    while i < |ts|
      invariant 0 <= i <= |ts|
      invariant blocks == TierBlocks(ts[..i])
    {
      var block := BuildTier(ts[i]);
      assert ts[..i + 1][..i] == ts[..i];
      blocks := blocks + block;
      i := i + 1;
    }
    assert ts[..i] == ts;
  }

  method BuildTier(t: Tier) returns (block: string)
    ensures block == TierBlock(t)
  {
    block := "\n*" + Show(t.name) + "* - " + Show(t.price) + "\n";
    var shown := Take(t.features, 3);
    var j := 0;
    while j < |shown|
      invariant 0 <= j <= |shown|
      invariant block == "\n" + TierHeading(t) + "\n" + FeatureLines(shown[..j])
    {
      FeatureLinesSnoc(shown[..j], shown[j]);
      assert shown[..j + 1] == shown[..j] + [shown[j]];
      block := block + "  • " + shown[j] + "\n";
      j := j + 1;
    }
    assert shown[..j] == shown;
  }
}
