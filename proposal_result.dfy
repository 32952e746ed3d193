/**
 * The proposal result view: the editable copy of the proposal and its tier
 * editing, the status toggle, the download and copy targets and the
 * relative-time labels. Mutation outcomes and `Date.now()` are passed in;
 * the locale date text of an old timestamp is a parameter.
 */
module ProposalResult {
  import opened Wrappers
  import opened Strings

  datatype PricingTier = PricingTier(name: string, price: string, features: seq<string>)

  datatype ProposalData = ProposalData(
    executiveSummary: string, currentSituation: string, proposedStrategy: string, whyUs: string,
    investment: seq<PricingTier>, nextSteps: string)

  /** `cloneProposalData`: a copy with fresh tier and feature lists, equal to the original. */
  function Clone(p: ProposalData): (r: ProposalData)
    ensures r == p
  {
    var tiers := seq(|p.investment|, i requires 0 <= i < |p.investment| =>
                       PricingTier(p.investment[i].name, p.investment[i].price, p.investment[i].features[..]));
    assert tiers == p.investment;
    p.(investment := tiers)
  }

  // ---------------------------------------------------------------- editing

  /** The text sections an editor writes to. */
  datatype Section = ExecutiveSummary | CurrentSituation | ProposedStrategy | WhyUs | NextSteps

  function SectionText(p: ProposalData, field: Section): string
  {
    match field
    case ExecutiveSummary => p.executiveSummary
    case CurrentSituation => p.currentSituation
    case ProposedStrategy => p.proposedStrategy
    case WhyUs => p.whyUs
    case NextSteps => p.nextSteps
  }

  /** `handleSectionChange`: that section takes the new text and every other part stays. */
  function WithSection(p: ProposalData, field: Section, value: string): (r: ProposalData)
    ensures SectionText(r, field) == value
    ensures forall other: Section :: other != field ==> SectionText(r, other) == SectionText(p, other)
    ensures r.investment == p.investment
  {
    match field
    case ExecutiveSummary => p.(executiveSummary := value)
    case CurrentSituation => p.(currentSituation := value)
    case ProposedStrategy => p.(proposedStrategy := value)
    case WhyUs => p.(whyUs := value)
    case NextSteps => p.(nextSteps := value)
  }

  datatype TierField = Name | Price | Features

  function TrimAll(lines: seq<string>): (r: seq<string>)
    ensures |r| == |lines| && forall k :: 0 <= k < |lines| ==> r[k] == Trim(lines[k])
  {
    seq(|lines|, k requires 0 <= k < |lines| => Trim(lines[k]))
  }

  /** `filter(Boolean)` on strings: the non-empty ones, in order. */
  function NonEmpty(lines: seq<string>): (r: seq<string>)
    ensures |r| <= |lines|
    ensures forall k :: 0 <= k < |r| ==> r[k] != "" && r[k] in lines
    ensures forall k :: 0 <= k < |lines| && lines[k] != "" ==> lines[k] in r
  {
    if |lines| == 0 then []
    else (if lines[0] != "" then [lines[0]] else []) + NonEmpty(lines[1..])
  }

  /** Each non-empty line is kept as often as it occurs, and no empty line is kept. */
  lemma {:induction false} NonEmptyCounts(lines: seq<string>)
    ensures multiset(NonEmpty(lines)) == multiset(lines)["" := 0]
    decreases |lines|
  {
    if |lines| > 0 {
      NonEmptyCounts(lines[1..]);
      assert lines == [lines[0]] + lines[1..];
    }
  }

  /** Filtering two runs of lines is filtering each in turn: the kept lines stay in their order. */
  lemma {:induction false} NonEmptyConcat(a: seq<string>, b: seq<string>)
    ensures NonEmpty(a + b) == NonEmpty(a) + NonEmpty(b)
    decreases |a|
  {
    if |a| > 0 {
      assert (a + b)[0] == a[0] && (a + b)[1..] == a[1..] + b;
      NonEmptyConcat(a[1..], b);
    } else {
      assert a + b == b;
    }
  }

  /** A feature as entered: not empty, nothing to trim at either end. */
  predicate CleanFeature(f: string)
  {
    f != "" && Trim(f) == f
  }

  /** Trimming twice trims no more than trimming once. */
  lemma TrimIdempotent(s: string)
    ensures Trim(Trim(s)) == Trim(s)
  {
    TrimByNoop(Trim(s), JsIsSpace);
  }

  lemma TrimmedLinesClean(lines: seq<string>, r: seq<string>)
    requires forall k :: 0 <= k < |r| ==> r[k] != "" && r[k] in TrimAll(lines)
    ensures forall k :: 0 <= k < |r| ==> CleanFeature(r[k])
  {
    forall k | 0 <= k < |r|
      ensures CleanFeature(r[k])
    {
      var j :| 0 <= j < |lines| && TrimAll(lines)[j] == r[k];
      TrimIdempotent(lines[j]);
    }
  }

  /** The features typed into the text area: one per line, trimmed, blank lines dropped. */
  function ParseFeatures(value: string): (r: seq<string>)
    ensures forall k :: 0 <= k < |r| ==> CleanFeature(r[k])
  {
    var lines := Split(value, '\n');
    var r := NonEmpty(TrimAll(lines));
    TrimmedLinesClean(lines, r);
    r
  }

  lemma {:induction false} NonEmptyKeepsAll(lines: seq<string>)
    requires forall k :: 0 <= k < |lines| ==> lines[k] != ""
    ensures NonEmpty(lines) == lines
    decreases |lines|
  {
    if |lines| > 0 {
      assert forall k :: 0 <= k < |lines| - 1 ==> lines[1..][k] == lines[k + 1];
      NonEmptyKeepsAll(lines[1..]);
    }
  }

  /**
   * The text area shows the features joined by line breaks; reading that text
   * back gives the same features, as long as each is clean and on one line.
   */
  lemma FeaturesRoundTrip(features: seq<string>)
    requires forall k :: 0 <= k < |features| ==> CleanFeature(features[k]) && '\n' !in features[k]
    ensures ParseFeatures(Join(features, "\n")) == features
  {
    var lines := Split(Join(features, "\n"), '\n');
    if |features| == 0 {
      BlankParsesToNothing();
    } else {
      SplitJoinInverse(features, '\n');
      assert lines == features;
      CleanLinesParse(features);
    }
  }

  lemma BlankParsesToNothing()
    ensures ParseFeatures("") == []
  {
    assert Split("", '\n') == [""];
    assert Trim("") == "";
    assert TrimAll([""]) == [""];
    assert NonEmpty([""]) == [];
  }

  lemma CleanLinesParse(lines: seq<string>)
    requires forall k :: 0 <= k < |lines| ==> CleanFeature(lines[k])
    ensures NonEmpty(TrimAll(lines)) == lines
  {
    assert TrimAll(lines) == lines;
    NonEmptyKeepsAll(lines);
  }

  function WithTierField(tier: PricingTier, field: TierField, value: string): (t: PricingTier)
    ensures field == Name ==> t == tier.(name := value)
    ensures field == Price ==> t == tier.(price := value)
    ensures field == Features ==> t == tier.(features := ParseFeatures(value))
  {
    match field
    case Name => tier.(name := value)
    case Price => tier.(price := value)
    case Features => tier.(features := ParseFeatures(value))
  }

  /** `handleTierFieldChange`: only the tier at `index` changes, in that one field; an index outside the list changes nothing. */
  function TierEdited(p: ProposalData, index: int, field: TierField, value: string): (r: ProposalData)
    ensures |r.investment| == |p.investment|
    ensures forall i :: 0 <= i < |p.investment| && i != index ==> r.investment[i] == p.investment[i]
    ensures 0 <= index < |p.investment| ==> r.investment[index] == WithTierField(p.investment[index], field, value)
    ensures !(0 <= index < |p.investment|) ==> r == p
    ensures forall s: Section :: SectionText(r, s) == SectionText(p, s)
  {
    var updated := seq(|p.investment|, i requires 0 <= i < |p.investment| =>
                         if i != index then p.investment[i] else WithTierField(p.investment[i], field, value));
    assert !(0 <= index < |p.investment|) ==> updated == p.investment;
    p.(investment := updated)
  }

  /** Typing back the features the text area shows leaves the proposal as it was. */
  lemma UnchangedFeaturesText(p: ProposalData, index: int)
    requires 0 <= index < |p.investment|
    requires forall k :: 0 <= k < |p.investment[index].features| ==>
               CleanFeature(p.investment[index].features[k]) && '\n' !in p.investment[index].features[k]
    ensures TierEdited(p, index, Features, Join(p.investment[index].features, "\n")) == p
  {
    FeaturesRoundTrip(p.investment[index].features);
    var r := TierEdited(p, index, Features, Join(p.investment[index].features, "\n"));
    assert r.investment == p.investment;
  }

  // ---------------------------------------------------------------- status, download, copy

  /** The status shown at first: the given one, or "draft". */
  function InitialStatus(status: Option<string>): (s: string)
    ensures Truthy(status) ==> s == status.value
    ensures !Truthy(status) ==> s == "draft"
  {
    if Truthy(status) then status.value else "draft"
  }

  /** The toggle: a sent proposal goes back to draft, anything else becomes sent. */
  function NextStatus(status: string): (s: string)
    ensures s == "draft" <==> status == "sent"
    ensures s == "sent" <==> status != "sent"
  {
    if status == "sent" then "draft" else "sent"
  }

  /** Toggling twice returns a draft or a sent proposal to where it was. */
  lemma ToggleTwice(status: string)
    requires status == "draft" || status == "sent"
    ensures NextStatus(NextStatus(status)) == status
  {
  }

  /** Download is offered only for a stored proposal with a PDF or a PPTX link. */
  predicate DownloadDisabled(proposalId: Option<nat>, pdfUrl: Option<string>, pptxUrl: Option<string>)
  {
    proposalId.None? || (!Truthy(pdfUrl) && !Truthy(pptxUrl))
  }

  datatype Export = Export(url: string, exportType: string)

  /** What a download opens and records: the PDF when there is one, else the PPTX. */
  function DownloadTarget(proposalId: Option<nat>, pdfUrl: Option<string>, pptxUrl: Option<string>): (r: Option<Export>)
    ensures r.None? <==> DownloadDisabled(proposalId, pdfUrl, pptxUrl)
    ensures r.Some? && Truthy(pdfUrl) ==> r.value == Export(pdfUrl.value, "pdf")
    ensures r.Some? && !Truthy(pdfUrl) ==> r.value == Export(pptxUrl.value, "pptx")
    ensures r.Some? ==> (r.value.exportType == "pdf" <==> Some(r.value.url) == pdfUrl && Truthy(pdfUrl))
  {
    if DownloadDisabled(proposalId, pdfUrl, pptxUrl) then None
    else if Truthy(pdfUrl) then Some(Export(pdfUrl.value, "pdf"))
    else Some(Export(pptxUrl.value, "pptx"))
  }

  /** The tracking link of a stored proposal, served under `/api/p/` of the page's origin. */
  function TrackingLink(origin: string, proposalId: nat): string
  {
    origin + "/api/p/" + NatToString(proposalId)
  }

  /** What the copy button copies: the tracking link of a stored proposal, else the proposal as JSON text. */
  function CopyText(origin: string, proposalId: Option<nat>, json: string): (t: string)
    ensures proposalId.Some? ==> t == origin + "/api/p/" + NatToString(proposalId.value)
    ensures proposalId.None? ==> t == json
  {
    if proposalId.Some? then TrackingLink(origin, proposalId.value) else json
  }

  /** A mail draft before percent-encoding: its subject line and its body text. */
  datatype MailDraft = MailDraft(subject: string, body: string)

  const SubjectLead: string := "Proposal for "
  const BodyHead: string := "Hi,\n\nSharing the latest proposal."
  const DeckLead: string := "\nDeck: "
  const BodyTail: string := "Let me know if you have any feedback.\n"

  /** The email subject: the prospect's name, or "your prospect" when none is given (an empty name stays empty). */
  function EmailSubject(prospectName: Option<string>): (s: string)
    ensures |s| >= |SubjectLead| && s[..|SubjectLead|] == SubjectLead
    ensures s[|SubjectLead|..] == if prospectName.Some? then prospectName.value else "your prospect"
  {
    SubjectLead + prospectName.GetOr("your prospect")
  }

  /** The email body: a deck line when there is a link to share, then the closing line. */
  function EmailBody(link: string): (b: string)
  {
    BodyHead + (if link != "" then DeckLead + link + "\n" else "\n") + BodyTail
  }

  /** The draft an email export opens for a stored proposal: its subject and a body sharing the tracking link. */
  function EmailDraft(origin: string, proposalId: nat, prospectName: Option<string>): MailDraft
  {
    MailDraft(EmailSubject(prospectName), EmailBody(TrackingLink(origin, proposalId)))
  }

  /**
   * The body of an email export always carries a deck line, and the link on
   * it is exactly what the copy button copies for the same proposal; the
   * head and the closing line frame it.
   */
  lemma EmailSharesCopyLink(origin: string, proposalId: nat, prospectName: Option<string>, json: string)
    ensures var b := EmailDraft(origin, proposalId, prospectName).body;
            var k := |BodyHead| + |DeckLead|;
            var link := CopyText(origin, Some(proposalId), json);
            && |b| == k + |link| + 1 + |BodyTail|
            && b[..|BodyHead|] == BodyHead
            && b[|BodyHead|..k] == DeckLead
            && b[k..k + |link|] == link
            && b[k + |link|..] == "\n" + BodyTail
  {
    var link := TrackingLink(origin, proposalId);
    assert link != "" by { assert |link| >= |"/api/p/"|; }
    var b := BodyHead + (DeckLead + link + "\n") + BodyTail;
    assert EmailDraft(origin, proposalId, prospectName).body == b;
    assert b == BodyHead + DeckLead + link + ("\n" + BodyTail);
  }

  // ---------------------------------------------------------------- relative time

  datatype RelativeTime = NoTime | JustNow | MinutesAgo(minutes: nat) | HoursAgo(hours: nat) | DaysAgo(days: nat) | OnDate

  const MinuteMs: int := 60000
  const HourMs: int := 60 * MinuteMs
  const DayMs: int := 24 * HourMs

  /** The class of a timestamp's age at `now`, by whole minutes, hours and days, rounded down. */
  function RelativeAge(timestamp: Option<int>, now: int): (e: RelativeTime)
    ensures e == NoTime <==> timestamp.None? || timestamp.value == 0
    ensures e.JustNow? <==> timestamp.Some? && timestamp.value != 0 && now - timestamp.value < MinuteMs
    ensures e.MinutesAgo? <==> timestamp.Some? && timestamp.value != 0 && MinuteMs <= now - timestamp.value < HourMs
    ensures e.HoursAgo? <==> timestamp.Some? && timestamp.value != 0 && HourMs <= now - timestamp.value < DayMs
    ensures e.DaysAgo? <==> timestamp.Some? && timestamp.value != 0 && DayMs <= now - timestamp.value < 7 * DayMs
    ensures e.OnDate? <==> timestamp.Some? && timestamp.value != 0 && 7 * DayMs <= now - timestamp.value
    ensures e.MinutesAgo? ==> MinuteMs * e.minutes <= now - timestamp.value < MinuteMs * (e.minutes + 1)
    ensures e.HoursAgo? ==> HourMs * e.hours <= now - timestamp.value < HourMs * (e.hours + 1)
    ensures e.DaysAgo? ==> DayMs * e.days <= now - timestamp.value < DayMs * (e.days + 1)
  {
    if timestamp.None? || timestamp.value == 0 then NoTime
    else
      var diffMs := now - timestamp.value;
      var minutes := diffMs / 60000;
      if minutes < 1 then JustNow
      else if minutes < 60 then MinutesAgo(minutes)
      else
        var hours := minutes / 60;
        if hours < 24 then HoursAgo(hours)
        else
          var days := hours / 24;
          if days < 7 then DaysAgo(days) else OnDate
  }

  /** `formatRelativeTime`: the label for a timestamp, `localeDate` standing for its locale date text. */
  function FormatRelativeTime(timestamp: Option<int>, now: int, localeDate: string): (text: string)
    ensures timestamp.None? || timestamp.value == 0 ==> text == "—"
    ensures RelativeAge(timestamp, now).JustNow? ==> text == "just now"
    ensures RelativeAge(timestamp, now).OnDate? ==> text == localeDate
    ensures var e := RelativeAge(timestamp, now); e.MinutesAgo? ==> text == NatToString(e.minutes) + "m ago"
    ensures var e := RelativeAge(timestamp, now); e.HoursAgo? ==> text == NatToString(e.hours) + "h ago"
    ensures var e := RelativeAge(timestamp, now); e.DaysAgo? ==> text == NatToString(e.days) + "d ago"
  {
    match RelativeAge(timestamp, now)
    case NoTime => "—"
    case JustNow => "just now"
    case MinutesAgo(m) => NatToString(m) + "m ago"
    case HoursAgo(h) => NatToString(h) + "h ago"
    case DaysAgo(d) => NatToString(d) + "d ago"
    case OnDate => localeDate
  }

  /** The "updated" label's timestamp: the update time when set and non-zero, else the creation time. */
  function UpdatedStamp(updatedAt: Option<int>, createdAt: Option<int>): (t: Option<int>)
    ensures updatedAt.Some? && updatedAt.value != 0 ==> t == updatedAt
    ensures updatedAt.None? || updatedAt.value == 0 ==> t == createdAt
  {
    if updatedAt.Some? && updatedAt.value != 0 then updatedAt else createdAt
  }

  /** A minute-label reads back as its minute count, which lies between 1 and 59. */
  lemma MinuteLabelReadsBack(timestamp: int, now: int)
    requires timestamp != 0 && MinuteMs <= now - timestamp < HourMs
    ensures var m := (now - timestamp) / MinuteMs;
            1 <= m < 60 && FormatRelativeTime(Some(timestamp), now, "") == NatToString(m) + "m ago"
            && DecimalValue(NatToString(m)) == m
  {
    var e := RelativeAge(Some(timestamp), now);
    NatToStringRoundTrip(e.minutes);
  }

  /** An hour-label reads back as its whole hour count, which lies between 1 and 23. */
  lemma HourLabelReadsBack(timestamp: int, now: int)
    requires timestamp != 0 && HourMs <= now - timestamp < DayMs
    ensures var h := (now - timestamp) / HourMs;
            1 <= h < 24 && FormatRelativeTime(Some(timestamp), now, "") == NatToString(h) + "h ago"
            && DecimalValue(NatToString(h)) == h
  {
    var e := RelativeAge(Some(timestamp), now);
    assert e.hours == (now - timestamp) / HourMs;
    NatToStringRoundTrip(e.hours);
  }

  /** A day-label reads back as its whole day count, which lies between 1 and 6. */
  lemma DayLabelReadsBack(timestamp: int, now: int)
    requires timestamp != 0 && DayMs <= now - timestamp < 7 * DayMs
    ensures var d := (now - timestamp) / DayMs;
            1 <= d < 7 && FormatRelativeTime(Some(timestamp), now, "") == NatToString(d) + "d ago"
            && DecimalValue(NatToString(d)) == d
  {
    var e := RelativeAge(Some(timestamp), now);
    assert e.days == (now - timestamp) / DayMs;
    NatToStringRoundTrip(e.days);
  }

  // ---------------------------------------------------------------- the view's state

  datatype SaveState = SaveIdle | Saving | SaveSucceeded | SaveFailed
  datatype DownloadState = DownloadIdle | DownloadSucceeded | DownloadFailed
  datatype EmailState = EmailIdle | EmailSending | EmailSucceeded | EmailFailed

  class ProposalResultView {
    var isEditing: bool
    var editableData: ProposalData
    var saveState: SaveState
    var statusState: string
    var statusUpdating: bool
    var downloadState: DownloadState
    var emailState: EmailState

    /** The view as first shown: a copy of the proposal, not editing, the initial status. */
    constructor(data: ProposalData, status: Option<string>)
      ensures editableData == data && !isEditing && saveState == SaveIdle
      ensures statusState == InitialStatus(status) && !statusUpdating && downloadState == DownloadIdle && emailState == EmailIdle
    {
      isEditing, editableData, saveState := false, Clone(data), SaveIdle;
      statusState, statusUpdating, downloadState, emailState := InitialStatus(status), false, DownloadIdle, EmailIdle;
    }

    method StartEditing()
      modifies this
      ensures isEditing && editableData == old(editableData) && saveState == old(saveState)
      ensures statusState == old(statusState) && statusUpdating == old(statusUpdating) && downloadState == old(downloadState)
      ensures emailState == old(emailState)
    {
      isEditing := true;
    }

    method HandleSectionChange(field: Section, value: string)
      modifies this
      ensures editableData == WithSection(old(editableData), field, value)
      ensures isEditing == old(isEditing) && saveState == old(saveState)
      ensures statusState == old(statusState) && statusUpdating == old(statusUpdating) && downloadState == old(downloadState)
      ensures emailState == old(emailState)
    {
      editableData := WithSection(editableData, field, value);
    }

    method HandleTierFieldChange(index: int, field: TierField, value: string)
      modifies this
      ensures editableData == TierEdited(old(editableData), index, field, value)
      ensures isEditing == old(isEditing) && saveState == old(saveState)
      ensures statusState == old(statusState) && statusUpdating == old(statusUpdating) && downloadState == old(downloadState)
      ensures emailState == old(emailState)
    {
      editableData := TierEdited(editableData, index, field, value);
    }

    /** `handleCancelEdit`, and the reset when new proposal data arrives: a fresh copy of `data`, not editing, idle. */
    method HandleCancelEdit(data: ProposalData)
      modifies this
      ensures editableData == data && !isEditing && saveState == SaveIdle
      ensures statusState == old(statusState) && statusUpdating == old(statusUpdating) && downloadState == old(downloadState)
      ensures emailState == old(emailState)
    {
      editableData := Clone(data);
      isEditing := false;
      saveState := SaveIdle;
    }

    /** The `[status]` effect: a new status prop resets the shown status to it, or to "draft". */
    method HandleStatusProp(status: Option<string>)
      modifies this
      ensures statusState == InitialStatus(status)
      ensures editableData == old(editableData) && isEditing == old(isEditing) && saveState == old(saveState)
      ensures statusUpdating == old(statusUpdating) && downloadState == old(downloadState)
      ensures emailState == old(emailState)
    {
      statusState := InitialStatus(status);
    }

    /** The timer a finished save starts: the save indicator returns to idle. */
    method SaveTimerElapsed()
      modifies this
      ensures saveState == SaveIdle
      ensures editableData == old(editableData) && isEditing == old(isEditing)
      ensures statusState == old(statusState) && statusUpdating == old(statusUpdating) && downloadState == old(downloadState)
      ensures emailState == old(emailState)
    {
      saveState := SaveIdle;
    }

    /** The timer a finished download starts: the download indicator returns to idle. */
    method DownloadTimerElapsed()
      modifies this
      ensures downloadState == DownloadIdle
      ensures editableData == old(editableData) && isEditing == old(isEditing) && saveState == old(saveState)
      ensures statusState == old(statusState) && statusUpdating == old(statusUpdating) && emailState == old(emailState)
    {
      downloadState := DownloadIdle;
    }

    /**
     * `handleSaveEdits`: nothing without a stored proposal; otherwise one
     * `updateContent` request with the edited copy, and on success the parent
     * is told the new content and the save instant.
     */
    method HandleSaveEdits(proposalId: Option<nat>, saved: bool, now: int)
      returns (request: Option<(nat, ProposalData)>, notified: Option<(ProposalData, int)>)
      modifies this
      ensures proposalId.None? ==> request.None? && notified.None? && saveState == old(saveState) && isEditing == old(isEditing)
      ensures proposalId.Some? ==> request == Some((proposalId.value, old(editableData)))
      ensures proposalId.Some? && saved ==> saveState == SaveSucceeded && !isEditing && notified == Some((old(editableData), now))
      ensures proposalId.Some? && !saved ==> saveState == SaveFailed && isEditing == old(isEditing) && notified.None?
      ensures editableData == old(editableData)
      ensures statusState == old(statusState) && statusUpdating == old(statusUpdating) && downloadState == old(downloadState)
      ensures emailState == old(emailState)
    {
      if proposalId.None? {
        return None, None;
      }
      saveState := Saving;
      request := Some((proposalId.value, editableData));
      if saved {
        saveState := SaveSucceeded;
        isEditing := false;
        notified := Some((editableData, now));
      } else {
        saveState := SaveFailed;
        notified := None;
      }
    }

    /**
     * `handleStatusToggle`: nothing without a stored proposal; otherwise one
     * `updateStatus` request with the next status, adopted and reported only
     * when the mutation succeeds. The busy flag is down again afterwards.
     */
    method HandleStatusToggle(proposalId: Option<nat>, updated: bool, now: int)
      returns (request: Option<(nat, string)>, notified: Option<(string, int)>)
      modifies this
      ensures proposalId.None? ==> request.None? && notified.None? && statusState == old(statusState) && statusUpdating == old(statusUpdating)
      ensures proposalId.Some? ==> request == Some((proposalId.value, NextStatus(old(statusState)))) && !statusUpdating
      ensures proposalId.Some? && updated ==> statusState == NextStatus(old(statusState)) && notified == Some((statusState, now))
      ensures proposalId.Some? && !updated ==> statusState == old(statusState) && notified.None?
      ensures editableData == old(editableData) && isEditing == old(isEditing) && saveState == old(saveState)
      ensures downloadState == old(downloadState)
      ensures emailState == old(emailState)
    {
      if proposalId.None? {
        return None, None;
      }
      var nextStatus := if statusState == "sent" then "draft" else "sent";
      statusUpdating := true;
      request := Some((proposalId.value, nextStatus));
      if updated {
        statusState := nextStatus;
        notified := Some((nextStatus, now));
      } else {
        notified := None;
      }
      statusUpdating := false;
    }

    /**
     * `handleDownload`: nothing when download is disabled; otherwise the
     * chosen link is opened and one export of the matching type is recorded.
     */
    method HandleDownload(proposalId: Option<nat>, pdfUrl: Option<string>, pptxUrl: Option<string>, tracked: bool)
      returns (openedUrl: Option<string>, recorded: Option<(nat, string)>)
      modifies this
      ensures DownloadTarget(proposalId, pdfUrl, pptxUrl).None? ==> openedUrl.None? && recorded.None? && downloadState == old(downloadState)
      ensures DownloadTarget(proposalId, pdfUrl, pptxUrl).Some? ==>
                && openedUrl == Some(DownloadTarget(proposalId, pdfUrl, pptxUrl).value.url)
                && recorded == Some((proposalId.value, DownloadTarget(proposalId, pdfUrl, pptxUrl).value.exportType))
                && downloadState == (if tracked then DownloadSucceeded else DownloadFailed)
      ensures editableData == old(editableData) && isEditing == old(isEditing) && saveState == old(saveState)
      ensures statusState == old(statusState) && statusUpdating == old(statusUpdating) && emailState == old(emailState)
    {
      if proposalId.None? || (!Truthy(pdfUrl) && !Truthy(pptxUrl)) {
        return None, None;
      }
      var targetUrl := if Truthy(pdfUrl) then pdfUrl.value else pptxUrl.value;
      var exportType := if Truthy(pdfUrl) then "pdf" else "pptx";
      openedUrl := Some(targetUrl);
      recorded := Some((proposalId.value, exportType));
      downloadState := if tracked then DownloadSucceeded else DownloadFailed;
    }

    /**
     * `handleEmailExport`: nothing without a stored proposal; otherwise one
     * "email" export is recorded and, only when recording succeeds, the mail
     * draft sharing the tracking link is opened. The indicator passes
     * through sending to success or error.
     */
    method HandleEmailExport(proposalId: Option<nat>, origin: string, prospectName: Option<string>, tracked: bool)
      returns (recorded: Option<(nat, string)>, draft: Option<MailDraft>)
      modifies this
      ensures proposalId.None? ==> recorded.None? && draft.None? && emailState == old(emailState)
      ensures proposalId.Some? ==> recorded == Some((proposalId.value, "email"))
      ensures proposalId.Some? && tracked ==> emailState == EmailSucceeded && draft == Some(EmailDraft(origin, proposalId.value, prospectName))
      ensures proposalId.Some? && !tracked ==> emailState == EmailFailed && draft.None?
      ensures editableData == old(editableData) && isEditing == old(isEditing) && saveState == old(saveState)
      ensures statusState == old(statusState) && statusUpdating == old(statusUpdating) && downloadState == old(downloadState)
    {
      if proposalId.None? {
        return None, None;
      }
      emailState := EmailSending;
      recorded := Some((proposalId.value, "email"));
      if tracked {
        var subject := EmailSubject(prospectName);
        var link := TrackingLink(origin, proposalId.value);
        draft := Some(MailDraft(subject, EmailBody(link)));
        emailState := EmailSucceeded;
      } else {
        draft := None;
        emailState := EmailFailed;
      }
    }

    /** The timer a finished email export starts: the email indicator returns to idle. */
    method EmailTimerElapsed()
      modifies this
      ensures emailState == EmailIdle
      ensures editableData == old(editableData) && isEditing == old(isEditing) && saveState == old(saveState)
      ensures statusState == old(statusState) && statusUpdating == old(statusUpdating) && downloadState == old(downloadState)
    {
      emailState := EmailIdle;
    }
  }
}
