/**
 * The dashboard page: the proposal metrics, the status and search filter,
 * the list slices, the page's state handlers and the effect that adopts the
 * stored proposal once a freshly generated one shows up in the live query.
 * `proposals` is the query's value (`None` while it loads); `now` stands for
 * `Date.now()`.
 */
module Dashboard {
  import opened Wrappers
  import opened Strings
  import opened ConvexDb

  // ---------------------------------------------------------------- metrics

  predicate IsSent(p: Proposal)
  {
    p.status == "sent"
  }

  predicate NotSent(p: Proposal)
  {
    p.status != "sent"
  }

  /** `proposals?.length || 0`. */
  function TotalProposals(proposals: Option<seq<Doc<Proposal>>>): (n: nat)
    ensures proposals.None? ==> n == 0
    ensures proposals.Some? ==> n == |proposals.value|
  {
    if proposals.Some? then |proposals.value| else 0
  }

  /** `proposals?.filter(p => p.status === 'sent')?.length || 0`. */
  function SentProposals(proposals: Option<seq<Doc<Proposal>>>): (n: nat)
    ensures n <= TotalProposals(proposals)
  {
    if proposals.Some? then |Where(proposals.value, IsSent)| else 0
  }

  /** Every proposal is either sent or counted as a draft: the draft count is the number not sent. */
  lemma {:induction false} DraftsAreTheUnsent(docs: seq<Doc<Proposal>>)
    ensures |docs| - |Where(docs, IsSent)| == |Where(docs, NotSent)|
    decreases |docs|
  {
    if |docs| > 0 {
      DraftsAreTheUnsent(docs[1..]);
      assert Where(docs, IsSent) == (if IsSent(docs[0].value) then [docs[0]] else []) + Where(docs[1..], IsSent);
      assert Where(docs, NotSent) == (if NotSent(docs[0].value) then [docs[0]] else []) + Where(docs[1..], NotSent);
    }
  }

  /** All proposals count as sent exactly when each of them has status "sent". */
  lemma {:induction false} AllSent(docs: seq<Doc<Proposal>>)
    ensures |Where(docs, IsSent)| == |docs| <==> forall k :: 0 <= k < |docs| ==> IsSent(docs[k].value)
    decreases |docs|
  {
    if |docs| > 0 {
      AllSent(docs[1..]);
      assert Where(docs, IsSent) == (if IsSent(docs[0].value) then [docs[0]] else []) + Where(docs[1..], IsSent);
      assert forall k :: 1 <= k < |docs| ==> docs[1..][k - 1] == docs[k];
    }
  }

  /**
   * `Math.round(sent / total * 100)`, or 0 without proposals: the whole
   * number nearest to the percentage, halves rounded up.
   */
  function SuccessRate(total: nat, sent: nat): (r: int)
    ensures total == 0 ==> r == 0
    ensures total > 0 ==> 2 * total * r - total <= 200 * sent < 2 * total * r + total
    ensures sent <= total ==> 0 <= r <= 100
  {
    if total > 0 then
      var r := (200 * sent + total) / (2 * total);
      RoundedShare(total, sent, r);
      r
    else 0
  }

  lemma RoundedShare(total: nat, sent: nat, r: int)
    requires total > 0 && r == (200 * sent + total) / (2 * total)
    ensures 2 * total * r - total <= 200 * sent < 2 * total * r + total
    ensures sent <= total ==> 0 <= r <= 100
  {
    var q, n := 2 * total, 200 * sent + total;
    DivBounds(n, q, r);
    if sent <= total {
      ScaledStep(q, r);
      ScaledStep(q, r - 100);
      assert q * (r - 100) == q * r - 100 * q;
    }
  }

  /** Euclidean division brackets the dividend between two multiples of the divisor. */
  lemma DivBounds(n: int, q: int, r: int)
    requires q > 0 && r == n / q
    ensures q * r <= n < q * r + q
  {
    assert n == q * r + n % q;
  }

  /** The rounding is the only whole number within half a point of the exact percentage. */
  lemma SuccessRateUnique(total: nat, sent: nat, x: int)
    requires total > 0 && 2 * total * x - total <= 200 * sent < 2 * total * x + total
    ensures x == SuccessRate(total, sent)
  {
    var r := SuccessRate(total, sent);
    var d := x - r;
    assert 2 * total * x - 2 * total * r == 2 * total * d;
    ScaledStep(2 * total, d);
  }

  lemma ScaledStep(a: int, d: int)
    requires a > 0
    ensures d >= 1 ==> a * d >= a
    ensures d <= -1 ==> a * d <= -a
  {
    if d >= 1 {
      assert a * d == a + a * (d - 1);
    } else if d <= -1 {
      assert a * d == -a + a * (d + 1);
    }
  }

  // ---------------------------------------------------------------- filtering

  datatype StatusFilter = AllStatuses | DraftsOnly | SentOnly

  predicate MatchesStatus(filter: StatusFilter, p: Proposal)
  {
    match filter
    case AllStatuses => true
    case DraftsOnly => p.status == "draft"
    case SentOnly => p.status == "sent"
  }

  /** The search query: lower-cased, then trimmed. */
  function Query(searchTerm: string): string
  {
    Trim(Lower(searchTerm))
  }

  /** An empty query matches every proposal; otherwise the name or the URL must contain it, ignoring case. */
  predicate MatchesQuery(query: string, p: Proposal)
  {
    |query| == 0 || Contains(Lower(p.prospectName), query) || Contains(Lower(p.prospectUrl), query)
  }

  predicate Listed(filter: StatusFilter, searchTerm: string, p: Proposal)
  {
    MatchesStatus(filter, p) && MatchesQuery(Query(searchTerm), p)
  }

  /** `filteredProposals`: nothing while the query loads, else the proposals passing both tests, in query order. */
  function Filtered(proposals: Option<seq<Doc<Proposal>>>, filter: StatusFilter, searchTerm: string): (r: seq<Doc<Proposal>>)
    ensures proposals.None? ==> r == []
    ensures proposals.Some? ==> |r| <= |proposals.value|
    ensures forall k :: 0 <= k < |r| ==> Listed(filter, searchTerm, r[k].value)
  {
    if proposals.None? then []
    else Where(proposals.value, (p: Proposal) => Listed(filter, searchTerm, p))
  }

  /** The filtered list is the proposals with the unlisted ones dropped, order kept, and a proposal is in it exactly when it passes. */
  lemma FilteredSpec(docs: seq<Doc<Proposal>>, filter: StatusFilter, searchTerm: string)
    ensures IsSubsequence(Filtered(Some(docs), filter, searchTerm), docs)
    ensures forall k :: 0 <= k < |docs| ==>
              (docs[k] in Filtered(Some(docs), filter, searchTerm) <==> Listed(filter, searchTerm, docs[k].value))
  {
    WhereIsSubsequence(docs, (p: Proposal) => Listed(filter, searchTerm, p));
  }

  /** `Where` keeps everything when everything passes. */
  lemma {:induction false} WhereKeepsAll<T>(docs: seq<Doc<T>>, keep: T -> bool)
    requires forall k :: 0 <= k < |docs| ==> keep(docs[k].value)
    ensures Where(docs, keep) == docs
    decreases |docs|
  {
    if |docs| > 0 {
      assert forall k :: 0 <= k < |docs| - 1 ==> docs[1..][k] == docs[k + 1];
      WhereKeepsAll(docs[1..], keep);
    }
  }

  /** With the "all" filter and a blank search every proposal is listed, in order. */
  lemma NoFilterListsAll(docs: seq<Doc<Proposal>>, searchTerm: string)
    requires Query(searchTerm) == ""
    ensures Filtered(Some(docs), AllStatuses, searchTerm) == docs
  {
    WhereKeepsAll(docs, (p: Proposal) => Listed(AllStatuses, searchTerm, p));
  }

  /** The list shows the first 12 filtered proposals and the activity panel the first 3. */
  function Visible(filtered: seq<Doc<Proposal>>): (r: seq<Doc<Proposal>>)
    ensures |r| <= 12 && r <= filtered
    ensures |filtered| <= 12 ==> r == filtered
  {
    Take(filtered, 12)
  }

  function RecentActivity(filtered: seq<Doc<Proposal>>): (r: seq<Doc<Proposal>>)
    ensures |r| <= 3 && r <= filtered
    ensures |filtered| <= 3 ==> r == filtered
  {
    Take(filtered, 3)
  }

  /** The activity panel shows the head of what the list shows. */
  lemma ActivityHeadsVisible(filtered: seq<Doc<Proposal>>)
    ensures RecentActivity(filtered) <= Visible(filtered)
    ensures |filtered| >= 3 ==> |RecentActivity(filtered)| == 3
  {
  }

  // ---------------------------------------------------------------- page state

  datatype ViewState = ListView | CreateView | ResultView

  /** What the result view shows; a `None` field is a key that is absent (or null). */
  datatype ResultData = ResultData(
    data: Json, presentationUrl: Option<string>, pdfUrl: Option<string>, pptxUrl: Option<string>,
    prospectName: Option<string>, prospectUrl: Option<string>, painPoints: Option<string>,
    generatedAt: Option<int>, status: Option<string>, createdAt: Option<int>, updatedAt: Option<int>)

  /** The generated proposal the page waits to see stored. */
  datatype PendingMatch = PendingMatch(prospectName: string, prospectUrl: string, painPoints: string, generatedAt: int)

  datatype PageState = PageState(
    view: ViewState, result: Option<ResultData>, selected: Option<Doc<Proposal>>,
    activeId: Option<nat>, pending: Option<PendingMatch>, filter: StatusFilter, searchTerm: string)

  const InitialPage: PageState := PageState(ListView, None, None, None, None, AllStatuses, "")

  /** JavaScript `n || d` on an optional number: absent and 0 are both falsy. */
  function NumberOr(n: Option<int>, d: int): (r: int)
    ensures n.Some? && n.value != 0 ==> r == n.value
    ensures n.None? || n.value == 0 ==> r == d
  {
    if n.Some? && n.value != 0 then n.value else d
  }

  /** `handleStartCreate`: to the form, with every selection cleared. */
  function StartCreating(s: PageState): PageState
  {
    s.(view := CreateView, activeId := None, selected := None, result := None, pending := None)
  }

  /** The result view of a stored proposal: its content, links, prospect, status and times. */
  function ResultOf(p: Proposal): (d: ResultData)
    ensures d.data == p.content && d.status == Some(p.status) && d.generatedAt.None?
    ensures d.createdAt == Some(p.createdAt) && d.updatedAt == Some(p.updatedAt)
    ensures d.prospectName == Some(p.prospectName) && d.prospectUrl == Some(p.prospectUrl) && d.painPoints == Some(p.painPoints)
    ensures d.presentationUrl == p.presentationUrl && d.pdfUrl == p.pdfUrl && d.pptxUrl == p.pptxUrl
  {
    ResultData(p.content, p.presentationUrl, p.pdfUrl, p.pptxUrl, Some(p.prospectName), Some(p.prospectUrl),
               Some(p.painPoints), None, Some(p.status), Some(p.createdAt), Some(p.updatedAt))
  }

  /** `handleSelectProposal`: the result view of that proposal, which becomes the active one. */
  function Selecting(s: PageState, p: Doc<Proposal>): PageState
  {
    s.(selected := Some(p), result := Some(ResultOf(p.value)), pending := None, activeId := Some(p.id), view := ResultView)
  }

  /** The instant a generated proposal is dated by: its own `generated_at`, else `now`. */
  function GeneratedAt(data: ResultData, now: int): int
  {
    NumberOr(data.generatedAt, now)
  }

  /** The generated result as shown: status "draft" and both times the generation instant, unless given. */
  function Normalized(data: ResultData, now: int): (d: ResultData)
    ensures Truthy(data.status) ==> d.status == data.status
    ensures !Truthy(data.status) ==> d.status == Some("draft")
    ensures d.createdAt == Some(NumberOr(data.createdAt, GeneratedAt(data, now)))
    ensures d.updatedAt == Some(NumberOr(data.updatedAt, GeneratedAt(data, now)))
    ensures d.(status := data.status, createdAt := data.createdAt, updatedAt := data.updatedAt) == data
  {
    var generatedAt := GeneratedAt(data, now);
    data.(status := Some(if Truthy(data.status) then data.status.value else "draft"),
          createdAt := Some(NumberOr(data.createdAt, generatedAt)),
          updatedAt := Some(NumberOr(data.updatedAt, generatedAt)))
  }

  /** What the page waits for after a generation: the prospect, as given or empty, and the generation instant. */
  function PendingOf(data: ResultData, now: int): (m: PendingMatch)
    ensures m.prospectName == data.prospectName.GetOr("") && m.prospectUrl == data.prospectUrl.GetOr("")
    ensures m.painPoints == data.painPoints.GetOr("") && m.generatedAt == GeneratedAt(data, now)
  {
    PendingMatch(data.prospectName.GetOr(""), data.prospectUrl.GetOr(""), data.painPoints.GetOr(""), GeneratedAt(data, now))
  }

  /** `handleCreateSuccess`: the normalised result, nothing selected, a pending match for the stored copy. */
  function CreateSucceeded(s: PageState, data: ResultData, now: int): PageState
  {
    s.(result := Some(Normalized(data, now)), selected := None, activeId := None,
       pending := Some(PendingOf(data, now)), view := ResultView)
  }

  /** `handleReset`: back to the list with every selection cleared. */
  function Resetting(s: PageState): PageState
  {
    s.(view := ListView, selected := None, result := None, pending := None, activeId := None)
  }

  /** `handleResultDataUpdate`: new content in both views that exist; a missing timestamp keeps the old one. */
  function ContentUpdated(s: PageState, content: Json, updatedAt: Option<int>): PageState
  {
    s.(result := if s.result.Some? then Some(s.result.value.(data := content, updatedAt := if updatedAt.Some? then updatedAt else s.result.value.updatedAt)) else None,
       selected := if s.selected.Some? then Some(Doc(s.selected.value.id, s.selected.value.value.(content := content, updatedAt := updatedAt.GetOr(s.selected.value.value.updatedAt)))) else None)
  }

  /** `handleStatusChange`: the new status in both views that exist; a missing timestamp keeps the old one. */
  function StatusChanged(s: PageState, status: string, updatedAt: Option<int>): PageState
  {
    s.(result := if s.result.Some? then Some(s.result.value.(status := Some(status), updatedAt := if updatedAt.Some? then updatedAt else s.result.value.updatedAt)) else None,
       selected := if s.selected.Some? then Some(Doc(s.selected.value.id, s.selected.value.value.(status := status, updatedAt := updatedAt.GetOr(s.selected.value.value.updatedAt)))) else None)
  }

  /** The update handlers change nothing when there is neither a result nor a selection. */
  lemma UpdatesNeedAView(s: PageState, content: Json, status: string, updatedAt: Option<int>)
    requires s.result.None? && s.selected.None?
    ensures ContentUpdated(s, content, updatedAt) == s
    ensures StatusChanged(s, status, updatedAt) == s
  {
  }

  /** An update with a timestamp stamps both views with it; one without keeps their times, and only the content or status moves. */
  lemma UpdatesKeepTimes(s: PageState, content: Json, status: string, updatedAt: Option<int>)
    requires s.result.Some? && s.selected.Some?
    ensures updatedAt.Some? ==> ContentUpdated(s, content, updatedAt).result.value.updatedAt == updatedAt
    ensures updatedAt.Some? ==> StatusChanged(s, status, updatedAt).selected.value.value.updatedAt == updatedAt.value
    ensures updatedAt.None? ==> ContentUpdated(s, content, updatedAt).result.value == s.result.value.(data := content)
    ensures updatedAt.None? ==> ContentUpdated(s, content, updatedAt).selected.value.value == s.selected.value.value.(content := content)
    ensures updatedAt.None? ==> StatusChanged(s, status, updatedAt).result.value == s.result.value.(status := Some(status))
    ensures updatedAt.None? ==> StatusChanged(s, status, updatedAt).selected.value.value == s.selected.value.value.(status := status)
    ensures StatusChanged(s, status, updatedAt).selected.value.id == s.selected.value.id
  {
  }

  // ---------------------------------------------------------------- reconciliation

  /** A stored proposal is a candidate when its prospect matches, and its pain points too when the pending match has any. */
  predicate IsCandidate(m: PendingMatch, p: Proposal)
  {
    p.prospectName == m.prospectName && p.prospectUrl == m.prospectUrl
    && (m.painPoints != "" ==> p.painPoints == m.painPoints)
  }

  function Candidates(docs: seq<Doc<Proposal>>, m: PendingMatch): (c: seq<Doc<Proposal>>)
    ensures forall k :: 0 <= k < |c| ==> c[k] in docs && IsCandidate(m, c[k].value)
    ensures forall k :: 0 <= k < |docs| && IsCandidate(m, docs[k].value) ==> docs[k] in c
  {
    Where(docs, (p: Proposal) => IsCandidate(m, p))
  }

  /**
   * The `reduce` that keeps the later-created proposal: the position of the
   * newest candidate, the first of them when several share that instant.
   */
  function LatestIndex(c: seq<Doc<Proposal>>): (i: nat)
    requires |c| > 0
    ensures i < |c|
    ensures forall k :: 0 <= k < |c| ==> c[k].value.createdAt <= c[i].value.createdAt
    ensures forall k :: 0 <= k < i ==> c[k].value.createdAt < c[i].value.createdAt
    decreases |c|
  {
    if |c| == 1 then 0
    else
      var n := |c| - 1;
      var j := LatestIndex(c[..n]);
      assert forall k :: 0 <= k < n ==> c[..n][k] == c[k];
      if c[n].value.createdAt > c[j].value.createdAt then n else j
  }

  /** Those two properties single out the position. */
  lemma LatestIndexUnique(c: seq<Doc<Proposal>>, i: nat)
    requires i < |c|
    requires forall k :: 0 <= k < |c| ==> c[k].value.createdAt <= c[i].value.createdAt
    requires forall k :: 0 <= k < i ==> c[k].value.createdAt < c[i].value.createdAt
    ensures i == LatestIndex(c)
  {
  }

  const WindowMs: int := 5 * 60 * 1000

  /** The stored copy was created less than five minutes from the generation instant, either way. */
  predicate WithinWindow(createdAt: int, generatedAt: int)
  {
    -WindowMs < createdAt - generatedAt < WindowMs
  }

  /** The `prev ? {...} : prev` update of the result view with the stored copy's status and times. */
  function Adopted(prev: Option<ResultData>, p: Proposal): (r: Option<ResultData>)
    ensures r.Some? <==> prev.Some?
    ensures r.Some? ==> r.value == prev.value.(status := Some(p.status), createdAt := Some(p.createdAt), updatedAt := Some(p.updatedAt))
  {
    if prev.Some? then Some(prev.value.(status := Some(p.status), createdAt := Some(p.createdAt), updatedAt := Some(p.updatedAt)))
    else None
  }

  /** One run of the reconciliation effect against the current value of the proposals query. */
  function Reconciled(s: PageState, proposals: Option<seq<Doc<Proposal>>>): PageState
  {
    if s.selected.Some? then s.(activeId := Some(s.selected.value.id))
    else if s.view != ResultView then s.(activeId := None)
    else if s.pending.None? || proposals.None? || |proposals.value| == 0 then s
    else
      var c := Candidates(proposals.value, s.pending.value);
      if |c| == 0 then s
      else
        var latest := c[LatestIndex(c)];
        if WithinWindow(latest.value.createdAt, s.pending.value.generatedAt) then
          s.(activeId := Some(latest.id), selected := Some(latest), result := Adopted(s.result, latest.value), pending := None)
        else s
  }

  /** The effect settles: running it again on the same query value changes nothing. */
  lemma ReconciledIdempotent(s: PageState, proposals: Option<seq<Doc<Proposal>>>)
    ensures Reconciled(Reconciled(s, proposals), proposals) == Reconciled(s, proposals)
  {
  }

  /** The newest candidate's creation instant, when there is a candidate at all. */
  ghost predicate NewestCandidateAt(docs: seq<Doc<Proposal>>, m: PendingMatch, k: int)
  {
    && 0 <= k < |docs| && IsCandidate(m, docs[k].value)
    && forall j :: 0 <= j < |docs| && IsCandidate(m, docs[j].value) ==> docs[j].value.createdAt <= docs[k].value.createdAt
  }

  /**
   * While a generated proposal is pending, the effect adopts a stored one
   * exactly when some newest candidate lies within the window. The adopted
   * proposal is then a newest candidate from the query; it becomes the
   * selection and the active id and the pending match is dropped. Otherwise
   * nothing changes.
   */
  lemma ReconcileAdopts(s: PageState, docs: seq<Doc<Proposal>>)
    requires s.selected.None? && s.view == ResultView && s.pending.Some?
    ensures var r := Reconciled(s, Some(docs));
            r.selected.Some? <==> exists k :: NewestCandidateAt(docs, s.pending.value, k)
                                            && WithinWindow(docs[k].value.createdAt, s.pending.value.generatedAt)
    ensures var r := Reconciled(s, Some(docs));
            r.selected.Some? ==> && r.selected.value in docs && r.pending.None? && r.activeId == Some(r.selected.value.id)
                                 && IsCandidate(s.pending.value, r.selected.value.value)
                                 && WithinWindow(r.selected.value.value.createdAt, s.pending.value.generatedAt)
                                 && r.result == Adopted(s.result, r.selected.value.value)
    ensures var r := Reconciled(s, Some(docs)); r.selected.None? ==> r == s
  {
    var m := s.pending.value;
    var c := Candidates(docs, m);
    var r := Reconciled(s, Some(docs));
    if |docs| > 0 && |c| > 0 {
      var i := LatestIndex(c);
      var latest := c[i];
      var k :| 0 <= k < |docs| && docs[k] == latest;
      forall j | 0 <= j < |docs| && IsCandidate(m, docs[j].value)
        ensures docs[j].value.createdAt <= latest.value.createdAt
      {
        var q :| 0 <= q < |c| && c[q] == docs[j];
      }
      assert NewestCandidateAt(docs, m, k);
      if exists k' :: NewestCandidateAt(docs, m, k') && WithinWindow(docs[k'].value.createdAt, m.generatedAt) {
        var k' :| NewestCandidateAt(docs, m, k') && WithinWindow(docs[k'].value.createdAt, m.generatedAt);
        assert docs[k'].value.createdAt == latest.value.createdAt;
      }
    }
  }

  /** The effect keeps a selection active and undoes nothing the handlers did. */
  lemma HandlersSurviveEffect(s: PageState, p: Doc<Proposal>, proposals: Option<seq<Doc<Proposal>>>)
    ensures Reconciled(Selecting(s, p), proposals) == Selecting(s, p)
    ensures Reconciled(Resetting(s), proposals) == Resetting(s)
    ensures Reconciled(StartCreating(s), proposals) == StartCreating(s)
  {
  }

  /**
   * Right after a generation whose stored copy is the only proposal and was
   * created at the generation instant, the effect adopts that copy.
   */
  lemma FreshlyStoredIsAdopted(s: PageState, data: ResultData, now: int, stored: Doc<Proposal>)
    requires stored.value.prospectName == data.prospectName.GetOr("") && stored.value.prospectUrl == data.prospectUrl.GetOr("")
    requires stored.value.painPoints == data.painPoints.GetOr("")
    requires stored.value.createdAt == GeneratedAt(data, now)
    ensures var r := Reconciled(CreateSucceeded(s, data, now), Some([stored]));
            r.selected == Some(stored) && r.activeId == Some(stored.id) && r.pending.None?
  {
    var m := PendingOf(data, now);
    assert IsCandidate(m, stored.value);
    assert Candidates([stored], m) == [stored];
  }

  // ---------------------------------------------------------------- the page

  class DashboardPage {
    var viewState: ViewState
    var resultData: Option<ResultData>
    var selectedProposal: Option<Doc<Proposal>>
    var activeProposalId: Option<nat>
    var pendingMatch: Option<PendingMatch>
    var statusFilter: StatusFilter
    var searchTerm: string

    function State(): PageState
      reads this
    {
      PageState(viewState, resultData, selectedProposal, activeProposalId, pendingMatch, statusFilter, searchTerm)
    }

    constructor()
      ensures State() == InitialPage
    {
      viewState, resultData, selectedProposal, activeProposalId := ListView, None, None, None;
      pendingMatch, statusFilter, searchTerm := None, AllStatuses, "";
    }

    method SetStatusFilter(filter: StatusFilter)
      modifies this
      ensures State() == old(State()).(filter := filter)
    {
      statusFilter := filter;
    }

    method SetSearchTerm(term: string)
      modifies this
      ensures State() == old(State()).(searchTerm := term)
    {
      searchTerm := term;
    }

    method HandleStartCreate()
      modifies this
      ensures State() == StartCreating(old(State()))
    {
      viewState := CreateView;
      activeProposalId := None;
      selectedProposal := None;
      resultData := None;
      pendingMatch := None;
    }

    method HandleSelectProposal(proposal: Doc<Proposal>)
      modifies this
      ensures State() == Selecting(old(State()), proposal)
    {
      selectedProposal := Some(proposal);
      resultData := Some(ResultOf(proposal.value));
      pendingMatch := None;
      activeProposalId := Some(proposal.id);
      viewState := ResultView;
    }

    method HandleCreateSuccess(data: ResultData, now: int)
      modifies this
      ensures State() == CreateSucceeded(old(State()), data, now)
    {
      var generatedAt := if data.generatedAt.Some? && data.generatedAt.value != 0 then data.generatedAt.value else now;
      resultData := Some(data.(status := Some(if Truthy(data.status) then data.status.value else "draft"),
                               createdAt := Some(NumberOr(data.createdAt, generatedAt)),
                               updatedAt := Some(NumberOr(data.updatedAt, generatedAt))));
      selectedProposal := None;
      activeProposalId := None;
      pendingMatch := Some(PendingMatch(data.prospectName.GetOr(""), data.prospectUrl.GetOr(""), data.painPoints.GetOr(""), generatedAt));
      viewState := ResultView;
    }

    method HandleReset()
      modifies this
      ensures State() == Resetting(old(State()))
    {
      viewState := ListView;
      selectedProposal := None;
      resultData := None;
      pendingMatch := None;
      activeProposalId := None;
    }

    method HandleResultDataUpdate(content: Json, updatedAt: Option<int>)
      modifies this
      ensures State() == ContentUpdated(old(State()), content, updatedAt)
    {
      if resultData.Some? {
        var prev := resultData.value;
        resultData := Some(prev.(data := content, updatedAt := if updatedAt.Some? then updatedAt else prev.updatedAt));
      }
      if selectedProposal.Some? {
        var prev := selectedProposal.value;
        selectedProposal := Some(Doc(prev.id, prev.value.(content := content, updatedAt := updatedAt.GetOr(prev.value.updatedAt))));
      }
    }

    method HandleStatusChange(status: string, updatedAt: Option<int>)
      modifies this
      ensures State() == StatusChanged(old(State()), status, updatedAt)
    {
      if resultData.Some? {
        var prev := resultData.value;
        resultData := Some(prev.(status := Some(status), updatedAt := if updatedAt.Some? then updatedAt else prev.updatedAt));
      }
      if selectedProposal.Some? {
        var prev := selectedProposal.value;
        selectedProposal := Some(Doc(prev.id, prev.value.(status := status, updatedAt := updatedAt.GetOr(prev.value.updatedAt))));
      }
    }

    /** One run of the reconciliation effect. */
    method ReconcileEffect(proposals: Option<seq<Doc<Proposal>>>)
      modifies this
      ensures State() == Reconciled(old(State()), proposals)
    {
      if selectedProposal.Some? {
        if activeProposalId != Some(selectedProposal.value.id) {
          activeProposalId := Some(selectedProposal.value.id);
        }
        return;
      }
      if viewState != ResultView {
        if activeProposalId != None {
          activeProposalId := None;
        }
        return;
      }
      if pendingMatch.None? || proposals.None? || |proposals.value| == 0 {
        return;
      }
      var candidates := Candidates(proposals.value, pendingMatch.value);
      if |candidates| == 0 {
        return;
      }
      var latest := candidates[LatestIndex(candidates)];
      if WithinWindow(latest.value.createdAt, pendingMatch.value.generatedAt) {
        if activeProposalId != Some(latest.id) {
          activeProposalId := Some(latest.id);
        }
        selectedProposal := Some(latest);
        resultData := Adopted(resultData, latest.value);
        pendingMatch := None;
      }
    }
  }
}
