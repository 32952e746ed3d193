/**
 * The proposals table's mutations and queries: `create`, `list`, `get`,
 * `updateContent` (with its org-ownership check), `updateStatus`,
 * `trackExport` and `trackView`. `now` stands for the mutation's `Date.now()`.
 */
module ConvexProposals {
  import opened Wrappers
  import opened Strings
  import opened ConvexDb

  /** The document `create` inserts: org and status defaulted, created and updated at the same instant, never viewed. */
  function NewProposal(prospectName: string, prospectUrl: string, painPoints: string, content: Json,
                       presentationUrl: Option<string>, pdfUrl: Option<string>, pptxUrl: Option<string>,
                       status: Option<string>, orgId: Option<string>, now: int): (p: Proposal)
    ensures p.orgId == OrgOrDefault(orgId)
    ensures Truthy(status) ==> p.status == status.value
    ensures !Truthy(status) ==> p.status == "draft"
    ensures p.createdAt == now && p.updatedAt == p.createdAt
    ensures p.views.None? && p.lastViewedAt.None?
    ensures p.prospectName == prospectName && p.prospectUrl == prospectUrl && p.painPoints == painPoints
    ensures p.content == content && p.presentationUrl == presentationUrl && p.pdfUrl == pdfUrl && p.pptxUrl == pptxUrl
  {
    Proposal(prospectName, prospectUrl, painPoints, content, presentationUrl, pdfUrl, pptxUrl,
             if Truthy(status) then status.value else "draft", OrgOrDefault(orgId), now, now, None, None)
  }

  /** `create`: one proposal appended, one "proposal.generated" entry appended, nothing else touched. */
  method Create(db: Database, prospectName: string, prospectUrl: string, painPoints: string, content: Json,
                presentationUrl: Option<string>, pdfUrl: Option<string>, pptxUrl: Option<string>,
                status: Option<string>, orgId: Option<string>, now: int)
    returns (id: nat)
    modifies db
    ensures id == |old(db.proposals)|
    ensures db.proposals == old(db.proposals)
              + [NewProposal(prospectName, prospectUrl, painPoints, content, presentationUrl, pdfUrl, pptxUrl, status, orgId, now)]
    ensures db.auditLogs == old(db.auditLogs) + [AuditEntry("proposal.generated", "system",
              ProposalGenerated(id, prospectName, prospectUrl, Truthy(presentationUrl), Truthy(pdfUrl), Truthy(pptxUrl)),
              OrgOrDefault(orgId), now)]
    ensures db.leads == old(db.leads) && db.assets == old(db.assets) && db.knowledge == old(db.knowledge)
  {
    var org := OrgOrDefault(orgId);
    id := |db.proposals|;
    db.proposals := db.proposals + [Proposal(prospectName, prospectUrl, painPoints, content, presentationUrl, pdfUrl, pptxUrl,
                                             if Truthy(status) then status.value else "draft", org, now, now, None, None)];
    db.InsertAudit(AuditEntry("proposal.generated", "system",
                              ProposalGenerated(id, prospectName, prospectUrl, Truthy(presentationUrl), Truthy(pdfUrl), Truthy(pptxUrl)),
                              org, now));
  }

  /** `list`: exactly the org's proposals, newest first. */
  function List(table: seq<Proposal>, orgId: Option<string>): (r: seq<Doc<Proposal>>)
    ensures forall k :: 0 <= k < |r| ==> r[k].id < |table| && r[k].value == table[r[k].id] && r[k].value.orgId == OrgOrDefault(orgId)
    ensures forall i, j :: 0 <= i < j < |r| ==> r[i].id > r[j].id
    ensures forall id :: 0 <= id < |table| && table[id].orgId == OrgOrDefault(orgId) ==> Doc(id, table[id]) in r
  {
    var org := OrgOrDefault(orgId);
    Newest(table, (p: Proposal) => p.orgId == org)
  }

  /** `get`: `ctx.db.get` on the proposals table, the proposal with that id, if any, whatever its org. */
  function Get(table: seq<Proposal>, id: nat): (r: Option<Proposal>)
    ensures r.Some? <==> id < |table|
    ensures r.Some? ==> r.value == table[id]
  {
    Lookup(table, id)
  }

  /**
   * The patch of `updateContent`: content and updatedAt always; the status
   * only when given non-empty; each URL only when given. Nothing else changes.
   */
  function PatchContent(p: Proposal, content: Json, status: Option<string>, presentationUrl: Option<string>,
                        pdfUrl: Option<string>, pptxUrl: Option<string>, now: int): (q: Proposal)
    ensures q.content == content && q.updatedAt == now
    ensures Truthy(status) ==> q.status == status.value
    ensures !Truthy(status) ==> q.status == p.status
    ensures presentationUrl.Some? ==> q.presentationUrl == presentationUrl
    ensures presentationUrl.None? ==> q.presentationUrl == p.presentationUrl
    ensures pdfUrl.Some? ==> q.pdfUrl == pdfUrl
    ensures pdfUrl.None? ==> q.pdfUrl == p.pdfUrl
    ensures pptxUrl.Some? ==> q.pptxUrl == pptxUrl
    ensures pptxUrl.None? ==> q.pptxUrl == p.pptxUrl
    ensures q.prospectName == p.prospectName && q.prospectUrl == p.prospectUrl && q.painPoints == p.painPoints
    ensures q.orgId == p.orgId && q.createdAt == p.createdAt && q.views == p.views && q.lastViewedAt == p.lastViewedAt
  {
    var withStatus := if Truthy(status) then p.(status := status.value) else p;
    var withPresentation := if presentationUrl.Some? then withStatus.(presentationUrl := presentationUrl) else withStatus;
    var withPdf := if pdfUrl.Some? then withPresentation.(pdfUrl := pdfUrl) else withPresentation;
    var withPptx := if pptxUrl.Some? then withPdf.(pptxUrl := pptxUrl) else withPdf;
    withPptx.(content := content, updatedAt := now)
  }

  /** Sending the same update twice leaves the proposal as one update does. */
  lemma PatchContentIdempotent(p: Proposal, content: Json, status: Option<string>, presentationUrl: Option<string>,
                               pdfUrl: Option<string>, pptxUrl: Option<string>, now: int)
    ensures var once := PatchContent(p, content, status, presentationUrl, pdfUrl, pptxUrl, now);
            PatchContent(once, content, status, presentationUrl, pdfUrl, pptxUrl, now) == once
  {
  }

  /**
   * `updateContent`: a missing proposal or one of another org throws and
   * writes nothing; otherwise the patch is applied and one
   * "proposal.updated" entry is appended.
   */
  method UpdateContent(db: Database, id: nat, content: Json, status: Option<string>, presentationUrl: Option<string>,
                       pdfUrl: Option<string>, pptxUrl: Option<string>, orgId: Option<string>, now: int)
    returns (r: Result<bool, MutationError>)
    modifies db
    ensures !(id < |old(db.proposals)| && old(db.proposals)[id].orgId == OrgOrDefault(orgId)) ==>
              r == Failure(NotFound("Proposal not found")) && db.proposals == old(db.proposals) && db.auditLogs == old(db.auditLogs)
    ensures id < |old(db.proposals)| && old(db.proposals)[id].orgId == OrgOrDefault(orgId) ==>
              && r == Success(true)
              && db.proposals == old(db.proposals)[id := PatchContent(old(db.proposals)[id], content, status, presentationUrl, pdfUrl, pptxUrl, now)]
              && db.auditLogs == old(db.auditLogs) + [AuditEntry("proposal.updated", "system",
                   ProposalUpdated(id, Truthy(presentationUrl), Truthy(pdfUrl), Truthy(pptxUrl)), OrgOrDefault(orgId), now)]
    ensures db.leads == old(db.leads) && db.assets == old(db.assets) && db.knowledge == old(db.knowledge)
  {
    var org := OrgOrDefault(orgId);
    var proposal := Lookup(db.proposals, id);
    if proposal.None? || proposal.value.orgId != org {
      return Failure(NotFound("Proposal not found"));
    }
    var patched := PatchContent(proposal.value, content, status, presentationUrl, pdfUrl, pptxUrl, now);
    db.proposals := db.proposals[id := patched];
    db.InsertAudit(AuditEntry("proposal.updated", "system",
                              ProposalUpdated(id, Truthy(presentationUrl), Truthy(pdfUrl), Truthy(pptxUrl)), org, now));
    r := Success(true);
  }

  /**
   * `updateStatus`: sets the status of any existing proposal, whatever its
   * org, without touching updatedAt; logs the previous and the new status.
   * Patching a missing id throws.
   */
  method UpdateStatus(db: Database, id: nat, status: string, orgId: Option<string>, now: int)
    returns (r: Result<bool, MutationError>)
    modifies db
    ensures id >= |old(db.proposals)| ==>
              r == Failure(MissingDocument) && db.proposals == old(db.proposals) && db.auditLogs == old(db.auditLogs)
    ensures id < |old(db.proposals)| ==>
              && r == Success(true)
              && db.proposals == old(db.proposals)[id := old(db.proposals)[id].(status := status)]
              && db.auditLogs == old(db.auditLogs) + [AuditEntry("proposal.status_updated", "system",
                   ProposalStatusUpdated(id, Some(old(db.proposals)[id].status), status), OrgOrDefault(orgId), now)]
    ensures db.leads == old(db.leads) && db.assets == old(db.assets) && db.knowledge == old(db.knowledge)
  {
    var org := OrgOrDefault(orgId);
    var proposal := Lookup(db.proposals, id);
    var previousStatus := if proposal.Some? then Some(proposal.value.status) else None;
    if proposal.None? {
      return Failure(MissingDocument);
    }
    db.proposals := db.proposals[id := proposal.value.(status := status)];
    db.InsertAudit(AuditEntry("proposal.status_updated", "system", ProposalStatusUpdated(id, previousStatus, status), org, now));
    r := Success(true);
  }

  /** `trackExport`: only logs "proposal.exported.<type>", with the prospect's name when the proposal exists. */
  method TrackExport(db: Database, proposalId: nat, exportType: string, orgId: Option<string>, now: int)
    returns (success: bool)
    modifies db
    ensures success
    ensures db.auditLogs == old(db.auditLogs) + [AuditEntry("proposal.exported." + exportType, "system",
              ProposalExported(proposalId,
                               if proposalId < |old(db.proposals)| then Some(old(db.proposals)[proposalId].prospectName) else None,
                               exportType),
              OrgOrDefault(orgId), now)]
    ensures db.proposals == old(db.proposals) && db.leads == old(db.leads) && db.assets == old(db.assets) && db.knowledge == old(db.knowledge)
  {
    var org := OrgOrDefault(orgId);
    var proposal := Lookup(db.proposals, proposalId);
    var name := if proposal.Some? then Some(proposal.value.prospectName) else None;
    db.InsertAudit(AuditEntry("proposal.exported." + exportType, "system", ProposalExported(proposalId, name, exportType), org, now));
    success := true;
  }

  /** A proposal after one more view: the count goes up by one (an absent count is zero) and the view time is stamped. */
  function Viewed(p: Proposal, now: int): (q: Proposal)
    ensures q.views == Some(p.views.GetOr(0) + 1) && q.lastViewedAt == Some(now)
    ensures q.(views := p.views, lastViewedAt := p.lastViewedAt) == p
  {
    p.(views := Some(p.views.GetOr(0) + 1), lastViewedAt := Some(now))
  }

  /** A proposal after `k` views at the same instant. */
  function ViewedTimes(p: Proposal, k: nat, now: int): Proposal
  {
    if k == 0 then p else Viewed(ViewedTimes(p, k - 1, now), now)
  }

  /** Views accumulate: after `k` views a never-viewed proposal counts `k`, and other fields are untouched. */
  lemma {:induction false} ViewsCount(p: Proposal, k: nat, now: int)
    ensures ViewedTimes(p, k, now).views.GetOr(0) == p.views.GetOr(0) + k
    ensures ViewedTimes(p, k, now).(views := p.views, lastViewedAt := p.lastViewedAt) == p
  {
    if k > 0 {
      ViewsCount(p, k - 1, now);
    }
  }

  /** `trackView`: nothing for a missing id; otherwise the view is counted and the new count returned. */
  method TrackView(db: Database, id: nat, now: int) returns (views: Option<int>)
    modifies db
    ensures id >= |old(db.proposals)| ==> views.None? && db.proposals == old(db.proposals)
    ensures id < |old(db.proposals)| ==>
              && db.proposals == old(db.proposals)[id := Viewed(old(db.proposals)[id], now)]
              && views == Some(old(db.proposals)[id].views.GetOr(0) + 1)
              && views == db.proposals[id].views
    ensures db.auditLogs == old(db.auditLogs)
    ensures db.leads == old(db.leads) && db.assets == old(db.assets) && db.knowledge == old(db.knowledge)
  {
    var proposal := Lookup(db.proposals, id);
    if proposal.None? {
      return None;
    }
    var currentViews := proposal.value.views.GetOr(0);
    db.proposals := db.proposals[id := proposal.value.(views := Some(currentViews + 1), lastViewedAt := Some(now))];
    views := Some(currentViews + 1);
  }
}
