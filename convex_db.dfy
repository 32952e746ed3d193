/**
 * The Convex database the web app's mutations and queries work on: one
 * table per document kind, each a sequence whose positions are the document
 * ids (an insert appends, a patch replaces one position), and the audit log,
 * which only ever grows. `by_org` index scans are the query functions below:
 * `Newest` for `.order("desc")` and `Oldest` for the index's own ascending order.
 */
module ConvexDb {
  import opened Wrappers
  import opened Strings

  /** A `v.any()` value: JSON. */
  datatype Json =
    | JNull
    | JBool(b: bool)
    | JNum(n: int)
    | JStr(s: string)
    | JArr(items: seq<Json>)
    | JObj(fields: seq<(string, Json)>)

  const DefaultOrg: string := "demo-org-1"

  /** `args.orgId || "demo-org-1"`: a missing or empty org id means the demo org. */
  function OrgOrDefault(orgId: Option<string>): (org: string)
    ensures Truthy(orgId) ==> org == orgId.value
    ensures !Truthy(orgId) ==> org == DefaultOrg
    ensures org != ""
  {
    if Truthy(orgId) then orgId.value else DefaultOrg
  }

  // ---------------------------------------------------------------- documents

  datatype Proposal = Proposal(
    prospectName: string, prospectUrl: string, painPoints: string, content: Json,
    presentationUrl: Option<string>, pdfUrl: Option<string>, pptxUrl: Option<string>,
    status: string, orgId: string, createdAt: int, updatedAt: int,
    views: Option<int>, lastViewedAt: Option<int>)

  datatype Lead = Lead(
    companyName: string, website: Option<string>, score: int, status: string, data: Json,
    orgId: string, lastContactedAt: Option<int>)

  datatype Asset = Asset(kind: string, url: string, prompt: string, status: string, orgId: string, createdAt: int)

  datatype Knowledge = Knowledge(
    summary: string, entities: Json, relevanceScore: int, url: string, orgId: string, ingestedAt: int)

  /** The `details` object of an audit entry, by the action that wrote it. */
  datatype AuditDetails =
    | ProposalGenerated(proposalId: nat, prospectName: string, prospectUrl: string,
                        hasPresentationUrl: bool, hasPdfUrl: bool, hasPptxUrl: bool)
    | ProposalUpdated(proposalId: nat, hasPresentationUrl: bool, hasPdfUrl: bool, hasPptxUrl: bool)
    | ProposalStatusUpdated(proposalId: nat, previousStatus: Option<string>, newStatus: string)
    | ProposalExported(proposalId: nat, exportProspectName: Option<string>, exportType: string)
    | LeadCreated(leadId: nat, companyName: string, website: Option<string>, score: int, leadStatus: string)
    | LeadStatusUpdated(leadId: nat, leadCompanyName: Option<string>, leadPreviousStatus: Option<string>, leadNewStatus: string)
    | AssetCreated(assetId: nat, kind: string, promptHead: string)
    | KnowledgeIngested(knowledgeId: nat, url: Option<string>, entityCount: nat, relevanceScore: int)
    | Given(json: Json)

  datatype AuditEntry = AuditEntry(action: string, actorId: string, details: AuditDetails, orgId: string, timestamp: int)

  /** Why a mutation threw; a throwing mutation writes nothing. */
  datatype MutationError =
    | NotFound(message: string)
    /** `ctx.db.patch` on an id with no document. */
    | MissingDocument

  /** A document with its id, as a query returns it. */
  datatype Doc<T> = Doc(id: nat, value: T)

  class Database {
    var proposals: seq<Proposal>
    var leads: seq<Lead>
    var assets: seq<Asset>
    var knowledge: seq<Knowledge>
    var auditLogs: seq<AuditEntry>

    constructor()
      ensures proposals == [] && leads == [] && assets == [] && knowledge == [] && auditLogs == []
    {
      proposals, leads, assets, knowledge, auditLogs := [], [], [], [], [];
    }

    /** Inserts one audit entry at the end of the log and changes nothing else. */
    method InsertAudit(entry: AuditEntry)
      modifies this
      ensures auditLogs == old(auditLogs) + [entry]
      ensures proposals == old(proposals) && leads == old(leads) && assets == old(assets) && knowledge == old(knowledge)
    {
      auditLogs := auditLogs + [entry];
    }
  }

  // ---------------------------------------------------------------- index scans

  /** `ctx.db.get(id)`: the document with that id, if there is one. */
  function Lookup<T>(table: seq<T>, id: nat): (r: Option<T>)
    ensures r.Some? <==> id < |table|
    ensures r.Some? ==> r.value == table[id]
  {
    if id < |table| then Some(table[id]) else None
  }

  /** The documents of `table` that satisfy `keep`, newest first. */
  function Newest<T>(table: seq<T>, keep: T -> bool): (r: seq<Doc<T>>)
    ensures |r| <= |table|
    ensures forall k :: 0 <= k < |r| ==> r[k].id < |table| && table[r[k].id] == r[k].value && keep(r[k].value)
    ensures forall i, j :: 0 <= i < j < |r| ==> r[i].id > r[j].id
    ensures forall id :: 0 <= id < |table| && keep(table[id]) ==> Doc(id, table[id]) in r
    decreases |table|
  {
    if |table| == 0 then []
    else
      var n := |table| - 1;
      var rest := Newest(table[..n], keep);
      assert forall id :: 0 <= id < n ==> table[..n][id] == table[id];
      (if keep(table[n]) then [Doc(n, table[n])] else []) + rest
  }

  /** The documents of `table` that satisfy `keep`, oldest first. */
  function Oldest<T>(table: seq<T>, keep: T -> bool): (r: seq<Doc<T>>)
    ensures |r| <= |table|
    ensures forall k :: 0 <= k < |r| ==> r[k].id < |table| && table[r[k].id] == r[k].value && keep(r[k].value)
    ensures forall i, j :: 0 <= i < j < |r| ==> r[i].id < r[j].id
    ensures forall id :: 0 <= id < |table| && keep(table[id]) ==> Doc(id, table[id]) in r
    decreases |table|
  {
    if |table| == 0 then []
    else
      var n := |table| - 1;
      var rest := Oldest(table[..n], keep);
      assert forall id :: 0 <= id < n ==> table[..n][id] == table[id];
      rest + (if keep(table[n]) then [Doc(n, table[n])] else [])
  }

  /** JavaScript `docs.filter(d => keep(d))`: the order is kept. */
  function Where<T>(docs: seq<Doc<T>>, keep: T -> bool): (r: seq<Doc<T>>)
    ensures |r| <= |docs|
    ensures forall k :: 0 <= k < |r| ==> r[k] in docs && keep(r[k].value)
    ensures forall k :: 0 <= k < |docs| && keep(docs[k].value) ==> docs[k] in r
  {
    if |docs| == 0 then []
    else (if keep(docs[0].value) then [docs[0]] else []) + Where(docs[1..], keep)
  }

  /** `a` is `b` with some elements dropped, the rest in their order. */
  ghost predicate IsSubsequence<T>(a: seq<T>, b: seq<T>)
    decreases |b|
  {
    if |a| == 0 then true
    else if |b| == 0 then false
    else if a[0] == b[0] then IsSubsequence(a[1..], b[1..])
    else IsSubsequence(a, b[1..])
  }

  /** Filtering only drops documents: the result is a subsequence of the input. */
  lemma {:induction false} WhereIsSubsequence<T>(docs: seq<Doc<T>>, keep: T -> bool)
    ensures IsSubsequence(Where(docs, keep), docs)
    decreases |docs|
  {
    if |docs| > 0 {
      WhereIsSubsequence(docs[1..], keep);
      var r := Where(docs, keep);
      if keep(docs[0].value) {
        assert r[0] == docs[0] && r[1..] == Where(docs[1..], keep);
      } else {
        assert r == Where(docs[1..], keep);
        DropHeadSubsequence(r, docs);
      }
    }
  }

  /** A subsequence of the tail is a subsequence of the whole. */
  lemma {:induction false} DropHeadSubsequence<T>(a: seq<T>, b: seq<T>)
    requires |b| > 0 && IsSubsequence(a, b[1..])
    ensures IsSubsequence(a, b)
    decreases |b|, |a|
  {
    if |a| > 0 && a[0] == b[0] {
      SubsequenceOfTail(a, b[1..]);
    }
  }

  /** A subsequence of a sequence also fits after its first element is dropped from the front. */
  lemma {:induction false} SubsequenceOfTail<T>(a: seq<T>, b: seq<T>)
    requires |a| > 0 && IsSubsequence(a, b)
    ensures IsSubsequence(a[1..], b)
    decreases |b|, |a|
  {
    if |b| > 0 {
      if a[0] == b[0] {
        DropHeadSubsequence(a[1..], b);
      } else {
        SubsequenceOfTail(a, b[1..]);
        DropHeadSubsequence(a[1..], b);
      }
    }
  }

  /** Filtering two runs of documents is filtering each in turn. */
  lemma {:induction false} WhereConcat<T>(a: seq<Doc<T>>, b: seq<Doc<T>>, keep: T -> bool)
    ensures Where(a + b, keep) == Where(a, keep) + Where(b, keep)
    decreases |a|
  {
    if |a| > 0 {
      assert (a + b)[0] == a[0] && (a + b)[1..] == a[1..] + b;
      WhereConcat(a[1..], b, keep);
    } else {
      assert a + b == b;
    }
  }

  /** Filtering at most one document keeps it exactly when it passes. */
  lemma WhereOne<T>(d: Doc<T>, p: bool, q: T -> bool)
    ensures Where(if p then [d] else [], q) == if p && q(d.value) then [d] else []
  {
    if p {
      assert [d][1..] == [];
    }
  }

  /** Filtering an oldest-first scan is the oldest-first scan of both conditions. */
  lemma {:induction false} OldestWhere<T>(table: seq<T>, p: T -> bool, q: T -> bool, pq: T -> bool)
    requires forall x :: pq(x) == (p(x) && q(x))
    ensures Where(Oldest(table, p), q) == Oldest(table, pq)
    decreases |table|
  {
    if |table| > 0 {
      var n := |table| - 1;
      var d := Doc(n, table[n]);
      OldestWhere(table[..n], p, q, pq);
      var last := if p(table[n]) then [d] else [];
      WhereConcat(Oldest(table[..n], p), last, q);
      WhereOne(d, p(table[n]), q);
    }
  }

  /** Filtering a newest-first scan is the newest-first scan of both conditions. */
  lemma {:induction false} NewestWhere<T>(table: seq<T>, p: T -> bool, q: T -> bool, pq: T -> bool)
    requires forall x :: pq(x) == (p(x) && q(x))
    ensures Where(Newest(table, p), q) == Newest(table, pq)
    decreases |table|
  {
    if |table| > 0 {
      var n := |table| - 1;
      var d := Doc(n, table[n]);
      NewestWhere(table[..n], p, q, pq);
      var rest := Newest(table[..n], p);
      if p(table[n]) {
        assert Newest(table, p) == [d] + rest;
        var all := [d] + rest;
        assert all[0] == d && all[1..] == rest;
        assert Where(all, q) == (if q(table[n]) then [d] else []) + Where(rest, q);
      } else {
        assert Newest(table, p) == rest;
      }
      assert Newest(table, pq) == (if pq(table[n]) then [d] else []) + Newest(table[..n], pq);
    }
  }
}
