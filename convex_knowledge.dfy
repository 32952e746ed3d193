/**
 * The knowledge table: `create` (url "" when absent, entity count from the
 * entities array) and `list` (the org's newest entries up to a limit).
 */
module ConvexKnowledge {
  import opened Wrappers
  import opened Strings
  import opened ConvexDb
  import ConvexAuditLogs

  function NewKnowledge(summary: string, entities: Json, relevanceScore: int, url: Option<string>,
                        orgId: Option<string>, now: int): (k: Knowledge)
    ensures Truthy(url) ==> k.url == url.value
    ensures !Truthy(url) ==> k.url == ""
    ensures k.orgId == OrgOrDefault(orgId) && k.ingestedAt == now
    ensures k.summary == summary && k.entities == entities && k.relevanceScore == relevanceScore
  {
    Knowledge(summary, entities, relevanceScore, if Truthy(url) then url.value else "", OrgOrDefault(orgId), now)
  }

  /** `Array.isArray(entities) ? entities.length : 0`. */
  function EntityCount(entities: Json): (n: nat)
    ensures entities.JArr? ==> n == |entities.items|
    ensures !entities.JArr? ==> n == 0
  {
    if entities.JArr? then |entities.items| else 0
  }

  /** `create`: one entry appended and one "knowledge.ingested" audit entry appended. */
  method Create(db: Database, summary: string, entities: Json, relevanceScore: int, url: Option<string>,
                orgId: Option<string>, now: int)
    returns (id: nat)
    modifies db
    ensures id == |old(db.knowledge)|
    ensures db.knowledge == old(db.knowledge) + [NewKnowledge(summary, entities, relevanceScore, url, orgId, now)]
    ensures db.auditLogs == old(db.auditLogs) + [AuditEntry("knowledge.ingested", "system",
              KnowledgeIngested(id, url, EntityCount(entities), relevanceScore), OrgOrDefault(orgId), now)]
    ensures db.proposals == old(db.proposals) && db.leads == old(db.leads) && db.assets == old(db.assets)
  {
    var org := OrgOrDefault(orgId);
    id := |db.knowledge|;
    db.knowledge := db.knowledge + [Knowledge(summary, entities, relevanceScore, if Truthy(url) then url.value else "", org, now)];
    var count := if entities.JArr? then |entities.items| else 0;
    db.InsertAudit(AuditEntry("knowledge.ingested", "system", KnowledgeIngested(id, url, count, relevanceScore), org, now));
  }

  /** `list`: the org's newest entries, at most the limit (50 when absent or zero). */
  function List(table: seq<Knowledge>, orgId: Option<string>, limit: Option<nat>): (r: seq<Doc<Knowledge>>)
    ensures |r| <= ConvexAuditLogs.LimitOrDefault(limit)
    ensures forall k :: 0 <= k < |r| ==> r[k].id < |table| && r[k].value == table[r[k].id] && r[k].value.orgId == OrgOrDefault(orgId)
    ensures forall i, j :: 0 <= i < j < |r| ==> r[i].id > r[j].id
    ensures r <= Newest(table, (k: Knowledge) => k.orgId == OrgOrDefault(orgId))
    ensures var count := |Newest(table, (k: Knowledge) => k.orgId == OrgOrDefault(orgId))|;
            var cap := ConvexAuditLogs.LimitOrDefault(limit);
            |r| == if count <= cap then count else cap
  {
    var org := OrgOrDefault(orgId);
    var entries := Newest(table, (k: Knowledge) => k.orgId == org);
    assert entries == Newest(table, (k: Knowledge) => k.orgId == OrgOrDefault(orgId));
    Take(entries, ConvexAuditLogs.LimitOrDefault(limit))
  }
}
