/**
 * The leads table: `create`, `list` (org-scoped, newest first, optionally by
 * status) and `updateStatus`, which stamps the contact time only for
 * "contacted". `now` stands for the mutation's `Date.now()`.
 */
module ConvexLeads {
  import opened Wrappers
  import opened Strings
  import opened ConvexDb

  /** The document `create` inserts: the arguments, the defaulted org, and the contact time stamped. */
  function NewLead(companyName: string, website: Option<string>, score: int, status: string, data: Json,
                   orgId: Option<string>, now: int): (l: Lead)
    ensures l.orgId == OrgOrDefault(orgId) && l.lastContactedAt == Some(now)
    ensures l.companyName == companyName && l.website == website && l.score == score && l.status == status && l.data == data
  {
    Lead(companyName, website, score, status, data, OrgOrDefault(orgId), Some(now))
  }

  /** `create`: one lead appended and one "lead.created" entry appended. */
  method Create(db: Database, companyName: string, website: Option<string>, score: int, status: string, data: Json,
                orgId: Option<string>, now: int)
    returns (id: nat)
    modifies db
    ensures id == |old(db.leads)|
    ensures db.leads == old(db.leads) + [NewLead(companyName, website, score, status, data, orgId, now)]
    ensures db.auditLogs == old(db.auditLogs) + [AuditEntry("lead.created", "system",
              LeadCreated(id, companyName, website, score, status), OrgOrDefault(orgId), now)]
    ensures db.proposals == old(db.proposals) && db.assets == old(db.assets) && db.knowledge == old(db.knowledge)
  {
    var org := OrgOrDefault(orgId);
    id := |db.leads|;
    db.leads := db.leads + [Lead(companyName, website, score, status, data, org, Some(now))];
    db.InsertAudit(AuditEntry("lead.created", "system", LeadCreated(id, companyName, website, score, status), org, now));
  }

  /** `list`: the org's leads newest first, then only those of the given status when one is given. */
  function List(table: seq<Lead>, orgId: Option<string>, status: Option<string>): (r: seq<Doc<Lead>>)
  {
    var org := OrgOrDefault(orgId);
    var leads := Newest(table, (l: Lead) => l.orgId == org);
    if Truthy(status) then Where(leads, (l: Lead) => l.status == status.value) else leads
  }

  /** The listed leads are exactly the org's leads of the asked status, newest first. */
  lemma ListSpec(table: seq<Lead>, orgId: Option<string>, status: Option<string>)
    ensures var r := List(table, orgId, status);
            && (forall k :: 0 <= k < |r| ==> r[k].id < |table| && r[k].value == table[r[k].id])
            && (forall k :: 0 <= k < |r| ==> r[k].value.orgId == OrgOrDefault(orgId))
            && (forall k :: 0 <= k < |r| ==> Truthy(status) ==> r[k].value.status == status.value)
            && (forall i, j :: 0 <= i < j < |r| ==> r[i].id > r[j].id)
            && (forall id :: 0 <= id < |table| ==>
                  (table[id].orgId == OrgOrDefault(orgId) && (Truthy(status) ==> table[id].status == status.value)) ==> Doc(id, table[id]) in r)
  {
    var org := OrgOrDefault(orgId);
    if Truthy(status) {
      var s := status.value;
      NewestWhere(table, (l: Lead) => l.orgId == org, (l: Lead) => l.status == s, (l: Lead) => l.orgId == org && l.status == s);
    }
  }

  /** The patch of `updateStatus`: the status, and the contact time set to now for "contacted" and removed otherwise. */
  function WithStatus(l: Lead, status: string, now: int): (m: Lead)
    ensures m.status == status
    ensures m.lastContactedAt.Some? <==> status == "contacted"
    ensures m.lastContactedAt.Some? ==> m.lastContactedAt.value == now
    ensures m.(status := l.status, lastContactedAt := l.lastContactedAt) == l
  {
    l.(status := status, lastContactedAt := if status == "contacted" then Some(now) else None)
  }

  /**
   * `updateStatus`: patches an existing lead of any org and logs its company
   * name and previous status with the new one. Patching a missing id throws.
   */
  method UpdateStatus(db: Database, id: nat, status: string, orgId: Option<string>, now: int)
    returns (r: Result<bool, MutationError>)
    modifies db
    ensures id >= |old(db.leads)| ==> r == Failure(MissingDocument) && db.leads == old(db.leads) && db.auditLogs == old(db.auditLogs)
    ensures id < |old(db.leads)| ==>
              && r == Success(true)
              && db.leads == old(db.leads)[id := WithStatus(old(db.leads)[id], status, now)]
              && db.auditLogs == old(db.auditLogs) + [AuditEntry("lead.status_updated", "system",
                   LeadStatusUpdated(id, Some(old(db.leads)[id].companyName), Some(old(db.leads)[id].status), status),
                   OrgOrDefault(orgId), now)]
    ensures db.proposals == old(db.proposals) && db.assets == old(db.assets) && db.knowledge == old(db.knowledge)
  {
    var org := OrgOrDefault(orgId);
    var lead := Lookup(db.leads, id);
    var previousStatus := if lead.Some? then Some(lead.value.status) else None;
    var companyName := if lead.Some? then Some(lead.value.companyName) else None;
    if lead.None? {
      return Failure(MissingDocument);
    }
    db.leads := db.leads[id := lead.value.(status := status, lastContactedAt := if status == "contacted" then Some(now) else None)];
    db.InsertAudit(AuditEntry("lead.status_updated", "system", LeadStatusUpdated(id, companyName, previousStatus, status), org, now));
    r := Success(true);
  }
}
