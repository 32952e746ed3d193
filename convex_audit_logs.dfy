/**
 * The audit log: `log` appends one entry, `list` takes the newest entries of
 * an org up to a limit, and `getByAction` keeps the org's entries of one
 * action in index order. Entries are never changed once written.
 */
module ConvexAuditLogs {
  import opened Wrappers
  import opened Strings
  import opened ConvexDb

  function NewEntry(action: string, actorId: Option<string>, details: Json, orgId: Option<string>, now: int): (e: AuditEntry)
    ensures Truthy(actorId) ==> e.actorId == actorId.value
    ensures !Truthy(actorId) ==> e.actorId == "system"
    ensures e.orgId == OrgOrDefault(orgId) && e.action == action && e.details == Given(details) && e.timestamp == now
  {
    AuditEntry(action, if Truthy(actorId) then actorId.value else "system", Given(details), OrgOrDefault(orgId), now)
  }

  /** `log`: exactly one entry is added, after all the existing ones, which stay as they were. */
  method Log(db: Database, action: string, actorId: Option<string>, details: Json, orgId: Option<string>, now: int)
    returns (id: nat)
    modifies db
    ensures id == |old(db.auditLogs)|
    ensures db.auditLogs == old(db.auditLogs) + [NewEntry(action, actorId, details, orgId, now)]
    ensures db.auditLogs[..id] == old(db.auditLogs)
    ensures db.proposals == old(db.proposals) && db.leads == old(db.leads) && db.assets == old(db.assets) && db.knowledge == old(db.knowledge)
  {
    id := |db.auditLogs|;
    db.InsertAudit(AuditEntry(action, if Truthy(actorId) then actorId.value else "system", Given(details), OrgOrDefault(orgId), now));
  }

  /** `args.limit || 50`: an absent or zero limit means 50. */
  function LimitOrDefault(limit: Option<nat>): (n: nat)
    ensures n > 0
    ensures limit.Some? && limit.value > 0 ==> n == limit.value
    ensures limit.None? || limit.value == 0 ==> n == 50
  {
    if limit.Some? && limit.value > 0 then limit.value else 50
  }

  /** `list`: the org's newest entries, at most the limit. */
  function List(table: seq<AuditEntry>, orgId: Option<string>, limit: Option<nat>): (r: seq<Doc<AuditEntry>>)
    ensures |r| <= LimitOrDefault(limit)
    ensures forall k :: 0 <= k < |r| ==> r[k].id < |table| && r[k].value == table[r[k].id] && r[k].value.orgId == OrgOrDefault(orgId)
    ensures forall i, j :: 0 <= i < j < |r| ==> r[i].id > r[j].id
    ensures r <= Newest(table, (e: AuditEntry) => e.orgId == OrgOrDefault(orgId))
    ensures var count := |Newest(table, (e: AuditEntry) => e.orgId == OrgOrDefault(orgId))|;
            |r| == if count <= LimitOrDefault(limit) then count else LimitOrDefault(limit)
  {
    var org := OrgOrDefault(orgId);
    var logs := Newest(table, (e: AuditEntry) => e.orgId == org);
    assert logs == Newest(table, (e: AuditEntry) => e.orgId == OrgOrDefault(orgId));
    Take(logs, LimitOrDefault(limit))
  }

  /** `getByAction`: exactly the org's entries with that action, oldest first. */
  function GetByAction(table: seq<AuditEntry>, action: string, orgId: Option<string>): (r: seq<Doc<AuditEntry>>)
  {
    var org := OrgOrDefault(orgId);
    Where(Oldest(table, (e: AuditEntry) => e.orgId == org), (e: AuditEntry) => e.action == action)
  }

  lemma GetByActionSpec(table: seq<AuditEntry>, action: string, orgId: Option<string>)
    ensures var r := GetByAction(table, action, orgId);
            && (forall k :: 0 <= k < |r| ==> r[k].id < |table| && r[k].value == table[r[k].id])
            && (forall k :: 0 <= k < |r| ==> r[k].value.orgId == OrgOrDefault(orgId) && r[k].value.action == action)
            && (forall id :: 0 <= id < |table| && table[id].orgId == OrgOrDefault(orgId) && table[id].action == action
                  ==> Doc(id, table[id]) in r)
            && (forall i, j :: 0 <= i < j < |r| ==> r[i].id < r[j].id)
  {
    var org := OrgOrDefault(orgId);
    OldestWhere(table, (e: AuditEntry) => e.orgId == org, (e: AuditEntry) => e.action == action,
                (e: AuditEntry) => e.orgId == org && e.action == action);
    var all := Oldest(table, (e: AuditEntry) => e.orgId == org);
    var r := GetByAction(table, action, orgId);
    forall id | 0 <= id < |table| && table[id].orgId == org && table[id].action == action
      ensures Doc(id, table[id]) in r
    {
      var k :| 0 <= k < |all| && all[k] == Doc(id, table[id]);
    }
  }
}
