/**
 * The assets table: `create` (status "ready" unless given, prompt cut to 100
 * characters in the audit entry), `list` (org-scoped, newest first,
 * optionally by type), `get` and `updateStatus`.
 */
module ConvexAssets {
  import opened Wrappers
  import opened Strings
  import opened ConvexDb

  function NewAsset(kind: string, url: string, prompt: string, status: Option<string>, orgId: Option<string>, now: int): (a: Asset)
    ensures Truthy(status) ==> a.status == status.value
    ensures !Truthy(status) ==> a.status == "ready"
    ensures a.orgId == OrgOrDefault(orgId) && a.createdAt == now
    ensures a.kind == kind && a.url == url && a.prompt == prompt
  {
    Asset(kind, url, prompt, if Truthy(status) then status.value else "ready", OrgOrDefault(orgId), now)
  }

  /** The audit entry keeps the first 100 characters of the prompt, the whole prompt when it is shorter. */
  function PromptHead(prompt: string): (h: string)
    ensures |h| <= 100 && h <= prompt
    ensures |prompt| <= 100 ==> h == prompt
    ensures |prompt| > 100 ==> |h| == 100
  {
    Take(prompt, 100)
  }

  /** `create`: one asset appended and one "asset.created" entry appended. */
  method Create(db: Database, kind: string, url: string, prompt: string, status: Option<string>, orgId: Option<string>, now: int)
    returns (id: nat)
    modifies db
    ensures id == |old(db.assets)|
    ensures db.assets == old(db.assets) + [NewAsset(kind, url, prompt, status, orgId, now)]
    ensures db.auditLogs == old(db.auditLogs) + [AuditEntry("asset.created", "system",
              AssetCreated(id, kind, PromptHead(prompt)), OrgOrDefault(orgId), now)]
    ensures db.proposals == old(db.proposals) && db.leads == old(db.leads) && db.knowledge == old(db.knowledge)
  {
    var org := OrgOrDefault(orgId);
    id := |db.assets|;
    db.assets := db.assets + [Asset(kind, url, prompt, if Truthy(status) then status.value else "ready", org, now)];
    db.InsertAudit(AuditEntry("asset.created", "system", AssetCreated(id, kind, Take(prompt, 100)), org, now));
  }

  /** `list`: the org's assets newest first, then only those of the given type when one is given. */
  function List(table: seq<Asset>, orgId: Option<string>, kind: Option<string>): (r: seq<Doc<Asset>>)
  {
    var org := OrgOrDefault(orgId);
    var assets := Newest(table, (a: Asset) => a.orgId == org);
    if Truthy(kind) then Where(assets, (a: Asset) => a.kind == kind.value) else assets
  }

  /** The listed assets are exactly the org's assets of the asked type, newest first. */
  lemma ListSpec(table: seq<Asset>, orgId: Option<string>, kind: Option<string>)
    ensures var r := List(table, orgId, kind);
            && (forall k :: 0 <= k < |r| ==> r[k].id < |table| && r[k].value == table[r[k].id])
            && (forall k :: 0 <= k < |r| ==> r[k].value.orgId == OrgOrDefault(orgId))
            && (forall k :: 0 <= k < |r| ==> Truthy(kind) ==> r[k].value.kind == kind.value)
            && (forall i, j :: 0 <= i < j < |r| ==> r[i].id > r[j].id)
            && (forall id :: 0 <= id < |table| ==>
                  (table[id].orgId == OrgOrDefault(orgId) && (Truthy(kind) ==> table[id].kind == kind.value)) ==> Doc(id, table[id]) in r)
  {
    var org := OrgOrDefault(orgId);
    if Truthy(kind) {
      var t := kind.value;
      NewestWhere(table, (a: Asset) => a.orgId == org, (a: Asset) => a.kind == t, (a: Asset) => a.orgId == org && a.kind == t);
    }
  }

  /** `get`: `ctx.db.get` on the assets table, the asset with that id, if any, whatever its org. */
  function Get(table: seq<Asset>, id: nat): (r: Option<Asset>)
    ensures r.Some? <==> id < |table|
    ensures r.Some? ==> r.value == table[id]
  {
    Lookup(table, id)
  }

  /** `updateStatus`: only the status of that asset changes, and nothing is logged. Patching a missing id throws. */
  method UpdateStatus(db: Database, id: nat, status: string) returns (r: Result<bool, MutationError>)
    modifies db
    ensures id >= |old(db.assets)| ==> r == Failure(MissingDocument) && db.assets == old(db.assets)
    ensures id < |old(db.assets)| ==> r == Success(true) && db.assets == old(db.assets)[id := old(db.assets)[id].(status := status)]
    ensures db.auditLogs == old(db.auditLogs)
    ensures db.proposals == old(db.proposals) && db.leads == old(db.leads) && db.knowledge == old(db.knowledge)
  {
    if id >= |db.assets| {
      return Failure(MissingDocument);
    }
    db.assets := db.assets[id := db.assets[id].(status := status)];
    r := Success(true);
  }
}
