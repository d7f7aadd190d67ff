/** The host decorator: it writes `type`, `url`, `related` and the summary block into the
    host in place. Each of its three point lookups degrades on its own. */
module HostMetadata {
  import opened Wrappers
  import opened Text
  import opened Models
  import opened Seqs

  /** The sub-resources linked under `/v1/hosts/<id>/`. */
  const HostSubresources: set<string> := {
    "job_host_summaries", "variable_data", "job_events", "ad_hoc_commands", "fact_versions",
    "inventory_sources", "groups", "activity_stream", "all_groups", "ad_hoc_command_events"}

  const HostRelatedKeys: set<string> := HostSubresources + HostOtherLinks

  /** The `related` map as written: the ten host sub-resource links, then two user links and
      the inventory link. */
  function HostRelated(h: HostRecord): map<string, Json> {
    SubresourceLinks("hosts", h.id, HostSubresources)
      ["created_by" := JString(ResourceUrl("users", h.createdById))]
      ["modified_by" := JString(ResourceUrl("users", h.createdById))]
      ["inventory" := JId(Bytes("/v1/inventories/") + h.inventoryId + Bytes("/"))]
  }

  /** The three links beside the sub-resources. */
  const HostOtherLinks: set<string> := {"created_by", "modified_by", "inventory"}

  lemma HostKeysDisjoint()
    ensures HostSubresources !! HostOtherLinks
  {
    assert "created_by" !in HostSubresources && "modified_by" !in HostSubresources && "inventory" !in HostSubresources;
  }

  lemma HostKeysSize()
    ensures |HostSubresources| == 10 && |HostOtherLinks| == 3
  {
  }

  /** `related` has exactly thirteen entries: the ten sub-resources and the three others. */
  lemma HostRelatedSize(h: HostRecord)
    ensures HostRelated(h).Keys == HostRelatedKeys && |HostRelated(h)| == 13
  {
    assert HostRelated(h).Keys == HostSubresources + HostOtherLinks;
    HostKeysDisjoint();
    HostKeysSize();
    DisjointUnionSize(HostSubresources, HostOtherLinks);
  }

  /** Each sub-resource entry of `related` links under the host's own URL. */
  lemma HostRelatedSubresources(h: HostRecord)
    ensures forall k :: k in HostSubresources ==> HostRelated(h)[k] == JString(SubresourceUrl("hosts", h.id, k))
  {
    HostKeysDisjoint();
  }

  /** Both user links of `related` are built from the creator's id (`CreatedByID` also for
      `modified_by`), and the inventory entry is the raw concatenation of the text and the
      identifier bytes (no `.Hex()`), which makes the whole value a `bson.ObjectId`. */
  lemma HostRelatedLinks(h: HostRecord)
    ensures HostRelated(h)["created_by"] == JString(ResourceUrl("users", h.createdById))
    ensures HostRelated(h)["modified_by"] == JString(ResourceUrl("users", h.createdById))
    ensures HostRelated(h)["inventory"] == JId(Bytes("/v1/inventories/") + h.inventoryId + Bytes("/"))
  {
  }

  const InventorySummaryKeys: set<string> := {
    "id", "name", "description", "has_active_failures", "total_hosts",
    "hosts_with_active_failures", "total_groups", "groups_with_active_failures",
    "has_inventory_sources", "total_inventory_sources", "inventory_sources_with_failures"}

  function InventorySummary(inv: Inventory): (j: Json)
    ensures j.JObject? && j.fields.Keys == InventorySummaryKeys
    ensures j.fields["id"] == JId(inv.id) && j.fields["name"] == JString(inv.name)
    ensures j.fields["description"] == JString(inv.description)
  {
    JObject(map[
      "id" := JId(inv.id),
      "name" := JString(inv.name),
      "description" := JString(inv.description),
      "has_active_failures" := JBool(inv.hasActiveFailures),
      "total_hosts" := JInt(inv.totalHosts),
      "hosts_with_active_failures" := JInt(inv.hostsWithActiveFailures),
      "total_groups" := JInt(inv.totalGroups),
      "groups_with_active_failures" := JInt(inv.groupsWithActiveFailures),
      "has_inventory_sources" := JBool(inv.hasInventorySources),
      "total_inventory_sources" := JInt(inv.totalInventorySources),
      "inventory_sources_with_failures" := JInt(inv.inventorySourcesWithFailures)
    ])
  }

  /** The user block of the host summary: its id is the hex string of the user's id. */
  function HostUserSummary(u: User): Json {
    UserSummary(JString(Hex(u.id)), u)
  }

  class Host {
    const record: HostRecord
    var typ: string
    var url: string
    var related: map<string, Json>
    var summary: map<string, Json>

    constructor (record: HostRecord)
      ensures this.record == record
      ensures typ == "" && url == "" && related == map[] && summary == map[]
    {
      this.record := record;
      typ, url, related, summary := "", "", map[], map[];
    }

    /** `HostMetadata(host)`. `created`, `modified` and `inventory` are the point lookups of
        the host's CreatedByID, ModifiedByID and InventoryID. There is no failure outcome:
        the summary is always assigned, and each of its entries depends on its own lookup
        only. */
    method SetMetadata(created: Result<User>, modified: Result<User>, inventory: Result<Inventory>)
      modifies this`typ, this`url, this`related, this`summary
      ensures typ == "host" && url == ResourceUrl("hosts", record.id)
      ensures related == HostRelated(record)
      ensures summary.Keys == {"recent_jobs", "inventory", "modified_by", "created_by"}
      ensures summary["recent_jobs"] == JList([])
      ensures summary["created_by"] == if created.Success? then HostUserSummary(created.value) else JNull
      ensures summary["modified_by"] == if modified.Success? then HostUserSummary(modified.value) else JNull
      ensures summary["inventory"] == if inventory.Success? then InventorySummary(inventory.value) else JNull
    {
      var h := record;
      var links := HostRelated(h);
      var s := HostSummary(created, modified, inventory);
      typ := "host";
      url := ResourceUrl("hosts", h.id);
      related := links;
      summary := s;
    }
  }

  /** `hostSummary(host)`: starts with `recent_jobs` empty and every other entry nil, then
      fills each entry whose lookup succeeded; a failed lookup is only logged and leaves its
      entry nil, whatever the other lookups did. */
  method HostSummary(created: Result<User>, modified: Result<User>, inventory: Result<Inventory>)
    returns (s: map<string, Json>)
    ensures s.Keys == {"recent_jobs", "inventory", "modified_by", "created_by"}
    ensures s["recent_jobs"] == JList([])
    ensures s["created_by"] == if created.Success? then HostUserSummary(created.value) else JNull
    ensures s["modified_by"] == if modified.Success? then HostUserSummary(modified.value) else JNull
    ensures s["inventory"] == if inventory.Success? then InventorySummary(inventory.value) else JNull
  {
    s := map["recent_jobs" := JList([]), "inventory" := JNull, "modified_by" := JNull, "created_by" := JNull];
    if created.Success? {
      s := s["created_by" := HostUserSummary(created.value)];
    }
    if modified.Success? {
      s := s["modified_by" := HostUserSummary(modified.value)];
    }
    if inventory.Success? {
      s := s["inventory" := InventorySummary(inventory.value)];
    }
  }

  /** The finding in the `modified_by` link: for a host modified by someone other than its
      creator, the link names the creator. */
  lemma ModifiedByLinkNamesCreator(h: HostRecord)
    requires h.createdById != h.modifiedById
    ensures ParseResourceUrl("users", LinkText(HostRelated(h)["modified_by"])) == Some(h.createdById)
    ensures LinkText(HostRelated(h)["modified_by"]) != ResourceUrl("users", h.modifiedById)
  {
    HostRelatedLinks(h);
    ResourceUrlRoundTrip("users", h.createdById);
    if ResourceUrl("users", h.createdById) == ResourceUrl("users", h.modifiedById) {
      ResourceUrlInjective("users", h.createdById, h.modifiedById);
    }
  }

  /** The finding in the `inventory` link: once rendered it is the hex of the whole
      concatenation, so it is no URL at all (it starts with "2f", the hex of '/'). */
  lemma InventoryLinkIsNotAUrl(h: HostRecord)
    ensures LinkText(HostRelated(h)["inventory"])[..2] == "2f"
    ensures LinkText(HostRelated(h)["inventory"]) != ResourceUrl("inventories", h.inventoryId)
  {
    HostRelatedLinks(h);
    var prefix := Bytes("/v1/inventories/");
    assert prefix[0] == 47;
    var raw := prefix + h.inventoryId + Bytes("/");
    assert raw[0] == 47;
    var t := Hex(raw);
    assert t == HexByte(raw[0]) + Hex(raw[1..]);
    assert HexByte(47) == "2f";
    assert t[..2] == "2f";
    assert ResourceUrl("inventories", h.inventoryId)[0] == '/';
  }

  /** The `related` map as evidently intended: each user link from its own id, the
      inventory link a hex URL like the others. */
  function IntendedHostRelated(h: HostRecord): map<string, Json> {
    SubresourceLinks("hosts", h.id, HostSubresources)
      ["created_by" := JString(ResourceUrl("users", h.createdById))]
      ["modified_by" := JString(ResourceUrl("users", h.modifiedById))]
      ["inventory" := JString(ResourceUrl("inventories", h.inventoryId))]
  }

  /** The corrected map has the same thirteen keys and the same sub-resource links as the
      written one. */
  lemma IntendedHostRelatedKeys(h: HostRecord)
    ensures IntendedHostRelated(h).Keys == HostRelatedKeys
    ensures forall k :: k in HostSubresources ==> IntendedHostRelated(h)[k] == HostRelated(h)[k]
  {
    HostKeysDisjoint();
  }

  /** Each user and inventory link of the corrected map reads back as the identifier it is
      meant to name. */
  lemma IntendedHostLinksIdentify(h: HostRecord)
    ensures ParseResourceUrl("users", LinkText(IntendedHostRelated(h)["created_by"])) == Some(h.createdById)
    ensures ParseResourceUrl("users", LinkText(IntendedHostRelated(h)["modified_by"])) == Some(h.modifiedById)
    ensures ParseResourceUrl("inventories", LinkText(IntendedHostRelated(h)["inventory"])) == Some(h.inventoryId)
  {
    ResourceUrlRoundTrip("users", h.createdById);
    ResourceUrlRoundTrip("users", h.modifiedById);
    ResourceUrlRoundTrip("inventories", h.inventoryId);
  }
}
