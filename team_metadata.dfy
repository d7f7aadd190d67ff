/** The team decorator: it writes `type`, `url` and `related` into the team, then the
    summary block, which needs the creator, the modifier and the team's organization: the
    first lookup that fails is returned and the summary is then not assigned. */
module TeamMetadata {
  import opened Wrappers
  import opened Seqs
  import opened Models

  /** The sub-resources linked under `/v1/teams/<id>/`. */
  const TeamSubresources: set<string> := {
    "users", "roles", "object_roles", "credentials", "projects", "activity_stream", "access_list"}

  const TeamOtherLinks: set<string> := {"created_by", "modified_by", "organization"}

  const TeamRelatedKeys: set<string> := TeamSubresources + TeamOtherLinks

  /** The `related` map: seven sub-resource links, the two user links and the link to the
      team's organization. */
  function TeamRelated(t: TeamRecord): map<string, Json> {
    SubresourceLinks("teams", t.id, TeamSubresources)
      ["created_by" := JString(ResourceUrl("users", t.createdBy))]
      ["modified_by" := JString(ResourceUrl("users", t.modifiedBy))]
      ["organization" := JString(ResourceUrl("organizations", t.organization))]
  }

  lemma TeamKeysDisjoint()
    ensures TeamSubresources !! TeamOtherLinks
  {
    assert "created_by" !in TeamSubresources && "modified_by" !in TeamSubresources;
    assert "organization" !in TeamSubresources;
  }

  lemma TeamKeysSize()
    ensures |TeamSubresources| == 7 && |TeamOtherLinks| == 3
  {
  }

  /** `related` has exactly ten entries. */
  lemma TeamRelatedSize(t: TeamRecord)
    ensures TeamRelated(t).Keys == TeamRelatedKeys && |TeamRelated(t)| == 10
  {
    assert TeamRelated(t).Keys == TeamSubresources + TeamOtherLinks;
    TeamKeysDisjoint();
    TeamKeysSize();
    DisjointUnionSize(TeamSubresources, TeamOtherLinks);
  }

  /** The sub-resource entries point under the team's own URL; the user links at the
      creator's and modifier's users and `organization` at the team's organization. */
  lemma TeamRelatedLinks(t: TeamRecord)
    ensures forall k :: k in TeamSubresources ==> TeamRelated(t)[k] == JString(SubresourceUrl("teams", t.id, k))
    ensures TeamRelated(t)["created_by"] == JString(ResourceUrl("users", t.createdBy))
    ensures TeamRelated(t)["modified_by"] == JString(ResourceUrl("users", t.modifiedBy))
    ensures TeamRelated(t)["organization"] == JString(ResourceUrl("organizations", t.organization))
  {
    TeamKeysDisjoint();
  }

  /** The `organization` link reads back as the team's organization. */
  lemma TeamOrganizationLinkIdentifies(t: TeamRecord)
    ensures ParseResourceUrl("organizations", LinkText(TeamRelated(t)["organization"])) == Some(t.organization)
  {
    ResourceUrlRoundTrip("organizations", t.organization);
  }

  /** One value of the `object_roles` map. */
  function TeamRole(description: string, name: string): Json {
    JObject(map["description" := JString(description), "name" := JString(name)])
  }

  /** The fixed `object_roles` map. */
  const TeamRoles: map<string, Json> := map[
    "admin_role" := TeamRole("Can manage all aspects of the team", "admin"),
    "member_role" := TeamRole("User is a member of the team", "member"),
    "read_role" := TeamRole("May view settings for the team", "read")]

  /** The `{id, name, description}` block of the team's organization. */
  function OrganizationBlock(org: OrganizationRecord): (j: Json)
    ensures j.JObject? && j.fields.Keys == {"id", "name", "description"}
    ensures j.fields["id"] == JId(org.id) && j.fields["name"] == JString(org.name)
    ensures j.fields["description"] == JString(org.description)
  {
    JObject(map["id" := JId(org.id), "name" := JString(org.name), "description" := JString(org.description)])
  }

  const TeamSummaryKeys: set<string> := {"organization", "object_roles", "created_by", "modified_by"}

  /** The `SummaryFields` literal of `setSummaryFields`, once all three lookups succeeded. */
  function TeamSummary(created: User, modified: User, org: OrganizationRecord): map<string, Json> {
    map[
      "organization" := OrganizationBlock(org),
      "object_roles" := JObject(TeamRoles),
      "created_by" := UserSummary(JId(created.id), created),
      "modified_by" := UserSummary(JId(modified.id), modified)]
  }

  /** The summary has four entries: the organization block copies exactly the looked-up
      organization's id, name and description, and the user blocks copy the looked-up
      users. */
  lemma TeamSummaryContents(created: User, modified: User, org: OrganizationRecord)
    ensures var s := TeamSummary(created, modified, org);
      && s.Keys == TeamSummaryKeys
      && s["organization"] == OrganizationBlock(org)
      && s["created_by"] == UserSummary(JId(created.id), created)
      && s["modified_by"] == UserSummary(JId(modified.id), modified)
  {
  }

  /** `object_roles` is the same three-entry map for every team, keyed by admin_role,
      member_role and read_role, each holding a description and a name. */
  lemma TeamObjectRoles(created: User, modified: User, org: OrganizationRecord)
    ensures TeamSummary(created, modified, org)["object_roles"] == JObject(TeamRoles)
    ensures TeamRoles.Keys == {"admin_role", "member_role", "read_role"}
    ensures forall k :: k in TeamRoles ==>
              TeamRoles[k].JObject? && TeamRoles[k].fields.Keys == {"description", "name"}
  {
  }

  class Team {
    const record: TeamRecord
    var typ: string
    var url: string
    var related: map<string, Json>
    var summaryFields: map<string, Json>

    constructor (record: TeamRecord)
      ensures this.record == record
      ensures typ == "" && url == "" && related == map[] && summaryFields == map[]
    {
      this.record := record;
      typ, url, related, summaryFields := "", "", map[], map[];
    }

    /** `setMetadata(o)`. `created`, `modified` and `org` are the lookups of CreatedBy,
        ModifiedBy and Organization. The type, URL and links are assigned whatever happens;
        the error, if any, is that of `setSummaryFields`. */
    method SetMetadata(created: Result<User>, modified: Result<User>, org: Result<OrganizationRecord>)
      returns (err: Option<string>)
      modifies this`typ, this`url, this`related, this`summaryFields
      ensures typ == "team" && url == ResourceUrl("teams", record.id)
      ensures related == TeamRelated(record)
      ensures created.Failure? ==> err == Some(created.error)
      ensures created.Success? && modified.Failure? ==> err == Some(modified.error)
      ensures created.Success? && modified.Success? && org.Failure? ==> err == Some(org.error)
      ensures err.None? <==> created.Success? && modified.Success? && org.Success?
      ensures err.Some? ==> summaryFields == old(summaryFields)
      ensures err.None? ==> summaryFields == TeamSummary(created.value, modified.value, org.value)
    {
      var t := record;
      var links := TeamRelated(t);
      typ := "team";
      url := ResourceUrl("teams", t.id);
      related := links;
      err := SetSummaryFields(created, modified, org);
    }

    /** `setSummaryFields(o)`: returns the first failing lookup's error, in the order
        creator, modifier, organization, leaving the summary as it was; assigns the summary
        only when all three succeeded. */
    method SetSummaryFields(created: Result<User>, modified: Result<User>, org: Result<OrganizationRecord>)
      returns (err: Option<string>)
      modifies this`summaryFields
      ensures created.Failure? ==> err == Some(created.error)
      ensures created.Success? && modified.Failure? ==> err == Some(modified.error)
      ensures created.Success? && modified.Success? && org.Failure? ==> err == Some(org.error)
      ensures err.None? <==> created.Success? && modified.Success? && org.Success?
      ensures err.Some? ==> summaryFields == old(summaryFields)
      ensures err.None? ==> summaryFields == TeamSummary(created.value, modified.value, org.value)
    {
      if created.Failure? {
        return Some(created.error);
      }
      if modified.Failure? {
        return Some(modified.error);
      }
      if org.Failure? {
        return Some(org.error);
      }
      var s := TeamSummary(created.value, modified.value, org.value);
      summaryFields := s;
      return None;
    }
  }
}
