/** The organization decorator: it writes `type`, `url` and `related` into the organization,
    then the summary block, which needs all three of its lookups: the first one that fails
    is returned and the summary is then not assigned. */
module OrganizationMetadata {
  import opened Wrappers
  import opened Seqs
  import opened Models

  /** The sub-resources linked under `/v1/organizations/<id>/`. */
  const OrganizationSubresources: set<string> := {
    "notification_templates_error", "notification_templates_success", "users", "object_roles",
    "notification_templates_any", "teams", "access_list", "notification_templates", "admins",
    "credentials", "inventories", "activity_stream", "projects"}

  const OrganizationUserLinks: set<string> := {"created_by", "modified_by"}

  const OrganizationRelatedKeys: set<string> := OrganizationSubresources + OrganizationUserLinks

  /** The `related` map: thirteen sub-resource links and the creator's and modifier's links. */
  function OrganizationRelated(o: OrganizationRecord): map<string, Json> {
    SubresourceLinks("organizations", o.id, OrganizationSubresources)
      ["created_by" := JString(ResourceUrl("users", o.createdBy))]
      ["modified_by" := JString(ResourceUrl("users", o.modifiedBy))]
  }

  lemma OrganizationKeysDisjoint()
    ensures OrganizationSubresources !! OrganizationUserLinks
  {
    assert "created_by" !in OrganizationSubresources && "modified_by" !in OrganizationSubresources;
  }

  lemma OrganizationKeysSize()
    ensures |OrganizationSubresources| == 13 && |OrganizationUserLinks| == 2
  {
  }

  /** `related` has exactly fifteen entries. */
  lemma OrganizationRelatedSize(o: OrganizationRecord)
    ensures OrganizationRelated(o).Keys == OrganizationRelatedKeys && |OrganizationRelated(o)| == 15
  {
    assert OrganizationRelated(o).Keys == OrganizationSubresources + OrganizationUserLinks;
    OrganizationKeysDisjoint();
    OrganizationKeysSize();
    DisjointUnionSize(OrganizationSubresources, OrganizationUserLinks);
  }

  /** Every entry of `related` but the two user links points under the organization's own
      URL; the user links point at the creator's and the modifier's user resources. */
  lemma OrganizationRelatedLinks(o: OrganizationRecord)
    ensures forall k :: k in OrganizationSubresources ==>
              OrganizationRelated(o)[k] == JString(SubresourceUrl("organizations", o.id, k))
    ensures OrganizationRelated(o)["created_by"] == JString(ResourceUrl("users", o.createdBy))
    ensures OrganizationRelated(o)["modified_by"] == JString(ResourceUrl("users", o.modifiedBy))
  {
    OrganizationKeysDisjoint();
  }

  /** Each user link reads back as the user it names. */
  lemma OrganizationUserLinksIdentify(o: OrganizationRecord)
    ensures ParseResourceUrl("users", LinkText(OrganizationRelated(o)["created_by"])) == Some(o.createdBy)
    ensures ParseResourceUrl("users", LinkText(OrganizationRelated(o)["modified_by"])) == Some(o.modifiedBy)
  {
    ResourceUrlRoundTrip("users", o.createdBy);
    ResourceUrlRoundTrip("users", o.modifiedBy);
  }

  /** One entry of the `object_roles` list. */
  function RoleEntry(description: string, name: string): Json {
    JObject(map["Description" := JString(description), "Name" := JString(name)])
  }

  /** The fixed `object_roles` list. */
  const OrganizationRoles: seq<Json> := [
    RoleEntry("Can view all settings for the organization", "auditor"),
    RoleEntry("Can manage all aspects of the organization", "admin"),
    RoleEntry("User is a member of the organization", "member"),
    RoleEntry("May view settings for the organization", "read")]

  /** The fixed `related_field_counts` object. */
  const OrganizationFieldCounts: map<string, Json> := map[
    "job_templates" := JInt(1), "users" := JInt(2), "teams" := JInt(2),
    "admins" := JInt(2), "inventories" := JInt(1), "projects" := JInt(1)]

  /** The owners as the summary lists them: the whole user documents, in pipeline order. */
  function UserDocs(us: seq<User>): (r: seq<Json>)
    ensures |r| == |us|
    ensures forall i :: 0 <= i < |us| ==> r[i] == JUserDoc(us[i])
  {
    if us == [] then [] else [JUserDoc(us[0])] + UserDocs(us[1..])
  }

  const OrganizationSummaryKeys: set<string> :=
    {"object_roles", "related_field_counts", "created_by", "modified_by", "owners"}

  /** The `SummaryFields` literal of `setSummaryFields`, once all three lookups succeeded.
      A pipeline that finds no owner leaves `owners` a nil slice, which renders as `null`. */
  function OrganizationSummary(created: User, modified: User, owners: seq<User>): map<string, Json> {
    map[
      "object_roles" := JList(OrganizationRoles),
      "related_field_counts" := JObject(OrganizationFieldCounts),
      "created_by" := UserSummary(JId(created.id), created),
      "modified_by" := UserSummary(JId(modified.id), modified),
      "owners" := if owners == [] then JNull else JList(UserDocs(owners))]
  }

  lemma OrganizationSummaryKeysAre(created: User, modified: User, owners: seq<User>)
    ensures OrganizationSummary(created, modified, owners).Keys == OrganizationSummaryKeys
  {
  }

  /** The role list has four entries, each holding a description and a name, with the
      roles in the order auditor, admin, member, read. */
  lemma OrganizationRolesOrder()
    ensures |OrganizationRoles| == 4
    ensures forall i :: 0 <= i < 4 ==>
              OrganizationRoles[i].JObject? && OrganizationRoles[i].fields.Keys == {"Description", "Name"}
    ensures OrganizationRoles[0].fields["Name"] == JString("auditor")
    ensures OrganizationRoles[1].fields["Name"] == JString("admin")
    ensures OrganizationRoles[2].fields["Name"] == JString("member")
    ensures OrganizationRoles[3].fields["Name"] == JString("read")
  {
  }

  /** `object_roles` is that same list for every organization. */
  lemma OrganizationObjectRoles(created: User, modified: User, owners: seq<User>)
    ensures OrganizationSummary(created, modified, owners)["object_roles"] == JList(OrganizationRoles)
  {
  }

  /** `related_field_counts` is a constant: two organizations with any lookups get the same
      counts, which are the fixed numbers below, not anything computed from the data. */
  lemma OrganizationFieldCountsFixed(
    created: User, modified: User, owners: seq<User>, created': User, modified': User, owners': seq<User>)
    ensures OrganizationSummary(created, modified, owners)["related_field_counts"]
         == OrganizationSummary(created', modified', owners')["related_field_counts"]
    ensures var counts := OrganizationSummary(created, modified, owners)["related_field_counts"];
      && counts.JObject? && |counts.fields| == 6
      && counts.fields["job_templates"] == JInt(1) && counts.fields["users"] == JInt(2)
      && counts.fields["teams"] == JInt(2) && counts.fields["admins"] == JInt(2)
      && counts.fields["inventories"] == JInt(1) && counts.fields["projects"] == JInt(1)
  {
    var ks := OrganizationFieldCounts.Keys;
    assert ks == {"job_templates", "users", "teams", "admins", "inventories", "projects"};
  }

  /** The user blocks copy the looked-up creator's and modifier's id (an `ObjectId`),
      username, first and last name; `owners` is `null` when the pipeline found no owner,
      and otherwise lists every owner document in order. */
  lemma OrganizationSummaryUsers(created: User, modified: User, owners: seq<User>)
    ensures var s := OrganizationSummary(created, modified, owners);
      && s["created_by"].JObject? && s["created_by"].fields["id"] == JId(created.id)
      && s["created_by"].fields["username"] == JString(created.username)
      && s["created_by"].fields["first_name"] == JString(created.firstName)
      && s["created_by"].fields["last_name"] == JString(created.lastName)
      && s["modified_by"].JObject? && s["modified_by"].fields["id"] == JId(modified.id)
      && s["modified_by"].fields["username"] == JString(modified.username)
      && s["modified_by"].fields["first_name"] == JString(modified.firstName)
      && s["modified_by"].fields["last_name"] == JString(modified.lastName)
      && (owners == [] <==> s["owners"] == JNull)
      && (owners != [] ==> s["owners"].JList? && |s["owners"].items| == |owners|
                           && forall i :: 0 <= i < |owners| ==> s["owners"].items[i] == JUserDoc(owners[i]))
  {
  }

  class Organization {
    const record: OrganizationRecord
    var typ: string
    var url: string
    var related: map<string, Json>
    var summaryFields: map<string, Json>

    constructor (record: OrganizationRecord)
      ensures this.record == record
      ensures typ == "" && url == "" && related == map[] && summaryFields == map[]
    {
      this.record := record;
      typ, url, related, summaryFields := "", "", map[], map[];
    }

    /** `setMetadata(o)`. `created` and `modified` are the lookups of CreatedBy and
        ModifiedBy, `owners` the admin pipeline's result. The type, URL and links are
        assigned whatever happens; the error, if any, is that of `setSummaryFields`. */
    method SetMetadata(created: Result<User>, modified: Result<User>, owners: Result<seq<User>>)
      returns (err: Option<string>)
      modifies this`typ, this`url, this`related, this`summaryFields
      ensures typ == "organization" && url == ResourceUrl("organizations", record.id)
      ensures related == OrganizationRelated(record)
      ensures created.Failure? ==> err == Some(created.error)
      ensures created.Success? && modified.Failure? ==> err == Some(modified.error)
      ensures created.Success? && modified.Success? && owners.Failure? ==> err == Some(owners.error)
      ensures err.None? <==> created.Success? && modified.Success? && owners.Success?
      ensures err.Some? ==> summaryFields == old(summaryFields)
      ensures err.None? ==> summaryFields == OrganizationSummary(created.value, modified.value, owners.value)
    {
      var o := record;
      var links := OrganizationRelated(o);
      typ := "organization";
      url := ResourceUrl("organizations", o.id);
      related := links;
      err := SetSummaryFields(created, modified, owners);
    }

    /** `setSummaryFields(o)`: returns the first failing lookup's error, in the order
        creator, modifier, owners, leaving the summary as it was; assigns the summary only
        when all three succeeded. */
    method SetSummaryFields(created: Result<User>, modified: Result<User>, owners: Result<seq<User>>)
      returns (err: Option<string>)
      modifies this`summaryFields
      ensures created.Failure? ==> err == Some(created.error)
      ensures created.Success? && modified.Failure? ==> err == Some(modified.error)
      ensures created.Success? && modified.Success? && owners.Failure? ==> err == Some(owners.error)
      ensures err.None? <==> created.Success? && modified.Success? && owners.Success?
      ensures err.Some? ==> summaryFields == old(summaryFields)
      ensures err.None? ==> summaryFields == OrganizationSummary(created.value, modified.value, owners.value)
    {
      if created.Failure? {
        return Some(created.error);
      }
      if modified.Failure? {
        return Some(modified.error);
      }
      if owners.Failure? {
        return Some(owners.error);
      }
      var s := OrganizationSummary(created.value, modified.value, owners.value);
      summaryFields := s;
      return None;
    }
  }
}
