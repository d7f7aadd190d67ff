/** The stored documents the core reads and writes, the untyped `gin.H` values of the
    outward representation, and the response envelope the handlers write. */
module Models {
  import opened Wrappers
  import opened Text

  /** A clock reading (`time.Now()`), supplied by the caller. */
  type Time = int

  type uint32 = n: int | 0 <= n < 0x1_0000_0000

  datatype User = User(id: ObjectId, username: string, firstName: string, lastName: string, email: string)

  datatype Inventory = Inventory(
    id: ObjectId, name: string, description: string,
    hasActiveFailures: bool, totalHosts: uint32, hostsWithActiveFailures: uint32,
    totalGroups: uint32, groupsWithActiveFailures: uint32, hasInventorySources: bool,
    totalInventorySources: uint32, inventorySourcesWithFailures: uint32)

  /** One entry of a resource's `roles` list: a grant to a user or (`typ == "team"`) to a team. */
  datatype AccessControl = AccessControl(typ: string, userId: ObjectId, teamId: ObjectId, role: string)

  /** A project document. `attributes` stands for the SCM settings and other fields the
      handlers copy verbatim from the request (scm type, url, branch, ...). */
  datatype Project = Project(
    id: ObjectId, name: string, description: string, organizationId: ObjectId,
    scmCredentialId: Option<ObjectId>, localPath: string,
    createdBy: ObjectId, modifiedBy: ObjectId, created: Time, modified: Time,
    roles: seq<AccessControl>, attributes: map<string, string>)

  datatype Job = Job(id: ObjectId, projectId: ObjectId, jobType: string, status: string)

  datatype JobTemplate = JobTemplate(id: ObjectId, projectId: ObjectId, name: string)

  datatype TeamRecord = TeamRecord(
    id: ObjectId, name: string, description: string, organization: ObjectId,
    createdBy: ObjectId, modifiedBy: ObjectId)

  datatype OrganizationRecord = OrganizationRecord(
    id: ObjectId, name: string, description: string, createdBy: ObjectId, modifiedBy: ObjectId)

  datatype HostRecord = HostRecord(
    id: ObjectId, name: string, inventoryId: ObjectId, createdById: ObjectId, modifiedById: ObjectId)

  /** A value of a `gin.H` map. `JId` is a `bson.ObjectId` value: its raw bytes, which JSON
      renders as their hexadecimal digits. `JUserDoc` is a whole user document. */
  datatype Json =
    | JNull
    | JBool(b: bool)
    | JInt(i: int)
    | JString(s: string)
    | JId(raw: seq<byte>)
    | JList(items: seq<Json>)
    | JObject(fields: map<string, Json>)
    | JUserDoc(user: User)

  /** The text a link value shows once rendered: a string as is, an `ObjectId` as its hex digits. */
  function LinkText(j: Json): string {
    match j
    case JString(s) => s
    case JId(raw) => Hex(raw)
    case _ => ""
  }

  /** The `type`, `url`, `related` and `summary_fields` a decorator adds to a document. */
  datatype Meta = Meta(typ: string, url: string, related: map<string, Json>, summary: map<string, Json>)

  datatype Decorated<T> = Decorated(record: T, meta: Meta)

  function Records<T>(ds: seq<Decorated<T>>): (r: seq<T>)
    ensures |r| == |ds|
    ensures forall k :: 0 <= k < |ds| ==> r[k] == ds[k].record
  {
    if ds == [] then [] else [ds[0].record] + Records(ds[1..])
  }

  lemma {:induction false} RecordsAppend<T>(ds: seq<Decorated<T>>, es: seq<Decorated<T>>)
    ensures Records(ds + es) == Records(ds) + Records(es)
  {
    assert |Records(ds + es)| == |Records(ds) + Records(es)|;
  }

  /** The `{id, username, first_name, last_name}` block of a user. */
  function UserSummary(id: Json, u: User): (j: Json)
    ensures j.JObject? && j.fields.Keys == {"id", "username", "first_name", "last_name"}
    ensures j.fields["id"] == id && j.fields["username"] == JString(u.username)
    ensures j.fields["first_name"] == JString(u.firstName) && j.fields["last_name"] == JString(u.lastName)
  {
    JObject(map["id" := id, "username" := JString(u.username),
                "first_name" := JString(u.firstName), "last_name" := JString(u.lastName)])
  }

  /** `"/v1/<collection>/" + id.Hex() + "/"`. */
  function ResourceUrl(collection: string, id: ObjectId): string {
    "/v1/" + collection + "/" + Hex(id) + "/"
  }

  /** `"/v1/<collection>/" + id.Hex() + "/<sub>/"`. */
  function SubresourceUrl(collection: string, id: ObjectId, sub: string): string {
    ResourceUrl(collection, id) + sub + "/"
  }

  /** The links `"/v1/<collection>/<hex id>/<sub>/"`, one per name in `subs`, keyed by the name. */
  function SubresourceLinks(collection: string, id: ObjectId, subs: set<string>): (r: map<string, Json>)
    ensures r.Keys == subs
    ensures forall k :: k in subs ==> r[k] == JString(SubresourceUrl(collection, id, k))
  {
    map k | k in subs :: JString(SubresourceUrl(collection, id, k))
  }

  /** Reads the identifier back out of a resource URL. */
  function ParseResourceUrl(collection: string, url: string): Option<ObjectId> {
    var prefix := "/v1/" + collection + "/";
    if |url| > |prefix| && url[..|prefix|] == prefix && url[|url| - 1] == '/'
    then Unhex(url[|prefix|..|url| - 1])
    else None
  }

  /** A resource URL names exactly one identifier: it parses back to the one it was built from. */
  lemma ResourceUrlRoundTrip(collection: string, id: ObjectId)
    ensures ParseResourceUrl(collection, ResourceUrl(collection, id)) == Some(id)
  {
    var prefix := "/v1/" + collection + "/";
    var url := ResourceUrl(collection, id);
    assert url == prefix + Hex(id) + "/";
    assert url[..|prefix|] == prefix;
    assert url[|prefix|..|url| - 1] == Hex(id);
    UnhexHex(id);
  }

  lemma ResourceUrlInjective(collection: string, a: ObjectId, b: ObjectId)
    requires ResourceUrl(collection, a) == ResourceUrl(collection, b)
    ensures a == b
  {
    ResourceUrlRoundTrip(collection, a);
    ResourceUrlRoundTrip(collection, b);
  }

  // The HTTP response a handler writes.

  datatype Body<T> =
    | Payload(value: T)
    | Errors(code: nat, messages: seq<string>)   // models.Error
    | Detail(detail: string)                     // gin.H{"detail": ...}
    | NoContent

  datatype Response<T> = Response(status: nat, body: Body<T>)

  const StatusOK: nat := 200
  const StatusCreated: nat := 201
  const StatusAccepted: nat := 202
  const StatusNoContent: nat := 204
  const StatusBadRequest: nat := 400
  const StatusNotFound: nat := 404
  const StatusMethodNotAllowed: nat := 405
  const StatusInternalServerError: nat := 500

  /** `c.JSON(status, models.Error{Code: status, Messages: []string{message}})`. */
  function Failed<T>(status: nat, message: string): Response<T> {
    Response(status, Errors(status, [message]))
  }
}
