/** The project handlers of the HTTP API over an in-memory store of projects, jobs, job
    templates and activity entries. The access checks, the existence checks against other
    collections, the metadata decorators, the SCM runner and the pagination are oracles the
    caller supplies; the store's own failures are per-call switches. */
module ProjectsController {
  import opened Wrappers
  import opened Text
  import opened Seqs
  import opened Models
  import opened ProjectHelpers
  import opened Listing

  /** The functions of other packages the handlers call. */
  datatype Oracles = Oracles(
    projectRead: (User, Project) -> bool,            // roles.ProjectRead
    jobRead: (User, Job) -> bool,                    // roles.JobRead
    organizationExist: ObjectId -> bool,             // helpers.OrganizationExist
    scmCredentialExist: ObjectId -> bool,            // helpers.SCMCredentialExist
    projectMetadata: Project -> Option<Meta>,        // metadata.ProjectMetadata
    jobMetadata: Job -> Option<Meta>,                // metadata.JobMetadata
    teamMetadata: TeamRecord -> Option<Meta>,        // metadata.TeamMetadata
    findTeam: ObjectId -> Result<TeamRecord>,        // db.Teams().FindId(id).One
    updateProject: Project -> Result<ObjectId>,      // runners.UpdateProject: the job id or an error
    newPagination: nat -> Pagination)                // util.NewPagination(c, count)

  /** Which store calls of one request fail. `cursorBreaksAt` is where a list query's cursor
      meets a storage error, as `Listing.Delivered` reads it. */
  datatype Faults = Faults(
    countFails: bool, insertFails: bool, updateFails: bool, findFails: bool, cursorBreaksAt: Option<nat>,
    removeJobsFails: bool, removeTemplatesFails: bool, removeProjectFails: bool)

  /** The outcome of binding the request body: the decoded value, or the errors
      `util.GetValidationErrors` reports, `eof` when the body was empty (`io.EOF`). */
  datatype Binding<T> = Bound(value: T) | Invalid(messages: seq<string>, eof: bool)

  /** The body of a PATCH: the fields present in it; an empty string or identifier is a
      field the request leaves out. */
  datatype PatchRequest = PatchRequest(
    name: string, description: string, organizationId: ObjectId,
    scmCredentialId: Option<ObjectId>, attributes: map<string, string>)

  /** An activity stream entry as `addActivity(objectID, actorID, description)` records it. */
  datatype Activity = Activity(objectId: ObjectId, actorId: ObjectId, description: string)

  /** What a handler sets going outside the store: an SCM update handed to the runner, or
      the removal of a project directory started in the background. */
  datatype Effect = SyncDispatched(project: Project) | CleanupScheduled(path: string)

  const LocalPathPrefix: string := "/opt/tensor/projects/"

  const OrganizationMissing: string := "Organization does not exists."
  const NameTaken: string := "Project with this Name and Organization already exists."
  const CredentialMissing: string := "SCM Credential does not exists."

  // Looking projects up.

  predicate HasId(ps: seq<Project>, id: ObjectId) {
    exists k :: 0 <= k < |ps| && ps[k].id == id
  }

  /** `FindId(id).One(&p)`: the first project with that id. */
  function FindProject(ps: seq<Project>, id: ObjectId): (r: Option<Project>)
    ensures r.Some? <==> HasId(ps, id)
    ensures r.Some? ==> r.value in ps && r.value.id == id
  {
    if ps == [] then None
    else if ps[0].id == id then Some(ps[0])
    else
      var r := FindProject(ps[1..], id);
      assert HasId(ps, id) ==> ps[0].id == id || HasId(ps[1..], id) by {
        if HasId(ps, id) {
          var k :| 0 <= k < |ps| && ps[k].id == id;
          if k > 0 { assert ps[1..][k - 1].id == id; }
        }
      }
      assert HasId(ps[1..], id) ==> HasId(ps, id) by {
        if HasId(ps[1..], id) {
          var k :| 0 <= k < |ps[1..]| && ps[1..][k].id == id;
          assert ps[k + 1].id == id;
        }
      }
      r
  }

  /** `UpdateId(id, doc)`: every project with that id replaced by `doc`. */
  function ReplaceById(ps: seq<Project>, id: ObjectId, doc: Project): (r: seq<Project>)
    ensures |r| == |ps|
    ensures forall k :: 0 <= k < |ps| ==> r[k] == if ps[k].id == id then doc else ps[k]
  {
    if ps == [] then [] else [if ps[0].id == id then doc else ps[0]] + ReplaceById(ps[1..], id, doc)
  }

  function NotOfProject(id: ObjectId): Project -> bool {
    (p: Project) => p.id != id
  }

  function JobNotOfProject(id: ObjectId): Job -> bool {
    (j: Job) => j.projectId != id
  }

  function TemplateNotOfProject(id: ObjectId): JobTemplate -> bool {
    (t: JobTemplate) => t.projectId != id
  }

  /** What `Middleware` does with a request: hand the loaded project to the next handler,
      or answer and `c.Abort()` the chain. */
  datatype Gate = Next(project: Project) | Abort(resp: Response<Project>)

  /** `Middleware`: 404 "Not Found" and abort when the id parameter is missing or
      malformed, or when no project carries it; otherwise the stored project goes on to
      the handler. */
  function Middleware(ps: seq<Project>, idParam: Option<ObjectId>, findFails: bool): (r: Gate)
    ensures r.Next? <==> idParam.Some? && !findFails && HasId(ps, idParam.value)
    ensures r.Next? ==> r.project in ps && r.project.id == idParam.value
    ensures r.Abort? ==> r.resp == Failed(StatusNotFound, "Not Found")
  {
    if idParam.None? || findFails then Abort(Failed(StatusNotFound, "Not Found"))
    else match FindProject(ps, idParam.value)
      case None => Abort(Failed(StatusNotFound, "Not Found"))
      case Some(p) => Next(p)
  }

  // The validation shared by create, update and patch.

  /** The three checks, in the order the handlers make them. */
  datatype Checks = Checks(organizationExists: bool, nameTaken: bool, credentialExists: bool)

  /** The message of the first failing check, if any: organization, then name, then
      credential. */
  function FirstRejection(c: Checks): (m: Option<string>)
    ensures m.None? <==> c.organizationExists && !c.nameTaken && c.credentialExists
    ensures m == Some(OrganizationMissing) <==> !c.organizationExists
    ensures m == Some(NameTaken) <==> c.organizationExists && c.nameTaken
    ensures m == Some(CredentialMissing) <==> c.organizationExists && !c.nameTaken && !c.credentialExists
  {
    if !c.organizationExists then Some(OrganizationMissing)
    else if c.nameTaken then Some(NameTaken)
    else if !c.credentialExists then Some(CredentialMissing)
    else None
  }

  /** A credential is needed only when the request names one. */
  function CredentialAccepted(o: Oracles, cred: Option<ObjectId>): bool {
    cred.None? || o.scmCredentialExist(cred.value)
  }

  /** `AddProject`'s checks: the name is tested as sent, before trimming. The handlers call
      the name check of the `controllers/helpers` package; it is taken here to count like
      `ProjectHelpers.IsNotUniqueProject`. */
  function CreateChecks(o: Oracles, ps: seq<Project>, countFails: bool, req: Project): Checks {
    Checks(
      o.organizationExist(req.organizationId),
      IsNotUniqueProject(req.name, req.organizationId, StoreCount(ps, countFails)),
      CredentialAccepted(o, req.scmCredentialId))
  }

  /** `UpdateProject`'s checks: the name is tested only when it changes. */
  function UpdateChecks(o: Oracles, ps: seq<Project>, countFails: bool, project: Project, req: Project): Checks {
    Checks(
      o.organizationExist(req.organizationId),
      req.name != project.name && IsNotUniqueProject(req.name, req.organizationId, StoreCount(ps, countFails)),
      CredentialAccepted(o, req.scmCredentialId))
  }

  /** The organization a PATCH is checked against: the request's when it has twelve bytes,
      otherwise the stored one. */
  function PatchOrganization(project: Project, req: PatchRequest): ObjectId {
    if |req.organizationId| == 12 then req.organizationId else project.organizationId
  }

  /** `PatchProject`'s checks: the organization is tested only when the request gives a
      twelve-byte one, the name only when it changes. */
  function PatchChecks(o: Oracles, ps: seq<Project>, countFails: bool, project: Project, req: PatchRequest): Checks {
    Checks(
      |req.organizationId| != 12 || o.organizationExist(req.organizationId),
      req.name != project.name && IsNotUniqueProject(req.name, PatchOrganization(project, req), StoreCount(ps, countFails)),
      CredentialAccepted(o, req.scmCredentialId))
  }

  /** Against a working store, a create is turned away for its name exactly when a stored
      project of the same organization has the name as sent. */
  lemma CreateNameCheckIffStored(o: Oracles, ps: seq<Project>, req: Project)
    ensures CreateChecks(o, ps, false, req).nameTaken
            <==> exists p :: p in ps && p.name == req.name && p.organizationId == req.organizationId
  {
    NotUniqueIffStored(ps, req.name, req.organizationId);
  }

  /** An update that keeps the name never fails the name check, even when the count fails. */
  lemma UpdateKeepingNameSkipsUniqueness(o: Oracles, ps: seq<Project>, countFails: bool, project: Project, req: Project)
    requires req.name == project.name
    ensures !UpdateChecks(o, ps, countFails, project, req).nameTaken
    ensures FirstRejection(UpdateChecks(o, ps, countFails, project, req)).None?
            <==> o.organizationExist(req.organizationId) && CredentialAccepted(o, req.scmCredentialId)
  {
  }

  /** A PATCH without a twelve-byte organization is never turned away for its organization
      and has its name checked within the stored project's organization. */
  lemma PatchWithoutOrganizationUsesStored(o: Oracles, ps: seq<Project>, countFails: bool, project: Project, req: PatchRequest)
    requires |req.organizationId| != 12
    ensures PatchChecks(o, ps, countFails, project, req).organizationExists
    ensures PatchChecks(o, ps, countFails, project, req).nameTaken
            == (req.name != project.name && IsNotUniqueProject(req.name, project.organizationId, StoreCount(ps, countFails)))
  {
  }

  /** A PATCH with a twelve-byte organization is checked against that organization. */
  lemma PatchWithOrganizationUsesRequest(o: Oracles, ps: seq<Project>, countFails: bool, project: Project, req: PatchRequest)
    requires |req.organizationId| == 12
    ensures PatchChecks(o, ps, countFails, project, req).organizationExists == o.organizationExist(req.organizationId)
    ensures PatchChecks(o, ps, countFails, project, req).nameTaken
            == (req.name != project.name && IsNotUniqueProject(req.name, req.organizationId, StoreCount(ps, countFails)))
  {
  }

  // The documents the handlers write.

  /** The project `AddProject` inserts: the request with its name and description trimmed,
      the fresh id, the local path derived from it, the acting user as creator and modifier,
      and the two clock readings as creation and modification times. */
  function Created(req: Project, user: User, id: ObjectId, createdAt: Time, modifiedAt: Time): Project {
    req.(name := Trim(req.name), description := Trim(req.description), id := id,
         localPath := LocalPathPrefix + Hex(id), createdBy := user.id, modifiedBy := user.id,
         created := createdAt, modified := modifiedAt)
  }

  /** The new project has the fresh id, a local path ending in that id's hex, the name and
      description cut of their spaces, the acting user as creator and modifier, each clock
      reading in its place, and everything else as the request carried it. */
  lemma CreatedStamps(req: Project, user: User, id: ObjectId, createdAt: Time, modifiedAt: Time)
    ensures var p := Created(req, user, id, createdAt, modifiedAt);
      && p.id == id && p.localPath == LocalPathPrefix + Hex(id) && p.localPath[|LocalPathPrefix|..] == Hex(id)
      && p.name == Trim(req.name) && p.description == Trim(req.description)
      && (p.name == [] || (p.name[0] != ' ' && p.name[|p.name| - 1] != ' '))
      && p.createdBy == p.modifiedBy == user.id && p.created == createdAt && p.modified == modifiedAt
      && p.organizationId == req.organizationId && p.scmCredentialId == req.scmCredentialId
      && p.roles == req.roles && p.attributes == req.attributes
  {
  }

  /** The local path names the project: two created projects share a path only when they
      share the id. */
  lemma LocalPathIdentifies(a: Project, b: Project, user: User, user': User, id: ObjectId, id': ObjectId,
                            createdAt: Time, modifiedAt: Time, createdAt': Time, modifiedAt': Time)
    requires Created(a, user, id, createdAt, modifiedAt).localPath == Created(b, user', id', createdAt', modifiedAt').localPath
    ensures id == id'
  {
    var pa, pb := Created(a, user, id, createdAt, modifiedAt).localPath, Created(b, user', id', createdAt', modifiedAt').localPath;
    assert pa[|LocalPathPrefix|..] == Hex(id);
    assert pb[|LocalPathPrefix|..] == Hex(id');
    HexInjective(id, id');
  }

  /** The document `UpdateProject` writes: the request, trimmed, keeping the stored id,
      creator and creation time and stamping the acting user and the clock. Its local path
      is the request's: the whole document is replaced. */
  function Updated(project: Project, req: Project, user: User, now: Time): Project {
    req.(name := Trim(req.name), description := Trim(req.description), id := project.id,
         createdBy := project.createdBy, modifiedBy := user.id, created := project.created, modified := now)
  }

  /** An update keeps the stored id, creator and creation time, stamps the acting user and
      the clock, and takes every other field from the request, the name and description cut
      of their spaces. */
  lemma UpdatedKeepsIdentity(project: Project, req: Project, user: User, now: Time)
    ensures var p := Updated(project, req, user, now);
      && p.id == project.id && p.createdBy == project.createdBy && p.created == project.created
      && p.modifiedBy == user.id && p.modified == now
      && p.name == Trim(req.name) && p.description == Trim(req.description)
      && p.organizationId == req.organizationId && p.scmCredentialId == req.scmCredentialId
      && p.localPath == req.localPath && p.roles == req.roles && p.attributes == req.attributes
  {
  }

  /** The document after `UpdateId(id, {"$set": req})`: each field the PATCH carries (after
      trimming) replaces the stored one, the others stay; the modifier and the modification
      time are always set. */
  function Patched(project: Project, req: PatchRequest, user: User, now: Time): Project {
    var name, description := Trim(req.name), Trim(req.description);
    project.(
      name := if name != [] then name else project.name,
      description := if description != [] then description else project.description,
      organizationId := if req.organizationId != [] then req.organizationId else project.organizationId,
      scmCredentialId := if req.scmCredentialId.Some? then req.scmCredentialId else project.scmCredentialId,
      attributes := project.attributes + req.attributes,
      modifiedBy := user.id, modified := now)
  }

  /** A PATCH never touches the id, the creator, the creation time, the local path or the
      roles; a field it carries replaces the stored value and a field it leaves out keeps it. */
  lemma PatchedKeepsOmitted(project: Project, req: PatchRequest, user: User, now: Time)
    ensures var p := Patched(project, req, user, now);
      && p.id == project.id && p.createdBy == project.createdBy && p.created == project.created
      && p.localPath == project.localPath && p.roles == project.roles
      && p.modifiedBy == user.id && p.modified == now
      && (Trim(req.name) == [] ==> p.name == project.name)
      && (Trim(req.name) != [] ==> p.name == Trim(req.name))
      && (Trim(req.description) == [] ==> p.description == project.description)
      && (Trim(req.description) != [] ==> p.description == Trim(req.description))
      && (req.organizationId == [] ==> p.organizationId == project.organizationId)
      && (req.organizationId != [] ==> p.organizationId == req.organizationId)
      && (req.scmCredentialId.None? ==> p.scmCredentialId == project.scmCredentialId)
      && (req.scmCredentialId.Some? ==> p.scmCredentialId == req.scmCredentialId)
      && (forall k :: k in project.attributes && k !in req.attributes ==> p.attributes[k] == project.attributes[k])
      && (forall k :: k in req.attributes ==> p.attributes[k] == req.attributes[k])
  {
  }

  /** The name check runs on the name as sent, and the stored name is trimmed: a request
      named " web " passes the check beside a stored "web" of the same organization and is
      stored as a second "web". */
  lemma UntrimmedNameAdmitsDuplicate(o: Oracles, stored: Project, req: Project, user: User, id: ObjectId, now: Time)
    requires stored.name == "web" && req.name == " web " && req.organizationId == stored.organizationId
    ensures !CreateChecks(o, [stored], false, req).nameTaken
    ensures Created(req, user, id, now, now).name == stored.name
    ensures Created(req, user, id, now, now).organizationId == stored.organizationId
  {
    NotUniqueIffStored([stored], req.name, req.organizationId);
    SpacedWebTrims();
  }

  lemma SpacedWebTrims()
    ensures Trim(" web ") == "web"
  {
    var spaced, w := " web ", "web";
    assert spaced[1..] == w + " " && (w + " ")[..3] == w;
    assert TrimLeft(w + " ") == w + " ";
    assert TrimLeft(spaced) == w + " ";
    assert TrimRight(w) == w;
    assert TrimRight(w + " ") == w;
  }

  /** The entry `addActivity` records for a handler's action. */
  function ActivityOf(id: ObjectId, user: User, name: string, action: string): Activity {
    Activity(id, user.id, "Project " + name + " " + action)
  }

  // Identifier uniqueness, the invariant the store keeps.

  ghost predicate DistinctIds(ps: seq<Project>) {
    forall i, j :: 0 <= i < j < |ps| ==> ps[i].id != ps[j].id
  }

  /** Removing projects keeps the remaining ids distinct. */
  lemma {:induction false} FilterKeepsDistinctIds(ps: seq<Project>, keep: Project -> bool)
    requires DistinctIds(ps)
    ensures DistinctIds(Filter(ps, keep))
    decreases |ps|
  {
    if ps != [] {
      var init, last := ps[..|ps| - 1], ps[|ps| - 1];
      assert DistinctIds(init) by {
        forall i, j | 0 <= i < j < |init| ensures init[i].id != init[j].id {
          assert init[i] == ps[i] && init[j] == ps[j];
        }
      }
      FilterKeepsDistinctIds(init, keep);
      if keep(last) {
        var f := Filter(init, keep);
        forall q | q in f ensures q.id != last.id {
          FilterMembers(init, keep, q);
          var k :| 0 <= k < |init| && init[k] == q;
          assert ps[k] == q;
        }
        assert Filter(ps, keep) == f + [last];
        forall i, j | 0 <= i < j < |f + [last]| ensures (f + [last])[i].id != (f + [last])[j].id {
          if j == |f| {
            assert (f + [last])[i] == f[i];
            assert f[i] in f;
          } else {
            assert (f + [last])[i] == f[i] && (f + [last])[j] == f[j];
          }
        }
      }
    }
  }

  /** After removing every project with `id`, none is left. */
  lemma RemovedIsGone(ps: seq<Project>, id: ObjectId)
    ensures !HasId(Filter(ps, NotOfProject(id)), id)
  {
    var f := Filter(ps, NotOfProject(id));
    forall k | 0 <= k < |f| ensures f[k].id != id {
      FilterMembers(ps, NotOfProject(id), f[k]);
    }
  }

  /** A replacement that keeps the id keeps every id where it was. */
  lemma ReplaceKeepsDistinctIds(ps: seq<Project>, id: ObjectId, doc: Project)
    requires DistinctIds(ps) && doc.id == id
    ensures DistinctIds(ReplaceById(ps, id, doc))
  {
    var r := ReplaceById(ps, id, doc);
    assert forall k :: 0 <= k < |ps| ==> r[k].id == ps[k].id;
  }

  /** What a lookup finds right after the insert of a project with a fresh id: that project. */
  lemma FindAfterInsert(ps: seq<Project>, p: Project)
    requires !HasId(ps, p.id)
    ensures FindProject(ps + [p], p.id) == Some(p)
    ensures DistinctIds(ps) ==> DistinctIds(ps + [p])
  {
    assert (ps + [p])[|ps|] == p;
    forall q | q in ps ensures q.id != p.id {
      var k :| 0 <= k < |ps| && ps[k] == q;
    }
    if DistinctIds(ps) {
      forall i, j | 0 <= i < j < |ps + [p]| ensures (ps + [p])[i].id != (ps + [p])[j].id {
        if j == |ps| {
          assert (ps + [p])[i] == ps[i];
        } else {
          assert (ps + [p])[i] == ps[i] && (ps + [p])[j] == ps[j];
        }
      }
    }
  }

  // The list handlers' read checks and queries.

  function ReadableBy(o: Oracles, user: User): Project -> bool {
    (p: Project) => o.projectRead(user, p)
  }

  function JobReadableBy(o: Oracles, user: User): Job -> bool {
    (j: Job) => o.jobRead(user, j)
  }

  /** `ProjectUpdates`' query: the request's filter with `job_type` forced to "update_job". */
  function UpdateJobsMatching(matches: Job -> bool): Job -> bool {
    (j: Job) => matches(j) && j.jobType == "update_job"
  }

  /** Whatever the request's filter, `ProjectUpdates` only ever lists update jobs the user
      may read. */
  lemma ProjectUpdatesListsUpdateJobs(jobs: seq<Job>, matches: Job -> bool, o: Oracles, user: User, j: Job)
    requires j in Filter(Filter(jobs, UpdateJobsMatching(matches)), JobReadableBy(o, user))
    ensures j in jobs && j.jobType == "update_job" && matches(j) && o.jobRead(user, j)
  {
    FilterMembers(Filter(jobs, UpdateJobsMatching(matches)), JobReadableBy(o, user), j);
    FilterMembers(jobs, UpdateJobsMatching(matches), j);
  }

  /** The query of `ProjectUpdates` restricted to the jobs of one project. */
  function UpdateJobsOf(matches: Job -> bool, projectId: ObjectId): Job -> bool {
    (j: Job) => matches(j) && j.jobType == "update_job" && j.projectId == projectId
  }

  /** As written, `ProjectUpdates` lists a readable update job of any project: the request's
      project plays no part in the query. */
  lemma ProjectUpdatesListsOtherProjects(jobs: seq<Job>, matches: Job -> bool, o: Oracles, user: User, project: Project, j: Job)
    requires j in jobs && j.projectId != project.id && j.jobType == "update_job" && matches(j) && o.jobRead(user, j)
    ensures j in Filter(Filter(jobs, UpdateJobsMatching(matches)), JobReadableBy(o, user))
  {
    FilterMembers(jobs, UpdateJobsMatching(matches), j);
    FilterMembers(Filter(jobs, UpdateJobsMatching(matches)), JobReadableBy(o, user), j);
  }

  /** The restricted query lists exactly the readable matching update jobs of the project. */
  lemma ProjectUpdatesOfProjectListsOwnJobs(jobs: seq<Job>, matches: Job -> bool, o: Oracles, user: User, project: Project, j: Job)
    ensures j in Filter(Filter(jobs, UpdateJobsOf(matches, project.id)), JobReadableBy(o, user))
            <==> j in jobs && j.projectId == project.id && j.jobType == "update_job" && matches(j) && o.jobRead(user, j)
  {
    FilterMembers(jobs, UpdateJobsOf(matches, project.id), j);
    FilterMembers(Filter(jobs, UpdateJobsOf(matches, project.id)), JobReadableBy(o, user), j);
  }

  // The teams of a project.

  /** A grant to a team (`v.Type == "team"`). */
  function IsTeamGrant(a: AccessControl): bool {
    a.typ == "team"
  }

  function TeamGrant(): AccessControl -> bool {
    (a: AccessControl) => IsTeamGrant(a)
  }

  /** The team of one grant, looked up and decorated, or None when either step fails. */
  function LoadTeam(find: ObjectId -> Result<TeamRecord>, decorate: TeamRecord -> Option<Meta>, id: ObjectId): Option<Decorated<TeamRecord>> {
    match find(id)
    case Failure(_) => None
    case Success(t) =>
      match decorate(t)
      case None => None
      case Some(m) => Some(Decorated(t, m))
  }

  /** What the loop of `Teams` yields over `roles`: the decorated teams of the team grants,
      in grant order, or None when one of them fails to load. */
  function TeamsListed(roles: seq<AccessControl>, find: ObjectId -> Result<TeamRecord>, decorate: TeamRecord -> Option<Meta>): Option<seq<Decorated<TeamRecord>>>
    decreases |roles|
  {
    if roles == [] then Some([])
    else
      match TeamsListed(roles[..|roles| - 1], find, decorate)
      case None => None
      case Some(acc) =>
        var a := roles[|roles| - 1];
        if !IsTeamGrant(a) then Some(acc)
        else match LoadTeam(find, decorate, a.teamId)
          case None => None
          case Some(d) => Some(acc + [d])
  }

  lemma {:induction false} TeamsListedStaysFailed(roles: seq<AccessControl>, j: nat, find: ObjectId -> Result<TeamRecord>, decorate: TeamRecord -> Option<Meta>)
    requires j <= |roles|
    requires TeamsListed(roles[..j], find, decorate).None?
    ensures TeamsListed(roles, find, decorate).None?
    decreases |roles|
  {
    if j < |roles| {
      var init := roles[..|roles| - 1];
      assert init[..j] == roles[..j];
      TeamsListedStaysFailed(init, j, find, decorate);
    } else {
      assert roles[..j] == roles;
    }
  }

  /** The teams load exactly when every team grant's team is found and decorates. */
  lemma {:induction false} TeamsListedSucceeds(roles: seq<AccessControl>, find: ObjectId -> Result<TeamRecord>, decorate: TeamRecord -> Option<Meta>)
    ensures TeamsListed(roles, find, decorate).Some?
            <==> forall k :: 0 <= k < |roles| && IsTeamGrant(roles[k]) ==> LoadTeam(find, decorate, roles[k].teamId).Some?
    decreases |roles|
  {
    if roles != [] {
      var init := roles[..|roles| - 1];
      TeamsListedSucceeds(init, find, decorate);
      assert forall k :: 0 <= k < |init| ==> init[k] == roles[k];
      if TeamsListed(init, find, decorate).None? {
        var k :| 0 <= k < |init| && IsTeamGrant(init[k]) && LoadTeam(find, decorate, init[k].teamId).None?;
        assert roles[k] == init[k];
      }
    }
  }

  /** A successful load lists one team per team grant, in grant order, each the one its
      grant names; grants to users contribute nothing. */
  lemma {:induction false} TeamsListedSpec(roles: seq<AccessControl>, find: ObjectId -> Result<TeamRecord>, decorate: TeamRecord -> Option<Meta>)
    requires TeamsListed(roles, find, decorate).Some?
    ensures var listed, grants := TeamsListed(roles, find, decorate).value, Filter(roles, TeamGrant());
      && |listed| == |grants|
      && forall k :: 0 <= k < |listed| ==> LoadTeam(find, decorate, grants[k].teamId) == Some(listed[k])
    decreases |roles|
  {
    if roles != [] {
      var init, a := roles[..|roles| - 1], roles[|roles| - 1];
      TeamsListedSpec(init, find, decorate);
      var acc := TeamsListed(init, find, decorate).value;
      var g := Filter(init, TeamGrant());
      if IsTeamGrant(a) {
        assert Filter(roles, TeamGrant()) == g + [a];
        var listed := TeamsListed(roles, find, decorate).value;
        assert listed == acc + [LoadTeam(find, decorate, a.teamId).value];
        forall k | 0 <= k < |listed| ensures LoadTeam(find, decorate, (g + [a])[k].teamId) == Some(listed[k]) {
          if k < |acc| {
            assert (g + [a])[k] == g[k] && listed[k] == acc[k];
          }
        }
      } else {
        assert Filter(roles, TeamGrant()) == g;
      }
    }
  }

  /** `Teams`: every grant of the project to a team, looked up and decorated, then paged;
      500 when a team is not found or fails to decorate. */
  method Teams(project: Project, find: ObjectId -> Result<TeamRecord>, decorate: TeamRecord -> Option<Meta>,
               paginate: nat -> Pagination)
    returns (resp: Response<Page<Decorated<TeamRecord>>>)
    requires WindowsFit(paginate)
    ensures resp == match TeamsListed(project.roles, find, decorate)
                    case None => Failed(StatusInternalServerError, "Error while getting Teams")
                    case Some(listed) => Paginate(listed, paginate(|listed|))
  {
    var roles := project.roles;
    var tms: seq<Decorated<TeamRecord>> := [];
    var i := 0;
    while i < |roles|
      invariant 0 <= i <= |roles|
      invariant TeamsListed(roles[..i], find, decorate) == Some(tms)
    {
      var v := roles[i];
      assert roles[..i + 1][..i] == roles[..i];
      if v.typ == "team" {
        var t := find(v.teamId);
        if t.Failure? {
          TeamsListedStaysFailed(roles, i + 1, find, decorate);
          return Failed(StatusInternalServerError, "Error while getting Teams");
        }
        var m := decorate(t.value);
        if m.None? {
          TeamsListedStaysFailed(roles, i + 1, find, decorate);
          return Failed(StatusInternalServerError, "Error while getting Teams");
        }
        tms := tms + [Decorated(t.value, m.value)];
      }
      i := i + 1;
    }
    assert roles[..i] == roles;
    assert WindowsFit(paginate);
    resp := Paginate(tms, paginate(|tms|));
  }

  /** After a replacement that keeps the id, a lookup of the id finds the new document. */
  lemma FoundAfterReplace(ps: seq<Project>, id: ObjectId, doc: Project)
    requires HasId(ps, id) && doc.id == id
    ensures FindProject(ReplaceById(ps, id, doc), id) == Some(doc)
  {
    var r := ReplaceById(ps, id, doc);
    var k :| 0 <= k < |ps| && ps[k].id == id;
    assert r[k].id == id;
    var q := FindProject(r, id).value;
    var j :| 0 <= j < |r| && r[j] == q;
  }

  /** With distinct ids, removing the project with a stored id removes exactly one. */
  lemma {:induction false} RemoveOneOfDistinct(ps: seq<Project>, id: ObjectId)
    requires DistinctIds(ps) && HasId(ps, id)
    ensures |Filter(ps, NotOfProject(id))| == |ps| - 1
    decreases |ps|
  {
    var init, last := ps[..|ps| - 1], ps[|ps| - 1];
    assert DistinctIds(init) by {
      forall i, j | 0 <= i < j < |init| ensures init[i].id != init[j].id {
        assert init[i] == ps[i] && init[j] == ps[j];
      }
    }
    if last.id == id {
      forall k | 0 <= k < |init| ensures NotOfProject(id)(init[k]) {
        assert init[k] == ps[k];
      }
      FilterAll(init, NotOfProject(id));
    } else {
      var k :| 0 <= k < |ps| && ps[k].id == id;
      assert init[k].id == id;
      RemoveOneOfDistinct(init, id);
    }
  }

  /** The answer once a project document is written: 500 with `failure` when its
      decoration fails, otherwise `status` with the decorated document. */
  function Answer(meta: Option<Meta>, p: Project, status: nat, failure: string): (r: Response<Decorated<Project>>)
    ensures meta.None? ==> r == Failed(StatusInternalServerError, failure)
    ensures meta.Some? ==> r.status == status && r.body == Payload(Decorated(p, meta.value))
  {
    match meta
    case None => Failed(StatusInternalServerError, failure)
    case Some(m) => Response(status, Payload(Decorated(p, m)))
  }

  /** The body of `POST /projects/:id/scm_update`; none of its fields is read. */
  datatype ScmUpdateRequest = ScmUpdateRequest

  /** The response of the SCM runner's hand-off: 405 with the runner's error, or 202 with
      `{"project_update": <hex id of the update job>}`. */
  function RunnerResponse(r: Result<ObjectId>): (resp: Response<map<string, string>>)
    ensures r.Failure? ==> resp == Failed(StatusMethodNotAllowed, r.error)
    ensures r.Success? ==>
              && resp.status == StatusAccepted && resp.body.Payload?
              && resp.body.value.Keys == {"project_update"}
              && Unhex(resp.body.value["project_update"]) == Some(r.value)
  {
    match r
    case Failure(e) => Failed(StatusMethodNotAllowed, e)
    case Success(id) => UnhexHex(id); Response(StatusAccepted, Payload(map["project_update" := Hex(id)]))
  }

  /** The store behind the handlers: the projects, jobs and job templates collections, the
      activity stream, and what the handlers set going outside the store. */
  class ProjectStore {
    var projects: seq<Project>
    var jobs: seq<Job>
    var templates: seq<JobTemplate>
    var activities: seq<Activity>
    var effects: seq<Effect>

    /** No two stored projects share an id. */
    ghost predicate Valid()
      reads this
    {
      DistinctIds(projects)
    }

    constructor (projects: seq<Project>, jobs: seq<Job>, templates: seq<JobTemplate>)
      requires DistinctIds(projects)
      ensures Valid()
      ensures this.projects == projects && this.jobs == jobs && this.templates == templates
      ensures activities == [] && effects == []
    {
      this.projects, this.jobs, this.templates := projects, jobs, templates;
      activities, effects := [], [];
    }

    /** `GetProjects`: the projects the query matches, in store order, restricted to those
        the user may read, decorated and paged. `closed` tells whether the cursor was closed. */
    method GetProjects(user: User, o: Oracles, matches: Project -> bool, f: Faults)
      returns (resp: Response<Page<Decorated<Project>>>, closed: bool)
      requires WindowsFit(o.newPagination)
      ensures var end := Drains(Filter(projects, matches), f.cursorBreaksAt, ReadableBy(o, user), o.projectMetadata);
        && resp == ListOutcome(end, o.newPagination, "Error while getting Project", "Error while getting Project")
        && (closed <==> !end.DecorationFailed?)
    {
      var end;
      end, closed := Drain(Filter(projects, matches), f.cursorBreaksAt, ReadableBy(o, user), o.projectMetadata);
      match end
      case DecorationFailed =>
        resp := Failed(StatusInternalServerError, "Error while getting Project");
      case CloseFailed =>
        resp := Failed(StatusInternalServerError, "Error while getting Project");
      case Listed(list) =>
        resp := Paginate(list, o.newPagination(|list|));
    }

    /** `ProjectUpdates`: the update jobs the query matches, restricted to those the user may
        read, decorated and paged. The jobs are not restricted to the project of the request. */
    method ProjectUpdates(user: User, o: Oracles, matches: Job -> bool, f: Faults)
      returns (resp: Response<Page<Decorated<Job>>>, closed: bool)
      requires WindowsFit(o.newPagination)
      ensures var end := Drains(Filter(jobs, UpdateJobsMatching(matches)), f.cursorBreaksAt, JobReadableBy(o, user), o.jobMetadata);
        && resp == ListOutcome(end, o.newPagination, "Error while getting Credentials", "Error while getting Credential")
        && (closed <==> !end.DecorationFailed?)
    {
      var end;
      end, closed := Drain(Filter(jobs, UpdateJobsMatching(matches)), f.cursorBreaksAt, JobReadableBy(o, user), o.jobMetadata);
      match end
      case DecorationFailed =>
        resp := Failed(StatusInternalServerError, "Error while getting Credentials");
      case CloseFailed =>
        resp := Failed(StatusInternalServerError, "Error while getting Credential");
      case Listed(list) =>
        resp := Paginate(list, o.newPagination(|list|));
    }

    /** `ProjectUpdates` restricted to the update jobs of `project`, as its route intends. */
    method ProjectUpdatesOfProject(user: User, o: Oracles, project: Project, matches: Job -> bool, f: Faults)
      returns (resp: Response<Page<Decorated<Job>>>, closed: bool)
      requires WindowsFit(o.newPagination)
      ensures var end := Drains(Filter(jobs, UpdateJobsOf(matches, project.id)), f.cursorBreaksAt, JobReadableBy(o, user), o.jobMetadata);
        && resp == ListOutcome(end, o.newPagination, "Error while getting Credentials", "Error while getting Credential")
        && (closed <==> !end.DecorationFailed?)
    {
      var end;
      end, closed := Drain(Filter(jobs, UpdateJobsOf(matches, project.id)), f.cursorBreaksAt, JobReadableBy(o, user), o.jobMetadata);
      match end
      case DecorationFailed =>
        resp := Failed(StatusInternalServerError, "Error while getting Credentials");
      case CloseFailed =>
        resp := Failed(StatusInternalServerError, "Error while getting Credential");
      case Listed(list) =>
        resp := Paginate(list, o.newPagination(|list|));
    }

    /** `AddProject`. `id` is the fresh `bson.NewObjectId()`, and `createdAt` and
        `modifiedAt` are the two clock readings. A request
        that fails to bind or is turned away by a check changes nothing; so does a failed
        insert. Otherwise the created project is appended, its creation is recorded in the
        activity stream and its SCM update is dispatched, and the answer is 201 with the
        decorated project, or 500 when the decoration fails (the project stays stored). */
    method AddProject(user: User, o: Oracles, f: Faults, req: Binding<Project>, id: ObjectId, createdAt: Time, modifiedAt: Time)
      returns (resp: Response<Decorated<Project>>)
      requires Valid() && !HasId(projects, id)
      modifies this`projects, this`activities, this`effects
      ensures Valid()
      ensures req.Invalid? ==> resp == Response(StatusBadRequest, Errors(StatusBadRequest, req.messages)) && unchanged(this)
      ensures req.Bound? && FirstRejection(CreateChecks(o, old(projects), f.countFails, req.value)).Some? ==>
                resp == Failed(StatusBadRequest, FirstRejection(CreateChecks(o, old(projects), f.countFails, req.value)).value)
                && unchanged(this)
      ensures req.Bound? && FirstRejection(CreateChecks(o, old(projects), f.countFails, req.value)).None? && f.insertFails ==>
                resp == Failed(StatusInternalServerError, "Error while creating Project") && unchanged(this)
      ensures req.Bound? && FirstRejection(CreateChecks(o, old(projects), f.countFails, req.value)).None? && !f.insertFails ==>
                var p := Created(req.value, user, id, createdAt, modifiedAt);
                && projects == old(projects) + [p]
                && activities == old(activities) + [ActivityOf(id, user, p.name, "created")]
                && effects == old(effects) + [SyncDispatched(p)]
                && resp == Answer(o.projectMetadata(p), p, StatusCreated, "Error while creating Project")
    {
      if req.Invalid? {
        return Response(StatusBadRequest, Errors(StatusBadRequest, req.messages));
      }
      var rejection := FirstRejection(CreateChecks(o, projects, f.countFails, req.value));
      if rejection.Some? {
        return Failed(StatusBadRequest, rejection.value);
      }
      var p := Created(req.value, user, id, createdAt, modifiedAt);
      if f.insertFails {
        return Failed(StatusInternalServerError, "Error while creating Project");
      }
      assert DistinctIds(projects + [p]) by { FindAfterInsert(projects, p); }
      projects := projects + [p];
      activities := activities + [ActivityOf(p.id, user, p.name, "created")];
      effects := effects + [SyncDispatched(p)];
      resp := Answer(o.projectMetadata(p), p, StatusCreated, "Error while creating Project");
    }

    /** `UpdateProject` on the project the middleware loaded. The stored document is
        replaced by the request, keeping the id, creator and creation time; the update fails
        when the store fails or no longer holds the id, and then nothing changes. */
    method UpdateProject(user: User, o: Oracles, f: Faults, project: Project, req: Binding<Project>, now: Time)
      returns (resp: Response<Decorated<Project>>)
      requires Valid()
      modifies this`projects, this`activities, this`effects
      ensures Valid()
      ensures req.Invalid? ==> resp == Response(StatusBadRequest, Errors(StatusBadRequest, req.messages)) && unchanged(this)
      ensures req.Bound? && FirstRejection(UpdateChecks(o, old(projects), f.countFails, project, req.value)).Some? ==>
                resp == Failed(StatusBadRequest, FirstRejection(UpdateChecks(o, old(projects), f.countFails, project, req.value)).value)
                && unchanged(this)
      ensures req.Bound? && FirstRejection(UpdateChecks(o, old(projects), f.countFails, project, req.value)).None?
              && (f.updateFails || !HasId(old(projects), project.id)) ==>
                resp == Failed(StatusInternalServerError, "Error while updating Project") && unchanged(this)
      ensures req.Bound? && FirstRejection(UpdateChecks(o, old(projects), f.countFails, project, req.value)).None?
              && !f.updateFails && HasId(old(projects), project.id) ==>
                var p := Updated(project, req.value, user, now);
                && projects == ReplaceById(old(projects), project.id, p)
                && activities == old(activities) + [ActivityOf(project.id, user, p.name, "updated")]
                && effects == old(effects) + [SyncDispatched(p)]
                && resp == Answer(o.projectMetadata(p), p, StatusOK, "Error while creating Project")
    {
      if req.Invalid? {
        return Response(StatusBadRequest, Errors(StatusBadRequest, req.messages));
      }
      var rejection := FirstRejection(UpdateChecks(o, projects, f.countFails, project, req.value));
      if rejection.Some? {
        return Failed(StatusBadRequest, rejection.value);
      }
      var p := Updated(project, req.value, user, now);
      if f.updateFails || !HasId(projects, project.id) {
        return Failed(StatusInternalServerError, "Error while updating Project");
      }
      ReplaceKeepsDistinctIds(projects, project.id, p);
      projects := ReplaceById(projects, project.id, p);
      activities := activities + [ActivityOf(p.id, user, p.name, "updated")];
      effects := effects + [SyncDispatched(p)];
      resp := Answer(o.projectMetadata(p), p, StatusOK, "Error while creating Project");
    }

    /** `PatchProject`: checks the request against the project the middleware loaded,
        then merges the fields the request carries into the document stored under its id
        (the `$set` works on the store, not on the loaded copy),
        records the activity under the trimmed requested name, then reads the document back
        (404 when that read fails, with the update already made), dispatches its SCM update
        and answers with it decorated. */
    method PatchProject(user: User, o: Oracles, f: Faults, project: Project, req: Binding<PatchRequest>, now: Time)
      returns (resp: Response<Decorated<Project>>)
      requires Valid()
      modifies this`projects, this`activities, this`effects
      ensures Valid()
      ensures req.Invalid? ==> resp == Response(StatusBadRequest, Errors(StatusBadRequest, req.messages)) && unchanged(this)
      ensures req.Bound? && FirstRejection(PatchChecks(o, old(projects), f.countFails, project, req.value)).Some? ==>
                resp == Failed(StatusBadRequest, FirstRejection(PatchChecks(o, old(projects), f.countFails, project, req.value)).value)
                && unchanged(this)
      ensures req.Bound? && FirstRejection(PatchChecks(o, old(projects), f.countFails, project, req.value)).None?
              && (f.updateFails || !HasId(old(projects), project.id)) ==>
                resp == Failed(StatusInternalServerError, "Error while updating Project") && unchanged(this)
      ensures req.Bound? && FirstRejection(PatchChecks(o, old(projects), f.countFails, project, req.value)).None?
              && !f.updateFails && HasId(old(projects), project.id) ==>
                var p := Patched(FindProject(old(projects), project.id).value, req.value, user, now);
                && projects == ReplaceById(old(projects), project.id, p)
                && activities == old(activities) + [ActivityOf(project.id, user, Trim(req.value.name), "updated")]
                && effects == (if f.findFails then old(effects) else old(effects) + [SyncDispatched(p)])
                && resp == if f.findFails then Failed(StatusNotFound, "Error while getting the updated Project")
                           else Answer(o.projectMetadata(p), p, StatusOK, "Error while getting Project Information")
    {
      if req.Invalid? {
        return Response(StatusBadRequest, Errors(StatusBadRequest, req.messages));
      }
      var rejection := FirstRejection(PatchChecks(o, projects, f.countFails, project, req.value));
      if rejection.Some? {
        return Failed(StatusBadRequest, rejection.value);
      }
      if f.updateFails || !HasId(projects, project.id) {
        return Failed(StatusInternalServerError, "Error while updating Project");
      }
      var p := Patched(FindProject(projects, project.id).value, req.value, user, now);
      var replaced := ReplaceById(projects, project.id, p);
      assert DistinctIds(replaced) by { ReplaceKeepsDistinctIds(projects, project.id, p); }
      assert FindProject(replaced, project.id) == Some(p) by { FoundAfterReplace(projects, project.id, p); }
      projects := replaced;
      activities := activities + [ActivityOf(project.id, user, Trim(req.value.name), "updated")];
      resp := ReadBackPatched(o, f, project.id, p);
    }

    /** The end of `PatchProject`: reads the updated document back by id (404 when the
        read fails), dispatches its SCM update and answers with it decorated. `written` is
        the document the update stored under `id`. */
    method ReadBackPatched(o: Oracles, f: Faults, id: ObjectId, written: Project) returns (resp: Response<Decorated<Project>>)
      requires FindProject(projects, id) == Some(written)
      modifies this`effects
      ensures f.findFails ==> resp == Failed(StatusNotFound, "Error while getting the updated Project") && effects == old(effects)
      ensures !f.findFails ==>
                && effects == old(effects) + [SyncDispatched(written)]
                && resp == Answer(o.projectMetadata(written), written, StatusOK, "Error while getting Project Information")
    {
      if f.findFails {
        return Failed(StatusNotFound, "Error while getting the updated Project");
      }
      var stored := FindProject(projects, id).value;
      effects := effects + [SyncDispatched(stored)];
      resp := Answer(o.projectMetadata(stored), stored, StatusOK, "Error while getting Project Information");
    }

    /** `RemoveProject`: removes the project's jobs, then its job templates, then the
        project itself, stopping at the first removal that fails (what was removed before
        stays removed); on success schedules the removal of its directory, records the
        deletion and answers 204. */
    method RemoveProject(user: User, f: Faults, project: Project) returns (resp: Response<Decorated<Project>>)
      requires Valid()
      modifies this`projects, this`jobs, this`templates, this`activities, this`effects
      ensures Valid()
      ensures f.removeJobsFails ==> resp == Failed(StatusInternalServerError, "Error while removing Project Jobs") && unchanged(this)
      ensures !f.removeJobsFails ==> jobs == Filter(old(jobs), JobNotOfProject(project.id))
      ensures !f.removeJobsFails && f.removeTemplatesFails ==>
                resp == Failed(StatusInternalServerError, "Error while removing Project Job Templates")
                && templates == old(templates) && projects == old(projects)
                && activities == old(activities) && effects == old(effects)
      ensures !f.removeJobsFails && !f.removeTemplatesFails ==> templates == Filter(old(templates), TemplateNotOfProject(project.id))
      ensures !f.removeJobsFails && !f.removeTemplatesFails && (f.removeProjectFails || !HasId(old(projects), project.id)) ==>
                resp == Failed(StatusInternalServerError, "Error while removing Project")
                && projects == old(projects) && activities == old(activities) && effects == old(effects)
      ensures !f.removeJobsFails && !f.removeTemplatesFails && !f.removeProjectFails && HasId(old(projects), project.id) ==>
                && projects == Filter(old(projects), NotOfProject(project.id))
                && !HasId(projects, project.id)
                && |projects| == |old(projects)| - 1
                && effects == old(effects) + [CleanupScheduled(project.localPath)]
                && activities == old(activities) + [ActivityOf(project.id, user, project.name, "deleted")]
                && resp == Response(StatusNoContent, NoContent)
    {
      if f.removeJobsFails {
        return Failed(StatusInternalServerError, "Error while removing Project Jobs");
      }
      jobs := Filter(jobs, JobNotOfProject(project.id));
      if f.removeTemplatesFails {
        return Failed(StatusInternalServerError, "Error while removing Project Job Templates");
      }
      templates := Filter(templates, TemplateNotOfProject(project.id));
      if f.removeProjectFails || !HasId(projects, project.id) {
        return Failed(StatusInternalServerError, "Error while removing Project");
      }
      FilterKeepsDistinctIds(projects, NotOfProject(project.id));
      RemovedIsGone(projects, project.id);
      RemoveOneOfDistinct(projects, project.id);
      projects := Filter(projects, NotOfProject(project.id));
      effects := effects + [CleanupScheduled(project.localPath)];
      activities := activities + [ActivityOf(project.id, user, project.name, "deleted")];
      resp := Response(StatusNoContent, NoContent);
    }

    /** `SCMUpdate` as written: a body that fails to bind answers 400, except an empty body,
        on which the handler returns without writing any response (the client then sees
        gin's default empty 200) and without dispatching; otherwise the update is handed to
        the runner. */
    method SCMUpdate(o: Oracles, project: Project, req: Binding<ScmUpdateRequest>) returns (resp: Option<Response<map<string, string>>>)
      modifies this`effects
      ensures req.Invalid? ==> effects == old(effects)
      ensures req.Invalid? && !req.eof ==> resp == Some(Response(StatusBadRequest, Errors(StatusBadRequest, req.messages)))
      ensures req.Invalid? && req.eof ==> resp.None?
      ensures req.Bound? ==>
                && effects == old(effects) + [SyncDispatched(project)]
                && resp == Some(RunnerResponse(o.updateProject(project)))
    {
      if req.Invalid? {
        if !req.eof {
          return Some(Response(StatusBadRequest, Errors(StatusBadRequest, req.messages)));
        }
        return None;
      }
      effects := effects + [SyncDispatched(project)];
      resp := Some(RunnerResponse(o.updateProject(project)));
    }

    /** `SCMUpdate` as its comment intends: an empty body is accepted, since every field is
        optional, and the update is dispatched and answered as for any bound body. */
    method SCMUpdateIntended(o: Oracles, project: Project, req: Binding<ScmUpdateRequest>) returns (resp: Option<Response<map<string, string>>>)
      modifies this`effects
      ensures req.Invalid? && !req.eof ==>
                && effects == old(effects)
                && resp == Some(Response(StatusBadRequest, Errors(StatusBadRequest, req.messages)))
      ensures req.Bound? || req.eof ==>
                && effects == old(effects) + [SyncDispatched(project)]
                && resp == Some(RunnerResponse(o.updateProject(project)))
      ensures resp.Some?
    {
      if req.Invalid? && !req.eof {
        return Some(Response(StatusBadRequest, Errors(StatusBadRequest, req.messages)));
      }
      effects := effects + [SyncDispatched(project)];
      resp := Some(RunnerResponse(o.updateProject(project)));
    }
  }
}
