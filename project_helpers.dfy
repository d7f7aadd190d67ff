/** The project uniqueness and existence checks of the helpers package. Each asks the store
    for one count; the count is a parameter here, possibly failing. */
module ProjectHelpers {
  import opened Wrappers
  import opened Text
  import opened Seqs
  import opened Models

  /** The two selectors the helpers count with. */
  datatype ProjectQuery =
    | NameInOrganization(name: string, organizationId: ObjectId)   // {"name": n, "organization_id": o}
    | WithId(id: ObjectId)                                         // FindId(id)

  /** `db.Projects().Find(q).Count()`. */
  type Counter = ProjectQuery -> Result<nat>

  function IsUniqueProject(name: string, oid: ObjectId, count: Counter): (unique: bool)
    ensures !unique <==> count(NameInOrganization(name, oid)).Success? && count(NameInOrganization(name, oid)).value > 0
  {
    var c := count(NameInOrganization(name, oid));
    if c.Success? && c.value > 0 then false else true
  }

  function IsNotUniqueProject(name: string, oid: ObjectId, count: Counter): (taken: bool)
    ensures taken <==> count(NameInOrganization(name, oid)).Success? && count(NameInOrganization(name, oid)).value > 0
  {
    var c := count(NameInOrganization(name, oid));
    if c.Success? && c.value > 0 then true else false
  }

  /** `_projectExist`. */
  function ProjectExistsById(id: ObjectId, count: Counter): (exists_: bool)
    ensures exists_ <==> count(WithId(id)).Success? && count(WithId(id)).value > 0
  {
    var c := count(WithId(id));
    if c.Success? && c.value > 0 then true else false
  }

  /** `ProjectExist` as written: it answers the credential check `_credentialExist(ID)`
      (defined elsewhere in the package, so a parameter here) and never counts projects. */
  function ProjectExist(id: ObjectId, count: Counter, credentialExist: ObjectId -> bool): (exists_: bool)
    ensures exists_ == credentialExist(id)
  {
    if credentialExist(id) then true else false
  }

  /** `ProjectExist` as its name and the unused `_projectExist` beside it intend. */
  function ProjectExistIntended(id: ObjectId, count: Counter): (exists_: bool)
    ensures exists_ <==> count(WithId(id)).Success? && count(WithId(id)).value > 0
  {
    ProjectExistsById(id, count)
  }

  /** For one and the same count, the two uniqueness checks are each other's negation. */
  lemma UniqueComplementary(name: string, oid: ObjectId, count: Counter)
    ensures IsUniqueProject(name, oid, count) == !IsNotUniqueProject(name, oid, count)
  {
  }

  /** A failing count is read as "unique": the create and update checks let the request through. */
  lemma CountErrorIsPermissive(name: string, oid: ObjectId, count: Counter)
    requires count(NameInOrganization(name, oid)).Failure?
    ensures IsUniqueProject(name, oid, count) && !IsNotUniqueProject(name, oid, count)
  {
  }

  // The store's own count, for relating the checks to the documents it holds.

  function Matches(q: ProjectQuery): Project -> bool {
    (p: Project) =>
      match q
      case NameInOrganization(n, o) => p.name == n && p.organizationId == o
      case WithId(id) => p.id == id
  }

  /** The count over `ps`, or an error on every query when `failing`. */
  function StoreCount(ps: seq<Project>, failing: bool): Counter {
    q => if failing then Failure("count failed") else Success(|Filter(ps, Matches(q))|)
  }

  lemma {:induction false} CountPositiveIffMatch(ps: seq<Project>, q: ProjectQuery)
    ensures |Filter(ps, Matches(q))| > 0 <==> exists p :: p in ps && Matches(q)(p)
  {
    var f := Filter(ps, Matches(q));
    if |f| > 0 {
      FilterMembers(ps, Matches(q), f[0]);
    } else {
      forall p | p in ps ensures !Matches(q)(p) {
        FilterMembers(ps, Matches(q), p);
      }
    }
  }

  /** Against a working store, a name is taken exactly when a stored project of that
      organization carries it. */
  lemma NotUniqueIffStored(ps: seq<Project>, name: string, oid: ObjectId)
    ensures IsNotUniqueProject(name, oid, StoreCount(ps, false))
            <==> exists p :: p in ps && p.name == name && p.organizationId == oid
  {
    CountPositiveIffMatch(ps, NameInOrganization(name, oid));
  }

  /** The finding in `ProjectExist`: its answer is the same whatever the project store
      holds or however its count fares, and so a store holding a project under `id` with no
      credential of that id gets false, although `_projectExist` finds the project. */
  lemma ProjectExistIgnoresProjects(ps: seq<Project>, id: ObjectId, count: Counter, count': Counter, credentialExist: ObjectId -> bool)
    ensures ProjectExist(id, count, credentialExist) == ProjectExist(id, count', credentialExist)
    ensures (exists p :: p in ps && p.id == id) && !credentialExist(id) ==>
              ProjectExistsById(id, StoreCount(ps, false)) && !ProjectExist(id, StoreCount(ps, false), credentialExist)
  {
    CountPositiveIffMatch(ps, WithId(id));
  }

  /** The corrected check answers whether the store holds a project with that id. */
  lemma ProjectExistIntendedIffStored(ps: seq<Project>, id: ObjectId)
    ensures ProjectExistIntended(id, StoreCount(ps, false)) <==> exists p :: p in ps && p.id == id
  {
    CountPositiveIffMatch(ps, WithId(id));
  }
}
