# Tensor project handlers and metadata decorators in Dafny

This project models the core of Tensor's API server, an Ansible front end built on gin and MongoDB:

- the HTTP handlers of the project resource (`controllers/projects/controller.go`);
- the metadata decorators that turn stored hosts, organizations and teams into their outward representation: a type tag, a URL, a `related` map of links and a summary block;
- the project uniqueness and existence helpers.

The MongoDB collections are an in-memory store, `ProjectsController.ProjectStore`, which holds:

- the projects, jobs and job templates;
- the activity stream;
- a log of what the handlers start outside the store (SCM updates handed to the runner, and project directory removals).

Each handler is a method that changes the store and returns a status and a body. The store's own failures (count, insert, update, find, a storage error on a list cursor, and each removal) are per-call switches in `Faults`. The functions of other packages are parameters in `Oracles`:

- access checks;
- organization and credential existence;
- the project, job and team decorators;
- the team lookup;
- the SCM runner;
- pagination.

Clock readings are parameters, and `bson.NewObjectId()` is a fresh `id` parameter.

Each list handler is a loop that skips unreadable records and fails on the first record that will not decorate. A list query's cursor may meet a storage error part way: the loop then ends on it and `iter.Close` reports it. The handlers also report whether they closed the cursor. Each loop is proved against a left-recursive specification function:

- `Listing.Streamed` for projects and update jobs;
- `ProjectsController.TeamsListed` for the teams.

Lemmas then state what that function yields.

The decorators are classes whose methods assign their fields in place. The host decorator fills each summary entry from its own lookup. The organization and team decorators return the first lookup error and then leave the summary unassigned.

Identifiers are byte sequences, and `.Hex()` is `Text.Hex`. A JSON value of `bson.ObjectId` type is `Json.JId`.

## Model

| member | source | states |
|---|---|---|
| ProjectHelpers.IsUniqueProject | api/helpers/project.go:8-15 | true unless the count succeeds with a positive value |
| ProjectHelpers.IsNotUniqueProject | api/helpers/project.go:17-24 | true exactly when the count succeeds with a positive value |
| ProjectHelpers.UniqueComplementary | api/helpers/project.go:8-24 | for one count result the two helpers always disagree |
| ProjectHelpers.CountErrorIsPermissive | api/helpers/project.go:9-14 | a failing count makes a name unique and never taken |
| ProjectHelpers.Matches | api/helpers/project.go:9-27 | the selector of each count: same name and organization, or same id; its meaning is stated by CountPositiveIffMatch |
| ProjectHelpers.StoreCount | api/helpers/project.go:9-27 | the count over a store, failing on every query or giving the number of matching projects; stated by CountPositiveIffMatch and NotUniqueIffStored |
| ProjectHelpers.CountPositiveIffMatch | api/helpers/project.go:18-20 | the store count is positive exactly when a stored project matches name and organization |
| ProjectHelpers.NotUniqueIffStored | api/helpers/project.go:17-24 | against a working store, a name is taken exactly when a project of that organization carries it |
| ProjectHelpers.ProjectExistsById | api/helpers/project.go:26-32 | the id count succeeds with a positive value exactly when the helper holds |
| ProjectHelpers.ProjectExist | api/helpers/project.go:34-39 | the result is the credential-existence answer for the id |
| ProjectHelpers.ProjectExistIgnoresProjects | api/helpers/project.go:34-39 | the answer is the same for any two counts of the project store; a store holding a project under the id with no credential of that id makes `_projectExist` true and `ProjectExist` false |
| ProjectHelpers.ProjectExistIntended | api/helpers/project.go:26-32 | the corrected helper delegates to the project count |
| ProjectHelpers.ProjectExistIntendedIffStored | api/helpers/project.go:26-32 | the corrected helper holds exactly when a project with the id is stored |
| Seqs.Filter | controllers/projects/controller.go:90-95 | the kept elements are the elements of the input that satisfy the predicate, never more than the input |
| Seqs.FilterMembers | controllers/projects/controller.go:90-95 | an element is kept exactly when it is in the input and satisfies the predicate, with its multiplicity |
| Seqs.FilterAppend | controllers/projects/controller.go:90-106 | filtering a concatenation is the concatenation of the filtered parts |
| Seqs.FilterShorter | controllers/projects/controller.go:116 | a rejected element makes the count smaller than the raw count |
| Seqs.FilterAll | controllers/projects/controller.go:116 | when every element is kept, the filter is the identity |
| Listing.Stream | controllers/projects/controller.go:90-106 | the loop's outcome is the specification `Streamed` of the cursor |
| Listing.Streamed | controllers/projects/controller.go:90-106 | the left-recursive definition of what the loop yields; its properties are StreamedSucceeds, StreamedStaysFailed and StreamedSpec |
| Listing.StreamedSucceeds | controllers/projects/controller.go:93-103 | the loop succeeds exactly when every readable record decorates |
| Listing.StreamedStaysFailed | controllers/projects/controller.go:96-103 | a decoration failure on a prefix aborts the whole list |
| Listing.StreamedSpec | controllers/projects/controller.go:90-106 | on success the list is exactly the readable records in cursor order, each with its decoration |
| Listing.Paginate | controllers/projects/controller.go:116-129 | 404 with the detail "Invalid page <page>: That page contains no results." when the page is out of range; otherwise 200 with the count of the whole list, the next and previous links, and the window skip..end |
| Listing.InvalidPage | controllers/projects/controller.go:120 | the 404 detail text with the page written by `strconv.Itoa`; stated by Paginate and IntToStringValue |
| Listing.RecordsSlice | controllers/projects/controller.go:128 | the records of a window are the window of the records |
| Listing.Delivered | controllers/projects/controller.go:90-114 | the documents `iter.Next` hands out: a prefix of the cursor, shorter exactly when the storage error strikes before its end, and then as long as the documents read before it |
| Listing.Drains | controllers/projects/controller.go:90-114 | the definition of how the loop and the close end: decoration failure among the delivered documents first, then the storage error, otherwise the list |
| Listing.Drain | controllers/projects/controller.go:90-114 | the outcome is `Drains` of the cursor, and the cursor is closed exactly when no document failed to decorate |
| Listing.DrainIntended | controllers/projects/controller.go:90-114 | the same outcome as `Drain`, with the cursor closed on every exit |
| Listing.DecorationFailureEndsStream | controllers/projects/controller.go:96-103 | a readable delivered document that fails to decorate ends the stream in a decoration failure |
| Listing.ListOutcome | controllers/projects/controller.go:96-129 | the definition of the response for each way the stream ends; its properties are stated by ListOutcomeSpec |
| Listing.ListOutcomeSpec | controllers/projects/controller.go:90-129 | a readable delivered record that fails to decorate gives 500 with the decoration message, whatever follows it; otherwise a storage error gives 500 with the close message; an unbroken cursor whose readable records all decorate gives 404 with the page detail for a page out of range, else 200 with the count of the readable records, the links and their window; 200 exactly when the cursor is unbroken, every readable record decorates and the page exists |
| ProjectsController.ProjectStore.GetProjects | controllers/projects/controller.go:71-130 | the response is the list outcome of the matching projects, filtered by read access in store order, with "Error while getting Project" on either failure; the cursor is left open exactly when a decoration failed |
| ProjectsController.ProjectStore.ProjectUpdates | controllers/projects/controller.go:575-642 | the response is the list outcome of the matching update jobs of every project, with the decoration message "…Credentials" and the close message "…Credential" kept as written; the cursor is left open exactly when a decoration failed |
| ProjectsController.ProjectUpdatesListsUpdateJobs | controllers/projects/controller.go:586 | every listed job is stored, is an `update_job`, matches the query and is readable by the user |
| ProjectsController.UpdateJobsMatching | controllers/projects/controller.go:586 | the query as written: the request's filter plus `job_type` "update_job"; stated by ProjectUpdatesListsUpdateJobs and ProjectUpdatesListsOtherProjects |
| ProjectsController.ProjectUpdatesListsOtherProjects | controllers/projects/controller.go:580-588 | a readable matching update job of another project is listed |
| ProjectsController.ProjectStore.ProjectUpdatesOfProject | controllers/projects/controller.go:575-642 | the list outcome over the matching update jobs of the request's project only |
| ProjectsController.UpdateJobsOf | controllers/projects/controller.go:586 | the corrected query, also matching the project's id; stated by ProjectUpdatesOfProjectListsOwnJobs |
| ProjectsController.ProjectUpdatesOfProjectListsOwnJobs | controllers/projects/controller.go:580-588 | with the project restriction, a job is listed exactly when it is a stored, readable, matching update job of that project |
| ProjectsController.TeamsListedSucceeds | controllers/projects/controller.go:501-525 | the teams load exactly when every team grant's team is found and decorates |
| ProjectsController.TeamsListed | controllers/projects/controller.go:501-525 | the left-recursive definition of what the teams loop yields; its properties are TeamsListedSucceeds, TeamsListedStaysFailed and TeamsListedSpec |
| ProjectsController.LoadTeam | controllers/projects/controller.go:503-521 | one team grant's lookup then decoration, failing when either fails; stated by TeamsListedSucceeds and TeamsListedSpec |
| ProjectsController.TeamsListedStaysFailed | controllers/projects/controller.go:503-521 | one failing team aborts the whole list |
| ProjectsController.TeamsListedSpec | controllers/projects/controller.go:501-525 | on success there is one decorated team per team grant, in grant order, each the team its grant names |
| ProjectsController.Teams | controllers/projects/controller.go:495-541 | 500 "Error while getting Teams" when the teams do not load, otherwise the page of the loaded teams |
| ProjectsController.FindProject | controllers/projects/controller.go:46 | found exactly when some stored project has the id, and then a stored project with that id |
| ProjectsController.Middleware | controllers/projects/controller.go:32-59 | the project goes on to the handler exactly when the parameter parses, the lookup works and the id is stored; otherwise the chain is aborted with 404 and the message "Not Found" |
| ProjectsController.ReplaceById | controllers/projects/controller.go:276 | an update by id replaces exactly the documents with that id and keeps the length |
| ProjectsController.FirstRejection | controllers/projects/controller.go:147-173 | each message is returned exactly when its check fails and every earlier check passed; none when all pass |
| ProjectsController.CredentialAccepted | controllers/projects/controller.go:165-166 | a request without a credential passes, one with a credential passes only when it exists; stated by UpdateKeepingNameSkipsUniqueness and the handlers' 400 branches |
| ProjectsController.CreateChecks | controllers/projects/controller.go:146-173 | the create checks: organization, the name as sent, and the credential only when one is given; stated by CreateNameCheckIffStored |
| ProjectsController.UpdateChecks | controllers/projects/controller.go:234-263 | the update checks, the name only when it changes; stated by UpdateKeepingNameSkipsUniqueness |
| ProjectsController.PatchChecks | controllers/projects/controller.go:324-359 | the patch checks with the 12-byte organization rule; stated by PatchWithoutOrganizationUsesStored and PatchWithOrganizationUsesRequest |
| ProjectsController.PatchOrganization | controllers/projects/controller.go:336-339 | the organization a patch's name is checked in: the request's when it has twelve bytes, the stored one otherwise; stated by PatchWithoutOrganizationUsesStored and PatchWithOrganizationUsesRequest |
| ProjectsController.CreateNameCheckIffStored | controllers/projects/controller.go:155-162 | a create is turned away for its name exactly when a stored project of the organization has the name as sent |
| ProjectsController.UpdateKeepingNameSkipsUniqueness | controllers/projects/controller.go:243-252 | an update that keeps the name never fails the name check, and passes exactly when organization and credential do |
| ProjectsController.PatchWithoutOrganizationUsesStored | controllers/projects/controller.go:324-341 | without a 12-byte organization the organization check passes and the name is checked within the stored organization |
| ProjectsController.PatchWithOrganizationUsesRequest | controllers/projects/controller.go:324-341 | with a 12-byte organization both checks use the request's organization |
| ProjectsController.CreatedStamps | controllers/projects/controller.go:176-184 | the created project has the fresh id, the local path "/opt/tensor/projects/" followed by that id's hex, the trimmed name and description, the acting user as creator and modifier, each of the two clock readings in its place, and the request's organization, credential, roles and attributes |
| ProjectsController.Created | controllers/projects/controller.go:176-184 | the definition of the inserted document; its properties are stated by CreatedStamps, LocalPathIdentifies and UntrimmedNameAdmitsDuplicate |
| ProjectsController.LocalPathIdentifies | controllers/projects/controller.go:180 | two created projects share a local path only when they share the id, whatever the four clock readings |
| ProjectsController.UntrimmedNameAdmitsDuplicate | controllers/projects/controller.go:156-177 | a " web " request passes the name check beside a stored "web" and is stored as a second "web" |
| ProjectsController.UpdatedKeepsIdentity | controllers/projects/controller.go:266-273 | an update keeps id, creator and creation time, stamps modifier and time, has the trimmed name and description, and takes organization, credential, local path, roles and attributes from the request |
| ProjectsController.Updated | controllers/projects/controller.go:266-273 | the definition of the written document; its properties are stated by UpdatedKeepsIdentity |
| ProjectsController.PatchedKeepsOmitted | controllers/projects/controller.go:362-369 | a patch keeps id, creator, creation time, path and roles and stamps modifier and time; a non-empty trimmed name or description, a non-empty organization, a given credential and each given attribute replaces the stored value, and each absent one keeps it |
| ProjectsController.Patched | controllers/projects/controller.go:362-369 | the definition of the merged document, taking the stored document as its base; its properties are stated by PatchedKeepsOmitted |
| ProjectsController.FindAfterInsert | controllers/projects/controller.go:186 | after inserting a project with a fresh id, the lookup finds it, and ids stay distinct |
| ProjectsController.FoundAfterReplace | controllers/projects/controller.go:369-383 | after the update, reading the id back finds the written document |
| ProjectsController.ReplaceKeepsDistinctIds | controllers/projects/controller.go:276 | an update that keeps the id keeps the ids distinct |
| ProjectsController.FilterKeepsDistinctIds | controllers/projects/controller.go:444 | removing projects keeps the remaining ids distinct |
| ProjectsController.RemovedIsGone | controllers/projects/controller.go:444 | after the removal no project with the id is left |
| ProjectsController.RemoveOneOfDistinct | controllers/projects/controller.go:444 | with distinct ids, exactly one project is removed |
| ProjectsController.ActivityOf | controllers/projects/controller.go:196 | the entry `addActivity` records: the project id, the acting user and "Project <name> <action>"; stated by the ensures of AddProject, UpdateProject, PatchProject and RemoveProject |
| ProjectsController.Answer | controllers/projects/controller.go:203-213 | 500 with the handler's message when decoration fails, otherwise the status with the decorated document |
| ProjectsController.ProjectStore.AddProject | controllers/projects/controller.go:133-214 | 400 with the binding errors, or 400 with the first failed check, or 500 on a failed insert, each leaving the store unchanged; otherwise the created project is appended, then a "created" activity and one dispatch are recorded, and the answer is 201 or 500 by decoration alone, whatever the runner returns; ids stay distinct |
| ProjectsController.ProjectStore.UpdateProject | controllers/projects/controller.go:218-305 | the same validation order with the name check only on a change; 500 "Error while updating Project" and nothing changed when the update fails; otherwise the stored document replaced, an "updated" activity and a dispatch, and 200 or 500 "Error while creating Project" by decoration alone |
| ProjectsController.ProjectStore.PatchProject | controllers/projects/controller.go:308-409 | validation against the loaded project with the 12-byte organization rule; on a failed update nothing changes; otherwise the request is merged into the document stored under the id, the activity uses the trimmed requested name, and a failed read-back gives 404 without dispatch; otherwise a dispatch and 200 or 500 by decoration |
| ProjectsController.ProjectStore.ReadBackPatched | controllers/projects/controller.go:381-408 | 404 "Error while getting the updated Project" with no dispatch when the read fails; otherwise the written document is dispatched and answered |
| ProjectsController.ProjectStore.RemoveProject | controllers/projects/controller.go:413-466 | jobs, then templates, then the project are removed. The first failing step answers 500 with its own message and skips the later steps, while what was already removed stays removed. On success the path cleanup and the "deleted" activity are recorded and the answer is 204 |
| ProjectsController.RunnerResponse | controllers/projects/controller.go:665-675 | 405 with the runner's error, or 202 with the single key "project_update" holding the hex of the update job's id, which decodes back to it |
| ProjectsController.ProjectStore.SCMUpdate | controllers/projects/controller.go:648-676 | any binding error leaves nothing dispatched: 400 for a malformed body, and for an empty one the handler writes nothing (the client sees gin's default empty 200); only a bound body reaches the runner |
| ProjectsController.ProjectStore.SCMUpdateIntended | controllers/projects/controller.go:654 | an empty body is treated like a bound one: dispatched and always answered |
| Text.Hex | controllers/projects/controller.go:180 | two lower-case hex digits per byte |
| Text.HexByteDecodes | controllers/projects/controller.go:180 | each byte's two digits decode back to it |
| Text.UnhexHex | controllers/projects/controller.go:180 | decoding the hex of an id gives the id back |
| Text.HexInjective | controllers/projects/controller.go:180 | different ids have different hex strings |
| Text.Unhex | api/metadata/host.go:15 | the left inverse of `Hex` on lower-case digit pairs, used to read ids back out of the links and the runner's answer; stated by HexByteDecodes and UnhexHex |
| Text.IntToString | controllers/projects/controller.go:120 | `strconv.Itoa`; stated by IntToStringValue and NatToStringCanonical |
| Text.NatToStringValue | controllers/projects/controller.go:120 | the decimal text of a natural number reads back as that number |
| Text.NatToStringCanonical | controllers/projects/controller.go:120 | the decimal text of a natural number starts with a zero only when the number is zero |
| Text.IntToStringValue | controllers/projects/controller.go:120 | a minus sign exactly for a negative number, then the decimal digits of its magnitude with no leading zero (unless it is zero), which read back as it |
| Text.Trim | controllers/projects/controller.go:176-177 | the result neither starts nor ends with a space and is the input with leading and trailing spaces cut |
| Text.TrimIdempotent | controllers/projects/controller.go:176-177 | trimming twice is trimming once |
| Models.SubresourceLinks | api/organizations/metadata.go:21-33 | one link per sub-resource name, each under the record's own URL |
| Models.ResourceUrlRoundTrip | api/metadata/host.go:15 | a resource URL parses back to the id it was built from |
| Models.ResourceUrlInjective | api/metadata/host.go:17-18 | distinct ids give distinct resource URLs |
| Models.ResourceUrl | api/metadata/host.go:15 | `"/v1/<collection>/" + id.Hex() + "/"`, the URL of every decorator and user link; stated by ResourceUrlRoundTrip and ResourceUrlInjective |
| Models.UserSummary | api/metadata/host.go:55-60 | the four user fields copied from the looked-up user |
| HostMetadata.HostUserSummary | api/metadata/host.go:55-60 | the host summary's `created_by` and `modified_by` block, with the user's id as its hex string; stated by UserSummary and HostSummary |
| HostMetadata.Host.SetMetadata | api/metadata/host.go:11-33 | type "host", the host URL, the written `related` map, and a summary that is always assigned, with each entry set by its own lookup |
| HostMetadata.HostRelated | api/metadata/host.go:16-30 | the definition of the related map as written; its properties are stated by HostRelatedSize, HostRelatedSubresources and HostRelatedLinks |
| HostMetadata.HostSummary | api/metadata/host.go:35-101 | `recent_jobs` empty; each other entry holds its looked-up value on success and nil on failure, independently of the other lookups |
| HostMetadata.HostRelatedSize | api/metadata/host.go:16-30 | exactly thirteen keys |
| HostMetadata.HostRelatedSubresources | api/metadata/host.go:19-28 | each sub-resource entry links under the host's URL |
| HostMetadata.HostRelatedLinks | api/metadata/host.go:17-29 | both user links come from `CreatedByID`; the inventory entry is the raw concatenation |
| HostMetadata.InventorySummary | api/metadata/host.go:85-97 | the eleven inventory keys, with id, name and description copied |
| HostMetadata.ModifiedByLinkNamesCreator | api/metadata/host.go:18 | for a host modified by someone else, `modified_by` reads back as the creator |
| HostMetadata.InventoryLinkIsNotAUrl | api/metadata/host.go:29 | the rendered inventory link starts with "2f" and is not the inventory URL |
| HostMetadata.IntendedHostRelatedKeys | api/metadata/host.go:16-30 | the corrected map has the same thirteen keys and sub-resource links |
| HostMetadata.IntendedHostRelated | api/metadata/host.go:16-30 | the corrected related map; its properties are stated by IntendedHostRelatedKeys and IntendedHostLinksIdentify |
| HostMetadata.IntendedHostLinksIdentify | api/metadata/host.go:17-29 | each corrected user and inventory link reads back as the id it names |
| OrganizationMetadata.Organization.SetMetadata | api/organizations/metadata.go:13-41 | type, URL and `related` always assigned; the error of the summary step returned |
| OrganizationMetadata.OrganizationRelated | api/organizations/metadata.go:18-34 | the definition of the related map; its properties are stated by OrganizationRelatedSize, OrganizationRelatedLinks and OrganizationUserLinksIdentify |
| OrganizationMetadata.OrganizationSummary | api/organizations/metadata.go:81-128 | the definition of the summary map, with `owners` null for an empty pipeline result; its properties are stated by OrganizationSummaryKeysAre, OrganizationObjectRoles, OrganizationFieldCountsFixed and OrganizationSummaryUsers |
| OrganizationMetadata.Organization.SetSummaryFields | api/organizations/metadata.go:43-131 | the first failing lookup's error with the summary untouched; the summary assigned exactly when all three succeed |
| OrganizationMetadata.OrganizationRelatedSize | api/organizations/metadata.go:18-34 | exactly fifteen keys |
| OrganizationMetadata.OrganizationRelatedLinks | api/organizations/metadata.go:18-34 | user links point to the creator and modifier, every other key under the organization's URL |
| OrganizationMetadata.OrganizationUserLinksIdentify | api/organizations/metadata.go:19-20 | each user link reads back as its user |
| OrganizationMetadata.OrganizationSummaryKeysAre | api/organizations/metadata.go:87-128 | the five summary keys |
| OrganizationMetadata.OrganizationRolesOrder | api/organizations/metadata.go:88-105 | four roles in the order auditor, admin, member, read, each with a description and a name |
| OrganizationMetadata.OrganizationObjectRoles | api/organizations/metadata.go:88-105 | the same role list for every organization |
| OrganizationMetadata.OrganizationFieldCountsFixed | api/organizations/metadata.go:107-114 | the six counts are the same constants whatever the lookups |
| OrganizationMetadata.UserDocs | api/organizations/metadata.go:127 | one owner document per pipeline result, in order |
| OrganizationMetadata.OrganizationSummaryUsers | api/organizations/metadata.go:81-127 | the user blocks copy id, username and both names; `owners` is null exactly when the pipeline found no owner, and otherwise lists the owners in order |
| TeamMetadata.Team.SetMetadata | api/teams/metadata.go:12-34 | type "team", the team URL and `related` always assigned; the summary step's error returned |
| TeamMetadata.TeamRelated | api/teams/metadata.go:16-27 | the definition of the related map; its properties are stated by TeamRelatedSize, TeamRelatedLinks and TeamOrganizationLinkIdentifies |
| TeamMetadata.TeamSummary | api/teams/metadata.go:57-89 | the definition of the summary map; its properties are stated by TeamSummaryContents and TeamObjectRoles |
| TeamMetadata.Team.SetSummaryFields | api/teams/metadata.go:36-92 | the first failing lookup's error with the summary untouched; the summary assigned exactly when all three succeed |
| TeamMetadata.TeamRelatedSize | api/teams/metadata.go:16-27 | exactly ten keys |
| TeamMetadata.TeamRelatedLinks | api/teams/metadata.go:16-27 | sub-resources under the team URL, user links to the users, and `organization` to the team's organization |
| TeamMetadata.TeamOrganizationLinkIdentifies | api/teams/metadata.go:26 | the organization link reads back as the team's organization |
| TeamMetadata.OrganizationBlock | api/teams/metadata.go:58-62 | exactly id, name and description of the looked-up organization |
| TeamMetadata.TeamSummaryContents | api/teams/metadata.go:57-89 | four keys; the organization block and the user blocks copy the lookups |
| TeamMetadata.TeamObjectRoles | api/teams/metadata.go:63-76 | a fixed map keyed admin_role, member_role and read_role |

## Left out

- The query translation of the list handlers (`util.NewQueryParser`, `Match`, `Lookups`) is an abstract `matches` predicate. Sorting by `order_by` is not modelled: the cursor is the store order.
- `util.NewPagination` is an abstract function of the count, required to give windows inside the list. Its code is not part of this model. A Go slice expression is checked against the slice's capacity rather than its length, so a window ending between the two would show zero-valued records rather than panic; the model does not capture that case.
- JSON binding and `util.GetValidationErrors` are a `Binding` value carrying the messages and whether the body was empty.
- The two `time.Now` calls of a create are two parameters, `createdAt` and `modifiedAt`; update and patch call it once, as `now`. Each `bson.NewObjectId()` is the `id` parameter, required not to be stored yet.
- The access checks, the organization and credential checks, the project, job and team decorators and the SCM runner are oracles. Their code is not part of this model.
- ProjectsController.CreateChecks: the handlers call the name check of the `controllers/helpers` package, whose code is not part of this model, as are its organization and credential checks. `CreateChecks`, `UpdateChecks` and `PatchChecks` assume that its `IsNotUniqueProject` behaves like the one of `api/helpers/project.go`: a count of the projects with that name and organization, with a failing count read as "not taken".
- The `os.RemoveAll` goroutine is recorded only as a scheduled cleanup. Its concurrency and its filesystem effect are not modelled.
- `addActivity` is defined outside these files and is modelled as an append to the activity stream.
- Logging is not modelled. That includes the runner's error log after create, update and patch, which reads the job id of a failed update and may dereference nil.
- `GetProject`, `Playbooks`, `ActivityStream` and `SCMUpdateInfo` are not modelled. They are a decoration whose error is ignored, a filesystem walk, an activity query, and a constant answer.
- The organization owners pipeline is a `Result<seq<User>>`. Its projection of the user fields is not modelled.
- The activity stream and the dispatch log are separate sequences, so the order between an activity entry and a dispatch is not recorded.
- `ProjectsController.ProjectStore.RemoveProject`: the store removes every project with the id, where mgo's `RemoveId` removes one. Likewise `ProjectsController.ReplaceById`, used by `UpdateProject` and `PatchProject`, replaces every project with the id, where mgo's `UpdateId` updates one. As long as ids stay distinct, which every handler preserves (`Valid`), the two agree in both cases.
- `ProjectsController.Patched`: `models.PatchProject` is not part of this model. Empty names, descriptions and organization ids are assumed to be omitted from `$set`, and so is an absent credential.
- The Go loops decode every record into one reused struct. The model decodes each record afresh.
- `Listing.Paginate`: a list handler that collects no record keeps a nil slice, so its `results` renders as JSON `null` rather than `[]`. The model's page holds an empty sequence and does not model the JSON rendering.
- The mgo iterator's own resources are not modelled: a cursor left open is the `closed` result of `Listing.Drain`, not a state of the store.
- Text.Unhex: it is not `bson.ObjectIdHex`. It rejects upper-case digits, which `hex.DecodeString` accepts, and it accepts any even length, where `ObjectIdHex` panics unless it gets twelve bytes. The middleware's id parsing is the `Option<ObjectId>` it receives.
- `ProjectsController.RunnerResponse`: the Go code passes the runner's `error` where a list of messages is expected. The model answers with that error's message as the only entry.

## Findings

| source | as written | input that shows it | evidently intended | confidence | as-written member | corrected member |
|---|---|---|---|---|---|---|
| api/metadata/host.go:18 | `modified_by` is built from `CreatedByID` | a host whose modifier differs from its creator | the link names the modifier | high, not executed | HostMetadata.ModifiedByLinkNamesCreator | HostMetadata.IntendedHostLinksIdentify |
| api/metadata/host.go:29 | the inventory link concatenates raw id bytes into a `bson.ObjectId`, rendered as hex of the whole string | any host: the rendered link starts with "2f" | `"/v1/inventories/" + InventoryID.Hex() + "/"` | high, not executed | HostMetadata.InventoryLinkIsNotAUrl | HostMetadata.IntendedHostLinksIdentify |
| api/helpers/project.go:34-39 | `ProjectExist` returns `_credentialExist(ID)` | a stored project whose id is no credential | `_projectExist(ID)` | high, not executed | ProjectHelpers.ProjectExistIgnoresProjects | ProjectHelpers.ProjectExistIntendedIffStored |
| controllers/projects/controller.go:653-663 | an empty body returns before the runner; the handler writes nothing, so the client sees gin's default empty 200 | a POST with no body | accept it since every field is optional, as the comment says | medium, not executed | ProjectsController.ProjectStore.SCMUpdate | ProjectsController.ProjectStore.SCMUpdateIntended |
| controllers/projects/controller.go:96-103 | on a decoration failure the list handlers return without `iter.Close()`; lines 608-615 do the same | a readable record whose decoration fails | close the cursor on every exit, as a `defer iter.Close()` would | medium, not executed | Listing.Drain | Listing.DrainIntended |
| controllers/projects/controller.go:580-588 | `ProjectUpdates` never restricts its query to the project of the request | a store holding an update job of another project that the user may read | also match `project_id` against the request's project (probable, not proven: the route is not part of this model) | low, not executed | ProjectsController.ProjectUpdatesListsOtherProjects | ProjectsController.ProjectUpdatesOfProjectListsOwnJobs |
