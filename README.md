# Registrar, modelled in Dafny

Registrar is the edX service through which partner institutions manage the
learners of their degree programs. It keeps organizations, programs and the
groups that hold permissions on them. It serves a REST API for listing
programs and courses and for writing enrollments in bulk. It runs long
requests as jobs whose results are stored as files, and it mirrors the
organizations and programs that the course-discovery service knows about.

This project models the deterministic core behind those features and proves
what each piece promises. There is one Dafny module per source file, and twin
files share a module; where twins differ (the discovery read of the two
`manage_programs` commands, the cache flush that only proxies.py has) the
model has one member per copy. The model has six parts.

- **Bulk enrollment writes** (`EnrollmentWrites`, `MockV0Views`, `MockV1Views`).
  One loop reconciles a batch of at most 25 records into a map from student
  key to status. A repeated key becomes `duplicated`, and a status that is not
  one of the serializer's choices becomes `invalid-status`. A malformed record
  aborts the batch with 422. The reply is 200, 207 or 422, chosen from the
  counts. Around the loop sit the mock views' program, course and
  organization lookups and the permission checks that come before it.
- **Jobs** (`Jobs`, `JobModel`, `JobStorage`, `Filestore`, `Storage`,
  `JobTasks`, `EnrollmentUtils`).
  - Jobs are started, read only by their owner or a global reader, and
    finished only from In Progress.
  - Results are stored as UTF-8 files under `job-results/`.
  - The grades task looks up its program, fails the job on bad input, and
    picks a read-status code.
  - Enrollment jobs are named so that a program's running jobs can be found
    by prefix.
- **Access control** (`Guardian`, `CorePermissions`,
  `EnrollmentsPermissions`, `CoreModels`, `EnrollmentsModels`, `CoreSignals`,
  `EnrollmentsSignals`, `ApiAuth`, `InternalViews`).
  - Role tables grant permissions as Guardian facts.
  - Saving a group moves its grants to its current organization or program.
  - Pending and future memberships are drained into a user's groups.
  - The API's permission decision admits a caller, or answers 403 or 404.
  - Staff can flush the program cache.
- **Discovery program data** (`Discovery`, `CoreModels`, `V1Views`).
  - The cached lookup of program details caches "not found" as `{}`.
  - Properties are derived from the details: title, type, active curriculum
    and its uuid.
  - The course runs of the active curriculum are flattened in order.
  - Runs are looked up by internal or external key.
  - The v1 program, program-list and course-list views are included.
- **Catalogue commands** (`SyncWithDiscovery`, `ManagePrograms`,
  `CreateOrganization`).
  - The sync diffs discovery's organizations and programs against the tables
    and gives every new one a report group.
  - `manage_programs` parses `uuid[:key]` items, picks the first known
    authoring organization, then creates or re-keys the program.
  - `create_organization` checks every `--group` before it creates anything.
- **Strings and validators** (`CoreUtils`, `CoreConstants`, `FakeData`,
  `Tracking`, `Text`, `Utf8`, `Json`).
  - `name_to_key` turns a program name into a key.
  - The program-key and course-id patterns are string predicates.
  - The fake data served by the mock APIs is indexed by key.
  - Tracking events are assembled from user, parameter and view data.
  - Python's `split`/`join`, UTF-8 and JSON values behave here as Python has
    them.

**How state is modelled**
- Database tables, the Django cache, the storage backend and Guardian's
  grants are maps, sequences or sets held in class fields. Methods that
  change them state the whole new state.
- Commands that run in one transaction leave every table unchanged when
  they fail.
- Scheduling a Celery task is recorded as a scheduled call.
- Logging is recorded only where the source promises a count of messages.

## Model

| member | source | states |
|---|---|---|
| ApiAuth.NormalizeRequired | registrar/apps/api/v1/mixins.py:83-92 | a string requirement becomes a one-element list, an iterable is listed as is, anything else is ImproperlyConfigured carrying the variant's message |
| ApiAuth.UnauthorizedResponse | registrar/apps/api/v1/mixins.py:101-105 | a denial is always 404 or 403, and it is 404 exactly when the view sets `raise_404_if_unauthorized` |
| ApiAuth.Authorize | registrar/apps/api/v1/mixins.py:94-99 | access is granted iff every permission is held globally or every one is held on a non-null permission object; otherwise the denial is the view's unauthorized response, or the permission object's own 404 |
| ApiAuth.MixinCheckPermissions | registrar/apps/api/v1/mixins.py:62-99 | api-docs requests are settled by the docs check alone; an anonymous caller gets NotAuthenticated; a staff-only view rejects non-staff with the unauthorized response; otherwise the normalised requirement decides through the grant test |
| ApiAuth.ViewsCheckPermissions | registrar/apps/api/v1/views.py:60-93 | the older variant: docs check, then the normalised `permission_required` decides through the same grant test, with no authentication or staff check |
| ApiAuth.EmptyRequirementPasses | registrar/apps/api/v1/mixins.py:94-95 | an empty requirement always passes the grant test, and admits every authenticated caller of a view that is not staff-only |
| ApiAuth.GlobalHolderIgnoresObject | registrar/apps/api/v1/mixins.py:94-96 | a caller holding every permission globally is admitted whatever the permission object is, even when looking it up would 404 |
| ApiAuth.MoreRequiredAdmitsFewer | registrar/apps/api/v1/mixins.py:94-98 | if a caller passes a requirement, they pass every requirement whose permissions are among it |
| ApiAuth.VariantsAgree | registrar/apps/api/v1/views.py:60-93 | for an authenticated caller of a non-staff-only view, the two variants give the same decision, and the same result unless the requirement is misconfigured |
| ApiAuth.EnrollmentPermissionRequired | registrar/apps/api/v1/mixins.py:213-218 | GET requires read-enrollments, POST and PATCH require write-enrollments, and any other method requires nothing |
| ApiAuth.WritesNeedWriteRole | registrar/apps/api/v1/mixins.py:213-218 | a POST or PATCH by a caller whose only grants come from the ReadMetadata or ReadEnrollments role on the organization is rejected with the unauthorized response |
| ApiAuth.FlushViewAdmitsOnlyStaff | registrar/apps/api/internal/views.py:36-37 | the cache-flush view admits an authenticated caller iff they are staff, and every rejection is 404, never 403 |
| ApiAuth.ValidateCourseId | registrar/apps/api/v1/mixins.py:166-178 | the course id passes iff it is the key of one of the program's course runs; otherwise 404 |
| ApiAuth.InvokeJob | registrar/apps/api/v1/mixins.py:186-199 | `fmt` defaults to json; a format outside {json, csv} is 404 and starts nothing; otherwise exactly one call is scheduled with `[job id, user id, format] + args` and task id = job id, and 202 carries the job id and its status url |
| CoreConstants.ProgramKeyHasNoColonOrSlash | registrar/apps/core/constants.py:14-15 | a string matching `PROGRAM_KEY_PATTERN` contains neither ':' nor '/' |
| CoreConstants.NextSeparator | registrar/apps/core/constants.py:12 | the index found is the first '/' or '+' at or after the start, or the end of the string when there is none |
| CoreConstants.CourseIdFromParts | registrar/apps/core/constants.py:12 | every string made of two non-empty parts free of '/' and '+', each followed by '/' or '+', and a non-empty last part free of '/' and '?', matches `COURSE_ID_PATTERN` |
| CoreConstants.CourseIdToParts | registrar/apps/core/constants.py:12 | every match of `COURSE_ID_PATTERN` splits into exactly that shape (the converse of CourseIdFromParts) |
| CoreConstants.NextSeparatorFinds | registrar/apps/core/constants.py:12 | the first separator after a position is the one at `at` when no separator comes between |
| CoreConstants.NewStyleCourseId | registrar/apps/core/constants.py:10-12 | 'course-v1:HUMx+English-550+Spring' is a course id |
| CoreConstants.OldStyleCourseId | registrar/apps/core/constants.py:10-12 | 'HUMx+English-550+Spring' is a course id |
| Text.Strip | registrar/apps/core/models.py:51-52 | `str.strip()`: the result is a slice s[i..j] of the input whose cut-off prefix and suffix are all Python whitespace (`str.isspace`, Unicode included), and it neither starts nor ends with whitespace; so an input without surrounding blanks is unchanged and an all-blank input gives the empty string |
| CoreModels.GetFullName | registrar/apps/core/models.py:51-52 | a set, non-empty `full_name` is returned as is; otherwise the first/last-name default is used |
| CoreModels.FullNameFromParts | registrar/apps/core/models.py:51-52 | without a full name, a first and last name without surrounding blanks give 'first last' |
| CoreModels.DiscoveryData | registrar/apps/core/models.py:130-137 | a truthy cached value is used as is; anything falsy becomes `{}` |
| CoreModels.Title | registrar/apps/core/models.py:139-146 | a truthy discovery title is used, else the program key; a non-dict discovery value raises |
| CoreModels.Url | registrar/apps/core/models.py:148-155 | the stored discovery data's 'url', or None when it has none; a non-dict value raises |
| CoreModels.IsEnrollmentEnabled | registrar/apps/core/models.py:166-173 | answers iff the data is a dict, and then is true iff its 'program_type' is 'Masters' |
| CoreModels.ActiveCurriculumUuid | registrar/apps/core/models.py:203-213 | a string uuid gives what `UUID` reads from it (None when ValueError); a missing uuid gives None (KeyError); a null uuid raises TypeError and any other non-string uuid AttributeError, neither caught; errors of the curriculum lookup, such as the TypeError of curricula that cannot be iterated, propagate |
| CoreModels.UuidReadingsAgree | registrar/apps/core/models.py:203-213 | when the curriculum lookup succeeds and the uuid is not null, the model and the discovery proxy read the active curriculum uuid alike; see also registrar/apps/core/data.py:197-207 |
| CoreModels.UuidReadingsDiffer | registrar/apps/core/models.py:210-213 | on a null uuid and on curricula that cannot be iterated, the model raises TypeError, which its `except (KeyError, ValueError)` lets through, while the discovery proxy answers None; see also registrar/apps/core/data.py:204-207 |
| CoreModels.RoleNamed | registrar/apps/core/models.py:314-322 | the result is None iff no role has the name, else the first role with that name |
| CoreModels.RoleObjectFindsEachRole | registrar/apps/core/models.py:314-322 | each of the three organization roles is found by its own name |
| CoreModels.RolePerms | registrar/apps/core/models.py:314-331 | the permissions a save assigns for a role name: the named role's permission set, or none when no role has the name |
| CoreModels.SaveRecomputesGrants | registrar/apps/core/models.py:325-331 | when the group's permissions were confined to its previous object, after a save it holds, of those permissions, exactly its role's on the current object; other holders' grants do not change; the confinement is kept |
| CoreModels.RemovePrevious | registrar/apps/core/models.py:327-329 | every listed permission of the group on the previous object is removed, and nothing else changes |
| CoreModels.OrganizationGroup.constructor | registrar/apps/core/models.py:305-312 | a new group remembers its organization as the initial one |
| CoreModels.OrganizationGroup.Save | registrar/apps/core/models.py:325-331 | the organization permissions are removed on the initial organization, the role's permissions are assigned on the current one, and that becomes the initial organization; an unknown role raises AttributeError after the removal |
| CoreModels.OrganizationGroupSaveConfines | registrar/apps/core/models.py:325-331 | after a save, the group holds an organization permission on an organization iff it is that group's organization and the permission is its role's |
| CoreModels.ProgramOrganizationGroup.constructor | registrar/apps/core/models.py:363-368 | a new program group remembers its program as the initial one |
| CoreModels.ProgramOrganizationGroup.Save | registrar/apps/core/models.py:381-387 | the same as the organization group's save, over the program permissions and programs |
| CorePermissions.AssignToGroup | registrar/apps/core/permissions.py:46-53 | the group gains exactly the role's permissions on the given object, and no other grant appears |
| CorePermissions.RoleGrantsAreScoped | registrar/apps/core/permissions.py:46-53 | a role's grants name only that group and that organization: nothing global, nothing on a second organization |
| CorePermissions.RoleChain | registrar/apps/core/permissions.py:29-93 | ReadMetadata ⊂ ReadEnrollments ⊂ ReadWriteEnrollments strictly, ReadWrite equals `ORGANIZATION_PERMISSIONS`, and every role lies within that set |
| CorePermissions.OnlyReadWriteWrites | registrar/apps/core/permissions.py:56-100 | of `ORGANIZATION_ROLES`, exactly ReadWriteEnrollments carries the write permission, and the three role names are distinct |
| CoreSignals.PendingGroupsFor | registrar/apps/core/signals.py:23 | a group is pending for an email iff some pending record pairs that email with it |
| CoreSignals.OtherEmails | registrar/apps/core/signals.py:32 | the records left after deleting an email's records are exactly the records of other emails |
| CoreSignals.OtherEmailsClearsEmail | registrar/apps/core/signals.py:23-32 | after the deletion nothing is pending for that email, and what is pending for any other email is unchanged |
| CoreSignals.PendingUserGroups.constructor | registrar/apps/core/signals.py:23 | the pending table holds the given records |
| CoreSignals.PendingUserGroups.HandleUserPostSave | registrar/apps/core/signals.py:17-32 | the user is added to every group pending for their email, no other membership changes, and exactly that email's pending records are deleted |
| CoreSignals.NothingPendingKeepsGroups | registrar/apps/core/signals.py:23-32 | a user with no pending records keeps the same groups and the pending table is unchanged |
| CoreSignals.HandleOrganizationGroupPreSave | registrar/apps/core/signals.py:34-45 | a saved group's initial organization becomes the stored one (None if it no longer exists); an unsaved group's becomes None; organization and role are untouched |
| CoreSignals.HandleProgramGroupPreSave | registrar/apps/core/signals.py:47-58 | the same for a program group and its initial program |
| CoreUtils.Replace | registrar/apps/core/utils.py:14 | the result has the input's length, with every occurrence of the replaced character changed and every other character kept |
| CoreUtils.Lower | registrar/apps/core/utils.py:14 | the result has the input's length, each character lower-cased |
| CoreUtils.KeepKeyChars | registrar/apps/core/utils.py:15 | the result is no longer than the input, holds only 'a'-'z', '0'-'9' and '-' |
| CoreUtils.KeepKeyCharsMembers | registrar/apps/core/utils.py:15 | a character occurs in the result exactly when it occurs in the input and is one of 'a'-'z', '0'-'9', '-' |
| CoreUtils.KeepKeyCharsOfChar | registrar/apps/core/utils.py:15 | a single character is kept exactly when it is in `[a-z0-9-]` and removed otherwise |
| CoreUtils.KeepAppend | registrar/apps/core/utils.py:15 | the substitution of a concatenation is the concatenation of the substitutions; with the single-character lemma this fixes the result on every input, in order |
| CoreUtils.NameToKey | registrar/apps/core/utils.py:10-16 | the key is no longer than the name and holds only 'a'-'z', '0'-'9' and '-' |
| CoreUtils.NameToKeyCharset | registrar/apps/core/utils.py:15 | every key holds only 'a'-'z', '0'-'9' and '-' |
| CoreUtils.KeyCharsFixed | registrar/apps/core/utils.py:14-15 | a string of key characters is left unchanged by each of the four steps |
| CoreUtils.NameToKeyIdempotent | registrar/apps/core/utils.py:14-15 | `name_to_key(name_to_key(n)) == name_to_key(n)` |
| CoreUtils.NameToKeyIsProgramKey | registrar/apps/core/utils.py:15 | a non-empty key matches `PROGRAM_KEY_PATTERN`; see also registrar/apps/core/constants.py:15 |
| CoreUtils.NameToKeyAppend | registrar/apps/core/utils.py:14-15 | the key of a concatenation is the concatenation of the keys |
| CoreUtils.NameToKeyExample | registrar/apps/core/utils.py:10-12 | "Master's in Computer Science" becomes 'masters-in-computer-science' |
| CreateOrganization.ParseGroup | registrar/apps/core/management/commands/create_organization.py:44-53 | one option parses iff it has at most two arguments and its first is a known role; more than two arguments is the 'one or two arguments' error; the role is the first argument and the name is the second when given, else None |
| CreateOrganization.ParseGroups | registrar/apps/core/management/commands/create_organization.py:42-54 | success parses every option in order; a failure is the error of the first option that fails, every earlier one having parsed |
| CreateOrganization.ParseErrorPersists | registrar/apps/core/management/commands/create_organization.py:42-54 | once a prefix of the options fails, the whole list fails with the same error |
| CreateOrganization.ParseGroupOptions | registrar/apps/core/management/commands/create_organization.py:42-54 | the loop returns exactly what ParseGroups specifies, including its first error |
| CreateOrganization.GroupName | registrar/apps/core/management/commands/create_organization.py:70-72 | a non-empty given name is used, otherwise '{org name}_{role}' |
| CreateOrganization.DefaultNamesFollowRoles | registrar/apps/core/management/commands/create_organization.py:70-72 | two default names of one organization are equal iff their roles are equal |
| CreateOrganization.AddGroups | registrar/apps/core/management/commands/create_organization.py:70-81 | on success every existing group is kept, each option's name was new and now maps to a group of that organization and role, and every new name comes from an option; see also registrar/apps/core/management/commands/create_organization.py:39-40 |
| CreateOrganization.AddGroup | registrar/apps/core/management/commands/create_organization.py:70-81 | one group is added iff its name is free and its role is an organization role, and then exactly that name maps to a row with the given id, organization and role |
| CreateOrganization.AddGroupsCreates | registrar/apps/core/management/commands/create_organization.py:70-81 | after a successful run, each option's name was free before and now maps to a row with the option's id, the organization and an organization role |
| CreateOrganization.AddGroupsOnly | registrar/apps/core/management/commands/create_organization.py:70-81 | after a successful run, every name that was not there before is the name of some option |
| CreateOrganization.UnassignableRoleFails | registrar/apps/core/management/commands/create_organization.py:70-81 | an accepted role name that is not an organization role passes the option check, then fails at the group's save with NoRoleObject; see also registrar/apps/core/models.py:314-331 |
| CreateOrganization.GroupGrantsMembers | registrar/apps/core/management/commands/create_organization.py:70-81 | the grants of a run are the union of each group's role permissions on the organization: every grant comes from some group, and every group's grants are there |
| CreateOrganization.GroupGrantsExact | registrar/apps/core/management/commands/create_organization.py:70-81 | the i-th created group holds a permission on a target iff the target is the new organization and the permission is its role's; see also registrar/apps/core/models.py:325-331 |
| CreateOrganization.AddErrorPersists | registrar/apps/core/management/commands/create_organization.py:39-40 | once creating a prefix of the groups fails, creating them all fails with the same error |
| CreateOrganization.RepeatedUnnamedRoleFails | registrar/apps/core/management/commands/create_organization.py:70-81 | two unnamed options with the same role ask for the same default name, so the second creation fails |
| CreateOrganization.Directory.constructor | registrar/apps/core/management/commands/create_organization.py:35-40 | the tables hold the given organizations, groups and role names |
| CreateOrganization.Directory.CreateOrganization | registrar/apps/core/management/commands/create_organization.py:56-68 | a key that does not fully match the pattern or is taken is refused and nothing changes; otherwise the organization is created with name = key |
| CreateOrganization.Directory.CreateOrgGroup | registrar/apps/core/management/commands/create_organization.py:70-81 | a taken group name is refused with nothing changed; otherwise exactly one group with that name, organization, role and the next id is added, and its save either grants exactly its role's permissions on the organization or, for a role that is not an organization role, fails; the outcome is the one AddGroup gives; see also registrar/apps/core/models.py:325-331 |
| CreateOrganization.Directory.CreateGroupsInOrder | registrar/apps/core/management/commands/create_organization.py:39-40 | the options' groups are created in order; success leaves the groups AddGroups gives with GroupGrants added, and the first failure ends the loop with its error |
| CreateOrganization.Directory.CreateGroups | registrar/apps/core/management/commands/create_organization.py:35-40 | the transaction of `handle`: the groups table and the grants become what AddGroups and GroupGrants give, or, with AddGroups' error, are left as they were |
| CreateOrganization.Directory.Handle | registrar/apps/core/management/commands/create_organization.py:35-40 | every option is parsed before anything is created; the errors come in the order parse, key, existing organization, group; success adds the organization and its groups; any failure leaves both tables unchanged |
| Discovery.CacheValue | registrar/apps/core/data.py:93 | the cached value is always a dict: the fetched body when it is a dict, else `{}` |
| Discovery.ProgramDetailsCache.constructor | registrar/apps/core/data.py:86-94 | a new cache is empty and nothing has been fetched or logged |
| Discovery.ProgramDetailsCache.Fetch | registrar/apps/core/data.py:97-121 | exactly one request to the program's url is recorded; an HTTP error logs one exception and answers None; the cache is untouched |
| Discovery.ProgramDetailsCache.GetProgramDataAsWritten | registrar/apps/core/data.py:86-95 | a cached dict is returned with no request and no change; on a miss there is one request, the cache stores the body if it is a dict else `{}`, and the raw fetched value is returned |
| Discovery.ProgramDetailsCache.GetProgramData | registrar/apps/core/data.py:61-95 | the corrected lookup: the answer is always a dict, a hit changes nothing, a miss makes one request and answers what it caches, and afterwards the uuid is cached with the answer |
| Discovery.ProgramDetailsCache.ClearCachedProgramDetails | registrar/apps/core/proxies.py:97-108 | exactly the given uuids' entries are deleted, every other entry is kept, and nothing is fetched |
| Discovery.FailedMissAnswersNone | registrar/apps/core/data.py:84-95 | on a miss whose request fails, or whose body is not a dict, the lookup as written answers a non-dict (None or the body) although it caches `{}` |
| Discovery.SecondLookupIsCached | registrar/apps/core/data.py:90-94 | after any miss the uuid holds a dict, so the next lookup makes no request |
| Discovery.Title | registrar/apps/core/data.py:134-141 | the title is the details' 'title' when present, else the program key; non-dict details raise |
| Discovery.Url | registrar/apps/core/data.py:143-150 | the details' 'marketing_url', or None when they have none; non-dict details raise |
| Discovery.IsEnrollmentEnabled | registrar/apps/core/data.py:161-168 | answers iff the details are a dict, and then is true iff their 'type' is 'Masters' |
| Discovery.FirstActive | registrar/apps/core/data.py:184-195 | the result is the first curriculum with truthy 'is_active', or `{}` iff none is active; a non-dict met before any active one raises |
| Discovery.ActiveCurriculum | registrar/apps/core/data.py:170-195 | the active curriculum is always a dict; non-dict details raise AttributeError; the lookup raises TypeError exactly when 'curricula' is null, a number or a boolean, which `for` cannot iterate, and otherwise at most AttributeError |
| Discovery.NoCurriculaNoActive | registrar/apps/core/data.py:184-195 | details without 'curricula' have `{}` as active curriculum |
| Discovery.FirstActiveWins | registrar/apps/core/data.py:184-188 | the first active curriculum is chosen whatever follows it, so later active ones are ignored |
| Discovery.LowerHex | registrar/apps/core/data.py:204-207 | a hex digit is read as a lower-case hex digit |
| Discovery.RemoveAll | registrar/apps/core/data.py:204-207 | removing a pattern never lengthens the string |
| Discovery.RemoveAbsent | registrar/apps/core/data.py:204-207 | removing a character that does not occur changes nothing |
| Discovery.StripBraces | registrar/apps/core/data.py:204-207 | stripping braces never lengthens the string and leaves a string without surrounding braces as it is |
| Discovery.HexInt | registrar/apps/core/data.py:204-207 | `int(h, 16)` reads a value exactly when, after stripping whitespace, one optional '+' and an optional `0x` with one optional '_', the rest is hex digits with single underscores between them; the value is below 16 to the length of the string |
| Discovery.ParseUuid | registrar/apps/core/data.py:204-207 | a uuid string is read iff, with its prefixes, braces and hyphens removed, 32 characters remain that `int(h, 16)` accepts; the reading is the value as 32 lower-case hex digits |
| Discovery.ParseUuidPlain | registrar/apps/core/data.py:204-207 | a uuid string whose digits, once prefixes, braces and hyphens are removed, are 32 plain hex digits reads as those digits lower-cased |
| Discovery.ParseUuidOfValue | registrar/apps/core/data.py:204-207 | whenever the 32 remaining characters read as a value below 16^32, the uuid is that value in 32 lower-case digits |
| Discovery.PlainHexValue | registrar/apps/core/data.py:204-207 | for 32 plain hex digits `int(h, 16)` is their value, and formatting it back gives the digits lower-cased |
| Discovery.FormatPadded | registrar/apps/core/data.py:204-207 | formatting the value of a digit string to k more places than its length gives k zeros followed by the digits lower-cased |
| Discovery.HexValueBound | registrar/apps/core/data.py:204-207 | n hex digits denote a value below 16 to the n, so 32 of them always pass the 128-bit range check of `UUID` |
| Discovery.ParseUuidSkipsBlank | registrar/apps/core/data.py:204-207 | a blank followed by 31 hex digits is a valid uuid whose first digit is 0 |
| Discovery.ParseUuidSkipsPrefix | registrar/apps/core/data.py:204-207 | "0x" followed by 30 hex digits is a valid uuid whose first two digits are 0 |
| Discovery.ParsePlainHex | registrar/apps/core/data.py:204-207 | 32 hex digits with nothing around them are a valid uuid that reads as the same digits lower-cased |
| Discovery.UuidHexOfDigits | registrar/apps/core/data.py:204-207 | hex digits, blanks and 'x' pass the prefix, brace and hyphen removal of `UUID` unchanged |
| Discovery.RemoveNoColon | registrar/apps/core/data.py:204-207 | the 'urn:' and 'uuid:' prefixes are never found in a string without ':' |
| Discovery.ActiveCurriculumUuid | registrar/apps/core/data.py:197-207 | a string uuid gives what `UUID` reads from it (None when ValueError); a missing or null uuid gives None (`UUID(None)` raises TypeError, which is caught); the TypeError of curricula that cannot be iterated is caught too and gives None; a uuid that is neither null nor a string raises AttributeError, as does a lookup error other than TypeError; see also registrar/apps/core/proxies.py:216-225 |
| Discovery.UniterableCurriculaNoUuid | registrar/apps/core/data.py:190-207 | details whose 'curricula' is null, a number or a boolean make the lookup raise TypeError, and the uuid is then None |
| Discovery.RunOf | registrar/apps/core/data.py:225-231 | a dict run gives a course run whose four fields are its 'key', 'external_key', 'title' and 'marketing_url' entries, None when missing; a non-dict raises |
| Discovery.RunsOf | registrar/apps/core/data.py:225-234 | the runs are read in order, one per raw run, and the reading fails iff some raw run is not a dict |
| Discovery.EmptyCourseContributesNothing | registrar/apps/core/data.py:232-233 | a course with no 'course_runs', or an empty list of them, adds no runs |
| Discovery.CoursesRunsAppend | registrar/apps/core/data.py:225-234 | the runs of two course lists placed one after the other are the runs of the first followed by those of the second |
| Discovery.NoCurriculaNoRuns | registrar/apps/core/data.py:209-234 | details without curricula have no course runs and no active curriculum uuid |
| Discovery.FindCourseRun | registrar/apps/core/data.py:236-248 | the result is None iff no run's key or external key is the id; otherwise it is the first such run |
| Discovery.LookupByEitherKey | registrar/apps/core/data.py:250-272 | looking up a run by its key or its external key gives back its key and its external key, when no earlier run matches |
| Discovery.FindFirst | registrar/apps/core/data.py:236-248 | the first run matching the id is the one found |
| Discovery.UnknownIdFindsNothing | registrar/apps/core/data.py:250-272 | an id that no run carries gives None for both keys |
| EnrollmentUtils.BuildEnrollmentJobStatusName | registrar/apps/enrollments/utils.py:9-18 | the name is the program key, the action and the task name with ':' between them |
| EnrollmentUtils.BuiltNameRoundTrip | registrar/apps/enrollments/utils.py:9-18 | splitting a name built from ':'-free parts on ':' gives back exactly those three parts |
| EnrollmentUtils.PrefixMeansFirstComponent | registrar/apps/enrollments/utils.py:21-31 | for a valid program key, a name starts with 'key:' iff it has at least two ':'-separated components and the first is the key; see also registrar/apps/core/constants.py:15 |
| EnrollmentUtils.BuiltNameFirstComponent | registrar/apps/enrollments/utils.py:9-18 | the first component of a built name is its program key |
| EnrollmentUtils.BuiltNameMatchesOnlyItsProgram | registrar/apps/enrollments/utils.py:18-31 | a job name built for one program matches another program's prefix iff the two keys are equal, so a key in a later position is never matched |
| EnrollmentUtils.ProcessingMeansOwnProgram | registrar/apps/enrollments/utils.py:21-31 | a program has a job processing iff some pending, in-progress or retrying job has that key as the first of several components; succeeded, failed and canceled jobs never count |
| EnrollmentsModels.CheckAccess | registrar/apps/enrollments/models.py:53-56 | at write level or above access is granted iff the user is staff; below it, always |
| EnrollmentsModels.ProgramCheckAccess | registrar/apps/enrollments/models.py:144-158 | a program's access check is its managing organization's |
| EnrollmentsModels.AccessLevels | registrar/apps/enrollments/models.py:53-56 | read is open to everyone; write and admin are open to staff only; see also registrar/apps/core/models.py:20-22 |
| EnrollmentsModels.RoleForName | registrar/apps/enrollments/models.py:80-87 | a role is found iff the name is one of the three role names, and it carries that name |
| EnrollmentsModels.SaveGrantsScoped | registrar/apps/enrollments/models.py:80-87 | a save grants exactly its role's permissions, to that group on that enrollments organization only; an unmatched role grants nothing |
| EnrollmentsModels.OrgGroup.constructor | registrar/apps/enrollments/models.py:62-78 | the group holds the given organization and role |
| EnrollmentsModels.OrgGroup.Save | registrar/apps/enrollments/models.py:80-87 | the grants grow by exactly what SaveGrants gives for the group's role and organization |
| EnrollmentsModels.OrgGroupFutureMembership.constructor | registrar/apps/enrollments/models.py:102-104 | a new future membership has no creation time |
| EnrollmentsModels.OrgGroupFutureMembership.AddUserToGroup | registrar/apps/enrollments/models.py:106-123 | a mismatched email raises with the two emails and changes nothing; an already created membership changes nothing; otherwise the user joins the group and the creation time is set, so a second call is a no-op |
| EnrollmentWrites.Classify | registrar/apps/api/v1_mock/views.py:245-270 | a record is accepted iff the serializer accepts it; it is an invalid status iff the status is not a choice and its raw `student_key` is present and hashable; without a key such a record is the KeyError case, and with a list or object key it is the TypeError case; accepted and invalid-status records carry that key as a dict key |
| EnrollmentWrites.AsDictKey | registrar/apps/api/v1_mock/views.py:259 | a raw JSON value can index the results dict iff it is not a list or object; a string is its own key |
| EnrollmentWrites.SameDictKey | registrar/apps/api/v1_mock/views.py:259 | two hashable values share a dict slot iff they are equal or are a boolean and the number Python equates it with |
| EnrollmentWrites.EchoStatuses | registrar/apps/api/v1_mock/views.py:242-278 | the loop and the reply after it give exactly EchoReply: the early 422 of the first fatal record, or the map with 422, 207 or 200; see also registrar/apps/api/v0/views.py:179-212 |
| EnrollmentWrites.AbortedPersists | registrar/apps/api/v1_mock/views.py:261-270 | once the loop has returned early, the records after that point change nothing |
| EnrollmentWrites.NoFatalEchoes | registrar/apps/api/v1_mock/views.py:245-270 | without a fatal record the loop runs to its end |
| EnrollmentWrites.FirstFatalAborts | registrar/apps/api/v1_mock/views.py:255-270 | the first fatal record ends the batch: with the KeyError text (v0 'student key required', v1 'invalid enrollment record') when its key is missing, with the uncaught TypeError when its key is unhashable, else with 'invalid enrollment record'; see also registrar/apps/api/v0/views.py:192-205 |
| EnrollmentWrites.EchoAbortsIff | registrar/apps/api/v1_mock/views.py:255-270 | the loop returns early or raises iff some record is fatal |
| EnrollmentWrites.FirstFatalIndex | registrar/apps/api/v1_mock/views.py:245-270 | the index found is that of the first fatal record |
| EnrollmentWrites.EchoKeys | registrar/apps/api/v1_mock/views.py:245-270 | without an early 422 or TypeError, the result map has an entry for exactly the distinct `student_key`s of the batch, taken as dict keys, and the enrolled set holds exactly the keys of accepted records |
| EnrollmentWrites.EchoValue | registrar/apps/api/v1_mock/views.py:247-259 | a key's entry is set by the last record naming it: 'invalid-status' for a bad status choice; for an accepted record, 'duplicated' if an earlier record with the key was accepted, else its own status |
| EnrollmentWrites.AcceptedAreEnrolled | registrar/apps/api/v1_mock/views.py:247-254 | every accepted record's key is in the enrolled set |
| EnrollmentWrites.EnrolledStep | registrar/apps/api/v1_mock/views.py:250-254 | one more record grows the enrolled set by its key exactly when it is accepted with a key not seen yet |
| EnrollmentWrites.EchoCountBound | registrar/apps/api/v1_mock/views.py:243-254 | the enrolled set is never larger than the batch |
| EnrollmentWrites.DistinctFillsEnrolled | registrar/apps/api/v1_mock/views.py:243-254 | a batch of accepted records with distinct keys fills the enrolled set |
| EnrollmentWrites.FullEnrolledIsDistinct | registrar/apps/api/v1_mock/views.py:243-254 | a full enrolled set means every record was accepted and no two share a key |
| EnrollmentWrites.EchoCount | registrar/apps/api/v1_mock/views.py:272-278 | the enrolled set has as many keys as the batch has records iff all records were accepted with distinct keys |
| EnrollmentWrites.EchoReplyCode | registrar/apps/api/v1_mock/views.py:272-278 | a text 422 or a server error is given iff some record is fatal; otherwise the code is 422 iff no record was accepted, 200 iff the batch is non-empty and all records were accepted with distinct keys, and 207 in every other case; see also registrar/apps/api/v0/views.py:207-212 |
| EnrollmentWrites.MixedBatchExample | registrar/apps/api/v1_mock/views.py:245-278 | a batch writing a twice, b with an unknown status and c once answers 207 with a → 'duplicated', b → 'invalid-status', c → its status |
| EnrollmentWrites.RawKeyExample | registrar/apps/api/v1_mock/views.py:256-259 | invalid-status records are entered under their raw keys: a null key is None, and the number 5 is a different entry from the string "5" |
| EnrollmentWrites.UnhashableKeyExample | registrar/apps/api/v1_mock/views.py:256-259 | an invalid status under a list key ends the write with a server error |
| EnrollmentWrites.ValidateEnrollmentData | registrar/apps/api/v1/mixins.py:220-228 | a body passes iff it is a list of at most 25 records; a non-list is a ValidationError; a longer list is 413 |
| EnrollmentsPermissions.AssignToGroup | registrar/apps/enrollments/permissions.py:30-37 | the group gains exactly the role's permissions on the given enrollments organization, and nothing else |
| EnrollmentsPermissions.RoleChain | registrar/apps/enrollments/permissions.py:11-74 | the three codenames are distinct, the roles form a strict chain ReadMetadata ⊂ ReadEnrollments ⊂ ReadWriteEnrollments, and only ReadWriteEnrollments includes the write permission |
| EnrollmentsSignals.UserCreatedCallback | registrar/apps/enrollments/signals.py:16-34 | an update that is not a creation changes nothing; on creation, exactly the future memberships with the user's email and no creation time are stamped with the time, and the user joins exactly their groups; nothing is raised |
| EnrollmentsSignals.PendingFor | registrar/apps/enrollments/signals.py:27-29 | the selected rows are exactly the future memberships with the given email and no creation time |
| EnrollmentsSignals.StampAll | registrar/apps/enrollments/signals.py:27-34 | every selected row is stamped with the time, the user joins exactly the selected rows' groups, and nothing is raised, because the selection matched the email |
| FakeData.MarketingUrl | registrar/apps/api/v0/data.py:32 | the url is 'https://' then the organization key then '.edx.org/' then the program key: it starts with 'https://', ends with the program key and has exactly the parts' length |
| FakeData.MakeProgram | registrar/apps/api/v0/data.py:24-33 | the program has the given key, organization and title, and its url is the organization's marketing url for the key |
| FakeData.IndexByKeyFinds | registrar/apps/api/v0/data.py:45-59 | in a dict comprehension, an element whose key no later element repeats is what its key maps to |
| FakeData.IndexByKeyDomain | registrar/apps/api/v0/data.py:45-59 | the keys of a dict comprehension are exactly the keys of its elements |
| FakeData.ProgramsOfMembers | registrar/apps/api/v0/data.py:63-66 | the filtered list holds exactly the programs whose managing organization has the key |
| FakeData.FakeOrgDictIndexesOrgs | registrar/apps/api/v0/data.py:37-45 | the organization keys are distinct, `FAKE_ORG_DICT` maps each one to its organization, and it has no other key |
| FakeData.FakeProgramDictIndexesPrograms | registrar/apps/api/v0/data.py:48-59 | the program keys are distinct, `FAKE_PROGRAM_DICT` maps each one to its program, and it has no other key |
| FakeData.FakeOrgProgramsPartition | registrar/apps/api/v0/data.py:62-68 | `FAKE_ORG_PROGRAMS` has an entry for each organization, and each entry holds exactly the programs it manages, so the lists partition `FAKE_PROGRAMS` |
| FakeData.FakeProgramUrls | registrar/apps/api/v0/data.py:24-56 | every fake program's url is 'https://{org key}.edx.org/{program key}' |
| FakeData.OrgKeysDistinct | registrar/apps/api/v0/data.py:37-42 | the four organization keys are pairwise distinct |
| FakeData.ProgramKeysDistinct | registrar/apps/api/v0/data.py:48-56 | the seven program keys are pairwise distinct |
| FakeData.FakeOrgProgramLists | registrar/apps/api/v0/data.py:62-68 | u-perezburgh, brianchester-college, donnaview-inst and holmeshaven-polytech own 1, 1, 2 and 3 programs, listed in `FAKE_PROGRAMS` order; see also registrar/apps/api/v0/tests/test_views.py:63-72 |
| FakeData.FakeOrgFlags | registrar/apps/api/v0/data.py:37-42 | only holmeshaven-polytech is enrollments-writeable, and only u-perezburgh is not metadata-readable |
| Filestore.PosixJoin | registrar/apps/core/filestore.py:98-102 | an absolute path is kept as is; otherwise it is appended to the prefix, with one '/' inserted unless the prefix is empty or already ends with '/' |
| Filestore.PosixJoinEndsWithPath | registrar/apps/core/filestore.py:98-102 | the full path always ends with the given path |
| Filestore.FilestoreKindFor | registrar/apps/core/filestore.py:125-138 | 'FileSystemStorage' selects the file-system store and 'S3Boto3Storage' the S3 store; any other class name is ImproperlyConfigured naming it |
| Filestore.NormalizeNewlines | registrar/apps/core/filestore.py:55-57 | the universal newlines of a text-mode read: the result holds no carriage return, is no longer than the input, and is the input itself when it holds none |
| Filestore.NormalizeIdempotent | registrar/apps/core/filestore.py:55-57 | normalising line endings twice is the same as once |
| Filestore.NormalizeCsvRow | registrar/apps/core/filestore.py:55-57 | a row ending "\r\n", as csv writers end rows, reads back from the file-system store ending "\n" |
| Filestore.Read | registrar/apps/core/filestore.py:42-64 | a read is 'missing' iff no file has the full path, and raises the decode error iff the bytes are not UTF-8; from the S3 store the text read back encodes to the stored bytes, from the file-system store it is such a text with its line endings normalised |
| Filestore.ReadAfterWrite | registrar/apps/core/filestore.py:38-57 | reading back the UTF-8 encoding of a text gives the text from the S3 store and the text with normalised line endings from the file-system store, the empty text included; see also registrar/apps/core/tests/test_filestore.py:45-56 |
| Filestore.ReadAfterWriteExact | registrar/apps/core/filestore.py:38-57 | a text without carriage returns reads back exactly from either store |
| Filestore.FilestoreInstance.constructor | registrar/apps/core/filestore.py:22-24 | a store holds its backend and path prefix, and has logged nothing |
| Filestore.FilestoreInstance.Url | registrar/apps/core/filestore.py:90-115 | both stores compute the url from the full path: the S3 store asks the backend, the file-system store joins it to the media url |
| Filestore.FilestoreInstance.Store | registrar/apps/core/filestore.py:26-40 | the UTF-8 bytes of the contents are saved at the full path (under the backend's fresh name when a non-overwriting backend already has it); afterwards the file exists, reads back as the contents (with normalised line endings from the file-system store), and the url returned is that of the given path |
| Filestore.FilestoreInstance.Retrieve | registrar/apps/core/filestore.py:42-64 | the answer is what Read gives at the full path, and exactly one exception is logged when the file is missing; see also registrar/apps/core/tests/test_filestore.py:61-66 |
| Filestore.FilestoreInstance.Delete | registrar/apps/core/filestore.py:66-75 | exactly the full path is removed, so the file no longer exists; deleting a missing file changes nothing; see also registrar/apps/core/tests/test_filestore.py:58-59, 68-71 |
| Guardian.GrantsOf | registrar/apps/core/permissions.py:52-53 | the grants created hold exactly the given permissions, for that holder on that object |
| Guardian.PermissionStore.constructor | registrar/apps/core/permissions.py:5 | a new store holds no grant |
| Guardian.PermissionStore.AssignPerm | registrar/apps/core/permissions.py:53 | `assign_perm` adds exactly that grant |
| Guardian.PermissionStore.RemovePerm | registrar/apps/core/models.py:329 | `remove_perm` removes exactly that grant |
| Guardian.GroupMemberships.constructor | registrar/apps/core/signals.py:30 | no user belongs to any group yet |
| Guardian.GroupMemberships.Add | registrar/apps/core/signals.py:30 | `user.groups.add` adds exactly that pair; see also registrar/apps/enrollments/models.py:121 |
| Storage.Backend.constructor | registrar/apps/core/filestore.py:39 | a new backend holds no file |
| Storage.Backend.Save | registrar/apps/core/filestore.py:39-75 | the content is written under the name, or under the fresh name when the name is taken and the backend does not overwrite; that name is returned and no other file changes |
| Storage.Backend.Delete | registrar/apps/core/filestore.py:75 | exactly that name is removed; a missing name changes nothing |
| JobModel.StateChoices | registrar/apps/jobs/models.py:15 | one choice per state of `states.ALL`, in order, each pairing the state with itself |
| JobModel.StateChoicesExact | registrar/apps/jobs/models.py:15-22 | there are exactly five choices, their states are pairwise distinct and each fits the 11-character state column; the second is In Progress; see also registrar/apps/jobs/states.py:3-15 |
| JobModel.Finish | registrar/apps/jobs/models.py:25-47 | a finishing transition succeeds exactly when the job is In Progress; otherwise it fails with the ValueError text and nothing is written |
| JobModel.TerminalIsFinal | registrar/apps/jobs/models.py:25-47 | a Succeeded or Failed job rejects every later succeed or fail |
| JobModel.Job.constructor | registrar/apps/jobs/models.py:22-23 | a new job is In Progress with no result url |
| JobModel.Job.AssertInProgress | registrar/apps/jobs/models.py:40-47 | passes exactly when the state is In Progress, otherwise reports the ValueError text |
| JobModel.Job.Succeed | registrar/apps/jobs/models.py:25-31 | from In Progress the job becomes Succeeded with the given url; from any other state it is rejected and neither field changes |
| JobModel.Job.Fail | registrar/apps/jobs/models.py:33-38 | from In Progress the job becomes Failed and keeps its url; from any other state it is rejected and nothing changes |
| JobStorage.ResultPath | registrar/apps/core/job_storage.py:31 | every result lives under `job-results/`, named by the job id and the extension |
| JobStorage.ResultPathDistinct | registrar/apps/core/job_storage.py:31 | two job ids of the same length (uuid strings) never share a result path: the path determines both the id and the extension |
| JobStorage.UrlJoinDirectory | registrar/apps/core/job_storage.py:57 | joining a relative path onto a base that ends in '/' appends it to the whole base |
| JobStorage.GetUrl | registrar/apps/core/job_storage.py:35-81 | the base class has no url (NotImplementedError); the file-system store joins the media url with the path; the S3 store presigns the path |
| JobStorage.FileSystemResultUrl | registrar/apps/core/job_storage.py:31-57 | on the file-system store a result's url is `/api/media/job-results/{id}.{ext}` |
| JobStorage.JobResultStoreKindFor | registrar/apps/core/job_storage.py:84-97 | S3Boto3Storage selects the S3 store, FileSystemStorage the file-system store, and any other class name is ImproperlyConfigured naming it |
| JobStorage.JobResultStore.constructor | registrar/apps/core/job_storage.py:84-93 | the store keeps the backend and kind it is given |
| JobStorage.JobResultStore.Store | registrar/apps/core/job_storage.py:31-33 | the UTF-8 bytes of the results are saved at the result path (under the backend's fresh name when a non-overwriting backend already holds it), no other file changes, and the url returned is the backend's url for the requested path |
| JobTasks.GetProgram | registrar/apps/common/tasks.py:34-42 | a known key yields its program and leaves the jobs untouched; an unknown key fails the In Progress job with "Bad program key: {key}" and yields None |
| JobTasks.ReadStatus | registrar/apps/grades/tasks.py:46-53 | Multi-Status exactly when there are good and bad grades, No Content exactly when there are neither, OK for good only, Unprocessable Entity for bad only |
| JobTasks.ReadStatusIsBijective | registrar/apps/grades/tasks.py:46-53 | distinct (good, bad) pairs get distinct statuses, and distinct statuses distinct code texts |
| JobTasks.Serialize | registrar/apps/grades/tasks.py:55-60 | json and csv select their rendering; any other format is the ValueError "Invalid file_format: {format}" |
| JobTasks.ReadAndSerialize | registrar/apps/grades/tasks.py:23-60 | an unknown program stops the task; an HTTP failure or invalid grade data fails the job with its message; loaded grades are serialized with their read status and leave the jobs untouched |
| JobTasks.GetCourseRunGradesAsWritten | registrar/apps/grades/tasks.py:61 | with grades loaded and a valid format, the final call is rejected for its `text` keyword before anything is stored, so the job never succeeds, and the task body leaves the jobs as they were; see also registrar/apps/core/jobs.py:115 |
| JobTasks.GetCourseRunGrades | registrar/apps/grades/tasks.py:23-61 | with grades loaded and a valid format, the json or csv serialization is stored as UTF-8 at the job's result path (no other file changes) and the job succeeds with one result artifact whose url is the stored file's and whose text is the read-status code; an invalid format leaves the jobs unchanged; in every other case no file changes; see also registrar/apps/core/jobs.py:115-130 |
| Jobs.ResultArtifacts | registrar/apps/core/jobs.py:98-100 | exactly the artifacts named 'Job Result', in their order |
| Jobs.FirstResultIndex | registrar/apps/core/jobs.py:98-110 | the position of the first 'Job Result' artifact, with none before it, or the length when there is none |
| Jobs.GetResult | registrar/apps/core/jobs.py:98-112 | None exactly when no artifact is named 'Job Result'; otherwise the url of the first such artifact |
| Jobs.JobStatusOf | registrar/apps/core/jobs.py:69-80 | an unknown job is "No such job: {id}"; a known job is PermissionDenied exactly when the user neither owns it nor holds global read; otherwise its creation time, state and result |
| Jobs.AffirmInProgress | registrar/apps/core/jobs.py:151-163 | passes exactly when the job is In Progress; otherwise the ValueError names the job id |
| Jobs.FinishedJobsStayFinished | registrar/apps/core/jobs.py:126-163 | a Succeeded or Failed job fails the in-progress guard, so it cannot be finished again |
| Jobs.JobLedger.constructor | registrar/apps/core/jobs.py:51-53 | a new ledger has no jobs, no scheduled calls and no logged errors |
| Jobs.JobLedger.StartJob | registrar/apps/core/jobs.py:51-53 | the fresh job id is returned and the task is scheduled once with `[job_id, user_id] + args`, the kwargs and task id equal to the job id; nothing else changes |
| Jobs.JobLedger.GetJobStatus | registrar/apps/core/jobs.py:69-109 | answers as JobStatusOf, changes no job, and logs one error exactly when a readable job has several result artifacts |
| Jobs.JobLedger.PostJobSuccess | registrar/apps/core/jobs.py:115-130 | the result file is stored first, as the UTF-8 bytes of the result text at the job's result path (or the backend's fresh name), with no other file changed; a store error, an unknown job or a job not In Progress changes no job; otherwise the job gains one 'Job Result' artifact with the stored url and becomes Succeeded |
| Jobs.JobLedger.PostJobFailure | registrar/apps/core/jobs.py:144-148 | an unknown job or one not In Progress is rejected with nothing changed; otherwise "Job {id} failed. {message}" is logged once, recorded in an 'Error' artifact, and the job becomes Failed |
| Jobs.ResultAfterPosts | registrar/apps/core/jobs.py:98-148 | a job failed without a prior result reports no result, and one that succeeded reports the url its success attached |
| Json.Elements | registrar/apps/core/management/commands/manage_programs.py:57 | `for x in j`: a list yields its items, a string its characters, a dict each of its keys exactly once (as many elements as keys), and anything else raises TypeError; there are no elements exactly when `j` is falsy |
| Json.SortedKeys | registrar/apps/core/management/commands/manage_programs.py:57 | the keys of a dict, each once and in increasing order: as many as the set has, and exactly its members |
| Json.Least | registrar/apps/core/management/commands/manage_programs.py:57 | a member of the set no greater than any other |
| Json.HasLeast | registrar/apps/core/management/commands/manage_programs.py:57 | every non-empty finite set of strings has a least element |
| Json.StrLeTotal | registrar/apps/core/management/commands/manage_programs.py:57 | any two strings are ordered one way or the other |
| Json.StrLeAntisymmetric | registrar/apps/core/management/commands/manage_programs.py:57 | strings ordered both ways are equal |
| Json.StrLeTransitive | registrar/apps/core/management/commands/manage_programs.py:57 | the string order is transitive |
| Json.Get | registrar/apps/core/data.py:141 | `d.get(key, default)`: the value under the key, or the default when the key is absent; a non-dict raises AttributeError |
| Json.Characters | registrar/apps/core/management/commands/manage_programs.py:57 | iterating a string yields one one-character string per character, in order |
| Json.Keys | registrar/apps/core/management/commands/manage_programs.py:57 | iterating a dict yields as many strings as it has keys, each one of its keys, and every key among them |
| Json.GetEquals | registrar/apps/core/data.py:161-168 | `d.get(key) == value` for a non-None value is true iff the key is present with that value, and raises AttributeError iff `d` is not a dict; both `is_enrollment_enabled` properties are this test of 'Masters', over 'type' in the discovery data and over 'program_type' in the program model; see also registrar/apps/core/models.py:166-173 |
| ManagePrograms.ParseUuidKey | registrar/apps/core/management/commands/manage_programs.py:40-48 | an item with at most one ':' parses to a uuid and an optional key that format back to the item; any other item is the "incorrectly formatted argument" error naming it; see also registrar/apps/enrollments/management/commands/manage_programs.py:41-49 |
| ManagePrograms.FormatThenParse | registrar/apps/core/management/commands/manage_programs.py:40-44 | an item built from a uuid and key without ':' parses back to that uuid and key |
| ManagePrograms.ParseAll | registrar/apps/core/management/commands/manage_programs.py:37-49 | when every item parses, the result holds each item's parse in order; otherwise the error is that of the first item that fails |
| ManagePrograms.ParseUuidkeys | registrar/apps/core/management/commands/manage_programs.py:37-49 | the loop over the comma-separated items gives ParseAll of them; see also registrar/apps/enrollments/management/commands/manage_programs.py:38-50 |
| ManagePrograms.RunOfItemsStops | registrar/apps/core/management/commands/manage_programs.py:45-48 | once an item fails to parse, no later item changes the outcome |
| ManagePrograms.ParseFormatted | registrar/apps/core/management/commands/manage_programs.py:37-49 | an argument built from items free of ',' and ':' parses back to the same items, in order |
| ManagePrograms.HasKeyField | registrar/apps/core/management/commands/manage_programs.py:58 | for a dict, whether it has a "key" field; membership on a number, boolean or None is a TypeError; see also registrar/apps/enrollments/management/commands/manage_programs.py:65 |
| ManagePrograms.KeyField | registrar/apps/core/management/commands/manage_programs.py:59 | the "key" field of a dict that has one; indexing a non-dict by "key" is a TypeError; see also registrar/apps/enrollments/management/commands/manage_programs.py:66 |
| ManagePrograms.KeysAreKeyFields | registrar/apps/core/management/commands/manage_programs.py:55-59 | for dict organizations, the keys collected are exactly their "key" fields, and none are collected only when no organization has one |
| ManagePrograms.AuthoringOrgKeys | registrar/apps/core/management/commands/manage_programs.py:51-65 | a successful result is never empty: no key found is the CommandError naming the program; see also registrar/apps/enrollments/management/commands/manage_programs.py:58-70 |
| ManagePrograms.GetAuthoringOrgKeys | registrar/apps/core/management/commands/manage_programs.py:51-65 | the loop the command runs gives AuthoringOrgKeys, including its errors; see also registrar/apps/enrollments/management/commands/manage_programs.py:58-70 |
| ManagePrograms.KeysOfStrings | registrar/apps/core/management/commands/manage_programs.py:57-59 | over strings the loop collects nothing: it raises TypeError exactly when some string contains "key" (the substring test passes and `s['key']` fails), and otherwise finds no key |
| ManagePrograms.DictOrganizationsRefused | registrar/apps/core/management/commands/manage_programs.py:55-63 | authoring organizations given as a dict are iterated by key, so the command fails: with TypeError exactly when some key contains "key", otherwise with the CommandError naming the program |
| ManagePrograms.StringOrganizationsRefused | registrar/apps/core/management/commands/manage_programs.py:55-63 | a list of strings fails the same way: TypeError exactly when some string contains "key", otherwise the CommandError naming the program |
| ManagePrograms.KeysErrorPersists | registrar/apps/core/management/commands/manage_programs.py:57-59 | an error raised by an early organization is the error of the whole loop |
| ManagePrograms.FirstKnownOrg | registrar/apps/core/management/commands/manage_programs.py:67-79 | an organization is found exactly when some authoring key names a known one, and it is the first such key; see also registrar/apps/enrollments/management/commands/manage_programs.py:72-84 |
| ManagePrograms.NewProgramKey | registrar/apps/core/management/commands/manage_programs.py:86 | a non-empty key given wins; otherwise the discovery marketing slug is the key, and a slug that is not a string is refused; see also registrar/apps/enrollments/management/commands/manage_programs.py:92 |
| ManagePrograms.Upsert | registrar/apps/core/management/commands/manage_programs.py:82-91 | `get_or_create` on a canonical uuid: an unknown uuid creates a program managed by the organization; a known one keeps its organization and changes its key only to a non-empty given key; no other program changes and keys stay unique; see also registrar/apps/enrollments/management/commands/manage_programs.py:88-97 |
| ManagePrograms.CreateOrModify | registrar/apps/core/management/commands/manage_programs.py:81-91 | the uuid text is read as `uuid.UUID` reads it (Django's UUIDField): a text it refuses is a ValidationError, and otherwise the program is created or modified under the canonical uuid as Upsert states; see also registrar/apps/enrollments/management/commands/manage_programs.py:86-97 |
| ManagePrograms.SpellingsAgree | registrar/apps/core/management/commands/manage_programs.py:82-84 | two spellings of one uuid that differ in letter case create or modify the same program with the same outcome |
| ManagePrograms.SameUuid | registrar/apps/core/management/commands/manage_programs.py:82-84 | 32-digit uuid texts that agree up to letter case are both valid and read as the same uuid |
| ManagePrograms.RunErrorPersists | registrar/apps/core/management/commands/manage_programs.py:26-35 | once one item fails, the run ends with that failure |
| ManagePrograms.RunKeepsTable | registrar/apps/core/management/commands/manage_programs.py:26-91 | a successful run keeps every program, never moves one to another organization, leaves untouched every program whose uuid no item reads as, and keeps keys unique |
| ManagePrograms.StepKeepsTable | registrar/apps/core/management/commands/manage_programs.py:26-35 | one successful item keeps every program and its organization, touches only the program its uuid reads as, and keeps keys unique |
| ManagePrograms.CoreRead | registrar/apps/core/management/commands/manage_programs.py:30-32 | the core copy reads the cached details and aborts with "Could not read program from course-discovery; aborting" on an empty answer |
| ManagePrograms.EnrollmentsRead | registrar/apps/enrollments/management/commands/manage_programs.py:52-56 | the enrollments copy turns a failed discovery read into "Could not read program from course-discovery: {error}" and passes any other answer on |
| ManagePrograms.EmptyDetailsAbort | registrar/apps/core/management/commands/manage_programs.py:30-32 | the core copy stops on empty details before it looks for organizations |
| ManagePrograms.EmptyDetailsHaveNoKeys | registrar/apps/enrollments/management/commands/manage_programs.py:33-68 | the enrollments copy goes on with empty details and stops because no authoring organization key is found |
| ManagePrograms.Registry.constructor | registrar/apps/core/management/commands/manage_programs.py:26-27 | the registry holds the program table and the organization keys given |
| ManagePrograms.Registry.GetOrg | registrar/apps/core/management/commands/manage_programs.py:67-79 | the loop returns the first known authoring organization, or the CommandError listing the keys; see also registrar/apps/enrollments/management/commands/manage_programs.py:72-84 |
| ManagePrograms.Registry.CreateOrModifyProgram | registrar/apps/core/management/commands/manage_programs.py:81-91 | a uuid text that does not read as a uuid is refused; otherwise the table becomes what CreateOrModify gives, and a refused key leaves it unchanged; see also registrar/apps/enrollments/management/commands/manage_programs.py:86-97 |
| ManagePrograms.Registry.UpsertProgram | registrar/apps/core/management/commands/manage_programs.py:81-91 | `get_or_create` and the key update once the uuid is read: the table becomes what Upsert gives, and a refused key leaves it unchanged |
| ManagePrograms.Registry.HandleItem | registrar/apps/core/management/commands/manage_programs.py:29-35 | one item is read, its organization found and its program created or modified; a failure leaves the table unchanged; see also registrar/apps/enrollments/management/commands/manage_programs.py:32-36 |
| ManagePrograms.Registry.HandleAll | registrar/apps/core/management/commands/manage_programs.py:26-35 | all items are handled in order; the first failure ends the command and the table is left as it was; see also registrar/apps/enrollments/management/commands/manage_programs.py:29-36 |
| ManagePrograms.Registry.Handle | registrar/apps/core/management/commands/manage_programs.py:26-35 | a malformed argument changes nothing; otherwise the table is the outcome of handling every item, or unchanged on failure; see also registrar/apps/enrollments/management/commands/manage_programs.py:29-36 |
| ManagePrograms.Registry.HandleCore | registrar/apps/core/management/commands/manage_programs.py:26-35 | the core command, with the cached discovery read |
| ManagePrograms.Registry.HandleEnrollments | registrar/apps/enrollments/management/commands/manage_programs.py:29-36 | the enrollments command, with the direct discovery read |
| MockV0Views.ListPrograms | registrar/apps/api/v0/views.py:66-75 | no org filter and an organization that is not metadata-readable are 403, an unknown organization 404; otherwise the programs listed are exactly those the organization manages |
| MockV0Views.FakeOrgDictKeys | registrar/apps/api/v0/views.py:70-75 | an organization found by key carries that key and is one of the fake organizations |
| MockV0Views.FakeProgramDictKeys | registrar/apps/api/v0/views.py:89-91 | a program found by key carries that key and is one of the fake programs |
| MockV0Views.ProgramLookup | registrar/apps/api/v0/views.py:84-91 | a program key is found exactly when it is in the fake program table, yielding that program; otherwise 404 |
| MockV0Views.FirstRunWithKey | registrar/apps/api/v0/views.py:106 | None exactly when no run has the course id; otherwise the first run that has it |
| MockV0Views.CourseLookup | registrar/apps/api/v0/views.py:100-109 | an unknown program is 404, a program without a course-run entry a KeyError; otherwise the course is found exactly when one of the program's runs has the course id, and is 404 otherwise |
| MockV0Views.RetrieveProgram | registrar/apps/api/v0/views.py:129-133 | the program is returned exactly when it exists and its organization is metadata-readable; an unknown program is 404 and an unreadable one 403 |
| MockV0Views.ProgramCourses | registrar/apps/api/v0/views.py:153-157 | the program's course runs, when the program can be retrieved and has a course-run entry; a retrieval failure passes through |
| MockV0Views.ValidateAndEchoStatuses | registrar/apps/api/v0/views.py:166-212 | an unknown program is 404 and one whose organization is not enrollments-writeable 403, before the body is examined; a non-list body is a validation error; more than 25 records is 413; otherwise the reply is the echo of the records; see also registrar/apps/api/v0/views.py:264-268 |
| MockV0Views.CourseValidateAndEchoStatuses | registrar/apps/api/v0/views.py:322-328 | the course is looked up first (404, or a server error when the program has no course-run entry); for a found course the program write follows: 403 unless the organization is enrollments-writeable, then a validation error for a non-list body, 413 for more than 25 records, and otherwise the echo of the records; see also registrar/apps/api/v0/views.py:100-109 |
| MockV0Views.ProgramEnrollmentsReadable | registrar/apps/api/v0/views.py:270-275 | reading a program's enrollments is allowed exactly when it exists and its organization is enrollments-readable; otherwise 404 or 403 |
| MockV0Views.CourseEnrollmentsReadable | registrar/apps/api/v0/views.py:330-339 | read permission on the program is checked before the course lookup, and a found course implies the program is enrollments-readable |
| MockV1Views.ListPrograms | registrar/apps/api/v1_mock/views.py:88-119 | listing succeeds exactly with no org filter and global metadata read, or with a known organization that is metadata-readable or global read; no filter gives all fake programs and a filter exactly that organization's; a refusal is 403 tracked with the missing permission, an unknown organization 404 tracked as org_not_found |
| MockV1Views.ProgramLookup | registrar/apps/api/v1_mock/views.py:128-136 | answers as the v0 lookup, and tracks program_not_found exactly when the program is unknown |
| MockV1Views.CourseLookup | registrar/apps/api/v1_mock/views.py:145-155 | answers as the v0 course lookup; tracks program_not_found for an unknown program and course_not_found for an unknown course |
| MockV1Views.RetrieveProgram | registrar/apps/api/v1_mock/views.py:177-184 | answers as the v0 retrieval; a 403 is tracked with the missing metadata-read permission and a 404 as program_not_found |
| MockV1Views.ProgramCourses | registrar/apps/api/v1_mock/views.py:206-213 | answers as the v0 course list, with the tracking of the program retrieval |
| MockV1Views.WriteTracking | registrar/apps/api/v1_mock/views.py:223-278 | a write reply is tracked with a failure exactly when it is a 404, a validation error, a 413 or a 422, and with the missing write permission exactly when it is a 403; 200 and 207 replies add nothing |
| MockV1Views.ValidateAndEchoStatuses | registrar/apps/api/v1_mock/views.py:223-278 | the v0 checks in the same order, with 'invalid enrollment record' as the text for a record without a student key; the view's tracking data gains exactly the reply's tracking and nothing else of the view changes; see also registrar/apps/api/v1_mock/views.py:336-346 |
| MockV1Views.EchoTextIsInvalidRecord | registrar/apps/api/v1_mock/views.py:262-270 | with the v1 text every aborted write answers 422 'invalid enrollment record' |
| MockV1Views.CourseValidateAndEchoStatuses | registrar/apps/api/v1_mock/views.py:412-424 | the course lookup runs first and tracks its failure; for a found course the program write follows with its tracking: 403 unless the organization is enrollments-writeable, then a validation error for a non-list body, 413 for more than 25 records, and otherwise the echo of the records with the v1 text; see also registrar/apps/api/v1_mock/views.py:145-155 |
| MockV1Views.ProgramEnrollmentsReadable | registrar/apps/api/v1_mock/views.py:348-356 | answers as the v0 read check; a 403 is tracked with the missing enrollment-read permission and a 404 as program_not_found |
| MockV1Views.CourseEnrollmentsReadable | registrar/apps/api/v1_mock/views.py:426-434 | answers as the v0 course read check, and a refused program read carries that refusal's tracking; see also registrar/apps/api/v1_mock/views.py:145-155 |
| MockV1Views.JobStatus | registrar/apps/api/v1_mock/views.py:479-487 | a job found is returned and tracked by its state; a missing one is 404 tracked as job_not_found |
| SyncWithDiscovery.DistinctOrgsConsistent | registrar/apps/core/management/commands/sync_with_discovery.py:38-86 | when discovery lists each organization uuid once, two entries with one uuid are the same entry |
| SyncWithDiscovery.DistinctProgramsConsistent | registrar/apps/core/management/commands/sync_with_discovery.py:88-139 | when discovery lists each program uuid once, two entries with one uuid are the same entry |
| SyncWithDiscovery.OrgsToCreate | registrar/apps/core/management/commands/sync_with_discovery.py:53-61 | exactly the discovery organizations whose uuid the registrar does not know |
| SyncWithDiscovery.OrgsToUpdate | registrar/apps/core/management/commands/sync_with_discovery.py:62-71 | exactly the known organizations whose name or key differs from discovery's |
| SyncWithDiscovery.WithOrgRows | registrar/apps/core/management/commands/sync_with_discovery.py:76-84 | the table after a bulk write holds the old uuids and the written ones |
| SyncWithDiscovery.WithOrgRowsStores | registrar/apps/core/management/commands/sync_with_discovery.py:76-84 | every organization written holds discovery's name and key afterwards |
| SyncWithDiscovery.WithOrgRowsKeeps | registrar/apps/core/management/commands/sync_with_discovery.py:76-84 | every organization not written keeps its data |
| SyncWithDiscovery.ReportGroupsFor | registrar/apps/core/management/commands/sync_with_discovery.py:155-176 | one group per created organization, in order, named `{key}_ReadOrganizationReports` and carrying the organization and the report role |
| SyncWithDiscovery.ReportGroupsForRows | registrar/apps/core/management/commands/sync_with_discovery.py:155-176 | the i-th created organization gets the i-th group: named `{key}_ReadOrganizationReports`, with the i-th id, that organization and the report role |
| SyncWithDiscovery.UuidsOf | registrar/apps/core/management/commands/sync_with_discovery.py:62-71 | the set of uuids of the listed organizations |
| SyncWithDiscovery.RenameGroupsAsWritten | registrar/apps/core/management/commands/sync_with_discovery.py:141-153 | as written: every group of an updated organization, whatever its role, takes the report-group name of the new key; no other group changes and the count is kept |
| SyncWithDiscovery.RenameAsWrittenCollides | registrar/apps/core/management/commands/sync_with_discovery.py:141-153 | two groups of one updated organization are given the same name |
| SyncWithDiscovery.RenameAsWrittenExample | registrar/apps/core/management/commands/sync_with_discovery.py:141-153 | an organization with a report group and a metadata group, re-keyed to "new", gets two groups named new_ReadOrganizationReports |
| SyncWithDiscovery.RenameReportGroups | registrar/apps/core/management/commands/sync_with_discovery.py:141-153 | only the report-role groups of updated organizations take the report-group name of the new key; no other group changes and the count is kept |
| SyncWithDiscovery.RenameReportGroupsConfined | registrar/apps/core/management/commands/sync_with_discovery.py:141-153 | groups that are not report groups of updated organizations are untouched, and two renamed groups share a name only when their organizations share a key |
| SyncWithDiscovery.ProgramsToCreate | registrar/apps/core/management/commands/sync_with_discovery.py:108-129 | exactly the discovery programs with a single authoring organization that the registrar knows and a uuid it does not |
| SyncWithDiscovery.ManagingOrgUuid | registrar/apps/core/management/commands/sync_with_discovery.py:117-129 | the uuid of the program's first authoring organization, when it has one |
| SyncWithDiscovery.ProgramUuidsOf | registrar/apps/core/management/commands/sync_with_discovery.py:108-129 | the set of uuids of the listed programs |
| SyncWithDiscovery.WithProgramRows | registrar/apps/core/management/commands/sync_with_discovery.py:131-137 | the table after a bulk create holds the old uuids and the created ones |
| SyncWithDiscovery.WithProgramRowsStores | registrar/apps/core/management/commands/sync_with_discovery.py:117-137 | every created program is keyed by its marketing slug and managed by its authoring organization |
| SyncWithDiscovery.WithProgramRowsKeeps | registrar/apps/core/management/commands/sync_with_discovery.py:131-137 | every program not created keeps its data |
| SyncWithDiscovery.ProgramGroupsFor | registrar/apps/core/management/commands/sync_with_discovery.py:178-205 | one group per created program, in order, named after the organization key and program key with `_ReadProgramReports`, carrying the organization, the program and the report role |
| SyncWithDiscovery.ProgramGroupsForRows | registrar/apps/core/management/commands/sync_with_discovery.py:178-205 | the i-th created program gets the i-th group: named `{org key}_{program key}_ReadProgramReports`, with the i-th id, its organization, the program and the report role |
| SyncWithDiscovery.OrgGroupGrantsExact | registrar/apps/core/management/commands/sync_with_discovery.py:155-176 | each new organization's report group holds a permission on a target iff the target is that organization and the permission is the report role's; see also registrar/apps/core/models.py:325-331 |
| SyncWithDiscovery.ProgramGroupGrantsExact | registrar/apps/core/management/commands/sync_with_discovery.py:178-205 | each new program's report group holds a permission on a target iff the target is that program and the permission is the program report role's; see also registrar/apps/core/models.py:381-387 |
| SyncWithDiscovery.AddOrgGroupsMeaning | registrar/apps/core/management/commands/sync_with_discovery.py:155-176 | starting from unique group names, creating the report groups commits iff the report role is an organization role (or nothing is created) and all names stay unique with the new groups; it then appends exactly ReportGroupsFor |
| SyncWithDiscovery.AddOrgGroupsErrorPersists | registrar/apps/core/management/commands/sync_with_discovery.py:155-176 | once one report group fails, the whole creation fails with that error |
| SyncWithDiscovery.AddProgramGroupMeaning | registrar/apps/core/management/commands/sync_with_discovery.py:178-205 | one program report group commits iff the report role is a program role and its name keeps all names unique; it then appends exactly that row |
| SyncWithDiscovery.AddProgramGroupsMeaning | registrar/apps/core/management/commands/sync_with_discovery.py:178-205 | starting from unique group names, creating the program report groups commits iff the report role is a program role (or nothing is created) and all names stay unique with the new groups; it then appends exactly ProgramGroupsFor |
| SyncWithDiscovery.AddProgramGroupsErrorPersists | registrar/apps/core/management/commands/sync_with_discovery.py:178-205 | once one program report group fails, the whole creation fails with that error |
| SyncWithDiscovery.SyncedOrgHoldsDiscoveryData | registrar/apps/core/management/commands/sync_with_discovery.py:38-86 | after both bulk writes a discovery organization holds discovery's name and key |
| SyncWithDiscovery.OrganizationsSynced | registrar/apps/core/management/commands/sync_with_discovery.py:38-86 | after the organization sync every discovery organization holds discovery's name and key, the table gains exactly the new uuids, and no other organization changes |
| SyncWithDiscovery.ProgramSyncRules | registrar/apps/core/management/commands/sync_with_discovery.py:88-139 | the program sync never changes an existing program, never creates one with several authoring organizations, creates each admissible program with its slug and organization, and creates nothing else |
| SyncWithDiscovery.NewProgramsAdmitted | registrar/apps/core/management/commands/sync_with_discovery.py:108-137 | every program the sync adds has the uuid of a discovery program that CreatesProgram admits |
| SyncWithDiscovery.ProgramSyncFrom | registrar/apps/core/management/commands/sync_with_discovery.py:29-36 | the program sync depends only on the tables and the next group id it starts from |
| SyncWithDiscovery.Catalogue.constructor | registrar/apps/core/management/commands/sync_with_discovery.py:29-36 | the catalogue holds the tables and report roles given |
| SyncWithDiscovery.Catalogue.WriteOrganizations | registrar/apps/core/management/commands/sync_with_discovery.py:76-84 | the bulk write succeeds iff organization keys stay unique after it; it then leaves the table as WithOrgRows gives, and otherwise fails with the key clash and writes nothing; no other table changes |
| SyncWithDiscovery.Catalogue.CreateOrgGroups | registrar/apps/core/management/commands/sync_with_discovery.py:155-176 | the report groups of the created organizations are inserted and saved in order, with the outcome AddOrgGroups gives; on success each new group holds the report role's permissions on its organization (OrgGroupGrants) and nothing else changes; see also registrar/apps/core/models.py:325-331 |
| SyncWithDiscovery.Catalogue.CreateOrgGroup | registrar/apps/core/management/commands/sync_with_discovery.py:163-170 | one report group is inserted unless its name is taken, then saved: its outcome is AddOrgGroup's, and on success the grants grow by exactly the report role's permissions on the organization |
| SyncWithDiscovery.Catalogue.UpdateOrgGroups | registrar/apps/core/management/commands/sync_with_discovery.py:141-153 | the report groups of the updated organizations are renamed after the new key; nothing else changes; this is the corrected rename of the sync Findings row, where the source renames every group of the organization |
| SyncWithDiscovery.Catalogue.CollectOrgChanges | registrar/apps/core/management/commands/sync_with_discovery.py:53-71 | the organizations to create are exactly the unknown ones and those to update exactly the changed known ones, in discovery order |
| SyncWithDiscovery.Catalogue.SyncOrganizations | registrar/apps/core/management/commands/sync_with_discovery.py:38-86 | commits exactly when OrgSyncSucceeds (organization keys stay unique, the report role exists if any group is created, group names stay unique after the new report groups and after the renaming); the organizations then become SyncedOrgs, the groups SyncedOrgGroups, and the grants grow by the new report groups' permissions; the program tables do not change; the renaming is the corrected one of the sync Findings row |
| SyncWithDiscovery.Catalogue.CreateOrganizations | registrar/apps/core/management/commands/sync_with_discovery.py:76-79 | the new organizations are written in bulk, then their report groups are created: it succeeds iff keys stay unique, the report role exists (if any group is created) and names stay unique, and then the tables and grants grow by exactly the new rows, groups and permissions |
| SyncWithDiscovery.Catalogue.UpdateOrganizations | registrar/apps/core/management/commands/sync_with_discovery.py:81-84 | the changed organizations are written in bulk, then their report groups are renamed: it succeeds iff keys and group names stay unique, and then the table is WithOrgRows and the groups are RenameReportGroups, the corrected rename of the sync Findings row; the program tables do not change |
| SyncWithDiscovery.Catalogue.WritePrograms | registrar/apps/core/management/commands/sync_with_discovery.py:131-137 | the bulk create succeeds iff program keys stay unique after it; it then leaves the table as WithProgramRows gives, and otherwise fails with the key clash and writes nothing; no other table changes |
| SyncWithDiscovery.Catalogue.CreateProgramOrgGroups | registrar/apps/core/management/commands/sync_with_discovery.py:178-205 | the report groups of the created programs are inserted and saved in order, with the outcome AddProgramGroups gives; on success each new group holds the program report role's permissions on its program (ProgramGroupGrants) and nothing else changes; see also registrar/apps/core/models.py:381-387 |
| SyncWithDiscovery.Catalogue.CreateProgramOrgGroup | registrar/apps/core/management/commands/sync_with_discovery.py:186-198 | one program report group is inserted unless its name is taken, then saved: its outcome is AddProgramGroup's, and on success the grants grow by exactly the report role's permissions on the program |
| SyncWithDiscovery.Catalogue.SyncPrograms | registrar/apps/core/management/commands/sync_with_discovery.py:88-139 | commits exactly when ProgramSyncSucceeds; the admissible programs (ProgramsToCreate) are then created with their report groups and grants; organizations and their groups do not change |
| SyncWithDiscovery.Catalogue.Handle | registrar/apps/core/management/commands/sync_with_discovery.py:29-36 | the transaction: it commits exactly when both the organization sync and the program sync over its result succeed, and then the tables and grants are those of both syncs; any failure leaves every table and the grants as they were; it runs the corrected rename of the sync Findings row, so it commits where the source's rename of every group clashes and rolls back |
| SyncWithDiscovery.Catalogue.Synchronize | registrar/apps/core/management/commands/sync_with_discovery.py:34-35 | `sync_organizations` then `sync_programs` over its result: commits iff both succeed, and then the organizations, groups, programs and grants are those both syncs describe; the organization sync uses the corrected rename of the sync Findings row |
| Text.Split | registrar/apps/core/management/commands/manage_programs.py:39-40 | a split always has at least one piece |
| Text.SplitPieces | registrar/apps/core/management/commands/manage_programs.py:39-44 | no piece of a split contains the separator, and there is one more piece than separators, so an item has one or two parts exactly when it holds at most one ':' |
| Text.JoinSplit | registrar/apps/core/management/commands/manage_programs.py:39-44 | joining the pieces of a split with the separator gives back the string |
| Text.SplitJoin | registrar/apps/core/management/commands/manage_programs.py:39-44 | splitting the join of pieces free of the separator gives back the pieces |
| Text.SplitNoSeparator | registrar/apps/core/management/commands/manage_programs.py:40-42 | a string without the separator splits into itself alone |
| Text.SplitAfterPiece | registrar/apps/core/management/commands/manage_programs.py:39-40 | a piece free of the separator, then the separator, splits off as the first piece |
| Text.JoinStartsWithFirst | registrar/apps/core/management/commands/manage_programs.py:39-44 | a join of two or more pieces starts with the first piece and the separator |
| Text.DigitChar | registrar/apps/grades/tasks.py:34-35 | the character of a digit is a decimal digit |
| Text.NatText | registrar/apps/grades/tasks.py:34-53 | the decimal text of a number is non-empty, made only of digits, and one character long exactly for numbers below ten |
| Text.NatTextValue | registrar/apps/grades/tasks.py:34-53 | reading the decimal text of a number back gives the number |
| Utf8.EncodeChar | registrar/apps/core/job_storage.py:32 | a character encodes to one to four bytes, all after the first being continuation bytes |
| Utf8.DecodeChar | registrar/apps/core/job_storage.py:32 | a decoded character consumed as many bytes as its leading byte announces |
| Utf8.DecodeEncodedChar | registrar/apps/core/job_storage.py:32 | the bytes of a character decode back to that character, whatever follows |
| Utf8.DecodeEncode | registrar/apps/core/job_storage.py:32 | the UTF-8 bytes of any string decode back to the string |
| Utf8.EncodeDecode | registrar/apps/core/job_storage.py:32 | bytes that decode encode back to the same bytes, so a stored result file has exactly one text |
| Utf8.EncodeDecodedChar | registrar/apps/core/job_storage.py:32 | the first decoded character re-encodes to exactly the bytes it consumed |
| Tracking.FillWithoutField | registrar/apps/api/mixins.py:93 | an event name without a format field is sent as it is |
| Tracking.ParamPropertiesFromMappedParams | registrar/apps/api/mixins.py:94-99 | the parameter properties are exactly the mapped names of the path and query parameters that have one, each with the value of some parameter mapped to that name |
| Tracking.TrackView.constructor | registrar/apps/api/mixins.py:50-55 | a new view has no extra tracking data |
| Tracking.TrackView.AddTrackingData | registrar/apps/api/mixins.py:57-61 | the given fields are merged into the extra data, overriding earlier values and keeping the others; nothing is sent |
| Tracking.TrackView.Track | registrar/apps/api/mixins.py:83-106 | a path with fewer than three segments raises; a method without an event name logs one error and sends nothing; otherwise one event is sent for the user, named with the API version from the path, whose properties take the user defaults, then the mapped parameters, then the extra data, and always the status code |
| Tracking.TrackView.Dispatch | registrar/apps/api/mixins.py:63-71 | an anonymous request sends nothing; an event sent for an authenticated one carries the response's status code |
| V1Views.FindProgram | registrar/apps/api/v1/views.py:183 | a program is found exactly when some program has the key, and it is one with that key |
| V1Views.ProgramsOf | registrar/apps/api/v1/views.py:136-137 | exactly the programs managed by the organization with the key |
| V1Views.ProgramListQueryset | registrar/apps/api/v1/views.py:133-143 | without an org filter every program is listed; with one, exactly that organization's programs |
| V1Views.ProgramListPermissionObject | registrar/apps/api/v1/views.py:145-159 | no filter checks global access; a known organization is the permission object; an unknown one is 404 |
| V1Views.ListingRules | registrar/apps/api/v1/views.py:130-159 | global metadata read lists the queryset; without it no filter is 403, an unknown organization 404, and a known one is listed exactly when the caller may read its metadata; see also registrar/apps/api/v1/views.py:60-93 |
| V1Views.UnknownOrgListsNothing | registrar/apps/api/v1/views.py:136-137 | filtering by a key no program's organization has lists nothing |
| V1Views.ProgramSpecificView.constructor | registrar/apps/api/v1/views.py:172-174 | a new view has no program loaded; see also registrar/apps/api/v1/mixins.py:135-137 |
| V1Views.ProgramSpecificView.Program | registrar/apps/api/v1/views.py:176-184 | the program is found exactly when the key names one, and is then kept; an unknown key is 404; only a use without a kept program looks the key up; see also registrar/apps/api/v1/mixins.py:139-147 |
| V1Views.ProgramSpecificView.PermissionObject | registrar/apps/api/v1/views.py:186-190 | the permission object is the program's managing organization, an organization of the enrollments app (the view's `Program` is the enrollments model), or 404 for an unknown key; see also registrar/apps/api/v1/mixins.py:149-153 |
| V1Views.EnrollmentsOrganizationAdmitsOnlyGlobal | registrar/apps/api/v1/views.py:186-190 | grants on the enrollments organization that name none of the required permissions leave the check as it would be with no permission object: only global grants admit; see also registrar/apps/api/v1/views.py:60-93 |
| V1Views.EnrollmentsGrantsDoNotAdmit | registrar/apps/enrollments/permissions.py:11-23 | the enrollments roles grant unprefixed codenames, so a group's enrollments grants never satisfy a 'core.' organization permission on the program's organization; see also registrar/apps/core/permissions.py:8-26 |
| V1Views.ProgramTwice | registrar/apps/api/v1/views.py:166-184 | two uses of the property agree, and a found program is looked up only once |
| V1Views.FirstItem | registrar/apps/api/v1/views.py:249-250 | the first curriculum of a non-empty curriculum list |
| V1Views.RunsOfCourse | registrar/apps/api/v1/views.py:251 | a course contributes runs exactly when it is a dict whose course_runs is a list, and they are that list |
| V1Views.ConcatRuns | registrar/apps/api/v1/views.py:248-252 | the concatenation succeeds exactly when every course has a run list |
| V1Views.CoursesOfFirstCurriculum | registrar/apps/api/v1/views.py:243-250 | without curricula, or with empty ones, there are no courses |
| V1Views.ProgramCourseList | registrar/apps/api/v1/views.py:229-252 | a discovery HTTP error is logged and re-raised with the program key, uuid and status; otherwise the runs of the first curriculum's courses, in order, or the error of the first bad course |
| V1Views.ConcatErrorPersists | registrar/apps/api/v1/views.py:250-251 | a bad course ends the list with its error whatever follows it |
| V1Views.ConcatRunsAppend | registrar/apps/api/v1/views.py:248-252 | the runs of two lists of courses, concatenated, are the runs of the joined list |
| V1Views.FirstCurriculumRegardlessOfActive | registrar/apps/api/v1/views.py:243-250 | the list reads the first curriculum whether or not it is active |
| InternalViews.UuidsOf | registrar/apps/api/internal/views.py:50-53 | the set of discovery uuids of the programs |
| InternalViews.FlushProgramCache | registrar/apps/api/internal/views.py:40-54 | with a program key, that program's cached details are dropped, or 404 for an unknown key; without one, every program's are; success is 204 and nothing else in the cache changes |
| InternalViews.FlushAllLeavesOnlyStrangers | registrar/apps/api/internal/views.py:49-53 | after a flush of everything no program's details remain cached, and details cached for uuids no program has are kept |

## Left out

**Definitions the source uses but does not define**
- registrar at this revision uses names it does not define. These are parameters, or are stated from their uses:
  - `ROLES` and `ORGANIZATION_KEY_PATTERN` of create_organization.py. The accepted role names are a parameter. The key pattern is taken to be `[A-Za-z0-9-_]+`, as its error message describes.
  - `DiscoveryProgram.read_from_discovery` and `from_json` of the enrollments `manage_programs`. The discovery read is a parameter. The program uuid is the one given on the command line.
  - `processing_job_with_prefix_exists` of enrollments/utils.py. It is modelled over the task statuses of the jobs ledger.
  - `PROGRAM_ROLES` and `PROGRAM_PERMISSIONS` of core/models.py. They are fields of the program group. The names of the two report roles are constants of the sync catalogue.
  - `GradeReadStatus`. Its values are taken to be the HTTP codes of the same names.
  - `PROGRAM_CACHE_KEY_TPL`. The program cache is keyed by uuid directly.
  - `FAKE_PROGRAM_COURSE_RUNS`. The mock views take it as a parameter.
  - The tables of registrar/apps/api/v1_mock/data.py (`FAKE_ORG_DICT`, `FAKE_ORG_PROGRAMS`, `FAKE_PROGRAMS`, `FAKE_PROGRAM_DICT`), which the v1 mock views import. That file is not part of this model; the v1 views are modelled over the v0 tables of registrar/apps/api/v0/data.py (FakeData).
  - `JOB_GLOBAL_READ`. It is a boolean: whether the caller holds it.
- jobs/models.py writes `state.SUCCEEDED` and uses `IN_PROGRESS` without importing either. They are modelled as the states module's constants, which is evidently what is meant.
- core/signals.py:55 uses `Program` without importing it. It is modelled as the program group's program.

**Services and backends outside the model**
- HTTP requests to course-discovery and the LMS are left out. Their outcome, a decoded body or an HTTP error, is a parameter.
- Segment analytics calls are left out:
  - the user's default properties are a parameter;
  - sending an event is recorded as appending it to a list;
  - the `List Programs` event sent by the v1 program-list queryset is not modelled.
- The following are parameters:
  - boto3's presigned urls;
  - `build_absolute_api_url` and `to_absolute_api_url`;
  - a storage backend's url for a name, and the fresh name a non-overwriting backend picks;
  - uuid4 draws, and timestamps.
- Cache expiry is left out: `PROGRAM_CACHE_TIMEOUT` never passes in the model.
- Info and debug logging are left out. Error and exception logs are counted or recorded where the source promises them.
- Celery's execution of a scheduled task, its retries, and the Canceled state are left out. No code here emits Canceled.
- The JSON and CSV renderings of grades and enrollments are left out. They are parameters of the grades task.
- The DRF serializers are left out. A record is described by what the serializer can see of it, and the status check is the abstract `IsValidStatus`.
- EnrollmentWrites.SerializerValid: the write serializers are not part of this model, so a record counts as valid only with a string `student_key`, and the serializer is taken to return that string unchanged. A DRF CharField would also accept a number, turn it into a string and trim whitespace. The invalid-status branch uses the raw key, and that branch is modelled exactly. Floating-point keys are not modelled because JSON numbers are integers in this model.
- The fake listing jobs that the mock GET views start are left out. Only the permission and lookup checks before them are modelled.
- `urljoin` is modelled only for a path base and a relative path without scheme, query or dot segments. These are the only forms the job store passes.
- Lower-casing in `name_to_key` covers ASCII letters only.
- Tracking.FillApiVersion: models `str.format` only for event names whose braces are `{api_version}` fields. The escapes `{{` and `}}`, and the KeyError or IndexError that other fields raise, are not modelled; the event names in the source use no other fields.
- The file-system store's text-mode read decodes with the locale's encoding. The model takes that encoding to be UTF-8.
- JSON numbers are integers. Discovery or LMS bodies holding floating-point numbers are not modelled; no modelled operation reads a number's fraction.

**Django and Guardian semantics not modelled**
- Superusers, which pass every `has_perm`, are not modelled.
- Inactive users, who fail every `has_perm`, are not modelled.
- Guardian's anonymous user is not modelled.
- Unique constraints are modelled where the source relies on them, as failures that roll the command back:
  - program keys in `manage_programs`, where a clash is `ProgramKeyTaken`;
  - organization keys and group names in `create_organization`;
  - organization keys, program keys and group names in the sync, where a clash is `OrgKeyTaken`, `ProgramKeyTaken` or `GroupNameTaken`.
- A bulk write is refused when the keys or names it leaves behind are not unique. A database that checks each row as it is written can also refuse a bulk update whose final keys are unique, for example two organizations swapping keys. That case is not modelled.
- Group names are unique across all of Django's groups. The sync checks them against the organization and program groups it holds, and `create_organization` against the organization groups it holds. Program groups in `create_organization` and other Django groups, such as those made in the admin, are not modelled.
- Database order is creation order.
- `delete_many` in the cache flush is modelled as one delete per program. The final cache is the same.

**Discovery data**
- A discovery record that lacks a field the sync reads is not modelled. The sync model's records always carry uuid, name and key.
- Discovery's lists are taken to name each uuid once.
- A `marketing_slug` that is not a string is refused as `InvalidProgramKey`. The database would coerce or reject it.
- Organization keys that are not strings never match a registrar organization.

**Contracts deliberately weaker than the source**
- Jobs.JobLedger.PostJobSuccess: an unknown job is reported with the text of `get_job_status` ("No such job: {id}"). The source raises Django's own `DoesNotExist` there.
- Jobs.JobLedger.PostJobFailure: an unknown job is reported with the text of `get_job_status`. The source raises Django's own `DoesNotExist` there.
- JobTasks.GetCourseRunGrades: for loaded grades in a known format it states the new ledger only when the task returns Ok. A failed success post, for example because the job is no longer In Progress, is not characterised. The paths that stop earlier are stated by JobTasks.ReadAndSerialize.
- JobTasks.GetCourseRunGradesAsWritten: states only the path that reaches the bad call. The earlier paths are those of JobTasks.ReadAndSerialize.
- Tracking.TrackView.Dispatch: states only the count of events sent and their status code. The rest of the event is stated by Tracking.TrackView.Track, which Dispatch calls.
- MockV1Views.CourseEnrollmentsReadable: the tracking of a successful read is not stated, only that of a refused one.
- V1Views.CoursesOfFirstCurriculum: its own contract covers only the case without curricula. Beyond that it is characterised only by V1Views.FirstCurriculumRegardlessOfActive, which shows that `is_active` is ignored, and it is the specification of V1Views.ProgramCourseList.
- ManagePrograms.AuthoringOrgKeys: its own contract says only that a result is non-empty. The keys are characterised by ManagePrograms.KeysAreKeyFields for a list of dicts, and the outcome by ManagePrograms.DictOrganizationsRefused and ManagePrograms.StringOrganizationsRefused for a dict or a list of strings. A list mixing dicts with lists or strings is not characterised beyond Python's `in` semantics.
- Json.Elements: Python iterates a dict in insertion order. A map does not keep that order, so the model visits the keys in increasing order. Only the order in which keys are found changes; which keys exist, and the errors, do not.
- ManagePrograms.NewProgramKey: details that are not a dict are not characterised beyond Python's AttributeError.
- Discovery.ParseUuid: `int(h, 16)` also accepts the decimal digits of other scripts (Arabic-Indic, full-width and so on) and reads them by their value. The model refuses them, so such a uuid string is None here where Python reads it.
- Utf8.DecodeChar: states only how many bytes a decoded character consumes. That a decoded character re-encodes to those bytes is Utf8.EncodeDecodedChar.

**The command-level sync runs the corrected rename**
- SyncWithDiscovery.Catalogue.UpdateOrgGroups: renames only the report groups of an updated organization (RenameReportGroups). sync_with_discovery.py:145-153 renames every group of the organization, and the model keeps that behaviour only in RenameGroupsAsWritten. So when an updated organization has a second group, the model commits where the source hits the unique group name and rolls back.
- SyncWithDiscovery.Catalogue.UpdateOrganizations: inherits the corrected rename from UpdateOrgGroups.
- SyncWithDiscovery.Catalogue.SyncOrganizations: its success condition OrgSyncSucceeds and its final groups SyncedOrgGroups use the corrected rename.
- SyncWithDiscovery.Catalogue.Synchronize: inherits the corrected rename from SyncOrganizations.
- SyncWithDiscovery.Catalogue.Handle: inherits the corrected rename, so the transaction commits on the sync Findings input, where the source rolls back.

**Rows without a discovery uuid**
- ManagePrograms.Upsert: the program table is a map keyed by discovery uuid. `discovery_uuid` may be null and is not unique (core/models.py:113), while `key` is unique (core/models.py:112). So a program without a uuid cannot be represented, and a new key equal to such a program's key is accepted here where the source raises IntegrityError. Two programs sharing a uuid, which make `get_or_create` raise MultipleObjectsReturned, cannot be represented either.
- ManagePrograms.KeyTakenByOther: checks key clashes only against programs keyed by a uuid, for the reason given for ManagePrograms.Upsert.
- SyncWithDiscovery.Catalogue.WriteOrganizations: the organization table is keyed by discovery uuid (core/models.py:73-74), so key uniqueness is checked only against organizations that have one. The sync's index by `str(org.discovery_uuid)` (sync_with_discovery.py:49-50), which puts every organization without a uuid under "None", is not modelled.
- SyncWithDiscovery.Catalogue.WritePrograms: the same holds for programs and their index by `str(program.discovery_uuid)` (sync_with_discovery.py:104-105).

**Task failure handling**
- The grades task runs on a Celery `UserTask` base (grades/tasks.py:7, 16), whose failure handler marks the user task status as failed with the exception text. That handler is not part of this model. The model states only what the task body does to the jobs ledger.

**Tests that contradict the code** (not encoded)
- test_sync_with_discovery.py:330-352 expects a program with several authoring organizations to be created. The code skips such programs.
- test_manage_programs.py:112-115 expects a colon-free key to be refused. `parse_uuidkeys` accepts it.

## Findings

| source | as written | input that shows it | evidently intended | confidence | as-written member | corrected member |
|---|---|---|---|---|---|---|
| registrar/apps/grades/tasks.py:61 | `post_job_success(job_id, serialized, file_format, text=code_str)`, but `post_job_success` (registrar/apps/core/jobs.py:115) takes no `text` parameter | any run with a known program, grades read without error, and `file_format` json or csv: the task raises TypeError before posting success, so the job never succeeds | the job succeeds, storing the result and recording the read-status code as the text of its result artifact | not executed | JobTasks.GetCourseRunGradesAsWritten | JobTasks.GetCourseRunGrades |
| registrar/apps/core/data.py:92-95 | on a cache miss, `{}` is cached when the fetch fails, but the raw fetch result is returned | a uuid not in the cache whose request fails (the fetch gives None), or whose body is a list: the lookup answers None or the list | the lookup returns a dict, `{}` on failure, as its docstring says (core/data.py:65, 84) and as it caches | not executed | Discovery.ProgramDetailsCache.GetProgramDataAsWritten | Discovery.ProgramDetailsCache.GetProgramData |
| registrar/apps/core/management/commands/sync_with_discovery.py:141-153 | every OrganizationGroup of an updated organization is renamed to `{key}_ReadOrganizationReports`, whatever its role | an organization with a report group and a second group (for example one made by `create_organization`) whose key changes in discovery: both groups get one name, the unique group name refuses the bulk update, and the whole sync rolls back | only the organization's report group is renamed | not executed | SyncWithDiscovery.RenameGroupsAsWritten | SyncWithDiscovery.RenameReportGroups |
