# Verified model of the binding providers

Six providers implement one promise over six different privilege systems: a list
of grants (`read`, `create` or `full`, on `*` or on one table) becomes exactly
the right access of a derived account. Grants overlap, statements fail part-way,
tables come and go between calls, and users and roles are dropped behind the
provider's back. This project models the grant reconciliation of every provider,
the account lifecycle around it, SQL Server's hand-written schema teardown, the
statement printers, and the ClickHouse password shuffle, and proves what each
leaves behind.

## How it is built

- `Grants.dfy` holds the shared vocabulary and `Covers`, the meaning of a list of
  grants. Each provider is measured against it: `ClickHouse.Exact` directly, and
  through the access its entries allow `SqlServer.AccessIsCoverage`,
  `Snowflake.AccessIsCoverage`, `Databricks.AccessIsCoverage`,
  `Oracle.GivesCoverage`, `MongoGrants.AllowsIsCoverage` and
  `MongoGrants.AtlasAllowsIsCoverage`. `Names.dfy` holds the case folding.
- Each provider is a module with a `Server` (or `Workspace`) class that states the
  backend's privilege model, and methods that follow the provider's loops. A
  constant `fails: nat -> bool` says which of the server's calls are refused, so
  every contract holds for every pattern of failures. Where the text of a
  statement matters (ClickHouse) the server executes text and parses it.
- A batch is compared with the list of statements it plans; `ran`, `reached` or
  `attempt` in a contract says how much of the plan was executed when it ended.
- `EntryAlgebra.dfy` is the part SQL Server, Snowflake and Databricks share: a
  grant adds the entries of its statement, a revoke removes them.
- Runs are sequences of steps: batches that may stop anywhere, and the base
  account's own changes in between.

The backend assumptions are definitions taken from the providers' comments:
`ClickHouse.Rights` (a `db.*` statement replaces the exceptions of its
privileges, a `db.t` statement records an exception that outlives the table),
`SqlServer.Effect` and `SqlServer.Access`, `Snowflake.Effect`, `Snowflake.Created`,
`Snowflake.Dropped` and `Snowflake.Access`, `Databricks.RevokeEffect` (revoking ALL
PRIVILEGES takes everything on the securable) and `Databricks.Access` (schema
privileges are inherited), `MongoGrants.Reaches` and `MongoGrants.RoleAllows` (the
built-in roles reach the non-system collections and system.js), `Mongo.Server.DropRole`
(a dropped role is taken from its users),
`SqlServerTeardown.Db.CanDropObject`, `Oracle.State`, and
`Accounts.Catalogue.CanDrop`.

## Where the code does less than its documentation suggests

These are results: each has the exact condition under which the code does meet the
promise and, where the condition does not hand one over, an input that shows it fail.

- ClickHouse: a regrant on a table that does not exist is deferred, so a kept
  grant can lose a right a revoke shares with it (`ClickHouse.RevokeIsExact`,
  condition `Lost`; `ClickHouse.LossHappens`); granting again once the table exists
  restores it.
- Snowflake: a revoke whose target is gone is skipped and can leave the schema's
  USAGE behind (`Snowflake.LastUsage`, over runs `Snowflake.FullyAccountedExactly`;
  `Snowflake.UsageMayStay`); a table with a mixed-case plain name is looked up under
  that name and addressed under its uppercase form (`Snowflake.ReachesItsTarget`;
  `Snowflake.MixedCaseIsMissed`); a target that resolves differently at revoke time
  leaves the first object's privileges in place
  (`Snowflake.RevokeFindsTheSameObject`; `Snowflake.RevokeMayMissItsObject`).
- SQL Server: the teardown depends on the order in which views are listed when one
  view is schema-bound to another (`SqlServerTeardown.DropSchemaCascade`,
  `SqlServerTeardown.EveryOrderAccepted`).
- MongoDB: when restoring the user fails and the rollback of the role fails too,
  the role holds more than the metadata records (`Mongo.StuckExactly`,
  `Mongo.RecordExactly`; `Mongo.RollbackMayFail`). Reapplying brings a dropped role
  back, but not the hold a user that is still there had on it
  (`Mongo.LockedOutExactly`; `Mongo.ReapplyMayLockOut`).
- Atlas: a grant on `*` reaches the system.js collection, which the self-hosted role
  does not, and the placeholder role would be real access in a binding database of
  its own name (`MongoGrants.AtlasSimulatesSelfHosted`); no generated name is
  (`MongoGrants.NamesAreInjective`).

## Model

| member | source | states |
|---|---|---|
| Quoting.QuoteRoundTrip | clickhouse/clickhouse_binding.go:466-470 | In every quoting style, with or without backslash escapes, the server reads a quoted name back as that name and leaves the following text untouched, if and only if that text does not begin with the delimiter |
| Quoting.BackslashStepIsNeeded | clickhouse/clickhouse_binding.go:468-470 | Doubling quotes without doubling backslashes first does not survive the server's reading |
| ClickHouseStatements.ParsePrint | clickhouse/clickhouse_binding.go:310-321 | The rendered GRANT or REVOKE of arbitrary cluster, database, table and role names parses back to exactly the intended statement |
| DatabricksStatements.ParsePrint | databricks/databricks_binding.go:428-439 | The same for Unity Catalog statements in backticks at catalog, schema and table scope |
| ClickHouse.Binding.ApplyStmt | clickhouse/clickhouse_binding.go:312-321 | A statement changes the rights of the intended role in the intended database as intended, and nobody else's, though the server only sees its text |
| ClickHouse.Binding.TableSpecific | clickhouse/clickhouse_binding.go:323-342 | A grant on a missing table is deferred without effect; a revoke always runs |
| ClickHouse.Binding.ApplyPerms | clickhouse/clickhouse_binding.go:290-399 | Whatever fails, the rights are those of a fully processed first part of the batch; on success the whole batch, and the grants reported are exactly those that ran; it fails by itself only on create for one table |
| ClickHouse.Binding.RevokeGrants | clickhouse/clickhouse_binding.go:274-280 | The revoke batch then the grant batch, cut off wherever a statement failed |
| ClickHouse.ActionMeaning | clickhouse/clickhouse_binding.go:349-398 | The privilege strings and scopes of the statements decide exactly the rights the grant is documented to cover |
| ClickHouse.BatchDecides | clickhouse/clickhouse_binding.go:349-398 | After a batch a right is as the batch's grants decide, or else as it was |
| ClickHouse.RevokeThenRegrant | clickhouse/clickhouse_binding.go:274-280 | From any state: held afterwards if and only if a runnable regrant covers it, or it was held and no revoke covers it |
| ClickHouse.RevokeIsExact | clickhouse/clickhouse_binding.go:274-399 | From exactly R + K, revoking R and regranting K never leaves more than K, and leaves exactly K if and only if no right is Lost on an absent table |
| ClickHouse.LossHappens | clickhouse/clickhouse_binding.go:323-335 | A right is lost after full:* and read:t were granted, t dropped, and full:* revoked with read:t kept |
| ClickHouse.ReconcileHeals | clickhouse/clickhouse_binding.go:286-289 | Granting the kept grants once their tables exist makes the rights exact |
| ClickHouse.RetryConverges | clickhouse/clickhouse_binding.go:274-280 | Any number of attempts that failed anywhere, then a complete one, ends as one complete attempt would have |
| ClickHouse.AccountedAlways | clickhouse/clickhouse_binding.go:323-342 | In every run of table changes and batches that may fail anywhere, every right held on any table, existing or not, is covered by a live grant |
| ClickHouse.NoResurrection | clickhouse/clickhouse_binding.go:323-342 | A right revoked and not kept stays absent through any later drops and recreations of its table |
| ClickHouse.DoneIsInForce | clickhouse/clickhouse_binding.go:349-398 | Reported grants are fully in force when the batch ends; omitted ones are exactly those of unknown type or on a missing table |
| Grants.SelectAppend | clickhouse/clickhouse_binding.go:349-398 | The grants a batch reports keep the order and the repetitions of those it was given |
| ClickHousePassword.Shuffle | clickhouse/clickhouse_binding.go:456-462 | The in-place loop performs exactly the swaps that the numbers read from the random source draw, each number taken modulo its own position plus one, for any length |
| ClickHousePassword.EveryDrawIsMade | clickhouse/clickhouse_binding.go:456-462 | The loop's draws reach every legal draw sequence: each is drawn by some numbers of the source |
| ClickHousePassword.EveryPermutationDrawn | clickhouse/clickhouse_binding.go:456-462 | Every permutation is the outcome of some draw sequence |
| ClickHousePassword.DrawsAreUnique | clickhouse/clickhouse_binding.go:456-462 | Two draw sequences with the same outcome on distinct positions are equal |
| ClickHousePassword.ExactlyOneDraw | clickhouse/clickhouse_binding.go:456-462 | The outcomes are exactly the permutations, each from exactly one draw sequence |
| ClickHousePassword.AppendPicks | clickhouse/clickhouse_binding.go:447-455 | Adds the characters of the class that the numbers read pick, and none of any other class |
| ClickHousePassword.GeneratePassword | clickhouse/clickhouse_binding.go:435-464 | A password of 24 characters with exactly six of each class, all of them marks or letters and digits not taken for one another; it is the one the numbers read make; fails only when the random source does |
| ClickHousePassword.EveryPasswordArises | clickhouse/clickhouse_binding.go:435-464 | Every password with as many characters of each class as are picked is generated from some random source: neither the picks nor the shuffle leaves one out |
| EntryAlgebra.RetryConverges | sqlserver/sqlserver_binding.go:314-320 | For SQL Server, Snowflake and Databricks alike: failed attempts, cut off between any two statements, then a complete one, end as one complete attempt would have |
| SqlServer.Binding.TrySoftGrant | sqlserver/sqlserver_binding.go:440-452 | A statement on a missing table is not issued and is reported as not applied |
| SqlServer.Binding.ApplyGrant | sqlserver/sqlserver_binding.go:355-432 | The statements of one grant, in order, up to the first refused |
| SqlServer.Binding.ApplyPerms | sqlserver/sqlserver_binding.go:331-435 | Whatever fails, the user's entries are those after a first part of the planned statements, other users' are untouched; on success the whole plan, and the grants reported are exactly those that ran |
| SqlServer.Binding.RevokeGrants | sqlserver/sqlserver_binding.go:314-320 | The revoke batch then the grant batch, cut off wherever a statement failed |
| SqlServer.PlanMeans | sqlserver/sqlserver_binding.go:354-435 | The planned statements touch exactly the database, schema and object entries the grants are owed |
| SqlServer.RevokeIsExact | sqlserver/sqlserver_binding.go:314-452 | Revoking R and regranting K leaves exactly K's entries in both scopes if and only if nothing was held that R and K do not account for |
| SqlServer.AccessIsCoverage | sqlserver/sqlserver_binding.go:325-330 | Access in force on present and future tables, and the right to create, is exactly what the grants cover, except where a grant still waits for its table |
| SqlServer.AccountedAlways | sqlserver/sqlserver_binding.go:331-435 | In every run with failures and table changes, every entry held is owed to a live grant on a present table |
| SqlServer.RevokeIsExactInEveryRun | sqlserver/sqlserver_binding.go:314-320 | At any point of any run, a completed revoke-then-regrant speaking for all live grants is exact |
| SqlServer.CreateKeepsExact | sqlserver/sqlserver_binding.go:325-328 | Creating a table keeps the entries exact if and only if no grant was waiting for it |
| SqlServer.DoneIsInForce | sqlserver/sqlserver_binding.go:354-435 | Reported grants are in force when the batch ends; omitted ones are of unknown type or on a missing table |
| SqlServerTeardown.DropKeys | sqlserver/sqlserver_binding.go:237-266 | Every foreign key of the schema's tables is dropped and nothing else changes |
| SqlServerTeardown.DropClass | sqlserver/sqlserver_binding.go:268-297 | The listed class of objects is dropped if and only if every drop is accepted in the listed order |
| SqlServerTeardown.DropSchemaCascade | sqlserver/sqlserver_binding.go:225-303 | Nothing outside the schema changes at any failure point; on a server that refuses nothing of its own accord it succeeds if and only if nothing outside depends on the schema, it holds only views, tables and sequences, and no view is listed before one bound to it; the schema and its contents are then gone; a partial failure can be retried; a schema that is not there is no error and changes nothing |
| SqlServerTeardown.AllDroppedMeansClear | sqlserver/sqlserver_binding.go:268-297 | If every drop was accepted, nothing stood in the way |
| SqlServerTeardown.EveryOrderAccepted | sqlserver/sqlserver_binding.go:268-274 | Every listing order of the views is accepted if and only if no view of the schema is bound to another |
| Snowflake.Server.ResolveTableOrView | snowflake/snowflake_binding.go:459-486 | Tables before views, the exact name before its uppercase form; nothing only when neither name is a table or a view |
| Snowflake.Binding.SchemaWide | snowflake/snowflake_binding.go:342-360 | Schema USAGE, then ALL and FUTURE per class with privileges, up to the first refused statement |
| Snowflake.Binding.TableSpecific | snowflake/snowflake_binding.go:362-386 | Deferred when the target does not resolve; otherwise USAGE and the privileges on the object the quoted name addresses, failing when there is none |
| Snowflake.Binding.ApplyPerms | snowflake/snowflake_binding.go:310-453 | Whatever fails, the role's entries are those after a first part of the planned statements; on success the whole plan, and the grants reported are exactly those that ran |
| Snowflake.Binding.RevokeGrants | snowflake/snowflake_binding.go:293-299 | The revoke batch then the grant batch, cut off wherever a statement failed |
| Snowflake.PlanMeans | snowflake/snowflake_binding.go:398-452 | The planned statements touch exactly the schema, object and future entries the grants are owed |
| Snowflake.RevokeIsExact | snowflake/snowflake_binding.go:293-453 | Revoking R and regranting K leaves exactly what K is owed per object, for future objects, for creating and for the shared USAGE, if and only if nothing was held that R and K do not account for |
| Snowflake.LastUsage | snowflake/snowflake_binding.go:364-377 | Revoking a role's last grants removes the schema USAGE if and only if one of them still finds its target |
| Snowflake.ReachesItsTarget | snowflake/snowflake_binding.go:550-555 | A grant reaches the object its target resolves to if and only if quoting leaves that object's name unchanged |
| Snowflake.RevokeFindsTheSameObject | snowflake/snowflake_binding.go:362-386 | What a grant gave on one object is taken back if and only if the target addresses the same object at revoke time |
| Snowflake.UsageMayStay | snowflake/snowflake_binding.go:364-377 | Creating, granting on, dropping and revoking on one table ends with the USAGE held and no grant left |
| Snowflake.MixedCaseIsMissed | snowflake/snowflake_binding.go:550-555 | A table named Orders is found, and the grant addresses ORDERS and fails |
| Snowflake.RevokeMayMissItsObject | snowflake/snowflake_binding.go:459-486 | A grant made through the uppercase form survives its revoke once an object of the exact name exists |
| Snowflake.AccessIsCoverage | snowflake/snowflake_binding.go:398-452 | Access in force, which takes both the object's privilege and the schema's USAGE, is exactly what the grants cover, names compared uppercase: SELECT, INSERT, UPDATE, DELETE, TRUNCATE and REFERENCES on every present table, SELECT on every view, USAGE on every sequence; so is the right to create each of the three |
| Snowflake.AccountedAlways | snowflake/snowflake_binding.go:310-453 | In every run with failures and with tables and views coming and going, also those named by grants, every entry but the schema's USAGE is owed to a live grant that finds its object |
| Snowflake.UsageAlways | snowflake/snowflake_binding.go:342-386 | Over every run the USAGE is held exactly when some step executed a grant's statement and no revoke without a regrant executed one since |
| Snowflake.FullyAccountedExactly | snowflake/snowflake_binding.go:362-386 | At any point of a run everything held is owed to a live grant if and only if the USAGE was not given or some live grant still finds its object |
| Snowflake.RevokeIsExactInEveryRun | snowflake/snowflake_binding.go:293-299 | At any point of such a run, a completed revoke-then-regrant speaking for all live grants is exact if and only if no USAGE was given or some revoke or regrant finds its object |
| Snowflake.CreateKeepsExact | snowflake/snowflake_binding.go:305-307 | ALL and FUTURE agree: creating an object keeps the entries exact with no reapply if and only if the schema-wide grants give what the grants waiting for it by name would |
| Snowflake.DropKeepsExact | snowflake/snowflake_binding.go:305-307 | Dropping an object keeps the entries exact if and only if the USAGE is not left over |
| Snowflake.DoneIsInForce | snowflake/snowflake_binding.go:398-452 | Reported grants are in force when the batch ends; omitted ones are of unknown type or do not resolve |
| Databricks.Binding.ApplyPerms | databricks/databricks_binding.go:409-527 | Whatever fails, the principal's entries are those after a first part of the planned statements; on success the whole plan, and the grants reported are exactly those that ran |
| Databricks.Binding.FindServicePrincipal | databricks/databricks_binding.go:335-348 | Some principal with the display name, or none exists |
| Databricks.Binding.GenerateAccount | databricks/databricks_binding.go:167-289 | Display names stay unique; the artifacts are exactly what was created, in order, at every failure point; with nothing refused it succeeds if and only if the display name and a base's schema are new and a derived account's schema is named; a finished account has a credential of the configured type and may use the warehouse; a derived one holds the connect baseline and nothing else, a base one USE CATALOG and ALL PRIVILEGES and so access to everything in its schema |
| Databricks.Binding.CreateAccountCredential | databricks/databricks_binding.go:296-331 | An OAuth secret or a token as configured; by default the secret, and the token if and only if the secret is refused |
| Databricks.Binding.DeleteArtifact | databricks/databricks_binding.go:355-381 | With unique names, deleting by name removes exactly that principal, its grants and its warehouse entry; a missing one is no error |
| Databricks.Binding.GenerateOrRollBack | databricks/databricks_binding.go:350-381 | The account is made under the same condition and with the same credential, warehouse access and grants; a failed generation rolled back in reverse order leaves the workspace as it was |
| Databricks.RevokeIsExact | databricks/databricks_binding.go:392-527 | Though revoking full on a table withdraws everything on it, revoke-then-regrant leaves exactly the baseline and K if and only if the baseline was held and nothing else unaccounted for was |
| Databricks.AccessIsCoverage | databricks/databricks_binding.go:401-527 | Access in force through inheritance from the schema, the table's own entry or its ALL PRIVILEGES, in a usable namespace, is exactly what the grants cover, names compared lowercase, except on a missing table covered one by one only |
| Databricks.RevokeLeavesCoverage | databricks/databricks_binding.go:392-399 | From entries exact for R + K, revoking R and regranting K makes the access on every present table exactly K's coverage |
| Databricks.AccountedAlways | databricks/databricks_binding.go:409-527 | In every run with failures and table changes, every entry beside the baseline is owed to a live grant on a present table |
| Databricks.RevokeIsExactInEveryRun | databricks/databricks_binding.go:392-399 | At any point of any run, a completed revoke-then-regrant speaking for all live grants leaves the baseline and K, and K's coverage as access |
| Databricks.BaselineNeverLost | databricks/databricks_binding.go:253-265 | In every run, with failures anywhere, USE CATALOG and USE SCHEMA are never lost |
| Databricks.ExplicitPrivilegesKeepBaseline | databricks/databricks_binding.go:67-70 | Spelling full:* as any other set of privileges, the baseline survives every run if and only if the set has neither ALL PRIVILEGES nor USE SCHEMA |
| Databricks.DoneIsInForce | databricks/databricks_binding.go:467-526 | Reported grants are in force when the batch ends; omitted ones are of unknown type or do not resolve |
| Oracle.Binding.ApplySchemaWide | oracle/oracle_binding.go:347-390 | Every object still there holds exactly its kind's privileges in addition to what was held, though objects vanish between listing and granting; a failure has granted no more and taken nothing |
| Oracle.Binding.ApplyObjectPerm | oracle/oracle_binding.go:398-434 | The exact name first, then uppercase; a target lost to a race counts as deferred |
| Oracle.Binding.GrantPerms | oracle/oracle_binding.go:273-340 | Every grant reaches what it must and nothing it may not; every reported grant found its object, whose privileges are then held unless it is gone again, and every omitted one waits for its target; the reported keep the order of the input; unsupported types are errors |
| Oracle.GivesCoverage | oracle/oracle_binding.go:290-340 | A successful batch adds exactly what its grants cover, names compared uppercase, on every table; on views `*` grants only SELECT, on sequences full:* alone does |
| Oracle.SnapshotSemantics | oracle/oracle_binding.go:266-272 | Over every run of batches that fail or succeed, `*` and single-object grants alike, and of objects coming and going: what is held was given by a batch made while the object was there, and it has been there since; what a successful batch must give stays as long as the object does; later objects wait for the next batch |
| Oracle.WideSnapshots | oracle/oracle_binding.go:266-272 | With successful `*` batches, held exactly when a grant carrying the privilege was made while the object was there and it has been there since |
| MongoGrants.ValidateTarget | mongodb/mongodb_binding.go:694-709 | Accepts `*` and names of safe characters that are not system collections, and nothing else |
| MongoGrants.BuildRolePrivileges | mongodb/mongodb_binding.go:716-762 | Fails if and only if some grant is invalid; otherwise one privilege per target in first-occurrence order with exactly the granted actions, each once |
| MongoGrants.AllowsIsCoverage | mongodb/mongodb_binding.go:711-762 | An action is allowed if and only if it is in the binding database, on a non-system collection, and some grant covers it |
| MongoGrants.OnePrivilegePerTarget | mongodb/mongodb_binding.go:711-715 | No two privileges are for the same target |
| MongoGrants.AccessDependsOnTheSet | mongodb/mongodb_binding.go:711-762 | Order and repetition of grants do not matter, more grants never allow less, concatenation allows the union |
| MongoGrants.BuildAtlasRoles | mongodb/mongodb_binding.go:778-802 | Fails if and only if some grant is invalid; otherwise the placeholder and the grants' roles in first-occurrence order, each named read or readWrite in the binding's own database |
| MongoGrants.RolesWellFormed | mongodb/mongodb_binding.go:773-777 | The roles array is never empty, starts with the placeholder and is duplicate-free |
| MongoGrants.AtlasAllowsIsCoverage | mongodb/mongodb_binding.go:778-802 | On a server that tells the built-in roles apart, the roles allow exactly the data operations the grants cover on non-system collections and system.js, and the placeholder's |
| MongoGrants.AtlasSimulatesSelfHosted | mongodb/mongodb_binding.go:716-802 | Both modes allow the same data operations on every non-system collection if and only if the database is not the placeholder's own or the grants already give what the placeholder gives; on every collection if and only if, besides, no grant is on `*` |
| MongoGrants.NamesAreInjective | mongodb/mongodb_binding.go:639-647 | Account names determine binding and environment, carry the environment's prefix, and never collide with the placeholder database |
| Mongo.Binding.GenerateDerivedAccount | mongodb/mongodb_binding.go:272-362 | A new derived user may do nothing until its first grants, on Atlas nothing but find on the placeholder; it has its password, its own role alone and, on Atlas, its cluster scope; with nothing refused it succeeds exactly when the names are free |
| Mongo.Binding.SetUserGrants | mongodb/mongodb_binding.go:482-532 | The replies to its commands alone decide whether it succeeds; one complete replacement or no change at all; dropped roles and Atlas users come back, Atlas users with their cluster scope; nobody else is touched |
| Mongo.Binding.RestoreSelfHostedUser | mongodb/mongodb_binding.go:536-564 | A missing user is recreated with its own role only; an existing one is left alone; it fails exactly without a password or when a command is refused |
| Mongo.Binding.Rebuild | mongodb/mongodb_binding.go:441-464 | The outcome is the one the commands' replies decide; every state in between is the account's with one complete list |
| Mongo.StuckExactly | mongodb/mongodb_binding.go:449-462 | An apply is stuck exactly when the update was accepted, the restore was asked for and failed - no password, the look or the creation refused - and the rollback command was refused |
| Mongo.RollbackMayFail | mongodb/mongodb_binding.go:449-462 | Two refused commands leave a role that allows inserts no recorded grant covers |
| Mongo.Binding.ApplyGrants | mongodb/mongodb_binding.go:441-465 | Success moves the role to applied + desired; failure leaves it unchanged, rolled back to applied, or stuck, as the replies decide; with nothing refused it succeeds exactly for valid lists; every state in between is one complete list |
| Mongo.Binding.RevokeGrants | mongodb/mongodb_binding.go:472-478 | Rebuilds from exactly the regrants or changes nothing, as the replies decide |
| Mongo.Binding.ChangeGrants | mongodb/mongodb_binding.go:429-532 | No transient loss, in both modes: through apply, commit and revoke, wherever a command is refused, the user may at every moment do what both the old and the new grants cover and nothing neither covers; on success the grants are the desired ones |
| Mongo.Binding.Step | mongodb/mongodb_binding.go:441-564 | One call and what its caller records, or one out-of-band drop, is one step of a run |
| Mongo.Binding.Play | mongodb/mongodb_binding.go:441-564 | Any sequence of calls and out-of-band drops of roles and users is a run |
| Mongo.ReconciledAlways | mongodb/mongodb_binding.go:441-564 | Over every run of applies, revokes, refused commands and out-of-band drops, a role that exists denotes exactly the recorded grants and the surplus |
| Mongo.SurplusExactly | mongodb/mongodb_binding.go:449-462 | There is a surplus if and only if the last event with an effect was an apply that was stuck or done but not committed, and then it is what that apply desired |
| Mongo.RecordExactly | mongodb/mongodb_binding.go:449-462 | Over every run the role is exact for the recorded grants if and only if the last such apply desired nothing they do not cover |
| Mongo.LockedOutExactly | mongodb/mongodb_binding.go:436-440 | Over every run a user is without its role if and only if the role was dropped under it and the user has not been dropped since |
| Mongo.ReapplyMayLockOut | mongodb/mongodb_binding.go:436-440 | A role dropped and reapplied with nothing refused is there again, and its user no longer holds it |
| Mongo.ApplyThenRevokeIsRebuild | mongodb/mongodb_binding.go:429-478 | Applying and then revoking the pending grants ends where building from the desired grants would |
| Accounts.ReverseRestores | sqlserver/sqlserver_binding.go:184-189 | In reverse creation order every drop is accepted and the catalogue ends exactly as before |
| Accounts.GenerationUndone | clickhouse/clickhouse_binding.go:239-263 | At whatever point a generation failed, deleting its artifacts in reverse restores the catalogue, and repeating it changes nothing |
| Accounts.CreationOrderRefused | sqlserver/sqlserver_binding.go:184-189 | In creation order a drop is refused for a base account, whose schema would outlive its owner, and none is for a derived one |
| Accounts.GenerateSqlServerAccount | sqlserver/sqlserver_binding.go:95-182 | The artifacts are exactly the objects created, in order, at every failure point; it succeeds if and only if the base's container is named, the names are free and no call is refused; then login, user and a base's schema, owned by the user, exist and the base user's create permissions are granted |
| Accounts.GenerateClickHouseAccount | clickhouse/clickhouse_binding.go:160-213 | The same for role, database and user, with the role's full access to the database and the user's role granted |
| Accounts.GenerateSnowflakeAccount | snowflake/snowflake_binding.go:166-245 | The same for role, schema and user, with USAGE on database and warehouse, the role's privileges on a base's schema and the user's role granted |
| Accounts.GenerateMongoAccount | mongodb/mongodb_binding.go:272-308 | The same for the custom role of a derived account and the user |
| Accounts.GenerateAtlasAccount | mongodb/mongodb_binding.go:332-362 | The same for one user; a configured wait that does not end well is a failure that still names the user |
| Accounts.GenerateOracleAccount | oracle/oracle_binding.go:141-189 | The same for one user, a base one with its quota and its session and create privileges, a derived one with its session and the logon trigger to the base's schema |
| Accounts.RollBack | sqlserver/sqlserver_binding.go:184-221 | A rollback stopped anywhere can be called again with the same artifacts and ends at the prior catalogue |

## Left out

- Oracle.Binding.GrantPerms: models the grant side only; what a REVOKE of several privileges does when only some are held is decided inside the database.
- Oracle.SnapshotSemantics: within one batch objects are only dropped, not created; a name dropped and recreated between listing and granting is not modelled.
- Snowflake.AccountedAlways: while a live grant's target is not `Steady`, that is, neither plain nor uppercase, or the exact mixed-case name of an object, no object it could name is created or dropped; what happens otherwise is what ReachesItsTarget and RevokeFindsTheSameObject state.
- Snowflake.AccessIsCoverage: speaks of `Steady` targets, and Oracle.GivesCoverage of targets that are uppercase or no object's exact name; names are compared uppercase.
- Mongo.ReconciledAlways: the runs are those of a self-hosted account; for Atlas, whose update is one atomic command, SetUserGrants and ChangeGrants state what a call leaves.
- Snowflake.Server.ResolveTableOrView: a SHOW command is taken to return the objects of that name; case folding, here and for Databricks and Oracle, is over ASCII letters.
- MongoGrants.AtlasAllowsIsCoverage: speaks of find, insert, update and remove; the other actions of the built-in roles are not compared.
- Accounts.GenerateSqlServerAccount: a statement either creates its object or fails; objects the account itself created before a rollback are the business of the schema teardown and of the databases' own CASCADE forms.
- SDK helpers are modelled by their visible contract: RevokeThenRegrant as the revoke batch then the grant batch, ApplyGrantsRebuild as a callback with the union of applied and desired. ApplyGrantsIncrementalSafe, including how it undoes a failed batch, is not part of this model.
- Accounts.GenerateMongoAccount: names the objects made; the built-in roles of a base user are not modelled, and what a derived user starts with is stated by Mongo.Binding.GenerateDerivedAccount.
- Drivers, HTTP, the Atlas REST client, SCIM and SQL connections are replaced by calls that succeed or fail as a whole.
- Service initialisation, health checks, RunCommand, BSON and JSON conversion, the timed Atlas poll, account URLs, the content of credentials, key parsing and authentication inference.
- Randomness quality, hashing, and name generation of providers that fold case.
