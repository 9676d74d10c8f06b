/** Databricks: inherited privileges, the connect baseline, and principals found by display name. */
module Databricks {
  import opened Grants
  import opened EntryAlgebra
  import opened Names

  datatype Priv = SELECT | MODIFY | CREATE_TABLE | USE_CATALOG | USE_SCHEMA | ALL_PRIVILEGES

  // full:* on the schema, deliberately not ALL PRIVILEGES.
  const FULL_SCHEMA_PRIVILEGES: set<Priv> := {SELECT, MODIFY, CREATE_TABLE}

  // ---- the catalogue's entries for one principal ----

  datatype Securable = Catalog | Schema(schema: string) | Table(schema: string, table: string)

  datatype Entry = Entry(on: Securable, p: Priv)

  datatype Stmt = Stmt(privs: set<Priv>, on: Securable)

  function GrantEffect(s: Stmt): set<Entry> {
    set p | p in s.privs :: Entry(s.on, p)
  }

  // Revoking ALL PRIVILEGES takes back every privilege held on the securable.
  function RevokeEffect(s: Stmt): set<Entry> {
    if ALL_PRIVILEGES in s.privs then
      set p | p in {SELECT, MODIFY, CREATE_TABLE, USE_CATALOG, USE_SCHEMA, ALL_PRIVILEGES} :: Entry(s.on, p)
    else GrantEffect(s)
  }

  function EffectOf(isGrant: bool): Stmt -> set<Entry> {
    if isGrant then GrantEffect else RevokeEffect
  }

  datatype Principal = Principal(id: nat, displayName: string)

  // What a principal authenticates with, and the service's choice of it.
  datatype Credential = OAuthSecret | Token

  datatype CredentialType = Auto | OAuthOnly | TokenOnly

  class Workspace {
    const fails: nat -> bool
    var clock: nat
    var nextId: nat
    var principals: set<Principal>
    var credentials: map<nat, Credential>
    var warehouseUsers: set<nat>
    var schemas: set<string>
    var tables: map<string, set<string>>
    var entries: map<nat, set<Entry>>

    constructor (fails: nat -> bool)
      ensures this.fails == fails && Valid() && principals == {}
    {
      this.fails := fails;
      clock, nextId, principals, credentials, warehouseUsers := 0, 0, {}, map[], {};
      schemas, tables, entries := {}, map[], map[];
    }

    // Ids are never reused.
    ghost predicate Valid()
      reads this
    {
      && (forall sp :: sp in principals ==> sp.id < nextId)
      && (forall sp, sp' :: sp in principals && sp' in principals && sp.id == sp'.id ==> sp == sp')
      && (forall id :: id in entries ==> id < nextId)
      && (forall id :: id in credentials ==> id < nextId)
      && (forall id :: id in warehouseUsers ==> id < nextId)
    }

    function EntriesOf(id: nat): set<Entry>
      reads this
    {
      if id in entries then entries[id] else {}
    }

    function TablesOf(schema: string): set<string>
      reads this
    {
      if schema in tables then tables[schema] else {}
    }

    method Call() returns (ok: bool)
      modifies this`clock
      ensures clock == old(clock) + 1
      ensures ok <==> !fails(old(clock))
    {
      ok := !fails(clock);
      clock := clock + 1;
    }

    // Creating a principal does not look at display names.
    method CreatePrincipal(displayName: string) returns (r: Option<Principal>)
      requires Valid()
      modifies this`clock, this`nextId, this`principals
      ensures Valid()
      ensures r.None? ==> principals == old(principals) && nextId == old(nextId)
      ensures r.Some? ==> r.value == Principal(old(nextId), displayName) && nextId == old(nextId) + 1
                          && principals == old(principals) + {r.value}
      ensures (forall n :: !fails(n)) ==> r.Some?
    {
      var ok := Call();
      if !ok { return None; }
      r := Some(Principal(nextId, displayName));
      principals := principals + {r.value};
      nextId := nextId + 1;
    }

    method Issue(id: nat, credential: Credential) returns (ok: bool)
      modifies this`clock, this`credentials
      ensures clock == old(clock) + 1
      ensures ok <==> !fails(old(clock))
      ensures credentials == if ok then old(credentials)[id := credential] else old(credentials)
    {
      ok := Call();
      if ok {
        credentials := credentials[id := credential];
      }
    }

    // Deleting a principal removes its credential, its grants and its warehouse entry.
    method DeletePrincipal(id: nat) returns (ok: bool)
      requires Valid()
      modifies this`clock, this`principals, this`credentials, this`entries, this`warehouseUsers
      ensures Valid()
      ensures !ok ==> principals == old(principals) && credentials == old(credentials)
                      && entries == old(entries) && warehouseUsers == old(warehouseUsers)
      ensures ok ==> principals == (set sp | sp in old(principals) && sp.id != id)
                     && credentials == old(credentials) - {id}
                     && entries == old(entries) - {id} && warehouseUsers == old(warehouseUsers) - {id}
      ensures (forall n :: !fails(n)) ==> ok
    {
      ok := Call();
      if ok {
        principals := set sp | sp in principals && sp.id != id;
        credentials := credentials - {id};
        entries := entries - {id};
        warehouseUsers := warehouseUsers - {id};
      }
    }

    method Exec(isGrant: bool, s: Stmt, id: nat) returns (ok: bool)
      modifies this`clock, this`entries
      ensures entries.Keys <= old(entries).Keys + {id}
      ensures ok <==> !fails(old(clock))
      ensures EntriesOf(id) == if ok then EntryAlgebra.Exec(isGrant, old(EntriesOf(id)), EffectOf(isGrant)(s))
                               else old(EntriesOf(id))
      ensures entries - {id} == old(entries) - {id}
      ensures forall k :: k != id ==> EntriesOf(k) == old(EntriesOf(k))
    {
      ok := Call();
      if ok {
        assert forall k :: k != id ==> (k in entries - {id} <==> k in entries);
        entries := entries[id := EntryAlgebra.Exec(isGrant, EntriesOf(id), EffectOf(isGrant)(s))];
      }
    }

    method CreateSchema(schema: string) returns (ok: bool)
      modifies this`clock, this`schemas
      ensures ok ==> schema !in old(schemas)
      ensures schemas == if ok then old(schemas) + {schema} else old(schemas)
      ensures (forall n :: !fails(n)) ==> (ok <==> schema !in old(schemas))
    {
      ok := Call();
      ok := ok && schema !in schemas;
      if ok {
        schemas := schemas + {schema};
      }
    }

    // The permissions update is additive.
    method AllowWarehouse(id: nat) returns (ok: bool)
      modifies this`clock, this`warehouseUsers
      ensures warehouseUsers == if ok then old(warehouseUsers) + {id} else old(warehouseUsers)
      ensures (forall n :: !fails(n)) ==> ok
    {
      ok := Call();
      if ok {
        warehouseUsers := warehouseUsers + {id};
      }
    }

    // Stored table names are lowercase.
    method ResolveTable(schema: string, target: string) returns (r: Result<Option<string>>)
      modifies this`clock
      ensures r == if fails(old(clock)) then Err
                   else Ok(if Lower(target) in TablesOf(schema) then Some(Lower(target)) else None)
    {
      var ok := Call();
      r := if !ok then Err else Ok(if Lower(target) in TablesOf(schema) then Some(Lower(target)) else None);
    }
  }

  // ---- the batch as a list of statements ----

  predicate Runs(tables: set<string>, g: Grant) {
    !g.kind.Other? && (Deferrable(g) ==> Lower(g.target) in tables)
  }

  // `full` is what full:* is spelled out as on the schema.
  function StmtOf(full: set<Priv>, schema: string, g: Grant): Stmt {
    if Deferrable(g) then Stmt(if g.kind.Read? then {SELECT} else {ALL_PRIVILEGES}, Table(schema, Lower(g.target)))
    else
      match g.kind
      case Read => Stmt({SELECT}, Schema(schema))
      case Create => Stmt({CREATE_TABLE}, Schema(schema))
      case _ => Stmt(full, Schema(schema))
  }

  function PlannerWith(full: set<Priv>, schema: string, tables: set<string>): Grant -> seq<Stmt> {
    g => if Runs(tables, g) then [StmtOf(full, schema, g)] else []
  }

  function PlanWith(full: set<Priv>, schema: string, tables: set<string>, grants: seq<Grant>): seq<Stmt> {
    PlanAll(PlannerWith(full, schema, tables), grants)
  }

  function Planner(schema: string, tables: set<string>): Grant -> seq<Stmt> {
    PlannerWith(FULL_SCHEMA_PRIVILEGES, schema, tables)
  }

  function Plan(schema: string, tables: set<string>, grants: seq<Grant>): seq<Stmt> {
    PlanWith(FULL_SCHEMA_PRIVILEGES, schema, tables, grants)
  }

  function Runner(tables: set<string>): Grant -> bool {
    g => Runs(tables, g)
  }

  function Done(tables: set<string>, grants: seq<Grant>): seq<Grant> {
    Select(Runner(tables), grants)
  }

  // ---- the provider ----

  datatype Artifact = User(name: string) | SchemaArtifact(name: string)

  class Binding {
    const workspace: Workspace
    const credentialType: CredentialType

    constructor (workspace: Workspace, credentialType: CredentialType)
      ensures this.workspace == workspace && this.credentialType == credentialType
    {
      this.workspace, this.credentialType := workspace, credentialType;
    }

    // One grant of the batch; `n` of its statements were executed.
    method ApplyGrant(isGrant: bool, g: Grant, schema: string, id: nat) returns (r: Result<bool>, ghost n: nat)
      modifies workspace`clock, workspace`entries
      ensures (forall k :: !workspace.fails(k)) ==> r.Ok?
      ensures r.Ok? ==> r.value == Runs(workspace.TablesOf(schema), g)
      ensures var stmts := Planner(schema, workspace.TablesOf(schema))(g);
              && n <= |stmts| && (r.Ok? ==> n == |stmts|)
              && workspace.EntriesOf(id) ==
                 ExecAll(isGrant, EffectOf(isGrant), old(workspace.EntriesOf(id)), stmts[..n])
      ensures forall k :: k != id ==> workspace.EntriesOf(k) == old(workspace.EntriesOf(k))
    {
      n := 0;
      if g.kind.Other? {
        return Ok(false), 0;
      }
      if Deferrable(g) {
        var resolved := workspace.ResolveTable(schema, g.target);
        if resolved.Err? { return Err, 0; }
        if resolved.value.None? { return Ok(false), 0; }
      }
      var ok := workspace.Exec(isGrant, StmtOf(FULL_SCHEMA_PRIVILEGES, schema, g), id);
      if !ok { return Err, 0; }
      ExecAllStep(isGrant, EffectOf(isGrant), old(workspace.EntriesOf(id)),
                  [StmtOf(FULL_SCHEMA_PRIVILEGES, schema, g)], 0);
      return Ok(true), 1;
    }

    // `ran` is the part of the planned statements that was executed.
    method ApplyPerms(operation: string, grants: seq<Grant>, schema: string, id: nat)
      returns (r: Result<seq<Grant>>, ghost ran: seq<Stmt>)
      modifies workspace`clock, workspace`entries
      ensures operation !in {"grant", "revoke"} ==> r == Err && ran == []
      ensures ran <= Plan(schema, workspace.TablesOf(schema), grants)
      ensures workspace.EntriesOf(id) ==
              ExecAll(operation == "grant", EffectOf(operation == "grant"), old(workspace.EntriesOf(id)), ran)
      ensures forall k :: k != id ==> workspace.EntriesOf(k) == old(workspace.EntriesOf(k))
      ensures r.Ok? ==>
              && ran == Plan(schema, workspace.TablesOf(schema), grants)
              && r.value == Done(workspace.TablesOf(schema), grants)
      ensures operation in {"grant", "revoke"} && (forall n :: !workspace.fails(n)) ==>
              (r.Ok? <==> !Rejects(operation == "grant", grants))
    {
      ran := [];
      if operation != "grant" && operation != "revoke" {
        return Err, [];
      }
      var isGrant := operation == "grant";
      ghost var start, effects, tables := workspace.EntriesOf(id), EffectOf(isGrant), workspace.TablesOf(schema);
      ghost var plan, keep := Planner(schema, tables), Runner(tables);
      var done := [];
      ProgressStart(isGrant, effects, start, plan, keep, grants);
      var i := 0;
      while i < |grants|
        invariant 0 <= i <= |grants|
        invariant Progress(isGrant, effects, start, plan, keep, grants, i, done, ran, workspace.EntriesOf(id))
        invariant workspace.TablesOf(schema) == tables
        invariant forall k :: k != id ==> workspace.EntriesOf(k) == old(workspace.EntriesOf(k))
        invariant !Rejects(isGrant, grants[..i])
      {
        var g := grants[i];
        if isGrant && g.CreateOnTable() {
          return Err, ran;
        }
        ghost var held := workspace.EntriesOf(id);
        var applied, n := ApplyGrant(isGrant, g, schema, id);
        assert workspace.TablesOf(schema) == tables;
        assert plan(g) == Planner(schema, tables)(g) && keep(g) == Runs(tables, g);
        if applied.Err? {
          ProgressPart(isGrant, effects, start, plan, keep, grants, i, done, ran, held, n);
          return Err, ran + plan(g)[..n];
        }
        assert plan(g)[..n] == plan(g);
        ProgressStep(isGrant, effects, start, plan, keep, grants, i, done, ran, held);
        RejectsStep(isGrant, grants, i);
        ran := ran + plan(g);
        if applied.value {
          done := done + [g];
        }
        i := i + 1;
      }
      ProgressEnd(isGrant, effects, start, plan, keep, grants, done, ran, workspace.EntriesOf(id));
      assert grants[..i] == grants;
      r := Ok(done);
    }

    // Any principal with the display name; there is at most one when names are unique.
    method FindServicePrincipal(displayName: string) returns (r: Result<Option<Principal>>)
      modifies workspace`clock
      ensures r.Ok? ==> match r.value
                        case Some(sp) => sp in workspace.principals && sp.displayName == displayName
                        case None => forall sp :: sp in workspace.principals ==> sp.displayName != displayName
      ensures (forall n :: !workspace.fails(n)) ==> r.Ok?
    {
      var ok := workspace.Call();
      if !ok { return Err; }
      var matching := set sp | sp in workspace.principals && sp.displayName == displayName;
      if matching == {} {
        assert forall sp :: sp in workspace.principals && sp.displayName == displayName ==> sp in matching;
        return Ok(None);
      }
      var sp :| sp in matching;
      r := Ok(Some(sp));
    }

    // The artifacts are exactly what was created, in order. `schema` is the new schema of a base
    // binding or the base's of a derived one.
    method GenerateAccount(spName: string, schema: string, derived: bool)
      returns (account: Option<Principal>, artifacts: seq<Artifact>)
      requires workspace.Valid()
      modifies workspace
      ensures workspace.Valid() && workspace.tables == old(workspace.tables)
      ensures UniqueNames(old(workspace.principals)) ==> UniqueNames(workspace.principals)
      ensures artifacts in {[], [User(spName)], [User(spName), SchemaArtifact(schema)]}
      ensures artifacts == [] ==>
              && account.None?
              && workspace.principals == old(workspace.principals) && workspace.entries == old(workspace.entries)
              && workspace.credentials == old(workspace.credentials)
              && workspace.warehouseUsers == old(workspace.warehouseUsers)
      ensures artifacts != [] ==>
                var sp := Principal(old(workspace.nextId), spName);
                && (forall p :: p in old(workspace.principals) ==> p.displayName != spName)
                && workspace.principals == old(workspace.principals) + {sp}
                && workspace.entries - {sp.id} == old(workspace.entries)
                && workspace.credentials - {sp.id} == old(workspace.credentials)
                && workspace.warehouseUsers - {sp.id} == old(workspace.warehouseUsers)
                && (account.Some? ==> account.value == sp)
      ensures SchemaArtifact(schema) !in artifacts ==> workspace.schemas == old(workspace.schemas)
      ensures SchemaArtifact(schema) in artifacts ==>
              schema !in old(workspace.schemas) && workspace.schemas == old(workspace.schemas) + {schema}
      // A finished account can authenticate and use the warehouse; a derived one has
      // the connect baseline and nothing else, a base one the whole schema.
      ensures account.Some? ==>
                && account.value.id in workspace.credentials && account.value.id in workspace.warehouseUsers
                && Admits(credentialType, workspace.credentials[account.value.id])
      ensures account.Some? && derived ==>
                && workspace.EntriesOf(account.value.id) ==
                   {Entry(Catalog, USE_CATALOG), Entry(Schema(schema), USE_SCHEMA)}
                && HoldsBaseline(workspace.EntriesOf(account.value.id), schema)
      ensures account.Some? && !derived ==>
                && workspace.EntriesOf(account.value.id) ==
                   {Entry(Catalog, USE_CATALOG), Entry(Schema(schema), ALL_PRIVILEGES)}
                && forall p, t :: p in DATA_PRIVILEGES ==> Access(workspace.EntriesOf(account.value.id), schema, p, t)
      ensures account.Some? && (forall n :: !workspace.fails(n)) ==>
                workspace.credentials[account.value.id] == if credentialType.TokenOnly? then Token else OAuthSecret
      ensures (forall n :: !workspace.fails(n)) ==>
                (account.Some? <==>
                 && (forall sp :: sp in old(workspace.principals) ==> sp.displayName != spName)
                 && if derived then schema != "" else schema !in old(workspace.schemas))
    {
      artifacts := [];
      if derived && schema == "" { return None, []; }
      var existing := FindServicePrincipal(spName);
      if existing != Ok(None) { return None, []; }
      var created := workspace.CreatePrincipal(spName);
      if created.None? { return None, []; }
      var sp := created.value;
      artifacts := [User(spName)];
      assert workspace.warehouseUsers - {sp.id} == old(workspace.warehouseUsers);
      assert workspace.credentials - {sp.id} == old(workspace.credentials);
      assert workspace.entries - {sp.id} == old(workspace.entries);
      var ok, schemaMade := Equip(sp.id, schema, derived);
      if schemaMade {
        artifacts := artifacts + [SchemaArtifact(schema)];
        assert artifacts == [User(spName), SchemaArtifact(schema)];
      }
      account := if ok then Some(sp) else None;
    }

    // An OAuth secret, a token, or a token where no secret is to be had.
    method CreateAccountCredential(id: nat) returns (r: Option<Credential>)
      modifies workspace`clock, workspace`credentials
      ensures workspace.credentials ==
              if r.Some? then old(workspace.credentials)[id := r.value] else old(workspace.credentials)
      ensures var first, second := !workspace.fails(old(workspace.clock)), !workspace.fails(old(workspace.clock) + 1);
              r == match credentialType
                   case OAuthOnly => if first then Some(OAuthSecret) else None
                   case TokenOnly => if first then Some(Token) else None
                   case Auto => if first then Some(OAuthSecret) else if second then Some(Token) else None
    {
      if !credentialType.TokenOnly? {
        var issued := workspace.Issue(id, OAuthSecret);
        if issued { return Some(OAuthSecret); }
        if credentialType.OAuthOnly? { return None; }
      }
      var issued := workspace.Issue(id, Token);
      r := if issued then Some(Token) else None;
    }

    // Credential, warehouse access, the base binding's schema, and the first grants.
    method Equip(id: nat, schema: string, derived: bool) returns (ok: bool, schemaMade: bool)
      requires workspace.Valid() && id < workspace.nextId && id !in workspace.entries
      modifies workspace`clock, workspace`credentials, workspace`warehouseUsers, workspace`schemas, workspace`entries
      ensures workspace.Valid()
      ensures workspace.entries - {id} == old(workspace.entries) - {id}
      ensures workspace.credentials - {id} == old(workspace.credentials) - {id}
      ensures workspace.warehouseUsers - {id} == old(workspace.warehouseUsers) - {id}
      ensures schemaMade ==>
              !derived && schema !in old(workspace.schemas) && workspace.schemas == old(workspace.schemas) + {schema}
      ensures !schemaMade ==> workspace.schemas == old(workspace.schemas)
      ensures ok ==> id in workspace.credentials && Admits(credentialType, workspace.credentials[id])
      ensures ok && (forall n :: !workspace.fails(n)) ==>
                workspace.credentials[id] == if credentialType.TokenOnly? then Token else OAuthSecret
      ensures ok ==> id in workspace.warehouseUsers
      ensures ok && !derived ==> schemaMade
      ensures (forall n :: !workspace.fails(n)) ==> (ok <==> derived || schema !in old(workspace.schemas))
      ensures ok ==> workspace.EntriesOf(id) ==
                     {Entry(Catalog, USE_CATALOG),
                      Entry(Schema(schema), if derived then USE_SCHEMA else ALL_PRIVILEGES)}
    {
      schemaMade := false;
      var credential := CreateAccountCredential(id);
      if credential.None? { return false, false; }
      ok := workspace.AllowWarehouse(id);
      if !ok { return; }
      if !derived {
        ok := workspace.CreateSchema(schema);
        if !ok { return; }
        schemaMade := true;
      }
      ok := FirstGrants(id, schema, derived);
    }

    // The namespace, and the whole schema for a base account.
    method FirstGrants(id: nat, schema: string, derived: bool) returns (ok: bool)
      requires workspace.Valid() && id < workspace.nextId && id !in workspace.entries
      modifies workspace`clock, workspace`entries
      ensures workspace.Valid()
      ensures workspace.entries - {id} == old(workspace.entries) - {id}
      ensures (forall n :: !workspace.fails(n)) ==> ok
      ensures ok ==> workspace.EntriesOf(id) ==
                     {Entry(Catalog, USE_CATALOG),
                      Entry(Schema(schema), if derived then USE_SCHEMA else ALL_PRIVILEGES)}
    {
      ok := workspace.Exec(true, Stmt({USE_CATALOG}, Catalog), id);
      if !ok { return; }
      ok := workspace.Exec(true, Stmt({if derived then USE_SCHEMA else ALL_PRIVILEGES}, Schema(schema)), id);
    }

    // Deletes what the artifact names; a missing one is already gone.
    method DeleteArtifact(artifact: Artifact) returns (ok: bool)
      requires workspace.Valid()
      modifies workspace
      ensures workspace.Valid() && workspace.nextId == old(workspace.nextId)
      ensures (forall n :: !workspace.fails(n)) ==> ok
      ensures artifact.User? ==>
              workspace.schemas == old(workspace.schemas) && workspace.tables == old(workspace.tables)
      ensures artifact.User? && ok && UniqueNames(old(workspace.principals)) ==>
                workspace.principals == set sp | sp in old(workspace.principals) && sp.displayName != artifact.name
      ensures artifact.User? && ok ==>
                || (workspace.entries == old(workspace.entries) && workspace.credentials == old(workspace.credentials)
                    && workspace.warehouseUsers == old(workspace.warehouseUsers)
                    && forall sp :: sp in old(workspace.principals) ==> sp.displayName != artifact.name)
                || exists sp :: sp in old(workspace.principals) && sp.displayName == artifact.name
                     && workspace.entries == old(workspace.entries) - {sp.id}
                     && workspace.credentials == old(workspace.credentials) - {sp.id}
                     && workspace.warehouseUsers == old(workspace.warehouseUsers) - {sp.id}
      ensures artifact.SchemaArtifact? ==> workspace.principals == old(workspace.principals)
                                           && workspace.credentials == old(workspace.credentials)
                                           && workspace.warehouseUsers == old(workspace.warehouseUsers)
      ensures artifact.SchemaArtifact? && ok ==>
                && workspace.schemas == old(workspace.schemas) - {artifact.name}
                && workspace.tables == old(workspace.tables) - {artifact.name}
                && workspace.entries == OffSchema(old(workspace.entries), artifact.name)
      ensures !ok ==> workspace.principals == old(workspace.principals) && workspace.schemas == old(workspace.schemas)
                      && workspace.entries == old(workspace.entries)
    {
      match artifact {
        case User(name) =>
          var found := FindServicePrincipal(name);
          if found.Err? { return false; }
          if found.value.None? { return true; }
          var sp := found.value.value;
          ok := workspace.DeletePrincipal(sp.id);
        case SchemaArtifact(name) =>
          ok := workspace.Call();
          if ok {
            // DROP SCHEMA IF EXISTS ... CASCADE takes its tables and the grants on them along.
            workspace.schemas := workspace.schemas - {name};
            workspace.tables := workspace.tables - {name};
            workspace.entries := OffSchema(workspace.entries, name);
          }
      }
    }

    // A failed generation, and the artifacts deleted in reverse order: if the
    // deletions go through, the workspace is as it was.
    method GenerateOrRollBack(spName: string, schema: string, derived: bool)
      returns (account: Option<Principal>, rolledBack: bool)
      requires workspace.Valid() && UniqueNames(workspace.principals)
               && Consistent(workspace.schemas, workspace.tables, workspace.entries)
      modifies workspace
      ensures account.None? && rolledBack ==>
                && workspace.principals == old(workspace.principals) && workspace.schemas == old(workspace.schemas)
                && workspace.tables == old(workspace.tables) && workspace.entries == old(workspace.entries)
                && workspace.credentials == old(workspace.credentials)
                && workspace.warehouseUsers == old(workspace.warehouseUsers)
      ensures (forall n :: !workspace.fails(n)) ==> rolledBack
      ensures (forall n :: !workspace.fails(n)) ==>
                (account.Some? <==>
                 && (forall sp :: sp in old(workspace.principals) ==> sp.displayName != spName)
                 && if derived then schema != "" else schema !in old(workspace.schemas))
      ensures account.Some? ==>
                && account.value.displayName == spName
                && workspace.principals == old(workspace.principals) + {account.value}
                && account.value.id in workspace.credentials && account.value.id in workspace.warehouseUsers
                && workspace.EntriesOf(account.value.id) ==
                   {Entry(Catalog, USE_CATALOG), Entry(Schema(schema), if derived then USE_SCHEMA else ALL_PRIVILEGES)}
    {
      var artifacts;
      account, artifacts := GenerateAccount(spName, schema, derived);
      rolledBack := true;
      if account.None? && artifacts != [] {
        ghost var id, entries := old(workspace.nextId), workspace.entries;
        assert old(workspace.entries) - {id} == old(workspace.entries);
        assert old(workspace.warehouseUsers) - {id} == old(workspace.warehouseUsers);
        assert old(workspace.credentials) - {id} == old(workspace.credentials);
        if |artifacts| == 2 {
          rolledBack := DeleteArtifact(artifacts[1]);
          if !rolledBack { return; }
          OffNewSchema(old(workspace.schemas), old(workspace.tables), old(workspace.entries), entries, id, schema);
        }
        assert workspace.tables == old(workspace.tables);
        assert workspace.entries - {id} == old(workspace.entries);
        ghost var principals := workspace.principals;
        rolledBack := DeleteArtifact(artifacts[0]);
        assert rolledBack ==> workspace.principals == old(workspace.principals);
      }
    }
  }

  // The kinds of credential each service configuration may issue.
  predicate Admits(t: CredentialType, c: Credential) {
    match t
    case Auto => true
    case OAuthOnly => c.OAuthSecret?
    case TokenOnly => c.Token?
  }

  // The grants left when a schema is dropped.
  function OffSchema(entries: map<nat, set<Entry>>, schema: string): map<nat, set<Entry>> {
    map id | id in entries :: set e | e in entries[id] && (e.on.Catalog? || e.on.schema != schema)
  }

  // Tables and grants are in schemas that exist.
  ghost predicate Consistent(schemas: set<string>, tables: map<string, set<string>>, entries: map<nat, set<Entry>>) {
    && tables.Keys <= schemas
    && (forall id, e :: id in entries && e in entries[id] && !e.on.Catalog? ==> e.on.schema in schemas)
  }

  lemma OffNewSchema(schemas: set<string>, tables: map<string, set<string>>, before: map<nat, set<Entry>>,
                     after: map<nat, set<Entry>>, id: nat, schema: string)
    requires Consistent(schemas, tables, before) && schema !in schemas && after - {id} == before
    ensures OffSchema(after, schema) - {id} == before
    ensures tables - {schema} == tables
  {
    assert forall k :: k in before ==> k in after && k != id && after[k] == (after - {id})[k];
    assert forall k :: k in after && k != id ==> k in after - {id};
    assert forall k :: k in before ==> OffSchema(after, schema)[k] == before[k];
  }

  ghost predicate UniqueNames(principals: set<Principal>) {
    forall sp, sp' :: sp in principals && sp' in principals && sp.displayName == sp'.displayName ==> sp == sp'
  }

  predicate HoldsBaseline(entries: set<Entry>, schema: string) {
    Entry(Catalog, USE_CATALOG) in entries && Entry(Schema(schema), USE_SCHEMA) in entries
  }

  // ---- what the entries allow ----

  const DATA_PRIVILEGES: set<Priv> := {SELECT, MODIFY, CREATE_TABLE}

  // What each grant is documented to give.
  function Gives(kind: GrantType, all: bool): set<Priv> {
    match kind
    case Read => {SELECT}
    case Create => {CREATE_TABLE}
    case Full => {SELECT, MODIFY} + if all then {CREATE_TABLE} else {}
    case Other(_) => {}
  }

  // ALL PRIVILEGES on a securable stands for each of its privileges.
  predicate Has(entries: set<Entry>, on: Securable, p: Priv) {
    Entry(on, p) in entries || Entry(on, ALL_PRIVILEGES) in entries
  }

  // Access in force on a table: the namespace must be usable, and the privilege
  // is held on the table or inherited from the schema. Tables are created in the
  // schema.
  predicate Access(entries: set<Entry>, schema: string, p: Priv, t: string) {
    && Has(entries, Catalog, USE_CATALOG) && Has(entries, Schema(schema), USE_SCHEMA)
    && (Has(entries, Schema(schema), p) || (p in {SELECT, MODIFY} && Has(entries, Table(schema, t), p)))
  }

  // The catalogue stores table names lowercase.
  function Lowered(grants: seq<Grant>): seq<Grant> {
    Renamed(Lower, grants)
  }

  // ---- what the statements do ----

  // The entry a grant is owed, and the entries its revocation withdraws.
  predicate Owes(schema: string, g: Grant, e: Entry) {
    if Deferrable(g) then e == Entry(Table(schema, Lower(g.target)), if g.kind.Read? then SELECT else ALL_PRIVILEGES)
    else e.on == Schema(schema) && e.p in Gives(g.kind, true)
  }

  predicate Withdraws(schema: string, g: Grant, e: Entry) {
    Owes(schema, g, e) || (g.kind.Full? && Deferrable(g) && e.on == Table(schema, Lower(g.target)))
  }

  ghost predicate Owed(schema: string, tables: set<string>, grants: seq<Grant>, e: Entry) {
    exists g :: g in grants && Runs(tables, g) && Owes(schema, g, e)
  }

  ghost predicate Withdrawn(schema: string, tables: set<string>, grants: seq<Grant>, e: Entry) {
    exists g :: g in grants && Runs(tables, g) && Withdraws(schema, g, e)
  }

  lemma StmtsMean(isGrant: bool, schema: string, tables: set<string>, g: Grant, e: Entry)
    ensures Mentions(EffectOf(isGrant), Planner(schema, tables)(g), e) <==>
            Runs(tables, g) && if isGrant then Owes(schema, g, e) else Withdraws(schema, g, e)
  {
    if Runs(tables, g) {
      MentionsOne(EffectOf(isGrant), StmtOf(FULL_SCHEMA_PRIVILEGES, schema, g), e);
      match e.p {
        case SELECT => case MODIFY => case CREATE_TABLE =>
        case USE_CATALOG => case USE_SCHEMA => case ALL_PRIVILEGES =>
      }
    }
  }

  lemma PlanMeans(isGrant: bool, schema: string, tables: set<string>, grants: seq<Grant>, e: Entry)
    ensures Mentions(EffectOf(isGrant), Plan(schema, tables, grants), e) <==>
            if isGrant then Owed(schema, tables, grants, e) else Withdrawn(schema, tables, grants, e)
  {
    var plan, effects := Planner(schema, tables), EffectOf(isGrant);
    if Mentions(effects, Plan(schema, tables, grants), e) {
      var s :| s in Plan(schema, tables, grants) && e in effects(s);
      PlanAllIn(plan, grants, s);
      var g :| g in grants && s in plan(g);
      StmtsMean(isGrant, schema, tables, g, e);
    }
    forall g | g in grants && Mentions(effects, plan(g), e)
      ensures Mentions(effects, Plan(schema, tables, grants), e)
    {
      var s :| s in plan(g) && e in effects(s);
      PlanAllIn(plan, grants, s);
    }
    forall g | g in grants
      ensures Mentions(effects, plan(g), e) <==>
              Runs(tables, g) && if isGrant then Owes(schema, g, e) else Withdraws(schema, g, e)
    {
      StmtsMean(isGrant, schema, tables, g, e);
    }
  }

  predicate Baseline(schema: string, e: Entry) {
    e in {Entry(Catalog, USE_CATALOG), Entry(Schema(schema), USE_SCHEMA)}
  }

  // The entries are the connect baseline and what the grants are owed.
  ghost predicate Exact(entries: set<Entry>, schema: string, tables: set<string>, grants: seq<Grant>) {
    forall e :: e in entries <==> Baseline(schema, e) || Owed(schema, tables, grants, e)
  }

  function Revoked(held: set<Entry>, schema: string, tables: set<string>, revokes: seq<Grant>,
                   regrants: seq<Grant>): set<Entry>
  {
    var rs, ks := Plan(schema, tables, revokes), Plan(schema, tables, regrants);
    Complete(rs, ks).Leaves(EffectOf(false), EffectOf(true), held, rs, ks)
  }

  lemma RevokedHolds(held: set<Entry>, schema: string, tables: set<string>, revokes: seq<Grant>,
                     regrants: seq<Grant>, e: Entry)
    ensures e in Revoked(held, schema, tables, revokes, regrants)
            <==> Owed(schema, tables, regrants, e) || (e in held && !Withdrawn(schema, tables, revokes, e))
  {
    var rs, ks := Plan(schema, tables, revokes), Plan(schema, tables, regrants);
    LeavesHolds(Complete(rs, ks), EffectOf(false), EffectOf(true), held, rs, ks, e);
    assert rs[..|rs|] == rs && ks[..|ks|] == ks;
    PlanMeans(false, schema, tables, revokes, e);
    PlanMeans(true, schema, tables, regrants, e);
  }

  // Revoking full:t withdraws everything held on t, what other grants on t are
  // owed included; the regrants restore it. The outcome is exactly the baseline
  // and K if and only if the baseline was held and nothing was held that neither
  // the baseline nor K nor the revocation of R accounts for.
  lemma RevokeIsExact(held: set<Entry>, schema: string, tables: set<string>, revokes: seq<Grant>, regrants: seq<Grant>)
    ensures Exact(Revoked(held, schema, tables, revokes, regrants), schema, tables, regrants)
            <==> HoldsBaseline(held, schema) &&
                 forall e :: e in held ==>
                   Baseline(schema, e) || Owed(schema, tables, regrants, e) || Withdrawn(schema, tables, revokes, e)
  {
    forall e
      ensures e in Revoked(held, schema, tables, revokes, regrants)
              <==> Owed(schema, tables, regrants, e) || (e in held && !Withdrawn(schema, tables, revokes, e))
    {
      RevokedHolds(held, schema, tables, revokes, regrants, e);
    }
    assert Baseline(schema, Entry(Catalog, USE_CATALOG)) && Baseline(schema, Entry(Schema(schema), USE_SCHEMA));
    assert forall e, g :: Baseline(schema, e) ==> !Withdraws(schema, g, e) && !Owes(schema, g, e);
  }

  lemma LowerKeepsScope(g: Grant)
    ensures var h := g.(target := Lower(g.target));
            h.All() == g.All() && Deferrable(h) == Deferrable(g) && h.CreateOnTable() == g.CreateOnTable()
  {
    LowerKeepsStar(g.target);
  }

  // From exact entries, the access in force on every table, present or future,
  // is what the grants cover, names compared lowercase, except on a table that
  // does not exist and is covered table by table only.
  lemma AccessIsCoverage(entries: set<Entry>, schema: string, tables: set<string>, grants: seq<Grant>, p: Priv,
                         t: string)
    requires Exact(entries, schema, tables, grants) && !Rejects(true, grants) && p in DATA_PRIVILEGES
    ensures (Access(entries, schema, p, t) <==> Covers(Gives, Lowered(grants), p, t)) <==>
            !(&& t !in tables && Covers(Gives, Lowered(grants), p, t)
              && forall g :: g in grants && CoversOne(Gives, g.(target := Lower(g.target)), p, t) ==> Deferrable(g))
  {
    assert Baseline(schema, Entry(Catalog, USE_CATALOG)) && Baseline(schema, Entry(Schema(schema), USE_SCHEMA));
    forall g | g in grants
      ensures CoversOne(Gives, g.(target := Lower(g.target)), p, t) && (Deferrable(g) ==> t in tables) <==>
              Runs(tables, g) &&
              (Owes(schema, g, Entry(Schema(schema), p))
               || (p in {SELECT, MODIFY} &&
                   exists q :: q in {p, ALL_PRIVILEGES} && Owes(schema, g, Entry(Table(schema, t), q))))
    {
      LowerKeepsScope(g);
      if Deferrable(g) && g.kind.Full? {
        assert Owes(schema, g, Entry(Table(schema, t), ALL_PRIVILEGES)) <==> t == Lower(g.target);
      } else if Deferrable(g) {
        assert Owes(schema, g, Entry(Table(schema, t), p)) <==> t == Lower(g.target) && p == SELECT;
      }
    }
    RenamedCovers(Gives, Lower, grants, p, t);
    assert !Owed(schema, tables, grants, Entry(Schema(schema), ALL_PRIVILEGES));
  }

  // Revoking R and regranting K from entries exact for R + K: on every table there
  // is, the access in force becomes exactly K's coverage, inheritance and the
  // ALL PRIVILEGES of full:t included.
  lemma RevokeLeavesCoverage(held: set<Entry>, schema: string, tables: set<string>, revokes: seq<Grant>,
                             regrants: seq<Grant>, p: Priv, t: string)
    requires Exact(held, schema, tables, revokes + regrants) && !Rejects(true, regrants)
    requires p in DATA_PRIVILEGES && t in tables
    ensures Access(Revoked(held, schema, tables, revokes, regrants), schema, p, t) <==>
            Covers(Gives, Lowered(regrants), p, t)
  {
    assert Baseline(schema, Entry(Catalog, USE_CATALOG)) && Baseline(schema, Entry(Schema(schema), USE_SCHEMA));
    RevokeIsExact(held, schema, tables, revokes, regrants);
    AccessIsCoverage(Revoked(held, schema, tables, revokes, regrants), schema, tables, regrants, p, t);
  }

  // ---- runs ----

  // One derived principal in one schema. `live` is what was granted, or begun to
  // be granted, since it was last successfully revoked.
  datatype World = World(tables: set<string>, entries: set<Entry>, live: set<Grant>)

  // A batch may stop after any number of its statements.
  datatype Step =
    | CreateTable(t: string)
    | DropTable(t: string)
    | GrantBatch(grants: seq<Grant>, ran: nat)
    | RevokeBatch(revokes: seq<Grant>, regrants: seq<Grant>, attempt: Attempt)
  {
    predicate Possible(full: set<Priv>, schema: string, w: World) {
      match this
      case GrantBatch(grants, n) => n <= |PlanWith(full, schema, w.tables, grants)|
      case RevokeBatch(revokes, regrants, a) =>
        a.Within(PlanWith(full, schema, w.tables, revokes), PlanWith(full, schema, w.tables, regrants))
      case _ => true
    }

    // Dropping a table drops the grants on it.
    function Take(full: set<Priv>, schema: string, w: World): World
      requires Possible(full, schema, w)
    {
      match this
      case CreateTable(t) => w.(tables := w.tables + {t})
      case DropTable(t) => w.(tables := w.tables - {t}, entries := set e | e in w.entries && e.on != Table(schema, t))
      case GrantBatch(grants, n) =>
        w.(entries := ExecAll(true, EffectOf(true), w.entries, PlanWith(full, schema, w.tables, grants)[..n]),
           live := w.live + set g | g in grants)
      case RevokeBatch(revokes, regrants, a) =>
        var rs, ks := PlanWith(full, schema, w.tables, revokes), PlanWith(full, schema, w.tables, regrants);
        w.(entries := a.Leaves(EffectOf(false), EffectOf(true), w.entries, rs, ks),
           live := (if a.revoked == |rs| then w.live - set g | g in revokes else w.live) + set g | g in regrants)
    }
  }

  ghost predicate IsRun(full: set<Priv>, schema: string, trace: seq<World>, steps: seq<Step>) {
    && |trace| == |steps| + 1
    && forall i :: 0 <= i < |steps| ==>
         steps[i].Possible(full, schema, trace[i]) && trace[i + 1] == steps[i].Take(full, schema, trace[i])
  }

  // ---- the connect baseline ----

  lemma BaselineUnmentioned(isGrant: bool, full: set<Priv>, schema: string, tables: set<string>, grants: seq<Grant>,
                            n: nat, e: Entry)
    requires n <= |PlanWith(full, schema, tables, grants)| && Baseline(schema, e)
    requires ALL_PRIVILEGES !in full && USE_SCHEMA !in full
    ensures !Mentions(EffectOf(isGrant), PlanWith(full, schema, tables, grants)[..n], e)
  {
    forall s | s in PlanWith(full, schema, tables, grants)
      ensures e !in EffectOf(isGrant)(s)
    {
      PlanAllIn(PlannerWith(full, schema, tables), grants, s);
    }
  }

  lemma BaselineStep(full: set<Priv>, schema: string, w: World, s: Step)
    requires s.Possible(full, schema, w) && HoldsBaseline(w.entries, schema)
    requires ALL_PRIVILEGES !in full && USE_SCHEMA !in full
    ensures HoldsBaseline(s.Take(full, schema, w).entries, schema)
  {
    forall e | Baseline(schema, e)
      ensures e in s.Take(full, schema, w).entries
    {
      match s {
        case GrantBatch(grants, n) =>
          ExecAllHolds(true, EffectOf(true), w.entries, PlanWith(full, schema, w.tables, grants)[..n], e);
        case RevokeBatch(revokes, regrants, a) =>
          BaselineUnmentioned(false, full, schema, w.tables, revokes, a.revoked, e);
          LeavesHolds(a, EffectOf(false), EffectOf(true), w.entries,
                      PlanWith(full, schema, w.tables, revokes), PlanWith(full, schema, w.tables, regrants), e);
        case _ =>
      }
    }
    assert Baseline(schema, Entry(Catalog, USE_CATALOG)) && Baseline(schema, Entry(Schema(schema), USE_SCHEMA));
  }

  lemma {:induction false} BaselineKept(full: set<Priv>, schema: string, trace: seq<World>, steps: seq<Step>, i: nat)
    requires IsRun(full, schema, trace, steps) && HoldsBaseline(trace[0].entries, schema) && i < |trace|
    requires ALL_PRIVILEGES !in full && USE_SCHEMA !in full
    ensures HoldsBaseline(trace[i].entries, schema)
  {
    if i == 0 {
    } else {
      BaselineKept(full, schema, trace, steps, i - 1);
      BaselineStep(full, schema, trace[i - 1], steps[i - 1]);
    }
  }

  // Whatever is granted, revoked, created or dropped, and wherever a batch
  // fails, a principal generated with the connect baseline keeps it.
  lemma BaselineNeverLost(schema: string, trace: seq<World>, steps: seq<Step>, i: nat)
    requires IsRun(FULL_SCHEMA_PRIVILEGES, schema, trace, steps) && i < |trace|
    requires HoldsBaseline(trace[0].entries, schema)
    ensures HoldsBaseline(trace[i].entries, schema)
  {
    BaselineKept(FULL_SCHEMA_PRIVILEGES, schema, trace, steps, i);
  }

  // The spelling of full:* is what keeps it: the baseline survives every run if
  // and only if full:* includes neither ALL PRIVILEGES nor USE SCHEMA.
  lemma ExplicitPrivilegesKeepBaseline(full: set<Priv>, schema: string)
    ensures (forall trace: seq<World>, steps, i: nat ::
               IsRun(full, schema, trace, steps) && i < |trace| && HoldsBaseline(trace[0].entries, schema) ==>
                 HoldsBaseline(trace[i].entries, schema))
            <==> ALL_PRIVILEGES !in full && USE_SCHEMA !in full
  {
    if ALL_PRIVILEGES !in full && USE_SCHEMA !in full {
      forall trace: seq<World>, steps, i: nat
        | IsRun(full, schema, trace, steps) && i < |trace| && HoldsBaseline(trace[0].entries, schema)
        ensures HoldsBaseline(trace[i].entries, schema)
      {
        BaselineKept(full, schema, trace, steps, i);
      }
    } else {
      var trace, steps := OneRevoke(full, schema);
      assert IsRun(full, schema, trace, steps) && !HoldsBaseline(trace[1].entries, schema);
    }
  }

  // One revoke of full:* is enough to lose it.
  lemma OneRevoke(full: set<Priv>, schema: string) returns (trace: seq<World>, steps: seq<Step>)
    requires ALL_PRIVILEGES in full || USE_SCHEMA in full
    ensures IsRun(full, schema, trace, steps) && |trace| == 2
    ensures HoldsBaseline(trace[0].entries, schema) && !HoldsBaseline(trace[1].entries, schema)
  {
    var w := World({}, {Entry(Catalog, USE_CATALOG), Entry(Schema(schema), USE_SCHEMA)}, {});
    var revokes := [Grant(Full, "*")];
    var rs, e := PlanWith(full, schema, {}, revokes), Entry(Schema(schema), USE_SCHEMA);
    PlanAllIn(PlannerWith(full, schema, {}), revokes, Stmt(full, Schema(schema)));
    assert revokes[0] in revokes;
    var s := RevokeBatch(revokes, [], Attempt(|rs|, 0));
    LeavesHolds(s.attempt, EffectOf(false), EffectOf(true), w.entries, rs, [], e);
    assert rs[..|rs|] == rs && e in EffectOf(false)(Stmt(full, Schema(schema)));
    trace, steps := [w, s.Take(full, schema, w)], [s];
  }

  // ---- every entry is accounted for ----

  // Beside the baseline, every entry held is owed to a live grant on a present table.
  ghost predicate Accounted(schema: string, w: World) {
    forall e :: e in w.entries && !Baseline(schema, e) ==>
      exists g :: g in w.live && Runs(w.tables, g) && Owes(schema, g, e)
  }

  lemma {:induction false} AccountedAlways(schema: string, trace: seq<World>, steps: seq<Step>, i: nat)
    requires IsRun(FULL_SCHEMA_PRIVILEGES, schema, trace, steps) && Accounted(schema, trace[0]) && i < |trace|
    ensures Accounted(schema, trace[i])
  {
    if i == 0 {
    } else {
      AccountedAlways(schema, trace, steps, i - 1);
      AccountedStep(schema, trace[i - 1], steps[i - 1]);
    }
  }

  lemma AccountedStep(schema: string, w: World, s: Step)
    requires Accounted(schema, w) && s.Possible(FULL_SCHEMA_PRIVILEGES, schema, w)
    ensures Accounted(schema, s.Take(FULL_SCHEMA_PRIVILEGES, schema, w))
  {
    var w' := s.Take(FULL_SCHEMA_PRIVILEGES, schema, w);
    forall e | e in w'.entries && !Baseline(schema, e)
      ensures exists g :: g in w'.live && Runs(w'.tables, g) && Owes(schema, g, e)
    {
      match s {
        case GrantBatch(grants, n) =>
          var ks := Plan(schema, w.tables, grants);
          ExecAllHolds(true, EffectOf(true), w.entries, ks[..n], e);
          PlanMeans(true, schema, w.tables, grants, e);
          assert Mentions(EffectOf(true), ks[..n], e) || e in w.entries;
        case RevokeBatch(revokes, regrants, a) =>
          AccountedRevoke(schema, w, revokes, regrants, a, e);
        case _ =>
          var g :| g in w.live && Runs(w.tables, g) && Owes(schema, g, e);
      }
    }
  }

  lemma AccountedRevoke(schema: string, w: World, revokes: seq<Grant>, regrants: seq<Grant>, a: Attempt, e: Entry)
    requires Accounted(schema, w) && !Baseline(schema, e)
    requires RevokeBatch(revokes, regrants, a).Possible(FULL_SCHEMA_PRIVILEGES, schema, w)
    requires e in RevokeBatch(revokes, regrants, a).Take(FULL_SCHEMA_PRIVILEGES, schema, w).entries
    ensures exists g :: g in RevokeBatch(revokes, regrants, a).Take(FULL_SCHEMA_PRIVILEGES, schema, w).live
                        && Runs(w.tables, g) && Owes(schema, g, e)
  {
    var rs, ks := Plan(schema, w.tables, revokes), Plan(schema, w.tables, regrants);
    LeavesHolds(a, EffectOf(false), EffectOf(true), w.entries, rs, ks, e);
    PlanMeans(false, schema, w.tables, revokes, e);
    PlanMeans(true, schema, w.tables, regrants, e);
    if !Mentions(EffectOf(true), ks[..a.granted], e) {
      var g :| g in w.live && Runs(w.tables, g) && Owes(schema, g, e);
      if a.revoked == |rs| {
        assert rs[..|rs|] == rs;
        assert g !in revokes;
      }
    }
  }

  // At any point of any run of a principal generated with the baseline, a
  // completed revoke-then-regrant that speaks for every live grant leaves the
  // baseline and K, and on the tables there are exactly K's coverage.
  lemma RevokeIsExactInEveryRun(schema: string, trace: seq<World>, steps: seq<Step>, i: nat)
    requires IsRun(FULL_SCHEMA_PRIVILEGES, schema, trace, steps) && i < |steps|
    requires HoldsBaseline(trace[0].entries, schema) && Accounted(schema, trace[0])
    requires steps[i].RevokeBatch? && forall g :: g in trace[i].live ==> g in steps[i].revokes + steps[i].regrants
    requires steps[i].attempt ==
             Complete(Plan(schema, trace[i].tables, steps[i].revokes), Plan(schema, trace[i].tables, steps[i].regrants))
    requires !Rejects(true, steps[i].regrants)
    ensures Exact(trace[i + 1].entries, schema, trace[i + 1].tables, steps[i].regrants)
    ensures forall p, t :: p in DATA_PRIVILEGES && t in trace[i + 1].tables ==>
              (Access(trace[i + 1].entries, schema, p, t) <==> Covers(Gives, Lowered(steps[i].regrants), p, t))
  {
    var w, revokes, regrants := trace[i], steps[i].revokes, steps[i].regrants;
    BaselineNeverLost(schema, trace, steps, i);
    AccountedAlways(schema, trace, steps, i);
    RevokeIsExact(w.entries, schema, w.tables, revokes, regrants);
    forall e | e in w.entries && !Baseline(schema, e)
      ensures Owed(schema, w.tables, regrants, e) || Withdrawn(schema, w.tables, revokes, e)
    {
      var g :| g in w.live && Runs(w.tables, g) && Owes(schema, g, e);
      assert g in revokes || g in regrants;
    }
    var w' := trace[i + 1];
    assert Exact(w'.entries, schema, w'.tables, regrants);
    forall p, t | p in DATA_PRIVILEGES && t in w'.tables
      ensures Access(w'.entries, schema, p, t) <==> Covers(Gives, Lowered(regrants), p, t)
    {
      AccessIsCoverage(w'.entries, schema, w'.tables, regrants, p, t);
    }
  }

  // ---- the batch contract of the deferring loop ----

  lemma DoneIsInForce(held: set<Entry>, schema: string, tables: set<string>, grants: seq<Grant>, g: Grant, e: Entry)
    requires g in grants
    ensures g !in Done(tables, grants) <==>
            g.kind.Other? || (g.kind in {Read, Full} && g.target != "*" && Lower(g.target) !in tables)
    ensures g in Done(tables, grants) && Owes(schema, g, e) ==>
              e in ExecAll(true, EffectOf(true), held, Plan(schema, tables, grants))
  {
    SelectIn(Runner(tables), grants, g);
    ExecAllHolds(true, EffectOf(true), held, Plan(schema, tables, grants), e);
    PlanMeans(true, schema, tables, grants, e);
  }
}
