/** SQL Server grants: separate database, schema and object permission entries. */
module SqlServer {
  import opened Grants
  import opened EntryAlgebra

  datatype Perm = SELECT | INSERT | UPDATE | DELETE | REFERENCES | ALTER | CREATE_TABLE | CREATE_VIEW

  const FULL_PRIVILEGES: set<Perm> := {SELECT, INSERT, UPDATE, DELETE, REFERENCES}
  const CREATE_PRIVILEGES: set<Perm> := {CREATE_TABLE, CREATE_VIEW}

  // What each grant is documented to give. Creating an object needs the
  // database-level create permission and ALTER on the schema, so they go together.
  function Gives(kind: GrantType, all: bool): set<Perm> {
    match kind
    case Read => {SELECT}
    case Create => {CREATE_TABLE, CREATE_VIEW, ALTER}
    case Full => {SELECT, INSERT, UPDATE, DELETE, REFERENCES} + if all then {CREATE_TABLE, CREATE_VIEW, ALTER} else {}
    case Other(_) => {}
  }

  // ---- the server's permission catalogue ----

  datatype Entry =
    | OnDatabase(p: Perm)
    | OnSchema(schema: string, p: Perm)
    | OnObject(schema: string, table: string, p: Perm)

  datatype Securable = Database | Schema(schema: string) | Object(schema: string, table: string)

  datatype Stmt = Stmt(perms: set<Perm>, on: Securable)

  // GRANT records exactly these entries and REVOKE deletes exactly these.
  function Effect(s: Stmt): set<Entry> {
    match s.on
    case Database => set p | p in s.perms :: OnDatabase(p)
    case Schema(schema) => set p | p in s.perms :: OnSchema(schema, p)
    case Object(schema, t) => set p | p in s.perms :: OnObject(schema, t, p)
  }

  // Access in force: a schema entry covers every object of the schema, present
  // or future; creating takes the database entry and ALTER on the schema.
  predicate Access(entries: set<Entry>, schema: string, p: Perm, t: string) {
    if p in CREATE_PRIVILEGES then OnDatabase(p) in entries && OnSchema(schema, ALTER) in entries
    else OnSchema(schema, p) in entries || OnObject(schema, t, p) in entries
  }

  class Server {
    const fails: nat -> bool
    var clock: nat
    var tables: map<string, set<string>>
    var permissions: map<string, set<Entry>>

    constructor (fails: nat -> bool)
      ensures this.fails == fails && tables == map[] && permissions == map[]
    {
      this.fails := fails;
      clock, tables, permissions := 0, map[], map[];
    }

    function EntriesOf(user: string): set<Entry>
      reads this
    {
      if user in permissions then permissions[user] else {}
    }

    function TablesOf(schema: string): set<string>
      reads this
    {
      if schema in tables then tables[schema] else {}
    }

    method Exec(isGrant: bool, s: Stmt, user: string) returns (ok: bool)
      modifies this`clock, this`permissions
      ensures ok <==> !fails(old(clock))
      ensures EntriesOf(user) == if ok then EntryAlgebra.Exec(isGrant, old(EntriesOf(user)), Effect(s))
                                 else old(EntriesOf(user))
      ensures forall u :: u != user ==> EntriesOf(u) == old(EntriesOf(u))
    {
      ok := !fails(clock);
      clock := clock + 1;
      if ok {
        permissions := permissions[user := EntryAlgebra.Exec(isGrant, EntriesOf(user), Effect(s))];
      }
    }

    method TableExists(schema: string, table: string) returns (r: Result<bool>)
      modifies this`clock
      ensures r == if fails(old(clock)) then Err else Ok(table in TablesOf(schema))
    {
      r := if fails(clock) then Err else Ok(table in TablesOf(schema));
      clock := clock + 1;
    }
  }

  // ---- the batch as a list of statements ----

  predicate Runs(tables: set<string>, g: Grant) {
    !g.kind.Other? && (Deferrable(g) ==> g.target in tables)
  }

  function StmtsOf(schema: string, g: Grant): seq<Stmt> {
    var create := [Stmt(CREATE_PRIVILEGES, Database), Stmt({ALTER}, Schema(schema))];
    match g.kind
    case Read => [Stmt({SELECT}, if g.All() then Schema(schema) else Object(schema, g.target))]
    case Create => create
    case Full => if g.All() then [Stmt(FULL_PRIVILEGES, Schema(schema))] + create
                 else [Stmt(FULL_PRIVILEGES, Object(schema, g.target))]
    case Other(_) => []
  }

  function Planner(schema: string, tables: set<string>): Grant -> seq<Stmt> {
    g => if Runs(tables, g) then StmtsOf(schema, g) else []
  }

  function Plan(schema: string, tables: set<string>, grants: seq<Grant>): seq<Stmt> {
    PlanAll(Planner(schema, tables), grants)
  }

  function Runner(tables: set<string>): Grant -> bool {
    g => Runs(tables, g)
  }

  function Done(tables: set<string>, grants: seq<Grant>): seq<Grant> {
    Select(Runner(tables), grants)
  }

  // ---- the provider ----

  class Binding {
    const server: Server

    constructor (server: Server)
      ensures this.server == server
    {
      this.server := server;
    }

    // The table is looked up first; a missing one means deferred or skipped.
    method TrySoftGrant(isGrant: bool, schema: string, table: string, perms: set<Perm>, user: string)
      returns (r: Result<bool>)
      modifies server`clock, server`permissions
      ensures (forall n :: !server.fails(n)) ==> r.Ok?
      ensures r.Ok? ==> r.value == (table in server.TablesOf(schema))
      ensures server.EntriesOf(user) ==
              if r == Ok(true)
              then Exec(isGrant, old(server.EntriesOf(user)), Effect(Stmt(perms, Object(schema, table))))
              else old(server.EntriesOf(user))
      ensures forall u :: u != user ==> server.EntriesOf(u) == old(server.EntriesOf(u))
    {
      r := server.TableExists(schema, table);
      if r == Ok(true) {
        var ok := server.Exec(isGrant, Stmt(perms, Object(schema, table)), user);
        if !ok {
          r := Err;
        }
      }
    }

    // One grant of the batch; `n` of its statements were executed.
    method ApplyGrant(isGrant: bool, g: Grant, schema: string, user: string) returns (r: Result<bool>, ghost n: nat)
      modifies server`clock, server`permissions
      ensures (forall k :: !server.fails(k)) ==> r.Ok?
      ensures r.Ok? ==> r.value == Runs(server.TablesOf(schema), g)
      ensures var stmts := Planner(schema, server.TablesOf(schema))(g);
              && n <= |stmts| && (r.Ok? ==> n == |stmts|)
              && server.EntriesOf(user) == ExecAll(isGrant, Effect, old(server.EntriesOf(user)), stmts[..n])
      ensures forall u :: u != user ==> server.EntriesOf(u) == old(server.EntriesOf(u))
    {
      n := 0;
      ghost var stmts, start := StmtsOf(schema, g), server.EntriesOf(user);
      match g.kind {
        case Read =>
          if g.All() {
            var ok := server.Exec(isGrant, Stmt({SELECT}, Schema(schema)), user);
            if !ok { return Err, 0; }
            ExecAllStep(isGrant, Effect, start, stmts, 0);
            return Ok(true), 1;
          }
          r := TrySoftGrant(isGrant, schema, g.target, {SELECT}, user);
        case Create =>
          var ok := server.Exec(isGrant, Stmt(CREATE_PRIVILEGES, Database), user);
          if !ok { return Err, 0; }
          ExecAllStep(isGrant, Effect, start, stmts, 0);
          ok := server.Exec(isGrant, Stmt({ALTER}, Schema(schema)), user);
          if !ok { return Err, 1; }
          ExecAllStep(isGrant, Effect, start, stmts, 1);
          return Ok(true), 2;
        case Full =>
          if g.All() {
            var ok := server.Exec(isGrant, Stmt(FULL_PRIVILEGES, Schema(schema)), user);
            if !ok { return Err, 0; }
            ExecAllStep(isGrant, Effect, start, stmts, 0);
            ok := server.Exec(isGrant, Stmt(CREATE_PRIVILEGES, Database), user);
            if !ok { return Err, 1; }
            ExecAllStep(isGrant, Effect, start, stmts, 1);
            ok := server.Exec(isGrant, Stmt({ALTER}, Schema(schema)), user);
            if !ok { return Err, 2; }
            ExecAllStep(isGrant, Effect, start, stmts, 2);
            return Ok(true), 3;
          }
          r := TrySoftGrant(isGrant, schema, g.target, FULL_PRIVILEGES, user);
        case Other(_) =>
          return Ok(false), 0;
      }
      if r == Ok(true) {
        ExecAllStep(isGrant, Effect, start, stmts, 0);
        n := 1;
      }
    }

    // `ran` is the part of the planned statements that was executed.
    method ApplyPerms(operation: string, grants: seq<Grant>, schema: string, user: string)
      returns (r: Result<seq<Grant>>, ghost ran: seq<Stmt>)
      modifies server`clock, server`permissions
      ensures operation !in {"grant", "revoke"} ==> r == Err && ran == []
      ensures ran <= Plan(schema, server.TablesOf(schema), grants)
      ensures server.EntriesOf(user) == ExecAll(operation == "grant", Effect, old(server.EntriesOf(user)), ran)
      ensures forall u :: u != user ==> server.EntriesOf(u) == old(server.EntriesOf(u))
      ensures r.Ok? ==>
              ran == Plan(schema, server.TablesOf(schema), grants) && r.value == Done(server.TablesOf(schema), grants)
      ensures r.Ok? ==> !Rejects(operation == "grant", grants)
      ensures operation in {"grant", "revoke"} && (forall n :: !server.fails(n)) ==>
              (r.Ok? <==> !Rejects(operation == "grant", grants))
    {
      ran := [];
      if operation != "grant" && operation != "revoke" {
        return Err, [];
      }
      var isGrant := operation == "grant";
      ghost var start, tables := server.EntriesOf(user), server.TablesOf(schema);
      ghost var effects: Stmt -> set<Entry>, plan, keep := Effect, Planner(schema, tables), Runner(tables);
      var done := [];
      ProgressStart(isGrant, effects, start, plan, keep, grants);
      var i := 0;
      while i < |grants|
        invariant 0 <= i <= |grants|
        invariant Progress(isGrant, effects, start, plan, keep, grants, i, done, ran, server.EntriesOf(user))
        invariant server.TablesOf(schema) == tables
        invariant forall u :: u != user ==> server.EntriesOf(u) == old(server.EntriesOf(u))
        invariant !Rejects(isGrant, grants[..i])
      {
        var g := grants[i];
        if isGrant && g.CreateOnTable() {
          return Err, ran;
        }
        ghost var held := server.EntriesOf(user);
        var applied, n := ApplyGrant(isGrant, g, schema, user);
        assert server.TablesOf(schema) == tables;
        assert plan(g) == Planner(schema, tables)(g) && keep(g) == Runs(tables, g);
        if applied.Err? {
          ProgressPart(isGrant, effects, start, plan, keep, grants, i, done, ran, held, n);
          return Err, ran + plan(g)[..n];
        }
        assert plan(g)[..n] == plan(g);
        ProgressStep(isGrant, effects, start, plan, keep, grants, i, done, ran, held);
        RejectsStep(isGrant, grants, i);
        ran := ran + plan(g);
        if applied.value {
          done := done + [g];
        }
        i := i + 1;
      }
      ProgressEnd(isGrant, effects, start, plan, keep, grants, done, ran, server.EntriesOf(user));
      assert grants[..i] == grants;
      r := Ok(done);
    }

    // RevokeThenRegrant: the revoke batch, then the grant batch.
    method RevokeGrants(revokes: seq<Grant>, regrants: seq<Grant>, schema: string, user: string)
      returns (ok: bool, ghost attempt: Attempt)
      modifies server`clock, server`permissions
      ensures var rs, ks := Plan(schema, server.TablesOf(schema), revokes),
                            Plan(schema, server.TablesOf(schema), regrants);
              && attempt.Within(rs, ks)
              && server.EntriesOf(user) == attempt.Leaves(Effect, Effect, old(server.EntriesOf(user)), rs, ks)
              && (ok ==> attempt == Complete(rs, ks))
      ensures forall u :: u != user ==> server.EntriesOf(u) == old(server.EntriesOf(u))
      ensures (forall n :: !server.fails(n)) ==> (ok <==> !Rejects(true, regrants))
    {
      ghost var rs, ks := Plan(schema, server.TablesOf(schema), revokes),
                          Plan(schema, server.TablesOf(schema), regrants);
      var revoked, rn := ApplyPerms("revoke", revokes, schema, user);
      assert rs[..|rn|] == rn;
      if revoked.Err? {
        return false, Attempt(|rn|, 0);
      }
      var regranted, kn := ApplyPerms("grant", regrants, schema, user);
      assert ks[..|kn|] == kn;
      return regranted.Ok?, Attempt(|rn|, |kn|);
    }
  }

  // ---- what the entries mean ----

  // The entries a grant is owed, from its documented meaning.
  predicate Owes(schema: string, g: Grant, e: Entry) {
    var creates := g.kind.Create? || (g.kind.Full? && g.All());
    match e
    case OnDatabase(p) => creates && p in {CREATE_TABLE, CREATE_VIEW}
    case OnSchema(s, p) =>
      s == schema && ((creates && p == ALTER) || (g.All() && !g.kind.Create? && p in Gives(g.kind, false)))
    case OnObject(s, t, p) => s == schema && Deferrable(g) && t == g.target && p in Gives(g.kind, false)
  }

  ghost predicate Owed(schema: string, tables: set<string>, grants: seq<Grant>, e: Entry) {
    exists g :: g in grants && Runs(tables, g) && Owes(schema, g, e)
  }

  lemma StmtsMean(schema: string, tables: set<string>, g: Grant, e: Entry)
    ensures Mentions(Effect, Planner(schema, tables)(g), e) <==> Runs(tables, g) && Owes(schema, g, e)
  {
    var stmts := StmtsOf(schema, g);
    if Runs(tables, g) {
      assert forall i :: 0 <= i < |stmts| ==> stmts[i] in stmts;
      assert forall x :: x in stmts ==> exists i :: 0 <= i < |stmts| && stmts[i] == x;
      if g.kind.Create? {
        assert stmts[0] == Stmt(CREATE_PRIVILEGES, Database) && stmts[1] == Stmt({ALTER}, Schema(schema));
      } else if g.kind.Full? && g.All() {
        assert stmts[0] == Stmt(FULL_PRIVILEGES, Schema(schema));
        assert stmts[1] == Stmt(CREATE_PRIVILEGES, Database) && stmts[2] == Stmt({ALTER}, Schema(schema));
      } else {
        assert |stmts| == 1;
        assert e in Effect(stmts[0]) <==> Owes(schema, g, e);
      }
    }
  }

  lemma PlanMeans(schema: string, tables: set<string>, grants: seq<Grant>, e: Entry)
    ensures Mentions(Effect, Plan(schema, tables, grants), e) <==> Owed(schema, tables, grants, e)
  {
    var plan := Planner(schema, tables);
    if Mentions(Effect, Plan(schema, tables, grants), e) {
      var s :| s in Plan(schema, tables, grants) && e in Effect(s);
      PlanAllIn(plan, grants, s);
      var g :| g in grants && s in plan(g);
      StmtsMean(schema, tables, g, e);
    }
    if Owed(schema, tables, grants, e) {
      var g :| g in grants && Runs(tables, g) && Owes(schema, g, e);
      StmtsMean(schema, tables, g, e);
      var s :| s in plan(g) && e in Effect(s);
      PlanAllIn(plan, grants, s);
    }
  }

  ghost predicate Exact(entries: set<Entry>, schema: string, tables: set<string>, grants: seq<Grant>) {
    forall e :: e in entries <==> Owed(schema, tables, grants, e)
  }

  function Revoked(held: set<Entry>, schema: string, tables: set<string>, revokes: seq<Grant>,
                   regrants: seq<Grant>): set<Entry>
  {
    var rs, ks := Plan(schema, tables, revokes), Plan(schema, tables, regrants);
    Complete(rs, ks).Leaves(Effect, Effect, held, rs, ks)
  }

  lemma RevokedHolds(held: set<Entry>, schema: string, tables: set<string>, revokes: seq<Grant>,
                     regrants: seq<Grant>, e: Entry)
    ensures e in Revoked(held, schema, tables, revokes, regrants)
            <==> Owed(schema, tables, regrants, e) || (e in held && !Owed(schema, tables, revokes, e))
  {
    var rs, ks := Plan(schema, tables, revokes), Plan(schema, tables, regrants);
    LeavesHolds(Complete(rs, ks), Effect, Effect, held, rs, ks, e);
    assert rs[..|rs|] == rs && ks[..|ks|] == ks;
    PlanMeans(schema, tables, revokes, e);
    PlanMeans(schema, tables, regrants, e);
  }

  // Revoking R and regranting K leaves exactly the entries of K if and only if
  // nothing was held that neither R nor K accounts for. The CREATE permissions
  // and the schema's ALTER that create and full:* share are among them, and so
  // are entries an earlier failure had lost.
  lemma RevokeIsExact(held: set<Entry>, schema: string, tables: set<string>, revokes: seq<Grant>, regrants: seq<Grant>)
    ensures Exact(Revoked(held, schema, tables, revokes, regrants), schema, tables, regrants)
            <==> forall e :: e in held ==> Owed(schema, tables, revokes + regrants, e)
  {
    forall e
      ensures e in Revoked(held, schema, tables, revokes, regrants)
              <==> Owed(schema, tables, regrants, e) || (e in held && !Owed(schema, tables, revokes, e))
      ensures Owed(schema, tables, revokes + regrants, e) <==>
              Owed(schema, tables, revokes, e) || Owed(schema, tables, regrants, e)
    {
      RevokedHolds(held, schema, tables, revokes, regrants, e);
    }
  }

  // The access in force is the documented coverage on every table, present or
  // future, except a table that does not exist and is covered table by table only.
  lemma AccessIsCoverage(entries: set<Entry>, schema: string, tables: set<string>, grants: seq<Grant>, p: Perm,
                         t: string)
    requires Exact(entries, schema, tables, grants) && !Rejects(true, grants)
    ensures (Access(entries, schema, p, t) <==> Covers(Gives, grants, p, t)) <==>
            !(&& t !in tables && Covers(Gives, grants, p, t)
              && forall g :: g in grants && CoversOne(Gives, g, p, t) ==> Deferrable(g))
  {
    forall g | g in grants
      ensures CoversOne(Gives, g, p, t) && !Deferrable(g) ==> Access(entries, schema, p, t)
      ensures CoversOne(Gives, g, p, t) && t in tables ==> Access(entries, schema, p, t)
      ensures (Runs(tables, g) && p !in CREATE_PRIVILEGES
               && (Owes(schema, g, OnSchema(schema, p)) || Owes(schema, g, OnObject(schema, t, p)))) ==>
                CoversOne(Gives, g, p, t) && (Deferrable(g) ==> t in tables)
      ensures Runs(tables, g) && Owes(schema, g, OnDatabase(p)) ==> CoversOne(Gives, g, p, t) && !Deferrable(g)
    {
      if CoversOne(Gives, g, p, t) && (!Deferrable(g) || t in tables) {
        GrantGivesAccess(entries, schema, tables, grants, g, p, t);
      }
    }
  }

  lemma GrantGivesAccess(entries: set<Entry>, schema: string, tables: set<string>, grants: seq<Grant>, g: Grant,
                         p: Perm, t: string)
    requires Exact(entries, schema, tables, grants) && g in grants
    requires CoversOne(Gives, g, p, t) && (Deferrable(g) ==> t in tables)
    ensures Access(entries, schema, p, t)
  {
    assert Runs(tables, g);
    if p in CREATE_PRIVILEGES {
      assert Owes(schema, g, OnDatabase(p)) && Owes(schema, g, OnSchema(schema, ALTER));
    } else if Deferrable(g) {
      assert Owes(schema, g, OnObject(schema, t, p));
    } else {
      assert Owes(schema, g, OnSchema(schema, p));
    }
  }

  // ---- runs ----

  // One schema and one user. `live` is what was granted, or begun to be granted,
  // since it was last successfully revoked.
  datatype World = World(tables: set<string>, entries: set<Entry>, live: set<Grant>)

  // The base account creates and drops tables between the provider's batches,
  // and a batch may stop after any number of its statements.
  datatype Step =
    | CreateTable(t: string)
    | DropTable(t: string)
    | GrantBatch(grants: seq<Grant>, ran: nat)
    | RevokeBatch(revokes: seq<Grant>, regrants: seq<Grant>, attempt: Attempt)
  {
    predicate Possible(schema: string, w: World) {
      match this
      case GrantBatch(grants, n) => n <= |Plan(schema, w.tables, grants)|
      case RevokeBatch(revokes, regrants, a) =>
        a.Within(Plan(schema, w.tables, revokes), Plan(schema, w.tables, regrants))
      case _ => true
    }

    // Dropping a table drops its object entries with it.
    function Take(schema: string, w: World): World
      requires Possible(schema, w)
    {
      match this
      case CreateTable(t) => w.(tables := w.tables + {t})
      case DropTable(t) =>
        w.(tables := w.tables - {t},
           entries := set e | e in w.entries && !(e.OnObject? && e.schema == schema && e.table == t))
      case GrantBatch(grants, n) =>
        w.(entries := ExecAll(true, Effect, w.entries, Plan(schema, w.tables, grants)[..n]),
           live := w.live + set g | g in grants)
      case RevokeBatch(revokes, regrants, a) =>
        var rs, ks := Plan(schema, w.tables, revokes), Plan(schema, w.tables, regrants);
        w.(entries := a.Leaves(Effect, Effect, w.entries, rs, ks),
           live := (if a.revoked == |rs| then w.live - set g | g in revokes else w.live) + set g | g in regrants)
    }
  }

  ghost predicate IsRun(schema: string, trace: seq<World>, steps: seq<Step>) {
    && |trace| == |steps| + 1
    && forall i :: 0 <= i < |steps| ==>
         steps[i].Possible(schema, trace[i]) && trace[i + 1] == steps[i].Take(schema, trace[i])
  }

  // Every entry held is owed to a live grant that speaks about a present table.
  ghost predicate Accounted(schema: string, w: World) {
    forall e :: e in w.entries ==> exists g :: g in w.live && Runs(w.tables, g) && Owes(schema, g, e)
  }

  lemma {:induction false} AccountedAlways(schema: string, trace: seq<World>, steps: seq<Step>, i: nat)
    requires IsRun(schema, trace, steps) && Accounted(schema, trace[0]) && i < |trace|
    ensures Accounted(schema, trace[i])
  {
    if i == 0 {
    } else {
      AccountedAlways(schema, trace, steps, i - 1);
      AccountedStep(schema, trace[i - 1], steps[i - 1]);
    }
  }

  lemma AccountedStep(schema: string, w: World, s: Step)
    requires Accounted(schema, w) && s.Possible(schema, w)
    ensures Accounted(schema, s.Take(schema, w))
  {
    var w' := s.Take(schema, w);
    forall e | e in w'.entries
      ensures exists g :: g in w'.live && Runs(w'.tables, g) && Owes(schema, g, e)
    {
      match s {
        case CreateTable(t) =>
          var g :| g in w.live && Runs(w.tables, g) && Owes(schema, g, e);
        case DropTable(t) =>
          var g :| g in w.live && Runs(w.tables, g) && Owes(schema, g, e);
        case GrantBatch(grants, n) =>
          var ks := Plan(schema, w.tables, grants);
          ExecAllHolds(true, Effect, w.entries, ks[..n], e);
          PlanMeans(schema, w.tables, grants, e);
        case RevokeBatch(revokes, regrants, a) =>
          var rs, ks := Plan(schema, w.tables, revokes), Plan(schema, w.tables, regrants);
          LeavesHolds(a, Effect, Effect, w.entries, rs, ks, e);
          PlanMeans(schema, w.tables, revokes, e);
          PlanMeans(schema, w.tables, regrants, e);
          if !Mentions(Effect, ks[..a.granted], e) {
            var g :| g in w.live && Runs(w.tables, g) && Owes(schema, g, e);
            if a.revoked == |rs| {
              assert rs[..|rs|] == rs;
              assert g !in revokes;
            }
          }
      }
    }
  }

  // At any point of any run, whatever failed or vanished before it, a completed
  // revoke-then-regrant that speaks for every live grant leaves exactly what the
  // regrants are owed.
  lemma RevokeIsExactInEveryRun(schema: string, trace: seq<World>, steps: seq<Step>, i: nat)
    requires IsRun(schema, trace, steps) && Accounted(schema, trace[0]) && i < |steps|
    requires steps[i].RevokeBatch? && forall g :: g in trace[i].live ==> g in steps[i].revokes + steps[i].regrants
    requires var w := trace[i];
             steps[i].attempt ==
             Complete(Plan(schema, w.tables, steps[i].revokes), Plan(schema, w.tables, steps[i].regrants))
    ensures Exact(trace[i + 1].entries, schema, trace[i + 1].tables, steps[i].regrants)
  {
    AccountedAlways(schema, trace, steps, i);
    RevokeIsExact(trace[i].entries, schema, trace[i].tables, steps[i].revokes, steps[i].regrants);
  }

  // Creating a table keeps the entries exact unless a grant was waiting for it.
  lemma CreateKeepsExact(w: World, schema: string, grants: seq<Grant>, t: string)
    requires Exact(w.entries, schema, w.tables, grants) && t !in w.tables
    ensures Exact(w.entries, schema, CreateTable(t).Take(schema, w).tables, grants)
            <==> forall g :: g in grants && Deferrable(g) ==> g.target != t
  {
    forall g | g in grants && Deferrable(g) && g.target == t
      ensures !Exact(w.entries, schema, w.tables + {t}, grants)
    {
      var e := OnObject(schema, t, SELECT);
      assert Runs(w.tables + {t}, g) && Owes(schema, g, e);
      assert Owed(schema, w.tables + {t}, grants, e) && !Owed(schema, w.tables, grants, e);
    }
    if forall g :: g in grants && Deferrable(g) ==> g.target != t {
      assert forall g :: g in grants ==> Runs(w.tables, g) == Runs(w.tables + {t}, g);
    }
  }

  // ---- the batch contract of the deferring loop ----

  lemma DoneIsInForce(held: set<Entry>, schema: string, tables: set<string>, grants: seq<Grant>, g: Grant, e: Entry)
    requires g in grants
    ensures g !in Done(tables, grants) <==>
            g.kind.Other? || (g.kind in {Read, Full} && g.target != "*" && g.target !in tables)
    ensures g in Done(tables, grants) && Owes(schema, g, e) ==>
            e in ExecAll(true, Effect, held, Plan(schema, tables, grants))
  {
    SelectIn(Runner(tables), grants, g);
    ExecAllHolds(true, Effect, held, Plan(schema, tables, grants), e);
    PlanMeans(schema, tables, grants, e);
  }
}
