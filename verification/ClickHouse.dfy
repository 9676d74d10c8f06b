/** ClickHouse: hierarchical rights, the grant loop, and what revoke-then-regrant leaves behind. */
module ClickHouse {
  import opened Grants
  import opened ClickHouseStatements

  const CREATE_PRIVILEGES: seq<Priv> := [CREATE_TABLE, CREATE_VIEW]
  const FULL_DB_PRIVILEGES: seq<Priv> :=
    [SELECT, INSERT, ALTER, CREATE_TABLE, CREATE_VIEW, DROP_TABLE, DROP_VIEW, TRUNCATE, OPTIMIZE]
  const FULL_TABLE_PRIVILEGES: seq<Priv> := [SELECT, INSERT, ALTER, TRUNCATE, OPTIMIZE]

  // What each grant is documented to give, per scope.
  function Gives(kind: GrantType, all: bool): set<Priv> {
    match kind
    case Read => {SELECT}
    case Create => {CREATE_TABLE, CREATE_VIEW}
    case Full =>
      {SELECT, INSERT, ALTER, TRUNCATE, OPTIMIZE} +
      if all then {CREATE_TABLE, CREATE_VIEW, DROP_TABLE, DROP_VIEW} else {}
    case Other(_) => {}
  }

  // ---- the server's access model ----

  // A role's rights in one database: a database-wide default per privilege and
  // per-table exceptions to it. A statement on db.* replaces the exceptions of
  // its privileges, so db.* rights reach tables created later; a statement on
  // db.t records an exception by name, so it outlives DROP TABLE.
  datatype Rights = Rights(everywhere: set<Priv>, exceptions: map<(Priv, string), bool>) {
    predicate Holds(p: Priv, t: string) {
      if (p, t) in exceptions then exceptions[(p, t)] else p in everywhere
    }

    function On(isGrant: bool, action: Action): (r: Rights)
      ensures forall p, t :: r.Holds(p, t) == if action.Hits(p, t) then isGrant else Holds(p, t)
    {
      match action.scope
      case AllTables =>
        var privs := set p | p in action.privs;
        Rights(if isGrant then everywhere + privs else everywhere - privs,
               map k | k in exceptions && k.0 !in action.privs :: exceptions[k])
      case OneTable(t) =>
        Rights(everywhere, exceptions + map p | p in action.privs :: (p, t) := isGrant)
    }
  }

  datatype Action = Action(privs: seq<Priv>, scope: Scope) {
    predicate Hits(p: Priv, t: string) {
      p in privs && (scope.AllTables? || scope.name == t)
    }
  }

  const NO_RIGHTS := Rights({}, map[])

  // The server executes text. `fails` says which of its calls are refused.
  class Server {
    const fails: nat -> bool
    var clock: nat
    var tables: map<string, set<string>>
    var rights: map<(string, string), Rights>

    constructor (fails: nat -> bool)
      ensures this.fails == fails && tables == map[] && rights == map[]
    {
      this.fails := fails;
      clock, tables, rights := 0, map[], map[];
    }

    function TablesOf(database: string): set<string>
      reads this
    {
      if database in tables then tables[database] else {}
    }

    function RightsOf(database: string, role: string): Rights
      reads this
    {
      if (database, role) in rights then rights[(database, role)] else NO_RIGHTS
    }

    method Exec(text: string) returns (ok: bool)
      modifies this`clock, this`rights
      ensures ok <==> !fails(old(clock)) && Parse(text).Some?
      ensures !ok ==> rights == old(rights)
      ensures ok ==>
        var s := Parse(text).value;
        rights == old(rights)[(s.database, s.role) :=
                    old(RightsOf(s.database, s.role)).On(s.isGrant, Action(s.privs, s.scope))]
    {
      var refused := fails(clock);
      clock := clock + 1;
      var parsed := Parse(text);
      ok := !refused && parsed.Some?;
      if ok {
        var s := parsed.value;
        rights := rights[(s.database, s.role) :=
          RightsOf(s.database, s.role).On(s.isGrant, Action(s.privs, s.scope))];
      }
    }

    method TableExists(database: string, table: string) returns (r: Result<bool>)
      modifies this`clock
      ensures r == if fails(old(clock)) then Err else Ok(table in TablesOf(database))
    {
      r := if fails(clock) then Err else Ok(table in TablesOf(database));
      clock := clock + 1;
    }
  }

  // ---- what a batch does, as a function of the state it starts from ----

  predicate Runs(isGrant: bool, tables: set<string>, g: Grant) {
    !g.kind.Other? && (Deferrable(g) && isGrant ==> g.target in tables)
  }

  function ActionOf(g: Grant): Action {
    match g.kind
    case Read => Action([SELECT], if g.All() then AllTables else OneTable(g.target))
    case Create => Action(CREATE_PRIVILEGES, AllTables)
    case Full => if g.All() then Action(FULL_DB_PRIVILEGES, AllTables)
                 else Action(FULL_TABLE_PRIVILEGES, OneTable(g.target))
    case Other(_) => Action([], AllTables)
  }

  function Batch(r: Rights, isGrant: bool, tables: set<string>, grants: seq<Grant>): Rights {
    if grants == [] then r
    else
      var n := |grants| - 1;
      var before := Batch(r, isGrant, tables, grants[..n]);
      if Runs(isGrant, tables, grants[n]) then before.On(isGrant, ActionOf(grants[n])) else before
  }

  function Done(isGrant: bool, tables: set<string>, grants: seq<Grant>): seq<Grant> {
    Select(g => Runs(isGrant, tables, g), grants)
  }

  // ---- the provider ----

  class Binding {
    const server: Server
    const cluster: string

    constructor (server: Server, cluster: string)
      ensures this.server == server && this.cluster == cluster
    {
      this.server, this.cluster := server, cluster;
    }

    method ApplyStmt(isGrant: bool, action: Action, database: string, role: string) returns (ok: bool)
      requires action.privs != []
      modifies server`clock, server`rights
      ensures ok <==> !server.fails(old(server.clock))
      ensures server.RightsOf(database, role) ==
              if ok then old(server.RightsOf(database, role)).On(isGrant, action)
              else old(server.RightsOf(database, role))
      ensures forall d, r :: (d, r) != (database, role) ==> server.RightsOf(d, r) == old(server.RightsOf(d, r))
    {
      var s := Statement(isGrant, cluster, action.privs, database, action.scope, role);
      ParsePrint(s);
      ok := server.Exec(Print(s));
    }

    // Grants on one table are deferred while it does not exist; revokes are not.
    method TableSpecific(isGrant: bool, target: string, privs: seq<Priv>, database: string, role: string)
      returns (r: Result<bool>)
      requires privs != []
      modifies server`clock, server`rights
      ensures (forall n :: !server.fails(n)) ==> r.Ok?
      ensures r.Ok? ==> r.value == (isGrant ==> target in server.TablesOf(database))
      ensures server.RightsOf(database, role) ==
              if r == Ok(true) then old(server.RightsOf(database, role)).On(isGrant, Action(privs, OneTable(target)))
              else old(server.RightsOf(database, role))
      ensures forall d, r :: (d, r) != (database, role) ==> server.RightsOf(d, r) == old(server.RightsOf(d, r))
    {
      if isGrant {
        var exists' := server.TableExists(database, target);
        if exists' != Ok(true) {
          return exists';
        }
      }
      var ok := ApplyStmt(isGrant, Action(privs, OneTable(target)), database, role);
      r := if ok then Ok(true) else Err;
    }

    // `reached` counts the grants fully processed when the batch ended.
    method ApplyPerms(operation: string, grants: seq<Grant>, database: string, role: string)
      returns (r: Result<seq<Grant>>, ghost reached: nat)
      modifies server`clock, server`rights
      ensures reached <= |grants|
      ensures operation !in {"grant", "revoke"} ==> r == Err && reached == 0
      ensures server.RightsOf(database, role) ==
              Batch(old(server.RightsOf(database, role)), operation == "grant", server.TablesOf(database),
                    grants[..reached])
      ensures forall d, r :: (d, r) != (database, role) ==> server.RightsOf(d, r) == old(server.RightsOf(d, r))
      ensures !Rejects(operation == "grant", grants[..reached])
      ensures r.Ok? ==> reached == |grants| && r.value == Done(operation == "grant", server.TablesOf(database), grants)
      ensures operation in {"grant", "revoke"} && (forall n :: !server.fails(n)) ==>
              (r.Ok? <==> !Rejects(operation == "grant", grants))
    {
      reached := 0;
      if operation != "grant" && operation != "revoke" {
        return Err, 0;
      }
      var isGrant := operation == "grant";
      ghost var tables := server.TablesOf(database);
      ghost var start := server.RightsOf(database, role);
      var done := [];
      var i := 0;
      while i < |grants|
        invariant 0 <= i <= |grants| && reached == i
        invariant done == Done(isGrant, tables, grants[..i])
        invariant server.RightsOf(database, role) == Batch(start, isGrant, tables, grants[..i])
        invariant forall d, r :: (d, r) != (database, role) ==> server.RightsOf(d, r) == old(server.RightsOf(d, r))
        invariant !Rejects(isGrant, grants[..i])
      {
        var g := grants[i];
        assert grants[..i + 1][..i] == grants[..i];
        if isGrant && g.CreateOnTable() {
          return Err, i;
        }
        var applied := false;
        if Deferrable(g) {
          var privs := if g.kind.Read? then [SELECT] else FULL_TABLE_PRIVILEGES;
          var t := TableSpecific(isGrant, g.target, privs, database, role);
          if t.Err? {
            return Err, i;
          }
          applied := t.value;
        } else if !g.kind.Other? {
          applied := ApplyStmt(isGrant, ActionOf(g), database, role);
          if !applied {
            return Err, i;
          }
        }
        if applied {
          done := done + [g];
        }
        RejectsStep(isGrant, grants, i);
        i := i + 1;
        reached := i;
      }
      assert grants[..i] == grants;
      r := Ok(done);
    }

    // RevokeThenRegrant: the revoke batch, then the grant batch.
    method RevokeGrants(revokes: seq<Grant>, regrants: seq<Grant>, database: string, role: string)
      returns (ok: bool, ghost attempt: Attempt)
      modifies server`clock, server`rights
      ensures attempt.Within(revokes, regrants)
      ensures server.RightsOf(database, role) ==
              attempt.Leaves(old(server.RightsOf(database, role)), server.TablesOf(database), revokes, regrants)
      ensures forall d, r :: (d, r) != (database, role) ==> server.RightsOf(d, r) == old(server.RightsOf(d, r))
      ensures ok ==> attempt == Attempt(|revokes|, |regrants|)
      ensures (forall n :: !server.fails(n)) ==> (ok <==> !Rejects(true, regrants))
    {
      var revoked, n := ApplyPerms("revoke", revokes, database, role);
      if revoked.Err? {
        return false, Attempt(n, 0);
      }
      var regranted, m := ApplyPerms("grant", regrants, database, role);
      assert revokes[..n] == revokes;
      return regranted.Ok?, Attempt(n, m);
    }
  }

  // How far one RevokeGrants call got: grants revoked, then grants regranted.
  datatype Attempt = Attempt(revoked: nat, regranted: nat) {
    predicate Within(revokes: seq<Grant>, regrants: seq<Grant>) {
      && revoked <= |revokes| && regranted <= |regrants|
      && (regranted > 0 ==> revoked == |revokes|)
      && !Rejects(true, regrants[..regranted])
    }

    function Leaves(r: Rights, tables: set<string>, revokes: seq<Grant>, regrants: seq<Grant>): Rights
      requires Within(revokes, regrants)
    {
      Batch(Batch(r, false, tables, revokes[..revoked]), true, tables, regrants[..regranted])
    }
  }

  // ---- what a batch means, table by table ----

  // Some grant of the batch that runs decides the right to p on t.
  predicate Decides(isGrant: bool, tables: set<string>, grants: seq<Grant>, p: Priv, t: string) {
    exists g :: g in grants && DecidesOne(isGrant, tables, g, p, t)
  }

  // In terms of the grants' documented meaning only. Revoking create:t, a grant
  // that can never have been made, still withdraws the create privileges.
  predicate DecidesOne(isGrant: bool, tables: set<string>, g: Grant, p: Priv, t: string) {
    if isGrant then CoversOne(Gives, g, p, t) && (Deferrable(g) ==> t in tables)
    else CoversOne(Gives, g, p, t) || (g.CreateOnTable() && p in Gives(Create, true))
  }

  lemma {:induction false} BatchDecides(r: Rights, isGrant: bool, tables: set<string>, grants: seq<Grant>, p: Priv,
                                        t: string)
    requires !Rejects(isGrant, grants)
    ensures Batch(r, isGrant, tables, grants).Holds(p, t) ==
            if Decides(isGrant, tables, grants, p, t) then isGrant else r.Holds(p, t)
  {
    if grants == [] {
    } else {
      var n := |grants| - 1;
      var g, before := grants[n], grants[..n];
      assert grants == before + [g];
      BatchDecides(r, isGrant, tables, before, p, t);
      ActionMeaning(isGrant, tables, g, p, t);
      assert Decides(isGrant, tables, grants, p, t)
             <==> Decides(isGrant, tables, before, p, t) || DecidesOne(isGrant, tables, g, p, t);
    }
  }

  // The privilege strings and scopes of the statements carry exactly the
  // documented meaning of the grant.
  lemma ActionMeaning(isGrant: bool, tables: set<string>, g: Grant, p: Priv, t: string)
    requires !(isGrant && g.CreateOnTable())
    ensures Runs(isGrant, tables, g) && ActionOf(g).Hits(p, t) <==> DecidesOne(isGrant, tables, g, p, t)
  {
    PrivilegesMeaning(g.kind, g.All() || g.kind.Create?, p);
  }

  lemma PrivilegesMeaning(kind: GrantType, all: bool, p: Priv)
    ensures kind.Read? ==> (p in [SELECT] <==> p in Gives(kind, all))
    ensures kind.Create? ==> (p in CREATE_PRIVILEGES <==> p in Gives(kind, all))
    ensures kind.Full? && all ==> (p in FULL_DB_PRIVILEGES <==> p in Gives(kind, all))
    ensures kind.Full? && !all ==> (p in FULL_TABLE_PRIVILEGES <==> p in Gives(kind, all))
  {
  }

  // Revoke-then-regrant from any state: a right is held afterwards exactly when
  // a regrant that could run covers it, or it was held and no revoke covers it.
  lemma RevokeThenRegrant(r: Rights, tables: set<string>, revokes: seq<Grant>, regrants: seq<Grant>, p: Priv, t: string)
    requires !Rejects(true, regrants)
    ensures Batch(Batch(r, false, tables, revokes), true, tables, regrants).Holds(p, t)
            <==> Decides(true, tables, regrants, p, t) || (r.Holds(p, t) && !Decides(false, tables, revokes, p, t))
  {
    BatchDecides(r, false, tables, revokes, p, t);
    BatchDecides(Batch(r, false, tables, revokes), true, tables, regrants, p, t);
  }

  // A right a kept grant covers is lost exactly here: a revoke covers it too,
  // and the kept grants name the table one by one while it does not exist.
  predicate Lost(tables: set<string>, revokes: seq<Grant>, regrants: seq<Grant>, p: Priv, t: string) {
    && t !in tables
    && Decides(false, tables, revokes, p, t)
    && (exists g :: g in regrants && CoversOne(Gives, g, p, t))
    && forall g :: g in regrants && CoversOne(Gives, g, p, t) ==> Deferrable(g)
  }

  ghost predicate Exact(r: Rights, grants: seq<Grant>) {
    forall p, t :: r.Holds(p, t) <==> Covers(Gives, grants, p, t)
  }

  // From a state that is exact for R + K, revoking R and regranting K never
  // leaves more than K, and leaves exactly K if and only if nothing is Lost:
  // no existing table ever loses anything, whatever the grants' overlaps.
  lemma RevokeIsExact(r: Rights, tables: set<string>, revokes: seq<Grant>, regrants: seq<Grant>)
    requires Exact(r, revokes + regrants) && !Rejects(true, regrants)
    ensures var after := Batch(Batch(r, false, tables, revokes), true, tables, regrants);
            && (forall p, t :: after.Holds(p, t) ==> Covers(Gives, regrants, p, t))
            && (forall p, t :: (after.Holds(p, t) <==> Covers(Gives, regrants, p, t))
                               <==> !Lost(tables, revokes, regrants, p, t))
            && (Exact(after, regrants) <==> forall p, t :: !Lost(tables, revokes, regrants, p, t))
  {
    var after := Batch(Batch(r, false, tables, revokes), true, tables, regrants);
    forall p, t
      ensures after.Holds(p, t) ==> Covers(Gives, regrants, p, t)
      ensures (after.Holds(p, t) <==> Covers(Gives, regrants, p, t)) <==> !Lost(tables, revokes, regrants, p, t)
    {
      RevokeThenRegrant(r, tables, revokes, regrants, p, t);
      CoversConcat(revokes, regrants, p, t);
      assert Covers(Gives, revokes, p, t) ==> Decides(false, tables, revokes, p, t);
    }
  }

  lemma CoversConcat(a: seq<Grant>, b: seq<Grant>, p: Priv, t: string)
    ensures Covers(Gives, a + b, p, t) <==> Covers(Gives, a, p, t) || Covers(Gives, b, p, t)
  {
  }

  // Once the targets exist, granting the kept grants again makes the state exact
  // from any state that holds no more than they cover.
  lemma ReconcileHeals(r: Rights, tables: set<string>, grants: seq<Grant>)
    requires !Rejects(true, grants)
    requires forall p, t :: r.Holds(p, t) ==> Covers(Gives, grants, p, t)
    requires forall g :: g in grants && Deferrable(g) ==> g.target in tables
    ensures Exact(Batch(r, true, tables, grants), grants)
  {
    forall p, t
      ensures Batch(r, true, tables, grants).Holds(p, t) <==> Covers(Gives, grants, p, t)
    {
      BatchDecides(r, true, tables, grants, p, t);
      if Covers(Gives, grants, p, t) {
        var g :| g in grants && CoversOne(Gives, g, p, t);
        assert DecidesOne(true, tables, g, p, t);
      }
    }
  }

  // ---- failed attempts ----

  function AfterAttempts(r: Rights, tables: set<string>, revokes: seq<Grant>, regrants: seq<Grant>,
                         attempts: seq<Attempt>): Rights
    requires forall a :: a in attempts ==> a.Within(revokes, regrants)
  {
    if attempts == [] then r
    else
      var n := |attempts| - 1;
      attempts[n].Leaves(AfterAttempts(r, tables, revokes, regrants, attempts[..n]), tables, revokes, regrants)
  }

  // However many attempts failed part-way, and wherever they failed, one that
  // completes leaves the rights a first complete attempt would have left.
  lemma {:induction false} RetryConverges(r: Rights, tables: set<string>, revokes: seq<Grant>, regrants: seq<Grant>,
                                          attempts: seq<Attempt>, p: Priv, t: string)
    requires forall a :: a in attempts ==> a.Within(revokes, regrants)
    requires !Rejects(true, regrants)
    ensures var failed := AfterAttempts(r, tables, revokes, regrants, attempts);
            Batch(Batch(failed, false, tables, revokes), true, tables, regrants).Holds(p, t)
            == Batch(Batch(r, false, tables, revokes), true, tables, regrants).Holds(p, t)
  {
    if attempts == [] {
    } else {
      var n := |attempts| - 1;
      var a, before := attempts[n], AfterAttempts(r, tables, revokes, regrants, attempts[..n]);
      RetryConverges(r, tables, revokes, regrants, attempts[..n], p, t);
      RevokeThenRegrant(before, tables, revokes, regrants, p, t);
      RevokeThenRegrant(a.Leaves(before, tables, revokes, regrants), tables, revokes, regrants, p, t);
      RevokeThenRegrant(before, tables, revokes[..a.revoked], regrants[..a.regranted], p, t);
      PrefixDecides(true, tables, regrants, a.regranted, p, t);
      PrefixDecides(false, tables, revokes, a.revoked, p, t);
    }
  }

  lemma PrefixDecides(isGrant: bool, tables: set<string>, grants: seq<Grant>, n: nat, p: Priv, t: string)
    requires n <= |grants|
    ensures Decides(isGrant, tables, grants[..n], p, t) ==> Decides(isGrant, tables, grants, p, t)
  {
  }

  // ---- runs ----

  // `live` is what has been granted since it was last successfully revoked.
  datatype World = World(tables: set<string>, rights: Rights, live: set<Grant>)

  // The base account creates and drops tables between the provider's batches;
  // a batch may fail after any number of its grants.
  datatype Step =
    | CreateTable(t: string)
    | DropTable(t: string)
    | GrantBatch(grants: seq<Grant>, reached: nat)
    | RevokeBatch(revokes: seq<Grant>, regrants: seq<Grant>, attempt: Attempt)
  {
    predicate Possible() {
      match this
      case GrantBatch(grants, n) => n <= |grants| && !Rejects(true, grants[..n])
      case RevokeBatch(revokes, regrants, attempt) => attempt.Within(revokes, regrants)
      case _ => true
    }

    // The grants this step makes.
    function Granting(): seq<Grant>
      requires Possible()
    {
      match this
      case GrantBatch(grants, n) => grants[..n]
      case RevokeBatch(_, regrants, attempt) => regrants[..attempt.regranted]
      case _ => []
    }

    function Take(w: World): World
      requires Possible()
    {
      match this
      case CreateTable(t) => w.(tables := w.tables + {t})
      case DropTable(t) => w.(tables := w.tables - {t})
      case GrantBatch(grants, n) =>
        w.(rights := Batch(w.rights, true, w.tables, grants[..n]), live := w.live + set g | g in grants[..n])
      case RevokeBatch(revokes, regrants, attempt) =>
        w.(rights := attempt.Leaves(w.rights, w.tables, revokes, regrants),
           live := w.live - (set g | g in revokes[..attempt.revoked]) + set g | g in Granting())
    }
  }

  function Run(w: World, steps: seq<Step>): World
    requires forall s :: s in steps ==> s.Possible()
  {
    if steps == [] then w else steps[|steps| - 1].Take(Run(w, steps[..|steps| - 1]))
  }

  // Nothing is held that no live grant covers, on any table, existing or not.
  ghost predicate Accounted(w: World) {
    forall p, t :: w.rights.Holds(p, t) ==> exists g :: g in w.live && CoversOne(Gives, g, p, t)
  }

  lemma {:induction false} AccountedAlways(w: World, steps: seq<Step>)
    requires Accounted(w) && forall s :: s in steps ==> s.Possible()
    ensures Accounted(Run(w, steps))
  {
    if steps == [] {
    } else {
      var n := |steps| - 1;
      AccountedAlways(w, steps[..n]);
      AccountedStep(Run(w, steps[..n]), steps[n]);
    }
  }

  lemma AccountedStep(w: World, s: Step)
    requires Accounted(w) && s.Possible()
    ensures Accounted(s.Take(w))
  {
    var w' := s.Take(w);
    forall p, t | w'.rights.Holds(p, t)
      ensures exists g :: g in w'.live && CoversOne(Gives, g, p, t)
    {
      StepDecides(w, s, p, t);
      if s.RevokeBatch? && !Decides(true, w.tables, s.Granting(), p, t) {
        var g :| g in w.live && CoversOne(Gives, g, p, t);
        if g in s.revokes[..s.attempt.revoked] {
          assert DecidesOne(false, w.tables, g, p, t);
        }
        assert g in w'.live;
      }
    }
  }

  lemma StepDecides(w: World, s: Step, p: Priv, t: string)
    requires s.Possible()
    ensures s.Take(w).rights.Holds(p, t) <==>
            || Decides(true, w.tables, s.Granting(), p, t)
            || (w.rights.Holds(p, t) &&
                (s.RevokeBatch? ==> !Decides(false, w.tables, s.revokes[..s.attempt.revoked], p, t)))
  {
    match s {
      case GrantBatch(grants, n) => BatchDecides(w.rights, true, w.tables, grants[..n], p, t);
      case RevokeBatch(revokes, regrants, a) =>
        RevokeThenRegrant(w.rights, w.tables, revokes[..a.revoked], regrants[..a.regranted], p, t);
      case _ =>
    }
  }

  // A right is lost on the way: full:* and read:t are granted while t exists, t is
  // dropped, and full:* is revoked with read:t kept.
  lemma LossHappens() returns (steps: seq<Step>, w: World)
    ensures (forall s :: s in steps ==> s.Possible()) && w == Run(World({}, NO_RIGHTS, {}), steps)
    ensures Exact(w.rights, [Grant(Full, "*")] + [Grant(Read, "t")])
    ensures Lost(w.tables, [Grant(Full, "*")], [Grant(Read, "t")], SELECT, "t")
    ensures !Exact(Batch(Batch(w.rights, false, w.tables, [Grant(Full, "*")]), true, w.tables, [Grant(Read, "t")]),
                   [Grant(Read, "t")])
  {
    var grants := [Grant(Full, "*")] + [Grant(Read, "t")];
    var create, grant, drop := CreateTable("t"), GrantBatch(grants, 2), DropTable("t");
    assert grant.Possible() by { assert grants[..2] == grants; }
    steps := [create, grant, drop];
    w := Run(World({}, NO_RIGHTS, {}), steps);
    ThreeSteps(World({}, NO_RIGHTS, {}), create, grant, drop);
    var tables := create.Take(World({}, NO_RIGHTS, {})).tables;
    assert tables == {"t"} && w.tables == {};
    assert w.rights == Batch(NO_RIGHTS, true, {"t"}, grants) by { assert grants[..2] == grants; }
    ReconcileHeals(NO_RIGHTS, {"t"}, grants);
    LossWithoutTheTable(w.rights);
  }

  lemma ThreeSteps(w: World, a: Step, b: Step, c: Step)
    requires a.Possible() && b.Possible() && c.Possible()
    ensures Run(w, [a, b, c]) == c.Take(b.Take(a.Take(w)))
  {
    assert [a, b, c][..2] == [a, b] && [a, b][..1] == [a] && [a][..0] == [];
    assert Run(w, [a]) == a.Take(Run(w, []));
    assert Run(w, [a, b]) == b.Take(Run(w, [a]));
  }

  lemma LossWithoutTheTable(r: Rights)
    requires Exact(r, [Grant(Full, "*")] + [Grant(Read, "t")])
    ensures Lost({}, [Grant(Full, "*")], [Grant(Read, "t")], SELECT, "t")
    ensures !Exact(Batch(Batch(r, false, {}, [Grant(Full, "*")]), true, {}, [Grant(Read, "t")]), [Grant(Read, "t")])
  {
    var full, read := Grant(Full, "*"), Grant(Read, "t");
    assert full in [full] && read in [read];
    assert CoversOne(Gives, read, SELECT, "t") && DecidesOne(false, {}, full, SELECT, "t");
    RevokeIsExact(r, {}, [full], [read]);
  }

  // No resurrection. Once a completed revoke covers a right that none of its
  // regrants covers, the right stays absent at every later point of every run in
  // which no step grants it anew, however often the table is dropped and
  // recreated in between and whether or not it existed when it was revoked.
  lemma {:induction false} NoResurrection(w: World, revoke: Step, later: seq<Step>, p: Priv, t: string)
    requires revoke.RevokeBatch? && revoke.Possible() && revoke.attempt.revoked == |revoke.revokes|
    requires Covers(Gives, revoke.revokes, p, t) && !Covers(Gives, revoke.regrants, p, t)
    requires forall s :: s in later ==> s.Possible() && !Covers(Gives, s.Granting(), p, t)
    ensures !Run(revoke.Take(w), later).rights.Holds(p, t)
  {
    if later == [] {
      assert revoke.revokes[..|revoke.revokes|] == revoke.revokes;
      assert Decides(false, w.tables, revoke.revokes, p, t);
      StepDecides(w, revoke, p, t);
    } else {
      var n := |later| - 1;
      NoResurrection(w, revoke, later[..n], p, t);
      StepDecides(Run(revoke.Take(w), later[..n]), later[n], p, t);
    }
  }

  // ---- the batch contract of the deferring loop ----

  // In grant mode the result keeps the order of the input and drops only grants
  // of unknown type and grants on one table that does not exist; every grant it
  // reports is fully in force when the batch ends.
  lemma DoneIsInForce(r: Rights, tables: set<string>, grants: seq<Grant>, g: Grant)
    requires !Rejects(true, grants) && g in grants
    ensures g !in Done(true, tables, grants) <==>
            g.kind.Other? || (g.kind in {Read, Full} && g.target != "*" && g.target !in tables)
    ensures g in Done(true, tables, grants) ==>
              forall p, t :: CoversOne(Gives, g, p, t) ==> Batch(r, true, tables, grants).Holds(p, t)
  {
    SelectIn(g => Runs(true, tables, g), grants, g);
    if g in Done(true, tables, grants) {
      forall p, t | CoversOne(Gives, g, p, t)
        ensures Batch(r, true, tables, grants).Holds(p, t)
      {
        BatchDecides(r, true, tables, grants, p, t);
        assert DecidesOne(true, tables, g, p, t);
      }
    }
  }
}
