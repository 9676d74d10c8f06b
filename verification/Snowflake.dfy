/** Snowflake grants: ON ALL for current objects, ON FUTURE for later ones, one shared schema USAGE. */
module Snowflake {
  import opened Grants
  import opened EntryAlgebra
  import opened Names

  datatype Priv = SELECT | INSERT | UPDATE | DELETE | TRUNCATE | REFERENCES | USAGE
                | CREATE_TABLE | CREATE_VIEW | CREATE_SEQUENCE

  const FULL_TABLE_PRIVILEGES: set<Priv> := {SELECT, INSERT, UPDATE, DELETE, TRUNCATE, REFERENCES}
  const CREATE_PRIVILEGES: set<Priv> := {CREATE_TABLE, CREATE_VIEW, CREATE_SEQUENCE}

  datatype Class = TABLES | VIEWS | SEQUENCES

  // ---- names ----

  predicate PlainChar(c: char) {
    'A' <= c <= 'Z' || 'a' <= c <= 'z' || c == '_'
  }

  // An identifier that needs no quotes.
  predicate Plain(s: string) {
    |s| > 0 && PlainChar(s[0]) && forall i :: 1 <= i < |s| ==> PlainChar(s[i]) || '0' <= s[i] <= '9' || s[i] == '$'
  }

  // The name the server is given between the quotes: plain names are uppercased.
  function Quoted(s: string): string {
    if Plain(s) then Upper(s) else s
  }

  datatype Object = Object(class': Class, name: string)

  datatype Catalogue = Catalogue(objects: set<Object>) {
    // Tables before views; the exact name before its uppercase form.
    function Resolve(target: string): Option<Object> {
      if Object(TABLES, target) in objects then Some(Object(TABLES, target))
      else if Object(TABLES, Upper(target)) in objects then Some(Object(TABLES, Upper(target)))
      else if Object(VIEWS, target) in objects then Some(Object(VIEWS, target))
      else if Object(VIEWS, Upper(target)) in objects then Some(Object(VIEWS, Upper(target)))
      else None
    }

    // The object a statement about the target ends up naming.
    function Addressed(target: string): Option<Object> {
      match Resolve(target)
      case None => None
      case Some(o) => Some(Object(o.class', Quoted(o.name)))
    }

    function Effects(): Stmt -> set<Entry> {
      s => Effect(this, s)
    }
  }

  // ---- the server's grants to one role in one schema ----

  datatype Entry = OnSchema(p: Priv) | OnObject(o: Object, p: Priv) | OnFuture(class': Class, p: Priv)

  datatype Scope = Schema | AllIn(class': Class) | FutureIn(class': Class) | One(o: Object)

  datatype Stmt = Stmt(privs: set<Priv>, scope: Scope)

  function Effect(cat: Catalogue, s: Stmt): set<Entry> {
    match s.scope
    case Schema => set p | p in s.privs :: OnSchema(p)
    case AllIn(c) => set o, p | o in cat.objects && o.class' == c && p in s.privs :: OnObject(o, p)
    case FutureIn(c) => set p | p in s.privs :: OnFuture(c, p)
    case One(o) => set p | p in s.privs :: OnObject(o, p)
  }

  // A new object receives the future grants of its class; dropping an object
  // drops the grants on it.
  function Created(entries: set<Entry>, o: Object): set<Entry> {
    entries + set e | e in entries && e.OnFuture? && e.class' == o.class' :: OnObject(o, e.p)
  }

  function Dropped(entries: set<Entry>, o: Object): set<Entry> {
    set e | e in entries && !(e.OnObject? && e.o == o)
  }

  class Server {
    const fails: nat -> bool
    var clock: nat
    var cat: Catalogue
    var granted: map<string, set<Entry>>

    constructor (fails: nat -> bool)
      ensures this.fails == fails && cat == Catalogue({}) && granted == map[]
    {
      this.fails := fails;
      clock, cat, granted := 0, Catalogue({}), map[];
    }

    function EntriesOf(role: string): set<Entry>
      reads this
    {
      if role in granted then granted[role] else {}
    }

    // A statement about one object is refused when there is no such object.
    method Exec(isGrant: bool, s: Stmt, role: string) returns (ok: bool)
      modifies this`clock, this`granted
      ensures ok <==> !fails(old(clock)) && (s.scope.One? ==> s.scope.o in cat.objects)
      ensures EntriesOf(role) == if ok then EntryAlgebra.Exec(isGrant, old(EntriesOf(role)), cat.Effects()(s))
                                 else old(EntriesOf(role))
      ensures forall r :: r != role ==> EntriesOf(r) == old(EntriesOf(r))
    {
      ok := !fails(clock) && (s.scope.One? ==> s.scope.o in cat.objects);
      clock := clock + 1;
      if ok {
        granted := granted[role := EntryAlgebra.Exec(isGrant, EntriesOf(role), Effect(cat, s))];
      }
    }

    // An object of the class has the name, as it is or uppercase.
    predicate Exists(c: Class, target: string)
      reads this
    {
      Object(c, target) in cat.objects || Object(c, Upper(target)) in cat.objects
    }

    // SHOW TABLES, then SHOW VIEWS when no table matched.
    method ResolveTableOrView(target: string) returns (r: Result<Option<Object>>)
      modifies this`clock
      ensures r.Ok? ==> r.value == cat.Resolve(target)
      ensures r.Ok? ==> match r.value
                        case None => !Exists(TABLES, target) && !Exists(VIEWS, target)
                        case Some(o) =>
                          && o in cat.objects && o.name in {target, Upper(target)}
                          && (o.class'.TABLES? || (o.class'.VIEWS? && !Exists(TABLES, target)))
                          && (o.name != target ==> Object(o.class', target) !in cat.objects)
      ensures (forall n :: !fails(n)) ==> r.Ok?
    {
      for i := 0 to 2
        invariant i > 0 ==> Object(TABLES, target) !in cat.objects && Object(TABLES, Upper(target)) !in cat.objects
        invariant i > 1 ==> Object(VIEWS, target) !in cat.objects && Object(VIEWS, Upper(target)) !in cat.objects
      {
        var class' := if i == 0 then TABLES else VIEWS;
        if fails(clock) {
          clock := clock + 1;
          return Err;
        }
        clock := clock + 1;
        if Object(class', target) in cat.objects {
          return Ok(Some(Object(class', target)));
        }
        if Object(class', Upper(target)) in cat.objects {
          return Ok(Some(Object(class', Upper(target))));
        }
      }
      r := Ok(None);
    }
  }

  // ---- the batch as a list of statements ----

  predicate Runs(cat: Catalogue, g: Grant) {
    !g.kind.Other? && (Deferrable(g) ==> cat.Resolve(g.target).Some?)
  }

  // The privileges each grant type carries on each class of object.
  function ClassPrivs(kind: GrantType, c: Class): set<Priv> {
    match (kind, c)
    case (Read, TABLES) => {SELECT}
    case (Read, VIEWS) => {SELECT}
    case (Full, TABLES) => FULL_TABLE_PRIVILEGES
    case (Full, VIEWS) => {SELECT}
    case (Full, SEQUENCES) => {USAGE}
    case _ => {}
  }

  function ClassStmts(classes: seq<(set<Priv>, Class)>): seq<Stmt> {
    if classes == [] then []
    else
      var n := |classes| - 1;
      var (privs, c) := classes[n];
      ClassStmts(classes[..n]) + if privs == {} then [] else [Stmt(privs, AllIn(c)), Stmt(privs, FutureIn(c))]
  }

  function SchemaWideStmts(classes: seq<(set<Priv>, Class)>): seq<Stmt> {
    [Stmt({USAGE}, Schema)] + ClassStmts(classes)
  }

  const READ_CLASSES: seq<(set<Priv>, Class)> := [({SELECT}, TABLES), ({SELECT}, VIEWS), ({}, SEQUENCES)]
  const FULL_CLASSES: seq<(set<Priv>, Class)> := [(FULL_TABLE_PRIVILEGES, TABLES), ({SELECT}, VIEWS),
                                                  ({USAGE}, SEQUENCES)]

  function StmtsOf(cat: Catalogue, g: Grant): seq<Stmt> {
    if Deferrable(g) then
      match cat.Addressed(g.target)
      case None => []
      case Some(o) => [Stmt({USAGE}, Schema), Stmt(ClassPrivs(g.kind, o.class'), One(o))]
    else
      match g.kind
      case Read => SchemaWideStmts(READ_CLASSES)
      case Create => [Stmt({USAGE} + CREATE_PRIVILEGES, Schema)]
      case Full => SchemaWideStmts(FULL_CLASSES) + [Stmt(CREATE_PRIVILEGES, Schema)]
      case Other(_) => []
  }

  function Planner(cat: Catalogue): Grant -> seq<Stmt> {
    g => StmtsOf(cat, g)
  }

  function Plan(cat: Catalogue, grants: seq<Grant>): seq<Stmt> {
    PlanAll(Planner(cat), grants)
  }

  function Runner(cat: Catalogue): Grant -> bool {
    g => Runs(cat, g)
  }

  function Done(cat: Catalogue, grants: seq<Grant>): seq<Grant> {
    Select(Runner(cat), grants)
  }

  // The statement about the target names an object that exists.
  predicate Addressable(cat: Catalogue, g: Grant) {
    Deferrable(g) ==> match cat.Addressed(g.target) case None => true case Some(o) => o in cat.objects
  }

  predicate AllAddressable(cat: Catalogue, grants: seq<Grant>) {
    forall g :: g in grants ==> Addressable(cat, g)
  }

  lemma AddressableStep(cat: Catalogue, grants: seq<Grant>, i: nat)
    requires i < |grants|
    ensures AllAddressable(cat, grants[..i + 1]) <==> AllAddressable(cat, grants[..i]) && Addressable(cat, grants[i])
    ensures !Addressable(cat, grants[i]) ==> !AllAddressable(cat, grants)
  {
    assert grants[..i + 1] == grants[..i] + [grants[i]];
  }

  // ---- the provider ----

  class Binding {
    const server: Server

    constructor (server: Server)
      ensures this.server == server
    {
      this.server := server;
    }

    // ALL objects of the class, then FUTURE ones: the statements from the n-th on.
    method NowAndInFuture(isGrant: bool, privs: set<Priv>, c: Class, role: string,
                          ghost start: set<Entry>, ghost stmts: seq<Stmt>, ghost n: nat)
      returns (ok: bool, ghost n': nat)
      requires n + 2 <= |stmts| && stmts[n] == Stmt(privs, AllIn(c)) && stmts[n + 1] == Stmt(privs, FutureIn(c))
      requires server.EntriesOf(role) == ExecAll(isGrant, server.cat.Effects(), start, stmts[..n])
      modifies server`clock, server`granted
      ensures n <= n' <= n + 2 && (ok ==> n' == n + 2)
      ensures server.EntriesOf(role) == ExecAll(isGrant, server.cat.Effects(), start, stmts[..n'])
      ensures (forall k :: !server.fails(k)) ==> ok
      ensures forall r :: r != role ==> server.EntriesOf(r) == old(server.EntriesOf(r))
    {
      n' := n;
      ok := server.Exec(isGrant, Stmt(privs, AllIn(c)), role);
      if !ok { return; }
      ExecAllStep(isGrant, server.cat.Effects(), start, stmts, n);
      n' := n + 1;
      ok := server.Exec(isGrant, Stmt(privs, FutureIn(c)), role);
      if !ok { return; }
      ExecAllStep(isGrant, server.cat.Effects(), start, stmts, n + 1);
      n' := n + 2;
    }

    method SchemaWide(isGrant: bool, classes: seq<(set<Priv>, Class)>, role: string) returns (ok: bool, ghost n: nat)
      modifies server`clock, server`granted
      ensures var stmts := SchemaWideStmts(classes);
              && n <= |stmts| && (ok ==> n == |stmts|)
              && server.EntriesOf(role) ==
                 ExecAll(isGrant, server.cat.Effects(), old(server.EntriesOf(role)), stmts[..n])
      ensures (forall k :: !server.fails(k)) ==> ok
      ensures forall r :: r != role ==> server.EntriesOf(r) == old(server.EntriesOf(r))
    {
      ghost var start, stmts := server.EntriesOf(role), SchemaWideStmts(classes);
      ok := server.Exec(isGrant, Stmt({USAGE}, Schema), role);
      if !ok { return false, 0; }
      ExecAllStep(isGrant, server.cat.Effects(), start, stmts, 0);
      ok, n := EachClass(isGrant, classes, role, start);
    }

    // The loop over the classes: an empty privilege list skips its class.
    method EachClass(isGrant: bool, classes: seq<(set<Priv>, Class)>, role: string, ghost start: set<Entry>)
      returns (ok: bool, ghost n: nat)
      requires server.EntriesOf(role) ==
               ExecAll(isGrant, server.cat.Effects(), start, SchemaWideStmts(classes)[..1])
      modifies server`clock, server`granted
      ensures var stmts := SchemaWideStmts(classes);
              && n <= |stmts| && (ok ==> n == |stmts|)
              && server.EntriesOf(role) == ExecAll(isGrant, server.cat.Effects(), start, stmts[..n])
      ensures (forall k :: !server.fails(k)) ==> ok
      ensures forall r :: r != role ==> server.EntriesOf(r) == old(server.EntriesOf(r))
    {
      ghost var stmts := SchemaWideStmts(classes);
      ok, n := true, 1;
      for i := 0 to |classes|
        invariant ok && n == Before(classes, i) <= |stmts|
        invariant server.EntriesOf(role) == ExecAll(isGrant, server.cat.Effects(), start, stmts[..n])
        invariant forall r :: r != role ==> server.EntriesOf(r) == old(server.EntriesOf(r))
      {
        ClassStmtsAt(classes, i);
        if classes[i].0 != {} {
          ok, n := NowAndInFuture(isGrant, classes[i].0, classes[i].1, role, start, stmts, n);
          if !ok { return; }
        }
      }
      assert classes[..|classes|] == classes;
    }

    method TableSpecific(isGrant: bool, g: Grant, role: string) returns (r: Result<bool>, ghost n: nat)
      requires Deferrable(g)
      modifies server`clock, server`granted
      ensures var stmts := StmtsOf(server.cat, g);
              && n <= |stmts| && (r.Ok? ==> n == |stmts|)
              && server.EntriesOf(role) ==
                 ExecAll(isGrant, server.cat.Effects(), old(server.EntriesOf(role)), stmts[..n])
      ensures r.Ok? ==> r.value == Runs(server.cat, g) && Addressable(server.cat, g)
      ensures (forall k :: !server.fails(k)) ==> (r.Ok? <==> Addressable(server.cat, g))
      ensures forall r :: r != role ==> server.EntriesOf(r) == old(server.EntriesOf(r))
    {
      ghost var effects, start, stmts := server.cat.Effects(), server.EntriesOf(role), StmtsOf(server.cat, g);
      n := 0;
      var resolved := server.ResolveTableOrView(g.target);
      if resolved.Err? { return Err, 0; }
      if resolved.value.None? { return Ok(false), 0; }
      var o := resolved.value.value;
      var privs := if o.class'.VIEWS? then {SELECT} else if g.kind.Read? then {SELECT} else FULL_TABLE_PRIVILEGES;
      var ok := server.Exec(isGrant, Stmt({USAGE}, Schema), role);
      if !ok { return Err, 0; }
      ExecAllStep(isGrant, effects, start, stmts, 0);
      ok := server.Exec(isGrant, Stmt(privs, One(Object(o.class', Quoted(o.name)))), role);
      if !ok { return Err, 1; }
      assert stmts[1] == Stmt(privs, One(Object(o.class', Quoted(o.name))));
      ExecAllStep(isGrant, effects, start, stmts, 1);
      return Ok(true), 2;
    }

    // One grant of the batch; `n` of its statements were executed.
    method ApplyGrant(isGrant: bool, g: Grant, role: string) returns (r: Result<bool>, ghost n: nat)
      modifies server`clock, server`granted
      ensures var stmts := StmtsOf(server.cat, g);
              && n <= |stmts| && (r.Ok? ==> n == |stmts|)
              && server.EntriesOf(role) ==
                 ExecAll(isGrant, server.cat.Effects(), old(server.EntriesOf(role)), stmts[..n])
      ensures r.Ok? ==> r.value == Runs(server.cat, g) && Addressable(server.cat, g)
      ensures (forall k :: !server.fails(k)) ==> (r.Ok? <==> Addressable(server.cat, g))
      ensures forall r :: r != role ==> server.EntriesOf(r) == old(server.EntriesOf(r))
    {
      ghost var effects, start, stmts := server.cat.Effects(), server.EntriesOf(role), StmtsOf(server.cat, g);
      n := 0;
      if Deferrable(g) {
        r, n := TableSpecific(isGrant, g, role);
        return;
      }
      match g.kind {
        case Read =>
          var ok, k := SchemaWide(isGrant, READ_CLASSES, role);
          return if ok then Ok(true) else Err, k;
        case Create =>
          var ok := server.Exec(isGrant, Stmt({USAGE} + CREATE_PRIVILEGES, Schema), role);
          if !ok { return Err, 0; }
          ExecAllStep(isGrant, effects, start, stmts, 0);
          return Ok(true), 1;
        case Full =>
          var ok, k := SchemaWide(isGrant, FULL_CLASSES, role);
          assert stmts[..k] == SchemaWideStmts(FULL_CLASSES)[..k];
          if !ok { return Err, k; }
          ok := server.Exec(isGrant, Stmt(CREATE_PRIVILEGES, Schema), role);
          if !ok { return Err, k; }
          ExecAllStep(isGrant, effects, start, stmts, k);
          return Ok(true), k + 1;
        case Other(_) =>
          return Ok(false), 0;
      }
    }

    // `ran` is the part of the planned statements that was executed.
    method ApplyPerms(operation: string, grants: seq<Grant>, role: string)
      returns (r: Result<seq<Grant>>, ghost ran: seq<Stmt>)
      modifies server`clock, server`granted
      ensures operation !in {"grant", "revoke"} ==> r == Err && ran == []
      ensures ran <= Plan(server.cat, grants)
      ensures server.EntriesOf(role)
              == ExecAll(operation == "grant", server.cat.Effects(), old(server.EntriesOf(role)), ran)
      ensures forall r :: r != role ==> server.EntriesOf(r) == old(server.EntriesOf(r))
      ensures r.Ok? ==> ran == Plan(server.cat, grants) && r.value == Done(server.cat, grants)
      ensures operation in {"grant", "revoke"} && (forall n :: !server.fails(n)) ==>
              (r.Ok? <==>
               !Rejects(operation == "grant", grants) && AllAddressable(server.cat, grants))
    {
      ran := [];
      if operation != "grant" && operation != "revoke" {
        return Err, [];
      }
      var isGrant := operation == "grant";
      ghost var start, effects := server.EntriesOf(role), server.cat.Effects();
      ghost var plan, keep := Planner(server.cat), Runner(server.cat);
      var done := [];
      ProgressStart(isGrant, effects, start, plan, keep, grants);
      var i := 0;
      while i < |grants|
        invariant 0 <= i <= |grants|
        invariant Progress(isGrant, effects, start, plan, keep, grants, i, done, ran, server.EntriesOf(role))
        invariant forall r :: r != role ==> server.EntriesOf(r) == old(server.EntriesOf(r))
        invariant !Rejects(isGrant, grants[..i])
        invariant AllAddressable(server.cat, grants[..i])
      {
        var g := grants[i];
        if isGrant && g.CreateOnTable() {
          return Err, ran;
        }
        ghost var held := server.EntriesOf(role);
        var applied, n := ApplyGrant(isGrant, g, role);
        assert plan(g) == StmtsOf(server.cat, g) && keep(g) == Runs(server.cat, g);
        if applied.Err? {
          ProgressPart(isGrant, effects, start, plan, keep, grants, i, done, ran, held, n);
          return Err, ran + plan(g)[..n];
        }
        assert plan(g)[..n] == plan(g);
        ProgressStep(isGrant, effects, start, plan, keep, grants, i, done, ran, held);
        RejectsStep(isGrant, grants, i);
        AddressableStep(server.cat, grants, i);
        ran := ran + plan(g);
        if applied.value {
          done := done + [g];
        }
        i := i + 1;
      }
      ProgressEnd(isGrant, effects, start, plan, keep, grants, done, ran, server.EntriesOf(role));
      assert grants[..i] == grants;
      r := Ok(done);
    }

    // RevokeThenRegrant: the revoke batch, then the grant batch.
    method RevokeGrants(revokes: seq<Grant>, regrants: seq<Grant>, role: string)
      returns (ok: bool, ghost attempt: Attempt)
      modifies server`clock, server`granted
      ensures var rs, ks, effects := Plan(server.cat, revokes), Plan(server.cat, regrants), server.cat.Effects();
              && attempt.Within(rs, ks)
              && server.EntriesOf(role) == attempt.Leaves(effects, effects, old(server.EntriesOf(role)), rs, ks)
              && (ok ==> attempt == Complete(rs, ks))
      ensures forall r :: r != role ==> server.EntriesOf(r) == old(server.EntriesOf(r))
      ensures (forall n :: !server.fails(n)) ==>
              (ok <==>
               && !Rejects(true, regrants)
               && AllAddressable(server.cat, revokes) && AllAddressable(server.cat, regrants))
    {
      ghost var rs, ks := Plan(server.cat, revokes), Plan(server.cat, regrants);
      var revoked, rn := ApplyPerms("revoke", revokes, role);
      assert rs[..|rn|] == rn;
      if revoked.Err? {
        return false, Attempt(|rn|, 0);
      }
      var regranted, kn := ApplyPerms("grant", regrants, role);
      assert ks[..|kn|] == kn;
      return regranted.Ok?, Attempt(|rn|, |kn|);
    }
  }

  // How many of the statements come before those of the i-th class.
  function Before(classes: seq<(set<Priv>, Class)>, i: nat): nat
    requires i <= |classes|
  {
    |SchemaWideStmts(classes[..i])|
  }

  lemma ClassStmtsAt(classes: seq<(set<Priv>, Class)>, i: nat)
    requires i < |classes|
    ensures var (privs, c), n, stmts := classes[i], Before(classes, i), SchemaWideStmts(classes);
            && Before(classes, i + 1) == n + (if privs == {} then 0 else 2) <= |stmts|
            && (privs != {} ==> stmts[n] == Stmt(privs, AllIn(c)) && stmts[n + 1] == Stmt(privs, FutureIn(c)))
  {
    ClassStmtsPrefix(classes, i + 1);
    assert classes[..i + 1][..i] == classes[..i];
  }

  lemma {:induction false} ClassStmtsPrefix(classes: seq<(set<Priv>, Class)>, n: nat)
    requires n <= |classes|
    ensures ClassStmts(classes[..n]) <= ClassStmts(classes)
  {
    if n == |classes| {
      assert classes[..n] == classes;
    } else {
      var last := |classes| - 1;
      ClassStmtsPrefix(classes[..last], n);
      assert classes[..last][..n] == classes[..n];
    }
  }

  // ---- what the entries mean ----

  // The entries a grant is owed when it runs, from its documented meaning. Every
  // kind of grant carries the schema's USAGE.
  predicate Owes(cat: Catalogue, g: Grant, e: Entry) {
    match e
    case OnSchema(p) => p.USAGE? || (p in CREATE_PRIVILEGES && (g.kind.Create? || (g.kind.Full? && g.All())))
    case OnFuture(c, p) => !Deferrable(g) && p in ClassPrivs(g.kind, c)
    case OnObject(o, p) =>
      && p in ClassPrivs(g.kind, o.class')
      && if Deferrable(g) then cat.Addressed(g.target) == Some(o) else o in cat.objects
  }

  ghost predicate Owed(cat: Catalogue, grants: seq<Grant>, e: Entry) {
    exists g :: g in grants && Runs(cat, g) && Owes(cat, g, e)
  }

  // A class's pair of statements: its privileges now and in future.
  predicate ClassCovers(cat: Catalogue, k: (set<Priv>, Class), e: Entry) {
    match e
    case OnSchema(_) => false
    case OnFuture(c, p) => c == k.1 && p in k.0
    case OnObject(o, p) => o.class' == k.1 && p in k.0 && o in cat.objects
  }

  lemma {:induction false} ClassStmtsMean(cat: Catalogue, classes: seq<(set<Priv>, Class)>, e: Entry)
    ensures Mentions(cat.Effects(), ClassStmts(classes), e) <==> exists k :: k in classes && ClassCovers(cat, k, e)
  {
    if classes == [] {
    } else {
      var n := |classes| - 1;
      var k := classes[n];
      var all, future := Stmt(k.0, AllIn(k.1)), Stmt(k.0, FutureIn(k.1));
      ClassStmtsMean(cat, classes[..n], e);
      assert classes == classes[..n] + [k];
      assert ClassCovers(cat, k, e) <==> e in Effect(cat, all) || e in Effect(cat, future);
      if k.0 != {} {
        assert ClassStmts(classes) == ClassStmts(classes[..n]) + [all, future];
        MentionsOne(cat.Effects(), all, e);
        MentionsOne(cat.Effects(), future, e);
        MentionsAppend(cat.Effects(), [all], [future], e);
        assert [all] + [future] == [all, future];
        MentionsAppend(cat.Effects(), ClassStmts(classes[..n]), [all, future], e);
      }
    }
  }

  lemma WideMeans(cat: Catalogue, kind: GrantType, e: Entry)
    requires kind.Read? || kind.Full?
    ensures Mentions(cat.Effects(), SchemaWideStmts(if kind.Read? then READ_CLASSES else FULL_CLASSES), e) <==>
            match e
            case OnSchema(p) => p.USAGE?
            case OnFuture(c, p) => p in ClassPrivs(kind, c)
            case OnObject(o, p) => p in ClassPrivs(kind, o.class') && o in cat.objects
  {
    var classes := if kind.Read? then READ_CLASSES else FULL_CLASSES;
    ClassStmtsMean(cat, classes, e);
    MentionsAppend(cat.Effects(), [Stmt({USAGE}, Schema)], ClassStmts(classes), e);
    MentionsOne(cat.Effects(), Stmt({USAGE}, Schema), e);
    assert (exists k :: k in classes && ClassCovers(cat, k, e))
           <==> ClassCovers(cat, classes[0], e) || ClassCovers(cat, classes[1], e) || ClassCovers(cat, classes[2], e);
  }

  lemma StmtsMean(cat: Catalogue, g: Grant, e: Entry)
    ensures Mentions(cat.Effects(), StmtsOf(cat, g), e) <==> Runs(cat, g) && Owes(cat, g, e)
  {
    var effects, stmts := cat.Effects(), StmtsOf(cat, g);
    if Deferrable(g) {
      match cat.Addressed(g.target) {
        case None =>
        case Some(o) =>
          assert stmts[0] in stmts && stmts[1] in stmts;
          assert Mentions(effects, stmts, e) <==> e in effects(stmts[0]) || e in effects(stmts[1]);
      }
    } else if g.kind.Read? {
      WideMeans(cat, g.kind, e);
    } else if g.kind.Full? {
      WideMeans(cat, g.kind, e);
      var wide, last := SchemaWideStmts(FULL_CLASSES), Stmt(CREATE_PRIVILEGES, Schema);
      assert stmts == wide + [last];
      assert Mentions(effects, stmts, e) <==> Mentions(effects, wide, e) || e in effects(last);
    } else if g.kind.Create? {
      assert stmts[0] in stmts;
    }
  }

  lemma PlanMeans(cat: Catalogue, grants: seq<Grant>, e: Entry)
    ensures Mentions(cat.Effects(), Plan(cat, grants), e) <==> Owed(cat, grants, e)
  {
    var plan, effects := Planner(cat), cat.Effects();
    if Mentions(effects, Plan(cat, grants), e) {
      var s :| s in Plan(cat, grants) && e in effects(s);
      PlanAllIn(plan, grants, s);
      var g :| g in grants && s in plan(g);
      StmtsMean(cat, g, e);
    }
    if Owed(cat, grants, e) {
      var g :| g in grants && Runs(cat, g) && Owes(cat, g, e);
      StmtsMean(cat, g, e);
      var s :| s in plan(g) && e in effects(s);
      PlanAllIn(plan, grants, s);
    }
  }

  ghost predicate Exact(entries: set<Entry>, cat: Catalogue, grants: seq<Grant>) {
    forall e :: e in entries <==> Owed(cat, grants, e)
  }

  function Revoked(held: set<Entry>, cat: Catalogue, revokes: seq<Grant>, regrants: seq<Grant>): set<Entry> {
    var rs, ks := Plan(cat, revokes), Plan(cat, regrants);
    Complete(rs, ks).Leaves(cat.Effects(), cat.Effects(), held, rs, ks)
  }

  lemma RevokedHolds(held: set<Entry>, cat: Catalogue, revokes: seq<Grant>, regrants: seq<Grant>, e: Entry)
    ensures e in Revoked(held, cat, revokes, regrants) <==>
            Owed(cat, regrants, e) || (e in held && !Owed(cat, revokes, e))
  {
    var rs, ks := Plan(cat, revokes), Plan(cat, regrants);
    LeavesHolds(Complete(rs, ks), cat.Effects(), cat.Effects(), held, rs, ks, e);
    assert rs[..|rs|] == rs && ks[..|ks|] == ks;
    PlanMeans(cat, revokes, e);
    PlanMeans(cat, regrants, e);
  }

  // Revoking R and regranting K leaves exactly what K is owed, per object, for
  // future objects, for creating and for the shared USAGE, if and only if
  // nothing was held that R and K do not account for.
  lemma RevokeIsExact(held: set<Entry>, cat: Catalogue, revokes: seq<Grant>, regrants: seq<Grant>)
    ensures Exact(Revoked(held, cat, revokes, regrants), cat, regrants)
            <==> forall e :: e in held ==> Owed(cat, revokes + regrants, e)
  {
    forall e
      ensures e in Revoked(held, cat, revokes, regrants)
              <==> Owed(cat, regrants, e) || (e in held && !Owed(cat, revokes, e))
      ensures Owed(cat, revokes + regrants, e) <==> Owed(cat, revokes, e) || Owed(cat, regrants, e)
    {
      RevokedHolds(held, cat, revokes, regrants, e);
    }
  }

  // ---- what the entries allow ----

  // What each grant is documented to give. USAGE is the use of a sequence here.
  function Gives(kind: GrantType, all: bool): set<Priv> {
    match kind
    case Read => {SELECT}
    case Create => {CREATE_TABLE, CREATE_VIEW, CREATE_SEQUENCE}
    case Full =>
      {SELECT, INSERT, UPDATE, DELETE, TRUNCATE, REFERENCES}
      + if all then {USAGE, CREATE_TABLE, CREATE_VIEW, CREATE_SEQUENCE} else {}
    case Other(_) => {}
  }

  // Nothing in the schema can be used, or created, without USAGE on the schema.
  predicate Access(entries: set<Entry>, o: Object, p: Priv) {
    OnSchema(USAGE) in entries && OnObject(o, p) in entries
  }

  predicate MayCreate(entries: set<Entry>, p: Priv) {
    OnSchema(USAGE) in entries && OnSchema(p) in entries
  }

  // The target finds the object of its uppercase name and no other: it is plain or
  // uppercase already, and if it is not, no table or view has it as its exact name.
  predicate Steady(cat: Catalogue, g: Grant) {
    && Quoted(g.target) == Upper(g.target)
    && (Upper(g.target) == g.target || forall c :: Object(c, g.target) in cat.objects ==> c.SEQUENCES?)
  }

  // Tables and views share the names of a schema.
  ghost predicate OneNamespace(cat: Catalogue) {
    forall n :: !(Object(TABLES, n) in cat.objects && Object(VIEWS, n) in cat.objects)
  }

  lemma SteadyResolves(cat: Catalogue, g: Grant, o: Object)
    requires Deferrable(g) && Steady(cat, g) && OneNamespace(cat)
    ensures cat.Addressed(g.target) == Some(o) <==> Targets(g, o) && o in cat.objects
    ensures cat.Resolve(g.target) == cat.Addressed(g.target)
  {
    UpperTwice(g.target);
  }

  // The grant names the object one by one, case aside.
  predicate Targets(g: Grant, o: Object) {
    Deferrable(g) && Upper(g.target) == o.name && !o.class'.SEQUENCES?
  }

  // The privileges that mean something on an object of the class.
  predicate Applicable(c: Class, p: Priv) {
    match c
    case TABLES => p in {SELECT, INSERT, UPDATE, DELETE, TRUNCATE, REFERENCES}
    case VIEWS => p in {SELECT}
    case SEQUENCES => p in {USAGE}
  }

  // From exact entries, the access in force on a present object is the documented
  // coverage, for every privilege applicable to it, and the right to create is
  // the covered one.
  lemma AccessIsCoverage(entries: set<Entry>, cat: Catalogue, grants: seq<Grant>, o: Object, p: Priv)
    requires Exact(entries, cat, grants) && !Rejects(true, grants)
    requires OneNamespace(cat) && forall g :: g in grants && Deferrable(g) ==> Steady(cat, g)
    requires o in cat.objects
    ensures Access(entries, o, p) <==> Applicable(o.class', p) && Covers(Gives, Renamed(Upper, grants), p, o.name)
    ensures p in {CREATE_TABLE, CREATE_VIEW, CREATE_SEQUENCE} ==>
              (MayCreate(entries, p) <==> Covers(Gives, Renamed(Upper, grants), p, o.name))
  {
    EntriesAreCoverage(entries, cat, grants, o, p);
    assert forall g :: g in grants && Runs(cat, g) ==> Owes(cat, g, OnSchema(USAGE));
    assert Applicable(o.class', p) <==> p in ClassPrivs(Full, o.class');
  }

  lemma EntriesAreCoverage(entries: set<Entry>, cat: Catalogue, grants: seq<Grant>, o: Object, p: Priv)
    requires Exact(entries, cat, grants) && !Rejects(true, grants)
    requires OneNamespace(cat) && forall g :: g in grants && Deferrable(g) ==> Steady(cat, g)
    requires o in cat.objects
    ensures OnObject(o, p) in entries <==>
            p in ClassPrivs(Full, o.class') && Covers(Gives, Renamed(Upper, grants), p, o.name)
    ensures p in CREATE_PRIVILEGES ==> (OnSchema(p) in entries <==> Covers(Gives, Renamed(Upper, grants), p, o.name))
  {
    RenamedCovers(Gives, Upper, grants, p, o.name);
    forall g | g in grants
      ensures var h := g.(target := Upper(g.target));
              && (Runs(cat, g) && Owes(cat, g, OnObject(o, p)) <==>
                  p in ClassPrivs(Full, o.class') && CoversOne(Gives, h, p, o.name))
              && (p in CREATE_PRIVILEGES ==>
                  (Runs(cat, g) && Owes(cat, g, OnSchema(p)) <==> CoversOne(Gives, h, p, o.name)))
    {
      GrantMeaning(cat, g, o, p);
    }
  }

  lemma GrantMeaning(cat: Catalogue, g: Grant, o: Object, p: Priv)
    requires OneNamespace(cat) && o in cat.objects && !g.CreateOnTable() && (Deferrable(g) ==> Steady(cat, g))
    ensures var h := g.(target := Upper(g.target));
            && (Runs(cat, g) && Owes(cat, g, OnObject(o, p)) <==>
                p in ClassPrivs(Full, o.class') && CoversOne(Gives, h, p, o.name))
            && (p in CREATE_PRIVILEGES ==>
                (Runs(cat, g) && Owes(cat, g, OnSchema(p)) <==> CoversOne(Gives, h, p, o.name)))
  {
    UpperKeepsStar(g.target);
    if Deferrable(g) {
      SteadyResolves(cat, g, o);
    }
  }

  // The USAGE of a role whose last grants are revoked goes only if one of them
  // still finds its target: a skipped revoke leaves it behind.
  lemma LastUsage(held: set<Entry>, cat: Catalogue, revokes: seq<Grant>)
    requires OnSchema(USAGE) in held
    ensures OnSchema(USAGE) !in Revoked(held, cat, revokes, []) <==> exists g :: g in revokes && Runs(cat, g)
  {
    RevokedHolds(held, cat, revokes, [], OnSchema(USAGE));
  }

  // A grant on one object reaches the object its target resolves to if and only
  // if quoting leaves that object's name as it is.
  lemma ReachesItsTarget(cat: Catalogue, g: Grant, o: Object)
    requires Deferrable(g) && cat.Resolve(g.target) == Some(o)
    ensures (forall p :: Owes(cat, g, OnObject(o, p)) <==> p in ClassPrivs(g.kind, o.class')) <==>
            Quoted(o.name) == o.name
  {
    assert o.class'.TABLES? || o.class'.VIEWS?;
    assert SELECT in ClassPrivs(g.kind, o.class');
    assert Owes(cat, g, OnObject(o, SELECT)) <==> cat.Addressed(g.target) == Some(o);
  }

  // What a grant on one object gave on the catalogue `then` is taken back by
  // revoking it on the catalogue `now` if and only if both name the same object.
  lemma RevokeFindsTheSameObject(held: set<Entry>, then': Catalogue, now: Catalogue, g: Grant, o: Object)
    requires Deferrable(g) && then'.Addressed(g.target) == Some(o)
    requires forall p :: Owes(then', g, OnObject(o, p)) ==> OnObject(o, p) in held
    ensures (forall p :: Owes(then', g, OnObject(o, p)) ==> OnObject(o, p) !in Revoked(held, now, [g], []))
            <==> now.Addressed(g.target) == Some(o)
  {
    forall p
      ensures OnObject(o, p) in Revoked(held, now, [g], []) <==>
              OnObject(o, p) in held && !(Runs(now, g) && Owes(now, g, OnObject(o, p)))
    {
      RevokedHolds(held, now, [g], [], OnObject(o, p));
      assert g in [g];
    }
    assert Owes(then', g, OnObject(o, SELECT));
  }

  // ---- runs ----

  // One role in one schema. `live` is what was granted, or begun to be granted,
  // since it was last successfully revoked.
  datatype World = World(cat: Catalogue, entries: set<Entry>, live: set<Grant>)

  datatype Step =
    | CreateObject(o: Object)
    | DropObject(o: Object)
    | GrantBatch(grants: seq<Grant>, ran: nat)
    | RevokeBatch(revokes: seq<Grant>, regrants: seq<Grant>, attempt: Attempt)
  {
    // The base account creates and drops what it likes, also what live grants name
    // one by one, unless that makes such a grant find another object.
    predicate Possible(w: World) {
      match this
      case CreateObject(o) => o !in w.cat.objects && Free(w.cat, o) && Foreseen(w, o)
      case DropObject(o) => o in w.cat.objects && Foreseen(w, o)
      case GrantBatch(grants, n) => n <= |Plan(w.cat, grants)|
      case RevokeBatch(revokes, regrants, a) => a.Within(Plan(w.cat, revokes), Plan(w.cat, regrants))
    }

    function Take(w: World): World
      requires Possible(w)
    {
      match this
      case CreateObject(o) => w.(cat := Catalogue(w.cat.objects + {o}), entries := Created(w.entries, o))
      case DropObject(o) => w.(cat := Catalogue(w.cat.objects - {o}), entries := Dropped(w.entries, o))
      case GrantBatch(grants, n) =>
        w.(entries := ExecAll(true, w.cat.Effects(), w.entries, Plan(w.cat, grants)[..n]),
           live := w.live + set g | g in grants)
      case RevokeBatch(revokes, regrants, a) =>
        var rs, ks := Plan(w.cat, revokes), Plan(w.cat, regrants);
        w.(entries := a.Leaves(w.cat.Effects(), w.cat.Effects(), w.entries, rs, ks),
           live := (if a.revoked == |rs| then w.live - set g | g in revokes else w.live) + set g | g in regrants)
    }
  }

  // The object is one the grant's target could resolve to or be written as.
  predicate MayName(g: Grant, o: Object) {
    Deferrable(g) && o.name in {g.target, Upper(g.target), Quoted(g.target), Quoted(Upper(g.target))}
  }

  predicate Free(cat: Catalogue, o: Object) {
    !o.class'.SEQUENCES? ==> Object(TABLES, o.name) !in cat.objects && Object(VIEWS, o.name) !in cat.objects
  }

  predicate Foreseen(w: World, o: Object) {
    forall g :: g in w.live ==>
      !MayName(g, o) || (Steady(w.cat, g) && (o.name == g.target ==> Upper(g.target) == g.target))
  }

  lemma UnnamedKeepsResolution(cat: Catalogue, g: Grant, o: Object)
    requires Deferrable(g) && !MayName(g, o)
    ensures Catalogue(cat.objects + {o}).Resolve(g.target) == cat.Resolve(g.target)
    ensures Catalogue(cat.objects - {o}).Resolve(g.target) == cat.Resolve(g.target)
    ensures cat.Addressed(g.target) != Some(o)
  {
  }

  // A grant on one object keeps finding the object it was made on while others
  // come and go.
  lemma OthersKeepResolution(w: World, s: Step, g: Grant, o': Object)
    requires (s.CreateObject? || s.DropObject?) && s.Possible(w) && OneNamespace(w.cat)
    requires g in w.live && Deferrable(g) && o' != s.o
    requires w.cat.Addressed(g.target) == Some(o')
    ensures s.Take(w).cat.Addressed(g.target) == Some(o')
  {
    NamespaceKept(w, s);
    if MayName(g, s.o) {
      SteadyResolves(w.cat, g, o');
      SteadyResolves(s.Take(w).cat, g, o');
    } else {
      UnnamedKeepsResolution(w.cat, g, s.o);
    }
  }

  lemma NamespaceKept(w: World, s: Step)
    requires s.Possible(w) && OneNamespace(w.cat)
    ensures OneNamespace(s.Take(w).cat)
  {
  }

  ghost predicate IsRun(trace: seq<World>, steps: seq<Step>) {
    && |trace| == |steps| + 1
    && forall i :: 0 <= i < |steps| ==> steps[i].Possible(trace[i]) && trace[i + 1] == steps[i].Take(trace[i])
  }

  // Every entry but the schema's USAGE is owed to a live grant that finds its
  // object.
  ghost predicate Accounted(w: World) {
    && OneNamespace(w.cat)
    && forall e :: e in w.entries && e != OnSchema(USAGE) ==> OwedToLive(w, e)
  }

  ghost predicate OwedToLive(w: World, e: Entry) {
    exists g :: g in w.live && Runs(w.cat, g) && Owes(w.cat, g, e)
  }

  lemma {:induction false} AccountedAlways(trace: seq<World>, steps: seq<Step>, i: nat)
    requires IsRun(trace, steps) && Accounted(trace[0]) && i < |trace|
    ensures Accounted(trace[i])
  {
    if i == 0 {
    } else {
      AccountedAlways(trace, steps, i - 1);
      AccountedStep(trace[i - 1], steps[i - 1]);
    }
  }

  lemma AccountedStep(w: World, s: Step)
    requires Accounted(w) && s.Possible(w)
    ensures Accounted(s.Take(w))
  {
    NamespaceKept(w, s);
    forall e | e in s.Take(w).entries && e != OnSchema(USAGE)
      ensures OwedToLive(s.Take(w), e)
    {
      match s {
        case GrantBatch(grants, n) =>
          var ks := Plan(w.cat, grants);
          ExecAllHolds(true, w.cat.Effects(), w.entries, ks[..n], e);
          PlanMeans(w.cat, grants, e);
          if !Mentions(w.cat.Effects(), ks[..n], e) {
            var g :| g in w.live && Runs(w.cat, g) && Owes(w.cat, g, e);
            assert g in s.Take(w).live;
          }
        case RevokeBatch(revokes, regrants, a) =>
          AccountedRevoke(w, revokes, regrants, a, e);
        case _ =>
          AccountedChange(w, s, e);
      }
    }
  }

  lemma AccountedChange(w: World, s: Step, e: Entry)
    requires Accounted(w) && s.Possible(w) && (s.CreateObject? || s.DropObject?)
    requires e in s.Take(w).entries && e != OnSchema(USAGE)
    ensures OwedToLive(s.Take(w), e)
  {
    var w' := s.Take(w);
    var e0 := if e in w.entries then e else OnFuture(s.o.class', e.p);
    var g :| g in w.live && Runs(w.cat, g) && Owes(w.cat, g, e0);
    if Deferrable(g) {
      assert e.OnObject? && w.cat.Addressed(g.target) == Some(e.o);
      if MayName(g, s.o) {
        SteadyResolves(w.cat, g, e.o);
      } else {
        UnnamedKeepsResolution(w.cat, g, s.o);
      }
      OthersKeepResolution(w, s, g, e.o);
    }
    assert g in w'.live && Runs(w'.cat, g) && Owes(w'.cat, g, e);
  }

  lemma AccountedRevoke(w: World, revokes: seq<Grant>, regrants: seq<Grant>, a: Attempt, e: Entry)
    requires Accounted(w) && RevokeBatch(revokes, regrants, a).Possible(w) && e != OnSchema(USAGE)
    requires e in RevokeBatch(revokes, regrants, a).Take(w).entries
    ensures OwedToLive(RevokeBatch(revokes, regrants, a).Take(w), e)
  {
    var rs, ks := Plan(w.cat, revokes), Plan(w.cat, regrants);
    LeavesHolds(a, w.cat.Effects(), w.cat.Effects(), w.entries, rs, ks, e);
    PlanMeans(w.cat, revokes, e);
    PlanMeans(w.cat, regrants, e);
    if !Mentions(w.cat.Effects(), ks[..a.granted], e) {
      var g :| g in w.live && Runs(w.cat, g) && Owes(w.cat, g, e);
      if a.revoked == |rs| {
        assert rs[..|rs|] == rs;
        assert g !in revokes;
      }
    }
  }

  // ---- the schema's USAGE over a run ----

  // Every grant's first statement carries the USAGE.
  predicate GivesUsage(s: Step) {
    (s.GrantBatch? && s.ran > 0) || (s.RevokeBatch? && s.attempt.granted > 0)
  }

  predicate TakesUsage(s: Step) {
    s.RevokeBatch? && s.attempt.revoked > 0 && s.attempt.granted == 0
  }

  lemma StmtsStartWithUsage(cat: Catalogue, g: Grant)
    ensures StmtsOf(cat, g) != [] ==> OnSchema(USAGE) in cat.Effects()(StmtsOf(cat, g)[0])
  {
  }

  lemma {:induction false} PlanStartsWithUsage(cat: Catalogue, grants: seq<Grant>, n: nat)
    requires n <= |Plan(cat, grants)|
    ensures Mentions(cat.Effects(), Plan(cat, grants)[..n], OnSchema(USAGE)) <==> n > 0
  {
    if grants == [] {
    } else {
      var last := |grants| - 1;
      var before, stmts := Plan(cat, grants[..last]), StmtsOf(cat, grants[last]);
      assert Plan(cat, grants) == before + stmts;
      if n > 0 {
        if before == [] {
          StmtsStartWithUsage(cat, grants[last]);
          assert Plan(cat, grants)[..n][0] == stmts[0];
        } else {
          PlanStartsWithUsage(cat, grants[..last], 1);
          assert Plan(cat, grants)[..n][0] == before[..1][0];
        }
        assert Plan(cat, grants)[..n][0] in Plan(cat, grants)[..n];
      }
    }
  }

  lemma UsageStep(w: World, s: Step)
    requires s.Possible(w)
    ensures OnSchema(USAGE) in s.Take(w).entries <==> GivesUsage(s) || (OnSchema(USAGE) in w.entries && !TakesUsage(s))
  {
    match s {
      case GrantBatch(grants, n) =>
        PlanStartsWithUsage(w.cat, grants, n);
        ExecAllHolds(true, w.cat.Effects(), w.entries, Plan(w.cat, grants)[..n], OnSchema(USAGE));
      case RevokeBatch(revokes, regrants, a) =>
        PlanStartsWithUsage(w.cat, revokes, a.revoked);
        PlanStartsWithUsage(w.cat, regrants, a.granted);
        LeavesHolds(a, w.cat.Effects(), w.cat.Effects(), w.entries, Plan(w.cat, revokes), Plan(w.cat, regrants),
                    OnSchema(USAGE));
      case _ =>
    }
  }

  // Some step before i executed a grant's statement, or the USAGE was there to
  // begin with, and no revoke without a regrant executed one since.
  predicate UsageGiven(trace: seq<World>, steps: seq<Step>, i: nat)
    requires |trace| == |steps| + 1 && i < |trace|
  {
    if i == 0 then OnSchema(USAGE) in trace[0].entries
    else GivesUsage(steps[i - 1]) || (UsageGiven(trace, steps, i - 1) && !TakesUsage(steps[i - 1]))
  }

  lemma {:induction false} UsageAlways(trace: seq<World>, steps: seq<Step>, i: nat)
    requires IsRun(trace, steps) && i < |trace|
    ensures OnSchema(USAGE) in trace[i].entries <==> UsageGiven(trace, steps, i)
  {
    if i == 0 {
    } else {
      UsageAlways(trace, steps, i - 1);
      UsageStep(trace[i - 1], steps[i - 1]);
    }
  }

  // What the USAGE costs: everything held is owed to a live grant if and only if
  // the USAGE was not left over, that is, if it was given then some live grant
  // still finds its object.
  lemma FullyAccountedExactly(trace: seq<World>, steps: seq<Step>, i: nat)
    requires IsRun(trace, steps) && Accounted(trace[0]) && i < |trace|
    ensures (forall e :: e in trace[i].entries ==> OwedToLive(trace[i], e))
            <==> (UsageGiven(trace, steps, i) ==> exists g :: g in trace[i].live && Runs(trace[i].cat, g))
  {
    AccountedAlways(trace, steps, i);
    UsageAlways(trace, steps, i);
    assert forall g :: Owes(trace[i].cat, g, OnSchema(USAGE));
  }

  // At any point of any run, a completed revoke-then-regrant that speaks for
  // every live grant leaves exactly what the regrants are owed, if and only if
  // the USAGE is not left over: none was given, or some revoke or regrant finds
  // its object.
  lemma RevokeIsExactInEveryRun(trace: seq<World>, steps: seq<Step>, i: nat)
    requires IsRun(trace, steps) && Accounted(trace[0]) && i < |steps|
    requires steps[i].RevokeBatch? && forall g :: g in trace[i].live ==> g in steps[i].revokes + steps[i].regrants
    requires steps[i].attempt == Complete(Plan(trace[i].cat, steps[i].revokes), Plan(trace[i].cat, steps[i].regrants))
    ensures Exact(trace[i + 1].entries, trace[i + 1].cat, steps[i].regrants) <==>
            (UsageGiven(trace, steps, i) ==>
               exists g :: g in steps[i].revokes + steps[i].regrants && Runs(trace[i].cat, g))
  {
    var w, revokes, regrants := trace[i], steps[i].revokes, steps[i].regrants;
    AccountedAlways(trace, steps, i);
    UsageAlways(trace, steps, i);
    RevokeIsExact(w.entries, w.cat, revokes, regrants);
    assert forall g :: Owes(w.cat, g, OnSchema(USAGE));
    forall e | e in w.entries && e != OnSchema(USAGE)
      ensures Owed(w.cat, revokes + regrants, e)
    {
      var g :| g in w.live && Runs(w.cat, g) && Owes(w.cat, g, e);
      assert g in revokes + regrants;
    }
  }

  // ---- ALL and FUTURE agree ----

  // A schema-wide grant carries the privilege on every object of the class.
  ghost predicate WideGives(grants: seq<Grant>, c: Class, p: Priv) {
    exists g :: g in grants && !Deferrable(g) && p in ClassPrivs(g.kind, c)
  }

  // Creating an object keeps the entries exact with no reapply if and only if the
  // schema-wide grants already give what the grants waiting for it by name would.
  lemma CreateKeepsExact(w: World, grants: seq<Grant>, o: Object)
    requires Exact(w.entries, w.cat, grants) && w.live == (set g | g in grants)
    requires OneNamespace(w.cat) && CreateObject(o).Possible(w)
    ensures Exact(CreateObject(o).Take(w).entries, CreateObject(o).Take(w).cat, grants) <==>
            forall g, p :: g in grants && Targets(g, o) && p in ClassPrivs(g.kind, o.class') ==>
              WideGives(grants, o.class', p)
  {
    var w' := CreateObject(o).Take(w);
    forall e: Entry
      ensures Owed(w'.cat, grants, e) <==>
              || (Owed(w.cat, grants, e) && !(e.OnObject? && e.o == o))
              || (e == OnSchema(USAGE) && exists g :: g in grants && Targets(g, o))
              || (e.OnObject? && e.o == o &&
                  (WideGives(grants, o.class', e.p)
                   || exists g :: g in grants && Targets(g, o) && e.p in ClassPrivs(g.kind, o.class')))
      ensures e.OnObject? && e.o == o ==> e !in w.entries
    {
      ChangedOwes(w, CreateObject(o), grants, e);
    }
    assert forall p :: OnFuture(o.class', p) in w.entries <==> WideGives(grants, o.class', p);
    assert forall g :: g in grants && Targets(g, o) ==> SELECT in ClassPrivs(g.kind, o.class');
    assert WideGives(grants, o.class', SELECT) ==> Owed(w.cat, grants, OnSchema(USAGE));
    assert forall p :: OnObject(o, p) in w'.entries <==> WideGives(grants, o.class', p);
  }

  // Dropping an object keeps the entries exact if and only if the USAGE is not
  // left over: where some grant ran, some grant still does.
  lemma DropKeepsExact(w: World, grants: seq<Grant>, o: Object)
    requires Exact(w.entries, w.cat, grants) && w.live == (set g | g in grants)
    requires OneNamespace(w.cat) && DropObject(o).Possible(w)
    ensures Exact(DropObject(o).Take(w).entries, DropObject(o).Take(w).cat, grants) <==>
            ((exists g :: g in grants && Runs(w.cat, g)) ==>
              exists g :: g in grants && Runs(w.cat, g) && !Targets(g, o))
  {
    var w' := DropObject(o).Take(w);
    forall e: Entry | e != OnSchema(USAGE)
      ensures Owed(w'.cat, grants, e) <==> Owed(w.cat, grants, e) && !(e.OnObject? && e.o == o)
    {
      ChangedOwes(w, DropObject(o), grants, e);
    }
    ChangedOwes(w, DropObject(o), grants, OnSchema(USAGE));
    assert Owed(w'.cat, grants, OnSchema(USAGE)) <==> exists g :: g in grants && Runs(w.cat, g) && !Targets(g, o);
    assert OnSchema(USAGE) in w'.entries <==> Owed(w.cat, grants, OnSchema(USAGE));
    assert Exact(w'.entries, w'.cat, grants) <==>
           (OnSchema(USAGE) in w'.entries <==> Owed(w'.cat, grants, OnSchema(USAGE)));
  }

  // What one grant is owed after an object came or went.
  lemma ChangedOwes(w: World, s: Step, grants: seq<Grant>, e: Entry)
    requires w.live == (set g | g in grants) && OneNamespace(w.cat)
    requires (s.CreateObject? || s.DropObject?) && s.Possible(w)
    ensures forall g :: g in grants ==>
              (Runs(s.Take(w).cat, g) && Owes(s.Take(w).cat, g, e) <==>
               if e.OnObject? && e.o == s.o then
                 s.CreateObject? && e.p in ClassPrivs(g.kind, s.o.class') && (Targets(g, s.o) || !Deferrable(g))
               else if s.CreateObject? then
                 (Runs(w.cat, g) && Owes(w.cat, g, e)) || (Targets(g, s.o) && e == OnSchema(USAGE))
               else Runs(w.cat, g) && Owes(w.cat, g, e) && !(Targets(g, s.o) && e == OnSchema(USAGE)))
    ensures s.CreateObject? && e.OnObject? && e.o == s.o ==> !Owed(w.cat, grants, e)
  {
    var w', o := s.Take(w), s.o;
    NamespaceKept(w, s);
    forall g | g in grants && Deferrable(g)
      ensures Targets(g, o) ==> (w'.cat.Addressed(g.target) == if s.CreateObject? then Some(o) else None)
      ensures Targets(g, o) && s.CreateObject? ==> w.cat.Addressed(g.target) == None
      ensures !Targets(g, o) ==> w'.cat.Addressed(g.target) == w.cat.Addressed(g.target) != Some(o)
    {
      ChangedResolution(w, s, g);
    }
  }

  lemma ChangedResolution(w: World, s: Step, g: Grant)
    requires g in w.live && Deferrable(g) && OneNamespace(w.cat)
    requires (s.CreateObject? || s.DropObject?) && s.Possible(w)
    ensures Targets(g, s.o) && s.CreateObject? ==>
              w.cat.Addressed(g.target) == None && s.Take(w).cat.Addressed(g.target) == Some(s.o)
    ensures Targets(g, s.o) && s.DropObject? ==>
              (s.o in w.cat.objects ==> s.Take(w).cat.Addressed(g.target) == None)
    ensures !Targets(g, s.o) ==> s.Take(w).cat.Addressed(g.target) == w.cat.Addressed(g.target) != Some(s.o)
  {
    NamespaceKept(w, s);
    if MayName(g, s.o) {
      var o' := if w.cat.Addressed(g.target).Some? then w.cat.Addressed(g.target).value else s.o;
      SteadyResolves(w.cat, g, s.o);
      SteadyResolves(s.Take(w).cat, g, s.o);
      SteadyResolves(w.cat, g, o');
      SteadyResolves(s.Take(w).cat, g, o');
    } else {
      UnnamedKeepsResolution(w.cat, g, s.o);
    }
  }

  // ---- all of it happens ----

  // A table is created, granted on and dropped; revoking the grant then finds no
  // table, and the USAGE stays with no grant left.
  lemma UsageMayStay() returns (trace: seq<World>, steps: seq<Step>)
    ensures IsRun(trace, steps) && trace[0] == World(Catalogue({}), {}, {}) && |steps| == 4
    ensures steps[3].RevokeBatch? && steps[3].revokes == [Grant(Read, "T")] && steps[3].regrants == []
    ensures steps[3].attempt == Complete(Plan(trace[3].cat, steps[3].revokes), Plan(trace[3].cat, steps[3].regrants))
    ensures trace[4].live == {} && OnSchema(USAGE) in trace[4].entries
  {
    var g, o := Grant(Read, "T"), Object(TABLES, "T");
    assert Upper("T") == "T";
    var create, grant, drop, revoke :=
      CreateObject(o), GrantBatch([g], 2), DropObject(o), RevokeBatch([g], [], Attempt(0, 0));
    steps := [create, grant, drop, revoke];
    var w0 := World(Catalogue({}), {}, {});
    var w1 := create.Take(w0);
    OneGrantPlan(w1.cat, g);
    var w2 := grant.Take(w1);
    UsageStep(w1, grant);
    var w3 := drop.Take(w2);
    OneGrantPlan(w3.cat, g);
    UsageStep(w2, drop);
    var w4 := revoke.Take(w3);
    UsageStep(w3, revoke);
    trace := [w0, w1, w2, w3, w4];
    assert w2.live == {g};
  }

  lemma OneGrantPlan(cat: Catalogue, g: Grant)
    ensures Plan(cat, [g]) == StmtsOf(cat, g) && Plan(cat, []) == []
  {
    assert [g][..0] == [];
    assert Plan(cat, [g]) == Plan(cat, []) + Planner(cat)(g);
  }

  // A table created with a quoted mixed-case name is found, and missed: the
  // statement names another object, and the grant fails for want of it.
  lemma MixedCaseIsMissed(cat: Catalogue)
    requires cat.objects == {Object(TABLES, "Orders")}
    ensures cat.Resolve("Orders") == Some(Object(TABLES, "Orders"))
    ensures cat.Addressed("Orders") == Some(Object(TABLES, "ORDERS"))
    ensures !Addressable(cat, Grant(Read, "Orders"))
  {
    assert Plain("Orders") && Upper("Orders") == "ORDERS";
    assert "ORDERS"[1] == 'R' && "Orders"[1] == 'r';
  }

  // A grant is made through the uppercase form of its target; an object of the
  // exact name is created; the revoke goes to the new object.
  lemma RevokeMayMissItsObject()
    ensures var g, old' := Grant(Read, "a b"), Object(TABLES, "A B");
            var then', now := Catalogue({old'}), Catalogue({old', Object(TABLES, "a b")});
            OnObject(old', SELECT) in Revoked(ExecAll(true, then'.Effects(), {}, Plan(then', [g])), now, [g], [])
  {
    var g, old' := Grant(Read, "a b"), Object(TABLES, "A B");
    var then', now := Catalogue({old'}), Catalogue({old', Object(TABLES, "a b")});
    assert "a b"[1] == ' ' && "A B"[1] == ' ' && !Plain("a b") && !Plain("A B");
    assert "a b"[0] == 'a' && "A B"[0] == 'A' && Upper("a b") == "A B";
    assert then'.Addressed(g.target) == Some(old') && now.Addressed(g.target) == Some(Object(TABLES, "a b"));
    var held := ExecAll(true, then'.Effects(), {}, Plan(then', [g]));
    forall p | Owes(then', g, OnObject(old', p))
      ensures OnObject(old', p) in held
    {
      ExecAllHolds(true, then'.Effects(), {}, Plan(then', [g]), OnObject(old', p));
      PlanMeans(then', [g], OnObject(old', p));
      assert g in [g];
    }
    RevokedHolds(held, now, [g], [], OnObject(old', SELECT));
  }

  // ---- the batch contract of the deferring loop ----

  lemma DoneIsInForce(held: set<Entry>, cat: Catalogue, grants: seq<Grant>, g: Grant, e: Entry)
    requires g in grants
    ensures g !in Done(cat, grants) <==>
            g.kind.Other? || (g.kind in {Read, Full} && g.target != "*" && cat.Resolve(g.target).None?)
    ensures g in Done(cat, grants) && Owes(cat, g, e) ==> e in ExecAll(true, cat.Effects(), held, Plan(cat, grants))
  {
    SelectIn(Runner(cat), grants, g);
    ExecAllHolds(true, cat.Effects(), held, Plan(cat, grants), e);
    PlanMeans(cat, grants, e);
  }
}
