/** From grants to a self-hosted role's privileges and to an Atlas user's roles array. */
module MongoGrants {
  import opened Grants

  datatype Action =
    | Find | ChangeStream | CollStats | ListIndexes
    | ListCollections | DbStats
    | Insert | Update | Remove | CreateCollection | CreateIndex
    | DropCollection | DropIndex | CollMod | ConvertToCapped
    | RenameCollectionSameDB

  const READ_ACTIONS_COLL: seq<Action> := [Find, ChangeStream, CollStats, ListIndexes]
  const READ_ACTIONS_DB: seq<Action> := [ListCollections, DbStats]
  const WRITE_ACTIONS_COLL: seq<Action> :=
    [Insert, Update, Remove, CreateCollection, CreateIndex, DropCollection, DropIndex, CollMod, ConvertToCapped]
  const WRITE_ACTIONS_DB: seq<Action> := [RenameCollectionSameDB]

  const DATA_ACTIONS: set<Action> := {Find, Insert, Update, Remove}

  // What each grant is documented to give, per scope.
  function Gives(kind: GrantType, all: bool): set<Action> {
    var read := {Find, ChangeStream, CollStats, ListIndexes} + if all then {ListCollections, DbStats} else {};
    var write := {Insert, Update, Remove, CreateCollection, CreateIndex, DropCollection, DropIndex, CollMod,
                  ConvertToCapped}
                 + if all then {RenameCollectionSameDB} else {};
    match kind
    case Read => read
    case Full => read + write
    case _ => {}
  }

  // ---- targets ----

  predicate TargetChar(c: char) {
    'A' <= c <= 'Z' || 'a' <= c <= 'z' || '0' <= c <= '9' || c == '_' || c == '.' || c == '-'
  }

  predicate IsSystem(collection: string) {
    "system." <= collection
  }

  // The collection name of a resource; "" stands for the whole database.
  function ValidateTarget(g: Grant): (r: Result<string>)
    ensures r.Ok? <==>
            g.All() || (g.target != "" && (forall c :: c in g.target ==> TargetChar(c)) && !IsSystem(g.target))
    ensures r.Ok? ==> (r.value == "" <==> g.All()) && !IsSystem(r.value) && (!g.All() ==> r.value == g.target)
  {
    if g.All() then Ok("")
    else if g.target == "" then Err
    else if exists c :: c in g.target && !TargetChar(c) then Err
    else if IsSystem(g.target) then Err
    else Ok(g.target)
  }

  predicate Accepted(g: Grant) {
    ValidateTarget(g).Ok? && (g.kind.Read? || g.kind.Full?)
  }

  predicate AllAccepted(grants: seq<Grant>) {
    forall g :: g in grants ==> Accepted(g)
  }

  function TargetOf(g: Grant): string {
    if g.All() then "" else g.target
  }

  // Each item once, where it first occurs.
  function FirstOccurrences<T(==)>(s: seq<T>): seq<T> {
    if s == [] then []
    else
      var n := |s| - 1;
      var before := FirstOccurrences(s[..n]);
      if s[n] in before then before else before + [s[n]]
  }

  ghost predicate NoDuplicates<T>(s: seq<T>) {
    forall i, j :: 0 <= i < j < |s| ==> s[i] != s[j]
  }

  lemma {:induction false} FirstOccurrencesOnce<T>(s: seq<T>, x: T)
    ensures x in FirstOccurrences(s) <==> x in s
    ensures NoDuplicates(FirstOccurrences(s))
  {
    if s == [] {
    } else {
      var n := |s| - 1;
      FirstOccurrencesOnce(s[..n], x);
      assert s == s[..n] + [s[n]];
    }
  }

  lemma FirstOccurrencesSnoc<T>(s: seq<T>, x: T)
    ensures FirstOccurrences(s + [x])
            == if x in FirstOccurrences(s) then FirstOccurrences(s) else FirstOccurrences(s) + [x]
  {
    assert (s + [x])[..|s|] == s;
  }

  lemma AllAcceptedStep(grants: seq<Grant>, i: nat)
    requires i < |grants|
    ensures AllAccepted(grants[..i + 1]) <==> AllAccepted(grants[..i]) && Accepted(grants[i])
    ensures !Accepted(grants[i]) ==> !AllAccepted(grants)
  {
    assert grants[..i + 1] == grants[..i] + [grants[i]];
  }

  function Targets(grants: seq<Grant>): seq<string> {
    seq(|grants|, i requires 0 <= i < |grants| => TargetOf(grants[i]))
  }

  // ---- self-hosted: one custom role ----

  datatype Privilege = Privilege(database: string, collection: string, actions: seq<Action>)

  // Some grant on the target gives the action.
  ghost predicate GivenOn(grants: seq<Grant>, target: string, a: Action) {
    exists g :: g in grants && TargetOf(g) == target && a in Gives(g.kind, g.All())
  }

  // The loop's state: the targets in order, and the actions collected for each.
  ghost predicate Collected(grants: seq<Grant>, targets: seq<string>, actions: map<string, seq<Action>>) {
    && targets == FirstOccurrences(Targets(grants))
    && (forall t :: t in targets <==> t in actions)
    && (forall t :: t in actions ==> NoDuplicates(actions[t]))
    && (forall t, a :: t in actions ==> (a in actions[t] <==> GivenOn(grants, t, a)))
  }

  // The privileges of a role built from the grants: one per target, in the order
  // the targets first occur, with exactly the actions the grants on that target
  // give, each once.
  ghost predicate Compiled(database: string, grants: seq<Grant>, privileges: seq<Privilege>) {
    && AllAccepted(grants)
    && |privileges| == |FirstOccurrences(Targets(grants))|
    && forall i :: 0 <= i < |privileges| ==>
         var p := privileges[i];
         && p.database == database && p.collection == FirstOccurrences(Targets(grants))[i]
         && NoDuplicates(p.actions)
         && forall a :: a in p.actions <==> GivenOn(grants, p.collection, a)
  }

  // Adds the actions not yet listed for the target.
  method AddActions(targets: seq<string>, actionsByTarget: map<string, seq<Action>>, target: string,
                    actions: seq<Action>)
    returns (targets': seq<string>, actionsByTarget': map<string, seq<Action>>)
    requires target in actionsByTarget ==> NoDuplicates(actionsByTarget[target])
    requires actions != []
    ensures targets' == if target in actionsByTarget then targets else targets + [target]
    ensures actionsByTarget'.Keys == actionsByTarget.Keys + {target} && NoDuplicates(actionsByTarget'[target])
    ensures forall a :: a in actionsByTarget'[target] <==>
              a in actions || (target in actionsByTarget && a in actionsByTarget[target])
    ensures forall t :: t in actionsByTarget && t != target ==> actionsByTarget'[t] == actionsByTarget[t]
  {
    targets' := if target in actionsByTarget then targets else targets + [target];
    var listed := if target in actionsByTarget then actionsByTarget[target] else [];
    ghost var before := listed;
    for i := 0 to |actions|
      invariant NoDuplicates(listed)
      invariant forall a :: a in listed <==> a in actions[..i] || a in before
    {
      if actions[i] !in listed {
        listed := listed + [actions[i]];
      }
      assert actions[..i + 1] == actions[..i] + [actions[i]];
    }
    assert actions[..|actions|] == actions;
    actionsByTarget' := actionsByTarget[target := listed];
  }

  // The actions of one grant, in the up to four lists the source adds in turn.
  method AddGrant(targets: seq<string>, actionsByTarget: map<string, seq<Action>>, g: Grant)
    returns (targets': seq<string>, actionsByTarget': map<string, seq<Action>>)
    requires Accepted(g)
    requires TargetOf(g) in actionsByTarget ==> NoDuplicates(actionsByTarget[TargetOf(g)])
    ensures var t := TargetOf(g);
            && targets' == (if t in actionsByTarget then targets else targets + [t])
            && actionsByTarget'.Keys == actionsByTarget.Keys + {t} && NoDuplicates(actionsByTarget'[t])
            && (forall a :: a in actionsByTarget'[t] <==>
                  a in Gives(g.kind, g.All()) || (t in actionsByTarget && a in actionsByTarget[t]))
            && forall u :: u in actionsByTarget && u != t ==> actionsByTarget'[u] == actionsByTarget[u]
  {
    var target := TargetOf(g);
    targets', actionsByTarget' := AddActions(targets, actionsByTarget, target, READ_ACTIONS_COLL);
    if g.kind.Full? {
      targets', actionsByTarget' := AddActions(targets', actionsByTarget', target, WRITE_ACTIONS_COLL);
    }
    if target == "" {
      targets', actionsByTarget' := AddActions(targets', actionsByTarget', target, READ_ACTIONS_DB);
      if g.kind.Full? {
        targets', actionsByTarget' := AddActions(targets', actionsByTarget', target, WRITE_ACTIONS_DB);
      }
    }
  }

  // Fails exactly when some grant is invalid or of another type; otherwise the
  // complete privileges array of the role.
  method BuildRolePrivileges(database: string, grants: seq<Grant>) returns (r: Result<seq<Privilege>>)
    ensures r.Ok? <==> AllAccepted(grants)
    ensures r.Ok? ==> Compiled(database, grants, r.value)
  {
    var targets: seq<string>, actionsByTarget: map<string, seq<Action>> := [], map[];
    for i := 0 to |grants|
      invariant AllAccepted(grants[..i])
      invariant Collected(grants[..i], targets, actionsByTarget)
    {
      var g := grants[i];
      AllAcceptedStep(grants, i);
      if ValidateTarget(g).Err? || !(g.kind.Read? || g.kind.Full?) {
        return Err;
      }
      ghost var targets0, actions0 := targets, actionsByTarget;
      targets, actionsByTarget := AddGrant(targets, actionsByTarget, g);
      CollectedStep(grants, i, targets0, actions0, targets, actionsByTarget);
    }
    assert grants[..|grants|] == grants;
    var privileges := [];
    for i := 0 to |targets|
      invariant |privileges| == i
      invariant forall k :: 0 <= k < i ==> privileges[k] == Privilege(database, targets[k], actionsByTarget[targets[k]])
    {
      assert targets[i] in targets;
      privileges := privileges + [Privilege(database, targets[i], actionsByTarget[targets[i]])];
    }
    assert forall i :: 0 <= i < |targets| ==> targets[i] in actionsByTarget;
    r := Ok(privileges);
  }

  lemma CollectedStep(grants: seq<Grant>, i: nat, targets: seq<string>, actions: map<string, seq<Action>>,
                      targets': seq<string>, actions': map<string, seq<Action>>)
    requires i < |grants| && Collected(grants[..i], targets, actions)
    requires var g, t := grants[i], TargetOf(grants[i]);
             && targets' == (if t in actions then targets else targets + [t])
             && actions'.Keys == actions.Keys + {t} && NoDuplicates(actions'[t])
             && (forall a :: a in actions'[t] <==> a in Gives(g.kind, g.All()) || (t in actions && a in actions[t]))
             && forall u :: u in actions && u != t ==> actions'[u] == actions[u]
    ensures Collected(grants[..i + 1], targets', actions')
  {
    var g, t, before, upTo := grants[i], TargetOf(grants[i]), grants[..i], grants[..i + 1];
    assert upTo == before + [g];
    assert t in targets <==> t in actions;
    TargetsStep(grants, i, t in targets);
    forall u, a | u in actions'
      ensures a in actions'[u] <==> GivenOn(upTo, u, a)
    {
      GivenOnSnoc(before, g, u, a);
      assert u !in actions ==> u == t && !GivenOn(before, t, a);
    }
  }

  lemma GivenOnSnoc(grants: seq<Grant>, g: Grant, t: string, a: Action)
    ensures GivenOn(grants + [g], t, a) <==>
            GivenOn(grants, t, a) || (TargetOf(g) == t && a in Gives(g.kind, g.All()))
  {
    assert g in grants + [g];
  }

  lemma TargetsStep(grants: seq<Grant>, i: nat, known: bool)
    requires i < |grants| && known == (TargetOf(grants[i]) in FirstOccurrences(Targets(grants[..i])))
    ensures var before := FirstOccurrences(Targets(grants[..i]));
            FirstOccurrences(Targets(grants[..i + 1])) == if known then before else before + [TargetOf(grants[i])]
    ensures !known ==> forall h :: h in grants[..i] ==> TargetOf(h) != TargetOf(grants[i])
  {
    var t, before := TargetOf(grants[i]), grants[..i];
    assert Targets(grants[..i + 1]) == Targets(before) + [t];
    FirstOccurrencesSnoc(Targets(before), t);
    forall h | h in before
      ensures TargetOf(h) in FirstOccurrences(Targets(before))
    {
      var k :| 0 <= k < i && before[k] == h;
      assert Targets(before)[k] == TargetOf(h);
      FirstOccurrencesOnce(Targets(before), TargetOf(h));
    }
  }

  // ---- what the server allows ----

  // A privilege on {db, ""} reaches every collection of the database but the
  // system ones; one on {db, c} reaches c.
  predicate Reaches(p: Privilege, database: string, collection: string) {
    p.database == database && (p.collection == collection || (p.collection == "" && !IsSystem(collection)))
  }

  predicate Allows(privileges: seq<Privilege>, database: string, a: Action, collection: string) {
    exists p :: p in privileges && Reaches(p, database, collection) && a in p.actions
  }

  // Sound and complete: in the binding database an action on a collection is
  // allowed exactly when the collection is not a system one and some grant
  // covers it; in every other database nothing is.
  lemma AllowsIsCoverage(database: string, grants: seq<Grant>, privileges: seq<Privilege>, db: string, a: Action,
                         c: string)
    requires Compiled(database, grants, privileges) && c != ""
    ensures Allows(privileges, db, a, c) <==> db == database && !IsSystem(c) && Covers(Gives, grants, a, c)
  {
    if Allows(privileges, db, a, c) {
      var p :| p in privileges && Reaches(p, db, c) && a in p.actions;
      var i :| 0 <= i < |privileges| && privileges[i] == p;
      var g :| g in grants && TargetOf(g) == p.collection && a in Gives(g.kind, g.All());
      assert Accepted(g);
      assert CoversOne(Gives, g, a, c);
    }
    if db == database && !IsSystem(c) && Covers(Gives, grants, a, c) {
      var g :| g in grants && CoversOne(Gives, g, a, c);
      var i := PrivilegeFor(database, grants, privileges, g);
      assert privileges[i] in privileges && a in privileges[i].actions;
    }
  }

  lemma PrivilegeFor(database: string, grants: seq<Grant>, privileges: seq<Privilege>, g: Grant) returns (i: nat)
    requires Compiled(database, grants, privileges) && g in grants
    ensures i < |privileges| && privileges[i].collection == TargetOf(g)
  {
    var targets := FirstOccurrences(Targets(grants));
    var k :| 0 <= k < |grants| && grants[k] == g;
    assert Targets(grants)[k] == TargetOf(g);
    FirstOccurrencesOnce(Targets(grants), TargetOf(g));
    i :| 0 <= i < |targets| && targets[i] == TargetOf(g);
  }

  // No two privileges are for the same target.
  lemma OnePrivilegePerTarget(database: string, grants: seq<Grant>, privileges: seq<Privilege>, i: nat, j: nat)
    requires Compiled(database, grants, privileges) && i < j < |privileges|
    ensures privileges[i].collection != privileges[j].collection
  {
    FirstOccurrencesOnce(Targets(grants), "");
  }

  // Access depends only on which grants there are: order and repetition do not
  // matter, more grants never allow less, and a list made of two allows exactly
  // what either allows.
  lemma AccessDependsOnTheSet(database: string, gs: seq<Grant>, hs: seq<Grant>, ps: seq<Privilege>, qs: seq<Privilege>,
                              both: seq<Privilege>, db: string, a: Action, c: string)
    requires Compiled(database, gs, ps) && Compiled(database, hs, qs) && Compiled(database, gs + hs, both) && c != ""
    ensures (forall g :: g in gs ==> g in hs) ==> (Allows(ps, db, a, c) ==> Allows(qs, db, a, c))
    ensures (forall g :: g in gs <==> g in hs) ==> (Allows(ps, db, a, c) <==> Allows(qs, db, a, c))
    ensures Allows(both, db, a, c) <==> Allows(ps, db, a, c) || Allows(qs, db, a, c)
  {
    AllowsIsCoverage(database, gs, ps, db, a, c);
    AllowsIsCoverage(database, hs, qs, db, a, c);
    AllowsIsCoverage(database, gs + hs, both, db, a, c);
  }

  // ---- Atlas: built-in roles in the user's roles array ----

  datatype AtlasRole = AtlasRole(roleName: string, database: string, collection: string)

  const BASELINE_DATABASE := "cl_baseline_none_db"
  const BASELINE_COLLECTION := "cl_baseline_none"
  const PLACEHOLDER := AtlasRole("read", BASELINE_DATABASE, BASELINE_COLLECTION)

  function RoleFor(database: string, g: Grant): AtlasRole {
    AtlasRole(if g.kind.Full? then "readWrite" else "read", database, TargetOf(g))
  }

  function RolesFor(database: string, grants: seq<Grant>): seq<AtlasRole> {
    seq(|grants|, i requires 0 <= i < |grants| => RoleFor(database, grants[i]))
  }

  ghost predicate AtlasCompiled(database: string, grants: seq<Grant>, roles: seq<AtlasRole>) {
    AllAccepted(grants) && roles == FirstOccurrences([PLACEHOLDER] + RolesFor(database, grants))
  }

  method BuildAtlasRoles(database: string, grants: seq<Grant>) returns (r: Result<seq<AtlasRole>>)
    ensures r.Ok? <==> AllAccepted(grants)
    ensures r.Ok? ==> AtlasCompiled(database, grants, r.value)
    ensures r.Ok? ==> forall role :: role in r.value ==>
              role == PLACEHOLDER || (role.database == database && role.roleName in {"read", "readWrite"})
  {
    var roles := [PLACEHOLDER];
    assert [PLACEHOLDER] + RolesFor(database, grants[..0]) == [PLACEHOLDER];
    assert FirstOccurrences([PLACEHOLDER]) == [PLACEHOLDER];
    for i := 0 to |grants|
      invariant AllAccepted(grants[..i])
      invariant roles == FirstOccurrences([PLACEHOLDER] + RolesFor(database, grants[..i]))
    {
      var g := grants[i];
      AllAcceptedStep(grants, i);
      if ValidateTarget(g).Err? || !(g.kind.Read? || g.kind.Full?) {
        return Err;
      }
      var role := RoleFor(database, g);
      RolesForStep(database, grants, i);
      if role !in roles {
        roles := roles + [role];
      }
    }
    assert grants[..|grants|] == grants;
    forall role | role in roles
      ensures role == PLACEHOLDER || (role.database == database && role.roleName in {"read", "readWrite"})
    {
      RoleIn(database, grants, roles, role);
    }
    r := Ok(roles);
  }

  lemma RolesForStep(database: string, grants: seq<Grant>, i: nat)
    requires i < |grants|
    ensures var before := FirstOccurrences([PLACEHOLDER] + RolesFor(database, grants[..i]));
            var role := RoleFor(database, grants[i]);
            FirstOccurrences([PLACEHOLDER] + RolesFor(database, grants[..i + 1]))
            == if role in before then before else before + [role]
  {
    var list := [PLACEHOLDER] + RolesFor(database, grants[..i]);
    assert [PLACEHOLDER] + RolesFor(database, grants[..i + 1]) == list + [RoleFor(database, grants[i])];
    FirstOccurrencesSnoc(list, RoleFor(database, grants[i]));
  }

  // Never empty, the placeholder first, no role twice.
  lemma {:induction false} RolesWellFormed(roles: seq<AtlasRole>)
    requires roles != []
    ensures var unique := FirstOccurrences(roles); unique != [] && unique[0] == roles[0] && NoDuplicates(unique)
  {
    if |roles| == 1 {
      assert FirstOccurrences(roles[..0]) == [];
    } else {
      var n := |roles| - 1;
      RolesWellFormed(roles[..n]);
      FirstOccurrencesOnce(roles[..n], roles[n]);
    }
  }

  // The built-in read and readWrite roles, as far as data operations go: on one
  // collection, or on a database's non-system collections and system.js.
  const SYSTEM_JS := "system.js"

  predicate InReach(collection: string) {
    !IsSystem(collection) || collection == SYSTEM_JS
  }

  predicate RoleAllows(r: AtlasRole, database: string, a: Action, collection: string)
    requires a in DATA_ACTIONS
  {
    && r.database == database
    && (r.collection == collection || (r.collection == "" && InReach(collection)))
    && (r.roleName == "readWrite" || (r.roleName == "read" && a.Find?))
  }

  predicate AtlasAllows(roles: seq<AtlasRole>, database: string, a: Action, collection: string)
    requires a in DATA_ACTIONS
  {
    exists r :: r in roles && RoleAllows(r, database, a, collection)
  }

  // The placeholder allows find on its own collection of its own database.
  predicate PlaceholderGives(database: string, a: Action, collection: string) {
    database == BASELINE_DATABASE && collection == BASELINE_COLLECTION && a.Find?
  }

  lemma RoleIn(database: string, grants: seq<Grant>, roles: seq<AtlasRole>, r: AtlasRole)
    requires AtlasCompiled(database, grants, roles)
    ensures r in roles <==> r == PLACEHOLDER || exists g :: g in grants && RoleFor(database, g) == r
  {
    FirstOccurrencesOnce([PLACEHOLDER] + RolesFor(database, grants), r);
    RolesForIn(database, grants, r);
  }

  lemma RolesForIn(database: string, grants: seq<Grant>, r: AtlasRole)
    ensures r in RolesFor(database, grants) <==> exists g :: g in grants && RoleFor(database, g) == r
  {
    var roles := RolesFor(database, grants);
    if r in roles {
      var k :| 0 <= k < |roles| && roles[k] == r;
      assert RoleFor(database, grants[k]) == r;
    }
    forall g | g in grants && RoleFor(database, g) == r
      ensures r in roles
    {
      var k :| 0 <= k < |grants| && grants[k] == g;
      assert roles[k] == r;
    }
  }

  lemma RoleMeansGrant(database: string, g: Grant, db: string, a: Action, c: string)
    requires Accepted(g) && a in DATA_ACTIONS && c != ""
    ensures RoleAllows(RoleFor(database, g), db, a, c) <==> db == database && InReach(c) && CoversOne(Gives, g, a, c)
  {
  }

  // A role allows what its grant covers among what built-in roles reach, and the
  // placeholder find on its own collection.
  lemma AtlasAllowsIsCoverage(database: string, grants: seq<Grant>, roles: seq<AtlasRole>,
                              db: string, a: Action, c: string)
    requires AtlasCompiled(database, grants, roles) && a in DATA_ACTIONS && c != ""
    ensures AtlasAllows(roles, db, a, c) <==>
            (db == database && InReach(c) && Covers(Gives, grants, a, c)) || PlaceholderGives(db, a, c)
  {
    if AtlasAllows(roles, db, a, c) {
      var r :| r in roles && RoleAllows(r, db, a, c);
      RoleIn(database, grants, roles, r);
      if r != PLACEHOLDER {
        var g :| g in grants && RoleFor(database, g) == r;
        RoleMeansGrant(database, g, db, a, c);
      }
    }
    if db == database && InReach(c) && Covers(Gives, grants, a, c) {
      var g :| g in grants && CoversOne(Gives, g, a, c);
      RoleMeansGrant(database, g, db, a, c);
      RoleIn(database, grants, roles, RoleFor(database, g));
    }
    RoleIn(database, grants, roles, PLACEHOLDER);
    assert RoleAllows(PLACEHOLDER, db, a, c) <==> PlaceholderGives(db, a, c);
  }

  // The two modes accept the same grant lists (both builders succeed exactly on
  // AllAccepted). On the non-system collections of the binding database they
  // allow the same data operations, unless that database is the placeholder's own
  // and the grants do not give what the placeholder gives; on every collection
  // they do if, besides, no grant is on `*`: the built-in roles reach system.js,
  // the custom role does not.
  lemma AtlasSimulatesSelfHosted(database: string, grants: seq<Grant>, privileges: seq<Privilege>,
                                 roles: seq<AtlasRole>)
    requires Compiled(database, grants, privileges) && AtlasCompiled(database, grants, roles)
    ensures (forall a, c :: a in DATA_ACTIONS && c != "" && !IsSystem(c) ==>
               (AtlasAllows(roles, database, a, c) <==> Allows(privileges, database, a, c)))
            <==> database != BASELINE_DATABASE || Covers(Gives, grants, Find, BASELINE_COLLECTION)
    ensures (forall a, c :: a in DATA_ACTIONS && c != "" ==>
               (AtlasAllows(roles, database, a, c) <==> Allows(privileges, database, a, c)))
            <==>
            && (forall g :: g in grants ==> !g.All())
            && (database != BASELINE_DATABASE || Covers(Gives, grants, Find, BASELINE_COLLECTION))
  {
    forall a, c | a in DATA_ACTIONS && c != ""
      ensures AtlasAllows(roles, database, a, c) <==>
              (InReach(c) && Covers(Gives, grants, a, c)) || PlaceholderGives(database, a, c)
      ensures Allows(privileges, database, a, c) <==> !IsSystem(c) && Covers(Gives, grants, a, c)
    {
      AllowsIsCoverage(database, grants, privileges, database, a, c);
      AtlasAllowsIsCoverage(database, grants, roles, database, a, c);
    }
    assert BASELINE_COLLECTION[0] == 'c' && !IsSystem(BASELINE_COLLECTION);
    assert Find in DATA_ACTIONS && SYSTEM_JS != "";
    SystemJs(grants);
    assert SYSTEM_JS[..7] == "system.";
  }

  // Only a grant on `*` speaks about a system collection.
  lemma SystemJs(grants: seq<Grant>)
    requires AllAccepted(grants)
    ensures Covers(Gives, grants, Find, SYSTEM_JS) <==> exists g :: g in grants && g.All()
    ensures forall a :: Covers(Gives, grants, a, SYSTEM_JS) ==> Covers(Gives, grants, Find, SYSTEM_JS)
  {
    assert IsSystem(SYSTEM_JS);
    forall g, a | g in grants && CoversOne(Gives, g, a, SYSTEM_JS)
      ensures g.All() && CoversOne(Gives, g, Find, SYSTEM_JS)
    {
      assert Accepted(g);
    }
    forall g | g in grants && g.All()
      ensures CoversOne(Gives, g, Find, SYSTEM_JS)
    {
      assert Accepted(g);
    }
  }

  // ---- names ----

  function AccountNames(bindingId: string, isStaging: bool): (string, string) {
    ((if isStaging then "cl_usr_stg_" else "cl_usr_prd_") + bindingId,
     (if isStaging then "cl_stg_" else "cl_prd_") + bindingId)
  }

  // Different bindings, and the two environments of one, never share a user or a
  // database, and no binding database is the placeholder's.
  lemma NamesAreInjective(id: string, staging: bool, id': string, staging': bool)
    ensures AccountNames(id, staging).0 == AccountNames(id', staging').0 ==> id == id' && staging == staging'
    ensures AccountNames(id, staging).1 == AccountNames(id', staging').1 ==> id == id' && staging == staging'
    ensures AccountNames(id, staging).1 != BASELINE_DATABASE
    ensures staging ==> "cl_usr_stg_" <= AccountNames(id, staging).0 && "cl_stg_" <= AccountNames(id, staging).1
    ensures !staging ==> "cl_usr_prd_" <= AccountNames(id, staging).0 && "cl_prd_" <= AccountNames(id, staging).1
  {
    var (u, d) := AccountNames(id, staging);
    var (u', d') := AccountNames(id', staging');
    assert u[11..] == id && u'[11..] == id' && d[7..] == id && d'[7..] == id';
    assert u[7] == (if staging then 's' else 'p') && u'[7] == (if staging' then 's' else 'p');
    assert d[3] == (if staging then 's' else 'p') && d'[3] == (if staging' then 's' else 'p');
    assert BASELINE_DATABASE[3] == 'b';
  }
}
