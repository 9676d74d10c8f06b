/** Generating an account and undoing a generation that failed part-way. */
module Accounts {
  import opened Grants

  datatype ArtifactType = Login | User | Role | DatabaseArtifact | SchemaArtifact

  datatype Artifact = Artifact(kind: ArtifactType, name: string)

  // The objects that exist, and (owned, owner) links: the server refuses to drop
  // the owner of another object.
  datatype Catalogue = Catalogue(objects: set<Artifact>, needs: set<(Artifact, Artifact)>) {

    predicate Closed() {
      forall n :: n in needs ==> n.0 in objects && n.1 in objects
    }

    predicate CanCreate(c: Creation) {
      c.artifact !in objects && c.deps <= objects && c.owners <= objects
    }

    function Created(c: Creation): Catalogue {
      Catalogue(objects + {c.artifact}, needs + set d | d in c.owners :: (c.artifact, d))
    }

    predicate CanDrop(a: Artifact) {
      forall n :: n in needs && n.1 == a ==> n.0 == a
    }

    // Deleting a missing object changes nothing.
    function Dropped(a: Artifact): Catalogue {
      Catalogue(objects - {a}, set n | n in needs && n.0 != a)
    }
  }

  // `deps` must exist when the artifact is created; its `owners`, besides, may not
  // be dropped while it does.
  datatype Creation = Creation(artifact: Artifact, deps: set<Artifact>, owners: set<Artifact>)

  function Grown(cat: Catalogue, creations: seq<Creation>): Catalogue {
    if creations == [] then cat
    else Grown(cat, creations[..|creations| - 1]).Created(creations[|creations| - 1])
  }

  // Each creation met what the server asks when it was made.
  predicate Legal(cat: Catalogue, creations: seq<Creation>) {
    creations == [] ||
    var n := |creations| - 1;
    Legal(cat, creations[..n]) && Grown(cat, creations[..n]).CanCreate(creations[n])
  }

  function ArtifactsOf(creations: seq<Creation>): seq<Artifact> {
    seq(|creations|, i requires 0 <= i < |creations| => creations[i].artifact)
  }

  // Drops in the given order; None as soon as one is refused.
  function DropInOrder(cat: Catalogue, artifacts: seq<Artifact>): Option<Catalogue>
    decreases |artifacts|
  {
    if artifacts == [] then Some(cat)
    else if !cat.CanDrop(artifacts[0]) then None
    else DropInOrder(cat.Dropped(artifacts[0]), artifacts[1..])
  }

  function Reversed<T>(s: seq<T>): seq<T> {
    if s == [] then [] else [s[|s| - 1]] + Reversed(s[..|s| - 1])
  }

  lemma CreateThenDrop(cat: Catalogue, c: Creation)
    requires cat.Closed() && cat.CanCreate(c)
    ensures cat.Created(c).Closed() && cat.Created(c).CanDrop(c.artifact) && cat.Created(c).Dropped(c.artifact) == cat
  {
    var after := cat.Created(c);
    assert forall n :: n in after.needs <==> n in cat.needs || (n.0 == c.artifact && n.1 in c.owners);
    assert after.Dropped(c.artifact).needs == cat.needs;
  }

  lemma {:induction false} GrownClosed(cat: Catalogue, creations: seq<Creation>)
    requires cat.Closed() && Legal(cat, creations)
    ensures Grown(cat, creations).Closed()
  {
    if creations == [] {
    } else {
      var n := |creations| - 1;
      GrownClosed(cat, creations[..n]);
      CreateThenDrop(Grown(cat, creations[..n]), creations[n]);
    }
  }

  // In reverse creation order every drop is accepted and the catalogue ends
  // exactly as it was before the generation, whatever had been created by then.
  lemma {:induction false} ReverseRestores(cat: Catalogue, creations: seq<Creation>)
    requires cat.Closed() && Legal(cat, creations)
    ensures DropInOrder(Grown(cat, creations), Reversed(ArtifactsOf(creations))) == Some(cat)
  {
    if creations == [] {
    } else {
      var n := |creations| - 1;
      var artifacts := ArtifactsOf(creations);
      GrownClosed(cat, creations[..n]);
      CreateThenDrop(Grown(cat, creations[..n]), creations[n]);
      ReverseRestores(cat, creations[..n]);
      assert artifacts[..n] == ArtifactsOf(creations[..n]);
      assert Reversed(artifacts)[1..] == Reversed(artifacts[..n]);
    }
  }

  // Dropping what is already gone is accepted and changes nothing.
  lemma {:induction false} RepeatIsHarmless(cat: Catalogue, artifacts: seq<Artifact>)
    requires cat.Closed() && forall a :: a in artifacts ==> a !in cat.objects
    ensures DropInOrder(cat, artifacts) == Some(cat)
    decreases |artifacts|
  {
    if artifacts == [] {
    } else {
      DropMissing(cat, artifacts[0]);
      RepeatIsHarmless(cat, artifacts[1..]);
    }
  }

  lemma DropMissing(cat: Catalogue, a: Artifact)
    requires cat.Closed() && a !in cat.objects
    ensures cat.CanDrop(a) && cat.Dropped(a) == cat
  {
    assert cat.Dropped(a).needs == cat.needs;
  }

  // The statements of a generation that create nothing, with what they are about:
  // grants, settings, and Oracle's look at its default tablespace.
  datatype Setting =
    | GrantCreate(to: Artifact)
    | GrantFull(on: Artifact, to: Artifact)
    | GrantUsageAndCreate(on: Artifact, to: Artifact)
    | GrantDatabaseUsage(to: Artifact)
    | GrantWarehouseUsage(to: Artifact)
    | GrantRole(role: Artifact, to: Artifact)
    | GrantSession(to: Artifact)
    | GrantSessionAndCreate(to: Artifact)
    | DefaultTablespace
    | Quota(to: Artifact)
    | LogonTrigger(of: Artifact, schema: string)
    | AwaitUser(user: Artifact)

  // `settings` lists the accepted ones in order.
  class Server {
    const fails: nat -> bool
    var clock: nat
    var cat: Catalogue
    var settings: seq<Setting>

    constructor (fails: nat -> bool, cat: Catalogue)
      ensures this.fails == fails && this.cat == cat && settings == []
    {
      this.fails, this.cat := fails, cat;
      clock, settings := 0, [];
    }

    method Configure(setting: Setting) returns (ok: bool)
      modifies this`clock, this`settings
      ensures clock == old(clock) + 1
      ensures ok <==> !fails(old(clock))
      ensures settings == if ok then old(settings) + [setting] else old(settings)
    {
      ok := !fails(clock);
      clock := clock + 1;
      if ok {
        settings := settings + [setting];
      }
    }

    method Create(c: Creation) returns (ok: bool)
      modifies this`clock, this`cat
      ensures clock == old(clock) + 1
      ensures ok <==> !fails(old(clock)) && old(cat).CanCreate(c)
      ensures cat == if ok then old(cat).Created(c) else old(cat)
    {
      ok := !fails(clock) && cat.CanCreate(c);
      clock := clock + 1;
      if ok {
        cat := cat.Created(c);
      }
    }

    method Drop(a: Artifact) returns (ok: bool)
      modifies this`clock, this`cat
      ensures ok <==> !fails(old(clock)) && old(cat).CanDrop(a)
      ensures cat == if ok then old(cat).Dropped(a) else old(cat)
    {
      ok := !fails(clock) && cat.CanDrop(a);
      clock := clock + 1;
      if ok {
        cat := cat.Dropped(a);
      }
    }
  }

  datatype Names = Names(login: string, user: string, role: string, container: string)

  // Every GenerateAccount below promises the same. `base` carries the container
  // of the base binding for a derived account, and an empty one is an error
  // before anything happens. It succeeds if and only if, besides, the names are
  // free and none of its calls is refused. Wherever it fails, the objects it created are the
  // first `reached` of the planned ones, each created legally, and the artifacts
  // it returns name exactly those, in order: never an object that was there before.
  ghost predicate Generated(before: Catalogue, planned: seq<Creation>, ok: bool, artifacts: seq<Artifact>,
                            reached: nat, after: Catalogue)
  {
    && reached <= |planned| && (ok ==> reached == |planned|)
    && Legal(before, planned[..reached])
    && after == Grown(before, planned[..reached])
    && artifacts == ArtifactsOf(planned[..reached])
  }

  // Whatever a generation managed to create before it failed, deleting its
  // artifacts in reverse order restores the catalogue, and doing so once more is
  // accepted and changes nothing.
  lemma GenerationUndone(before: Catalogue, planned: seq<Creation>, ok: bool, artifacts: seq<Artifact>, reached: nat,
                         after: Catalogue)
    requires before.Closed() && Generated(before, planned, ok, artifacts, reached, after)
    ensures DropInOrder(after, Reversed(artifacts)) == Some(before)
    ensures DropInOrder(before, Reversed(artifacts)) == Some(before)
  {
    ReverseRestores(before, planned[..reached]);
    forall a | a in Reversed(artifacts)
      ensures a !in before.objects
    {
      ReversedIn(artifacts, a);
      var i :| 0 <= i < reached && artifacts[i] == a;
      NotYetCreated(before, planned[..reached], 0, i);
    }
    RepeatIsHarmless(before, Reversed(artifacts));
  }

  lemma {:induction false} ReversedIn<T>(s: seq<T>, x: T)
    ensures x in Reversed(s) <==> x in s
  {
    if s == [] {
    } else {
      ReversedIn(s[..|s| - 1], x);
      assert s == s[..|s| - 1] + [s[|s| - 1]];
    }
  }

  // Each creation needs only what the plan created before it, and none is made twice.
  ghost predicate SelfContained(planned: seq<Creation>) {
    && (forall i, d :: 0 <= i < |planned| && (d in planned[i].deps || d in planned[i].owners) ==>
          exists j :: 0 <= j < i && planned[j].artifact == d)
    && forall i, j :: 0 <= i < j < |planned| ==> planned[i].artifact != planned[j].artifact
  }

  // None of the names is taken.
  predicate Free(cat: Catalogue, planned: seq<Creation>) {
    forall c :: c in planned ==> c.artifact !in cat.objects
  }

  lemma {:induction false} GrownObjects(cat: Catalogue, creations: seq<Creation>, a: Artifact)
    ensures a in Grown(cat, creations).objects <==> a in cat.objects || a in ArtifactsOf(creations)
  {
    if creations == [] {
    } else {
      var n := |creations| - 1;
      GrownObjects(cat, creations[..n], a);
      assert ArtifactsOf(creations) == ArtifactsOf(creations[..n]) + [creations[n].artifact];
    }
  }

  lemma {:induction false} FreeIsLegal(cat: Catalogue, planned: seq<Creation>)
    requires SelfContained(planned)
    ensures Legal(cat, planned) <==> Free(cat, planned)
  {
    if planned == [] {
    } else {
      var n := |planned| - 1;
      var before, last := planned[..n], planned[n];
      assert planned == before + [last];
      forall d | d in last.deps || d in last.owners
        ensures d in ArtifactsOf(before)
      {
        var j :| 0 <= j < n && planned[j].artifact == d;
        assert ArtifactsOf(before)[j] == d;
      }
      FreeIsLegal(cat, before);
      forall a
        ensures a in Grown(cat, before).objects <==> a in cat.objects || a in ArtifactsOf(before)
      {
        GrownObjects(cat, before, a);
      }
      assert last.artifact !in ArtifactsOf(before);
    }
  }

  // A creation of a legal plan is refused only by failing.
  lemma {:induction false} Creatable(cat: Catalogue, planned: seq<Creation>, k: nat)
    requires Legal(cat, planned) && k < |planned|
    ensures Grown(cat, planned[..k]).CanCreate(planned[k])
  {
    var n := |planned| - 1;
    if k == n {
    } else {
      Creatable(cat, planned[..n], k);
      assert planned[..n][..k] == planned[..k];
    }
  }

  // None of the n calls from this one on is refused.
  ghost predicate Answers(fails: nat -> bool, clock: nat, n: nat) {
    forall k :: clock <= k < clock + n ==> !fails(k)
  }

  // The settings in order, up to the first refused.
  method ConfigureAll(server: Server, settings: seq<Setting>) returns (ok: bool)
    modifies server`clock, server`settings
    ensures ok <==> Answers(server.fails, old(server.clock), |settings|)
    ensures ok ==> server.clock == old(server.clock) + |settings| && server.settings == old(server.settings) + settings
  {
    for i := 0 to |settings|
      invariant server.clock == old(server.clock) + i && Answers(server.fails, old(server.clock), i)
      invariant server.settings == old(server.settings) + settings[..i]
    {
      ok := server.Configure(settings[i]);
      if !ok { return; }
    }
    ok := true;
  }

  lemma NextIsCreatable(before: Catalogue, planned: seq<Creation>, artifacts: seq<Artifact>, reached: nat,
                        after: Catalogue)
    requires SelfContained(planned) && Generated(before, planned, false, artifacts, reached, after)
    requires reached < |planned|
    ensures Free(before, planned) ==> after.CanCreate(planned[reached])
  {
    FreeIsLegal(before, planned);
    if Free(before, planned) {
      Creatable(before, planned, reached);
    }
  }

  // Once everything planned was created, the names had been free.
  lemma OneMore(before: Catalogue, planned: seq<Creation>, artifacts: seq<Artifact>, reached: nat, after: Catalogue)
    requires SelfContained(planned) && Generated(before, planned, false, artifacts, reached, after)
    requires reached < |planned| && after.CanCreate(planned[reached])
    ensures Generated(before, planned, reached + 1 == |planned|, artifacts + [planned[reached].artifact], reached + 1,
                      after.Created(planned[reached]))
    ensures reached + 1 == |planned| ==>
            Free(before, planned) && after.Created(planned[reached]) == Grown(before, planned)
  {
    var next := planned[..reached + 1];
    assert next[..reached] == planned[..reached];
    assert ArtifactsOf(next) == artifacts + [planned[reached].artifact];
    if reached + 1 == |planned| {
      assert next == planned;
      FreeIsLegal(before, planned);
    }
  }

  // The next planned creation: refused only by the server or because a name is taken.
  method CreateOne(server: Server, c: Creation, artifacts: seq<Artifact>,
                   ghost before: Catalogue, ghost planned: seq<Creation>, ghost reached: nat)
    returns (ok: bool, artifacts': seq<Artifact>, ghost reached': nat)
    requires SelfContained(planned) && Generated(before, planned, false, artifacts, reached, server.cat)
    requires reached < |planned| && planned[reached] == c
    modifies server`clock, server`cat
    ensures server.clock == old(server.clock) + 1
    ensures Generated(before, planned, reached' == |planned|, artifacts', reached', server.cat)
    ensures reached' == if ok then reached + 1 else reached
    ensures ok ==> !server.fails(old(server.clock))
    ensures !ok ==> server.fails(old(server.clock)) || !Free(before, planned)
    ensures reached' == |planned| ==> Free(before, planned) && server.cat == Grown(before, planned)
  {
    ghost var cat := server.cat;
    NextIsCreatable(before, planned, artifacts, reached, cat);
    ok := server.Create(c);
    if !ok { return false, artifacts, reached; }
    OneMore(before, planned, artifacts, reached, cat);
    artifacts', reached' := artifacts + [c.artifact], reached + 1;
  }

  // The same, and the statements that configure what was made.
  method CreateNext(server: Server, c: Creation, settings: seq<Setting>, artifacts: seq<Artifact>,
                    ghost before: Catalogue, ghost planned: seq<Creation>, ghost reached: nat)
    returns (ok: bool, artifacts': seq<Artifact>, ghost reached': nat)
    requires SelfContained(planned) && Generated(before, planned, false, artifacts, reached, server.cat)
    requires reached < |planned| && planned[reached] == c
    modifies server`clock, server`cat, server`settings
    ensures Generated(before, planned, reached' == |planned|, artifacts', reached', server.cat)
    ensures ok ==> reached' == reached + 1 && server.clock == old(server.clock) + 1 + |settings|
    ensures ok ==> Answers(server.fails, old(server.clock), 1 + |settings|)
    ensures ok ==> server.settings == old(server.settings) + settings
    ensures !ok ==> !Answers(server.fails, old(server.clock), 1 + |settings|) || !Free(before, planned)
    ensures reached' == |planned| ==> Free(before, planned) && server.cat == Grown(before, planned)
  {
    ok, artifacts', reached' := CreateOne(server, c, artifacts, before, planned, reached);
    if !ok { return; }
    ok := ConfigureAll(server, settings);
  }

  function SqlServerPlan(names: Names, base: Option<string>): seq<Creation> {
    var login, user := Artifact(Login, names.login), Artifact(User, names.user);
    [Creation(login, {}, {}), Creation(user, {login}, {})]
    + if base.None? then [Creation(Artifact(SchemaArtifact, names.container), {}, {user})] else []
  }

  // The reverse order is what makes it work: in creation order the drops of a base
  // account's artifacts are refused, since the schema's owner would go first; those
  // of a derived account are not.
  lemma CreationOrderRefused(cat: Catalogue, names: Names, base: Option<string>)
    requires cat.Closed() && Free(cat, SqlServerPlan(names, base))
    ensures DropInOrder(Grown(cat, SqlServerPlan(names, base)), ArtifactsOf(SqlServerPlan(names, base))).None?
            <==> base.None?
  {
    var planned, artifacts := SqlServerPlan(names, base), ArtifactsOf(SqlServerPlan(names, base));
    var login, user := artifacts[0], artifacts[1];
    var one := cat.Created(planned[0]);
    var two := one.Created(planned[1]);
    assert planned[..0] == [] && planned[..1][..0] == [] && planned[..2][..1] == planned[..1];
    assert Grown(cat, planned[..1]) == one;
    assert Grown(cat, planned[..2]) == two;
    assert forall c :: c in planned ==> c.artifact !in cat.objects;
    assert planned[0] in planned && planned[1] in planned;
    assert artifacts[1..][0] == user;
    if base.None? {
      var three := two.Created(planned[2]);
      assert planned[..3] == planned && planned[..|planned| - 1] == planned[..2];
      assert Grown(cat, planned) == three;
      assert (artifacts[2], user) in three.Dropped(login).needs;
    } else {
      assert planned[..2] == planned && Grown(cat, planned) == two;
      assert two.CanDrop(login) && two.Dropped(login).CanDrop(user);
      assert artifacts[1..][1..] == [];
      assert DropInOrder(two.Dropped(login), artifacts[1..]).Some?;
    }
  }

  method GenerateSqlServerAccount(server: Server, names: Names, base: Option<string>)
    returns (ok: bool, artifacts: seq<Artifact>, ghost reached: nat)
    modifies server
    ensures Generated(old(server.cat), SqlServerPlan(names, base), ok, artifacts, reached, server.cat)
    ensures ok <==>
            && base != Some("") && Free(old(server.cat), SqlServerPlan(names, base))
            && Answers(server.fails, old(server.clock), if base.None? then 4 else 2)
    ensures ok ==>
              var login, user := Artifact(Login, names.login), Artifact(User, names.user);
              var schema := Artifact(SchemaArtifact, names.container);
              && Makes(old(server.cat), server.cat, {login, user} + (if base.None? then {schema} else {}),
                       if base.None? then {(schema, user)} else {})
              && server.settings == old(server.settings) + if base.None? then [GrantCreate(user)] else []
  {
    ghost var before, planned := server.cat, SqlServerPlan(names, base);
    artifacts, reached := [], 0;
    PlansAreSelfContained(names, base);
    if base == Some("") { return false, artifacts, reached; }
    var login, user := Artifact(Login, names.login), Artifact(User, names.user);
    ok, artifacts, reached :=
      CreateNext(server, Creation(login, {}, {}), [], artifacts, before, planned, reached);
    if !ok { return; }
    ok, artifacts, reached :=
      CreateNext(server, Creation(user, {login}, {}), [], artifacts, before, planned, reached);
    if !ok { return; }
    assert server.settings == old(server.settings);
    if base.None? {
      // The schema, and the create permissions in the database.
      var schema := Artifact(SchemaArtifact, names.container);
      ok, artifacts, reached :=
        CreateNext(server, Creation(schema, {}, {user}), [GrantCreate(user)], artifacts, before, planned, reached);
    }
    if ok { SqlServerMade(before, names, base); }
  }

  // ClickHouse and Snowflake: the container is a database or a schema.
  function RolePlan(names: Names, base: Option<string>, container: ArtifactType): seq<Creation> {
    var role := Artifact(Role, names.role);
    [Creation(role, {}, {})]
    + (if base.None? then [Creation(Artifact(container, names.container), {}, {})] else [])
    + [Creation(Artifact(User, names.user), {role}, {})]
  }

  method GenerateClickHouseAccount(server: Server, names: Names, base: Option<string>)
    returns (ok: bool, artifacts: seq<Artifact>, ghost reached: nat)
    modifies server
    ensures Generated(old(server.cat), RolePlan(names, base, DatabaseArtifact), ok, artifacts, reached, server.cat)
    ensures ok <==>
            && base != Some("") && Free(old(server.cat), RolePlan(names, base, DatabaseArtifact))
            && Answers(server.fails, old(server.clock), if base.None? then 5 else 3)
    ensures ok ==>
              var role, user := Artifact(Role, names.role), Artifact(User, names.user);
              var database := Artifact(DatabaseArtifact, names.container);
              && Makes(old(server.cat), server.cat, {role, user} + (if base.None? then {database} else {}), {})
              && server.settings == old(server.settings)
                                    + (if base.None? then [GrantFull(database, role)] else [])
                                    + [GrantRole(role, user)]
  {
    ghost var before, planned := server.cat, RolePlan(names, base, DatabaseArtifact);
    artifacts, reached := [], 0;
    PlansAreSelfContained(names, base);
    if base == Some("") { return false, artifacts, reached; }
    var role, user := Artifact(Role, names.role), Artifact(User, names.user);
    ok, artifacts, reached :=
      CreateNext(server, Creation(role, {}, {}), [], artifacts, before, planned, reached);
    if !ok { return; }
    assert server.settings == old(server.settings);
    if base.None? {
      // The database, and the role's privileges on it.
      var database := Artifact(DatabaseArtifact, names.container);
      ok, artifacts, reached :=
        CreateNext(server, Creation(database, {}, {}), [GrantFull(database, role)], artifacts, before, planned,
                   reached);
      if !ok { return; }
    }
    // The user, and its role.
    ok, artifacts, reached :=
      CreateNext(server, Creation(user, {role}, {}), [GrantRole(role, user)], artifacts, before, planned, reached);
    RoleMade(before, names, base, DatabaseArtifact);
  }

  method GenerateSnowflakeAccount(server: Server, names: Names, base: Option<string>)
    returns (ok: bool, artifacts: seq<Artifact>, ghost reached: nat)
    modifies server
    ensures Generated(old(server.cat), RolePlan(names, base, SchemaArtifact), ok, artifacts, reached, server.cat)
    ensures ok <==>
            && base != Some("") && Free(old(server.cat), RolePlan(names, base, SchemaArtifact))
            && Answers(server.fails, old(server.clock), if base.None? then 7 else 5)
    ensures ok ==>
              var role, user := Artifact(Role, names.role), Artifact(User, names.user);
              var schema := Artifact(SchemaArtifact, names.container);
              && Makes(old(server.cat), server.cat, {role, user} + (if base.None? then {schema} else {}), {})
              && server.settings == old(server.settings) + [GrantDatabaseUsage(role), GrantWarehouseUsage(role)]
                                    + (if base.None? then [GrantUsageAndCreate(schema, role)] else [])
                                    + [GrantRole(role, user)]
  {
    ghost var before, planned := server.cat, RolePlan(names, base, SchemaArtifact);
    artifacts, reached := [], 0;
    PlansAreSelfContained(names, base);
    if base == Some("") { return false, artifacts, reached; }
    var role, user := Artifact(Role, names.role), Artifact(User, names.user);
    // The role, and USAGE on the database and on the warehouse.
    ok, artifacts, reached :=
      CreateNext(server, Creation(role, {}, {}), [GrantDatabaseUsage(role), GrantWarehouseUsage(role)], artifacts,
                 before, planned, reached);
    if !ok { return; }
    if base.None? {
      // The schema, and the role's privileges on it.
      var schema := Artifact(SchemaArtifact, names.container);
      ok, artifacts, reached :=
        CreateNext(server, Creation(schema, {}, {}), [GrantUsageAndCreate(schema, role)], artifacts, before, planned,
                   reached);
      if !ok { return; }
    }
    // The user, and its role.
    ok, artifacts, reached :=
      CreateNext(server, Creation(user, {role}, {}), [GrantRole(role, user)], artifacts, before, planned, reached);
    RoleMade(before, names, base, SchemaArtifact);
  }

  // The custom role of a derived MongoDB user carries the user's name.
  function MongoPlan(names: Names, base: Option<string>): seq<Creation> {
    var role, user := Artifact(Role, names.user), Artifact(User, names.user);
    if base.Some? then [Creation(role, {}, {}), Creation(user, {role}, {})] else [Creation(user, {}, {})]
  }

  method GenerateMongoAccount(server: Server, names: Names, base: Option<string>)
    returns (ok: bool, artifacts: seq<Artifact>, ghost reached: nat)
    modifies server
    ensures Generated(old(server.cat), MongoPlan(names, base), ok, artifacts, reached, server.cat)
    ensures ok <==>
            && base != Some("") && Free(old(server.cat), MongoPlan(names, base))
            && Answers(server.fails, old(server.clock), if base.Some? then 2 else 1)
    ensures ok ==>
              var role, user := Artifact(Role, names.user), Artifact(User, names.user);
              && Makes(old(server.cat), server.cat, {user} + (if base.Some? then {role} else {}), {})
              && server.settings == old(server.settings)
  {
    ghost var before, planned := server.cat, MongoPlan(names, base);
    artifacts, reached := [], 0;
    PlansAreSelfContained(names, base);
    if base == Some("") { return false, artifacts, reached; }
    var role, user := Artifact(Role, names.user), Artifact(User, names.user);
    var roles := {};
    if base.Some? {
      ok, artifacts, reached :=
        CreateNext(server, Creation(role, {}, {}), [], artifacts, before, planned, reached);
      if !ok { return; }
      roles := {role};
    }
    ok, artifacts, reached :=
      CreateNext(server, Creation(user, roles, {}), [], artifacts, before, planned, reached);
    MongoMade(before, names, base);
  }

  // Atlas and Oracle create one user.
  function UserPlan(names: Names): seq<Creation> {
    [Creation(Artifact(User, names.user), {}, {})]
  }

  // With a configured wait, the user must become usable on the cluster.
  method GenerateAtlasAccount(server: Server, names: Names, base: Option<string>, waits: bool)
    returns (ok: bool, artifacts: seq<Artifact>, ghost reached: nat)
    modifies server
    ensures Generated(old(server.cat), UserPlan(names), ok, artifacts, reached, server.cat)
    ensures ok <==>
            && base != Some("") && Free(old(server.cat), UserPlan(names))
            && Answers(server.fails, old(server.clock), if waits then 2 else 1)
    ensures ok ==>
              var user := Artifact(User, names.user);
              && Makes(old(server.cat), server.cat, {user}, {})
              && server.settings == old(server.settings) + if waits then [AwaitUser(user)] else []
  {
    ghost var before, planned := server.cat, UserPlan(names);
    artifacts, reached := [], 0;
    PlansAreSelfContained(names, base);
    if base == Some("") { return false, artifacts, reached; }
    var user := Artifact(User, names.user);
    ok, artifacts, reached :=
      CreateNext(server, Creation(user, {}, {}), if waits then [AwaitUser(user)] else [], artifacts, before, planned,
                 reached);
    UserMade(before, names);
  }

  // A base user is its own schema; a derived one is sent to the base's at logon.
  method GenerateOracleAccount(server: Server, names: Names, base: Option<string>)
    returns (ok: bool, artifacts: seq<Artifact>, ghost reached: nat)
    modifies server
    ensures Generated(old(server.cat), UserPlan(names), ok, artifacts, reached, server.cat)
    ensures ok <==>
            && base != Some("") && Free(old(server.cat), UserPlan(names))
            && Answers(server.fails, old(server.clock), if base.None? then 4 else 3)
    ensures ok ==>
              var user := Artifact(User, names.user);
              && Makes(old(server.cat), server.cat, {user}, {})
              && server.settings == old(server.settings) +
                 if base.None? then [DefaultTablespace, Quota(user), GrantSessionAndCreate(user)]
                 else [GrantSession(user), LogonTrigger(user, base.value)]
  {
    ghost var before, planned := server.cat, UserPlan(names);
    artifacts, reached := [], 0;
    PlansAreSelfContained(names, base);
    if base == Some("") { return false, artifacts, reached; }
    var user := Artifact(User, names.user);
    var settings := if base.None? then [DefaultTablespace, Quota(user), GrantSessionAndCreate(user)]
                    else [GrantSession(user), LogonTrigger(user, base.value)];
    ok, artifacts, reached :=
      CreateNext(server, Creation(user, {}, {}), settings, artifacts, before, planned, reached);
    UserMade(before, names);
  }

  // What the whole plans make.
  predicate Makes(before: Catalogue, after: Catalogue, made: set<Artifact>, owned: set<(Artifact, Artifact)>) {
    after.objects == before.objects + made && after.needs == before.needs + owned
  }

  lemma SqlServerMade(cat: Catalogue, names: Names, base: Option<string>)
    ensures var login, user := Artifact(Login, names.login), Artifact(User, names.user);
            var schema := Artifact(SchemaArtifact, names.container);
            Makes(cat, Grown(cat, SqlServerPlan(names, base)), {login, user} + (if base.None? then {schema} else {}),
                  if base.None? then {(schema, user)} else {})
  {
    OneByOne(cat, SqlServerPlan(names, base));
  }

  lemma RoleMade(cat: Catalogue, names: Names, base: Option<string>, container: ArtifactType)
    ensures var role, user := Artifact(Role, names.role), Artifact(User, names.user);
            Makes(cat, Grown(cat, RolePlan(names, base, container)),
                  {role, user} + (if base.None? then {Artifact(container, names.container)} else {}), {})
  {
    OneByOne(cat, RolePlan(names, base, container));
  }

  lemma MongoMade(cat: Catalogue, names: Names, base: Option<string>)
    ensures var role, user := Artifact(Role, names.user), Artifact(User, names.user);
            Makes(cat, Grown(cat, MongoPlan(names, base)), {user} + (if base.Some? then {role} else {}), {})
  {
    OneByOne(cat, MongoPlan(names, base));
  }

  lemma UserMade(cat: Catalogue, names: Names)
    ensures Makes(cat, Grown(cat, UserPlan(names)), {Artifact(User, names.user)}, {})
  {
    OneByOne(cat, UserPlan(names));
  }

  // A plan of one to three creations, one by one.
  lemma OneByOne(cat: Catalogue, planned: seq<Creation>)
    ensures |planned| == 1 ==> Grown(cat, planned) == cat.Created(planned[0])
    ensures |planned| == 2 ==> Grown(cat, planned) == cat.Created(planned[0]).Created(planned[1])
    ensures |planned| == 3 ==> Grown(cat, planned) == cat.Created(planned[0]).Created(planned[1]).Created(planned[2])
  {
    if |planned| in {1, 2, 3} {
      assert planned[..1][..0] == [] && planned[..|planned|] == planned;
      assert Grown(cat, planned[..1]) == cat.Created(planned[0]);
      if |planned| > 1 {
        assert planned[..2][..1] == planned[..1];
        assert Grown(cat, planned[..2]) == cat.Created(planned[0]).Created(planned[1]);
      }
    }
  }

  lemma PlansAreSelfContained(names: Names, base: Option<string>)
    ensures SelfContained(SqlServerPlan(names, base))
    ensures SelfContained(RolePlan(names, base, DatabaseArtifact))
            && SelfContained(RolePlan(names, base, SchemaArtifact))
    ensures SelfContained(MongoPlan(names, base)) && SelfContained(UserPlan(names))
  {
    var sqlServer, mongo := SqlServerPlan(names, base), MongoPlan(names, base);
    assert sqlServer[0].artifact == Artifact(Login, names.login) && sqlServer[1].artifact == Artifact(User, names.user);
    assert mongo[0].artifact in {Artifact(Role, names.user), Artifact(User, names.user)};
    forall k | k in {DatabaseArtifact, SchemaArtifact}
      ensures SelfContained(RolePlan(names, base, k))
    {
      assert RolePlan(names, base, k)[0].artifact == Artifact(Role, names.role);
    }
  }

  // The caller's rollback: DeleteArtifact in reverse creation order. It stops at
  // the first failure and can be called again with the same artifacts, and again
  // once everything is gone; `left` of the creations remain.
  method RollBack(server: Server, artifacts: seq<Artifact>, ghost before: Catalogue, ghost creations: seq<Creation>,
                  ghost n: nat)
    returns (ok: bool, ghost left: nat)
    requires before.Closed() && Legal(before, creations) && artifacts == ArtifactsOf(creations)
    requires n <= |creations| && server.cat == Grown(before, creations[..n])
    modifies server
    ensures left <= n && server.cat == Grown(before, creations[..left])
    ensures ok ==> server.cat == before
    ensures (forall k :: !server.fails(k)) ==> ok
  {
    left := n;
    var i := |artifacts|;
    while i > 0
      invariant left <= i <= |artifacts| && left <= n && server.cat == Grown(before, creations[..left])
    {
      i := i - 1;
      LegalPrefix(before, creations, left);
      LegalPrefix(before, creations, i);
      if i < left {
        assert left == i + 1 && creations[..left][..i] == creations[..i];
        GrownClosed(before, creations[..i]);
        CreateThenDrop(Grown(before, creations[..i]), creations[i]);
      } else {
        GrownClosed(before, creations[..left]);
        NotYetCreated(before, creations, left, i);
        DropMissing(server.cat, artifacts[i]);
      }
      var dropped := server.Drop(artifacts[i]);
      if !dropped {
        return false, left;
      }
      if i < left {
        left := i;
      }
    }
    ok := true;
  }

  lemma {:induction false} LegalPrefix(cat: Catalogue, creations: seq<Creation>, n: nat)
    requires Legal(cat, creations) && n <= |creations|
    ensures Legal(cat, creations[..n])
  {
    if n == |creations| {
      assert creations[..n] == creations;
    } else {
      LegalPrefix(cat, creations[..|creations| - 1], n);
      assert creations[..|creations| - 1][..n] == creations[..n];
    }
  }

  lemma {:induction false} NotYetCreated(cat: Catalogue, creations: seq<Creation>, n: nat, i: nat)
    requires Legal(cat, creations) && n <= i < |creations|
    ensures creations[i].artifact !in Grown(cat, creations[..n]).objects
  {
    LegalPrefix(cat, creations, i + 1);
    assert creations[..i + 1][..i] == creations[..i];
    GrownGrows(cat, creations, n, i);
  }

  lemma {:induction false} GrownGrows(cat: Catalogue, creations: seq<Creation>, n: nat, i: nat)
    requires n <= i <= |creations|
    ensures Grown(cat, creations[..n]).objects <= Grown(cat, creations[..i]).objects
  {
    if n < i {
      GrownGrows(cat, creations, n, i - 1);
      assert creations[..i][..i - 1] == creations[..i - 1];
    }
  }
}
