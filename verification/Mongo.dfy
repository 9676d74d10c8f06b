/** MongoDB accounts: one atomic rebuild per change, recovery of dropped users and roles, rollback. */
module Mongo {
  import opened Grants
  import opened MongoGrants

  datatype Reply = Accepted | NotFound | Refused

  // A self-hosted user holds custom roles; an Atlas user built-in ones, on a cluster.
  datatype User = User(roles: set<string>, password: string)

  datatype AtlasUser = AtlasUser(roles: seq<AtlasRole>, cluster: string, password: string)

  // What the server holds between two commands: custom roles, users, and the users
  // of the Atlas project.
  datatype Snapshot = Snapshot(roles: map<string, seq<Privilege>>, users: map<string, User>,
                               atlasUsers: map<string, AtlasUser>)
  {
    // A user may do what one of its roles allows.
    predicate UserMay(name: string, database: string, a: Action, collection: string) {
      && name in users
      && exists r :: r in users[name].roles && r in roles && Allows(roles[r], database, a, collection)
    }

    predicate AtlasUserMay(name: string, database: string, a: Action, collection: string)
      requires a in DATA_ACTIONS
    {
      name in atlasUsers && AtlasAllows(atlasUsers[name].roles, database, a, collection)
    }
  }

  // Every command succeeds or fails as a whole; `fails` says which are refused.
  // `history` is every state the commands left behind, in order.
  class Server {
    const fails: nat -> bool
    var clock: nat
    var roles: map<string, seq<Privilege>>
    var users: map<string, User>
    var atlasUsers: map<string, AtlasUser>
    ghost var history: seq<Snapshot>

    constructor (fails: nat -> bool)
      ensures this.fails == fails && clock == 0
      ensures roles == map[] && users == map[] && atlasUsers == map[] && history == []
    {
      this.fails := fails;
      clock, roles, users, atlasUsers, history := 0, map[], map[], map[], [];
    }

    function Now(): Snapshot
      reads this
    {
      Snapshot(roles, users, atlasUsers)
    }

    method Tick() returns (ok: bool)
      modifies this`clock
      ensures ok <==> !fails(old(clock))
      ensures clock == old(clock) + 1
    {
      ok := !fails(clock);
      clock := clock + 1;
    }

    method CreateRole(name: string, privileges: seq<Privilege>) returns (ok: bool)
      modifies this`clock, this`roles, this`history
      ensures clock == old(clock) + 1
      ensures ok <==> !fails(old(clock)) && name !in old(roles)
      ensures roles == if ok then old(roles)[name := privileges] else old(roles)
      ensures history == old(history) + if ok then [Now()] else []
    {
      ok := Tick();
      ok := ok && name !in roles;
      if ok {
        roles := roles[name := privileges];
        history := history + [Now()];
      }
    }

    method UpdateRole(name: string, privileges: seq<Privilege>) returns (r: Reply)
      modifies this`clock, this`roles, this`history
      ensures clock == old(clock) + 1
      ensures r == if fails(old(clock)) then Refused else if name in old(roles) then Accepted else NotFound
      ensures roles == if r.Accepted? then old(roles)[name := privileges] else old(roles)
      ensures history == old(history) + if r.Accepted? then [Now()] else []
    {
      var ok := Tick();
      r := if !ok then Refused else if name in roles then Accepted else NotFound;
      if r.Accepted? {
        roles := roles[name := privileges];
        history := history + [Now()];
      }
    }

    // Dropping a role takes it away from its users.
    method DropRole(name: string) returns (r: Reply)
      modifies this`clock, this`roles, this`users, this`history
      ensures clock == old(clock) + 1
      ensures r == if fails(old(clock)) then Refused else if name in old(roles) then Accepted else NotFound
      ensures roles == if r.Accepted? then old(roles) - {name} else old(roles)
      ensures users == if r.Accepted? then Without(old(users), name) else old(users)
      ensures history == old(history) + if r.Accepted? then [Now()] else []
    {
      var ok := Tick();
      r := if !ok then Refused else if name in roles then Accepted else NotFound;
      if r.Accepted? {
        roles := roles - {name};
        users := Without(users, name);
        history := history + [Now()];
      }
    }

    // A user's custom roles must exist when it is created.
    method CreateUser(name: string, user: User) returns (ok: bool)
      modifies this`clock, this`users, this`history
      ensures clock == old(clock) + 1
      ensures ok <==> !fails(old(clock)) && name !in old(users) && user.roles <= roles.Keys
      ensures users == if ok then old(users)[name := user] else old(users)
      ensures history == old(history) + if ok then [Now()] else []
    {
      ok := Tick();
      ok := ok && name !in users && user.roles <= roles.Keys;
      if ok {
        users := users[name := user];
        history := history + [Now()];
      }
    }

    method DropUser(name: string) returns (r: Reply)
      modifies this`clock, this`users, this`history
      ensures clock == old(clock) + 1
      ensures r == if fails(old(clock)) then Refused else if name in old(users) then Accepted else NotFound
      ensures users == if r.Accepted? then old(users) - {name} else old(users)
      ensures history == old(history) + if r.Accepted? then [Now()] else []
    {
      var ok := Tick();
      r := if !ok then Refused else if name in users then Accepted else NotFound;
      if r.Accepted? {
        users := users - {name};
        history := history + [Now()];
      }
    }

    // PATCH of the roles array: 404 when the user is gone; scopes stay as they are.
    method UpdateAtlasRoles(name: string, roles': seq<AtlasRole>) returns (r: Reply)
      modifies this`clock, this`atlasUsers, this`history
      ensures clock == old(clock) + 1
      ensures r == if fails(old(clock)) then Refused else if name in old(atlasUsers) then Accepted else NotFound
      ensures atlasUsers == if r.Accepted? then old(atlasUsers)[name := old(atlasUsers)[name].(roles := roles')]
                            else old(atlasUsers)
      ensures history == old(history) + if r.Accepted? then [Now()] else []
    {
      var ok := Tick();
      r := if !ok then Refused else if name in atlasUsers then Accepted else NotFound;
      if r.Accepted? {
        atlasUsers := atlasUsers[name := atlasUsers[name].(roles := roles')];
        history := history + [Now()];
      }
    }

    // POST of a user: 409 when it exists; a roles array may not be empty.
    method CreateAtlasUser(name: string, user: AtlasUser) returns (ok: bool)
      modifies this`clock, this`atlasUsers, this`history
      ensures clock == old(clock) + 1
      ensures ok <==> !fails(old(clock)) && name !in old(atlasUsers) && user.roles != []
      ensures atlasUsers == if ok then old(atlasUsers)[name := user] else old(atlasUsers)
      ensures history == old(history) + if ok then [Now()] else []
    {
      ok := Tick();
      ok := ok && name !in atlasUsers && user.roles != [];
      if ok {
        atlasUsers := atlasUsers[name := user];
        history := history + [Now()];
      }
    }
  }

  // The users once the role is gone.
  function Without(users: map<string, User>, role: string): map<string, User> {
    map u | u in users :: users[u].(roles := users[u].roles - {role})
  }

  // ---- which commands a call issues, and what becomes of them ----

  datatype Account = Account(username: string, database: string, password: string)

  // A derived user's only role is its own custom role, of the same name.
  function OwnUser(account: Account): User {
    User({account.username}, account.password)
  }

  // What a self-hosted apply may leave in the account's role.
  datatype Outcome = Done | Unchanged | RolledBack | Stuck

  predicate Settable(account: Account, grants: seq<Grant>) {
    AllAccepted(grants) && account.username != "" && account.database != ""
  }

  // A replacement of the permission set starting at a clock: whether it is
  // accepted, and the clock afterwards. An update; where nothing is there to
  // update and it can be recreated, a create.
  function Replacing(fails: nat -> bool, clock: nat, present: bool, recreatable: bool): (bool, nat) {
    if fails(clock) then (false, clock + 1)
    else if present then (true, clock + 1)
    else if recreatable then (!fails(clock + 1), clock + 2)
    else (false, clock + 1)
  }

  function Setting(fails: nat -> bool, clock: nat, account: Account, present: bool, recreatable: bool,
                   grants: seq<Grant>): (bool, nat)
  {
    if Settable(account, grants) then Replacing(fails, clock, present, recreatable) else (false, clock)
  }

  // A look at the user, and its creation if it is not there.
  function Restoring(fails: nat -> bool, clock: nat, account: Account, hasRole: bool, hasUser: bool): (bool, nat) {
    if account.username == "" || account.password == "" then (false, clock)
    else if fails(clock) then (false, clock + 1)
    else if hasUser then (true, clock + 1)
    else (hasRole && !fails(clock + 1), clock + 2)
  }

  // The self-hosted apply callback: replacement, restore, and the rollback of a failed restore.
  function Rebuilding(fails: nat -> bool, clock: nat, account: Account, hasRole: bool, hasUser: bool,
                      applied: seq<Grant>, union: seq<Grant>, reapplyAll: bool): (Outcome, nat)
  {
    var (updated, afterUpdate) := Setting(fails, clock, account, hasRole, true, union);
    if !updated then (Unchanged, afterUpdate)
    else if !reapplyAll then (Done, afterUpdate)
    else
      var (restored, afterRestore) := Restoring(fails, afterUpdate, account, true, hasUser);
      if restored then (Done, afterRestore)
      else
        var (undone, end) := Setting(fails, afterRestore, account, true, true, applied);
        (if undone then RolledBack else Stuck, end)
  }

  // An apply is stuck exactly when the update was accepted, the restore was asked
  // for and failed - no password is stored, the look at the user was refused, or
  // the missing user's creation was - and the rollback command was refused as well.
  lemma StuckExactly(fails: nat -> bool, clock: nat, account: Account, hasRole: bool, hasUser: bool,
                     applied: seq<Grant>, desired: seq<Grant>, reapplyAll: bool)
    ensures var union, t := Union(applied, desired), if hasRole then clock + 1 else clock + 2;
            Rebuilding(fails, clock, account, hasRole, hasUser, applied, union, reapplyAll).0.Stuck? <==>
            && Settable(account, union) && !fails(clock) && (hasRole || !fails(clock + 1))
            && reapplyAll
            && if account.password == "" then fails(t)
               else if fails(t) then fails(t + 1)
               else !hasUser && fails(t + 1) && fails(t + 2)
  {
    UnionAccepted(applied, desired);
  }

  lemma UnionAccepted(applied: seq<Grant>, desired: seq<Grant>)
    ensures AllAccepted(Union(applied, desired)) <==> AllAccepted(applied) && AllAccepted(desired)
  {
    forall g
      ensures g in Union(applied, desired) <==> g in applied || g in desired
    {
      UnionIn(applied, desired, g);
    }
  }

  // ---- the provider ----

  datatype ApplyResult = ApplyResult(grantsApplied: seq<Grant>, pendingRevokes: seq<Grant>, granted: seq<Grant>)

  // applied, then the desired grants that are not among them, each once.
  function Union(applied: seq<Grant>, desired: seq<Grant>): seq<Grant> {
    if desired == [] then applied
    else
      var n := |desired| - 1;
      var before := Union(applied, desired[..n]);
      if desired[n] in before then before else before + [desired[n]]
  }

  lemma {:induction false} UnionIn(applied: seq<Grant>, desired: seq<Grant>, g: Grant)
    ensures g in Union(applied, desired) <==> g in applied || g in desired
  {
    if desired == [] {
    } else {
      var n := |desired| - 1;
      UnionIn(applied, desired[..n], g);
      assert desired == desired[..n] + [desired[n]];
    }
  }

  // The applied grants come first, as they were; the others follow, each once.
  lemma {:induction false} UnionOrder(applied: seq<Grant>, desired: seq<Grant>)
    ensures applied <= Union(applied, desired)
    ensures var added := Union(applied, desired)[|applied|..];
            NoDuplicates(added) && forall g :: g in added ==> g !in applied
  {
    if desired == [] {
    } else {
      var n := |desired| - 1;
      UnionOrder(applied, desired[..n]);
      var before := Union(applied, desired[..n]);
      if desired[n] !in before {
        assert Union(applied, desired)[|applied|..] == before[|applied|..] + [desired[n]];
      }
    }
  }

  function Kept(applied: seq<Grant>, revokes: seq<Grant>): seq<Grant> {
    Select(g => g !in revokes, applied)
  }

  predicate Supported(grants: seq<Grant>) {
    forall g :: g in grants ==> g.kind.Read? || g.kind.Full?
  }

  class Binding {
    const server: Server
    const isAtlas: bool
    const cluster: string

    constructor (server: Server, isAtlas: bool, cluster: string)
      ensures this.server == server && this.isAtlas == isAtlas && this.cluster == cluster
    {
      this.server, this.isAtlas, this.cluster := server, isAtlas, cluster;
    }

    // A derived account: a role without privileges and its user, or an Atlas user
    // with the placeholder alone. Until grants are applied it can do nothing.
    method GenerateDerivedAccount(account: Account) returns (ok: bool)
      modifies server`clock, server`roles, server`users, server`atlasUsers, server`history
      ensures Others(account, old(server.Now()), server.Now())
      ensures ok && !isAtlas ==>
                && Serves(server.Now(), account, []) && server.users[account.username].password == account.password
                && forall db, a, c :: c != "" ==> !server.Now().UserMay(account.username, db, a, c)
      ensures ok && isAtlas ==>
                && BuiltAtlas(server.Now(), account, [])
                && server.atlasUsers[account.username].cluster == cluster
                && server.atlasUsers[account.username].password == account.password
                && forall db, a, c :: a in DATA_ACTIONS && c != "" ==>
                     (server.Now().AtlasUserMay(account.username, db, a, c) <==> PlaceholderGives(db, a, c))
      ensures (forall n :: !server.fails(n)) ==>
                (ok <==> if isAtlas then account.username !in old(server.atlasUsers)
                         else account.username !in old(server.roles) && account.username !in old(server.users))
    {
      if isAtlas {
        var roles := BuildAtlasRoles(account.database, []);
        AtlasRolesNonEmpty(account.database, [], roles.value);
        ok := server.CreateAtlasUser(account.username, AtlasUser(roles.value, cluster, account.password));
        if ok { PlaceholderAlone(account, server.Now()); }
        return;
      }
      ok := server.CreateRole(account.username, []);
      if !ok { return; }
      ok := server.CreateUser(account.username, OwnUser(account));
      if ok {
        ThreeLists([], [], []);
        ServingLosesNothing(account, [], [], [], server.Now());
      }
    }

    // The clock a replacement for the account would start from decides its outcome.
    function SettingNow(account: Account, grants: seq<Grant>): (bool, nat)
      reads server
    {
      Setting(server.fails, server.clock, account,
              account.username in (if isAtlas then server.atlasUsers.Keys else server.roles.Keys),
              !isAtlas || account.password != "", grants)
    }

    method SetUserGrants(account: Account, grants: seq<Grant>) returns (ok: bool)
      modifies server`clock, server`roles, server`atlasUsers, server`history
      // A role dropped out-of-band comes back, and so does an Atlas user whose
      // password is known; the commands' replies alone decide.
      ensures (ok, server.clock) == old(SettingNow(account, grants))
      // One complete replacement, or no change at all.
      ensures server.history == old(server.history) + if ok then [server.Now()] else []
      ensures !ok ==> server.Now() == old(server.Now())
      ensures ok && !isAtlas ==>
                && account.username in server.roles
                && Compiled(account.database, grants, server.roles[account.username])
      ensures ok && isAtlas ==> Reset(account, grants, old(server.Now()), server.Now())
      // Nothing happens to any other role or user.
      ensures server.roles - {account.username} == old(server.roles) - {account.username}
      ensures server.atlasUsers - {account.username} == old(server.atlasUsers) - {account.username}
      ensures if isAtlas then server.roles == old(server.roles) else server.atlasUsers == old(server.atlasUsers)
    {
      if account.username == "" || account.database == "" { return false; }
      if isAtlas {
        var roles := BuildAtlasRoles(account.database, grants);
        if roles.Err? { return false; }
        AtlasRolesNonEmpty(account.database, grants, roles.value);
        ok := ReplaceAtlasRoles(account, roles.value);
        return;
      }
      var privileges := BuildRolePrivileges(account.database, grants);
      if privileges.Err? { return false; }
      ok := ReplacePrivileges(account, privileges.value);
    }

    // The Atlas user's roles are replaced; a user that is gone is recreated.
    method ReplaceAtlasRoles(account: Account, roles: seq<AtlasRole>) returns (ok: bool)
      requires roles != []
      modifies server`clock, server`atlasUsers, server`history
      ensures (ok, server.clock)
              == Replacing(server.fails, old(server.clock), account.username in old(server.atlasUsers),
                                              account.password != "")
      ensures server.history == old(server.history) + if ok then [server.Now()] else []
      ensures !ok ==> server.atlasUsers == old(server.atlasUsers)
      ensures ok ==> server.atlasUsers == old(server.atlasUsers)[account.username :=
                       if account.username in old(server.atlasUsers)
                       then old(server.atlasUsers)[account.username].(roles := roles)
                       else AtlasUser(roles, cluster, account.password)]
    {
      var reply := server.UpdateAtlasRoles(account.username, roles);
      ok := reply.Accepted?;
      if reply.NotFound? && account.password != "" {
        ok := server.CreateAtlasUser(account.username, AtlasUser(roles, cluster, account.password));
      }
    }

    // The custom role's privileges are replaced; a role that is gone is recreated.
    method ReplacePrivileges(account: Account, privileges: seq<Privilege>) returns (ok: bool)
      modifies server`clock, server`roles, server`history
      ensures (ok, server.clock)
              == Replacing(server.fails, old(server.clock), account.username in old(server.roles), true)
      ensures server.history == old(server.history) + if ok then [server.Now()] else []
      ensures server.roles == if ok then old(server.roles)[account.username := privileges] else old(server.roles)
    {
      var reply := server.UpdateRole(account.username, privileges);
      ok := reply.Accepted?;
      if reply.NotFound? {
        ok := server.CreateRole(account.username, privileges);
      }
    }

    // The Atlas user has the grants' roles; its cluster scope and password are what
    // they were or, if it had been gone, the configured and the stored ones.
    ghost predicate Reset(account: Account, grants: seq<Grant>, before: Snapshot, after: Snapshot) {
      && BuiltAtlas(after, account, grants)
      && var user := after.atlasUsers[account.username];
         if account.username in before.atlasUsers then user == before.atlasUsers[account.username].(roles := user.roles)
         else user == AtlasUser(user.roles, cluster, account.password)
    }

    // Recreates the derived user if it was dropped out-of-band.
    method RestoreSelfHostedUser(account: Account) returns (ok: bool)
      modifies server`clock, server`users, server`history
      ensures (ok, server.clock) == Restoring(server.fails, old(server.clock), account,
                                              account.username in server.roles, account.username in old(server.users))
      ensures server.users == if ok && account.username !in old(server.users)
                              then old(server.users)[account.username := User({account.username}, account.password)]
                                else old(server.users)
      ensures server.history ==
              old(server.history) + if ok && account.username !in old(server.users) then [server.Now()] else []
    {
      if account.username == "" || account.password == "" { return false; }
      ok := server.Tick();
      if !ok || account.username in server.users { return; }
      ok := server.CreateUser(account.username, OwnUser(account));
    }

    // The callback ApplyGrantsRebuild drives with the union of applied and desired.
    method Rebuild(account: Account, applied: seq<Grant>, union: seq<Grant>, reapplyAll: bool)
      returns (ok: bool, ghost outcome: Outcome)
      modifies server`clock, server`roles, server`users, server`atlasUsers, server`history
      ensures ok <==> outcome.Done?
      ensures !isAtlas ==> (outcome, server.clock) ==
                           Rebuilding(server.fails, old(server.clock), account, account.username in old(server.roles),
                                      account.username in old(server.users), applied, union, reapplyAll)
      ensures isAtlas ==> outcome == (if ok then Done else Unchanged)
                          && (ok, server.clock) == old(SettingNow(account, union))
      ensures EndsAs(outcome, account, applied, union, reapplyAll, old(server.Now()), server.Now())
      ensures old(server.history) <= server.history
      ensures forall i :: |old(server.history)| <= i < |server.history| ==>
                Midway(account, applied, union, old(server.Now()), server.history[i])
    {
      ghost var before := server.Now();
      ok := SetUserGrants(account, union);
      if !ok { return false, Unchanged; }
      if isAtlas || !reapplyAll { return true, Done; }
      ok := RestoreSelfHostedUser(account);
      if ok { return true, Done; }
      // The role update has committed; undo it.
      var cleaned := SetUserGrants(account, applied);
      return false, if cleaned then RolledBack else Stuck;
    }

    // What a call leaves of the account, whatever became of it. Everything that
    // is not the account's own is as it was.
    ghost predicate EndsAs(outcome: Outcome, account: Account, applied: seq<Grant>, union: seq<Grant>, reapplyAll: bool,
                         before: Snapshot, after: Snapshot)
    {
      && Others(account, before, after)
      && if isAtlas then
           && after.roles == before.roles && after.users == before.users
           && if outcome.Done? then Reset(account, union, before, after) else after == before
         else
           && after.atlasUsers == before.atlasUsers
           && Leaves(outcome, account.database, applied, union, RoleOf(before, account), RoleOf(after, account))
           && after.users == if outcome.Done? && reapplyAll && account.username !in before.users
                             then before.users[account.username := OwnUser(account)] else before.users
    }

    // A state in between: the permission set is one of the two lists, complete,
    // and the user is as it was or has just been restored.
    ghost predicate Midway(account: Account, applied: seq<Grant>, union: seq<Grant>, before: Snapshot, s: Snapshot) {
      && Others(account, before, s)
      && if isAtlas then BuiltAtlas(s, account, applied) || BuiltAtlas(s, account, union)
         else
           && (Built(s, account, applied) || Built(s, account, union))
           && (s.users == before.users ||
               (account.username !in before.users && s.users == before.users[account.username := OwnUser(account)]))
    }

    method ApplyGrants(account: Account, applied: seq<Grant>, desired: seq<Grant>, reapplyAll: bool)
      returns (r: Result<ApplyResult>, ghost outcome: Outcome)
      modifies server`clock, server`roles, server`users, server`atlasUsers, server`history
      ensures r.Ok? <==> outcome.Done?
      ensures r.Ok? ==> r.value.grantsApplied == Union(applied, desired)
                        && (forall g :: g in r.value.pendingRevokes <==> g in applied && g !in desired)
                        && (forall g :: g in r.value.granted <==> g in desired && g !in applied)
      ensures !isAtlas ==> (outcome, server.clock) ==
                           Rebuilding(server.fails, old(server.clock), account, account.username in old(server.roles),
                                      account.username in old(server.users), applied, Union(applied, desired),
                                      reapplyAll)
      ensures isAtlas ==> outcome == (if r.Ok? then Done else Unchanged)
                          && (r.Ok?, server.clock) == old(SettingNow(account, Union(applied, desired)))
      ensures EndsAs(outcome, account, applied, Union(applied, desired), reapplyAll, old(server.Now()), server.Now())
      ensures old(server.history) <= server.history
      ensures forall i :: |old(server.history)| <= i < |server.history| ==>
                Midway(account, applied, Union(applied, desired), old(server.Now()), server.history[i])
      // With nothing refused, exactly the valid lists are applied.
      ensures (forall n :: !server.fails(n))
              && account.username != "" && account.database != "" && account.password != "" ==>
                (r.Ok? <==> AllAccepted(applied) && AllAccepted(desired))
      // The user is there again, but a role it lost with an out-of-band drop stays lost.
      ensures !isAtlas && r.Ok? && reapplyAll ==>
                && account.username in server.users
                && (account.username in server.users[account.username].roles <==>
                    account.username in old(server.users) ==>
                      account.username in old(server.users)[account.username].roles)
    {
      var union := Union(applied, desired);
      UnionAccepted(applied, desired);
      if !Supported(desired) {
        assert !AllAccepted(desired);
        return Err, Unchanged;
      }
      var ok;
      ok, outcome := Rebuild(account, applied, union, reapplyAll);
      if !ok { return Err, outcome; }
      forall g
        ensures g in Kept(applied, desired) <==> g in applied && g !in desired
        ensures g in Kept(desired, applied) <==> g in desired && g !in applied
      {
        SelectIn(h => h !in desired, applied, g);
        SelectIn(h => h !in applied, desired, g);
      }
      r := Ok(ApplyResult(union, Kept(applied, desired), Kept(desired, applied)));
    }

    // The caller passes exactly the grants that remain after the revoke.
    method RevokeGrants(account: Account, revokes: seq<Grant>, regrants: seq<Grant>) returns (ok: bool)
      modifies server`clock, server`roles, server`atlasUsers, server`history
      ensures revokes == [] ==> ok && server.clock == old(server.clock)
      ensures revokes != [] ==> (ok, server.clock) == old(SettingNow(account, regrants))
      ensures Others(account, old(server.Now()), server.Now())
      ensures server.history == old(server.history) + if revokes != [] && ok then [server.Now()] else []
      ensures revokes == [] || !ok ==> server.Now() == old(server.Now())
      ensures revokes != [] && ok ==>
                if isAtlas then Reset(account, regrants, old(server.Now()), server.Now())
                  && server.roles == old(server.roles)
                else Built(server.Now(), account, regrants) && server.atlasUsers == old(server.atlasUsers)
    {
      if revokes == [] { return true; }
      ok := SetUserGrants(account, regrants);
    }

    lemma MidwayLosesNothing(account: Account, applied: seq<Grant>, desired: seq<Grant>, before: Snapshot, s: Snapshot)
      requires Midway(account, applied, Union(applied, desired), before, s)
      ensures !isAtlas && Serves(before, account, applied) ==> NothingLost(s, account, applied, desired)
      ensures isAtlas ==> NothingLostInAtlas(s, account, applied, desired)
    {
      ThreeLists(applied, desired, applied);
      ThreeLists(applied, desired, Union(applied, desired));
      if isAtlas {
        var between := if BuiltAtlas(s, account, applied) then applied else Union(applied, desired);
        AtlasLosesNothing(account, applied, desired, between, s);
      } else if Serves(before, account, applied) {
        var between := if Built(s, account, applied) then applied else Union(applied, desired);
        ServingLosesNothing(account, applied, desired, between, s);
      }
    }

    // A whole change of the account's grants: apply, the caller's commit of the
    // metadata, and the revoke of what is pending. At every moment in between,
    // whatever is refused, the account may do what both the old and the new grants
    // cover, and nothing that neither covers.
    method ChangeGrants(account: Account, applied: seq<Grant>, desired: seq<Grant>, reapplyAll: bool, commits: bool)
      returns (ok: bool, recorded: seq<Grant>)
      modifies server`clock, server`roles, server`users, server`atlasUsers, server`history
      ensures old(server.history) <= server.history
      ensures !isAtlas && old(Serves(server.Now(), account, applied)) ==>
                forall i :: |old(server.history)| <= i < |server.history| ==>
                  NothingLost(server.history[i], account, applied, desired)
      ensures isAtlas && old(BuiltAtlas(server.Now(), account, applied)) ==>
                forall i :: |old(server.history)| <= i < |server.history| ==>
                  NothingLostInAtlas(server.history[i], account, applied, desired)
      ensures !ok ==> recorded in {applied, Union(applied, desired)}
      ensures ok ==> forall g :: g in recorded <==> g in desired
      ensures ok && !isAtlas && old(Serves(server.Now(), account, applied)) ==> Serves(server.Now(), account, recorded)
      ensures ok && isAtlas ==> BuiltAtlas(server.Now(), account, recorded)
      ensures (forall n :: !server.fails(n))
              && account.username != "" && account.database != "" && account.password != "" ==>
                (ok <==> commits && AllAccepted(applied) && AllAccepted(desired))
    {
      ghost var before, mark := server.Now(), |server.history|;
      var r;
      ghost var outcome;
      r, outcome := ApplyGrants(account, applied, desired, reapplyAll);
      forall i | mark <= i < |server.history|
        ensures !isAtlas && Serves(before, account, applied) ==>
                NothingLost(server.history[i], account, applied, desired)
        ensures isAtlas ==> NothingLostInAtlas(server.history[i], account, applied, desired)
      {
        MidwayLosesNothing(account, applied, desired, before, server.history[i]);
      }
      if r.Err? || !commits { return false, applied; }
      recorded := r.value.grantsApplied;
      var pending := r.value.pendingRevokes;
      var regrants := Kept(recorded, pending);
      KeptAreDesired(applied, desired, pending);
      UnionAccepted(applied, desired);
      ok := RevokeGrants(account, pending, regrants);
      if !ok { return; }
      ThreeLists(applied, desired, regrants);
      if pending == [] {
        NothingRevoked(recorded);
      } else if isAtlas {
        AtlasLosesNothing(account, applied, desired, regrants, server.Now());
      } else if Serves(before, account, applied) {
        ServingLosesNothing(account, applied, desired, regrants, server.Now());
      }
      recorded := regrants;
    }

    // ---- one derived self-hosted account over time ----

    ghost function StateOf(account: Account, record: Record): State
      reads server, record
    {
      var s := server.Now();
      State(server.clock, RoleOf(s, account),
            if account.username in s.users then Some(account.username in s.users[account.username].roles) else None,
            record.applied, record.surplus)
    }

    // One event: a call and what the caller records of it, or a change behind
    // the provider's back.
    method Step(account: Account, record: Record, e: Event)
      requires !isAtlas
      modifies server, record
      ensures Next(server.fails, account, old(StateOf(account, record)), e, StateOf(account, record))
    {
      ghost var s := StateOf(account, record);
      match e {
        case Apply(desired, reapplyAll, commits) =>
          var r;
          ghost var outcome;
          r, outcome := ApplyGrants(account, record.applied, desired, reapplyAll);
          record.surplus := SurplusAfter(outcome, desired, commits, record.surplus);
          if r.Ok? && commits {
            record.applied := r.value.grantsApplied;
          }
        case Revoke(revokes) =>
          var regrants := Kept(record.applied, revokes);
          var ok := RevokeGrants(account, revokes, regrants);
          if ok && revokes != [] {
            record.applied, record.surplus := regrants, [];
          }
        case RoleDropped =>
          var reply := server.DropRole(account.username);
          if reply.Accepted? {
            record.surplus := [];
          }
        case UserDropped =>
          var reply := server.DropUser(account.username);
      }
    }

    // Any sequence of calls and out-of-band changes is a run.
    method Play(account: Account, record: Record, events: seq<Event>) returns (ghost states: seq<State>)
      requires !isAtlas
      modifies server, record
      ensures IsRun(server.fails, account, states, events)
      ensures states[0] == old(StateOf(account, record)) && states[|events|] == StateOf(account, record)
    {
      states := [StateOf(account, record)];
      for i := 0 to |events|
        invariant IsRun(server.fails, account, states, events[..i])
        invariant states[0] == old(StateOf(account, record)) && states[i] == StateOf(account, record)
      {
        ghost var before := states;
        Step(account, record, events[i]);
        states := states + [StateOf(account, record)];
        assert events[..i + 1] == events[..i] + [events[i]];
        assert forall k :: 0 <= k <= i ==> states[k] == before[k];
      }
      assert events[..|events|] == events;
    }
  }

  // What the caller keeps: the grants its metadata records, and beside them the
  // grants a failed rollback or an uncommitted apply left in force.
  class Record {
    var applied: seq<Grant>
    ghost var surplus: seq<Grant>

    constructor ()
      ensures applied == [] && surplus == []
    {
      applied, surplus := [], [];
    }
  }

  lemma AtlasRolesNonEmpty(database: string, grants: seq<Grant>, roles: seq<AtlasRole>)
    requires AtlasCompiled(database, grants, roles)
    ensures roles != [] && roles[0] == PLACEHOLDER && NoDuplicates(roles)
  {
    RolesWellFormed([PLACEHOLDER] + RolesFor(database, grants));
  }

  function RoleOf(s: Snapshot, account: Account): Option<seq<Privilege>> {
    if account.username in s.roles then Some(s.roles[account.username]) else None
  }

  ghost predicate Others(account: Account, before: Snapshot, after: Snapshot) {
    && after.roles - {account.username} == before.roles - {account.username}
    && after.users - {account.username} == before.users - {account.username}
    && after.atlasUsers - {account.username} == before.atlasUsers - {account.username}
  }

  // The account's role, or its Atlas user, is the one built from the grants.
  ghost predicate Built(s: Snapshot, account: Account, grants: seq<Grant>) {
    account.username in s.roles && Compiled(account.database, grants, s.roles[account.username])
  }

  ghost predicate BuiltAtlas(s: Snapshot, account: Account, grants: seq<Grant>) {
    account.username in s.atlasUsers && AtlasCompiled(account.database, grants, s.atlasUsers[account.username].roles)
  }

  // The user is there and holds its own role, the only one it is ever given.
  ghost predicate Serves(s: Snapshot, account: Account, grants: seq<Grant>) {
    && Built(s, account, grants)
    && account.username in s.users && s.users[account.username] == OwnUser(account)
  }

  ghost predicate Leaves(outcome: Outcome, database: string, applied: seq<Grant>, union: seq<Grant>,
                         before: Option<seq<Privilege>>, after: Option<seq<Privilege>>)
  {
    match outcome
    case Unchanged => after == before
    case RolledBack => after.Some? && Compiled(database, applied, after.value)
    case _ => after.Some? && Compiled(database, union, after.value)
  }

  // ---- no transient loss ----

  // What both lists cover is allowed, and nothing is that neither covers.
  ghost predicate NothingLost(s: Snapshot, account: Account, old': seq<Grant>, new': seq<Grant>) {
    forall db, a, c :: c != "" ==>
      && (db == account.database && !IsSystem(c) && Covers(Gives, old', a, c) && Covers(Gives, new', a, c) ==>
            s.UserMay(account.username, db, a, c))
      && (s.UserMay(account.username, db, a, c) ==>
            db == account.database && !IsSystem(c) && (Covers(Gives, old', a, c) || Covers(Gives, new', a, c)))
  }

  ghost predicate NothingLostInAtlas(s: Snapshot, account: Account, old': seq<Grant>, new': seq<Grant>) {
    forall db, a, c :: a in DATA_ACTIONS && c != "" ==>
      && (db == account.database && InReach(c) && Covers(Gives, old', a, c) && Covers(Gives, new', a, c) ==>
            s.AtlasUserMay(account.username, db, a, c))
      && (s.AtlasUserMay(account.username, db, a, c) ==>
            || (db == account.database && InReach(c) && (Covers(Gives, old', a, c) || Covers(Gives, new', a, c)))
            || PlaceholderGives(db, a, c))
  }

  lemma UnionCovers(applied: seq<Grant>, desired: seq<Grant>, a: Action, c: string)
    ensures Covers(Gives, Union(applied, desired), a, c) <==>
            Covers(Gives, applied, a, c) || Covers(Gives, desired, a, c)
  {
    forall g
      ensures g in Union(applied, desired) <==> g in applied || g in desired
    {
      UnionIn(applied, desired, g);
    }
  }

  // `between` covers what both lists do and no more than either does.
  ghost predicate InBetween(old': seq<Grant>, new': seq<Grant>, between: seq<Grant>) {
    forall a, c :: && (Covers(Gives, old', a, c) && Covers(Gives, new', a, c) ==> Covers(Gives, between, a, c))
                   && (Covers(Gives, between, a, c) ==> Covers(Gives, old', a, c) || Covers(Gives, new', a, c))
  }

  lemma ThreeLists(old': seq<Grant>, new': seq<Grant>, between: seq<Grant>)
    requires between == old' || between == Union(old', new') || forall g :: g in between <==> g in new'
    ensures InBetween(old', new', between)
  {
    forall a, c
      ensures Covers(Gives, Union(old', new'), a, c) <==> Covers(Gives, old', a, c) || Covers(Gives, new', a, c)
    {
      UnionCovers(old', new', a, c);
    }
  }

  lemma ServingLosesNothing(account: Account, old': seq<Grant>, new': seq<Grant>, between: seq<Grant>, s: Snapshot)
    requires InBetween(old', new', between) && Serves(s, account, between)
    ensures NothingLost(s, account, old', new')
  {
    forall db, a, c | c != ""
      ensures s.UserMay(account.username, db, a, c) <==>
              db == account.database && !IsSystem(c) && Covers(Gives, between, a, c)
    {
      AllowsIsCoverage(account.database, between, s.roles[account.username], db, a, c);
    }
  }

  lemma AtlasLosesNothing(account: Account, old': seq<Grant>, new': seq<Grant>, between: seq<Grant>, s: Snapshot)
    requires InBetween(old', new', between) && BuiltAtlas(s, account, between)
    ensures NothingLostInAtlas(s, account, old', new')
  {
    forall db, a, c | a in DATA_ACTIONS && c != ""
      ensures s.AtlasUserMay(account.username, db, a, c) <==>
              || (db == account.database && InReach(c) && Covers(Gives, between, a, c))
              || PlaceholderGives(db, a, c)
    {
      AtlasAllowsIsCoverage(account.database, between, s.atlasUsers[account.username].roles, db, a, c);
    }
  }

  lemma PlaceholderAlone(account: Account, s: Snapshot)
    requires BuiltAtlas(s, account, [])
    ensures forall db, a, c :: a in DATA_ACTIONS && c != "" ==>
              (s.AtlasUserMay(account.username, db, a, c) <==> PlaceholderGives(db, a, c))
  {
    forall db, a, c | a in DATA_ACTIONS && c != ""
      ensures s.AtlasUserMay(account.username, db, a, c) <==> PlaceholderGives(db, a, c)
    {
      AtlasAllowsIsCoverage(account.database, [], s.atlasUsers[account.username].roles, db, a, c);
    }
  }

  lemma KeptAreDesired(applied: seq<Grant>, desired: seq<Grant>, pending: seq<Grant>)
    requires forall g :: g in pending <==> g in applied && g !in desired
    ensures forall g :: g in Kept(Union(applied, desired), pending) <==> g in desired
  {
    forall g
      ensures g in Kept(Union(applied, desired), pending) <==> g in desired
    {
      UnionIn(applied, desired, g);
      SelectIn(h => h !in pending, Union(applied, desired), g);
    }
  }

  lemma {:induction false} NothingRevoked(applied: seq<Grant>)
    ensures Kept(applied, []) == applied
  {
    if applied == [] {
    } else {
      NothingRevoked(applied[..|applied| - 1]);
    }
  }

  // Applying the desired grants and revoking the pending ones afterwards ends
  // where building the role from the desired grants at once would have.
  lemma ApplyThenRevokeIsRebuild(database: string, applied: seq<Grant>, desired: seq<Grant>, revokes: seq<Grant>,
                                 atOnce: seq<Privilege>, after: seq<Privilege>, a: Action, c: string)
    requires forall g :: g in revokes <==> g in applied && g !in desired
    requires Compiled(database, desired, atOnce) && Compiled(database, Kept(Union(applied, desired), revokes), after)
    requires c != ""
    ensures Allows(after, database, a, c) <==> Allows(atOnce, database, a, c)
  {
    KeptAreDesired(applied, desired, revokes);
    AllowsIsCoverage(database, desired, atOnce, database, a, c);
    AllowsIsCoverage(database, Kept(Union(applied, desired), revokes), after, database, a, c);
  }

  // ---- the reconciliation invariant ----

  // `user` is absent, or tells whether the user holds the role.
  datatype State = State(clock: nat, role: Option<seq<Privilege>>, user: Option<bool>,
                         applied: seq<Grant>, surplus: seq<Grant>)

  datatype Event =
    | Apply(desired: seq<Grant>, reapplyAll: bool, commits: bool)
    | Revoke(revokes: seq<Grant>)
    | RoleDropped
    | UserDropped

  function SurplusAfter(outcome: Outcome, desired: seq<Grant>, commits: bool, surplus: seq<Grant>): seq<Grant> {
    match outcome
    case Unchanged => surplus
    case RolledBack => []
    case Done => if commits then [] else desired
    case Stuck => desired
  }

  function ApplyOutcome(fails: nat -> bool, account: Account, s: State, e: Event): (Outcome, nat)
    requires e.Apply?
  {
    Rebuilding(fails, s.clock, account, s.role.Some?, s.user.Some?, s.applied, Union(s.applied, e.desired),
               e.reapplyAll)
  }

  function RevokeOutcome(fails: nat -> bool, account: Account, s: State, e: Event): (bool, nat)
    requires e.Revoke?
  {
    if e.revokes == [] then (false, s.clock)
    else Setting(fails, s.clock, account, s.role.Some?, true, Kept(s.applied, e.revokes))
  }

  // The replies to the commands, in the order they are issued, decide every step.
  ghost predicate Next(fails: nat -> bool, account: Account, s: State, e: Event, s': State) {
    match e
    case Apply(desired, reapplyAll, commits) =>
      var (outcome, end) := ApplyOutcome(fails, account, s, e);
      && Leaves(outcome, account.database, s.applied, Union(s.applied, desired), s.role, s'.role)
      && s' == State(end, s'.role,
                     if outcome.Done? && reapplyAll && s.user.None? then Some(true) else s.user,
                     if outcome.Done? && commits then Union(s.applied, desired) else s.applied,
                     SurplusAfter(outcome, desired, commits, s.surplus))
    case Revoke(revokes) =>
      var (revoked, end) := RevokeOutcome(fails, account, s, e);
      if !revoked then s' == s.(clock := end)
      else
        && s'.role.Some? && Compiled(account.database, Kept(s.applied, revokes), s'.role.value)
        && s' == State(end, s'.role, s.user, Kept(s.applied, revokes), [])
    case RoleDropped =>
      if fails(s.clock) || s.role.None? then s' == s.(clock := s.clock + 1)
      else s' == State(s.clock + 1, None, if s.user.Some? then Some(false) else None, s.applied, [])
    case UserDropped =>
      s' == s.(clock := s.clock + 1, user := if fails(s.clock) then s.user else None)
  }

  // The role, if it exists, allows exactly what the recorded grants cover, and
  // what the surplus covers.
  ghost predicate Reconciled(database: string, s: State) {
    s.role.Some? ==> forall a, c :: c != "" && !IsSystem(c) ==>
      (Allows(s.role.value, database, a, c) <==> Covers(Gives, s.applied, a, c) || Covers(Gives, s.surplus, a, c))
  }

  lemma BuiltReconciled(database: string, grants: seq<Grant>, s: State)
    requires s.role.Some? && Compiled(database, grants, s.role.value)
    requires forall a, c :: Covers(Gives, grants, a, c) <==>
             Covers(Gives, s.applied, a, c) || Covers(Gives, s.surplus, a, c)
    ensures Reconciled(database, s)
  {
    forall a, c | c != "" && !IsSystem(c)
      ensures Allows(s.role.value, database, a, c) <==> Covers(Gives, grants, a, c)
    {
      AllowsIsCoverage(database, grants, s.role.value, database, a, c);
    }
  }

  lemma NextReconciled(fails: nat -> bool, account: Account, s: State, e: Event, s': State)
    requires Reconciled(account.database, s) && Next(fails, account, s, e, s')
    ensures Reconciled(account.database, s')
  {
    if e.Apply? {
      ApplyReconciled(fails, account, s, e, s');
    } else if e.Revoke? && RevokeOutcome(fails, account, s, e).0 {
      BuiltReconciled(account.database, s'.applied, s');
    }
  }

  lemma ApplyReconciled(fails: nat -> bool, account: Account, s: State, e: Event, s': State)
    requires e.Apply? && Reconciled(account.database, s) && Next(fails, account, s, e, s')
    ensures Reconciled(account.database, s')
  {
    var outcome := ApplyOutcome(fails, account, s, e).0;
    match outcome {
      case Unchanged =>
      case RolledBack => BuiltReconciled(account.database, s.applied, s');
      case _ =>
        var union := Union(s.applied, e.desired);
        forall a, c
          ensures Covers(Gives, union, a, c) <==> Covers(Gives, s'.applied, a, c) || Covers(Gives, s'.surplus, a, c)
        {
          UnionCovers(s.applied, e.desired, a, c);
        }
        BuiltReconciled(account.database, union, s');
    }
  }

  ghost predicate IsRun(fails: nat -> bool, account: Account, states: seq<State>, events: seq<Event>) {
    && |states| == |events| + 1
    && forall i :: 0 <= i < |events| ==> Next(fails, account, states[i], events[i], states[i + 1])
  }

  // Over every run of applies, revokes, refused commands and out-of-band drops, a
  // role that exists denotes exactly the recorded grants and the surplus.
  lemma {:induction false} ReconciledAlways(fails: nat -> bool, account: Account, states: seq<State>,
                                            events: seq<Event>, i: nat)
    requires IsRun(fails, account, states, events) && Reconciled(account.database, states[0]) && i < |states|
    ensures Reconciled(account.database, states[i])
  {
    if i == 0 {
    } else {
      ReconciledAlways(fails, account, states, events, i - 1);
      NextReconciled(fails, account, states[i - 1], events[i - 1], states[i]);
    }
  }

  // An apply leaves a surplus when it is stuck, or done and not committed.
  predicate LeavesSurplus(fails: nat -> bool, account: Account, s: State, e: Event) {
    e.Apply? && e.desired != [] &&
    var outcome := ApplyOutcome(fails, account, s, e).0;
    outcome.Stuck? || (outcome.Done? && !e.commits)
  }

  // Nothing of the role or the record changes.
  predicate Silent(fails: nat -> bool, account: Account, s: State, e: Event) {
    match e
    case Apply(_, _, _) => ApplyOutcome(fails, account, s, e).0.Unchanged?
    case Revoke(_) => !RevokeOutcome(fails, account, s, e).0
    case RoleDropped => fails(s.clock) || s.role.None?
    case UserDropped => true
  }

  lemma SurplusStep(fails: nat -> bool, account: Account, s: State, e: Event, s': State)
    requires Next(fails, account, s, e, s')
    ensures LeavesSurplus(fails, account, s, e) ==> s'.surplus == e.desired != [] && !Silent(fails, account, s, e)
    ensures !LeavesSurplus(fails, account, s, e) ==>
              s'.surplus == if Silent(fails, account, s, e) then s.surplus else []
  {
  }

  // The k-th event left a surplus and everything since was silent.
  ghost predicate SurplusSince(fails: nat -> bool, account: Account, states: seq<State>, events: seq<Event>, k: nat,
                               i: nat)
    requires |states| == |events| + 1
  {
    && k < i <= |events| && LeavesSurplus(fails, account, states[k], events[k])
    && forall j :: k < j < i ==> Silent(fails, account, states[j], events[j])
  }

  lemma SinceStep(fails: nat -> bool, account: Account, states: seq<State>, events: seq<Event>, i: nat)
    requires |states| == |events| + 1 && i < |events|
    ensures forall k: nat :: SurplusSince(fails, account, states, events, k, i + 1) <==>
              || (k == i && LeavesSurplus(fails, account, states[i], events[i]))
              || (SurplusSince(fails, account, states, events, k, i) && Silent(fails, account, states[i], events[i]))
  {
  }

  // There is a surplus if and only if the last event that was not silent left
  // one, and then it is what that event desired.
  lemma {:induction false} SurplusExactly(fails: nat -> bool, account: Account, states: seq<State>,
                                          events: seq<Event>, i: nat)
    requires IsRun(fails, account, states, events) && states[0].surplus == [] && i < |states|
    ensures states[i].surplus != [] <==> exists k: nat :: SurplusSince(fails, account, states, events, k, i)
    ensures forall k: nat :: SurplusSince(fails, account, states, events, k, i) ==>
            states[i].surplus == events[k].desired
  {
    if i == 0 {
    } else {
      var last: nat := i - 1;
      var s, e := states[last], events[last];
      SurplusExactly(fails, account, states, events, last);
      assert Next(fails, account, s, e, states[last + 1]);
      SurplusStep(fails, account, s, e, states[i]);
      SinceStep(fails, account, states, events, last);
      if LeavesSurplus(fails, account, s, e) {
        assert SurplusSince(fails, account, states, events, last, i);
      } else if s.surplus != [] {
        var k: nat :| SurplusSince(fails, account, states, events, k, last);
        assert Silent(fails, account, s, e) ==> SurplusSince(fails, account, states, events, k, i);
      }
    }
  }

  // The role is exact for the recorded grants alone if and only if no apply was
  // left stuck or uncommitted last whose desired grants cover more than them.
  lemma RecordExactly(fails: nat -> bool, account: Account, states: seq<State>, events: seq<Event>, i: nat)
    requires IsRun(fails, account, states, events) && i < |states|
    requires states[0].surplus == [] && Reconciled(account.database, states[0]) && states[i].role.Some?
    ensures (forall a, c :: c != "" && !IsSystem(c) ==>
               (Allows(states[i].role.value, account.database, a, c) <==> Covers(Gives, states[i].applied, a, c)))
            <==>
            forall k: nat :: SurplusSince(fails, account, states, events, k, i) ==>
              forall a, c :: c != "" && !IsSystem(c) && Covers(Gives, events[k].desired, a, c) ==>
                Covers(Gives, states[i].applied, a, c)
  {
    var s := states[i];
    ReconciledAlways(fails, account, states, events, i);
    SurplusExactly(fails, account, states, events, i);
    if s.surplus != [] {
      var k: nat :| SurplusSince(fails, account, states, events, k, i);
    }
    forall a, c | c != "" && !IsSystem(c)
      ensures Allows(s.role.value, account.database, a, c) <==>
              Covers(Gives, s.applied, a, c) || Covers(Gives, s.surplus, a, c)
    {
    }
  }

  // ---- the user's hold on its role ----

  // The role was dropped while the user was there, and the user has not been dropped since.
  ghost predicate LockedOutSince(fails: nat -> bool, states: seq<State>, events: seq<Event>, k: nat, i: nat)
    requires |states| == |events| + 1
  {
    && k < i <= |events|
    && events[k].RoleDropped? && !fails(states[k].clock) && states[k].role.Some? && states[k].user.Some?
    && forall j :: k < j < i ==> !(events[j].UserDropped? && !fails(states[j].clock))
  }

  // Reapplying brings a dropped role back but not a present user's hold on it: a
  // user is without its role if and only if the role was dropped under it and
  // the user itself has not been dropped since.
  lemma {:induction false} LockedOutExactly(fails: nat -> bool, account: Account, states: seq<State>,
                                            events: seq<Event>, i: nat)
    requires IsRun(fails, account, states, events) && states[0].user != Some(false) && i < |states|
    ensures states[i].user == Some(false) <==> exists k: nat :: LockedOutSince(fails, states, events, k, i)
  {
    if i == 0 {
    } else {
      LockedOutExactly(fails, account, states, events, i - 1);
      assert Next(fails, account, states[i - 1], events[i - 1], states[i - 1 + 1]);
      forall k: nat
        ensures LockedOutSince(fails, states, events, k, i) <==>
                || (k == i - 1 && events[k].RoleDropped? && !fails(states[k].clock)
                    && states[k].role.Some? && states[k].user.Some?)
                || (LockedOutSince(fails, states, events, k, i - 1)
                    && !(events[i - 1].UserDropped? && !fails(states[i - 1].clock)))
      {
      }
    }
  }

  // ---- both happen ----

  const ACCOUNT := Account("cl_usr_prd_1", "cl_prd_1", "secret")

  const EVERYTHING := [Grant(Full, "*")]

  // A restore refused and its rollback refused as well: the role allows inserts
  // that no recorded grant covers.
  method RollbackMayFail() returns (server: Server, record: Record)
    ensures record.applied == [] && ACCOUNT.username in server.roles
    ensures Allows(server.roles[ACCOUNT.username], ACCOUNT.database, Insert, "t")
  {
    server := new Server(n => n == 2 || n == 3);
    var binding := new Binding(server, false, "");
    record := new Record();
    var created := server.CreateRole(ACCOUNT.username, []);
    StuckOnTwoRefusals(server.fails);
    binding.Step(ACCOUNT, record, Apply(EVERYTHING, true, true));
    EverythingAllowsInsert(server.roles[ACCOUNT.username]);
  }

  lemma StuckOnTwoRefusals(fails: nat -> bool)
    requires !fails(1) && fails(2) && fails(3)
    ensures Rebuilding(fails, 1, ACCOUNT, true, false, [], Union([], EVERYTHING), true).0.Stuck?
  {
    UnionAccepted([], EVERYTHING);
    StuckExactly(fails, 1, ACCOUNT, true, false, [], EVERYTHING, true);
  }

  lemma EverythingAllowsInsert(privileges: seq<Privilege>)
    requires Compiled(ACCOUNT.database, Union([], EVERYTHING), privileges)
    ensures Allows(privileges, ACCOUNT.database, Insert, "t")
  {
    UnionCovers([], EVERYTHING, Insert, "t");
    assert CoversOne(Gives, EVERYTHING[0], Insert, "t");
    AllowsIsCoverage(ACCOUNT.database, Union([], EVERYTHING), privileges, ACCOUNT.database, Insert, "t");
  }

  // Nothing is refused, the role is dropped and reapplied: it is there again, and
  // the user, there all along, no longer holds it.
  method ReapplyMayLockOut() returns (server: Server, reapplied: bool)
    ensures reapplied && ACCOUNT.username in server.roles && ACCOUNT.username in server.users
    ensures server.users[ACCOUNT.username].roles == {}
  {
    server := new Server(n => false);
    var binding := new Binding(server, false, "");
    var created := server.CreateRole(ACCOUNT.username, []);
    created := server.CreateUser(ACCOUNT.username, OwnUser(ACCOUNT));
    var reply := server.DropRole(ACCOUNT.username);
    var r;
    ghost var outcome;
    r, outcome := binding.ApplyGrants(ACCOUNT, [], [Grant(Read, "*")], true);
    reapplied := r.Ok?;
  }
}
