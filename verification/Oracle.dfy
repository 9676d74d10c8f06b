/** Oracle: `*` grants are expanded over the objects that exist when they are made. */
module Oracle {
  import opened Grants
  import opened Names

  datatype Priv = SELECT | INSERT | UPDATE | DELETE

  datatype Kind = TABLE | VIEW | SEQUENCE

  const FULL_PRIVILEGES: set<Priv> := {SELECT, INSERT, UPDATE, DELETE}

  // What a `*` grant gives on each kind of object.
  function ClassPrivs(kind: GrantType, k: Kind): set<Priv> {
    match (kind, k)
    case (Read, TABLE) => {SELECT}
    case (Read, VIEW) => {SELECT}
    case (Full, TABLE) => {SELECT, INSERT, UPDATE, DELETE}
    case (Full, VIEW) => {SELECT}
    case (Full, SEQUENCE) => {SELECT}
    case _ => {}
  }

  // What a grant on one table or view gives.
  function ObjectPrivs(kind: GrantType): set<Priv> {
    match kind
    case Read => {SELECT}
    case Full => {SELECT, INSERT, UPDATE, DELETE}
    case _ => {}
  }

  // What each grant is documented to give.
  function Gives(kind: GrantType, all: bool): set<Priv> {
    match kind
    case Read => {SELECT}
    case Full => {SELECT, INSERT, UPDATE, DELETE}
    case _ => {}
  }

  datatype Holding = Holding(user: string, object': string, p: Priv)

  // The objects of one schema and the grants on them.
  datatype State = State(objects: map<string, Kind>, held: set<Holding>) {
    predicate Valid() {
      forall h :: h in held ==> h.object' in objects
    }

    predicate Holds(user: string, o: string, p: Priv) {
      Holding(user, o, p) in held
    }

    function Dropped(names: set<string>): State {
      State(objects - names, set h | h in held && h.object' !in names)
    }

    function Created(name: string, k: Kind): State {
      this.(objects := objects[name := k])
    }

    function Granted(user: string, o: string, privs: set<Priv>): State {
      this.(held := held + set p | p in privs :: Holding(user, o, p))
    }

    function OfKind(k: Kind): set<string> {
      set o | o in objects && objects[o] == k
    }

    predicate Readable(o: string) {
      o in objects && objects[o] in {TABLE, VIEW}
    }
  }

  datatype Reply = Accepted | Missing | Refused

  // The base account drops objects while a batch runs: `drops` says which are
  // gone by the server's n-th call.
  class Server {
    const fails: nat -> bool
    const drops: nat -> set<string>
    var clock: nat
    var state: State

    constructor (fails: nat -> bool, drops: nat -> set<string>, state: State)
      ensures this.fails == fails && this.drops == drops && this.state == state
    {
      this.fails, this.drops, this.state := fails, drops, state;
      clock := 0;
    }

    // One call: whatever is dropped by then is gone, with the grants on it.
    method Call() returns (ok: bool)
      requires state.Valid()
      modifies this
      ensures state.Valid() && state == old(state).Dropped(drops(old(clock)))
      ensures (forall n :: !fails(n)) ==> ok
    {
      ok := !fails(clock);
      state := state.Dropped(drops(clock));
      clock := clock + 1;
    }

    method List(k: Kind) returns (r: Result<seq<string>>)
      requires state.Valid()
      modifies this
      ensures state.Valid() && Shrunk(old(state), state)
      ensures r.Ok? ==> forall o :: o in r.value <==> o in state.OfKind(k)
      ensures (forall n :: !fails(n)) ==> r.Ok?
    {
      var ok := Call();
      if !ok { return Err; }
      var rest, names := state.OfKind(k), [];
      while rest != {}
        invariant rest <= state.OfKind(k) && forall o :: o in names <==> o in state.OfKind(k) - rest
        decreases |rest|
      {
        var o :| o in rest;
        rest, names := rest - {o}, names + [o];
      }
      r := Ok(names);
    }

    method Grant(user: string, o: string, privs: set<Priv>) returns (r: Reply)
      requires state.Valid()
      modifies this
      ensures state.Valid()
      ensures r.Accepted? ==> o in state.objects && GrantedOn(old(state), state, user, {o}, privs)
      ensures !r.Accepted? ==> Shrunk(old(state), state)
      ensures r.Missing? ==> o !in state.objects
      ensures (forall n :: !fails(n)) ==> !r.Refused?
    {
      var ok := Call();
      r := if !ok then Refused else if o in state.objects then Accepted else Missing;
      if r.Accepted? {
        state := state.Granted(user, o, privs);
      }
    }
  }

  // Objects may have gone, with the grants on them; nothing else changed.
  ghost predicate Shrunk(before: State, after: State) {
    && (forall o :: o in after.objects ==> o in before.objects && after.objects[o] == before.objects[o])
    && forall u, o, p :: o in after.objects ==> (after.Holds(u, o, p) <==> before.Holds(u, o, p))
  }

  // Objects may have gone; of those still there, the user holds `privs` on the
  // named ones in addition to what was held, and nothing else changed.
  ghost predicate GrantedOn(before: State, after: State, user: string, names: set<string>, privs: set<Priv>) {
    && (forall o :: o in after.objects ==> o in before.objects && after.objects[o] == before.objects[o])
    && forall u, o, p :: o in after.objects ==>
         (after.Holds(u, o, p) <==> before.Holds(u, o, p) || (u == user && o in names && p in privs))
  }

  ghost predicate AtMostOn(before: State, after: State, user: string, names: set<string>, privs: set<Priv>) {
    && (forall o :: o in after.objects ==> o in before.objects && after.objects[o] == before.objects[o])
    && forall u, o, p :: o in after.objects ==>
         && (before.Holds(u, o, p) ==> after.Holds(u, o, p))
         && (after.Holds(u, o, p) ==> before.Holds(u, o, p) || (u == user && o in names && p in privs))
  }

  // The same for a `*` grant: each object gains its own kind's privileges.
  ghost predicate GrantedByKind(before: State, after: State, user: string, privs: Kind -> set<Priv>) {
    && (forall o :: o in after.objects ==> o in before.objects && after.objects[o] == before.objects[o])
    && forall u, o, p :: o in after.objects ==>
         (after.Holds(u, o, p) <==> before.Holds(u, o, p) || (u == user && p in privs(after.objects[o])))
  }

  // A batch that failed has granted no more than it set out to, and taken nothing.
  ghost predicate NoMoreThan(before: State, after: State, user: string, privs: Kind -> set<Priv>) {
    && (forall o :: o in after.objects ==> o in before.objects && after.objects[o] == before.objects[o])
    && forall u, o, p :: o in after.objects ==>
         && (before.Holds(u, o, p) ==> after.Holds(u, o, p))
         && (after.Holds(u, o, p) ==> before.Holds(u, o, p) || (u == user && p in privs(after.objects[o])))
  }

  function Elems(s: seq<string>): set<string> {
    set o | o in s
  }

  function Wide(kind: GrantType): Kind -> set<Priv> {
    k => ClassPrivs(kind, k)
  }

  // ---- the provider ----

  class Binding {
    const server: Server

    constructor (server: Server)
      ensures this.server == server
    {
      this.server := server;
    }

    // Grants on each listed object; one that is gone by then is passed over.
    method GrantEach(user: string, names: seq<string>, privs: set<Priv>) returns (ok: bool)
      requires server.state.Valid()
      modifies server
      ensures server.state.Valid()
      ensures ok ==> GrantedOn(old(server.state), server.state, user, Elems(names), privs)
      ensures !ok ==> AtMostOn(old(server.state), server.state, user, Elems(names), privs)
      ensures (forall n :: !server.fails(n)) ==> ok
    {
      ghost var before := server.state;
      for i := 0 to |names|
        invariant server.state.Valid()
        invariant GrantedOn(before, server.state, user, Elems(names[..i]), privs)
      {
        assert forall o :: o in names[..i + 1] <==> o in names[..i] || o == names[i];
        if privs != {} {
          var reply := server.Grant(user, names[i], privs);
          if reply.Refused? {
            assert forall o :: o in names[..i] ==> o in names;
            return false;
          }
        }
      }
      assert names[..|names|] == names;
      ok := true;
    }

    method ApplySchemaWide(user: string, kind: GrantType) returns (ok: bool)
      requires server.state.Valid() && (kind.Read? || kind.Full?)
      modifies server
      ensures server.state.Valid()
      ensures ok ==> GrantedByKind(old(server.state), server.state, user, Wide(kind))
      ensures !ok ==> NoMoreThan(old(server.state), server.state, user, Wide(kind))
      ensures (forall n :: !server.fails(n)) ==> ok
    {
      ghost var s0 := server.state;
      var tables := server.List(TABLE);
      if tables.Err? { return false; }
      var views := server.List(VIEW);
      if views.Err? { return false; }
      var sequences := server.List(SEQUENCE);
      if sequences.Err? { return false; }
      ghost var s1 := server.state;
      ok := GrantEach(user, tables.value, if kind.Read? then {SELECT} else FULL_PRIVILEGES);
      if !ok { return; }
      ghost var s2 := server.state;
      ok := GrantEach(user, views.value, {SELECT});
      if !ok { return; }
      ghost var s3 := server.state;
      ok := GrantEach(user, sequences.value, if kind.Read? then {} else {SELECT});
    }

    method ObjectExists(o: string) returns (r: Result<bool>)
      requires server.state.Valid()
      modifies server
      ensures server.state.Valid() && Shrunk(old(server.state), server.state)
      ensures r.Ok? ==> r.value == server.state.Readable(o)
      ensures (forall n :: !server.fails(n)) ==> r.Ok?
    {
      var ok := server.Call();
      r := if ok then Ok(server.state.Readable(o)) else Err;
    }

    // The exact name first, then its uppercase form; an object that is gone
    // between the check and the grant counts as deferred.
    method ApplyObjectPerm(user: string, target: string, privs: set<Priv>) returns (r: Result<bool>, ghost o: string)
      requires server.state.Valid()
      modifies server
      ensures server.state.Valid()
      ensures (forall n :: !server.fails(n)) ==> r.Ok?
      ensures r == Ok(true) ==>
              GrantedOn(old(server.state), server.state, user, {o}, privs) && Hits(server.state, target, o)
      ensures r != Ok(true) ==> Shrunk(old(server.state), server.state)
      ensures r == Ok(false) ==> Waits(old(server.state), server.state, target)
    {
      ghost var before := server.state;
      o := target;
      var objectName := target;
      var found := ObjectExists(objectName);
      if found.Err? { return Err, o; }
      if !found.value && target != Upper(target) {
        objectName := Upper(target);
        o := objectName;
        found := ObjectExists(objectName);
        if found.Err? { return Err, o; }
      }
      if !found.value {
        return Ok(false), o;
      }
      var reply := server.Grant(user, objectName, privs);
      match reply {
        case Refused => return Err, o;
        case Missing => return Ok(false), o;
        case Accepted => return Ok(true), o;
      }
    }

    // One grant of the batch.
    method GrantOne(g: Grant, user: string) returns (r: Result<bool>)
      requires server.state.Valid()
      modifies server
      ensures server.state.Valid() && SameObjects(old(server.state), server.state)
              && Kept(old(server.state), server.state)
      ensures AtMostGiven(old(server.state), server.state, user, [g])
      ensures r.Ok? ==> AllGiven(old(server.state), server.state, user, [g])
      ensures r.Ok? ==> Accounted(old(server.state), server.state, user, g, r.value)
      ensures r.Ok? ==> g.kind.Read? || g.kind.Full?
      ensures (forall n :: !server.fails(n)) ==> (r.Ok? <==> g.kind.Read? || g.kind.Full?)
    {
      assert g in [g];
      if !(g.kind.Read? || g.kind.Full?) {
        return Err;
      }
      if g.All() {
        var ok := ApplySchemaWide(user, g.kind);
        return if ok then Ok(true) else Err;
      }
      ghost var before := server.state;
      ghost var o;
      r, o := ApplyObjectPerm(user, g.target, ObjectPrivs(g.kind));
      if r.Ok? { OneObject(before, server.state, user, g, r.value, o); }
    }

    // The grant side of applyPerms.
    // `applied` tells of each grant whether it is reported as done.
    method GrantPerms(grants: seq<Grant>, user: string) returns (r: Result<seq<Grant>>, ghost applied: seq<bool>)
      requires server.state.Valid()
      modifies server
      ensures server.state.Valid() && Granting(old(server.state), server.state, user, grants, r.Ok?)
      ensures r.Ok? ==> |applied| == |grants| && r.value == Chosen(grants, applied) && Subsequence(r.value, grants)
      ensures r.Ok? ==> forall i :: 0 <= i < |grants| ==>
                Accounted(old(server.state), server.state, user, grants[i], applied[i])
      ensures r.Ok? ==> forall g :: g in grants ==> g.kind.Read? || g.kind.Full?
      ensures (forall n :: !server.fails(n)) ==> (r.Ok? <==> forall g :: g in grants ==> g.kind.Read? || g.kind.Full?)
    {
      ghost var s0 := server.state;
      var done := [];
      applied := [];
      var i := 0;
      while i < |grants|
        invariant 0 <= i <= |grants| && server.state.Valid()
        invariant Progress(s0, server.state, user, grants[..i], applied) && done == Chosen(grants[..i], applied)
      {
        var g := grants[i];
        ghost var before := server.state;
        var ok := GrantOne(g, user);
        ghost var upTo := grants[..i] + [g];
        assert grants[..i + 1] == upTo;
        AtMostStep(s0, before, server.state, user, grants[..i], g);
        if ok.Err? {
          MoreGrants(s0, server.state, user, grants, i + 1);
          assert g in grants;
          return Err, applied;
        }
        ProgressStep(s0, before, server.state, user, grants[..i], g, applied, ok.value);
        ChosenStep(grants[..i], applied, g, ok.value);
        applied := applied + [ok.value];
        if ok.value {
          done := done + [g];
        }
        i := i + 1;
      }
      assert grants[..i] == grants;
      ChosenInOrder(grants, applied);
      r := Ok(done);
    }
  }

  ghost predicate SameObjects(before: State, after: State) {
    forall o :: o in after.objects ==> o in before.objects && after.objects[o] == before.objects[o]
  }

  // The object a grant on the target lands on.
  predicate Hits(after: State, target: string, o: string) {
    after.Readable(o) && (o == target || (o == Upper(target) && !after.Readable(target)))
  }

  // The target does not resolve, or its exact name went while the grant was made.
  predicate Waits(before: State, after: State, target: string) {
    !after.Readable(target) && (before.Readable(target) || !after.Readable(Upper(target)))
  }

  predicate MayGive(after: State, g: Grant, o: string, p: Priv)
    requires o in after.objects
  {
    if g.All() then p in ClassPrivs(g.kind, after.objects[o]) else Hits(after, g.target, o) && p in ObjectPrivs(g.kind)
  }

  predicate MustGive(before: State, after: State, g: Grant, o: string, p: Priv) {
    o in after.objects && MayGive(after, g, o, p) && (g.All() || o == g.target || !before.Readable(g.target))
  }

  ghost predicate AtMostGiven(before: State, after: State, user: string, grants: seq<Grant>) {
    forall u, o, p :: o in after.objects && after.Holds(u, o, p) ==>
      before.Holds(u, o, p) || (u == user && exists g :: g in grants && MayGive(after, g, o, p))
  }

  ghost predicate Kept(before: State, after: State) {
    forall u, o, p :: o in after.objects && before.Holds(u, o, p) ==> after.Holds(u, o, p)
  }

  ghost predicate AllGiven(before: State, after: State, user: string, grants: seq<Grant>) {
    Kept(before, after) && forall g, o, p :: g in grants && MustGive(before, after, g, o, p) ==> after.Holds(user, o, p)
  }

  // What a grant batch may and must give: nobody else gains anything, nothing is
  // taken, and a batch that succeeds gives all it must.
  ghost predicate Granting(before: State, after: State, user: string, grants: seq<Grant>, ok: bool) {
    && SameObjects(before, after) && Kept(before, after) && AtMostGiven(before, after, user, grants)
    && (ok ==> AllGiven(before, after, user, grants))
  }

  // A grant is reported as done when it found its object and, unless that is gone
  // again, all its privileges are held; it is omitted when it waits for its target.
  ghost predicate Accounted(before: State, after: State, user: string, g: Grant, applied: bool) {
    if !applied then !g.All() && Waits(before, after, g.target)
    else g.All() || exists o :: Found(before, after, user, g, o)
  }

  ghost predicate Found(before: State, after: State, user: string, g: Grant, o: string) {
    && before.Readable(o) && (o == g.target || (o == Upper(g.target) && !after.Readable(g.target)))
    && (o in after.objects ==> forall p :: p in Gives(g.kind, false) ==> after.Holds(user, o, p))
  }

  // Where the loop stands after the given grants.
  ghost predicate Progress(s0: State, s: State, user: string, grants: seq<Grant>, applied: seq<bool>) {
    && SameObjects(s0, s) && AtMostGiven(s0, s, user, grants) && AllGiven(s0, s, user, grants)
    && |applied| == |grants| && (forall i :: 0 <= i < |grants| ==> Accounted(s0, s, user, grants[i], applied[i]))
    && forall g :: g in grants ==> g.kind.Read? || g.kind.Full?
  }

  lemma AtMostStep(s0: State, s: State, s': State, user: string, grants: seq<Grant>, g: Grant)
    requires SameObjects(s0, s) && SameObjects(s, s') && Kept(s0, s) && Kept(s, s')
    requires AtMostGiven(s0, s, user, grants) && AtMostGiven(s, s', user, [g])
    ensures SameObjects(s0, s') && Kept(s0, s') && AtMostGiven(s0, s', user, grants + [g])
  {
    forall h, o, p | o in s'.objects && h in grants
      ensures MayGive(s, h, o, p) ==> MayGive(s', h, o, p) && h in grants + [g]
    {
    }
    assert g in grants + [g];
  }

  lemma ProgressStep(s0: State, s: State, s': State, user: string, grants: seq<Grant>, g: Grant, applied: seq<bool>,
                     ok: bool)
    requires Progress(s0, s, user, grants, applied) && SameObjects(s, s') && (g.kind.Read? || g.kind.Full?)
    requires AtMostGiven(s, s', user, [g]) && AllGiven(s, s', user, [g])
    requires Accounted(s, s', user, g, ok)
    ensures Progress(s0, s', user, grants + [g], applied + [ok])
  {
    AtMostStep(s0, s, s', user, grants, g);
    assert g in [g];
    forall i | 0 <= i < |grants|
      ensures Accounted(s0, s', user, grants[i], applied[i])
    {
      AccountedLater(s0, s0, s, s', user, grants[i], applied[i]);
    }
    AccountedLater(s0, s, s', s', user, g, ok);
    forall h, o, p | h in grants + [g] && MustGive(s0, s', h, o, p)
      ensures s'.Holds(user, o, p)
    {
      if h in grants {
        assert MustGive(s0, s, h, o, p);
      } else {
        assert MustGive(s, s', g, o, p);
      }
    }
  }

  // Objects only go while a batch is made, so what was accounted for stays so.
  lemma AccountedLater(s0: State, s: State, s': State, last: State, user: string, g: Grant, ok: bool)
    requires SameObjects(s0, s) && SameObjects(s, s') && SameObjects(s', last) && Kept(s', last)
    requires Accounted(s, s', user, g, ok)
    ensures Accounted(s0, last, user, g, ok)
  {
    if ok && !g.All() {
      var o :| Found(s, s', user, g, o);
      assert Found(s0, last, user, g, o);
    }
  }

  lemma OneObject(s: State, s': State, user: string, g: Grant, applied: bool, o: string)
    requires SameObjects(s, s') && !g.All()
    requires applied ==> GrantedOn(s, s', user, {o}, ObjectPrivs(g.kind)) && Hits(s', g.target, o)
    requires !applied ==> Waits(s, s', g.target)
    ensures forall x, p :: MustGive(s, s', g, x, p) ==> s'.Holds(user, x, p)
    ensures Accounted(s, s', user, g, applied)
  {
    if applied {
      assert Found(s, s', user, g, o);
    }
    forall x, p | MustGive(s, s', g, x, p)
      ensures applied && x == o
    {
      assert Hits(s', g.target, x);
    }
  }

  lemma MoreGrants(before: State, after: State, user: string, grants: seq<Grant>, n: nat)
    requires n <= |grants| && AtMostGiven(before, after, user, grants[..n])
    ensures AtMostGiven(before, after, user, grants)
  {
    assert forall g :: g in grants[..n] ==> g in grants;
  }

  // The grants marked as applied.
  function Chosen(grants: seq<Grant>, applied: seq<bool>): seq<Grant>
    requires |applied| == |grants|
  {
    if grants == [] then []
    else
      var n := |grants| - 1;
      var before := Chosen(grants[..n], applied[..n]);
      if applied[n] then before + [grants[n]] else before
  }

  lemma ChosenStep(grants: seq<Grant>, applied: seq<bool>, g: Grant, ok: bool)
    requires |applied| == |grants|
    ensures Chosen(grants + [g], applied + [ok]) ==
            if ok then Chosen(grants, applied) + [g] else Chosen(grants, applied)
  {
    assert (grants + [g])[..|grants|] == grants && (applied + [ok])[..|grants|] == applied;
  }

  lemma {:induction false} ChosenInOrder(grants: seq<Grant>, applied: seq<bool>)
    requires |applied| == |grants|
    ensures Subsequence(Chosen(grants, applied), grants)
  {
    if grants == [] {
    } else {
      var n := |grants| - 1;
      ChosenInOrder(grants[..n], applied[..n]);
      SubsequenceStep(Chosen(grants[..n], applied[..n]), grants[..n], grants[n]);
      assert grants == grants[..n] + [grants[n]];
    }
  }

  predicate Subsequence(a: seq<Grant>, b: seq<Grant>) {
    a == [] ||
    (b != [] && (Subsequence(a, b[..|b| - 1]) ||
                 (a[|a| - 1] == b[|b| - 1] && Subsequence(a[..|a| - 1], b[..|b| - 1]))))
  }

  lemma SubsequenceStep(a: seq<Grant>, b: seq<Grant>, g: Grant)
    requires Subsequence(a, b)
    ensures Subsequence(a, b + [g]) && Subsequence(a + [g], b + [g])
  {
    assert (b + [g])[..|b|] == b && (a + [g])[..|a|] == a;
  }

  // ---- what the grants mean ----

  // What a grant covers on an object of each kind: on a view a `*` grant gives only
  // SELECT, and a sequence gets SELECT from full:* alone.
  predicate CoversKind(k: Kind, g: Grant, o: string, p: Priv) {
    match k
    case TABLE => CoversOne(Gives, g, p, o)
    case VIEW => CoversOne(Gives, g, p, o) && (g.All() ==> p.SELECT?)
    case SEQUENCE => p.SELECT? && g.kind.Full? && g.All()
  }

  // A successful batch gives exactly what its grants cover, names compared
  // uppercase, in addition to what was held. The targets are uppercase, or no
  // object has them as its exact name.
  lemma GivesCoverage(before: State, after: State, user: string, grants: seq<Grant>, o: string, p: Priv)
    requires Granting(before, after, user, grants, true) && o in after.objects
    requires forall g :: g in grants ==>
               (g.kind.Read? || g.kind.Full?) && (Upper(g.target) == g.target || !before.Readable(g.target))
    ensures after.Holds(user, o, p) <==>
            || before.Holds(user, o, p)
            || exists g :: g in grants && CoversKind(after.objects[o], g.(target := Upper(g.target)), o, p)
    ensures after.objects[o].TABLE? ==>
              (after.Holds(user, o, p) <==> before.Holds(user, o, p) || Covers(Gives, Renamed(Upper, grants), p, o))
  {
    RenamedCovers(Gives, Upper, grants, p, o);
    forall g | g in grants
      ensures MayGive(after, g, o, p) <==> CoversKind(after.objects[o], g.(target := Upper(g.target)), o, p)
      ensures MayGive(after, g, o, p) <==> MustGive(before, after, g, o, p)
    {
      UpperKeepsStar(g.target);
    }
  }

  // ---- runs ----

  datatype Event =
    | Create(o: string, k: Kind)
    | Drop(names: set<string>)
    | Batch(grants: seq<Grant>, ok: bool)

  // The base account creates and drops objects; batches are granted now and
  // again, fail or succeed, and objects may vanish while one is made.
  ghost predicate Next(user: string, s: State, e: Event, s': State) {
    s'.Valid() && match e
                  case Create(o, k) => o !in s.objects && s' == s.Created(o, k)
                  case Drop(names) => s' == s.Dropped(names)
                  case Batch(grants, ok) => Granting(s, s', user, grants, ok)
  }

  ghost predicate IsRun(user: string, states: seq<State>, events: seq<Event>) {
    && |states| == |events| + 1 && states[0].Valid()
    && forall i :: 0 <= i < |events| ==> Next(user, states[i], events[i], states[i + 1])
  }

  ghost predicate PresentSince(states: seq<State>, lo: nat, hi: nat, o: string) {
    forall j :: lo <= j <= hi && j < |states| ==> o in states[j].objects
  }

  // One batch tried to give p on o; one succeeded and must have given it.
  ghost predicate Tries(e: Event, s': State, o: string, p: Priv)
    requires o in s'.objects
  {
    e.Batch? && exists g :: g in e.grants && MayGive(s', g, o, p)
  }

  ghost predicate Succeeds(s: State, e: Event, s': State, o: string, p: Priv) {
    e.Batch? && e.ok && exists g :: g in e.grants && MustGive(s, s', g, o, p)
  }

  // The k-th event did so, and o has been there since.
  ghost predicate TriedAt(states: seq<State>, events: seq<Event>, k: nat, i: nat, o: string, p: Priv) {
    && k < i <= |events| && |states| == |events| + 1 && PresentSince(states, k + 1, i, o)
    && o in states[k + 1].objects && Tries(events[k], states[k + 1], o, p)
  }

  ghost predicate GivenAt(states: seq<State>, events: seq<Event>, k: nat, i: nat, o: string, p: Priv) {
    && k < i <= |events| && |states| == |events| + 1 && PresentSince(states, k + 1, i, o)
    && Succeeds(states[k], events[k], states[k + 1], o, p)
  }

  // Snapshot semantics over every run, whatever failed in it: what is held on an
  // object was held to begin with or some batch that speaks for it was made while
  // the object was there, and it has been there since; so an object created later
  // holds nothing until the next batch. And what a successful batch gave stays as
  // long as the object does.
  lemma {:induction false} SnapshotSemantics(user: string, states: seq<State>, events: seq<Event>, i: nat, o: string,
                                             p: Priv)
    requires IsRun(user, states, events) && i < |states|
    ensures states[i].Holds(user, o, p) ==>
            || (states[0].Holds(user, o, p) && PresentSince(states, 0, i, o))
            || exists k: nat :: TriedAt(states, events, k, i, o, p)
    ensures (states[0].Holds(user, o, p) && PresentSince(states, 0, i, o))
            || (exists k: nat :: GivenAt(states, events, k, i, o, p))
            ==> states[i].Holds(user, o, p)
  {
    if i == 0 {
    } else {
      var last: nat := i - 1;
      var s, e, s' := states[last], events[last], states[last + 1];
      SnapshotSemantics(user, states, events, last, o, p);
      AllValid(user, states, events, last);
      AllValid(user, states, events, i);
      assert Next(user, s, e, s');
      if s'.Holds(user, o, p) {
        StepHolds(user, s, e, s', o, p);
        if s.Holds(user, o, p) {
          if k: nat :| TriedAt(states, events, k, last, o, p) {
            assert TriedAt(states, events, k, i, o, p);
          }
        } else {
          assert TriedAt(states, events, last, i, o, p);
        }
      }
      if k: nat :| GivenAt(states, events, k, i, o, p) {
        if k < last {
          assert GivenAt(states, events, k, last, o, p);
        } else {
          assert Succeeds(s, e, s', o, p);
        }
      }
    }
  }

  lemma AllValid(user: string, states: seq<State>, events: seq<Event>, i: nat)
    requires IsRun(user, states, events) && i < |states|
    ensures states[i].Valid()
  {
    if i == 0 {
    } else {
      assert Next(user, states[i - 1], events[i - 1], states[i - 1 + 1]);
    }
  }

  lemma StepHolds(user: string, s: State, e: Event, s': State, o: string, p: Priv)
    requires s.Valid() && Next(user, s, e, s') && s'.Holds(user, o, p)
    ensures o in s'.objects
    ensures s.Holds(user, o, p) || Tries(e, s', o, p)
    ensures s.Holds(user, o, p) ==> o in s.objects
  {
  }

  // With successful `*` batches only, both bounds meet: held exactly when a grant
  // that carries the privilege was made while the object was there.
  lemma WideSnapshots(user: string, states: seq<State>, events: seq<Event>, i: nat, o: string, p: Priv)
    requires IsRun(user, states, events) && i < |states|
    requires forall e :: e in events && e.Batch? ==> e.ok && forall g :: g in e.grants ==> g.All()
    ensures states[i].Holds(user, o, p) <==>
            || (states[0].Holds(user, o, p) && PresentSince(states, 0, i, o))
            || exists k: nat :: GivenAt(states, events, k, i, o, p)
  {
    SnapshotSemantics(user, states, events, i, o, p);
    if k: nat :| TriedAt(states, events, k, i, o, p) {
      assert events[k] in events;
      assert GivenAt(states, events, k, i, o, p);
    }
  }
}
