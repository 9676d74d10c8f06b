/** SQL Server has no DROP SCHEMA CASCADE; the provider drops the contents itself. */
module SqlServerTeardown {

  datatype Kind = View | Table | Sequence | OtherKind(code: string)

  datatype Id = Id(schema: string, name: string)

  datatype ForeignKey = ForeignKey(name: string, parent: Id, referenced: Id)

  // `binds` holds (user, used): while user exists, used cannot be dropped (a
  // schema-bound view over a table or view, a table default over a sequence).
  datatype Db = Db(schemas: set<string>, objects: map<Id, Kind>, fks: set<ForeignKey>, binds: set<(Id, Id)>) {

    function Contents(s: string): set<Id> {
      set o | o in objects && o.schema == s
    }

    function OfKind(s: string, k: Kind): set<Id> {
      set o | o in objects && o.schema == s && objects[o] == k
    }

    function KeysOf(s: string): set<ForeignKey> {
      set fk | fk in fks && fk.parent.schema == s
    }

    // What the server accepts.
    predicate CanDropObject(o: Id) {
      && o in objects
      && (objects[o].Table? ==> forall fk :: fk in fks && fk.referenced == o ==> fk.parent == o)
      && forall b :: b in binds && b.1 == o && b.0 in objects ==> b.0 == o
    }

    predicate CanDropSchema(s: string) {
      s in schemas && Contents(s) == {}
    }

    // Foreign keys join tables; a view binds tables and views, a table sequences.
    predicate WellFormed() {
      && (forall fk :: fk in fks ==> fk.parent in objects && objects[fk.parent].Table?
                                     && fk.referenced in objects && objects[fk.referenced].Table?)
      && (forall b :: b in binds && b.0 in objects && b.1 in objects
                      && objects[b.0] in {View, Table, Sequence} && objects[b.1] in {View, Table, Sequence} ==>
            (objects[b.0], objects[b.1]) in {(View, Table), (View, View), (Table, Sequence)})
    }

    // Nothing stands in the way that the provider does not drop itself: only
    // views, tables and sequences inside, and nothing outside depends on them.
    predicate Clear(s: string) {
      && (forall o :: o in Contents(s) ==> objects[o] in {View, Table, Sequence})
      && (forall fk :: fk in fks && fk.referenced.schema == s ==> fk.parent.schema == s)
      && (forall b :: b in binds && b.0 in objects && b.1 in Contents(s) ==> b.0.schema == s)
    }

    // The state once the schema's foreign keys and the objects `gone` are dropped.
    function Without(s: string, gone: set<Id>): Db {
      this.(objects := map o | o in objects && o !in gone :: objects[o], fks := fks - KeysOf(s))
    }
  }

  function Elems<T(==)>(s: seq<T>): set<T> {
    set x | x in s
  }

  // Everything outside the schema is as it was.
  ghost predicate OutsideKept(before: Db, after: Db, s: string) {
    && after.schemas - {s} == before.schemas - {s} && after.schemas <= before.schemas && after.binds == before.binds
    && after.objects.Keys <= before.objects.Keys
    && (forall o :: o in before.objects && o.schema != s ==> o in after.objects)
    && (forall o :: o in after.objects ==> after.objects[o] == before.objects[o])
    && after.fks <= before.fks && before.fks - after.fks <= before.KeysOf(s)
  }

  // No view comes before one that is bound to it.
  ghost predicate DropOrder(db: Db, views: seq<Id>) {
    forall i, j :: 0 <= i < j < |views| ==> (views[j], views[i]) !in db.binds
  }

  ghost predicate Enumerates<T(!new)>(s: seq<T>, items: set<T>) {
    && (forall x :: x in s <==> x in items)
    && (forall i, j :: 0 <= i < j < |s| ==> s[i] != s[j])
  }

  // Any order: the catalogue views are queried without ORDER BY.
  method Enumerate<T(==,!new)>(items: set<T>) returns (s: seq<T>)
    ensures Enumerates(s, items)
  {
    var rest := items;
    s := [];
    while rest != {}
      invariant rest <= items && Enumerates(s, items - rest)
      decreases |rest|
    {
      var x :| x in rest;
      rest := rest - {x};
      s := s + [x];
    }
    assert items - rest == items;
  }

  class Server {
    const fails: nat -> bool
    var clock: nat
    var db: Db

    constructor (fails: nat -> bool, db: Db)
      ensures this.fails == fails && this.db == db
    {
      this.fails, this.db := fails, db;
      clock := 0;
    }

    method Query() returns (ok: bool)
      modifies this`clock
      ensures ok <==> !fails(old(clock))
    {
      ok := !fails(clock);
      clock := clock + 1;
    }

    method DropConstraint(fk: ForeignKey) returns (ok: bool)
      modifies this
      ensures ok <==> !fails(old(clock)) && fk in old(db).fks
      ensures db == if ok then old(db).(fks := old(db).fks - {fk}) else old(db)
    {
      ok := !fails(clock) && fk in db.fks;
      clock := clock + 1;
      if ok {
        db := db.(fks := db.fks - {fk});
      }
    }

    method DropObject(o: Id) returns (ok: bool)
      modifies this
      ensures ok <==> !fails(old(clock)) && old(db).CanDropObject(o)
      ensures db == if ok then old(db).(objects := old(db).objects - {o},
                                        fks := set fk | fk in old(db).fks && fk.parent != o) else old(db)
    {
      ok := !fails(clock) && db.CanDropObject(o);
      clock := clock + 1;
      if ok {
        db := db.(objects := db.objects - {o}, fks := set fk | fk in db.fks && fk.parent != o);
      }
    }

    method DropSchema(s: string) returns (ok: bool)
      modifies this
      ensures ok <==> !fails(old(clock)) && old(db).CanDropSchema(s)
      ensures db == if ok then old(db).(schemas := old(db).schemas - {s}) else old(db)
    {
      ok := !fails(clock) && db.CanDropSchema(s);
      clock := clock + 1;
      if ok {
        db := db.(schemas := db.schemas - {s});
      }
    }
  }

  // What is left of a clear schema part-way is well formed and clear.
  lemma StillClear(db0: Db, s: string, gone: set<Id>)
    requires db0.WellFormed() && db0.Clear(s) && gone <= db0.Contents(s)
    ensures db0.Without(s, gone).WellFormed() && db0.Without(s, gone).Clear(s)
  {
  }

  // Drops the listed objects one by one.
  method DropListed(server: Server, s: string, names: seq<Id>, ghost db0: Db, ghost gone: set<Id>)
    returns (ok: bool, ghost n: nat)
    requires server.db == db0.Without(s, gone) && gone <= db0.Contents(s)
    requires forall o :: o in names ==> o in db0.Contents(s) && o !in gone
    requires forall i, j :: 0 <= i < j < |names| ==> names[i] != names[j]
    modifies server
    ensures OutsideKept(db0, server.db, s) && server.db.schemas == db0.schemas
    ensures n <= |names| && server.db == db0.Without(s, gone + Elems(names[..n]))
    ensures ok ==> server.db == db0.Without(s, gone + Elems(names))
    ensures ok ==> Accepted(db0, s, gone, names)
    ensures (forall k :: !server.fails(k)) ==> (ok <==> Accepted(db0, s, gone, names))
  {
    var i := 0;
    assert gone + Elems(names[..0]) == gone;
    while i < |names|
      invariant 0 <= i <= |names|
      invariant server.db == db0.Without(s, gone + Elems(names[..i]))
      invariant forall k :: 0 <= k < i ==> Acceptable(db0, s, gone, names, k)
    {
      assert names[i] !in names[..i];
      ghost var clock := server.clock;
      var dropped := server.DropObject(names[i]);
      assert !dropped && !server.fails(clock) ==> !Acceptable(db0, s, gone, names, i);
      if !dropped {
        return false, i;
      }
      assert Elems(names[..i + 1]) == Elems(names[..i]) + {names[i]};
      i := i + 1;
    }
    assert names[..i] == names;
    return true, i;
  }

  predicate Acceptable(db0: Db, s: string, gone: set<Id>, names: seq<Id>, k: nat)
    requires k < |names|
  {
    db0.Without(s, gone + Elems(names[..k])).CanDropObject(names[k])
  }

  ghost predicate Accepted(db0: Db, s: string, gone: set<Id>, names: seq<Id>) {
    forall k :: 0 <= k < |names| ==> Acceptable(db0, s, gone, names, k)
  }

  // Lists one class of objects, then drops it.
  method DropClass(server: Server, s: string, kind: Kind, ghost db0: Db, ghost gone: set<Id>)
    returns (ok: bool, names: seq<Id>)
    requires server.db == db0.Without(s, gone) && gone !! db0.OfKind(s, kind) && gone <= db0.Contents(s)
    modifies server
    ensures OutsideKept(db0, server.db, s) && server.db.schemas == db0.schemas
    ensures db0.WellFormed() && db0.Clear(s) ==> server.db.WellFormed() && server.db.Clear(s)
    ensures Enumerates(names, db0.OfKind(s, kind))
    ensures ok ==> server.db == db0.Without(s, gone + db0.OfKind(s, kind)) && Accepted(db0, s, gone, names)
    ensures (forall n :: !server.fails(n)) ==> (ok <==> Accepted(db0, s, gone, names))
  {
    assert server.db.OfKind(s, kind) == db0.OfKind(s, kind);
    names := Enumerate(server.db.OfKind(s, kind));
    ok := server.Query();
    ghost var gone' := gone;
    if ok {
      ghost var n;
      ok, n := DropListed(server, s, names, db0, gone);
      assert Elems(names[..n]) <= Elems(names);
      gone' := gone + Elems(names[..n]);
      assert Elems(names) == db0.OfKind(s, kind);
    }
    if db0.WellFormed() && db0.Clear(s) { StillClear(db0, s, gone'); }
  }

  // Lists the schema's foreign keys, then drops each constraint.
  method DropKeys(server: Server, s: string) returns (ok: bool)
    modifies server
    ensures OutsideKept(old(server.db), server.db, s)
    ensures ok ==> server.db == old(server.db).Without(s, {})
    ensures (forall n :: !server.fails(n)) ==> ok
    ensures old(server.db).WellFormed() && old(server.db).Clear(s) ==> server.db.WellFormed() && server.db.Clear(s)
  {
    ghost var db0 := server.db;
    var fks := Enumerate(server.db.KeysOf(s));
    ok := server.Query();
    if !ok { return; }
    var i := 0;
    while i < |fks|
      invariant 0 <= i <= |fks|
      invariant server.db == db0.(fks := db0.fks - Elems(fks[..i]))
    {
      assert fks[i] !in fks[..i] && fks[i] in db0.KeysOf(s);
      var dropped := server.DropConstraint(fks[i]);
      if !dropped {
        return false;
      }
      assert Elems(fks[..i + 1]) == Elems(fks[..i]) + {fks[i]};
      i := i + 1;
    }
    assert Elems(fks[..i]) == db0.KeysOf(s);
    assert db0.Without(s, {}).objects == db0.objects;
  }

  // With nothing outside in the way, the three classes can be dropped in turn:
  // every view that could bind a table is gone by then, and every table that
  // could bind a sequence.
  lemma ClassAccepted(db0: Db, s: string, kind: Kind, gone: set<Id>, names: seq<Id>)
    requires db0.WellFormed() && db0.Clear(s) && Enumerates(names, db0.OfKind(s, kind))
    requires kind.View? ==> gone == {} && DropOrder(db0, names)
    requires kind.Table? ==> gone == db0.OfKind(s, View)
    requires kind.Sequence? ==> gone == db0.OfKind(s, View) + db0.OfKind(s, Table)
    requires kind in {View, Table, Sequence}
    ensures Accepted(db0, s, gone, names)
  {
    forall k | 0 <= k < |names|
      ensures Acceptable(db0, s, gone, names, k)
    {
      var o := names[k];
      var db := db0.Without(s, gone + Elems(names[..k]));
      assert forall j :: 0 <= j < k ==> names[j] in names[..k];
      assert o !in names[..k] && o in db0.OfKind(s, kind);
      forall b | b in db.binds && b.1 == o && b.0 in db.objects
        ensures b.0 == o
      {
        assert b.0 in db0.Contents(s);
        if kind.View? {
          assert b.0 in db0.OfKind(s, View);
          var j :| 0 <= j < |names| && names[j] == b.0;
          assert k <= j;
        }
      }
    }
  }

  // If all was dropped, nothing was in the way.
  lemma AllDroppedMeansClear(db0: Db, s: string, views: seq<Id>, tables: seq<Id>, sequences: seq<Id>)
    requires db0.WellFormed()
    requires Enumerates(views, db0.OfKind(s, View)) && Enumerates(tables, db0.OfKind(s, Table))
    requires Enumerates(sequences, db0.OfKind(s, Sequence))
    requires Accepted(db0, s, {}, views) && Accepted(db0, s, db0.OfKind(s, View), tables)
    requires Accepted(db0, s, db0.OfKind(s, View) + db0.OfKind(s, Table), sequences)
    requires db0.Contents(s) == db0.OfKind(s, View) + db0.OfKind(s, Table) + db0.OfKind(s, Sequence)
    ensures db0.Clear(s) && DropOrder(db0, views)
  {
    forall i, j | 0 <= i < j < |views|
      ensures (views[j], views[i]) !in db0.binds
    {
      assert Acceptable(db0, s, {}, views, i);
      assert views[j] !in views[..i] && views[j] in db0.OfKind(s, View);
    }
    forall fk | fk in db0.fks && fk.referenced.schema == s
      ensures fk.parent.schema == s
    {
      assert fk.referenced in db0.OfKind(s, Table);
      var k :| 0 <= k < |tables| && tables[k] == fk.referenced;
      assert Acceptable(db0, s, db0.OfKind(s, View), tables, k);
    }
    forall b | b in db0.binds && b.0 in db0.objects && b.1 in db0.Contents(s)
      ensures b.0.schema == s
    {
      if b.1 in views {
        NoOutsideBinder(db0, s, {}, views, b);
      } else if b.1 in tables {
        NoOutsideBinder(db0, s, db0.OfKind(s, View), tables, b);
      } else {
        NoOutsideBinder(db0, s, db0.OfKind(s, View) + db0.OfKind(s, Table), sequences, b);
      }
    }
  }

  lemma NoOutsideBinder(db0: Db, s: string, gone: set<Id>, names: seq<Id>, b: (Id, Id))
    requires Accepted(db0, s, gone, names) && b in db0.binds && b.0 in db0.objects && b.1 in names
    requires gone <= db0.Contents(s) && forall o :: o in names ==> o in db0.Contents(s)
    ensures b.0.schema == s
  {
    var k :| 0 <= k < |names| && names[k] == b.1;
    assert Acceptable(db0, s, gone, names, k);
    var db := db0.Without(s, gone + Elems(names[..k]));
    if b.0 in names[..k] {
      var j :| 0 <= j < k && names[..k][j] == b.0;
      assert names[j] in names;
    }
    assert db.CanDropObject(names[k]);
    assert b.0.schema == s || b.0 in db.objects;
  }

  // Views first (they may reference tables), then tables, then sequences.
  method DropContents(server: Server, s: string) returns (ok: bool, ghost views: seq<Id>)
    requires server.db.WellFormed() && server.db.KeysOf(s) == {}
    modifies server
    ensures OutsideKept(old(server.db), server.db, s) && server.db.schemas == old(server.db).schemas
    ensures Enumerates(views, old(server.db).OfKind(s, View))
    ensures ok && server.db.Contents(s) == {} ==> old(server.db).Clear(s) && DropOrder(old(server.db), views)
    ensures old(server.db).Clear(s) && ok ==> server.db.Contents(s) == {}
    ensures (forall n :: !server.fails(n)) && old(server.db).Clear(s) && DropOrder(old(server.db), views) ==> ok
    ensures old(server.db).Clear(s) ==> server.db.WellFormed() && server.db.Clear(s)
  {
    ghost var db0 := server.db;
    ghost var vs, ts, ss := db0.OfKind(s, View), db0.OfKind(s, Table), db0.OfKind(s, Sequence);
    assert db0.Without(s, {}) == db0 by { assert db0.Without(s, {}).objects == db0.objects; }
    var views', tables, sequences;
    ok, views' := DropClass(server, s, View, db0, {});
    views := views';
    if db0.Clear(s) && DropOrder(db0, views) { ClassAccepted(db0, s, View, {}, views); }
    if !ok { return; }
    ok, tables := DropClass(server, s, Table, db0, vs);
    if db0.Clear(s) { ClassAccepted(db0, s, Table, vs, tables); }
    if !ok { return; }
    ok, sequences := DropClass(server, s, Sequence, db0, vs + ts);
    if db0.Clear(s) { ClassAccepted(db0, s, Sequence, vs + ts, sequences); }
    if ok {
      assert server.db.Contents(s) == db0.Contents(s) - (vs + ts + ss);
      if server.db.Contents(s) == {} {
        AllDroppedMeansClear(db0, s, views, tables, sequences);
      }
    }
  }

  lemma KeysGone(db: Db, s: string, views: seq<Id>)
    requires db.WellFormed()
    ensures var rest := db.Without(s, {});
            && rest.WellFormed() && rest.KeysOf(s) == {} && rest.OfKind(s, View) == db.OfKind(s, View)
            && rest.Contents(s) == db.Contents(s) && (rest.Clear(s) <==> db.Clear(s))
            && (DropOrder(rest, views) <==> DropOrder(db, views))
  {
    assert db.Without(s, {}).objects == db.objects;
  }

  lemma KeptThrough(a: Db, b: Db, c: Db, s: string)
    requires OutsideKept(a, b, s) && OutsideKept(b, c, s)
    ensures OutsideKept(a, c, s)
  {
    forall fk | fk in a.fks - c.fks
      ensures fk in a.KeysOf(s)
    {
      if fk in b.fks {
        assert fk in b.KeysOf(s);
      }
    }
  }

  // `views` is the order in which the catalogue happened to list the views.
  // On a server that refuses nothing of its own accord, the teardown succeeds
  // exactly when nothing outside depends on the schema, it holds only views,
  // tables and sequences, and no view is listed before a view bound to it.
  method DropSchemaCascade(server: Server, s: string) returns (ok: bool, ghost views: seq<Id>)
    requires server.db.WellFormed()
    modifies server
    ensures OutsideKept(old(server.db), server.db, s)
    ensures ok ==> s !in server.db.schemas
    ensures ok && s in old(server.db).schemas ==>
              server.db.Contents(s) == {} && server.db.KeysOf(s) == {}
              && old(server.db).Clear(s) && DropOrder(old(server.db), views)
    ensures s in old(server.db).schemas && (forall n :: !server.fails(n)) ==>
              && Enumerates(views, old(server.db).OfKind(s, View))
              && (ok <==> old(server.db).Clear(s) && DropOrder(old(server.db), views))
    // A schema that is not there is no error.
    ensures s !in old(server.db).schemas ==> server.db == old(server.db) && (ok <==> !server.fails(old(server.clock)))
    // A teardown that failed part-way can simply be run again.
    ensures old(server.db).Clear(s) ==> server.db.WellFormed() && server.db.Clear(s)
  {
    ghost var db0 := server.db;
    views := [];
    ok := server.Query();
    if !ok || s !in server.db.schemas { return; }
    ok := DropKeys(server, s);
    if !ok { return; }
    ghost var db1 := server.db;
    KeysGone(db0, s, []);
    ok, views := DropContents(server, s);
    KeysGone(db0, s, views);
    KeptThrough(db0, db1, server.db, s);
    if !ok { return; }
    ghost var db2 := server.db;
    ok := server.DropSchema(s);
    KeptThrough(db0, db2, server.db, s);
  }

  // The order of the views matters only where views are bound to views: if none
  // of the schema's are, every enumeration order is accepted; if two are, some
  // enumeration order is refused.
  lemma EveryOrderAccepted(db: Db, s: string)
    requires db.WellFormed()
    ensures (forall views :: Enumerates(views, db.OfKind(s, View)) ==> DropOrder(db, views))
            <==> forall b :: b in db.binds && b.0 in db.OfKind(s, View) && b.1 in db.OfKind(s, View) ==> b.0 == b.1
  {
    forall b | b in db.binds && b.0 in db.OfKind(s, View) && b.1 in db.OfKind(s, View) && b.0 != b.1
      ensures exists views :: Enumerates(views, db.OfKind(s, View)) && !DropOrder(db, views)
    {
      var rest := SomeOrder(db.OfKind(s, View) - {b.0, b.1});
      var views := [b.1, b.0] + rest;
      assert Enumerates(views, db.OfKind(s, View));
      assert (views[1], views[0]) in db.binds;
    }
  }

  lemma {:induction false} SomeOrder<T(!new)>(items: set<T>) returns (s: seq<T>)
    ensures Enumerates(s, items)
    decreases |items|
  {
    if items == {} {
      s := [];
    } else {
      var x :| x in items;
      var rest := SomeOrder(items - {x});
      s := [x] + rest;
    }
  }
}
