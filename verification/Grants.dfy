/** The vocabulary every provider shares: binding grants, results, artifacts. */
module Grants {

  datatype Option<+T> = None | Some(value: T)

  datatype Result<+T> = Ok(value: T) | Err

  // binding.GrantType is an open set of strings: read, create and full are the
  // ones the providers know, Other is anything else.
  datatype GrantType = Read | Create | Full | Other(name: string)

  datatype Grant = Grant(kind: GrantType, target: string) {

    // "*" is binding.GrantTargetAll.
    predicate All() {
      target == "*"
    }

    // create:* (or create with no target) is the only form of create.
    predicate CreateOnTable() {
      kind.Create? && target != "" && !All()
    }

    // Whether the grant speaks about the table called t.
    predicate Reaches(t: string) {
      All() || target == t || (kind.Create? && target == "")
    }
  }

  // A grant on one table waits for the table; everything else runs at once.
  predicate Deferrable(g: Grant) {
    (g.kind.Read? || g.kind.Full?) && !g.All()
  }

  // The forms a grant takes, spelled out: read and full are on `*` or on one table,
  // create is on the whole schema, with or without `*`.
  lemma GrantForms(kind: GrantType, target: string, t: string)
    ensures var g := Grant(kind, target);
            && (Deferrable(g) <==> kind in {Read, Full} && target != "*")
            && (g.CreateOnTable() <==> kind == Create && target !in {"", "*"})
            && (g.Reaches(t) <==> target in {"*", t} || (kind == Create && target == ""))
  {
  }

  // Granting create on one table is an error and ends the batch; revoking it is not.
  predicate Rejects(isGrant: bool, grants: seq<Grant>) {
    isGrant && exists g :: g in grants && g.CreateOnTable()
  }

  lemma RejectsStep(isGrant: bool, grants: seq<Grant>, i: nat)
    requires i < |grants|
    ensures Rejects(isGrant, grants[..i + 1]) <==>
            Rejects(isGrant, grants[..i]) || (isGrant && grants[i].CreateOnTable())
  {
    assert grants[..i + 1] == grants[..i] + [grants[i]];
  }

  // What the provider's documentation promises a list of grants to mean: the
  // privilege p on the table t is covered when some grant that speaks about t
  // carries p. `gives` is the provider's table of privileges per grant type
  // and scope (true for "*").
  ghost predicate Covers<P>(gives: (GrantType, bool) -> set<P>, grants: seq<Grant>, p: P, t: string) {
    exists g :: g in grants && CoversOne(gives, g, p, t)
  }

  predicate CoversOne<P>(gives: (GrantType, bool) -> set<P>, g: Grant, p: P, t: string) {
    !g.CreateOnTable() && g.Reaches(t) && p in gives(g.kind, g.All())
  }

  // The grants with their targets as the catalogue folds names.
  function Renamed(fold: string -> string, grants: seq<Grant>): seq<Grant> {
    seq(|grants|, i requires 0 <= i < |grants| => grants[i].(target := fold(grants[i].target)))
  }

  lemma RenamedCovers<P>(gives: (GrantType, bool) -> set<P>, fold: string -> string, grants: seq<Grant>, p: P,
                         t: string)
    ensures Covers(gives, Renamed(fold, grants), p, t) <==>
            exists g :: g in grants && CoversOne(gives, g.(target := fold(g.target)), p, t)
  {
    var renamed := Renamed(fold, grants);
    forall g | g in grants
      ensures g.(target := fold(g.target)) in renamed
    {
      var i :| 0 <= i < |grants| && grants[i] == g;
      assert renamed[i] == g.(target := fold(g.target));
    }
  }

  // The order-preserving selection a deferring grant loop reports.
  function Select(keep: Grant -> bool, grants: seq<Grant>): seq<Grant> {
    if grants == [] then []
    else
      var n := |grants| - 1;
      Select(keep, grants[..n]) + if keep(grants[n]) then [grants[n]] else []
  }

  lemma SelectStep(keep: Grant -> bool, grants: seq<Grant>, i: nat)
    requires i < |grants|
    ensures keep(grants[i]) ==> Select(keep, grants[..i + 1]) == Select(keep, grants[..i]) + [grants[i]]
    ensures !keep(grants[i]) ==> Select(keep, grants[..i + 1]) == Select(keep, grants[..i])
  {
    assert grants[..i + 1][..i] == grants[..i];
  }

  // The selection keeps the order and the repetitions of the list.
  lemma {:induction false} SelectAppend(keep: Grant -> bool, a: seq<Grant>, b: seq<Grant>)
    ensures Select(keep, a + b) == Select(keep, a) + Select(keep, b)
  {
    if b == [] {
      assert a + b == a;
    } else {
      var n := |b| - 1;
      SelectAppend(keep, a, b[..n]);
      assert (a + b)[..|a + b| - 1] == a + b[..n];
    }
  }

  lemma SelectOne(keep: Grant -> bool, g: Grant)
    ensures Select(keep, [g]) == if keep(g) then [g] else []
  {
    assert [g][..0] == [];
  }

  lemma {:induction false} SelectIn(keep: Grant -> bool, grants: seq<Grant>, g: Grant)
    ensures g in Select(keep, grants) <==> g in grants && keep(g)
  {
    if grants == [] {
    } else {
      var n := |grants| - 1;
      SelectIn(keep, grants[..n], g);
      assert grants == grants[..n] + [grants[n]];
    }
  }
}
