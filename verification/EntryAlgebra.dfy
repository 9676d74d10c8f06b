/** Catalogues that store permissions as a set of entries: a GRANT adds the entries of
    its statement, a REVOKE removes them, and a failed batch stops between statements. */
module EntryAlgebra {
  import opened Grants

  function Exec<E>(isGrant: bool, held: set<E>, effect: set<E>): set<E> {
    if isGrant then held + effect else held - effect
  }

  function ExecAll<S, E>(isGrant: bool, effect: S -> set<E>, held: set<E>, stmts: seq<S>): set<E> {
    if stmts == [] then held
    else
      var n := |stmts| - 1;
      Exec(isGrant, ExecAll(isGrant, effect, held, stmts[..n]), effect(stmts[n]))
  }

  lemma ExecAllStep<S, E>(isGrant: bool, effect: S -> set<E>, held: set<E>, stmts: seq<S>, n: nat)
    requires n < |stmts|
    ensures ExecAll(isGrant, effect, held, stmts[..n + 1])
            == Exec(isGrant, ExecAll(isGrant, effect, held, stmts[..n]), effect(stmts[n]))
  {
    assert stmts[..n + 1][..n] == stmts[..n];
  }

  ghost predicate Mentions<S, E>(effect: S -> set<E>, stmts: seq<S>, e: E) {
    exists s :: s in stmts && e in effect(s)
  }

  lemma MentionsOne<S, E>(effect: S -> set<E>, s: S, e: E)
    ensures Mentions(effect, [s], e) <==> e in effect(s)
  {
    assert s in [s];
  }

  lemma MentionsAppend<S, E>(effect: S -> set<E>, a: seq<S>, b: seq<S>, e: E)
    ensures Mentions(effect, a + b, e) <==> Mentions(effect, a, e) || Mentions(effect, b, e)
  {
  }

  lemma {:induction false} ExecAllHolds<S, E>(isGrant: bool, effect: S -> set<E>, held: set<E>, stmts: seq<S>, e: E)
    ensures e in ExecAll(isGrant, effect, held, stmts)
            <==> if Mentions(effect, stmts, e) then isGrant else e in held
  {
    if stmts == [] {
    } else {
      var n := |stmts| - 1;
      assert stmts == stmts[..n] + [stmts[n]];
      ExecAllHolds(isGrant, effect, held, stmts[..n], e);
      assert Mentions(effect, stmts, e) <==> Mentions(effect, stmts[..n], e) || e in effect(stmts[n]);
    }
  }

  // The statements of a batch, grant by grant.
  function PlanAll<S>(plan: Grant -> seq<S>, grants: seq<Grant>): seq<S> {
    if grants == [] then []
    else
      var n := |grants| - 1;
      PlanAll(plan, grants[..n]) + plan(grants[n])
  }

  lemma {:induction false} PlanAllIn<S>(plan: Grant -> seq<S>, grants: seq<Grant>, s: S)
    ensures s in PlanAll(plan, grants) <==> exists g :: g in grants && s in plan(g)
  {
    if grants == [] {
    } else {
      var n := |grants| - 1;
      assert grants == grants[..n] + [grants[n]];
      PlanAllIn(plan, grants[..n], s);
    }
  }

  lemma {:induction false} PlanPrefix<S>(plan: Grant -> seq<S>, grants: seq<Grant>, n: nat)
    requires n <= |grants|
    ensures PlanAll(plan, grants[..n]) <= PlanAll(plan, grants)
  {
    if n == |grants| {
      assert grants[..n] == grants;
    } else {
      var last := |grants| - 1;
      PlanPrefix(plan, grants[..last], n);
      assert grants[..last][..n] == grants[..n];
    }
  }

  lemma {:induction false} ExecAllAppend<S, E>(isGrant: bool, effect: S -> set<E>, held: set<E>, a: seq<S>, b: seq<S>)
    ensures ExecAll(isGrant, effect, held, a + b) == ExecAll(isGrant, effect, ExecAll(isGrant, effect, held, a), b)
  {
    if b == [] {
      assert a + b == a;
    } else {
      var n := |b| - 1;
      ExecAllAppend(isGrant, effect, held, a, b[..n]);
      assert (a + b)[..|a + b| - 1] == a + b[..n];
    }
  }

  // Where a grant loop stands after its first i grants: what it reports, the
  // statements it ran, and the entries they left.
  ghost predicate Progress<S, E>(isGrant: bool, effect: S -> set<E>, start: set<E>, plan: Grant -> seq<S>,
                                 keep: Grant -> bool, grants: seq<Grant>, i: nat, done: seq<Grant>, ran: seq<S>,
                                 held: set<E>)
  {
    && i <= |grants|
    && done == Select(keep, grants[..i])
    && ran == PlanAll(plan, grants[..i]) && ran <= PlanAll(plan, grants)
    && held == ExecAll(isGrant, effect, start, ran)
  }

  lemma ProgressStart<S, E>(isGrant: bool, effect: S -> set<E>, start: set<E>, plan: Grant -> seq<S>,
                            keep: Grant -> bool, grants: seq<Grant>)
    ensures Progress(isGrant, effect, start, plan, keep, grants, 0, [], [], start)
  {
  }

  // n statements of the i-th grant were executed.
  lemma ProgressPart<S, E>(isGrant: bool, effect: S -> set<E>, start: set<E>, plan: Grant -> seq<S>,
                           keep: Grant -> bool, grants: seq<Grant>, i: nat, done: seq<Grant>, ran: seq<S>,
                           held: set<E>, n: nat)
    requires Progress(isGrant, effect, start, plan, keep, grants, i, done, ran, held)
    requires i < |grants| && n <= |plan(grants[i])|
    ensures ran + plan(grants[i])[..n] <= PlanAll(plan, grants)
    ensures ExecAll(isGrant, effect, held, plan(grants[i])[..n])
            == ExecAll(isGrant, effect, start, ran + plan(grants[i])[..n])
  {
    var stmts := plan(grants[i]);
    assert grants[..i + 1][..i] == grants[..i];
    assert PlanAll(plan, grants[..i + 1]) == ran + stmts;
    assert stmts[..n] <= stmts && ran + stmts[..n] <= ran + stmts;
    PlanPrefix(plan, grants, i + 1);
    ExecAllAppend(isGrant, effect, start, ran, stmts[..n]);
  }

  // All statements of the i-th grant were executed.
  lemma ProgressStep<S, E>(isGrant: bool, effect: S -> set<E>, start: set<E>, plan: Grant -> seq<S>,
                           keep: Grant -> bool, grants: seq<Grant>, i: nat, done: seq<Grant>, ran: seq<S>,
                           held: set<E>)
    requires Progress(isGrant, effect, start, plan, keep, grants, i, done, ran, held) && i < |grants|
    ensures var g := grants[i];
            Progress(isGrant, effect, start, plan, keep, grants, i + 1, if keep(g) then done + [g] else done,
                     ran + plan(g), ExecAll(isGrant, effect, held, plan(g)))
  {
    var stmts := plan(grants[i]);
    assert stmts[..|stmts|] == stmts;
    ProgressPart(isGrant, effect, start, plan, keep, grants, i, done, ran, held, |stmts|);
    SelectStep(keep, grants, i);
    assert grants[..i + 1][..i] == grants[..i];
  }

  lemma ProgressEnd<S, E>(isGrant: bool, effect: S -> set<E>, start: set<E>, plan: Grant -> seq<S>, keep: Grant -> bool,
                          grants: seq<Grant>, done: seq<Grant>, ran: seq<S>, held: set<E>)
    requires Progress(isGrant, effect, start, plan, keep, grants, |grants|, done, ran, held)
    ensures done == Select(keep, grants) && ran == PlanAll(plan, grants)
  {
    assert grants[..|grants|] == grants;
  }

  // One RevokeThenRegrant call that may have stopped early: so many statements
  // of the revoke batch, then so many of the grant batch.
  datatype Attempt = Attempt(revoked: nat, granted: nat) {
    predicate Within<S>(revokes: seq<S>, regrants: seq<S>) {
      revoked <= |revokes| && granted <= |regrants| && (granted > 0 ==> revoked == |revokes|)
    }

    function Leaves<S, E(==)>(revokeEffect: S -> set<E>, grantEffect: S -> set<E>,
                          held: set<E>, revokes: seq<S>, regrants: seq<S>): set<E>
      requires Within(revokes, regrants)
    {
      ExecAll(true, grantEffect, ExecAll(false, revokeEffect, held, revokes[..revoked]), regrants[..granted])
    }
  }

  function Complete<S>(revokes: seq<S>, regrants: seq<S>): Attempt {
    Attempt(|revokes|, |regrants|)
  }

  lemma LeavesHolds<S, E>(a: Attempt, revokeEffect: S -> set<E>, grantEffect: S -> set<E>,
                          held: set<E>, revokes: seq<S>, regrants: seq<S>, e: E)
    requires a.Within(revokes, regrants)
    ensures e in a.Leaves(revokeEffect, grantEffect, held, revokes, regrants)
            <==> || Mentions(grantEffect, regrants[..a.granted], e)
                 || (e in held && !Mentions(revokeEffect, revokes[..a.revoked], e))
  {
    ExecAllHolds(false, revokeEffect, held, revokes[..a.revoked], e);
    ExecAllHolds(true, grantEffect, ExecAll(false, revokeEffect, held, revokes[..a.revoked]), regrants[..a.granted], e);
  }

  function AfterAttempts<S, E>(revokeEffect: S -> set<E>, grantEffect: S -> set<E>,
                               held: set<E>, revokes: seq<S>, regrants: seq<S>, attempts: seq<Attempt>): set<E>
    requires forall a :: a in attempts ==> a.Within(revokes, regrants)
  {
    if attempts == [] then held
    else
      var n := |attempts| - 1;
      var before := AfterAttempts(revokeEffect, grantEffect, held, revokes, regrants, attempts[..n]);
      attempts[n].Leaves(revokeEffect, grantEffect, before, revokes, regrants)
  }

  // However many attempts failed between whichever statements, one that
  // completes leaves the entries a first complete attempt would have left.
  lemma {:induction false} RetryConverges<S, E>(revokeEffect: S -> set<E>, grantEffect: S -> set<E>,
                                                held: set<E>, revokes: seq<S>, regrants: seq<S>, attempts: seq<Attempt>)
    requires forall a :: a in attempts ==> a.Within(revokes, regrants)
    ensures var failed := AfterAttempts(revokeEffect, grantEffect, held, revokes, regrants, attempts);
            Complete(revokes, regrants).Leaves(revokeEffect, grantEffect, failed, revokes, regrants)
            == Complete(revokes, regrants).Leaves(revokeEffect, grantEffect, held, revokes, regrants)
  {
    if attempts == [] {
    } else {
      var n := |attempts| - 1;
      RetryConverges(revokeEffect, grantEffect, held, revokes, regrants, attempts[..n]);
      var before := AfterAttempts(revokeEffect, grantEffect, held, revokes, regrants, attempts[..n]);
      OneRetry(revokeEffect, grantEffect, before, revokes, regrants, attempts[n]);
    }
  }

  lemma OneRetry<S, E>(revokeEffect: S -> set<E>, grantEffect: S -> set<E>,
                       held: set<E>, revokes: seq<S>, regrants: seq<S>, a: Attempt)
    requires a.Within(revokes, regrants)
    ensures var c, failed := Complete(revokes, regrants), a.Leaves(revokeEffect, grantEffect, held, revokes, regrants);
            c.Leaves(revokeEffect, grantEffect, failed, revokes, regrants)
            == c.Leaves(revokeEffect, grantEffect, held, revokes, regrants)
  {
    var c := Complete(revokes, regrants);
    var failed := a.Leaves(revokeEffect, grantEffect, held, revokes, regrants);
    assert revokes[..c.revoked] == revokes && regrants[..c.granted] == regrants;
    var retried := c.Leaves(revokeEffect, grantEffect, failed, revokes, regrants);
    var atOnce := c.Leaves(revokeEffect, grantEffect, held, revokes, regrants);
    forall e | e in retried + atOnce
      ensures e in retried && e in atOnce
    {
      LeavesHolds(a, revokeEffect, grantEffect, held, revokes, regrants, e);
      LeavesHolds(c, revokeEffect, grantEffect, failed, revokes, regrants, e);
      LeavesHolds(c, revokeEffect, grantEffect, held, revokes, regrants, e);
      assert Mentions(grantEffect, regrants[..a.granted], e) ==> Mentions(grantEffect, regrants, e);
      assert Mentions(revokeEffect, revokes[..a.revoked], e) ==> Mentions(revokeEffect, revokes, e);
    }
  }
}
