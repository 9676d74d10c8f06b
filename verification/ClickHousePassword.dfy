/** The generated password: six characters of each class, then an in-place shuffle. */
module ClickHousePassword {
  import opened Grants

  const LOWER := "abcdefghijkmnopqrstuvwxyz"
  const UPPER := "ABCDEFGHJKLMNPQRSTUVWXYZ"
  const DIGITS := "23456789"
  const SPECIAL := "~-._"

  const CLASSES := [LOWER, UPPER, DIGITS, SPECIAL]

  const PER_CLASS: nat := 6

  // The remainder of v: as many times the bound as possible taken off.
  function Remainder(v: nat, bound: nat): (r: nat)
    requires bound > 0
    ensures r < bound && (v < bound ==> r == v)
  {
    if v < bound then v else Remainder(v - bound, bound)
  }

  // rand.Int over an arbitrary source that may run dry.
  class RandomReader {
    const source: nat -> Option<nat>
    var next: nat

    constructor (source: nat -> Option<nat>)
      ensures this.source == source
    {
      this.source := source;
      next := 0;
    }

    method Int(bound: nat) returns (r: Option<nat>)
      requires bound > 0
      modifies this
      ensures next == old(next) + 1
      ensures r == match source(old(next)) { case Some(v) => Some(Remainder(v, bound)) case None => None }
    {
      var v := source(next);
      next := next + 1;
      r := if v.Some? then Some(Remainder(v.value, bound)) else None;
    }
  }

  // These are the source's numbers from the start-th on.
  ghost predicate Read(source: nat -> Option<nat>, start: nat, numbers: seq<nat>) {
    numbers == [] ||
    var n := |numbers| - 1;
    Read(source, start, numbers[..n]) && source(start + n) == Some(numbers[n])
  }

  lemma ReadOne(source: nat -> Option<nat>, start: nat, numbers: seq<nat>, number: nat)
    requires Read(source, start, numbers) && source(start + |numbers|) == Some(number)
    ensures Read(source, start, numbers + [number])
  {
    assert (numbers + [number])[..|numbers|] == numbers;
  }

  lemma {:induction false} ReadMore(source: nat -> Option<nat>, start: nat, numbers: seq<nat>, more: seq<nat>)
    requires Read(source, start, numbers) && Read(source, start + |numbers|, more)
    ensures Read(source, start, numbers + more)
  {
    if more == [] {
      assert numbers + more == numbers;
    } else {
      var n := |more| - 1;
      ReadMore(source, start, numbers, more[..n]);
      ReadOne(source, start, numbers + more[..n], more[n]);
      assert numbers + more == numbers + more[..n] + [more[n]];
    }
  }

  // Any numbers are read from some source.
  lemma EverySourceIsPossible(numbers: seq<nat>, start: nat) returns (source: nat -> Option<nat>)
    ensures (forall n :: source(n).Some?) && Read(source, start, numbers)
  {
    source := n => if start <= n < start + |numbers| then Some(numbers[n - start]) else Some(0);
    ReadPrefix(source, start, numbers, |numbers|);
    assert numbers[..|numbers|] == numbers;
  }

  lemma {:induction false} ReadPrefix(source: nat -> Option<nat>, start: nat, numbers: seq<nat>, n: nat)
    requires n <= |numbers| && forall k :: 0 <= k < |numbers| ==> source(start + k) == Some(numbers[k])
    ensures Read(source, start, numbers[..n])
  {
    if n == 0 {
    } else {
      ReadPrefix(source, start, numbers, n - 1);
      assert numbers[..n][..n - 1] == numbers[..n - 1];
    }
  }

  // What calls to come will read, unless they fail first.
  ghost predicate Ahead(source: nat -> Option<nat>, start: nat, numbers: seq<nat>) {
    numbers == [] ||
    var n := |numbers| - 1;
    Ahead(source, start, numbers[..n]) && (source(start + n).Some? ==> source(start + n).value == numbers[n])
  }

  lemma {:induction false} LookAhead(source: nat -> Option<nat>, start: nat, n: nat) returns (numbers: seq<nat>)
    ensures |numbers| == n && Ahead(source, start, numbers)
  {
    if n == 0 {
      numbers := [];
    } else {
      var before := LookAhead(source, start, n - 1);
      numbers := before + [if source(start + n - 1).Some? then source(start + n - 1).value else 0];
      assert numbers[..n - 1] == before;
    }
  }

  lemma {:induction false} AheadAt(source: nat -> Option<nat>, start: nat, numbers: seq<nat>, k: nat)
    requires Ahead(source, start, numbers) && k < |numbers| && source(start + k).Some?
    ensures numbers[k] == source(start + k).value
  {
    var n := |numbers| - 1;
    if k == n {
    } else {
      AheadAt(source, start, numbers[..n], k);
    }
  }

  // One more of them is read.
  lemma ReadNext(source: nat -> Option<nat>, start: nat, numbers: seq<nat>, k: nat)
    requires Ahead(source, start, numbers) && k < |numbers| && source(start + k).Some?
    requires Read(source, start, numbers[..k])
    ensures Read(source, start, numbers[..k + 1]) && numbers[k] == source(start + k).value
  {
    AheadAt(source, start, numbers, k);
    ReadOne(source, start, numbers[..k], numbers[k]);
    assert numbers[..k + 1] == numbers[..k] + [numbers[k]];
  }

  function Swapped<T>(s: seq<T>, i: nat, j: nat): seq<T>
    requires i < |s| && j < |s|
  {
    s[i := s[j]][j := s[i]]
  }

  // Draws that the loop can make: the draw for position i is at most i.
  ghost predicate Draws(d: seq<nat>) {
    forall i :: 0 <= i < |d| ==> d[i] <= i
  }

  // The swaps of the loop from position i down to position 1.
  ghost function From<T>(s: seq<T>, d: seq<nat>, i: nat): (r: seq<T>)
    requires i < |s| == |d| && Draws(d)
    ensures |r| == |s|
    decreases i
  {
    if i == 0 then s else From(Swapped(s, i, d[i]), d, i - 1)
  }

  ghost function Shuffled<T>(s: seq<T>, d: seq<nat>): (r: seq<T>)
    requires |d| == |s| && Draws(d)
    ensures |r| == |s|
  {
    if s == [] then s else From(s, d, |s| - 1)
  }

  // The draws the loop makes from the numbers: the first is for the last position,
  // and there is none for position 0.
  ghost function Drawn(numbers: seq<nat>): (d: seq<nat>)
    ensures |d| == |numbers| + 1 && Draws(d)
  {
    if numbers == [] then [0] else Drawn(numbers[1..]) + [Remainder(numbers[0], |numbers| + 1)]
  }

  lemma {:induction false} DrawnAt(numbers: seq<nat>, i: nat)
    requires 0 < i <= |numbers|
    ensures Drawn(numbers)[i] == Remainder(numbers[|numbers| - i], i + 1)
  {
    if i == |numbers| {
    } else {
      DrawnAt(numbers[1..], i);
    }
  }

  // The loop's draws are as free as the source: every legal draw sequence is what the
  // loop makes of some numbers.
  lemma {:induction false} EveryDrawIsMade(d: seq<nat>) returns (numbers: seq<nat>)
    requires d != [] && Draws(d)
    ensures |numbers| == |d| - 1 && Drawn(numbers) == d
  {
    if |d| == 1 {
      numbers := [];
    } else {
      var n := |d| - 1;
      var rest := EveryDrawIsMade(d[..n]);
      numbers := [d[n]] + rest;
      assert numbers[1..] == rest;
    }
  }

  method Swap(a: array<char>, i: nat, j: nat)
    requires i < a.Length && j < a.Length
    modifies a
    ensures a[..] == Swapped(old(a[..]), i, j)
  {
    a[i], a[j] := a[j], a[i];
  }

  // One turn of the loop: the draw for position i, and the swap.
  method SwapDrawn(a: array<char>, i: nat, random: RandomReader, ghost start: nat, ghost numbers: seq<nat>)
    returns (ok: bool)
    requires 0 < i < a.Length == |numbers| + 1 && random.next == start + (|numbers| - i)
    requires Ahead(random.source, start, numbers) && Read(random.source, start, numbers[..|numbers| - i])
    modifies a, random
    ensures ok <==> random.source(old(random.next)).Some?
    ensures random.next == old(random.next) + 1
    ensures ok ==> Read(random.source, start, numbers[..|numbers| - i + 1])
    ensures ok ==> a[..] == Swapped(old(a[..]), i, Drawn(numbers)[i])
  {
    var j := random.Int(i + 1);
    if j.None? {
      return false;
    }
    ReadNext(random.source, start, numbers, |numbers| - i);
    DrawnAt(numbers, i);
    Swap(a, i, j.value);
    ok := true;
  }

  // `numbers` is what the loop read.
  method Shuffle(a: array<char>, random: RandomReader) returns (ok: bool, ghost numbers: seq<nat>)
    requires a.Length > 0
    modifies a, random
    ensures ok ==> |numbers| == a.Length - 1 && Read(random.source, old(random.next), numbers)
    ensures ok ==> a[..] == Shuffled(old(a[..]), Drawn(numbers))
    ensures (forall n :: random.source(n).Some?) ==> ok
  {
    var i := a.Length - 1;
    ghost var start := random.next;
    numbers := LookAhead(random.source, start, a.Length - 1);
    ghost var d := Drawn(numbers);
    while i > 0
      invariant 0 <= i < a.Length && random.next == start + (|numbers| - i)
      invariant Read(random.source, start, numbers[..|numbers| - i])
      invariant From(a[..], d, i) == Shuffled(old(a[..]), d)
    {
      ok := SwapDrawn(a, i, random, start, numbers);
      if !ok { return; }
      i := i - 1;
    }
    assert numbers[..|numbers|] == numbers;
    ok := true;
  }

  // ---- the shuffle is a bijection between draw sequences and permutations ----

  lemma SwappedPermutes<T>(s: seq<T>, i: nat, j: nat)
    requires i < |s| && j < |s|
    ensures multiset(Swapped(s, i, j)) == multiset(s)
  {
  }

  // Positions above i are settled ...
  lemma {:induction false} FromSettled<T>(s: seq<T>, d: seq<nat>, i: nat, k: nat)
    requires i < k < |s| == |d| && Draws(d)
    ensures From(s, d, i)[k] == s[k]
    decreases i
  {
    if i == 0 {
    } else {
      FromSettled(Swapped(s, i, d[i]), d, i - 1, k);
    }
  }

  // ... and the rest is only rearranged.
  lemma {:induction false} FromPermutes<T>(s: seq<T>, d: seq<nat>, i: nat)
    requires i < |s| == |d| && Draws(d)
    ensures multiset(From(s, d, i)) == multiset(s)
    decreases i
  {
    if i == 0 {
    } else {
      FromPermutes(Swapped(s, i, d[i]), d, i - 1);
      SwappedPermutes(s, i, d[i]);
    }
  }

  ghost predicate Distinct<T>(s: seq<T>) {
    forall i, j :: 0 <= i < j < |s| ==> s[i] != s[j]
  }

  lemma SwappedDistinct<T>(s: seq<T>, i: nat, j: nat)
    requires i < |s| && j < |s| && Distinct(s)
    ensures Distinct(Swapped(s, i, j))
  {
  }

  lemma SettledAt<T>(s: seq<T>, t: seq<T>, d: seq<nat>, i: nat)
    requires 0 < i < |s| == |d| && Draws(d) && t == Swapped(s, i, d[i])
    ensures From(t, d, i - 1)[i] == s[d[i]]
  {
    FromSettled(t, d, i - 1, i);
  }

  // The outcome tells every draw: the element at position i tells the i-th.
  lemma {:induction false} DrawsAreUnique<T>(s: seq<T>, d: seq<nat>, e: seq<nat>, i: nat)
    requires i < |s| == |d| == |e| && Draws(d) && Draws(e) && Distinct(s)
    requires From(s, d, i) == From(s, e, i)
    ensures forall k :: 0 <= k <= i ==> d[k] == e[k]
    decreases i
  {
    if i == 0 {
    } else {
      var t, u := Swapped(s, i, d[i]), Swapped(s, i, e[i]);
      SettledAt(s, t, d, i);
      SettledAt(s, u, e, i);
      assert d[i] == e[i];
      SwappedDistinct(s, i, d[i]);
      DrawsAreUnique(t, d, e, i - 1);
    }
  }

  lemma {:induction false} LaterDrawsUnused<T>(s: seq<T>, d: seq<nat>, i: nat, k: nat, v: nat)
    requires i < k < |s| == |d| && Draws(d) && v <= k
    ensures From(s, d[k := v], i) == From(s, d, i)
    decreases i
  {
    if i == 0 {
    } else {
      LaterDrawsUnused(Swapped(s, i, d[i]), d, i - 1, k, v);
    }
  }

  // Every permutation is reached: look for the element wanted at position i
  // among the first i + 1, swap it there, and go on below.
  lemma {:induction false} EveryPermutationDrawn<T>(s: seq<T>, target: seq<T>, i: nat) returns (d: seq<nat>)
    requires i < |s| == |target| && multiset(s) == multiset(target)
    requires forall k :: i < k < |s| ==> s[k] == target[k]
    ensures |d| == |s| && Draws(d) && From(s, d, i) == target
    decreases i
  {
    if i == 0 {
      d := seq(|s|, k => 0);
      FirstSettled(s, target);
    } else {
      var j := Find(s, target, i);
      var t := Swapped(s, i, j);
      SwappedPermutes(s, i, j);
      var e := EveryPermutationDrawn(t, target, i - 1);
      d := e[i := j];
      LaterDrawsUnused(t, e, i - 1, i, j);
    }
  }

  lemma FirstSettled<T>(s: seq<T>, target: seq<T>)
    requires 0 < |s| == |target| && multiset(s) == multiset(target)
    requires forall k :: 0 < k < |s| ==> s[k] == target[k]
    ensures s == target
  {
    SettledMultiset(s, target, 0);
    assert multiset(s[..1]) == multiset{s[0]} && multiset(target[..1]) == multiset{target[0]};
    assert s[0] in multiset(target[..1]);
  }

  lemma SettledMultiset<T>(s: seq<T>, target: seq<T>, i: nat)
    requires i < |s| == |target| && multiset(s) == multiset(target)
    requires forall k :: i < k < |s| ==> s[k] == target[k]
    ensures multiset(s[..i + 1]) == multiset(target[..i + 1])
  {
    assert s == s[..i + 1] + s[i + 1..] && target == target[..i + 1] + target[i + 1..];
    assert s[i + 1..] == target[i + 1..];
    assert multiset(s) - multiset(s[i + 1..]) == multiset(s[..i + 1]);
    assert multiset(target) - multiset(target[i + 1..]) == multiset(target[..i + 1]);
  }

  lemma Find<T>(s: seq<T>, target: seq<T>, i: nat) returns (j: nat)
    requires i < |s| == |target| && multiset(s) == multiset(target)
    requires forall k :: i < k < |s| ==> s[k] == target[k]
    ensures j <= i && s[j] == target[i]
  {
    SettledMultiset(s, target, i);
    assert target[i] == target[..i + 1][i];
    assert target[i] in multiset(s[..i + 1]);
    j :| j < |s[..i + 1]| && s[..i + 1][j] == target[i];
  }

  lemma OutcomesArePermutations<T>(s: seq<T>, target: seq<T>)
    requires |s| == |target|
    ensures multiset(s) == multiset(target) <==>
            exists d: seq<nat> :: |d| == |s| && Draws(d) && Shuffled(s, d) == target
  {
    if s == [] {
      var none: seq<nat> := [];
      assert |none| == |s| && Draws(none) && Shuffled(s, none) == target;
    } else {
      if multiset(s) == multiset(target) {
        var d := EveryPermutationDrawn(s, target, |s| - 1);
        assert Shuffled(s, d) == target;
      }
      forall d: seq<nat> | |d| == |s| && Draws(d) && Shuffled(s, d) == target
        ensures multiset(s) == multiset(target)
      {
        FromPermutes(s, d, |s| - 1);
      }
    }
  }

  lemma SameOutcomeSameDraws<T>(s: seq<T>, d: seq<nat>, e: seq<nat>)
    requires Distinct(s) && |d| == |e| == |s| && Draws(d) && Draws(e) && Shuffled(s, d) == Shuffled(s, e)
    ensures d == e
  {
    if s == [] {
    } else {
      DrawsAreUnique(s, d, e, |s| - 1);
    }
  }

  // The outcomes of the loop are exactly the permutations, and a permutation of
  // distinct positions arises from exactly one draw sequence: as many draw
  // sequences as permutations, so fair draws give every permutation equal weight.
  lemma ExactlyOneDraw<T>(s: seq<T>, target: seq<T>)
    requires |s| == |target|
    ensures multiset(s) == multiset(target) <==>
            exists d: seq<nat> :: |d| == |s| && Draws(d) && Shuffled(s, d) == target
    ensures Distinct(s) ==> forall d: seq<nat>, e: seq<nat> ::
              |d| == |e| == |s| && Draws(d) && Draws(e) && Shuffled(s, d) == target && Shuffled(s, e) == target ==>
                d == e
  {
    OutcomesArePermutations(s, target);
    if Distinct(s) {
      forall d: seq<nat>, e: seq<nat> |
        |d| == |e| == |s| && Draws(d) && Draws(e) && Shuffled(s, d) == target && Shuffled(s, e) == target
        ensures d == e
      {
        SameOutcomeSameDraws(s, d, e);
      }
    }
  }

  // ---- the password ----

  // How many characters of s belong to the class.
  function Count(s: string, class': string): nat {
    if s == "" then 0 else Count(s[..|s| - 1], class') + if s[|s| - 1] in class' then 1 else 0
  }

  lemma {:induction false} CountAppend(a: string, b: string, class': string)
    ensures Count(a + b, class') == Count(a, class') + Count(b, class')
  {
    if b == "" {
      assert a + b == a;
    } else {
      var n := |b| - 1;
      CountAppend(a, b[..n], class');
      assert (a + b)[..|a + b| - 1] == a + b[..n];
    }
  }

  lemma {:induction false} CountSplit(s: string, i: nat, class': string)
    requires i < |s|
    ensures Count(s, class') == Count(s[..i] + s[i + 1..], class') + if s[i] in class' then 1 else 0
  {
    CountAppend(s[..i], [s[i]] + s[i + 1..], class');
    CountAppend([s[i]], s[i + 1..], class');
    CountAppend(s[..i], s[i + 1..], class');
    assert Count([s[i]], class') == if s[i] in class' then 1 else 0;
    assert s == s[..i] + ([s[i]] + s[i + 1..]);
  }

  lemma {:induction false} CountPermuted(s: string, t: string, class': string)
    requires multiset(s) == multiset(t)
    ensures Count(s, class') == Count(t, class')
    decreases |s|
  {
    if s == "" {
      assert |multiset(t)| == 0;
    } else {
      var n := |s| - 1;
      assert s[n] in multiset(t);
      var i: nat :| i < |t| && t[i] == s[n];
      WithoutOne(s, n);
      WithoutOne(t, i);
      assert s[..n] + s[n + 1..] == s[..n];
      CountPermuted(s[..n], t[..i] + t[i + 1..], class');
      CountSplit(t, i, class');
    }
  }

  lemma WithoutOne(s: string, i: nat)
    requires i < |s|
    ensures multiset(s[..i] + s[i + 1..]) == multiset(s) - multiset{s[i]}
  {
    assert s == s[..i] + ([s[i]] + s[i + 1..]);
  }

  predicate Within(s: string, class': string) {
    forall k :: 0 <= k < |s| ==> s[k] in class'
  }

  predicate Apart(class': string, other: string) {
    forall c :: c in class' ==> c !in other
  }

  lemma {:induction false} CountWithin(s: string, class': string, other: string)
    requires Within(s, class')
    ensures other == class' ==> Count(s, other) == |s|
    ensures Apart(class', other) ==> Count(s, other) == 0
  {
    if s == "" {
    } else {
      CountWithin(s[..|s| - 1], class', other);
      assert s[|s| - 1] in class';
    }
  }

  ghost predicate Filled(classes: seq<string>) {
    forall i :: 0 <= i < |classes| ==> classes[i] != ""
  }

  // Classes are not empty and share no character.
  ghost predicate Separate(classes: seq<string>) {
    && Filled(classes)
    && forall i, j :: 0 <= i < j < |classes| ==> Apart(classes[i], classes[j]) && Apart(classes[j], classes[i])
  }

  // As many characters of each class as are picked, and no others.
  ghost predicate Mixed(classes: seq<string>, per: nat, s: string) {
    |s| == Times(per, |classes|) && forall i :: 0 <= i < |classes| ==> Count(s, classes[i]) == per
  }

  function Times(per: nat, n: nat): nat {
    if n == 0 then 0 else Times(per, n - 1) + per
  }

  // The letters and digits that cannot be taken for one another, and four marks.
  lemma Alphabets(c: char)
    ensures c in LOWER <==> 'a' <= c <= 'z' && c != 'l'
    ensures c in UPPER <==> 'A' <= c <= 'Z' && c !in {'I', 'O'}
    ensures c in DIGITS <==> '2' <= c <= '9'
    ensures c in SPECIAL <==> c in {'~', '-', '.', '_'}
  {
  }

  lemma ClassesSeparate()
    ensures Separate(CLASSES)
  {
    forall c
      ensures c in LOWER ==> 'a' <= c <= 'z'
      ensures c in UPPER ==> 'A' <= c <= 'Z'
      ensures c in DIGITS ==> '0' <= c <= '9'
      ensures c in SPECIAL ==> c in {'~', '-', '.', '_'}
    {
      Alphabets(c);
    }
  }

  // The characters the numbers pick from the class.
  ghost function Picks(numbers: seq<nat>, class': string): (r: string)
    requires class' != ""
    ensures |r| == |numbers| && Within(r, class')
  {
    if numbers == [] then ""
    else
      var n := |numbers| - 1;
      Picks(numbers[..n], class') + [class'[Remainder(numbers[n], |class'|)]]
  }

  // n characters drawn from the class are appended; `numbers` is what was read.
  method AppendPicks(password: string, class': string, n: nat, random: RandomReader)
    returns (r: Option<string>, ghost numbers: seq<nat>)
    requires class' != ""
    modifies random
    ensures (forall k :: random.source(k).Some?) ==> r.Some?
    ensures r.Some? ==> |numbers| == n && Read(random.source, old(random.next), numbers)
    ensures r.Some? ==> random.next == old(random.next) + n && r.value == password + Picks(numbers, class')
    ensures r.Some? ==> |r.value| == |password| + n && Count(r.value, class') == Count(password, class') + n
    ensures r.Some? ==> forall other :: Apart(class', other) ==> Count(r.value, other) == Count(password, other)
  {
    var s := password;
    numbers := [];
    for k := 0 to n
      invariant random.next == old(random.next) + k == old(random.next) + |numbers|
      invariant Read(random.source, old(random.next), numbers)
      invariant s == password + Picks(numbers, class')
    {
      ghost var number := random.source(random.next);
      var idx := random.Int(|class'|);
      if idx.None? {
        return None, numbers;
      }
      ReadOne(random.source, old(random.next), numbers, number.value);
      assert (numbers + [number.value])[..k] == numbers;
      numbers := numbers + [number.value];
      s := s + [class'[idx.value]];
    }
    forall other
      ensures Count(s, other) == Count(password, other) + Count(Picks(numbers, class'), other)
      ensures other == class' ==> Count(Picks(numbers, class'), other) == n
      ensures Apart(class', other) ==> Count(Picks(numbers, class'), other) == 0
    {
      CountAppend(password, Picks(numbers, class'), other);
      CountWithin(Picks(numbers, class'), class', other);
    }
    r := Some(s);
  }

  // Before the shuffle: the picks of the first i classes, one after the other.
  ghost function Unshuffled(classes: seq<string>, i: nat, per: nat, numbers: seq<nat>): (r: string)
    requires Filled(classes) && i <= |classes| && |numbers| == Times(per, i)
    ensures |r| == |numbers|
  {
    if i == 0 then ""
    else
      var k := |numbers| - per;
      Unshuffled(classes, i - 1, per, numbers[..k]) + Picks(numbers[k..], classes[i - 1])
  }

  lemma UnshuffledStep(classes: seq<string>, i: nat, per: nat, before: seq<nat>, last: seq<nat>)
    requires Filled(classes) && i < |classes| && |before| == Times(per, i) && |last| == per
    ensures Unshuffled(classes, i + 1, per, before + last)
            == Unshuffled(classes, i, per, before) + Picks(last, classes[i])
  {
    assert (before + last)[..|before|] == before && (before + last)[|before|..] == last;
  }

  lemma PickedCount(classes: seq<string>, before: string, picks: string, i: nat, j: nat)
    requires Separate(classes) && i < |classes| && j < |classes| && Within(picks, classes[i])
    ensures Count(before + picks, classes[j]) == Count(before, classes[j]) + if i == j then |picks| else 0
  {
    CountAppend(before, picks, classes[j]);
    CountWithin(picks, classes[i], classes[j]);
  }

  // As many of a class among them as are picked, none of a later one.
  lemma {:induction false} UnshuffledCount(classes: seq<string>, i: nat, per: nat, numbers: seq<nat>, j: nat)
    requires Separate(classes) && i <= |classes| && |numbers| == Times(per, i) && j < |classes|
    ensures Count(Unshuffled(classes, i, per, numbers), classes[j]) == if j < i then per else 0
  {
    if i == 0 {
    } else {
      var k := |numbers| - per;
      UnshuffledCount(classes, i - 1, per, numbers[..k], j);
      var picks := Picks(numbers[k..], classes[i - 1]);
      PickedCount(classes, Unshuffled(classes, i - 1, per, numbers[..k]), picks, i - 1, j);
    }
  }

  // The loop over the classes.
  method PickAll(classes: seq<string>, per: nat, random: RandomReader)
    returns (r: Option<string>, ghost numbers: seq<nat>)
    requires Filled(classes)
    modifies random
    ensures (forall k :: random.source(k).Some?) ==> r.Some?
    ensures r.Some? ==> |numbers| == Times(per, |classes|) && Read(random.source, old(random.next), numbers)
    ensures r.Some? ==> random.next == old(random.next) + |numbers|
                        && r.value == Unshuffled(classes, |classes|, per, numbers)
  {
    var s := "";
    numbers := [];
    for i := 0 to |classes|
      invariant |numbers| == Times(per, i) && Read(random.source, old(random.next), numbers)
      invariant random.next == old(random.next) + |numbers| && s == Unshuffled(classes, i, per, numbers)
    {
      ghost var more;
      r, more := AppendPicks(s, classes[i], per, random);
      if r.None? { return; }
      UnshuffledStep(classes, i, per, numbers, more);
      ReadMore(random.source, old(random.next), numbers, more);
      numbers := numbers + more;
      s := r.value;
    }
    r := Some(s);
  }

  // The password some numbers make: the first pick the characters, the others shuffle.
  ghost function PasswordFrom(classes: seq<string>, per: nat, first: seq<nat>, second: seq<nat>): string
    requires Filled(classes) && |first| == |second| + 1 == Times(per, |classes|)
  {
    Shuffled(Unshuffled(classes, |classes|, per, first), Drawn(second))
  }

  lemma PasswordIsMixed(classes: seq<string>, per: nat, first: seq<nat>, second: seq<nat>)
    requires Separate(classes) && |first| == |second| + 1 == Times(per, |classes|)
    ensures Mixed(classes, per, PasswordFrom(classes, per, first, second))
  {
    var s, d := Unshuffled(classes, |classes|, per, first), Drawn(second);
    FromPermutes(s, d, |s| - 1);
    forall i | 0 <= i < |classes|
      ensures Count(Shuffled(s, d), classes[i]) == per
    {
      UnshuffledCount(classes, |classes|, per, first, i);
      CountPermuted(s, Shuffled(s, d), classes[i]);
    }
  }

  // For any classes.
  method Generate(classes: seq<string>, per: nat, random: RandomReader)
    returns (r: Option<string>, ghost first: seq<nat>, ghost second: seq<nat>)
    requires classes != [] && per > 0 && Separate(classes)
    modifies random
    ensures (forall k :: random.source(k).Some?) ==> r.Some?
    ensures r.Some? ==> |first| == |second| + 1 == Times(per, |classes|)
                        && Read(random.source, old(random.next), first + second)
    ensures r.Some? ==> r.value == PasswordFrom(classes, per, first, second) && Mixed(classes, per, r.value)
  {
    var unshuffled;
    second := [];
    unshuffled, first := PickAll(classes, per, random);
    if unshuffled.None? { return None, first, second; }
    var n := |unshuffled.value|;
    var a := new char[n](i requires 0 <= i < n => unshuffled.value[i]);
    assert a[..] == unshuffled.value;
    var ok;
    ok, second := Shuffle(a, random);
    if !ok { return None, first, second; }
    ReadMore(random.source, old(random.next), first, second);
    PasswordIsMixed(classes, per, first, second);
    r := Some(a[..]);
  }

  // `first` and `second` are the numbers read.
  method GeneratePassword(random: RandomReader)
    returns (r: Option<string>, ghost first: seq<nat>, ghost second: seq<nat>)
    modifies random
    ensures Separate(CLASSES)
    ensures (forall k :: random.source(k).Some?) ==> r.Some?
    ensures r.Some? ==> |first| == |second| + 1 == Times(PER_CLASS, |CLASSES|)
                        && Read(random.source, old(random.next), first + second)
    ensures r.Some? ==> r.value == PasswordFrom(CLASSES, PER_CLASS, first, second)
    ensures r.Some? ==> |r.value| == 24 && forall class' :: class' in {LOWER, UPPER, DIGITS, SPECIAL} ==>
              Count(r.value, class') == 6
    ensures r.Some? ==> forall c :: c in r.value ==> c in {'~', '-', '.', '_'} || Unmistakable(c)
  {
    ClassesSeparate();
    r, first, second := Generate(CLASSES, PER_CLASS, random);
    if r.Some? {
      FourOfSix(r.value);
      OnlyFromClasses(r.value);
    }
  }

  // A letter or digit that is not taken for another.
  predicate Unmistakable(c: char) {
    ('a' <= c <= 'z' || 'A' <= c <= 'Z' || '0' <= c <= '9') && c !in {'l', 'I', 'O', '0', '1'}
  }

  lemma OnlyFromClasses(s: string)
    requires Separate(CLASSES) && Mixed(CLASSES, PER_CLASS, s)
    ensures forall c :: c in s ==> c in {'~', '-', '.', '_'} || Unmistakable(c)
  {
    SortedPermutes(CLASSES, PER_CLASS, s);
    forall c | c in s
      ensures c in {'~', '-', '.', '_'} || Unmistakable(c)
    {
      assert c in multiset(Sorted(CLASSES, |CLASSES|, s));
      SortedWithin(CLASSES, |CLASSES|, s, c);
      Alphabets(c);
    }
  }

  lemma {:induction false} SortedWithin(classes: seq<string>, i: nat, s: string, c: char)
    requires i <= |classes| && c in Sorted(classes, i, s)
    ensures exists j :: 0 <= j < i && c in classes[j]
  {
    if i == 0 {
    } else if c in Sorted(classes, i - 1, s) {
      SortedWithin(classes, i - 1, s, c);
    } else {
      assert c in In(s, classes[i - 1]);
    }
  }

  lemma FourOfSix(s: string)
    requires Mixed(CLASSES, PER_CLASS, s)
    ensures |s| == 24
    ensures forall class' :: class' in {LOWER, UPPER, DIGITS, SPECIAL} ==> Count(s, class') == 6
  {
    assert CLASSES[0] == LOWER && CLASSES[1] == UPPER && CLASSES[2] == DIGITS && CLASSES[3] == SPECIAL;
    assert Times(6, 1) == 6 && Times(6, 2) == 12 && Times(6, 3) == 18 && Times(6, 4) == 24;
  }

  // ---- every such password can come out ----

  function In(s: string, class': string): (r: string)
    ensures |r| == Count(s, class') && Within(r, class')
  {
    if s == "" then ""
    else
      var n := |s| - 1;
      if s[n] in class' then In(s[..n], class') + [s[n]] else In(s[..n], class')
  }

  // The characters of the first i classes, class by class.
  function Sorted(classes: seq<string>, i: nat, s: string): string
    requires i <= |classes|
  {
    if i == 0 then "" else Sorted(classes, i - 1, s) + In(s, classes[i - 1])
  }

  lemma {:induction false} CountOne(s: string, c: char)
    ensures Count(s, [c]) == multiset(s)[c]
  {
    if s == "" {
    } else {
      var n := |s| - 1;
      CountOne(s[..n], c);
      assert s == s[..n] + [s[n]];
    }
  }

  // The occurrences of a character in the picks of a class it belongs to, and in
  // those of one it does not.
  lemma {:induction false} InKeeps(s: string, class': string, c: char)
    ensures Count(In(s, class'), [c]) == if c in class' then Count(s, [c]) else 0
  {
    if s == "" {
    } else {
      var n := |s| - 1;
      InKeeps(s[..n], class', c);
      if s[n] in class' {
        assert In(s, class')[..|In(s, class')| - 1] == In(s[..n], class');
      }
    }
  }

  // Sorting by class keeps a character's occurrences at most: it is in one class at most.
  lemma {:induction false} SortedKeeps(classes: seq<string>, i: nat, s: string, c: char)
    requires Separate(classes) && i <= |classes|
    ensures Count(Sorted(classes, i, s), [c]) <= Count(s, [c])
  {
    if i == 0 {
    } else {
      SortedAdds(classes, i, s, c);
      if c in classes[i - 1] {
        SortedNone(classes, i - 1, i - 1, s, c);
      } else {
        SortedKeeps(classes, i - 1, s, c);
      }
    }
  }

  lemma {:induction false} SortedNone(classes: seq<string>, i: nat, j: nat, s: string, c: char)
    requires Separate(classes) && i <= j < |classes| && c in classes[j]
    ensures Count(Sorted(classes, i, s), [c]) == 0
  {
    if i == 0 {
    } else {
      SortedNone(classes, i - 1, j, s, c);
      assert Apart(classes[j], classes[i - 1]);
      SortedAdds(classes, i, s, c);
    }
  }

  lemma SortedAdds(classes: seq<string>, i: nat, s: string, c: char)
    requires 0 < i <= |classes|
    ensures Count(Sorted(classes, i, s), [c]) ==
            Count(Sorted(classes, i - 1, s), [c]) + if c in classes[i - 1] then Count(s, [c]) else 0
  {
    InKeeps(s, classes[i - 1], c);
    CountAppend(Sorted(classes, i - 1, s), In(s, classes[i - 1]), [c]);
  }

  lemma {:induction false} SortedSize(classes: seq<string>, i: nat, per: nat, s: string)
    requires i <= |classes| && forall j :: 0 <= j < |classes| ==> Count(s, classes[j]) == per
    ensures |Sorted(classes, i, s)| == Times(per, i)
  {
    if i == 0 {
    } else {
      SortedSize(classes, i - 1, per, s);
    }
  }

  lemma SortedPermutes(classes: seq<string>, per: nat, s: string)
    requires Separate(classes) && Mixed(classes, per, s)
    ensures var sorted := Sorted(classes, |classes|, s); multiset(sorted) == multiset(s) && |sorted| == |s|
  {
    var sorted := Sorted(classes, |classes|, s);
    SortedSize(classes, |classes|, per, s);
    forall c
      ensures multiset(sorted)[c] <= multiset(s)[c]
    {
      SortedKeeps(classes, |classes|, s, c);
      CountOne(sorted, c);
      CountOne(s, c);
    }
    assert multiset(sorted) <= multiset(s);
    assert |multiset(s) - multiset(sorted)| == 0;
  }

  // Numbers that pick the given characters.
  lemma {:induction false} EveryPickIsMade(s: string, class': string) returns (numbers: seq<nat>)
    requires class' != "" && Within(s, class')
    ensures |numbers| == |s| && Picks(numbers, class') == s
  {
    if s == "" {
      numbers := [];
    } else {
      var n := |s| - 1;
      var before := EveryPickIsMade(s[..n], class');
      assert s[n] in class';
      var k: nat :| k < |class'| && class'[k] == s[n];
      numbers := before + [k];
      assert numbers[..n] == before;
    }
  }

  lemma {:induction false} EverySortedIsMade(classes: seq<string>, i: nat, per: nat, s: string)
    returns (numbers: seq<nat>)
    requires Filled(classes) && i <= |classes| && forall j :: 0 <= j < |classes| ==> Count(s, classes[j]) == per
    ensures |numbers| == Times(per, i) && Unshuffled(classes, i, per, numbers) == Sorted(classes, i, s)
  {
    if i == 0 {
      numbers := [];
    } else {
      var before := EverySortedIsMade(classes, i - 1, per, s);
      var last := EveryPickIsMade(In(s, classes[i - 1]), classes[i - 1]);
      UnshuffledStep(classes, i - 1, per, before, last);
      numbers := before + last;
    }
  }

  // Every password with as many characters of each class as are picked is made by
  // some numbers, and some source gives them, wherever in it the generation starts:
  // neither the picks nor the shuffle leaves one out.
  lemma EveryPasswordArises(classes: seq<string>, per: nat, password: string, start: nat)
    returns (source: nat -> Option<nat>, first: seq<nat>, second: seq<nat>)
    requires classes != [] && per > 0 && Separate(classes) && Mixed(classes, per, password)
    ensures |first| == |second| + 1 == Times(per, |classes|)
    ensures (forall n :: source(n).Some?) && Read(source, start, first + second)
    ensures PasswordFrom(classes, per, first, second) == password
  {
    first, second := EveryPasswordIsMade(classes, per, password);
    source := EverySourceIsPossible(first + second, start);
  }

  lemma EveryPasswordIsMade(classes: seq<string>, per: nat, password: string)
    returns (first: seq<nat>, second: seq<nat>)
    requires classes != [] && per > 0 && Separate(classes) && Mixed(classes, per, password)
    ensures |first| == |second| + 1 == Times(per, |classes|) && PasswordFrom(classes, per, first, second) == password
  {
    var sorted := Sorted(classes, |classes|, password);
    SortedPermutes(classes, per, password);
    first := EverySortedIsMade(classes, |classes|, per, password);
    var draws := EveryPermutationDrawn(sorted, password, |sorted| - 1);
    second := EveryDrawIsMade(draws);
    PasswordOf(classes, per, first, second, sorted, draws);
  }

  lemma PasswordOf(classes: seq<string>, per: nat, first: seq<nat>, second: seq<nat>, picks: string, draws: seq<nat>)
    requires Filled(classes) && |first| == |second| + 1 == Times(per, |classes|)
    requires Unshuffled(classes, |classes|, per, first) == picks && Drawn(second) == draws
    ensures PasswordFrom(classes, per, first, second) == From(picks, draws, |picks| - 1)
  {
  }
}
