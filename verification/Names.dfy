/** Case folding of identifiers, over ASCII letters. */
module Names {

  function UpperChar(c: char): char {
    if 'a' <= c <= 'z' then c - 'a' + 'A' else c
  }

  function Upper(s: string): string {
    seq(|s|, i requires 0 <= i < |s| => UpperChar(s[i]))
  }

  lemma UpperTwice(s: string)
    ensures Upper(Upper(s)) == Upper(s)
  {
  }

  // Uppercasing neither makes nor breaks the target `*`, nor the empty one.
  lemma UpperKeepsStar(s: string)
    ensures Upper(s) == "*" <==> s == "*"
    ensures Upper(s) == "" <==> s == ""
  {
    if Upper(s) == "*" {
      assert |s| == 1 && UpperChar(s[0]) == Upper(s)[0];
    }
  }

  function LowerChar(c: char): char {
    if 'A' <= c <= 'Z' then c - 'A' + 'a' else c
  }

  function Lower(s: string): string {
    seq(|s|, i requires 0 <= i < |s| => LowerChar(s[i]))
  }

  // The two foldings forget the same thing.
  lemma FoldingsAgree(s: string)
    ensures Lower(Upper(s)) == Lower(s) && Upper(Lower(s)) == Upper(s)
  {
  }

  lemma LowerKeepsStar(s: string)
    ensures Lower(s) == "*" <==> s == "*"
    ensures Lower(s) == "" <==> s == ""
  {
    if Lower(s) == "*" {
      assert |s| == 1 && LowerChar(s[0]) == Lower(s)[0];
    }
  }
}
