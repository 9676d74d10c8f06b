/** The identifier and literal quoters, against the lexers that read them back. */
module Quoting {
  import opened Grants

  // strings.ReplaceAll(s, c, cc) for a one-character c.
  function DoubleEach(s: string, c: char): string {
    if s == "" then "" else (if s[0] == c then [c, c] else [s[0]]) + DoubleEach(s[1..], c)
  }

  lemma DoubleCons(x: char, s: string, c: char)
    ensures DoubleEach([x] + s, c) == (if x == c then [c, c] else [x]) + DoubleEach(s, c)
  {
    assert ([x] + s)[1..] == s;
  }

  lemma {:induction false} DoubleAppend(a: string, b: string, c: char)
    ensures DoubleEach(a + b, c) == DoubleEach(a, c) + DoubleEach(b, c)
  {
    if a == "" {
      assert a + b == b;
    } else {
      assert a + b == [a[0]] + (a[1..] + b);
      DoubleCons(a[0], a[1..] + b, c);
      DoubleAppend(a[1..], b, c);
    }
  }

  // A quoting style. With `escapes` the server also reads backslash escapes
  // inside the quotes (ClickHouse identifiers, Snowflake string literals).
  datatype Style = Style(open: char, close: char, escapes: bool)

  const CLICKHOUSE := Style('"', '"', true)
  const DATABRICKS := Style('`', '`', false)

  // Backslashes are doubled first where they matter, then the closing delimiter.
  function Quote(q: Style, s: string): string {
    [q.open] + DoubleEach(if q.escapes then DoubleEach(s, '\\') else s, q.close) + [q.close]
  }

  datatype Lexed = Lexed(content: string, rest: string) | Malformed {
    function Before(prefix: string): Lexed {
      if Malformed? then Malformed else Lexed(prefix + content, rest)
    }
  }

  // How the server reads the character after a backslash.
  function Unescape(c: char): string {
    if c == 'n' then "\n" else if c == 't' then "\t" else if c == 'r' then "\r" else if c == '0' then "\0"
    else [c]
  }

  // Reads one quoted token off the front of the text.
  function Lex(q: Style, text: string): Lexed {
    if text == "" || text[0] != q.open then Malformed else LexBody(q, text[1..])
  }

  function LexBody(q: Style, text: string): Lexed {
    if text == "" then Malformed
    else if text[0] == q.close then
      if |text| > 1 && text[1] == q.close then LexBody(q, text[2..]).Before([q.close])
      else Lexed("", text[1..])
    else if q.escapes && text[0] == '\\' then
      if |text| == 1 then Malformed else LexBody(q, text[2..]).Before(Unescape(text[1]))
    else LexBody(q, text[1..]).Before([text[0]])
  }

  function Escaped(q: Style, s: string): string {
    DoubleEach(if q.escapes then DoubleEach(s, '\\') else s, q.close)
  }

  lemma EscapedStep(q: Style, s: string)
    requires s != "" && q.close != '\\'
    ensures Escaped(q, s) == EscapedHead(q, s[0]) + Escaped(q, s[1..])
  {
    var c := [s[0]];
    assert s == c + s[1..];
    if q.escapes {
      DoubleAppend(c, s[1..], '\\');
      DoubleAppend(DoubleEach(c, '\\'), DoubleEach(s[1..], '\\'), q.close);
      EscapedOne(q, s[0]);
    } else {
      DoubleAppend(c, s[1..], q.close);
      EscapedOne(q, s[0]);
    }
  }

  lemma EscapedOne(q: Style, c: char)
    requires q.close != '\\'
    ensures Escaped(q, [c]) == EscapedHead(q, c)
  {
    assert [c] == [c] + "";
    DoubleCons(c, "", q.close);
    DoubleCons(c, "", '\\');
    if q.escapes && c == '\\' {
      assert DoubleEach([c], '\\') == [c] + [c];
      DoubleCons(c, [c], q.close);
    }
  }

  function EscapedHead(q: Style, c: char): string {
    if c == q.close || (q.escapes && c == '\\') then [c, c] else [c]
  }

  // One escaped character is read back as that character.
  lemma LexHead(q: Style, c: char, tail: string)
    requires q.close != '\\' && tail != ""
    ensures LexBody(q, EscapedHead(q, c) + tail) == LexBody(q, tail).Before([c])
  {
    var text := EscapedHead(q, c) + tail;
    if |EscapedHead(q, c)| == 2 {
      assert text[2..] == tail;
    } else {
      assert text[1..] == tail;
    }
  }

  lemma {:induction false} LexEscaped(q: Style, s: string, rest: string)
    requires q.close != '\\'
    ensures LexBody(q, Escaped(q, s) + ([q.close] + rest)) == Lexed(s, rest)
            <==> (rest == "" || rest[0] != q.close)
  {
    var after := [q.close] + rest;
    if s == "" {
      assert Escaped(q, s) + after == after;
      assert after[1..] == rest;
    } else {
      EscapedStep(q, s);
      LexEscaped(q, s[1..], rest);
      var tail := Escaped(q, s[1..]) + after;
      assert Escaped(q, s) + after == EscapedHead(q, s[0]) + tail;
      LexHead(q, s[0], tail);
      BeforeSplit(LexBody(q, tail), s, rest);
    }
  }

  lemma BeforeSplit(l: Lexed, s: string, rest: string)
    requires s != ""
    ensures l.Before([s[0]]) == Lexed(s, rest) <==> l == Lexed(s[1..], rest)
  {
    if l.Lexed? {
      assert ([s[0]] + l.content)[1..] == l.content;
      assert s == [s[0]] + s[1..];
    }
  }

  // Whatever the name contains, the server reads back exactly that name and
  // leaves exactly the text that follows it, if and only if that text does not
  // start with the delimiter again.
  lemma QuoteRoundTrip(q: Style, s: string, rest: string)
    requires q.close != '\\'
    ensures Lex(q, Quote(q, s) + rest) == Lexed(s, rest) <==> (rest == "" || rest[0] != q.close)
  {
    LexEscaped(q, s, rest);
    assert (Quote(q, s) + rest)[1..] == Escaped(q, s) + ([q.close] + rest);
  }

  // Without the backslash step the round trip fails: a name ending in a
  // backslash and a quote would end its own quotes early.
  lemma BackslashStepIsNeeded(rest: string)
    ensures var doubledOnly := "\"" + DoubleEach("\\\"", '"') + "\"";
            Lex(CLICKHOUSE, doubledOnly + rest) != Lexed("\\\"", rest)
  {
    assert DoubleEach("\\\"", '"') == "\\\"\"" by {
      DoubleCons('\\', "\"", '"');
      DoubleCons('"', "", '"');
      assert "\\\"" == ['\\'] + "\"" && "\"" == ['"'] + "";
    }
    var body := ("\"" + "\\\"\"" + "\"" + rest)[1..];
    assert body == "\\\"\"\"" + rest;
    assert body[2..] == "\"\"" + rest;
    assert LexBody(CLICKHOUSE, body) == LexBody(CLICKHOUSE, body[2..]).Before("\"");
    var l := LexBody(CLICKHOUSE, body[2..]);
    if l.Lexed? {
      assert ("\"" + l.content)[0] == '"';
      assert "\\\""[0] == '\\';
    }
  }

  // ---- reading statements ----

  datatype Read<T> = Got(value: T, rest: string) | Error

  predicate StartsWith(text: string, word: string) {
    |word| <= |text| && text[..|word|] == word
  }

  function ReadQuoted(q: Style, text: string): Read<string> {
    match Lex(q, text)
    case Malformed => Error
    case Lexed(name, rest) => Got(name, rest)
  }

  lemma StartsWithSelf(word: string, rest: string)
    ensures StartsWith(word + rest, word) && (word + rest)[|word|..] == rest
  {
  }

  lemma Associate(a: string, b: string, c: string)
    ensures (a + b) + c == a + (b + c)
  {
  }

  lemma Reassociate(a: string, b: string, c: string, d: string)
    ensures (a + (b + c)) + d == a + (b + (c + d))
  {
  }
}
