/** The Unity Catalog GRANT/REVOKE text of the Databricks provider, and its reading. */
module DatabricksStatements {
  import opened Grants
  import opened Quoting

  datatype Scope =
    | Catalog(catalog: string)
    | Schema(catalog: string, schema: string)
    | Table(catalog: string, schema: string, table: string)

  // `privs` is one of the fixed privilege lists the provider uses.
  datatype Statement = Statement(isGrant: bool, privs: string, scope: Scope, principal: string)

  const PRIVILEGE_LISTS: seq<string> :=
    ["SELECT ON ", "SELECT, MODIFY, CREATE TABLE ON ", "CREATE TABLE ON ", "ALL PRIVILEGES ON ", "USE CATALOG ON ",
     "USE SCHEMA ON "]

  function Ident(name: string): string {
    Quote(DATABRICKS, name)
  }

  function PrintScope(scope: Scope): string {
    match scope
    case Catalog(c) => "CATALOG " + Ident(c)
    case Schema(c, s) => "SCHEMA " + (Ident(c) + ("." + Ident(s)))
    case Table(c, s, t) => "TABLE " + (Ident(c) + ("." + (Ident(s) + ("." + Ident(t)))))
  }

  function PrintGrantee(s: Statement): string {
    (if s.isGrant then " TO " else " FROM ") + Ident(s.principal)
  }

  function Print(s: Statement): string {
    (if s.isGrant then "GRANT " else "REVOKE ") + (s.privs + (PrintScope(s.scope) + PrintGrantee(s)))
  }

  // ---- reading ----

  function ReadPrivs(text: string, lists: seq<string>): Read<string> {
    if lists == [] then Error
    else if StartsWith(text, lists[0]) then Got(lists[0], text[|lists[0]|..])
    else ReadPrivs(text, lists[1..])
  }

  // A dot and one more name.
  function ReadDotted(text: string): Read<string> {
    if StartsWith(text, ".") then ReadQuoted(DATABRICKS, text[1..]) else Error
  }

  function ReadScope(text: string): Read<Scope> {
    if StartsWith(text, "CATALOG ") then
      match ReadQuoted(DATABRICKS, text[8..])
      case Error => Error
      case Got(c, rest) => Got(Catalog(c), rest)
    else if StartsWith(text, "SCHEMA ") then
      match ReadQuoted(DATABRICKS, text[7..])
      case Error => Error
      case Got(c, rest) => ReadSchema(c, rest)
    else if StartsWith(text, "TABLE ") then
      match ReadQuoted(DATABRICKS, text[6..])
      case Error => Error
      case Got(c, rest) => ReadTable(c, rest)
    else Error
  }

  function ReadSchema(c: string, text: string): Read<Scope> {
    match ReadDotted(text)
    case Error => Error
    case Got(s, rest) => Got(Schema(c, s), rest)
  }

  function ReadTable(c: string, text: string): Read<Scope> {
    match ReadDotted(text)
    case Error => Error
    case Got(s, rest) =>
      match ReadDotted(rest)
      case Error => Error
      case Got(t, rest') => Got(Table(c, s, t), rest')
  }

  function Parse(text: string): Option<Statement> {
    if StartsWith(text, "GRANT ") then ParseFrom(true, text[6..])
    else if StartsWith(text, "REVOKE ") then ParseFrom(false, text[7..])
    else None
  }

  function ParseFrom(isGrant: bool, text: string): Option<Statement> {
    match ReadPrivs(text, PRIVILEGE_LISTS)
    case Error => None
    case Got(privs, rest) =>
      match ReadScope(rest)
      case Error => None
      case Got(scope, rest') => ParseGrantee(isGrant, privs, scope, rest')
  }

  function ParseGrantee(isGrant: bool, privs: string, scope: Scope, text: string): Option<Statement> {
    var word := if isGrant then " TO " else " FROM ";
    if !StartsWith(text, word) then None
    else
      match ReadQuoted(DATABRICKS, text[|word|..])
      case Error => None
      case Got(principal, rest) => if rest == "" then Some(Statement(isGrant, privs, scope, principal)) else None
  }

  // ---- the round trip ----

  lemma ReadIdent(name: string, rest: string)
    requires rest == "" || rest[0] != '`'
    ensures ReadQuoted(DATABRICKS, Ident(name) + rest) == Got(name, rest)
  {
    QuoteRoundTrip(DATABRICKS, name, rest);
  }

  lemma ReadDottedIdent(name: string, rest: string)
    requires rest == "" || rest[0] != '`'
    ensures ReadDotted("." + (Ident(name) + rest)) == Got(name, rest)
  {
    StartsWithSelf(".", Ident(name) + rest);
    ReadIdent(name, rest);
  }

  lemma ReadScopePrinted(scope: Scope, rest: string)
    requires rest != "" && rest[0] == ' '
    ensures ReadScope(PrintScope(scope) + rest) == Got(scope, rest)
  {
    match scope {
      case Catalog(c) =>
        Associate("CATALOG ", Ident(c), rest);
        StartsWithSelf("CATALOG ", Ident(c) + rest);
        ReadIdent(c, rest);
      case Schema(c, s) =>
        var tail := "." + (Ident(s) + rest);
        Associate("SCHEMA ", Ident(c) + ("." + Ident(s)), rest);
        Reassociate(Ident(c), ".", Ident(s), rest);
        StartsWithSelf("SCHEMA ", Ident(c) + tail);
        assert ("SCHEMA " + (Ident(c) + tail))[0] == 'S';
        ReadIdent(c, tail);
        ReadDottedIdent(s, rest);
      case Table(c, s, t) =>
        ReadTablePrinted(c, s, t, rest);
    }
  }

  lemma ReadTablePrinted(c: string, s: string, t: string, rest: string)
    requires rest != "" && rest[0] == ' '
    ensures ReadScope(PrintScope(Table(c, s, t)) + rest) == Got(Table(c, s, t), rest)
  {
    TableText(c, s, t, rest);
    TableWord(c, "." + (Ident(s) + ("." + (Ident(t) + rest))));
    ReadTableTail(c, s, t, rest);
  }

  lemma TableWord(c: string, tail: string)
    requires tail != "" && tail[0] == '.'
    ensures ReadScope("TABLE " + (Ident(c) + tail)) == ReadTable(c, tail)
  {
    StartsWithSelf("TABLE ", Ident(c) + tail);
    assert ("TABLE " + (Ident(c) + tail))[0] == 'T';
    ReadIdent(c, tail);
  }

  lemma TableText(c: string, s: string, t: string, rest: string)
    ensures PrintScope(Table(c, s, t)) + rest == "TABLE " + (Ident(c) + ("." + (Ident(s) + ("." + (Ident(t) + rest)))))
  {
    Associate("TABLE ", Ident(c) + ("." + (Ident(s) + ("." + Ident(t)))), rest);
    Reassociate(Ident(c), ".", Ident(s) + ("." + Ident(t)), rest);
    Reassociate(Ident(s), ".", Ident(t), rest);
  }

  lemma ReadTableTail(c: string, s: string, t: string, rest: string)
    requires rest != "" && rest[0] == ' '
    ensures ReadTable(c, "." + (Ident(s) + ("." + (Ident(t) + rest)))) == Got(Table(c, s, t), rest)
  {
    ReadDottedIdent(s, "." + (Ident(t) + rest));
    ReadDottedIdent(t, rest);
  }

  // None of the fixed lists begins another, up to and including its ON.
  lemma ReadPrivsPrinted(privs: string, rest: string)
    requires privs in PRIVILEGE_LISTS
    ensures ReadPrivs(privs + rest, PRIVILEGE_LISTS) == Got(privs, rest)
  {
    StartsWithSelf(privs, rest);
    var k :| 0 <= k < 6 && PRIVILEGE_LISTS[k] == privs;
    forall i | 0 <= i < k
      ensures !StartsWith(privs + rest, PRIVILEGE_LISTS[i])
    {
      ListsDiffer(i, k, rest);
    }
    ReadPrivsAt(privs + rest, PRIVILEGE_LISTS, k);
  }

  lemma ListsDiffer(i: nat, k: nat, rest: string)
    requires i < k < 6
    ensures !StartsWith(PRIVILEGE_LISTS[k] + rest, PRIVILEGE_LISTS[i])
  {
    var x := if k == 1 then 6 else if (i, k) == (4, 5) then 4 else 0;
    assert PRIVILEGE_LISTS[i][x] != PRIVILEGE_LISTS[k][x];
    assert (PRIVILEGE_LISTS[k] + rest)[x] == PRIVILEGE_LISTS[k][x];
  }

  lemma {:induction false} ReadPrivsAt(text: string, lists: seq<string>, k: nat)
    requires k < |lists| && StartsWith(text, lists[k])
    requires forall i :: 0 <= i < k ==> !StartsWith(text, lists[i])
    ensures ReadPrivs(text, lists) == Got(lists[k], text[|lists[k]|..])
  {
    if k == 0 {
    } else {
      ReadPrivsAt(text, lists[1..], k - 1);
    }
  }

  // The rendered text of every statement, whatever its names contain, is read
  // back as exactly that statement, with nothing left over.
  lemma ParsePrint(s: Statement)
    requires s.privs in PRIVILEGE_LISTS
    ensures Parse(Print(s)) == Some(s)
  {
    var word, tail := if s.isGrant then "GRANT " else "REVOKE ", PrintScope(s.scope) + PrintGrantee(s);
    StartsWithSelf(word, s.privs + tail);
    assert !s.isGrant ==> Print(s)[0] == 'R';
    assert "GRANT "[0] == 'G';
    ReadPrivsPrinted(s.privs, tail);
    assert PrintGrantee(s)[0] == ' ';
    ReadScopePrinted(s.scope, PrintGrantee(s));
    ParseGranteePrinted(s);
  }

  lemma ParseGranteePrinted(s: Statement)
    ensures ParseGrantee(s.isGrant, s.privs, s.scope, PrintGrantee(s)) == Some(s)
  {
    var word := if s.isGrant then " TO " else " FROM ";
    StartsWithSelf(word, Ident(s.principal));
    ReadIdent(s.principal, "");
    assert Ident(s.principal) + "" == Ident(s.principal);
  }
}
