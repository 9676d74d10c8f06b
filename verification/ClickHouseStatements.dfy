/** The GRANT/REVOKE text the ClickHouse provider prints, and the server's reading of it. */
module ClickHouseStatements {
  import opened Grants
  import opened Quoting

  datatype Priv = SELECT | INSERT | ALTER | CREATE_TABLE | CREATE_VIEW | DROP_TABLE | DROP_VIEW | TRUNCATE | OPTIMIZE

  datatype Scope = AllTables | OneTable(name: string)

  datatype Statement = Statement(isGrant: bool, cluster: string, privs: seq<Priv>, database: string, scope: Scope,
                                 role: string)

  function Keyword(p: Priv): string {
    match p
    case SELECT => "SELECT"
    case INSERT => "INSERT"
    case ALTER => "ALTER"
    case CREATE_TABLE => "CREATE TABLE"
    case CREATE_VIEW => "CREATE VIEW"
    case DROP_TABLE => "DROP TABLE"
    case DROP_VIEW => "DROP VIEW"
    case TRUNCATE => "TRUNCATE"
    case OPTIMIZE => "OPTIMIZE"
  }

  // ---- printing ----

  function OnCluster(cluster: string): string {
    if cluster == "" then "" else " ON CLUSTER " + Quote(CLICKHOUSE, cluster)
  }

  function PrintPrivs(privs: seq<Priv>): string
    requires privs != []
  {
    if |privs| == 1 then Keyword(privs[0]) else Keyword(privs[0]) + (", " + PrintPrivs(privs[1..]))
  }

  function PrintScope(scope: Scope): string {
    match scope
    case AllTables => "*"
    case OneTable(t) => Quote(CLICKHOUSE, t)
  }

  function Print(s: Statement): string
    requires s.privs != []
  {
    (if s.isGrant then "GRANT" else "REVOKE") + PrintFrom(s)
  }

  function PrintFrom(s: Statement): string
    requires s.privs != []
  {
    OnCluster(s.cluster) + (" " + (PrintPrivs(s.privs) + PrintTarget(s)))
  }

  function PrintTarget(s: Statement): string {
    " ON " + (Quote(CLICKHOUSE, s.database) + ("." + (PrintScope(s.scope) + PrintGrantee(s))))
  }

  function PrintGrantee(s: Statement): string {
    (if s.isGrant then " TO " else " FROM ") + Quote(CLICKHOUSE, s.role)
  }

  // ---- reading ----

  function ReadPriv(text: string): Read<Priv> {
    if StartsWith(text, "SELECT") then Got(SELECT, text[6..])
    else if StartsWith(text, "INSERT") then Got(INSERT, text[6..])
    else if StartsWith(text, "ALTER") then Got(ALTER, text[5..])
    else if StartsWith(text, "CREATE TABLE") then Got(CREATE_TABLE, text[12..])
    else if StartsWith(text, "CREATE VIEW") then Got(CREATE_VIEW, text[11..])
    else if StartsWith(text, "DROP TABLE") then Got(DROP_TABLE, text[10..])
    else if StartsWith(text, "DROP VIEW") then Got(DROP_VIEW, text[9..])
    else if StartsWith(text, "TRUNCATE") then Got(TRUNCATE, text[8..])
    else if StartsWith(text, "OPTIMIZE") then Got(OPTIMIZE, text[8..])
    else Error
  }

  function ReadPrivs(text: string): Read<seq<Priv>>
    decreases |text|
  {
    match ReadPriv(text)
    case Error => Error
    case Got(p, rest) =>
      if StartsWith(rest, ", ") && |rest| < |text| then
        match ReadPrivs(rest[2..])
        case Error => Error
        case Got(ps, rest') => Got([p] + ps, rest')
      else Got([p], rest)
  }

  function ReadName(text: string): Read<string> {
    ReadQuoted(CLICKHOUSE, text)
  }

  function ReadScope(text: string): Read<Scope> {
    if StartsWith(text, "*") then Got(AllTables, text[1..])
    else
      match ReadName(text)
      case Error => Error
      case Got(t, rest) => Got(OneTable(t), rest)
  }

  function Parse(text: string): Option<Statement> {
    if StartsWith(text, "GRANT") then ParseFrom(true, text[5..])
    else if StartsWith(text, "REVOKE") then ParseFrom(false, text[6..])
    else None
  }

  function ParseFrom(isGrant: bool, text: string): Option<Statement> {
    if StartsWith(text, " ON CLUSTER ") then
      match ReadName(text[12..])
      case Error => None
      case Got(cluster, rest) => if cluster == "" then None else ParsePrivs(isGrant, cluster, rest)
    else ParsePrivs(isGrant, "", text)
  }

  function ParsePrivs(isGrant: bool, cluster: string, text: string): Option<Statement> {
    if !StartsWith(text, " ") then None
    else
      match ReadPrivs(text[1..])
      case Error => None
      case Got(privs, rest) => ParseTarget(isGrant, cluster, privs, rest)
  }

  function ParseTarget(isGrant: bool, cluster: string, privs: seq<Priv>, text: string): Option<Statement> {
    if !StartsWith(text, " ON ") then None
    else
      match ReadName(text[4..])
      case Error => None
      case Got(database, rest) =>
        if !StartsWith(rest, ".") then None
        else
          match ReadScope(rest[1..])
          case Error => None
          case Got(scope, rest') => ParseGrantee(Statement(isGrant, cluster, privs, database, scope, ""), rest')
  }

  function ParseGrantee(s: Statement, text: string): Option<Statement> {
    var word := if s.isGrant then " TO " else " FROM ";
    if !StartsWith(text, word) then None
    else
      match ReadName(text[|word|..])
      case Error => None
      case Got(role, rest) => if rest == "" then Some(s.(role := role)) else None
  }

  // ---- the round trip ----

  lemma ReadPrivKeyword(p: Priv, rest: string)
    ensures ReadPriv(Keyword(p) + rest) == Got(p, rest)
  {
    var text := Keyword(p) + rest;
    StartsWithSelf(Keyword(p), rest);
    forall q: Priv | q != p
      ensures !StartsWith(text, Keyword(q))
    {
      KeywordsDiffer(p, q, rest);
    }
    assert forall q: Priv :: StartsWith(text, Keyword(q)) ==> q == p;
    assert Keyword(SELECT) == "SELECT" && Keyword(INSERT) == "INSERT" && Keyword(ALTER) == "ALTER";
    assert Keyword(CREATE_TABLE) == "CREATE TABLE" && Keyword(CREATE_VIEW) == "CREATE VIEW";
    assert Keyword(DROP_TABLE) == "DROP TABLE" && Keyword(DROP_VIEW) == "DROP VIEW";
    assert Keyword(TRUNCATE) == "TRUNCATE" && Keyword(OPTIMIZE) == "OPTIMIZE";
  }

  // No keyword is the beginning of another.
  lemma KeywordsDiffer(p: Priv, q: Priv, rest: string)
    requires p != q
    ensures !StartsWith(Keyword(p) + rest, Keyword(q))
  {
    var i := if {p, q} == {CREATE_TABLE, CREATE_VIEW} then 7
             else if {p, q} == {DROP_TABLE, DROP_VIEW} then 5
             else 0;
    assert Keyword(p)[i] != Keyword(q)[i];
    assert (Keyword(p) + rest)[i] == Keyword(p)[i];
  }

  lemma {:induction false} ReadPrivsPrinted(privs: seq<Priv>, rest: string)
    requires privs != [] && !StartsWith(rest, ", ")
    ensures ReadPrivs(PrintPrivs(privs) + rest) == Got(privs, rest)
  {
    var p, ps := privs[0], privs[1..];
    assert privs == [p] + ps;
    if ps == [] {
      assert privs == [p];
      assert PrintPrivs(privs) == Keyword(p);
      ReadPrivKeyword(p, rest);
    } else {
      ReadPrivsPrinted(ps, rest);
      ReadPrivsCons(p, PrintPrivs(ps) + rest);
      Reassociate(Keyword(p), ", ", PrintPrivs(ps), rest);
    }
  }

  lemma ReadPrivsCons(p: Priv, tail: string)
    ensures ReadPrivs(Keyword(p) + (", " + tail)) ==
            match ReadPrivs(tail) { case Error => Error case Got(ps, rest) => Got([p] + ps, rest) }
  {
    var text := Keyword(p) + (", " + tail);
    ReadPrivKeyword(p, ", " + tail);
    StartsWithSelf(", ", tail);
    assert |", " + tail| < |text|;
  }

  lemma ReadNameQuoted(name: string, rest: string)
    requires rest == "" || rest[0] != '"'
    ensures ReadName(Quote(CLICKHOUSE, name) + rest) == Got(name, rest)
  {
    QuoteRoundTrip(CLICKHOUSE, name, rest);
  }

  // The rendered text of every statement, whatever bytes its names contain, is
  // read back as exactly that statement: same operation, cluster, privileges,
  // scope and grantee, and nothing left over.
  lemma ParsePrint(s: Statement)
    requires s.privs != []
    ensures Parse(Print(s)) == Some(s)
  {
    var word := if s.isGrant then "GRANT" else "REVOKE";
    StartsWithSelf(word, PrintFrom(s));
    if !s.isGrant {
      assert Print(s)[0] == 'R' && "GRANT"[0] == 'G';
      assert !StartsWith(Print(s), "GRANT");
    }
    ParseFromPrint(s);
  }

  lemma ParseFromPrint(s: Statement)
    requires s.privs != []
    ensures ParseFrom(s.isGrant, PrintFrom(s)) == Some(s)
  {
    ParsePrivsPrint(s);
    var after := " " + (PrintPrivs(s.privs) + PrintTarget(s));
    if s.cluster == "" {
      assert PrintFrom(s) == after;
      NotOnCluster(s.privs, PrintTarget(s));
    } else {
      ReadNameQuoted(s.cluster, after);
      OnClusterRead(s.isGrant, s.cluster, after);
    }
  }

  lemma OnClusterRead(isGrant: bool, cluster: string, after: string)
    requires cluster != ""
    requires ReadName(Quote(CLICKHOUSE, cluster) + after) == Got(cluster, after)
    ensures ParseFrom(isGrant, OnCluster(cluster) + after) == ParsePrivs(isGrant, cluster, after)
  {
    var named := Quote(CLICKHOUSE, cluster) + after;
    Associate(" ON CLUSTER ", Quote(CLICKHOUSE, cluster), after);
    StartsWithSelf(" ON CLUSTER ", named);
  }

  // A privilege list never looks like an ON CLUSTER clause.
  lemma NotOnCluster(privs: seq<Priv>, rest: string)
    requires privs != []
    ensures !StartsWith(" " + (PrintPrivs(privs) + rest), " ON CLUSTER ")
  {
    var text := " " + (PrintPrivs(privs) + rest);
    var k := Keyword(privs[0]);
    assert text[1] == k[0] && text[2] == k[1];
    assert " ON CLUSTER "[1] == 'O' && " ON CLUSTER "[2] == 'N';
  }

  lemma ParsePrivsPrint(s: Statement)
    requires s.privs != []
    ensures ParsePrivs(s.isGrant, s.cluster, " " + (PrintPrivs(s.privs) + PrintTarget(s))) == Some(s)
  {
    StartsWithSelf(" ", PrintPrivs(s.privs) + PrintTarget(s));
    assert PrintTarget(s)[0] == ' ';
    ReadPrivsPrinted(s.privs, PrintTarget(s));
    ParseTargetPrint(s);
  }

  lemma ReadScopePrinted(scope: Scope, rest: string)
    requires rest != "" && rest[0] == ' '
    ensures ReadScope(PrintScope(scope) + rest) == Got(scope, rest)
  {
    match scope {
      case AllTables => StartsWithSelf("*", rest);
      case OneTable(t) =>
        assert (Quote(CLICKHOUSE, t) + rest)[0] == '"';
        ReadNameQuoted(t, rest);
    }
  }

  lemma ParseTargetPrint(s: Statement)
    ensures ParseTarget(s.isGrant, s.cluster, s.privs, PrintTarget(s)) == Some(s)
  {
    var rest := PrintScope(s.scope) + PrintGrantee(s);
    StartsWithSelf(" ON ", Quote(CLICKHOUSE, s.database) + ("." + rest));
    ReadNameQuoted(s.database, "." + rest);
    StartsWithSelf(".", rest);
    assert PrintGrantee(s)[0] == ' ';
    ReadScopePrinted(s.scope, PrintGrantee(s));
    ParseGranteePrint(s);
  }

  lemma ParseGranteePrint(s: Statement)
    ensures ParseGrantee(s.(role := ""), PrintGrantee(s)) == Some(s)
  {
    var word := if s.isGrant then " TO " else " FROM ";
    StartsWithSelf(word, Quote(CLICKHOUSE, s.role));
    ReadNameQuoted(s.role, "");
    assert Quote(CLICKHOUSE, s.role) + "" == Quote(CLICKHOUSE, s.role);
  }
}
