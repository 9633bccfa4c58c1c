/**
 * The generator's statement model: the nodes built from the statement
 * annotations of a mapper method (`SQL(...)`, `If`, `Where`, `Set`, `Choose`,
 * `Foreach`), each holding SQL text whose `#{name}` placeholders have been
 * turned into `?` with the names collected as arguments.
 */
module SqlStmt {
  import opened Wrappers
  import opened Strs
  import opened Placeholders
  import opened StringUtils

  /** The characters the constructors strip from both ends of a Go string literal. */
  const Quotes: set<char> := {'`', '"'}

  const Space: set<char> := {' '}

  // ---------------------------------------------------------------------
  // Statement kinds

  datatype SqlType = Unsupported | Insert | Delete | Update | Select

  /** `SqlType.String`. */
  function TypeName(t: SqlType): string
  {
    match t
    case Insert => "INSERT"
    case Delete => "DELETE"
    case Update => "UPDATE"
    case Select => "SELECT"
    case Unsupported => "unsupported Sql"
  }

  /** `ToSqlType`: the upper-cased text names a kind, anything else is unsupported. */
  function ToSqlType(s: string): (r: SqlType)
    ensures r != Unsupported <==> ToUpper(s) in {"INSERT", "DELETE", "UPDATE", "SELECT"}
  {
    var u := ToUpper(s);
    if u == "INSERT" then Insert
    else if u == "DELETE" then Delete
    else if u == "UPDATE" then Update
    else if u == "SELECT" then Select
    else Unsupported
  }

  /** Every supported kind survives the round trip through its name; the name of `Unsupported` maps back to it. */
  lemma SqlTypeRoundTrip(t: SqlType)
    ensures ToSqlType(TypeName(t)) == t
  {
    match t
    case Insert => assert ToUpper("INSERT") == "INSERT";
    case Delete => assert ToUpper("DELETE") == "DELETE";
    case Update => assert ToUpper("UPDATE") == "UPDATE";
    case Select => assert ToUpper("SELECT") == "SELECT";
    case Unsupported => assert ToUpper("unsupported Sql")[0] == 'U';
  }

  /** `ToSqlType` ignores letter case. */
  lemma SqlTypeIgnoresCase(s: string)
    ensures ToSqlType(s) == ToSqlType(ToUpper(s))
  {
    ToUpperIdempotent(s);
  }

  // ---------------------------------------------------------------------
  // Placeholder extraction

  /**
   * `parseSqlArgs` as a value: the text with each `#{...}` replaced by `?`
   * and its trailing spaces collapsed to one, and the captured names in order.
   */
  function SqlArgs(sql: string): (string, seq<string>)
  {
    (TrimTrailingRedundantSpaces(Replaced(AnyInner, sql)), Args(AnyInner, sql))
  }

  /** `parseSqlArgs`: the regexp library supplies the matches; the loop collects their captured texts. */
  method ParseSqlArgs(sql: string) returns (text: string, args: seq<string>)
    ensures text == SqlArgs(sql).0 && args == SqlArgs(sql).1
  {
    var matches := Args(AnyInner, sql);
    args := [];
    for i := 0 to |matches|
      invariant args == matches[..i]
    {
      args := args + [matches[i]];
    }
    assert matches[..|matches|] == matches;
    text := TrimTrailingRedundantSpaces(Replaced(AnyInner, sql));
  }

  /** Extracting again from an extracted text finds nothing and changes nothing. */
  lemma SqlArgsIdempotent(sql: string)
    ensures var t := SqlArgs(sql).0; SqlArgs(t) == (t, [])
  {
    var r := Replaced(AnyInner, sql);
    var t := TrimTrailingRedundantSpaces(r);
    ReplacedSettled(sql);
    SettledTrailing(r);
    SettledUntouched(t);
    TrimTrailingIdempotent(r);
  }

  /** The extracted text ends in exactly one space. */
  lemma SqlArgsTrailing(sql: string)
    ensures var t := SqlArgs(sql).0; |t| >= 1 && t[|t| - 1] == ' ' && (|t| >= 2 ==> t[|t| - 2] != ' ')
  {
  }

  // ---------------------------------------------------------------------
  // Nodes

  datatype SimpleStmt = SimpleStmt(sql: string, args: seq<string>)

  /** `NewSimpleStmt`: strip quotes, then extract. */
  function NewSimpleStmt(stmt: string): (r: SimpleStmt)
    ensures var body := Trim(stmt, Quotes); r.sql == SqlArgs(body).0 && r.args == SqlArgs(body).1
    ensures var body := Trim(stmt, Quotes); r.args == Args(AnyInner, body) && ('?' !in body ==> Count(r.sql, '?') == |r.args|)
  {
    var body := Trim(stmt, Quotes);
    var (t, a) := SqlArgs(body);
    if '?' !in body then
      OneMarkPerArg(AnyInner, body);
      TrailingKeepsCount(Replaced(AnyInner, body));
      SimpleStmt(t, a)
    else SimpleStmt(t, a)
  }

  /** Collapsing trailing spaces keeps every `?`. */
  lemma TrailingKeepsCount(s: string)
    ensures Count(TrimTrailingRedundantSpaces(s), '?') == Count(s, '?')
  {
    var u := TrimRight(s, Space);
    TrimTrailingDropLast(s);
    assert s == u + s[|u|..];
    CountAppend(u, s[|u|..], '?');
    CountAppend(u, " ", '?');
    assert '?' !in s[|u|..];
    assert '?' !in " ";
  }

  /** An `If` (or `When`) branch; the condition is a Go expression kept as text. */
  class IfStmt {
    const condExpr: string
    var sql: string
    var args: seq<string>

    /** `NewIfStmt` (and `NewWhenStmt`): strip quotes, then extract. */
    constructor (expr: string, stmt: string)
      ensures condExpr == expr
      ensures sql == SqlArgs(Trim(stmt, Quotes)).0 && args == SqlArgs(Trim(stmt, Quotes)).1
    {
      condExpr := expr;
      var body := Trim(stmt, Quotes);
      var t, a := ParseSqlArgs(body);
      sql := t;
      args := a;
    }
  }

  class IfChainStmt {
    const stmts: seq<IfStmt>

    constructor (stmts: seq<IfStmt>)
      ensures this.stmts == stmts
    {
      this.stmts := stmts;
    }
  }

  class ChooseStmt {
    const whens: seq<IfStmt>
    var otherwise: string
    var otherwiseArgs: seq<string>

    /** `NewChooseStmt`: the default branch is extracted only when it is non-empty. */
    constructor (whens: seq<IfStmt>, otherwise: string)
      ensures this.whens == whens
      ensures otherwise == "" ==> this.otherwise == "" && otherwiseArgs == []
      ensures otherwise != "" ==> this.otherwise == SqlArgs(otherwise).0 && otherwiseArgs == SqlArgs(otherwise).1
    {
      this.whens := whens;
      if otherwise != "" {
        var t, a := ParseSqlArgs(otherwise);
        this.otherwise := t;
        otherwiseArgs := a;
      } else {
        this.otherwise := "";
        otherwiseArgs := [];
      }
    }
  }

  /** The condition node a `Where` or `Set` wraps. */
  datatype Cond =
    | IfCond(ifStmt: IfStmt)
    | IfChainCond(chain: IfChainStmt)
    | ChooseCond(choose: ChooseStmt)

  /** The objects whose text `NewWhereStmt`/`NewSetStmt` rewrite. */
  function Branches(cond: Cond): set<object>
  {
    match cond
    case IfCond(s) => {s}
    case IfChainCond(c) => set i | 0 <= i < |c.stmts| :: c.stmts[i]
    case ChooseCond(c) => {c} + set i | 0 <= i < |c.whens| :: c.whens[i]
  }

  /** The in-place right trim of every branch's text shared by `NewWhereStmt` and `NewSetStmt`. */
  method TrimBranches(cond: Cond)
    modifies Branches(cond)
    ensures cond.IfCond? ==> cond.ifStmt.sql == TrimRight(old(cond.ifStmt.sql), Space)
    ensures cond.IfChainCond? ==> forall i :: 0 <= i < |cond.chain.stmts| ==>
      cond.chain.stmts[i].sql == TrimRight(old(cond.chain.stmts[i].sql), Space)
    ensures cond.ChooseCond? ==> forall i :: 0 <= i < |cond.choose.whens| ==>
      cond.choose.whens[i].sql == TrimRight(old(cond.choose.whens[i].sql), Space)
    ensures cond.ChooseCond? ==> cond.choose.otherwise == TrimRight(old(cond.choose.otherwise), Space)
    ensures cond.ChooseCond? ==> cond.choose.otherwiseArgs == old(cond.choose.otherwiseArgs)
    ensures forall o: IfStmt :: o in Branches(cond) ==> o.args == old(o.args)
  {
    match cond
    case IfCond(s) =>
      s.sql := TrimRight(s.sql, Space);
    case IfChainCond(c) =>
      TrimAll(c.stmts);
    case ChooseCond(c) =>
      TrimAll(c.whens);
      c.otherwise := TrimRight(c.otherwise, Space);
  }

  /** Right-trims every statement of the list in place; a statement listed twice is trimmed twice, to the same text. */
  method TrimAll(stmts: seq<IfStmt>)
    modifies set i | 0 <= i < |stmts| :: stmts[i]
    ensures forall i :: 0 <= i < |stmts| ==> stmts[i].sql == TrimRight(old(stmts[i].sql), Space)
    ensures forall i :: 0 <= i < |stmts| ==> stmts[i].args == old(stmts[i].args)
  {
    for k := 0 to |stmts|
      invariant forall i :: 0 <= i < |stmts| ==> stmts[i].args == old(stmts[i].args)
      invariant forall i :: 0 <= i < |stmts| ==>
        stmts[i].sql == old(stmts[i].sql) || stmts[i].sql == TrimRight(old(stmts[i].sql), Space)
      invariant forall i :: 0 <= i < k ==> stmts[i].sql == TrimRight(old(stmts[i].sql), Space)
    {
      TrimRightIdempotent(old(stmts[k].sql), Space);
      stmts[k].sql := TrimRight(stmts[k].sql, Space);
    }
  }

  class WhereStmt {
    const cond: Cond

    /** `NewWhereStmt`: right-trims the wrapped branches' text in place. */
    constructor (cond: Cond)
      modifies Branches(cond)
      ensures this.cond == cond
      ensures cond.IfCond? ==> cond.ifStmt.sql == TrimRight(old(cond.ifStmt.sql), Space)
      ensures cond.IfChainCond? ==> forall i :: 0 <= i < |cond.chain.stmts| ==>
        cond.chain.stmts[i].sql == TrimRight(old(cond.chain.stmts[i].sql), Space)
      ensures cond.ChooseCond? ==> forall i :: 0 <= i < |cond.choose.whens| ==>
        cond.choose.whens[i].sql == TrimRight(old(cond.choose.whens[i].sql), Space)
      ensures cond.ChooseCond? ==> cond.choose.otherwise == TrimRight(old(cond.choose.otherwise), Space)
      ensures forall o: IfStmt :: o in Branches(cond) ==> o.args == old(o.args)
    {
      this.cond := cond;
      new;
      TrimBranches(cond);
    }
  }

  class SetStmt {
    const cond: Cond

    /** `NewSetStmt`: the same in-place right trim as `NewWhereStmt`. */
    constructor (cond: Cond)
      modifies Branches(cond)
      ensures this.cond == cond
      ensures cond.IfCond? ==> cond.ifStmt.sql == TrimRight(old(cond.ifStmt.sql), Space)
      ensures cond.IfChainCond? ==> forall i :: 0 <= i < |cond.chain.stmts| ==>
        cond.chain.stmts[i].sql == TrimRight(old(cond.chain.stmts[i].sql), Space)
      ensures cond.ChooseCond? ==> forall i :: 0 <= i < |cond.choose.whens| ==>
        cond.choose.whens[i].sql == TrimRight(old(cond.choose.whens[i].sql), Space)
      ensures cond.ChooseCond? ==> cond.choose.otherwise == TrimRight(old(cond.choose.otherwise), Space)
      ensures forall o: IfStmt :: o in Branches(cond) ==> o.args == old(o.args)
    {
      this.cond := cond;
      new;
      TrimBranches(cond);
    }
  }

  datatype ForeachStmt = ForeachStmt(
    collectionName: string, itemName: string, separator: string,
    open: string, close: string, sql: string, itemType: string, args: seq<string>)

  /** No quote character at either end. */
  predicate Unquoted(s: string)
  {
    s == [] || (s[0] !in Quotes && s[|s| - 1] !in Quotes)
  }

  /** `strings.Trim(s, "`\"")` leaves no quote at either end. */
  lemma TrimUnquoted(s: string)
    ensures Unquoted(Trim(s, Quotes))
  {
  }

  /** No space at either end. */
  predicate NoEdgeSpace(s: string)
  {
    s == [] || (s[0] != ' ' && s[|s| - 1] != ' ')
  }

  /** The loop body's SQL: placeholders extracted, then spaces trimmed from both ends; no space is left at either end. */
  function ForeachSql(body: string): (r: string)
    ensures NoEdgeSpace(r)
  {
    Trim(SqlArgs(body).0, Space)
  }

  /** `NewForeachStmt`: names unquoted, the body unquoted, extracted and trimmed of spaces at both ends. */
  function NewForeachStmt(collectionName: string, itemName: string, separator: string,
                          open: string, close: string, sql: string, itemType: string): (r: ForeachStmt)
    ensures r.collectionName == Trim(collectionName, Quotes) && r.itemName == Trim(itemName, Quotes)
    ensures r.separator == Trim(separator, Quotes)
    ensures r.open == Trim(open, Quotes) && r.close == Trim(close, Quotes)
    ensures Unquoted(r.collectionName) && Unquoted(r.itemName) && Unquoted(r.separator)
    ensures Unquoted(r.open) && Unquoted(r.close)
    ensures r.sql == ForeachSql(Trim(sql, Quotes)) && NoEdgeSpace(r.sql)
    ensures r.args == Args(AnyInner, Trim(sql, Quotes)) && r.itemType == itemType
  {
    var body := Trim(sql, Quotes);
    var sq := ForeachSql(body);
    TrimUnquoted(collectionName);
    TrimUnquoted(itemName);
    TrimUnquoted(separator);
    TrimUnquoted(open);
    TrimUnquoted(close);
    ForeachStmt(Trim(collectionName, Quotes), Trim(itemName, Quotes), Trim(separator, Quotes),
                Trim(open, Quotes), Trim(close, Quotes), sq, itemType, SqlArgs(body).1)
  }

  /** `rawSql`: text used as it is. */
  datatype RawSql = RawSql(text: string)
  {
    function Stmt(): string
    {
      text
    }
  }

  /** `NewRawSQL` and `Stmt` are inverse: the text comes back unchanged. */
  lemma RawSqlRoundTrip(sql: string)
    ensures RawSql(sql).Stmt() == sql
  {
  }
}
