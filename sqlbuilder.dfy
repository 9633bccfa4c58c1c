/**
 * The runtime `SqlBuilder` the generated mapper code drives: a text buffer
 * that only grows, the pending WHERE and SET fragments, and the arguments in
 * the order their fragments were added. Arguments are opaque values of type `A`.
 */
module Builder {
  import opened Strs

  /** A `Choose` branch: its condition, its text and its arguments. */
  datatype ConditionalSql<A> = ConditionalSql(cond: bool, sql: string, args: seq<A>)

  /** The index of the first branch whose condition holds, or -1. */
  function FirstTrue<A>(conds: seq<ConditionalSql<A>>): (i: int)
    ensures -1 <= i < |conds|
    ensures i >= 0 ==> conds[i].cond && forall j :: 0 <= j < i ==> !conds[j].cond
    ensures i == -1 <==> forall j :: 0 <= j < |conds| ==> !conds[j].cond
  {
    if |conds| == 0 then -1
    else if conds[0].cond then 0
    else
      var k := FirstTrue(conds[1..]);
      if k == -1 then -1 else k + 1
  }

  /**
   * What `appendStmtChoosed` writes: the key word and the first true branch;
   * with no true branch, "WHERE " and the default text (whatever the key
   * word), or nothing when the default is empty.
   */
  function ChosenText<A>(keyWord: string, conds: seq<ConditionalSql<A>>, defaultSql: string): string
  {
    var i := FirstTrue(conds);
    if i >= 0 then keyWord + conds[i].sql
    else if defaultSql == "" then ""
    else "WHERE " + defaultSql
  }

  /** The arguments `appendStmtChoosed` adds: only those of the branch it wrote. */
  function ChosenArgs<A>(conds: seq<ConditionalSql<A>>, defaultSql: string, defaultArgs: seq<A>): seq<A>
  {
    var i := FirstTrue(conds);
    if i >= 0 then conds[i].args
    else if defaultSql == "" then []
    else defaultArgs
  }

  /** A branch after the first true one never contributes, whatever its text. */
  lemma ChosenIgnoresLater<A>(keyWord: string, conds: seq<ConditionalSql<A>>, later: seq<ConditionalSql<A>>,
                              defaultSql: string, defaultArgs: seq<A>)
    requires FirstTrue(conds) >= 0
    ensures ChosenText(keyWord, conds + later, defaultSql) == ChosenText(keyWord, conds, defaultSql)
    ensures ChosenArgs(conds + later, defaultSql, defaultArgs) == ChosenArgs(conds, defaultSql, defaultArgs)
  {
    FirstTruePrefix(conds, later);
  }

  lemma {:induction false} FirstTruePrefix<A>(conds: seq<ConditionalSql<A>>, later: seq<ConditionalSql<A>>)
    requires FirstTrue(conds) >= 0
    ensures FirstTrue(conds + later) == FirstTrue(conds)
  {
    if !conds[0].cond {
      assert (conds + later)[1..] == conds[1..] + later;
      FirstTruePrefix(conds[1..], later);
    }
  }

  /**
   * As written, the default branch of `AppendSetStmtChoosed` is introduced by
   * `WHERE `, not by the `SET ` its chosen branches get.
   */
  lemma SetDefaultWritesWhere<A>(conds: seq<ConditionalSql<A>>, defaultSql: string)
    requires forall j :: 0 <= j < |conds| ==> !conds[j].cond
    requires defaultSql != ""
    ensures ChosenText("SET ", conds, defaultSql) == "WHERE " + defaultSql
    ensures ChosenText("SET ", conds, defaultSql)[..4] != "SET "
  {
    var r := ChosenText("SET ", conds, defaultSql);
    assert r[0] == 'W';
  }

  /** The evidently intended text: the key word introduces the default branch as well. */
  function ChosenTextIntended<A>(keyWord: string, conds: seq<ConditionalSql<A>>, defaultSql: string): string
  {
    var i := FirstTrue(conds);
    if i >= 0 then keyWord + conds[i].sql
    else if defaultSql == "" then ""
    else keyWord + defaultSql
  }

  /**
   * The intended text of a non-empty choice always starts with its key word;
   * it differs from the written one only for a default under `SET `.
   */
  lemma ChosenIntendedKeyWord<A>(keyWord: string, conds: seq<ConditionalSql<A>>, defaultSql: string)
    requires keyWord != ""
    ensures var r := ChosenTextIntended(keyWord, conds, defaultSql);
      r == "" <==> (FirstTrue(conds) < 0 && defaultSql == "")
    ensures var r := ChosenTextIntended(keyWord, conds, defaultSql);
      r != "" ==> r[..|keyWord|] == keyWord
    ensures keyWord == "WHERE " || FirstTrue(conds) >= 0 || defaultSql == "" ==>
      ChosenTextIntended(keyWord, conds, defaultSql) == ChosenText(keyWord, conds, defaultSql)
  {
  }

  /** The text `AppendLoopStmt` writes for the first `i` of `n` items: each `sql`, followed by `sep` unless it is the last. */
  function LoopWritten(sql: string, sep: string, i: nat, n: nat): string
  {
    if i == 0 then "" else LoopWritten(sql, sep, i - 1, n) + sql + (if i < n then sep else "")
  }

  /** Over all `n` items the loop writes the `n` copies of `sql` joined by `sep`. */
  lemma LoopWrittenJoin(sql: string, sep: string, n: nat)
    requires n >= 1
    ensures LoopWritten(sql, sep, n, n) == Join(Copies(sql, n), sep)
  {
    LoopWrittenPrefix(sql, sep, n, n);
  }

  lemma {:induction false} LoopWrittenPrefix(sql: string, sep: string, i: nat, n: nat)
    requires 1 <= i <= n
    ensures LoopWritten(sql, sep, i, n) == Join(Copies(sql, i), sep) + (if i < n then sep else "")
  {
    if i > 1 {
      LoopWrittenPrefix(sql, sep, i - 1, n);
      assert Copies(sql, i) == Copies(sql, i - 1) + [sql];
      JoinSnoc(Copies(sql, i - 1), sql, sep);
    } else {
      assert LoopWritten(sql, sep, 0, n) == "";
    }
  }

  /** The arguments of every item, item by item. */
  function FlatMap<T, A>(fn: T -> seq<A>, xs: seq<T>): seq<A>
  {
    if |xs| == 0 then [] else FlatMap(fn, xs[..|xs| - 1]) + fn(xs[|xs| - 1])
  }

  class SqlBuilder<A> {
    var b: string
    var whereStmt: seq<string>
    var setStmt: seq<string>
    var args: seq<A>

    /** `NewSqlBuilder`: the sizes are capacity hints, and a negative one makes Go panic. */
    constructor (initial: int, whereInitial: int, setInitial: int)
      requires initial >= 0 && whereInitial >= 0 && setInitial >= 0
      ensures b == "" && whereStmt == [] && setStmt == [] && args == []
    {
      b := "";
      whereStmt := [];
      setStmt := [];
      args := [];
    }

    method AppendWhereStmtConditional(cond: bool, sql: string, values: seq<A>) returns (r: SqlBuilder<A>)
      modifies this
      ensures r == this
      ensures whereStmt == old(whereStmt) + (if cond then [sql] else [])
      ensures args == old(args) + (if cond then values else [])
      ensures b == old(b) && setStmt == old(setStmt)
    {
      r := this;
      if !cond {
        return;
      }
      whereStmt := whereStmt + [sql];
      args := args + values;
    }

    /** Writes the WHERE clause from the fragments gathered so far; the fragments stay. */
    method EndWhereStmt() returns (r: SqlBuilder<A>)
      modifies this
      ensures r == this
      ensures b == old(b) + (if whereStmt == [] then "" else "WHERE 1 = 1 " + Join(whereStmt, " ") + " ")
      ensures whereStmt == old(whereStmt) && setStmt == old(setStmt) && args == old(args)
    {
      r := this;
      if |whereStmt| == 0 {
        return;
      }
      b := b + "WHERE 1 = 1 ";
      b := b + Join(whereStmt, " ");
      b := b + " ";
    }

    method AppendSetStmtConditional(cond: bool, sql: string, values: seq<A>) returns (r: SqlBuilder<A>)
      modifies this
      ensures r == this
      ensures setStmt == old(setStmt) + (if cond then [sql] else [])
      ensures args == old(args) + (if cond then values else [])
      ensures b == old(b) && whereStmt == old(whereStmt)
    {
      r := this;
      if !cond {
        return;
      }
      setStmt := setStmt + [sql];
      args := args + values;
    }

    /** Writes the SET clause from the fragments gathered so far; the fragments stay. */
    method EndSetStmt() returns (r: SqlBuilder<A>)
      modifies this
      ensures r == this
      ensures b == old(b) + (if setStmt == [] then "" else "SET " + Join(setStmt, ", ") + " ")
      ensures whereStmt == old(whereStmt) && setStmt == old(setStmt) && args == old(args)
    {
      r := this;
      if |setStmt| == 0 {
        return;
      }
      b := b + "SET ";
      b := b + Join(setStmt, ", ");
      b := b + " ";
    }

    method AppendStmt(sql: string, values: seq<A>) returns (r: SqlBuilder<A>)
      modifies this
      ensures r == this
      ensures b == old(b) + sql && args == old(args) + values
      ensures whereStmt == old(whereStmt) && setStmt == old(setStmt)
    {
      b := b + sql;
      args := args + values;
      r := this;
    }

    method AppendStmtConditional(cond: bool, sql: string, values: seq<A>) returns (r: SqlBuilder<A>)
      modifies this
      ensures r == this
      ensures b == old(b) + (if cond then sql else "")
      ensures args == old(args) + (if cond then values else [])
      ensures whereStmt == old(whereStmt) && setStmt == old(setStmt)
    {
      if cond {
        b := b + sql;
        args := args + values;
      }
      r := this;
    }

    /** `appendStmtChoosed`: the first true branch only, else the default. */
    method AppendStmtChoosed(keyWord: string, conds: seq<ConditionalSql<A>>, defaultSql: string, defaultArgs: seq<A>)
      modifies this
      ensures b == old(b) + ChosenText(keyWord, conds, defaultSql)
      ensures args == old(args) + ChosenArgs(conds, defaultSql, defaultArgs)
      ensures whereStmt == old(whereStmt) && setStmt == old(setStmt)
    {
      for i := 0 to |conds|
        invariant forall j :: 0 <= j < i ==> !conds[j].cond
        invariant b == old(b) && args == old(args)
        invariant whereStmt == old(whereStmt) && setStmt == old(setStmt)
      {
        if conds[i].cond {
          assert FirstTrue(conds) == i;
          b := b + keyWord;
          b := b + conds[i].sql;
          assert b == old(b) + (keyWord + conds[i].sql);
          args := args + conds[i].args;
          return;
        }
      }
      assert FirstTrue(conds) == -1;
      if defaultSql == "" {
        return;
      }
      b := b + "WHERE ";
      b := b + defaultSql;
      assert b == old(b) + ("WHERE " + defaultSql);
      args := args + defaultArgs;
    }

    method AppendWhereStmtChoosed(conds: seq<ConditionalSql<A>>, defaultSql: string, defaultArgs: seq<A>)
      modifies this
      ensures b == old(b) + ChosenText("WHERE ", conds, defaultSql)
      ensures args == old(args) + ChosenArgs(conds, defaultSql, defaultArgs)
      ensures whereStmt == old(whereStmt) && setStmt == old(setStmt)
    {
      AppendStmtChoosed("WHERE ", conds, defaultSql, defaultArgs);
    }

    method AppendSetStmtChoosed(conds: seq<ConditionalSql<A>>, defaultSql: string, defaultArgs: seq<A>)
      modifies this
      ensures b == old(b) + ChosenText("SET ", conds, defaultSql)
      ensures args == old(args) + ChosenArgs(conds, defaultSql, defaultArgs)
      ensures whereStmt == old(whereStmt) && setStmt == old(setStmt)
    {
      AppendStmtChoosed("SET ", conds, defaultSql, defaultArgs);
    }

    function String(): string
      reads this
    {
      b
    }

    function Args(): seq<A>
      reads this
    {
      args
    }
  }

  /** `AppendLoopStmt`: one `sql` per item, separated, between `open` and `close`; nothing for no items. */
  method AppendLoopStmt<T, A>(s: SqlBuilder<A>, collection: seq<T>, sep: string, open: string, close: string,
                              fn: T -> seq<A>, sql: string)
    modifies s
    ensures s.b == old(s.b) + (if collection == [] then "" else open + Join(Copies(sql, |collection|), sep) + close + " ")
    ensures s.args == old(s.args) + FlatMap(fn, collection)
    ensures s.whereStmt == old(s.whereStmt) && s.setStmt == old(s.setStmt)
  {
    if |collection| == 0 {
      return;
    }
    ghost var before := s.b;
    if open != "" {
      s.b := s.b + open;
    }
    assert s.b == before + open;
    AppendLoopItems(s, collection, sep, fn, sql);
    ghost var joined := Join(Copies(sql, |collection|), sep);
    assert s.b == before + open + joined;
    if close != "" {
      s.b := s.b + close;
    }
    s.b := s.b + " ";
    WrappedText(before, open, joined, close, s.b);
  }

  /** The loop of `AppendLoopStmt`: every item's text, separated, and every item's arguments in order. */
  method AppendLoopItems<T, A>(s: SqlBuilder<A>, collection: seq<T>, sep: string, fn: T -> seq<A>, sql: string)
    requires |collection| >= 1
    modifies s
    ensures s.b == old(s.b) + Join(Copies(sql, |collection|), sep)
    ensures s.args == old(s.args) + FlatMap(fn, collection)
    ensures s.whereStmt == old(s.whereStmt) && s.setStmt == old(s.setStmt)
  {
    ghost var start := s.b;
    var n := |collection|;
    for i := 0 to n
      invariant s.b == start + LoopWritten(sql, sep, i, n)
      invariant s.args == old(s.args) + FlatMap(fn, collection[..i])
      invariant s.whereStmt == old(s.whereStmt) && s.setStmt == old(s.setStmt)
    {
      assert collection[..i + 1][..i] == collection[..i];
      assert FlatMap(fn, collection[..i + 1]) == FlatMap(fn, collection[..i]) + fn(collection[i]);
      AppendLoopItem(s, collection, i, sep, fn, sql);
    }
    assert collection[..|collection|] == collection;
    LoopWrittenJoin(sql, sep, |collection|);
  }

  /** Regrouping the text around the joined items. */
  lemma WrappedText(before: string, open: string, joined: string, close: string, b: string)
    requires b == before + open + joined + close + " "
    ensures b == before + (open + joined + close + " ")
  {
  }

  /** One pass of the loop in `AppendLoopStmt`: the item's arguments, its text and, unless it is the last, the separator. */
  method AppendLoopItem<T, A>(s: SqlBuilder<A>, collection: seq<T>, i: nat, sep: string, fn: T -> seq<A>, sql: string)
    requires i < |collection|
    modifies s
    ensures s.b == old(s.b) + sql + (if i < |collection| - 1 then sep else "")
    ensures s.args == old(s.args) + fn(collection[i])
    ensures s.whereStmt == old(s.whereStmt) && s.setStmt == old(s.setStmt)
  {
      var values := fn(collection[i]);
      s.args := s.args + values;
      s.b := s.b + sql;
      if i < |collection| - 1 && sep != "" {
        s.b := s.b + sep;
      }
  }

  /** Ending the WHERE clause twice writes it twice: the fragments are not cleared. */
  method EndWhereTwice<A>(s: SqlBuilder<A>)
    requires s.whereStmt != []
    modifies s
    ensures s.b == old(s.b) + "WHERE 1 = 1 " + Join(s.whereStmt, " ") + " " + "WHERE 1 = 1 " + Join(s.whereStmt, " ") + " "
  {
    var r := s.EndWhereStmt();
    r := s.EndWhereStmt();
  }
}
