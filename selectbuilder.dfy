/**
 * The SELECT statement builder of the generic mapper: fields, table,
 * equality conditions, descending then ascending order columns and an
 * optional limit rendered into one statement.
 */
module SelectBuilder {
  import opened Strs

  datatype SelectSQLBuilder = SelectSQLBuilder(
    fields: seq<string>, tableName: string, condition: seq<string>,
    descOrderBy: seq<string>, ascOrderBy: seq<string>, limit: seq<int>)

  /** Everything up to and including " WHERE ", which is written even with no condition. */
  function Head(b: SelectSQLBuilder): string
  {
    "SELECT " + (if b.fields == [] then "* " else Join(b.fields, ", ")) + " FROM " + b.tableName + " WHERE "
  }

  /** The conditions as "c = ?" joined by ", " (not AND), with a space after the last. */
  function CondList(conds: seq<string>): string
  {
    if conds == [] then "" else Join(Suffixed(conds, " = ?"), ", ") + " "
  }

  /** The order items, descending columns first. */
  function OrderItems(b: SelectSQLBuilder): seq<string>
  {
    Suffixed(b.descOrderBy, " DESC") + Suffixed(b.ascOrderBy, " ASC")
  }

  function OrderKeyword(b: SelectSQLBuilder): string
  {
    if |b.descOrderBy| + |b.ascOrderBy| > 0 then " ORDER BY " else ""
  }

  /**
   * What the ascending loop writes for its first `k` columns: the last column
   * gets " ASC" and then, as every column does, " ASC, ".
   */
  function AscWritten(asc: seq<string>, k: nat): string
    requires k <= |asc|
  {
    if k == 0 then ""
    else AscWritten(asc, k - 1) + (if k == |asc| then asc[k - 1] + " ASC" else "") + asc[k - 1] + " ASC, "
  }

  /** " LIMIT n" for one element, " LIMIT a, b" for two, nothing otherwise. */
  function LimitText(limit: seq<int>): string
  {
    if |limit| == 1 then " LIMIT " + Itoa(limit[0])
    else if |limit| == 2 then " LIMIT " + Itoa(limit[0]) + ", " + Itoa(limit[1])
    else ""
  }

  /** The statement `Build` writes, as written. */
  function SelectText(b: SelectSQLBuilder): string
  {
    Head(b) + CondList(b.condition) + OrderKeyword(b)
      + JoinedUpTo(OrderItems(b), ", ", |b.descOrderBy|) + AscWritten(b.ascOrderBy, |b.ascOrderBy|)
      + LimitText(b.limit)
  }

  /** The statement the order loops evidently mean to write: all order items joined by ", ". */
  function SelectIntended(b: SelectSQLBuilder): string
  {
    Head(b) + CondList(b.condition) + OrderKeyword(b) + Join(OrderItems(b), ", ") + LimitText(b.limit)
  }

  /** `SelectSQLBuilder.Build` as written: the ascending loop has no `else`. */
  method Build(b: SelectSQLBuilder) returns (s: string)
    ensures s == SelectText(b)
  {
    s := WriteHead(b);
    s := WriteConditions(s, b.condition);
    var orderTotal := |b.descOrderBy| + |b.ascOrderBy|;
    if orderTotal > 0 {
      s := s + " ORDER BY ";
    }
    s := WriteDescs(s, b);
    s := WriteAscs(s, b.ascOrderBy);
    s := s + LimitText(b.limit);
  }

  /** "SELECT ", the fields or "* ", " FROM ", the table and " WHERE ". */
  method WriteHead(b: SelectSQLBuilder) returns (s: string)
    ensures s == Head(b)
  {
    s := "SELECT ";
    if |b.fields| == 0 {
      s := s + "* ";
    } else {
      s := s + Join(b.fields, ", ");
    }
    s := s + " FROM ";
    s := s + b.tableName;
    s := s + " WHERE ";
  }

  /** The condition loop: "c = ?, " for each condition but the last, "c = ? " for the last. */
  method WriteConditions(prefix: string, conds: seq<string>) returns (s: string)
    ensures s == prefix + CondList(conds)
  {
    s := prefix;
    var parts := Suffixed(conds, " = ?");
    for i := 0 to |conds|
      invariant s == prefix + JoinedUpTo(parts, ", ", i) + (if i == |conds| && i > 0 then " " else "")
    {
      JoinedStep(parts, ", ", i);
      ghost var written := JoinedUpTo(parts, ", ", i);
      ghost var before := s;
      assert before == prefix + written;
      if i == |conds| - 1 {
        s := s + (conds[i] + " = ? ");
        assert conds[i] + " = ? " == parts[i] + " ";
        assert s == prefix + (written + parts[i]) + " ";
      } else {
        s := s + (conds[i] + " = ?, ");
        assert conds[i] + " = ?, " == parts[i] + ", ";
        AppendRegroup(prefix, written, parts[i], ", ", before, s);
      }
    }
    JoinedAll(parts, ", ");
  }

  /**
   * The descending loop: the counter of order items still to write reaches
   * zero at the last item overall, which alone gets no ", ".
   */
  method WriteDescs(prefix: string, b: SelectSQLBuilder) returns (s: string)
    ensures s == prefix + JoinedUpTo(OrderItems(b), ", ", |b.descOrderBy|)
  {
    s := prefix;
    var items := OrderItems(b);
    var orderTotal := |b.descOrderBy| + |b.ascOrderBy|;
    for i := 0 to |b.descOrderBy|
      invariant orderTotal == |b.descOrderBy| + |b.ascOrderBy| - i
      invariant s == prefix + JoinedUpTo(items, ", ", i)
    {
      JoinedStep(items, ", ", i);
      orderTotal := orderTotal - 1;
      if orderTotal == 0 {
        s := s + (b.descOrderBy[i] + " DESC");
      } else {
        s := s + (b.descOrderBy[i] + " DESC, ");
        assert b.descOrderBy[i] + " DESC, " == items[i] + ", ";
      }
    }
  }

  /** The ascending loop as written: the last column is written with " ASC" and then again with " ASC, ". */
  method WriteAscs(prefix: string, asc: seq<string>) returns (s: string)
    ensures s == prefix + AscWritten(asc, |asc|)
  {
    s := prefix;
    var orderTotal := |asc|;
    for k := 0 to |asc|
      invariant orderTotal == |asc| - k
      invariant s == prefix + AscWritten(asc, k)
    {
      orderTotal := orderTotal - 1;
      if orderTotal == 0 {
        s := s + (asc[k] + " ASC");
      }
      s := s + (asc[k] + " ASC, ");
    }
  }

  /** The evidently intended `Build`: the ascending loop with an `else`, as the descending loop has. */
  method BuildFixed(b: SelectSQLBuilder) returns (s: string)
    ensures s == SelectIntended(b)
  {
    s := WriteHead(b);
    s := WriteConditions(s, b.condition);
    var orderTotal := |b.descOrderBy| + |b.ascOrderBy|;
    if orderTotal > 0 {
      s := s + " ORDER BY ";
    }
    ghost var start := s;
    s := WriteDescs(s, b);
    s := WriteAscsFixed(start, s, b);
    s := s + LimitText(b.limit);
  }

  /** The intended ascending loop: every column but the overall last is followed by ", ". */
  method WriteAscsFixed(ghost start: string, prefix: string, b: SelectSQLBuilder) returns (s: string)
    requires prefix == start + JoinedUpTo(OrderItems(b), ", ", |b.descOrderBy|)
    ensures s == start + Join(OrderItems(b), ", ")
  {
    s := prefix;
    var items := OrderItems(b);
    var orderTotal := |b.ascOrderBy|;
    for k := 0 to |b.ascOrderBy|
      invariant orderTotal == |b.ascOrderBy| - k
      invariant s == start + JoinedUpTo(items, ", ", |b.descOrderBy| + k)
    {
      ghost var before := s;
      ghost var idx := |b.descOrderBy| + k;
      JoinedStep(items, ", ", idx);
      AscItem(b, k);
      orderTotal := orderTotal - 1;
      if orderTotal == 0 {
        s := s + (b.ascOrderBy[k] + " ASC");
        AppendRegroup(start, JoinedUpTo(items, ", ", idx), items[idx], "", before, s);
      } else {
        s := s + (b.ascOrderBy[k] + " ASC, ");
        AppendRegroup(start, JoinedUpTo(items, ", ", idx), items[idx], ", ", before, s);
      }
    }
    JoinedAll(items, ", ");
  }

  /** The `k`-th ascending column's item in the ORDER BY list. */
  lemma AscItem(b: SelectSQLBuilder, k: nat)
    requires k < |b.ascOrderBy|
    ensures |OrderItems(b)| == |b.descOrderBy| + |b.ascOrderBy|
    ensures OrderItems(b)[|b.descOrderBy| + k] == b.ascOrderBy[k] + " ASC"
  {
  }

  /** Appending an item and its separator to a prefix, regrouped. */
  lemma AppendRegroup(start: string, written: string, item: string, sep: string, before: string, after: string)
    requires before == start + written && after == before + (item + sep)
    ensures after == start + (written + item + sep)
  {
  }

  /** Without ascending columns the statement as written is the intended one. */
  lemma SelectAgreesWithoutAsc(b: SelectSQLBuilder)
    requires b.ascOrderBy == []
    ensures SelectText(b) == SelectIntended(b)
  {
    assert OrderItems(b) == Suffixed(b.descOrderBy, " DESC");
    JoinedAll(OrderItems(b), ", ");
  }

  /** As written, the last ascending column is written twice: once as "c ASC" and once as "c ASC, ". */
  lemma {:induction false} AscWrittenTwice(asc: seq<string>)
    requires asc != []
    ensures var c := asc[|asc| - 1];
      AscWritten(asc, |asc|) == AscWritten(asc, |asc| - 1) + c + " ASC" + c + " ASC, "
  {
  }

  /** The pieces of the statement for the table `t` with the one ascending column `id`. */
  lemma OneAscPieces()
    ensures Head(SelectSQLBuilder([], "t", [], [], ["id"], [])) == "SELECT *  FROM t WHERE "
    ensures OrderItems(SelectSQLBuilder([], "t", [], [], ["id"], [])) == ["id ASC"]
    ensures AscWritten(["id"], 1) == "id ASCid ASC, "
    ensures Join(["id ASC"], ", ") == "id ASC" && JoinedUpTo(["id ASC"], ", ", 0) == ""
    ensures LimitText([]) == "" && CondList([]) == ""
  {
    assert Suffixed(["id"], " ASC")[0] == "id ASC";
  }

  /** One ascending column: the order clause as written is "id ASCid ASC, " ... */
  lemma SelectAscCounterexample()
    ensures SelectText(SelectSQLBuilder([], "t", [], [], ["id"], [])) == "SELECT *  FROM t WHERE  ORDER BY id ASCid ASC, "
  {
    OneAscPieces();
  }

  /** ... where "id ASC" is meant. */
  lemma SelectAscIntended()
    ensures SelectIntended(SelectSQLBuilder([], "t", [], [], ["id"], [])) == "SELECT *  FROM t WHERE  ORDER BY id ASC"
  {
    OneAscPieces();
  }

  /** In the intended statement the order list ends with the last ascending column, with no trailing separator. */
  lemma IntendedOrderEnd(b: SelectSQLBuilder)
    requires b.ascOrderBy != []
    ensures HasSuffix(Join(OrderItems(b), ", "), b.ascOrderBy[|b.ascOrderBy| - 1] + " ASC")
  {
    var items := OrderItems(b);
    var last := items[|items| - 1];
    if |items| == 1 {
      assert Join(items, ", ") == last;
    } else {
      assert items == items[..|items| - 1] + [last];
      JoinSnoc(items[..|items| - 1], last, ", ");
    }
  }
}
