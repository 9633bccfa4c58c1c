/** The DELETE statement builder of the generic mapper. */
module DeleteBuilding {
  import opened Strs

  datatype DeleteBuilder = DeleteBuilder(tableName: string, condition: seq<string>)

  /** "DELETE FROM t", then, when there are conditions, " WHERE " and "c = ?" joined by " AND " in input order. */
  function DeleteText(b: DeleteBuilder): string
  {
    "DELETE FROM " + b.tableName
      + (if b.condition == [] then "" else " WHERE " + Join(Suffixed(b.condition, " = ?"), " AND "))
  }

  /** `DeleteBuilder.Build`. */
  method Build(b: DeleteBuilder) returns (s: string)
    ensures s == DeleteText(b)
  {
    s := "DELETE FROM ";
    s := s + b.tableName;
    if |b.condition| == 0 {
      return;
    }
    s := s + " WHERE ";
    ghost var start := s;
    var parts := Suffixed(b.condition, " = ?");
    for i := 0 to |b.condition|
      invariant s == start + Join(parts[..i], " AND ")
    {
      if i > 0 {
        s := s + " AND ";
        assert parts[..i + 1] == parts[..i] + [parts[i]];
        JoinSnoc(parts[..i], parts[i], " AND ");
      } else {
        assert parts[..1] == [parts[0]];
      }
      s := s + (b.condition[i] + " = ?");
    }
    assert parts[..|parts|] == parts;
  }

  /** With no `?` in the names, the statement holds one `?` per condition. */
  lemma DeleteMarks(b: DeleteBuilder)
    requires '?' !in b.tableName
    requires forall i :: 0 <= i < |b.condition| ==> '?' !in b.condition[i]
    ensures Count(DeleteText(b), '?') == |b.condition|
  {
    assert Count(" = ?", '?') == 1 by {
      assert " = ?"[..3] == " = ";
    }
    var head := "DELETE FROM " + b.tableName;
    assert '?' !in head;
    if b.condition == [] {
      assert DeleteText(b) == head;
    } else {
      var conds := Join(Suffixed(b.condition, " = ?"), " AND ");
      CountSuffixedJoin(b.condition, " = ?", " AND ", '?');
      assert DeleteText(b) == (head + " WHERE ") + conds;
      assert '?' !in head + " WHERE ";
      CountAppend(head + " WHERE ", conds, '?');
    }
  }
}
