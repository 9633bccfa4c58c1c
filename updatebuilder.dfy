/** The UPDATE statement builder of the generic mapper. */
module UpdateBuilding {
  import opened Strs

  datatype UpdateBuilder = UpdateBuilder(fields: seq<string>, tableName: string, condition: seq<string>)

  /** "UPDATE t SET f = ?, …", then " WHERE " and the conditions as "c = ?" joined by ", " (not AND) when there are any. */
  function UpdateText(b: UpdateBuilder): string
  {
    "UPDATE " + b.tableName + " SET " + Join(Suffixed(b.fields, " = ?"), ", ")
      + (if b.condition == [] then "" else " WHERE ") + Join(Suffixed(b.condition, " = ?"), ", ")
  }

  /** `UpdateBuilder.Build`. */
  method Build(b: UpdateBuilder) returns (s: string)
    ensures s == UpdateText(b)
  {
    s := "UPDATE ";
    s := s + b.tableName;
    s := s + " SET ";
    s := WriteAssignments(s, b.fields);
    if |b.condition| > 0 {
      s := s + " WHERE ";
    }
    s := WriteAssignments(s, b.condition);
  }

  /** The two loops of `Build`: "n = ?, " for every name but the last, "n = ?" for the last. */
  method WriteAssignments(prefix: string, names: seq<string>) returns (s: string)
    ensures s == prefix + Join(Suffixed(names, " = ?"), ", ")
  {
    s := prefix;
    var parts := Suffixed(names, " = ?");
    for i := 0 to |names|
      invariant s == prefix + JoinedUpTo(parts, ", ", i)
    {
      JoinedStep(parts, ", ", i);
      if i == |names| - 1 {
        s := s + (names[i] + " = ?");
      } else {
        s := s + (names[i] + " = ?, ");
        assert names[i] + " = ?, " == parts[i] + ", ";
      }
    }
    JoinedAll(parts, ", ");
  }

  /** With no `?` in the names, the statement holds one `?` per field and per condition. */
  lemma UpdateMarks(b: UpdateBuilder)
    requires '?' !in b.tableName
    requires forall i :: 0 <= i < |b.fields| ==> '?' !in b.fields[i]
    requires forall i :: 0 <= i < |b.condition| ==> '?' !in b.condition[i]
    ensures Count(UpdateText(b), '?') == |b.fields| + |b.condition|
  {
    assert Count(" = ?", '?') == 1 by {
      assert " = ?"[..3] == " = ";
    }
    var sets := Join(Suffixed(b.fields, " = ?"), ", ");
    var conds := Join(Suffixed(b.condition, " = ?"), ", ");
    var kw := if b.condition == [] then "" else " WHERE ";
    var head := "UPDATE " + b.tableName + " SET ";
    assert '?' !in head && '?' !in kw;
    CountSuffixedJoin(b.fields, " = ?", ", ", '?');
    CountSuffixedJoin(b.condition, " = ?", ", ", '?');
    CountAppend(head + sets + kw, conds, '?');
    CountAppend(head + sets, kw, '?');
    CountAppend(head, sets, '?');
  }
}
