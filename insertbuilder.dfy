/**
 * The INSERT statement builder of the generic mapper: one parenthesised
 * group of `?` per row, for `Batch` rows.
 */
module InsertBuilding {
  import opened Strs

  /** One row's group: " (" and one `?` per field, separated by ", ", then ")". */
  function ValueGroup(n: nat): string
  {
    " (" + Join(Copies("?", n), ", ") + ")"
  }

  /** The statement for `batch` rows: the header, then the group `batch` times with nothing between or after. */
  function InsertText(fields: seq<string>, batch: nat, tableName: string): string
  {
    "INSERT INTO " + tableName + " (" + Join(fields, ", ") + ") VALUES" + Repeat(ValueGroup(|fields|), batch)
  }

  class InsertBuilder {
    var field: seq<string>
    var batch: int
    var tableName: string

    constructor (field: seq<string>, batch: int, tableName: string)
      ensures this.field == field && this.batch == batch && this.tableName == tableName
    {
      this.field := field;
      this.batch := batch;
      this.tableName := tableName;
    }

    /** `InsertBuilder.Build`: a batch size of zero or less is first reset to 1 on the builder itself. */
    method Build() returns (s: string)
      modifies this
      ensures batch == (if old(batch) <= 0 then 1 else old(batch))
      ensures field == old(field) && tableName == old(tableName)
      ensures s == InsertText(field, batch, tableName)
    {
      if batch <= 0 {
        batch := 1;
      }
      s := "INSERT INTO ";
      s := s + tableName;
      s := s + " (";
      s := s + Join(field, ", ");
      s := s + ") VALUES";
      var values := WriteGroup(|field|);
      for i := 0 to batch
        invariant s == "INSERT INTO " + tableName + " (" + Join(field, ", ") + ") VALUES" + Repeat(values, i)
        invariant field == old(field) && tableName == old(tableName)
        invariant batch == (if old(batch) <= 0 then 1 else old(batch))
      {
        RepeatSnoc(values, i);
        s := s + values;
      }
    }
  }

  /** The group loop: "?, " for every field but the last, "?" for the last. */
  method WriteGroup(n: nat) returns (s: string)
    ensures s == ValueGroup(n)
  {
    var bb := " (";
    var marks := Copies("?", n);
    for i := 0 to n
      invariant bb == " (" + JoinedUpTo(marks, ", ", i)
    {
      JoinedStep(marks, ", ", i);
      if i == n - 1 {
        bb := bb + "?";
      } else {
        bb := bb + "?, ";
      }
    }
    JoinedAll(marks, ", ");
    s := bb + ")";
  }

  /** With no `?` in the table or field names, the statement holds `batch` times as many `?` as there are fields. */
  lemma InsertMarks(fields: seq<string>, batch: nat, tableName: string)
    requires '?' !in tableName && forall i :: 0 <= i < |fields| ==> '?' !in fields[i]
    ensures Count(InsertText(fields, batch, tableName), '?') == batch * |fields|
  {
    GroupMarks(|fields|);
    CountRepeat(ValueGroup(|fields|), batch, '?');
    var header := "INSERT INTO " + tableName + " (" + Join(fields, ", ") + ") VALUES";
    JoinFree(fields, ", ", '?');
    assert '?' !in header;
    CountAppend(header, Repeat(ValueGroup(|fields|), batch), '?');
  }

  /** A group holds one `?` per field. */
  lemma GroupMarks(n: nat)
    ensures Count(ValueGroup(n), '?') == n
  {
    var marks := Copies("?", n);
    assert Count("?", '?') == 1 by {
      assert "?"[..0] == [];
    }
    CountJoinMarks(marks, ", ", '?');
    CountAppend(" (" + Join(marks, ", "), ")", '?');
    CountAppend(" (", Join(marks, ", "), '?');
  }

  /** A join of texts free of `c` with a separator free of `c` is free of `c`. */
  lemma {:induction false} JoinFree(parts: seq<string>, sep: string, c: char)
    requires c !in sep && forall i :: 0 <= i < |parts| ==> c !in parts[i]
    ensures c !in Join(parts, sep)
  {
    if |parts| > 1 {
      JoinFree(parts[1..], sep, c);
    }
  }

  /** Nothing follows the last group: the statement ends with ")". */
  lemma InsertEnds(fields: seq<string>, batch: nat, tableName: string)
    requires batch >= 1
    ensures HasSuffix(InsertText(fields, batch, tableName), ValueGroup(|fields|))
  {
    RepeatSnoc(ValueGroup(|fields|), batch - 1);
  }
}
