/**
 * The text helpers the CRUD templates call: the column list and the value
 * placeholders of an insert, the nullable-type checks, the names under
 * which a field's value is read, and the where clause of a generated query,
 * plain or as a chain of conditional `If(...)` calls. The Go helpers stop
 * the generator with a fatal log when a column is unknown or a type is not
 * nullable; here those calls give `None`.
 */
module Templates {
  import opened Wrappers
  import opened Strs
  import opened GenUtils
  import opened TypeSupport
  import opened ModelTypes

  /** A field left out of an insert: with `ignorePrimary`, an auto-increment primary key. */
  predicate Skipped(f: ModelField, ignorePrimary: bool)
  {
    ignorePrimary && f.isPrimaryKey && f.isAutoIncrement
  }

  /** The fields an insert lists, in their order. */
  function KeptFields(fields: seq<ModelField>, ignorePrimary: bool): (r: seq<ModelField>)
    ensures |r| <= |fields|
    ensures forall f :: f in r <==> f in fields && !Skipped(f, ignorePrimary)
    ensures !ignorePrimary ==> r == fields
  {
    if |fields| == 0 then []
    else
      var f := fields[|fields| - 1];
      assert fields == fields[..|fields| - 1] + [f];
      var init := KeptFields(fields[..|fields| - 1], ignorePrimary);
      if Skipped(f, ignorePrimary) then init else init + [f]
  }

  /** Each field's column in backquotes. */
  function ColumnList(fields: seq<ModelField>): (r: seq<string>)
    ensures |r| == |fields|
    ensures forall i :: 0 <= i < |fields| ==> r[i] == "`" + fields[i].columnName + "`"
  {
    seq(|fields|, i requires 0 <= i < |fields| => "`" + fields[i].columnName + "`")
  }

  /** Each field's placeholder, `#{obj.Field}`. */
  function ValueList(objName: string, fields: seq<ModelField>): (r: seq<string>)
    ensures |r| == |fields|
    ensures forall i :: 0 <= i < |fields| ==> r[i] == "#{" + objName + "." + fields[i].name + "}"
  {
    seq(|fields|, i requires 0 <= i < |fields| => "#{" + objName + "." + fields[i].name + "}")
  }

  /** One more field: kept at the end unless it is skipped. */
  lemma KeptStep(fields: seq<ModelField>, i: nat, ignorePrimary: bool)
    requires i < |fields|
    ensures KeptFields(fields[..i + 1], ignorePrimary) ==
      KeptFields(fields[..i], ignorePrimary) + (if Skipped(fields[i], ignorePrimary) then [] else [fields[i]])
  {
    PrefixOfLonger(fields, i);
  }

  /** One more field adds its column unless it is skipped. */
  lemma ColumnsStep(fields: seq<ModelField>, i: nat, ignorePrimary: bool)
    requires i < |fields|
    ensures ColumnList(KeptFields(fields[..i + 1], ignorePrimary)) ==
      ColumnList(KeptFields(fields[..i], ignorePrimary)) +
      (if Skipped(fields[i], ignorePrimary) then [] else ["`" + fields[i].columnName + "`"])
  {
    KeptStep(fields, i, ignorePrimary);
    if !Skipped(fields[i], ignorePrimary) {
      ColumnListSnoc(KeptFields(fields[..i], ignorePrimary), fields[i]);
    }
  }

  /** One more field adds its placeholder unless it is skipped. */
  lemma ValuesStep(objName: string, fields: seq<ModelField>, i: nat, ignorePrimary: bool)
    requires i < |fields|
    ensures ValueList(objName, KeptFields(fields[..i + 1], ignorePrimary)) ==
      ValueList(objName, KeptFields(fields[..i], ignorePrimary)) +
      (if Skipped(fields[i], ignorePrimary) then [] else ["#{" + objName + "." + fields[i].name + "}"])
  {
    KeptStep(fields, i, ignorePrimary);
    if !Skipped(fields[i], ignorePrimary) {
      ValueListSnoc(objName, KeptFields(fields[..i], ignorePrimary), fields[i]);
    }
  }

  lemma ColumnListSnoc(fs: seq<ModelField>, f: ModelField)
    ensures ColumnList(fs + [f]) == ColumnList(fs) + ["`" + f.columnName + "`"]
  {
    var a := ColumnList(fs + [f]);
    var b := ColumnList(fs) + ["`" + f.columnName + "`"];
    forall k | 0 <= k < |a| ensures a[k] == b[k] {
      if k < |fs| {
        assert (fs + [f])[k] == fs[k];
      }
    }
  }

  lemma ValueListSnoc(objName: string, fs: seq<ModelField>, f: ModelField)
    ensures ValueList(objName, fs + [f]) == ValueList(objName, fs) + ["#{" + objName + "." + f.name + "}"]
  {
    var a := ValueList(objName, fs + [f]);
    var b := ValueList(objName, fs) + ["#{" + objName + "." + f.name + "}"];
    forall k | 0 <= k < |a| ensures a[k] == b[k] {
      if k < |fs| {
        assert (fs + [f])[k] == fs[k];
      }
    }
  }

  /** `getTableFields`: the backquoted columns of the listed fields, joined by ", ". */
  method GetTableFields(fields: seq<ModelField>, ignorePrimary: bool) returns (r: string)
    ensures r == Join(ColumnList(KeptFields(fields, ignorePrimary)), ", ")
  {
    var fieldList: seq<string> := [];
    for i := 0 to |fields|
      invariant fieldList == ColumnList(KeptFields(fields[..i], ignorePrimary))
    {
      ColumnsStep(fields, i, ignorePrimary);
      var field := fields[i];
      if ignorePrimary && field.isPrimaryKey && field.isAutoIncrement {
        continue;
      }
      fieldList := fieldList + ["`" + field.columnName + "`"];
    }
    PrefixAll(fields);
    r := Join(fieldList, ", ");
  }

  /** `getAddFields`: the placeholders of the listed fields, joined by ", ". */
  method GetAddFields(objName: string, fields: seq<ModelField>, ignorePrimary: bool) returns (r: string)
    ensures r == Join(ValueList(objName, KeptFields(fields, ignorePrimary)), ", ")
  {
    var structList: seq<string> := [];
    for i := 0 to |fields|
      invariant structList == ValueList(objName, KeptFields(fields[..i], ignorePrimary))
    {
      ValuesStep(objName, fields, i, ignorePrimary);
      var field := fields[i];
      if ignorePrimary && field.isPrimaryKey && field.isAutoIncrement {
        continue;
      }
      structList := structList + ["#{" + objName + "." + field.name + "}"];
    }
    PrefixAll(fields);
    r := Join(structList, ", ");
  }

  /** Joining parts free of `c` with a separator holding one `c` gives one `c` fewer than parts. */
  lemma {:induction false} CountSeparators(parts: seq<string>, sep: string, c: char)
    requires |parts| >= 1 && Count(sep, c) == 1
    requires forall i :: 0 <= i < |parts| ==> c !in parts[i]
    ensures Count(Join(parts, sep), c) == |parts| - 1
  {
    if |parts| > 1 {
      CountSeparators(parts[1..], sep, c);
      CountAppend(parts[0] + sep, Join(parts[1..], sep), c);
      CountAppend(parts[0], sep, c);
    }
  }

  /** Two lists of as many comma-free items, joined by ", ", hold as many commas. */
  lemma SameSeparators(xs: seq<string>, ys: seq<string>)
    requires |xs| == |ys|
    requires forall i :: 0 <= i < |xs| ==> ',' !in xs[i] && ',' !in ys[i]
    ensures Count(Join(xs, ", "), ',') == Count(Join(ys, ", "), ',')
  {
    if |xs| > 0 {
      CountSeparators(xs, ", ", ',');
      CountSeparators(ys, ", ", ',');
    }
  }

  /**
   * The column list and the value list of an insert have as many items:
   * with names free of commas, both texts hold the same number of ", "
   * separators, and item i of each belongs to the same field.
   */
  lemma ColumnsMatchValues(objName: string, fields: seq<ModelField>, ignorePrimary: bool)
    requires ',' !in objName
    requires forall f :: f in fields ==> ',' !in f.name && ',' !in f.columnName
    ensures var kept := KeptFields(fields, ignorePrimary);
      Count(Join(ColumnList(kept), ", "), ',') == Count(Join(ValueList(objName, kept), ", "), ',')
      && forall i :: 0 <= i < |kept| ==>
           ColumnList(kept)[i] == "`" + kept[i].columnName + "`" && ValueList(objName, kept)[i] == "#{" + objName + "." + kept[i].name + "}"
  {
    var kept := KeptFields(fields, ignorePrimary);
    var cols := ColumnList(kept);
    var vals := ValueList(objName, kept);
    forall i | 0 <= i < |kept|
      ensures ',' !in cols[i] && ',' !in vals[i]
    {
      assert kept[i] in fields;
    }
    SameSeparators(cols, vals);
  }

  /** `validateNullableFields` from the `k`-th field on. */
  function ValidateFrom(columns: seq<string>, fields: seq<ModelField>, k: nat): (r: Option<Errs>)
    requires k <= |fields|
    ensures r.None? <==> forall i :: k <= i < |fields| && fields[i].columnName in columns ==> IsNullableType(fields[i].typ)
    ensures r.Some? ==>
      (exists i :: k <= i < |fields| && fields[i].columnName in columns && !IsNullableType(fields[i].typ)
        && r.value == ["field " + fields[i].name + " is not a nullable type"]
        && forall j :: k <= j < i && fields[j].columnName in columns ==> IsNullableType(fields[j].typ))
    decreases |fields| - k
  {
    if k == |fields| then None
    else if Contains(columns, fields[k].columnName) && !IsNullableType(fields[k].typ) then
      Some(["field " + fields[k].name + " is not a nullable type"])
    else ValidateFrom(columns, fields, k + 1)
  }

  /**
   * `validateNullableFields`: an error naming the first field, in field
   * order, whose column is listed and whose type is not nullable; fields
   * whose column is not listed are not checked.
   */
  function ValidateNullableFields(columns: seq<string>, fields: seq<ModelField>): (r: Option<Errs>)
    ensures r.None? <==> forall i :: 0 <= i < |fields| && fields[i].columnName in columns ==> IsNullableType(fields[i].typ)
    ensures r.Some? ==>
      (exists i :: 0 <= i < |fields| && fields[i].columnName in columns && !IsNullableType(fields[i].typ)
        && r.value == ["field " + fields[i].name + " is not a nullable type"]
        && forall j :: 0 <= j < i && fields[j].columnName in columns ==> IsNullableType(fields[j].typ))
  {
    ValidateFrom(columns, fields, 0)
  }

  /** `getNullableTypeValidator`: the test that a nullable value is present. */
  function GetNullableTypeValidator(objName: string, fieldName: string, typeName: string): (r: string)
    ensures typeName == "sql.RawBytes" ==> r == "len(" + objName + "." + fieldName + ") != 0"
    ensures typeName != "sql.RawBytes" ==> r == objName + "." + fieldName + ".Valid"
  {
    var fieldRef := objName + "." + fieldName;
    if typeName == "sql.RawBytes" then "len(" + fieldRef + ") != 0" else fieldRef + ".Valid"
  }

  /**
   * `getNullableTypeValueName`: where a nullable value is read. `None`
   * when the type names no `sql.Null` type (the generator stops there).
   */
  function GetNullableTypeValueName(objName: string, fieldName: string, typeName: string): (r: Option<string>)
    ensures HasPrefix(typeName, "sql.Null[") ==> r == Some(objName + "." + fieldName + ".V")
    ensures !HasPrefix(typeName, "sql.Null[") && typeName == "sql.RawBytes" ==> r == Some(objName + "." + fieldName)
    ensures r.None? <==> !HasPrefix(typeName, "sql.Null[") && typeName != "sql.RawBytes" && !ContainsSub(typeName, "sql.Null")
    ensures !HasPrefix(typeName, "sql.Null[") && typeName != "sql.RawBytes" && r.Some? ==>
      r.value == objName + "." + fieldName + "." + Cut(typeName, "sql.Null").1
  {
    var fieldRef := objName + "." + fieldName;
    if HasPrefix(typeName, "sql.Null[") then Some(fieldRef + ".V")
    else if typeName == "sql.RawBytes" then Some(fieldRef)
    else
      var (_, name, found) := Cut(typeName, "sql.Null");
      if !found then None else Some(fieldRef + "." + name)
  }

  /** A type name that starts with a nullable column type other than `sql.RawBytes` starts with `sql.Null`. */
  lemma NullableHead(typeName: string)
    ensures IsNullableType(typeName) && !HasPrefix(typeName, "sql.RawBytes") ==>
      HasPrefix(typeName, "sql.Null") && ContainsSub(typeName, "sql.Null")
  {
    if IsNullableType(typeName) && !HasPrefix(typeName, "sql.RawBytes") {
      var i :| 0 <= i < |SupportedColumnType| && HasPrefix(typeName, SupportedColumnType[i]);
      assert i != 9;
      assert SupportedColumnType[i][..8] == "sql.Null";
      assert OccursAt(typeName, "sql.Null", 0);
    }
  }

  /**
   * `getTypeValueName`: the nullable reading for nullable types, the plain
   * field otherwise. The generator can only stop here on a name longer than
   * `sql.RawBytes` that starts with it.
   */
  function GetTypeValueName(objName: string, fieldName: string, typeName: string): (r: Option<string>)
    ensures IsNullableType(typeName) ==> r == GetNullableTypeValueName(objName, fieldName, typeName)
    ensures !IsNullableType(typeName) ==> r == Some(objName + "." + fieldName)
    ensures r.None? ==> HasPrefix(typeName, "sql.RawBytes") && typeName != "sql.RawBytes"
  {
    if IsNullableType(typeName) then
      NullableHead(typeName);
      GetNullableTypeValueName(objName, fieldName, typeName)
    else Some(objName + "." + fieldName)
  }

  /** Every `sql.Null` type has a reading: the generator never stops on one. */
  lemma SqlNullReadable(objName: string, fieldName: string, typeName: string)
    requires HasPrefix(typeName, "sql.Null")
    ensures GetTypeValueName(objName, fieldName, typeName).Some?
  {
    assert typeName[..8][4] == 'N';
    assert !HasPrefix(typeName, "sql.RawBytes");
    SqlNullPrefixNullable(typeName);
    NullableHead(typeName);
    assert ContainsSub(typeName, "sql.Null");
  }

  /** `sql.NullInt64` is read from its `Int64` field. */
  lemma NullInt64Reading(objName: string, fieldName: string)
    ensures GetNullableTypeValueName(objName, fieldName, "sql.NullInt64") == Some(objName + "." + fieldName + ".Int64")
  {
    var t := "sql.NullInt64";
    assert t == "sql.Null" + "Int64";
    assert OccursAt(t, "sql.Null", 0);
    assert !HasPrefix(t, "sql.Null[") by {
      assert t[8] == 'I';
    }
    var c := Cut(t, "sql.Null");
    assert |c.0| == 0;
    assert t == c.0 + "sql.Null" + c.1;
    assert c.1 == t[8..];
    assert objName + "." + fieldName + "." + "Int64" == objName + "." + fieldName + ".Int64";
  }

  /** `getStructField` from the `k`-th field on. */
  function FieldFrom(column: string, fields: seq<ModelField>, k: nat): (r: Option<ModelField>)
    requires k <= |fields|
    ensures r.None? <==> forall i :: k <= i < |fields| ==> fields[i].columnName != column
    ensures r.Some? ==>
      (exists i :: k <= i < |fields| && r.value == fields[i] && fields[i].columnName == column
        && forall j :: k <= j < i ==> fields[j].columnName != column)
    decreases |fields| - k
  {
    if k == |fields| then None
    else if fields[k].columnName == column then Some(fields[k])
    else FieldFrom(column, fields, k + 1)
  }

  /** `getStructField`: the first field with the column; `None` when there is none (the generator stops). */
  function GetStructField(column: string, fields: seq<ModelField>): (r: Option<ModelField>)
    ensures r.None? <==> forall i :: 0 <= i < |fields| ==> fields[i].columnName != column
    ensures r.Some? ==>
      (exists i :: 0 <= i < |fields| && r.value == fields[i] && fields[i].columnName == column
        && forall j :: 0 <= j < i ==> fields[j].columnName != column)
  {
    FieldFrom(column, fields, 0)
  }

  /** Two texts one after the other, unless one of them is missing. */
  function Both(a: Option<string>, b: Option<string>): Option<string>
  {
    if a.Some? && b.Some? then Some(a.value + b.value) else None
  }

  /** The texts `term` gives for the pairs, one after the other, or `None` when one of them is missing. */
  function Gather(pairs: seq<Pair>, term: Pair -> Option<string>): Option<string>
  {
    if |pairs| == 0 then Some("")
    else Both(Gather(pairs[..|pairs| - 1], term), term(pairs[|pairs| - 1]))
  }

  /** The texts `term` gives for the pairs, as a list, or `None` when one of them is missing. */
  function GatherList(pairs: seq<Pair>, term: Pair -> Option<string>): (r: Option<seq<string>>)
    ensures r.Some? ==> |r.value| == |pairs|
  {
    if |pairs| == 0 then Some([])
    else
      var ts := GatherList(pairs[..|pairs| - 1], term);
      var t := term(pairs[|pairs| - 1]);
      if ts.None? || t.None? then None else Some(ts.value + [t.value])
  }

  /** Once a term is missing, every longer run of pairs is missing too. */
  lemma {:induction false} GatherStops(pairs: seq<Pair>, k: nat, term: Pair -> Option<string>)
    requires k <= |pairs| && (Gather(pairs[..k], term).None? || GatherList(pairs[..k], term).None?)
    ensures Gather(pairs[..k], term).None? ==> Gather(pairs, term).None?
    ensures GatherList(pairs[..k], term).None? ==> GatherList(pairs, term).None?
    decreases |pairs| - k
  {
    if k < |pairs| {
      assert pairs[..k + 1][..k] == pairs[..k];
      GatherStops(pairs, k + 1, term);
    } else {
      assert pairs[..k] == pairs;
    }
  }

  /** Gathering two runs of pairs gives the two texts one after the other. */
  lemma {:induction false} GatherConcat(a: seq<Pair>, b: seq<Pair>, term: Pair -> Option<string>)
    ensures Gather(a + b, term) == Both(Gather(a, term), Gather(b, term))
  {
    if |b| == 0 {
      assert a + b == a;
      if Gather(a, term).Some? {
        assert Gather(a, term).value + "" == Gather(a, term).value;
      }
    } else {
      var init := b[..|b| - 1];
      GatherConcat(a, init, term);
      assert (a + b)[..|a + b| - 1] == a + init;
      assert (a + b)[|a + b| - 1] == b[|b| - 1];
      var qa := Gather(a, term);
      var qi := Gather(init, term);
      var t := term(b[|b| - 1]);
      if qa.Some? && qi.Some? && t.Some? {
        assert qa.value + qi.value + t.value == qa.value + (qi.value + t.value);
      }
    }
  }

  /** Item i of a gathered list is the term of pair i. */
  lemma {:induction false} GatherListAt(pairs: seq<Pair>, term: Pair -> Option<string>, i: nat)
    requires GatherList(pairs, term).Some? && i < |pairs|
    ensures term(pairs[i]) == Some(GatherList(pairs, term).value[i])
  {
    var init := pairs[..|pairs| - 1];
    if i < |pairs| - 1 {
      GatherListAt(init, term, i);
    }
  }

  /** One condition of a where clause: ` KEY COL=#{value}`. */
  function WhereTerm(p: Pair, fields: seq<ModelField>, objName: string): Option<string>
  {
    var field := GetStructField(p.val, fields);
    if field.None? then None
    else
      var v := GetTypeValueName(objName, field.value.name, field.value.typ);
      if v.None? then None else Some(" " + p.key + " " + p.val + "=#{" + v.value + "}")
  }

  function WhereTermOf(fields: seq<ModelField>, objName: string): Pair -> Option<string>
  {
    p => WhereTerm(p, fields, objName)
  }

  /** The where clause `genWhereQuery` writes: the conditions in order, or `None` when one of them stops the generator. */
  function WhereQuery(pairs: seq<Pair>, fields: seq<ModelField>, objName: string): Option<string>
  {
    Gather(pairs, WhereTermOf(fields, objName))
  }

  /** `genWhereQuery`: writes each pair's condition. */
  method GenWhereQuery(whereColumns: seq<Pair>, fields: seq<ModelField>, objName: string) returns (r: Option<string>)
    ensures r == WhereQuery(whereColumns, fields, objName)
  {
    ghost var term := WhereTermOf(fields, objName);
    var builder := "";
    for i := 0 to |whereColumns|
      invariant Gather(whereColumns[..i], term) == Some(builder)
    {
      var p := whereColumns[i];
      assert whereColumns[..i + 1][..i] == whereColumns[..i];
      var field := GetStructField(p.val, fields);
      if field.None? {
        assert term(p).None?;
        GatherStops(whereColumns, i + 1, term);
        return None;
      }
      var v := GetTypeValueName(objName, field.value.name, field.value.typ);
      if v.None? {
        assert term(p).None?;
        GatherStops(whereColumns, i + 1, term);
        return None;
      }
      var t := " " + p.key + " " + p.val + "=#{" + v.value + "}";
      assert term(p) == Some(t);
      builder := builder + t;
    }
    assert whereColumns[..|whereColumns|] == whereColumns;
    r := Some(builder);
  }

  /** The clause for two runs of pairs is the two clauses one after the other. */
  lemma WhereQueryConcat(a: seq<Pair>, b: seq<Pair>, fields: seq<ModelField>, objName: string)
    ensures WhereQuery(a + b, fields, objName) == Both(WhereQuery(a, fields, objName), WhereQuery(b, fields, objName))
  {
    GatherConcat(a, b, WhereTermOf(fields, objName));
  }

  /** The separator between the conditions of an annotation. */
  const IfSeparator: string := ".\n\t\t\t"

  /** One conditional call: `If(validator, "KEY COL=#{value}")`. */
  function IfTerm(p: Pair, fields: seq<ModelField>, objName: string): Option<string>
  {
    var field := GetStructField(p.val, fields);
    if field.None? then None
    else
      var v := GetNullableTypeValueName(objName, field.value.name, field.value.typ);
      if v.None? then None
      else Some(IfCall(GetNullableTypeValidator(objName, field.value.name, field.value.typ), p, v.value))
  }

  /** The text of a conditional call. */
  function IfCall(validator: string, p: Pair, valueName: string): (r: string)
    ensures '\n' !in validator && '\n' !in p.key && '\n' !in p.val && '\n' !in valueName ==> '\n' !in r
  {
    "If(" + validator + ", \"" + p.key + " " + p.val + "=#{" + valueName + "}\")"
  }

  function IfTermOf(fields: seq<ModelField>, objName: string): Pair -> Option<string>
  {
    p => IfTerm(p, fields, objName)
  }

  /** The conditional calls for the pairs, in order, or `None` when one of them stops the generator. */
  function IfTerms(pairs: seq<Pair>, fields: seq<ModelField>, objName: string): Option<seq<string>>
  {
    GatherList(pairs, IfTermOf(fields, objName))
  }

  /** `genIfOfWhereAnnotation`: the conditional calls joined by a dot and a new indented line. */
  method GenIfOfWhereAnnotation(whereColumns: seq<Pair>, fields: seq<ModelField>, objName: string) returns (r: Option<string>)
    ensures r.Some? <==> IfTerms(whereColumns, fields, objName).Some?
    ensures r.Some? ==> r.value == Join(IfTerms(whereColumns, fields, objName).value, IfSeparator)
  {
    ghost var term := IfTermOf(fields, objName);
    var builder := "";
    for i := 0 to |whereColumns|
      invariant GatherList(whereColumns[..i], term).Some?
      invariant builder == Join(GatherList(whereColumns[..i], term).value, IfSeparator)
    {
      var p := whereColumns[i];
      assert whereColumns[..i + 1][..i] == whereColumns[..i];
      ghost var done := GatherList(whereColumns[..i], term).value;
      var field := GetStructField(p.val, fields);
      if field.None? {
        assert term(p).None?;
        GatherStops(whereColumns, i + 1, term);
        return None;
      }
      var validator := GetNullableTypeValidator(objName, field.value.name, field.value.typ);
      var valueName := GetNullableTypeValueName(objName, field.value.name, field.value.typ);
      if valueName.None? {
        assert term(p).None?;
        GatherStops(whereColumns, i + 1, term);
        return None;
      }
      var t := IfCall(validator, p, valueName.value);
      assert term(p) == Some(t);
      assert GatherList(whereColumns[..i + 1], term).value == done + [t];
      if i > 0 {
        builder := builder + IfSeparator;
        JoinSnoc(done, t, IfSeparator);
      } else {
        assert done == [];
      }
      builder := builder + t;
    }
    assert whereColumns[..|whereColumns|] == whereColumns;
    r := Some(builder);
  }

  /** Names without line breaks. */
  predicate OneLine(pairs: seq<Pair>, fields: seq<ModelField>, objName: string)
  {
    '\n' !in objName
    && (forall p :: p in pairs ==> '\n' !in p.key && '\n' !in p.val)
    && (forall f :: f in fields ==> '\n' !in f.name && '\n' !in f.typ)
  }

  /** A reading built from one-line names is one line. */
  lemma ValueNameOneLine(objName: string, fieldName: string, typeName: string)
    requires '\n' !in objName && '\n' !in fieldName && '\n' !in typeName
    requires GetNullableTypeValueName(objName, fieldName, typeName).Some?
    ensures '\n' !in GetNullableTypeValueName(objName, fieldName, typeName).value
  {
    if !HasPrefix(typeName, "sql.Null[") && typeName != "sql.RawBytes" {
      var (before, name, _) := Cut(typeName, "sql.Null");
      assert typeName == before + "sql.Null" + name;
    }
  }

  /** A conditional call built from one-line names is one line. */
  lemma IfTermOneLine(p: Pair, fields: seq<ModelField>, objName: string)
    requires '\n' !in objName && '\n' !in p.key && '\n' !in p.val
    requires forall f :: f in fields ==> '\n' !in f.name && '\n' !in f.typ
    requires IfTerm(p, fields, objName).Some?
    ensures '\n' !in IfTerm(p, fields, objName).value
  {
    var field := GetStructField(p.val, fields).value;
    assert field in fields;
    ValueNameOneLine(objName, field.name, field.typ);
    ValidatorOneLine(objName, field.name, field.typ);
  }

  /** A validator built from one-line names is one line. */
  lemma ValidatorOneLine(objName: string, fieldName: string, typeName: string)
    requires '\n' !in objName && '\n' !in fieldName
    ensures '\n' !in GetNullableTypeValidator(objName, fieldName, typeName)
  {
  }

  /** With one-line names, each conditional call stands on a line of its own. */
  lemma IfAnnotationLines(pairs: seq<Pair>, fields: seq<ModelField>, objName: string)
    requires OneLine(pairs, fields, objName) && |pairs| >= 1
    requires IfTerms(pairs, fields, objName).Some?
    ensures Count(Join(IfTerms(pairs, fields, objName).value, IfSeparator), '\n') == |pairs| - 1
  {
    var term := IfTermOf(fields, objName);
    var ts := GatherList(pairs, term).value;
    forall i | 0 <= i < |ts|
      ensures '\n' !in ts[i]
    {
      GatherListAt(pairs, term, i);
      assert pairs[i] in pairs;
      IfTermOneLine(pairs[i], fields, objName);
    }
    SeparatorBreaks();
    CountSeparators(ts, IfSeparator, '\n');
  }

  /** The separator of the conditional calls holds one line break. */
  lemma SeparatorBreaks()
    ensures Count(IfSeparator, '\n') == 1
  {
    assert IfSeparator == ".\n" + "\t\t\t";
    CountAppend(".\n", "\t\t\t", '\n');
    assert ".\n" == "." + "\n";
    CountAppend(".", "\n", '\n');
  }
}
