/**
 * The model-struct side of the code generator: the SQL column type to Go
 * type mapping, a model field's struct tag, the conversion of a table's
 * description into a model struct description, and the list of functions
 * the generated `TableProperty` tag asks for.
 *
 * The table description (`dbparser.TableSpec` and its columns) is built by
 * a parser that is not part of this model; only the fields read here are
 * kept.
 */
module ModelGenerator {
  import opened Wrappers
  import opened Strs
  import opened StringUtils
  import opened TypeSupport
  import opened ModelTypes

  /** A column of a parsed `CREATE TABLE`. */
  datatype ColumnSpec = ColumnSpec(
    name: string,
    sqlType: string,
    notNull: bool,
    isPrimaryKey: bool,
    isAutoIncrement: bool)

  /** A parsed table: its name and columns, in declaration order. */
  datatype TableSpec = TableSpec(tableName: string, columns: seq<ColumnSpec>)

  /** The options the conversion reads. */
  datatype ModelGenOptions = ModelGenOptions(
    tablePrefix: string,
    useNull: bool,
    modelSuffix: string,
    tagKeys: seq<string>)

  /** A struct tag entry. */
  datatype KVPair = KVPair(key: string, val: string)

  /** The entries of the Go map literal giving the Go type of each SQL column type. */
  const SqlColumnToGoTypeEntries: seq<(string, string)> := [
    ("bigint", "int64"), ("int", "int32"), ("mediumint", "int64"), ("smallint", "int16"), ("tinyint", "int8"),
    ("bigint unsigned", "uint64"), ("int unsigned", "uint32"), ("mediumint unsigned", "uint64"),
    ("smallint unsigned", "uint16"), ("tinyint unsigned", "uint8"),
    ("float", "float32"), ("double", "float64"),
    ("char", "string"), ("varchar", "string"), ("text", "string"),
    ("tinytext", "string"), ("mediumtext", "string"), ("longtext", "string"),
    ("binary", "[]byte"), ("varbinary", "[]byte"), ("blob", "[]byte"),
    ("tinyblob", "[]byte"), ("mediumblob", "[]byte"), ("longblob", "[]byte"),
    ("date", "time.Time"), ("time", "time.Time"), ("datetime", "time.Time"),
    ("timestamp", "int64"), ("year", "int8")
  ]

  /** The entries of the map giving the type name, within `database/sql` unless unsigned, of each SQL column type that may be NULL. */
  const SqlColumnToGoTypeUseNullEntries: seq<(string, string)> := [
    ("bigint", "NullInt64"), ("int", "NullInt32"), ("mediumint", "NullInt64"), ("smallint", "NullInt16"), ("tinyint", "NullInt16"),
    ("bigint unsigned", "uint64"), ("int unsigned", "uint32"), ("mediumint unsigned", "uint64"),
    ("smallint unsigned", "uint16"), ("tinyint unsigned", "uint8"),
    ("float", "NullFloat64"), ("double", "NullFloat64"),
    ("char", "NullString"), ("varchar", "NullString"), ("text", "NullString"),
    ("tinytext", "NullString"), ("mediumtext", "NullString"), ("longtext", "NullString"),
    ("binary", "NullByte"), ("varbinary", "NullByte"), ("blob", "NullByte"),
    ("tinyblob", "NullByte"), ("mediumblob", "NullByte"), ("longblob", "NullByte"),
    ("date", "NullTime"), ("time", "NullTime"), ("datetime", "NullTime"),
    ("timestamp", "NullInt64"), ("year", "NullInt16")
  ]

  /** The Go type of each SQL column type. */
  const SqlColumnToGoType: map<string, string> := MapOf(SqlColumnToGoTypeEntries)

  /** The type name of each SQL column type that may be NULL. */
  const SqlColumnToGoTypeUseNull: map<string, string> := MapOf(SqlColumnToGoTypeUseNullEntries)

  /** The map a Go map literal builds from its entries, entered in order. */
  function MapOf(entries: seq<(string, string)>): map<string, string>
  {
    if entries == [] then map[]
    else
      var (k, v) := entries[|entries| - 1];
      MapOf(entries[..|entries| - 1])[k := v]
  }

  /** Every key of the map comes from an entry holding that key and its value. */
  lemma {:induction false} MapOfEntry(entries: seq<(string, string)>, k: string)
    requires k in MapOf(entries)
    ensures exists i :: 0 <= i < |entries| && entries[i] == (k, MapOf(entries)[k])
  {
    var n := |entries| - 1;
    if entries[n].0 != k {
      MapOfEntry(entries[..n], k);
      var i :| 0 <= i < n && entries[..n][i] == (k, MapOf(entries[..n])[k]);
      assert entries[i] == entries[..n][i];
    } else {
      assert entries[n] == (k, MapOf(entries)[k]);
    }
  }

  /** An entry whose key no later entry repeats gives that key its value. */
  lemma {:induction false} MapOfAt(entries: seq<(string, string)>, i: nat)
    requires i < |entries|
    requires forall j :: i < j < |entries| ==> entries[j].0 != entries[i].0
    ensures entries[i].0 in MapOf(entries) && MapOf(entries)[entries[i].0] == entries[i].1
  {
    var n := |entries| - 1;
    if i < n {
      var init := entries[..n];
      assert forall j :: i < j < |init| ==> init[j].0 != init[i].0 by {
        forall j | i < j < |init| ensures init[j].0 != init[i].0 {
          assert init[j] == entries[j];
        }
      }
      MapOfAt(init, i);
      assert entries[n].0 != entries[i].0;
    }
  }

  /** Two entry lists with the same keys in the same order build maps with the same keys. */
  lemma {:induction false} MapOfKeys(a: seq<(string, string)>, b: seq<(string, string)>)
    requires |a| == |b|
    requires forall i :: 0 <= i < |a| ==> a[i].0 == b[i].0
    ensures MapOf(a).Keys == MapOf(b).Keys
  {
    if |a| > 0 {
      var n := |a| - 1;
      assert forall i :: 0 <= i < n ==> a[..n][i].0 == b[..n][i].0 by {
        forall i | 0 <= i < n ensures a[..n][i].0 == b[..n][i].0 {
          assert a[..n][i] == a[i] && b[..n][i] == b[i];
        }
      }
      MapOfKeys(a[..n], b[..n]);
    }
  }

  /** The error of an unknown SQL type. */
  function UnsupportedSqlType(sqlType: string): Errs
  {
    ["unsupport sql type " + sqlType]
  }

  /**
   * `getGoTypeFromSqlType` as written: with `useNull` every mapped name gets
   * the `sql.` qualifier, the unsigned ones included.
   */
  function GetGoTypeFromSqlType(sqlType: string, useNull: bool): (r: Result<string, Errs>)
    ensures r.Err? <==> sqlType !in (if useNull then SqlColumnToGoTypeUseNull else SqlColumnToGoType)
    ensures r.Err? ==> r.error == UnsupportedSqlType(sqlType)
    ensures r.Ok? && useNull ==> HasPrefix(r.value, "sql.")
  {
    if useNull then
      if sqlType in SqlColumnToGoTypeUseNull then Ok("sql." + SqlColumnToGoTypeUseNull[sqlType])
      else Err(UnsupportedSqlType(sqlType))
    else
      if sqlType in SqlColumnToGoType then Ok(SqlColumnToGoType[sqlType])
      else Err(UnsupportedSqlType(sqlType))
  }

  /**
   * The evidently intended mapping: with `useNull` only the `Null…` names
   * live in `database/sql`; the unsigned ones are plain Go types.
   */
  function GoTypeIntended(sqlType: string, useNull: bool): (r: Result<string, Errs>)
    ensures r.Err? <==> sqlType !in (if useNull then SqlColumnToGoTypeUseNull else SqlColumnToGoType)
    ensures r.Err? ==> r.error == UnsupportedSqlType(sqlType)
  {
    if useNull then
      if sqlType in SqlColumnToGoTypeUseNull then
        var name := SqlColumnToGoTypeUseNull[sqlType];
        Ok(if HasPrefix(name, "Null") then "sql." + name else name)
      else Err(UnsupportedSqlType(sqlType))
    else
      if sqlType in SqlColumnToGoType then Ok(SqlColumnToGoType[sqlType])
      else Err(UnsupportedSqlType(sqlType))
  }

  /** Both mappings know the same SQL types. */
  lemma SameSqlTypes()
    ensures SqlColumnToGoType.Keys == SqlColumnToGoTypeUseNull.Keys
  {
    MapOfKeys(SqlColumnToGoTypeEntries, SqlColumnToGoTypeUseNullEntries);
  }

  /** Every plain mapped type is a basic Go type the generator supports. */
  lemma PlainTypesBasic(sqlType: string)
    requires sqlType in SqlColumnToGoType
    ensures SqlColumnToGoType[sqlType] in SupportedBasicType
  {
    MapOfEntry(SqlColumnToGoTypeEntries, sqlType);
    PlainEntriesBasic();
  }

  lemma PlainEntriesBasic()
    ensures forall i :: 0 <= i < |SqlColumnToGoTypeEntries| ==> SqlColumnToGoTypeEntries[i].1 in SupportedBasicType
  {
  }

  /** The nullable mapping gives either a `Null…` name or an unsigned basic type. */
  lemma NullNamesShape(sqlType: string)
    requires sqlType in SqlColumnToGoTypeUseNull
    ensures var name := SqlColumnToGoTypeUseNull[sqlType];
      HasPrefix(name, "Null") || (name in SupportedBasicType && !HasPrefix(name, "Null"))
  {
    MapOfEntry(SqlColumnToGoTypeUseNullEntries, sqlType);
    var i :| 0 <= i < |SqlColumnToGoTypeUseNullEntries| &&
      SqlColumnToGoTypeUseNullEntries[i] == (sqlType, SqlColumnToGoTypeUseNull[sqlType]);
    NullEntryShape(i);
  }

  lemma NullEntryShape(i: int)
    requires 0 <= i < |SqlColumnToGoTypeUseNullEntries|
    ensures var name := SqlColumnToGoTypeUseNullEntries[i].1;
      HasPrefix(name, "Null") || (name in SupportedBasicType && !HasPrefix(name, "Null"))
  {
    var name := SqlColumnToGoTypeUseNullEntries[i].1;
    if name in {"uint64", "uint32", "uint16", "uint8"} {
      assert name[0] == 'u';
    } else {
      assert name[..4] == "Null";
    }
  }

  /** A `sql.` name over a `Null…` name starts with `sql.Null`. */
  lemma SqlNullName(name: string)
    requires HasPrefix(name, "Null")
    ensures HasPrefix("sql." + name, "sql.Null")
  {
    assert ("sql." + name)[..8] == "sql." + name[..4];
  }

  /** Whatever the intended mapping yields, the type support check accepts. */
  lemma IntendedSupported(sqlType: string, useNull: bool)
    requires GoTypeIntended(sqlType, useNull).Ok?
    ensures IsTypeSupported(GoTypeIntended(sqlType, useNull).value, false)
  {
    var t := GoTypeIntended(sqlType, useNull).value;
    if useNull {
      var name := SqlColumnToGoTypeUseNull[sqlType];
      NullNamesShape(sqlType);
      if HasPrefix(name, "Null") {
        SqlNullName(name);
        SqlNullPrefixNullable(t);
        NullableIsSupported(t);
      } else {
        assert t in SupportedBasicType;
      }
    } else {
      PlainTypesBasic(sqlType);
    }
  }

  /** The two mappings agree except on the unsigned nullable columns. */
  lemma IntendedAgrees(sqlType: string, useNull: bool)
    requires !useNull || sqlType !in SqlColumnToGoTypeUseNull || HasPrefix(SqlColumnToGoTypeUseNull[sqlType], "Null")
    ensures GoTypeIntended(sqlType, useNull) == GetGoTypeFromSqlType(sqlType, useNull)
  {
  }

  /** Every nullable column type is `sql.` followed by `N` or `R`. */
  lemma ColumnTypeShape(i: int)
    requires 0 <= i < |SupportedColumnType|
    ensures |SupportedColumnType[i]| >= 5 && SupportedColumnType[i][3] == '.'
    ensures SupportedColumnType[i][4] == 'N' || SupportedColumnType[i][4] == 'R'
  {
  }

  /** No basic type has a `.` at the fourth position. */
  lemma BasicTypeShape(goType: string)
    requires goType in SupportedBasicType
    ensures |goType| < 4 || goType[3] != '.'
  {
  }

  /** A name whose fifth character is neither `N` nor `R` is not nullable. */
  lemma NotNullableByFifth(t: string)
    requires |t| >= 5 && t[4] != 'N' && t[4] != 'R'
    ensures !IsNullableType(t)
  {
    forall i | 0 <= i < |SupportedColumnType|
      ensures !HasPrefix(t, SupportedColumnType[i])
    {
      ColumnTypeShape(i);
    }
  }

  /** No basic type is nullable. */
  lemma BasicNotNullable(goType: string)
    requires goType in SupportedBasicType
    ensures !IsNullableType(goType)
  {
    BasicTypeShape(goType);
    forall i | 0 <= i < |SupportedColumnType|
      ensures !HasPrefix(goType, SupportedColumnType[i])
    {
      ColumnTypeShape(i);
    }
  }

  /** The nullable mapping names `uint64` for `bigint unsigned`. */
  lemma BigintUnsignedNull()
    ensures "bigint unsigned" in SqlColumnToGoTypeUseNull && SqlColumnToGoTypeUseNull["bigint unsigned"] == "uint64"
  {
    MapOfAt(SqlColumnToGoTypeUseNullEntries, 5);
  }

  /** `sql.uint64` does not name a supported type. */
  lemma SqlUint64Unsupported()
    ensures !IsTypeSupported("sql.uint64", false)
  {
    var t := "sql.uint64";
    assert |t| == 10 && t[3] == '.' && t[4] == 'u';
    UnsupportedByShape(t);
  }

  /** A name with a `.` at the fourth position and neither `N` nor `R` after it is no supported plain type. */
  lemma UnsupportedByShape(t: string)
    requires |t| >= 5 && t[3] == '.' && t[4] != 'N' && t[4] != 'R'
    ensures !IsTypeSupported(t, false)
  {
    NotNullableByFifth(t);
    if t in SupportedBasicType {
      BasicTypeShape(t);
    }
  }

  /** As written, a nullable `bigint unsigned` column gets the type `sql.uint64`, which does not exist and which the type support check rejects. */
  lemma UnsignedNullType()
    ensures GetGoTypeFromSqlType("bigint unsigned", true) == Ok("sql.uint64")
    ensures !IsTypeSupported(GetGoTypeFromSqlType("bigint unsigned", true).value, false)
  {
    BigintUnsignedNull();
    assert "sql." + "uint64" == "sql.uint64";
    SqlUint64Unsupported();
  }

  /** The text of one tag entry: `key:"val"`. */
  function RenderTag(t: KVPair): string
  {
    t.key + ":\"" + t.val + "\""
  }

  /** The rendered entries, in order. */
  function RenderedTags(tags: seq<KVPair>): (r: seq<string>)
    ensures |r| == |tags|
  {
    seq(|tags|, i requires 0 <= i < |tags| => RenderTag(tags[i]))
  }

  /** The struct tag of a field: its entries separated by single spaces, within backquotes. */
  function TagText(tags: seq<KVPair>): string
  {
    "`" + Join(RenderedTags(tags), " ") + "`"
  }

  /** A field of the generated model struct. */
  class ModelFieldSpec {
    var name: string
    var typ: string
    var tags: seq<KVPair>
    var imports: seq<string>

    /** The zero value `&ModelFieldSpec{}`. */
    constructor ()
      ensures name == "" && typ == "" && tags == [] && imports == []
    {
      name := "";
      typ := "";
      tags := [];
      imports := [];
    }

    /** `AddImport`: appends the import path. */
    method AddImport(path: string)
      modifies this
      ensures imports == old(imports) + [path]
      ensures name == old(name) && typ == old(typ) && tags == old(tags)
    {
      imports := imports + [path];
    }

    /** `AddTag`: appends the entry. */
    method AddTag(key: string, value: string)
      modifies this
      ensures tags == old(tags) + [KVPair(key, value)]
      ensures name == old(name) && typ == old(typ) && imports == old(imports)
    {
      tags := tags + [KVPair(key, value)];
    }

    /** `Tag`: writes each entry, and a space after every entry but the last, within backquotes. */
    method Tag() returns (r: string)
      ensures r == TagText(tags)
    {
      var parts := RenderedTags(tags);
      r := "`";
      var i := 0;
      for j := 0 to |tags|
        invariant i == j
        invariant r == "`" + JoinedUpTo(parts, " ", j)
      {
        JoinedStep(parts, " ", j);
        r := r + tags[j].key + ":\"" + tags[j].val + "\"";
        i := i + 1;
        if i != |tags| {
          r := r + " ";
        }
      }
      JoinedAll(parts, " ");
      r := r + "`";
    }
  }

  /** Joining parts that each hold two of `c`, with a separator free of `c`, gives two per part. */
  lemma {:induction false} CountJoinPairs(parts: seq<string>, sep: string, c: char)
    requires c !in sep
    requires forall i :: 0 <= i < |parts| ==> Count(parts[i], c) == 2
    ensures Count(Join(parts, sep), c) == 2 * |parts|
  {
    if |parts| > 1 {
      CountJoinPairs(parts[1..], sep, c);
      CountAppend(parts[0] + sep, Join(parts[1..], sep), c);
      CountAppend(parts[0], sep, c);
    }
  }

  /** Joining parts free of `c` with a one-character separator `c` gives one fewer `c` than parts. */
  lemma {:induction false} CountJoinSeparators(parts: seq<string>, c: char)
    requires |parts| >= 1
    requires forall i :: 0 <= i < |parts| ==> c !in parts[i]
    ensures Count(Join(parts, [c]), c) == |parts| - 1
  {
    if |parts| > 1 {
      CountJoinSeparators(parts[1..], c);
      CountAppend(parts[0] + [c], Join(parts[1..], [c]), c);
      CountAppend(parts[0], [c], c);
    }
  }

  /** The number of `c` in an entry's text. */
  lemma RenderTagCount(t: KVPair, c: char)
    ensures Count(RenderTag(t), c) == Count(t.key, c) + Count(":\"", c) + Count(t.val, c) + Count("\"", c)
  {
    CountAppend(t.key + ":\"" + t.val, "\"", c);
    CountAppend(t.key + ":\"", t.val, c);
    CountAppend(t.key, ":\"", c);
  }

  /** No tags give the empty tag "``"; otherwise the tag ends with the last value's closing quote, not a space. */
  lemma TagEnds(tags: seq<KVPair>)
    ensures |tags| == 0 ==> TagText(tags) == "``"
    ensures |tags| > 0 ==> HasSuffix(TagText(tags), "\"`")
  {
    var parts := RenderedTags(tags);
    if |tags| > 1 {
      assert parts == parts[..|parts| - 1] + [parts[|parts| - 1]];
      JoinSnoc(parts[..|parts| - 1], parts[|parts| - 1], " ");
    }
  }

  /**
   * With keys and values free of quotes and spaces, the tag holds two
   * quotes per entry and one space between neighbouring entries.
   */
  lemma TagCounts(tags: seq<KVPair>)
    requires |tags| >= 1
    requires forall i :: 0 <= i < |tags| ==> '"' !in tags[i].key && '"' !in tags[i].val
    requires forall i :: 0 <= i < |tags| ==> ' ' !in tags[i].key && ' ' !in tags[i].val
    ensures Count(TagText(tags), '"') == 2 * |tags|
    ensures Count(TagText(tags), ' ') == |tags| - 1
  {
    var parts := RenderedTags(tags);
    forall i | 0 <= i < |parts|
      ensures Count(parts[i], '"') == 2 && ' ' !in parts[i]
    {
      RenderedMarks(tags[i]);
    }
    CountJoinPairs(parts, " ", '"');
    CountJoinSeparators(parts, ' ');
    Backquoted(Join(parts, " "), '"');
    Backquoted(Join(parts, " "), ' ');
  }

  /** An entry without quotes or spaces in its key and value renders with two quotes and no space. */
  lemma RenderedMarks(t: KVPair)
    requires '"' !in t.key && '"' !in t.val && ' ' !in t.key && ' ' !in t.val
    ensures Count(RenderTag(t), '"') == 2 && ' ' !in RenderTag(t)
  {
    RenderTagCount(t, '"');
    assert ":\""[..1] == ":" && ":"[..0] == "" && "\""[..0] == "";
    assert Count(":\"", '"') == 1 && Count("\"", '"') == 1;
  }

  /** Backquotes add no other character. */
  lemma Backquoted(inner: string, c: char)
    requires c != '`'
    ensures Count("`" + inner + "`", c) == Count(inner, c)
  {
    CountAppend("`" + inner, "`", c);
    CountAppend("`", inner, c);
  }

  /** The name parts of a table, without the first one when it is the prefix. */
  function StructNameParts(tableName: string, tablePrefix: string): (r: seq<string>)
  {
    var parts := Split(tableName, '_');
    if |parts| > 0 && parts[0] == tablePrefix then parts[1..] else parts
  }

  /** The model struct's name: the PascalCase of the name parts, then the suffix. */
  function StructName(tableName: string, options: ModelGenOptions): string
  {
    PascalOf(StructNameParts(tableName, options.tablePrefix)) + options.modelSuffix
  }

  /** A table named `prefix_rest` is named after `rest` alone. */
  lemma PrefixDropped(prefix: string, rest: string, options: ModelGenOptions)
    requires options.tablePrefix == prefix && '_' !in prefix
    ensures StructName(prefix + "_" + rest, options) == PascalOf(Split(rest, '_')) + options.modelSuffix
  {
    SplitConcat(prefix, rest, '_');
    SplitWithout(prefix, '_');
    assert [prefix] + Split(rest, '_') == Split(prefix + "_" + rest, '_');
  }

  /** A table name that does not start with the prefix part keeps all its parts. */
  lemma PrefixKept(tableName: string, options: ModelGenOptions)
    requires Split(tableName, '_')[0] != options.tablePrefix
    ensures StructName(tableName, options) == PascalOf(Split(tableName, '_')) + options.modelSuffix
  {
  }

  /** The struct name has no `_` unless the suffix brings one. */
  lemma StructNameNoUnderscore(tableName: string, options: ModelGenOptions)
    requires '_' !in options.modelSuffix
    ensures '_' !in StructName(tableName, options)
  {
    var parts := Split(tableName, '_');
    var kept := StructNameParts(tableName, options.tablePrefix);
    assert forall i :: 0 <= i < |kept| ==> '_' !in kept[i] by {
      if |parts| > 0 && parts[0] == options.tablePrefix {
        assert forall i :: 0 <= i < |kept| ==> kept[i] == parts[i + 1];
      }
    }
    PascalNoUnderscore(kept);
  }

  /** Whether a column gets the nullable mapping: only a nullable, non-key column with the option set. */
  predicate UsesNull(col: ColumnSpec, options: ModelGenOptions)
  {
    options.useNull && !col.notNull && !col.isPrimaryKey
  }

  /** The Go type of a column's field, as the conversion looks it up: with `getGoTypeFromSqlType` as written. */
  function FieldType(col: ColumnSpec, options: ModelGenOptions): Result<string, Errs>
  {
    GetGoTypeFromSqlType(col.sqlType, UsesNull(col, options))
  }

  /** The Go type the conversion evidently intends: with the corrected lookup. */
  function FieldTypeIntended(col: ColumnSpec, options: ModelGenOptions): Result<string, Errs>
  {
    GoTypeIntended(col.sqlType, UsesNull(col, options))
  }

  /** The imports a field of the given type needs. */
  function FieldImports(goType: string): seq<string>
  {
    if ContainsSub(goType, "sql.") then ["database/sql"]
    else if ContainsSub(goType, "time.") then ["time"]
    else []
  }

  /** The value of the `db` tag: the column name, then `,pk` and `,auto_incr` as they apply. */
  function DbTag(col: ColumnSpec): string
  {
    col.name + (if col.isPrimaryKey then ",pk" else "") + (if col.isAutoIncrement then ",auto_incr" else "")
  }

  /** The extra tags: each non-empty key, in order, with the field's name as value. */
  function ExtraTags(tagKeys: seq<string>, fieldName: string): (r: seq<KVPair>)
    ensures |r| <= |tagKeys|
  {
    if |tagKeys| == 0 then []
    else
      var key := tagKeys[|tagKeys| - 1];
      ExtraTags(tagKeys[..|tagKeys| - 1], fieldName) + (if key != "" then [KVPair(key, fieldName)] else [])
  }

  /** Every extra tag is a non-empty listed key with the field's name; every non-empty listed key has one. */
  lemma {:induction false} ExtraTagsOf(tagKeys: seq<string>, fieldName: string)
    ensures forall t :: t in ExtraTags(tagKeys, fieldName) ==> t.key != "" && t.key in tagKeys && t.val == fieldName
    ensures forall k :: k in tagKeys && k != "" ==> KVPair(k, fieldName) in ExtraTags(tagKeys, fieldName)
  {
    if |tagKeys| > 0 {
      var init := tagKeys[..|tagKeys| - 1];
      ExtraTagsOf(init, fieldName);
      assert tagKeys == init + [tagKeys[|tagKeys| - 1]];
    }
  }

  /** `DbTag` built the way the generator builds it: the column name, then each flag appended in turn. */
  lemma DbTagBuilt(col: ColumnSpec)
    ensures var head := if col.isPrimaryKey then col.name + ",pk" else col.name;
      DbTag(col) == if col.isAutoIncrement then head + ",auto_incr" else head
  {
    var head := if col.isPrimaryKey then col.name + ",pk" else col.name;
    assert col.name + (if col.isPrimaryKey then ",pk" else "") == head;
    assert head + "" == head;
  }

  /** The tags of a column's field: `db` first, then the extra ones. */
  function FieldTags(col: ColumnSpec, fieldName: string, tagKeys: seq<string>): seq<KVPair>
  {
    [KVPair("db", DbTag(col))] + ExtraTags(tagKeys, fieldName)
  }

  /** A column name without commas comes back first when the `db` tag is split at commas, followed by the flags. */
  lemma DbTagSplit(col: ColumnSpec)
    requires ',' !in col.name
    ensures Split(DbTag(col), ',') ==
      [col.name] + (if col.isPrimaryKey then ["pk"] else []) + (if col.isAutoIncrement then ["auto_incr"] else [])
  {
    var head := if col.isPrimaryKey then col.name + ",pk" else col.name;
    var pk: seq<string> := if col.isPrimaryKey then ["pk"] else [];
    SplitWithout(col.name, ',');
    FlagTexts();
    if col.isPrimaryKey {
      SplitFlag(col.name, "pk");
    }
    assert Split(head, ',') == [col.name] + pk;
    DbTagBuilt(col);
    if col.isAutoIncrement {
      SplitFlag(head, "auto_incr");
    } else {
      assert [col.name] + pk + [] == [col.name] + pk;
    }
  }

  /** The flag suffixes of the `db` tag are a comma and the flag. */
  lemma FlagTexts()
    ensures ",pk" == "," + "pk" && ",auto_incr" == "," + "auto_incr"
  {
  }

  /** A flag appended after a comma becomes one more part. */
  lemma SplitFlag(head: string, flag: string)
    requires ',' !in flag
    ensures Split(head + ("," + flag), ',') == Split(head, ',') + [flag]
  {
    assert head + ("," + flag) == head + [','] + flag;
    SplitConcat(head, flag, ',');
    SplitWithout(flag, ',');
  }

  /** A basic type needs an import only when it is `time.Time`. */
  lemma BasicImports(goType: string)
    requires goType in SupportedBasicType
    ensures FieldImports(goType) == if goType == "time.Time" then ["time"] else []
  {
    if goType == "time.Time" {
      TimeImports();
    } else {
      BasicNoDot(goType);
      NotContainsByChar(goType, "sql.", 3);
      NotContainsByChar(goType, "time.", 4);
    }
  }

  lemma TimeImports()
    ensures FieldImports("time.Time") == ["time"]
  {
    NotContainsByChar("time.Time", "sql.", 0);
    ContainsAt("time.Time", "time.", 0);
  }

  /** The basic types other than `time.Time` have no dot. */
  lemma BasicNoDot(goType: string)
    requires goType in SupportedBasicType && goType != "time.Time"
    ensures '.' !in goType
  {
  }

  /**
   * The imports of a column's field as converted: `database/sql` exactly when
   * the column uses the nullable table (every such type gets `sql.`), else
   * `time` for `time.Time`, else none.
   */
  lemma FieldImportsOf(col: ColumnSpec, options: ModelGenOptions)
    requires FieldType(col, options).Ok?
    ensures var t := FieldType(col, options).value;
      FieldImports(t) == if UsesNull(col, options) then ["database/sql"] else if t == "time.Time" then ["time"] else []
  {
    var t := FieldType(col, options).value;
    if UsesNull(col, options) {
      assert OccursAt(t, "sql.", 0);
      ContainsAt(t, "sql.", 0);
    } else {
      PlainTypesBasic(col.sqlType);
      BasicImports(t);
    }
  }

  /** With the corrected lookup a field would import `database/sql` exactly for the nullable types, `time` for `time.Time`, else none. */
  lemma IntendedImportsOf(col: ColumnSpec, options: ModelGenOptions)
    requires FieldTypeIntended(col, options).Ok?
    ensures var t := FieldTypeIntended(col, options).value;
      FieldImports(t) == if IsNullableType(t) then ["database/sql"] else if t == "time.Time" then ["time"] else []
  {
    var t := FieldTypeIntended(col, options).value;
    var useNull := UsesNull(col, options);
    if useNull && HasPrefix(SqlColumnToGoTypeUseNull[col.sqlType], "Null") {
      SqlNullName(SqlColumnToGoTypeUseNull[col.sqlType]);
      SqlNullPrefixNullable(t);
      assert OccursAt(t, "sql.", 0);
    } else {
      if useNull {
        NullNamesShape(col.sqlType);
      } else {
        PlainTypesBasic(col.sqlType);
      }
      BasicNotNullable(t);
      BasicImports(t);
    }
  }

  /** The two conversions fail on the same columns and agree on every column but a nullable one with an unsigned type. */
  lemma FieldTypeAgrees(col: ColumnSpec, options: ModelGenOptions)
    ensures FieldType(col, options).Err? <==> FieldTypeIntended(col, options).Err?
    ensures (!UsesNull(col, options) || col.sqlType !in SqlColumnToGoTypeUseNull ||
             HasPrefix(SqlColumnToGoTypeUseNull[col.sqlType], "Null")) ==>
      FieldType(col, options) == FieldTypeIntended(col, options)
  {
    if !UsesNull(col, options) || col.sqlType !in SqlColumnToGoTypeUseNull ||
      HasPrefix(SqlColumnToGoTypeUseNull[col.sqlType], "Null") {
      IntendedAgrees(col.sqlType, UsesNull(col, options));
    }
  }

  /**
   * As converted, a nullable `bigint unsigned` column gets the type
   * `sql.uint64` and imports `database/sql`; the type support check rejects
   * that type, and the corrected lookup would give `uint64` with no import.
   */
  lemma UnsignedNullField(name: string, options: ModelGenOptions)
    requires options.useNull
    ensures var col := ColumnSpec(name, "bigint unsigned", false, false, false);
      FieldType(col, options) == Ok("sql.uint64") &&
      FieldImports("sql.uint64") == ["database/sql"] &&
      !IsTypeSupported("sql.uint64", false) &&
      FieldTypeIntended(col, options) == Ok("uint64") && FieldImports("uint64") == []
  {
    UnsignedNullType();
    UnsignedIntendedType();
    SqlUint64Imports();
    Uint64Imports();
  }

  /** The corrected lookup gives a nullable `bigint unsigned` column the plain `uint64`. */
  lemma UnsignedIntendedType()
    ensures GoTypeIntended("bigint unsigned", true) == Ok("uint64")
  {
    BigintUnsignedNull();
    assert "uint64"[0] != 'N';
  }

  lemma SqlUint64Imports()
    ensures FieldImports("sql.uint64") == ["database/sql"]
  {
    assert OccursAt("sql.uint64", "sql.", 0);
    ContainsAt("sql.uint64", "sql.", 0);
  }

  lemma Uint64Imports()
    ensures FieldImports("uint64") == []
  {
    assert "uint64" in SupportedBasicType;
    BasicImports("uint64");
  }

  /** The field state a column converts to. */
  predicate FieldOf(f: ModelFieldSpec, col: ColumnSpec, options: ModelGenOptions)
    reads f
  {
    FieldType(col, options).Ok? && FieldWithType(f, FieldType(col, options).value, col, options)
  }

  /** The field state a column converts to once its Go type `t` is known. */
  predicate FieldWithType(f: ModelFieldSpec, t: string, col: ColumnSpec, options: ModelGenOptions)
    reads f
  {
    f.typ == t &&
    f.name == PascalOf(Split(col.name, '_')) &&
    f.tags == FieldTags(col, f.name, options.tagKeys) &&
    f.imports == FieldImports(t)
  }

  /** The body of the conversion loop for one column: a new field, or the type error. */
  method NewFieldSpec(col: ColumnSpec, options: ModelGenOptions) returns (r: Result<ModelFieldSpec, Errs>)
    ensures r.Err? <==> FieldType(col, options).Err?
    ensures r.Err? ==> r.error == FieldType(col, options).error
    ensures r.Ok? ==> fresh(r.value) && FieldOf(r.value, col, options)
  {
    var goType := GetGoTypeFromSqlType(col.sqlType, UsesNull(col, options));
    if goType.Err? {
      return Err(goType.error);
    }
    var f := FieldSpecOfType(goType.value, col, options);
    r := Ok(f);
  }

  /** The conversion of one column whose Go type is known: imports, type, name, then the tags. */
  method FieldSpecOfType(goType: string, col: ColumnSpec, options: ModelGenOptions) returns (f: ModelFieldSpec)
    ensures fresh(f) && FieldWithType(f, goType, col, options)
  {
    f := new ModelFieldSpec();
    if ContainsSub(goType, "sql.") {
      f.AddImport("database/sql");
    } else if ContainsSub(goType, "time.") {
      f.AddImport("time");
    }
    assert f.imports == FieldImports(goType) && f.tags == [];
    f.typ := goType;
    var name := ToPascalCase(col.name);
    f.name := name;
    var dbTagVal := col.name;
    if col.isPrimaryKey {
      dbTagVal := dbTagVal + ",pk";
    }
    if col.isAutoIncrement {
      dbTagVal := dbTagVal + ",auto_incr";
    }
    DbTagBuilt(col);
    f.AddTag("db", dbTagVal);
    ghost var dbTags := f.tags;
    assert dbTags == [KVPair("db", DbTag(col))];
    AddExtraTags(f, options.tagKeys);
    assert f.name == name;
    assert f.tags == dbTags + ExtraTags(options.tagKeys, name);
  }

  /** The loop over the extra tag keys: each non-empty key gets the field's name. */
  method AddExtraTags(f: ModelFieldSpec, tagKeys: seq<string>)
    modifies f
    ensures f.tags == old(f.tags) + ExtraTags(tagKeys, f.name)
    ensures f.name == old(f.name) && f.typ == old(f.typ) && f.imports == old(f.imports)
  {
    assert tagKeys[..0] == [];
    for i := 0 to |tagKeys|
      invariant f.name == old(f.name) && f.typ == old(f.typ) && f.imports == old(f.imports)
      invariant f.tags == old(f.tags) + ExtraTags(tagKeys[..i], f.name)
    {
      var key := tagKeys[i];
      assert tagKeys[..i + 1][..i] == tagKeys[..i];
      if key != "" {
        f.AddTag(key, f.name);
      }
    }
    assert tagKeys[..|tagKeys|] == tagKeys;
  }

  /** A model struct: its name and fields. */
  datatype ModelSpec = ModelSpec(modelStructName: string, fields: seq<ModelFieldSpec>)

  /** Some column's type is unknown. */
  predicate HasTypeError(columns: seq<ColumnSpec>, options: ModelGenOptions)
  {
    exists i :: 0 <= i < |columns| && FieldType(columns[i], options).Err?
  }

  /**
   * `convertToModelSpec`: the struct name, and one new field per column in
   * order; the first column of unknown type stops it with that error.
   */
  method ConvertToModelSpec(spec: TableSpec, options: ModelGenOptions) returns (r: Result<ModelSpec, Errs>)
    ensures r.Err? <==> HasTypeError(spec.columns, options)
    ensures r.Err? ==> exists i :: (0 <= i < |spec.columns| &&
      FieldType(spec.columns[i], options) == Err(r.error) &&
      forall j :: 0 <= j < i ==> FieldType(spec.columns[j], options).Ok?)
    ensures r.Ok? ==> r.value.modelStructName == StructName(spec.tableName, options)
    ensures r.Ok? ==> |r.value.fields| == |spec.columns|
    ensures r.Ok? ==> forall i :: 0 <= i < |spec.columns| ==>
      fresh(r.value.fields[i]) && FieldOf(r.value.fields[i], spec.columns[i], options)
  {
    var structName := ModelStructName(spec.tableName, options);
    var fields := ConvertColumns(spec.columns, options);
    if fields.Err? {
      return Err(fields.error);
    }
    r := Ok(ModelSpec(structName, fields.value));
  }

  /** The struct name part of `convertToModelSpec`: the prefix dropped, then PascalCase and the suffix. */
  method ModelStructName(tableName: string, options: ModelGenOptions) returns (structName: string)
    ensures structName == StructName(tableName, options)
  {
    var parts := Split(tableName, '_');
    if |parts| > 0 && parts[0] == options.tablePrefix {
      parts := parts[1..];
    }
    var pascal := ToPascalCaseByList(parts);
    structName := pascal + options.modelSuffix;
  }

  /** The column loop of `convertToModelSpec`: one new field per column, or the first type error. */
  method ConvertColumns(columns: seq<ColumnSpec>, options: ModelGenOptions) returns (r: Result<seq<ModelFieldSpec>, Errs>)
    ensures r.Err? <==> HasTypeError(columns, options)
    ensures r.Err? ==> exists i :: (0 <= i < |columns| &&
      FieldType(columns[i], options) == Err(r.error) &&
      forall j :: 0 <= j < i ==> FieldType(columns[j], options).Ok?)
    ensures r.Ok? ==> |r.value| == |columns|
    ensures r.Ok? ==> forall i :: 0 <= i < |columns| ==>
      fresh(r.value[i]) && FieldOf(r.value[i], columns[i], options)
  {
    var fields: seq<ModelFieldSpec> := [];
    for i := 0 to |columns|
      invariant |fields| == i
      invariant forall j :: 0 <= j < i ==> fresh(fields[j])
      invariant forall j :: 0 <= j < i ==> FieldOf(fields[j], columns[j], options)
    {
      var f := NewFieldSpec(columns[i], options);
      if f.Err? {
        return Err(f.error);
      }
      fields := fields + [f.value];
    }
    r := Ok(fields);
  }

  /** The functions every generated model asks for. */
  const BaseGenFuncs: seq<string> := ["Add", "BatchAdd", "SelectPage(|true)"]

  /** The functions a model with a primary key asks for as well. */
  const IdGenFuncs: seq<string> := ["DeleteById", "GetById", "SelectListByIds", "UpdateById(|true)"]

  /** Some column is the primary key. */
  predicate HasPrimaryKey(columns: seq<ColumnSpec>)
  {
    exists i :: 0 <= i < |columns| && columns[i].isPrimaryKey
  }

  /** The gen-function list of `GenerateGoModelStruct`: the primary-key search, then the list. */
  method GenFuncs(columns: seq<ColumnSpec>) returns (genFuncs: seq<string>)
    ensures genFuncs == BaseGenFuncs + (if HasPrimaryKey(columns) then IdGenFuncs else [])
    ensures |genFuncs| == if HasPrimaryKey(columns) then 7 else 3
  {
    var hasPrimaryKey := false;
    var i := 0;
    while i < |columns|
      invariant 0 <= i <= |columns| && !hasPrimaryKey
      invariant forall j :: 0 <= j < i ==> !columns[j].isPrimaryKey
    {
      if columns[i].isPrimaryKey {
        hasPrimaryKey := true;
        break;
      }
      i := i + 1;
    }
    genFuncs := BaseGenFuncs;
    if hasPrimaryKey {
      genFuncs := genFuncs + IdGenFuncs;
    }
  }
}
