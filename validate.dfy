/**
 * Which Go field types the code generator accepts: the basic types, the
 * `database/sql` nullable column types (by prefix), and the generic
 * `sql.Null[T]` over a basic type.
 */
module TypeSupport {
  import opened Strs
  import opened GenUtils

  /** The basic Go types a field may have. */
  const SupportedBasicType: seq<string> := [
    "int", "int64", "int32", "int16", "int8",
    "uint", "uint64", "uint32", "uint16", "uint8",
    "float64", "float32", "string", "bool", "[]byte", "time.Time"
  ]

  /** The nullable column types, matched as prefixes of a type name. */
  const SupportedColumnType: seq<string> := [
    "sql.NullTime", "sql.NullInt64", "sql.NullInt32", "sql.NullInt16", "sql.NullFloat64",
    "sql.NullBool", "sql.NullString", "sql.NullByte", "sql.Null", "sql.RawBytes"
  ]

  /** `strings.TrimSuffix`. */
  function TrimSuffix(s: string, suffix: string): (r: string)
    ensures HasSuffix(s, suffix) ==> s == r + suffix
    ensures !HasSuffix(s, suffix) ==> r == s
  {
    if HasSuffix(s, suffix) then s[..|s| - |suffix|] else s
  }

  /**
   * `IsTypeSupported`. A generic type name without `[` stops the generator
   * with a fatal log, so callers must pass one that has it.
   */
  function IsTypeSupported(typeName: string, isGenericType: bool): (r: bool)
    requires isGenericType ==> '[' in typeName
    ensures isGenericType ==>
      var (head, tail, _) := Cut(typeName, "[");
      (r <==> head == "sql.Null" && TrimSuffix(tail, "]") in SupportedBasicType)
    ensures !isGenericType ==>
      (r <==> (exists i :: 0 <= i < |SupportedColumnType| && HasPrefix(typeName, SupportedColumnType[i]))
              || typeName in SupportedBasicType)
  {
    if isGenericType then
      var (s1, s2, _) := Cut(typeName, "[");
      s1 == "sql.Null" && Contains(SupportedBasicType, TrimSuffix(s2, "]"))
    else
      ContainsPrefix(SupportedColumnType, typeName) || Contains(SupportedBasicType, typeName)
  }

  /** `IsNullableType`: some nullable column type is a prefix of the name. */
  function IsNullableType(typeName: string): (r: bool)
    ensures r <==> exists i :: 0 <= i < |SupportedColumnType| && HasPrefix(typeName, SupportedColumnType[i])
  {
    ContainsPrefix(SupportedColumnType, typeName)
  }

  /** Every nullable type name is supported as a non-generic type. */
  lemma NullableIsSupported(typeName: string)
    requires IsNullableType(typeName)
    ensures IsTypeSupported(typeName, false)
  {
  }

  /** Any name that starts with `sql.Null` is nullable, whatever follows it. */
  lemma SqlNullPrefixNullable(typeName: string)
    requires HasPrefix(typeName, "sql.Null")
    ensures IsNullableType(typeName)
  {
    assert SupportedColumnType[8] == "sql.Null";
  }

  /** A nullable name is one of the `sql.` names. */
  lemma NullableIsSql(typeName: string)
    requires IsNullableType(typeName)
    ensures HasPrefix(typeName, "sql.")
  {
    var i :| 0 <= i < |SupportedColumnType| && HasPrefix(typeName, SupportedColumnType[i]);
    assert SupportedColumnType[i][..4] == "sql.";
  }

  /** A head without `[` is what `Cut` gives back before the first `[`. */
  lemma CutAtBracket(head: string, tail: string)
    requires '[' !in head
    ensures Cut(head + "[" + tail, "[") == (head, tail, true)
  {
    var t := head + "[" + tail;
    assert OccursAt(t, "[", |head|);
    forall j | 0 <= j < |head|
      ensures !OccursAt(t, "[", j)
    {
      assert t[j..j + 1][0] == head[j];
    }
    assert t[..|head|] == head && t[|head| + 1..] == tail;
  }

  /** The generic nullable of a basic type is supported: `sql.Null[int64]`. */
  lemma GenericNullInt64()
    ensures IsTypeSupported("sql.Null[int64]", true)
  {
    GenericNullPieces();
    CutAtBracket("sql.Null", "int64]");
    Int64Trimmed();
  }

  lemma GenericNullPieces()
    ensures "sql.Null" + "[" + "int64]" == "sql.Null[int64]"
    ensures '[' !in "sql.Null"
  {
  }

  /** The argument of `sql.Null[int64]` is the basic type `int64`. */
  lemma Int64Trimmed()
    ensures TrimSuffix("int64]", "]") == "int64"
    ensures "int64" in SupportedBasicType
  {
    assert "int64]" == "int64" + "]";
    assert SupportedBasicType[1] == "int64";
  }

  /** Only the head `sql.Null` is accepted generically: `sql.NullInt64[int64]` is not. */
  lemma GenericOtherHead()
    ensures !IsTypeSupported("sql.NullInt64[int64]", true)
  {
    CutAtBracket("sql.NullInt64", "int64]");
    assert "sql.NullInt64" + "[" + "int64]" == "sql.NullInt64[int64]";
  }
}
