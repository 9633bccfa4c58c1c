/**
 * The nullable column wrappers `Int64`, `Int32`, `Int16`, `Byte`, `Bool`
 * and `String`: each embeds a `database/sql` null type, a value beside a
 * `Valid` flag, and adds JSON `null` handling (section 3 of RFC 8259: `null`
 * is one of the three literal names), constructors and getters.
 *
 * The six types share one shape, so the record is generic in the value; the
 * members that differ per type (`String`, the value's zero) are per type.
 * `json.Marshal`/`json.Unmarshal` of the value itself are library code and
 * enter as parameters.
 */
module Nullable {
  import opened Wrappers
  import opened Strs

  newtype int64 = x: int | -0x8000_0000_0000_0000 <= x < 0x8000_0000_0000_0000
  newtype int32 = x: int | -0x8000_0000 <= x < 0x8000_0000
  newtype int16 = x: int | -0x8000 <= x < 0x8000
  newtype byte = x: int | 0 <= x < 0x100

  /** A `sql.NullInt64`-style record: the value is kept, stale, while `valid` is false. */
  datatype NullValue<T> = NullValue(v: T, valid: bool)

  /** The JSON literal `null` as bytes. */
  const NullBytes: seq<byte> := [0x6e, 0x75, 0x6c, 0x6c]

  /**
   * `b2s`: the same bytes read as a string, one character per byte. Strings
   * elsewhere hold one character per rune; the result here only meets the
   * `== "null"` test, where both readings agree since `null` is ASCII.
   */
  function B2s(data: seq<byte>): (r: string)
    ensures |r| == |data|
    ensures forall i :: 0 <= i < |data| ==> r[i] as int == data[i] as int
  {
    if |data| == 0 then ""
    else seq(|data|, i requires 0 <= i < |data| => data[i] as char)
  }

  /** The `null` check of `UnmarshalJSON` accepts exactly the four bytes of `null`. */
  lemma NullCheck(data: seq<byte>)
    ensures B2s(data) == "null" <==> data == NullBytes
  {
    if B2s(data) == "null" {
      assert forall i :: 0 <= i < 4 ==> data[i] as int == "null"[i] as int;
      assert data == NullBytes;
    }
    if data == NullBytes {
      var r := B2s(data);
      assert forall i :: 0 <= i < 4 ==> r[i] == "null"[i];
    }
  }

  /** `Int64From` and its siblings: a valid record holding `x`. */
  function From<T>(x: T): (r: NullValue<T>)
    ensures r.valid && r.v == x
  {
    NullValue(x, true)
  }

  /** `Int64FromPtr` and its siblings: the null record (holding the zero value) for `nil`, otherwise `From`. */
  function FromPtr<T>(p: Option<T>, zero: T): (r: NullValue<T>)
    ensures r.valid <==> p.Some?
    ensures p.Some? ==> r == From(p.value)
    ensures p.None? ==> r.v == zero
  {
    match p
    case None => NullValue(zero, false)
    case Some(x) => From(x)
  }

  /** `IsNull`. */
  predicate IsNull<T>(n: NullValue<T>)
  {
    !n.valid
  }

  /** `IsZero`: null and holding the zero value. */
  predicate IsZero<T(==)>(n: NullValue<T>, zero: T)
    ensures IsZero(n, zero) ==> IsNull(n) && GetOrElse(n, zero) == zero
  {
    !n.valid && n.v == zero
  }

  /** `Ptr`: the value when valid, `nil` otherwise. */
  function Ptr<T>(n: NullValue<T>): (r: Option<T>)
    ensures r.None? <==> IsNull(n)
    ensures r.Some? ==> r.value == n.v
  {
    if n.valid then Some(n.v) else None
  }

  /** `GetOrElse`: the value when valid, the default otherwise. */
  function GetOrElse<T>(n: NullValue<T>, d: T): T
  {
    if n.valid then n.v else d
  }

  /** `GetOrElse` is `Ptr` with the `nil` case replaced by the default. */
  lemma GetOrElseByPtr<T>(n: NullValue<T>, d: T)
    ensures GetOrElse(n, d) == match Ptr(n) case Some(x) => x case None => d
  {
  }

  /** `FromPtr` and `Ptr` are inverse: a pointer survives the round trip. */
  lemma PtrFromPtr<T>(p: Option<T>, zero: T)
    ensures Ptr(FromPtr(p, zero)) == p
  {
  }

  /** A record survives the other round trip when it is valid or the zero null record. */
  lemma FromPtrPtr<T>(n: NullValue<T>, zero: T)
    requires n.valid || IsZero(n, zero)
    ensures FromPtr(Ptr(n), zero) == n
  {
  }

  /** Records built from a value are never null; the one built from `nil` is the zero record. */
  lemma ConstructedNullness<T>(x: T, zero: T)
    ensures !IsNull(From(x)) && !IsZero(From(x), zero)
    ensures IsNull(FromPtr(None, zero)) && IsZero(FromPtr(None, zero), zero)
  {
  }

  /**
   * `MarshalJSON`: the bytes `null` for a null record, otherwise
   * `json.Marshal` of the value, given here as `encode`.
   */
  function MarshalJSON<T>(n: NullValue<T>, encode: T -> seq<byte>): (r: seq<byte>)
    ensures !n.valid ==> r == NullBytes
  {
    if !n.valid then NullBytes else encode(n.v)
  }

  /**
   * `UnmarshalJSON` as a function of the record before it: `null` clears
   * `valid` and keeps the value; anything else is handed to `json.Unmarshal`,
   * whose outcome is `decoded`, and either fails leaving the record as it
   * was, or sets the value and `valid`.
   */
  function Unmarshalled<T>(n: NullValue<T>, data: seq<byte>, decoded: Result<T, string>): (r: (NullValue<T>, Option<string>))
  {
    if B2s(data) == "null" then (n.(valid := false), None)
    else
      match decoded
      case Err(e) => (n, Some(e))
      case Ok(x) => (From(x), None)
  }

  /** The `null` path: `valid` cleared, the value kept, no error; and only `null` takes that path without a decoder. */
  lemma UnmarshalNull<T>(n: NullValue<T>, data: seq<byte>, decoded: Result<T, string>)
    ensures data == NullBytes ==> Unmarshalled(n, data, decoded) == (NullValue(n.v, false), None)
    ensures data != NullBytes ==> Unmarshalled(n, data, decoded).0.valid == (decoded.Ok? || n.valid)
  {
    NullCheck(data);
  }

  /** A null record written as JSON reads back as null, whatever was in the record it is read into. */
  lemma NullRoundTrip<T>(n: NullValue<T>, m: NullValue<T>, encode: T -> seq<byte>, decoded: Result<T, string>)
    requires !n.valid
    ensures var (r, err) := Unmarshalled(m, MarshalJSON(n, encode), decoded);
      IsNull(r) && r.v == m.v && err.None?
  {
    NullCheck(NullBytes);
  }

  /** A valid record written as JSON reads back as itself when the value's own encoding is decoded back and is not `null`. */
  lemma ValidRoundTrip<T>(n: NullValue<T>, m: NullValue<T>, encode: T -> seq<byte>)
    requires n.valid && encode(n.v) != NullBytes
    ensures Unmarshalled(m, MarshalJSON(n, encode), Ok(n.v)) == (n, None)
  {
    NullCheck(encode(n.v));
  }

  /**
   * A field of a nullable type, decoded in place: `json.Unmarshal` calls
   * `UnmarshalJSON` through a pointer to it.
   */
  class NullableField<T> {
    var v: T
    var valid: bool

    constructor (n: NullValue<T>)
      ensures Value() == n
    {
      v := n.v;
      valid := n.valid;
    }

    /** The record the field holds. */
    function Value(): NullValue<T>
      reads this
    {
      NullValue(v, valid)
    }

    /** `UnmarshalJSON` with a pointer receiver: the field is updated, the error returned. */
    method UnmarshalJSON(data: seq<byte>, decoded: Result<T, string>) returns (err: Option<string>)
      modifies this
      ensures (Value(), err) == Unmarshalled(old(Value()), data, decoded)
    {
      if B2s(data) == "null" {
        valid := false;
        return None;
      }
      if decoded.Err? {
        return Some(decoded.error);
      }
      v := decoded.value;
      valid := true;
      err := None;
    }
  }

  /** The text of a null record in every `String` method: `<nil>`. */
  const NilText: string := "<nil>"

  /** Decimal text is never `<nil>`. */
  lemma ItoaNotNil(x: int)
    ensures Itoa(x) != NilText
  {
    var r := Itoa(x);
    var d := NatToString(if x >= 0 then x else -x);
    assert r[|r| - 1] == d[|d| - 1];
    assert IsDigit(d[|d| - 1]);
    assert NilText[4] == '>';
  }

  /** Decimal text of a 64-bit integer reads back as that integer with `strconv.Atoi`. */
  lemma ItoaParses(x: int)
    requires MinInt64 <= x <= MaxInt64
    ensures AtoiOk(Itoa(x)) && AtoiValue(Itoa(x)) == x
  {
    var d := NatToString(if x >= 0 then x else -x);
    if x < 0 {
      assert Itoa(x)[1..] == d;
    }
  }

  /** `Int32.String`: `<nil>` when null, otherwise `strconv.FormatInt` in base 10. */
  function Int32String(n: NullValue<int32>): string
  {
    if !n.valid then NilText else Itoa(n.v as int)
  }

  /** `Int16.String`, the same as `Int32.String` on 16 bits. */
  function Int16String(n: NullValue<int16>): string
  {
    if !n.valid then NilText else Itoa(n.v as int)
  }

  /** `Byte.String`: `<nil>` when null, otherwise `strconv.FormatUint` in base 10. */
  function ByteString(n: NullValue<byte>): string
  {
    if !n.valid then NilText else NatToString(n.v as nat)
  }

  /** `Bool.String`: `<nil>` when null, otherwise `true` or `false`. */
  function BoolString(n: NullValue<bool>): string
  {
    if !n.valid then NilText else if n.v then "true" else "false"
  }

  /** `Int64.String` as written: the test is inverted, so a valid record prints `<nil>` and a null one its stale value. */
  function Int64StringAsWritten(n: NullValue<int64>): string
  {
    if n.valid then NilText else Itoa(n.v as int)
  }

  /** `Int64.String` as its siblings have it: `<nil>` when null, otherwise the value in base 10. */
  function Int64String(n: NullValue<int64>): string
  {
    if !n.valid then NilText else Itoa(n.v as int)
  }

  /** `Int32.String` is `<nil>` exactly for a null record, and otherwise reads back as the value. */
  lemma Int32StringSpec(n: NullValue<int32>)
    ensures Int32String(n) == NilText <==> !n.valid
    ensures n.valid ==> AtoiOk(Int32String(n)) && AtoiValue(Int32String(n)) == n.v as int
  {
    ItoaNotNil(n.v as int);
    ItoaParses(n.v as int);
  }

  /** `Int16.String` is `<nil>` exactly for a null record, and otherwise reads back as the value. */
  lemma Int16StringSpec(n: NullValue<int16>)
    ensures Int16String(n) == NilText <==> !n.valid
    ensures n.valid ==> AtoiOk(Int16String(n)) && AtoiValue(Int16String(n)) == n.v as int
  {
    ItoaNotNil(n.v as int);
    ItoaParses(n.v as int);
  }

  /** `Byte.String` is `<nil>` exactly for a null record, and otherwise is the value's digits. */
  lemma ByteStringSpec(n: NullValue<byte>)
    ensures ByteString(n) == NilText <==> !n.valid
    ensures n.valid ==> AllDigits(ByteString(n)) && DigitsValue(ByteString(n)) == n.v as int
  {
    ItoaNotNil(n.v as int);
  }

  /** `Bool.String` is `<nil>` exactly for a null record, and otherwise reads back as the value with `strconv.ParseBool`. */
  lemma BoolStringSpec(n: NullValue<bool>)
    ensures BoolString(n) == NilText <==> !n.valid
    ensures n.valid ==> ParseBool(BoolString(n)) == Some(n.v)
  {
  }

  /** The corrected `Int64.String` is `<nil>` exactly for a null record, and otherwise reads back as the value. */
  lemma Int64StringSpec(n: NullValue<int64>)
    ensures Int64String(n) == NilText <==> !n.valid
    ensures n.valid ==> AtoiOk(Int64String(n)) && AtoiValue(Int64String(n)) == n.v as int
  {
    ItoaNotNil(n.v as int);
    ItoaParses(n.v as int);
  }

  /** As written, `Int64.String` hides every valid value and prints null records as numbers. */
  lemma Int64StringInverted(n: NullValue<int64>)
    ensures Int64StringAsWritten(n) == NilText <==> n.valid
    ensures Int64StringAsWritten(n) != Int64String(n)
  {
    ItoaNotNil(n.v as int);
  }

  /** The input that shows it: `Int64From(42)` prints `<nil>`, `Int64FromPtr(nil)` prints `0`. */
  lemma Int64StringWitness()
    ensures Int64StringAsWritten(From(42 as int64)) == NilText
    ensures Int64StringAsWritten(FromPtr(None, 0 as int64)) == "0"
  {
  }
}
