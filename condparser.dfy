/**
 * The condition mini-language of the code generator: text such as
 * `{1.EQ & status.GT} | 3.LT` names columns by 1-based index or by name,
 * joins units with `&` and `|`, and groups them with one level of braces.
 * A parsed condition renders as a SQL fragment plus the Go types of its
 * `?` parameters.
 */
module CondParser {
  import opened Wrappers
  import opened Strs

  /** The ten operator names a unit may carry after its `.`. */
  const Operators: seq<string> :=
    ["EQ", "NE", "LT", "GT", "LE", "GE", "IN", "LIKE", "ISNULL", "ISNOTNULL"]

  /** `op` is one of `Operators` from position `i` on. */
  predicate OperatorFrom(op: string, i: nat)
    decreases |Operators| - i
  {
    i < |Operators| && (Operators[i] == op || OperatorFrom(op, i + 1))
  }

  predicate IsOperator(op: string)
  {
    OperatorFrom(op, 0)
  }

  datatype Column = Column(name: string, typ: string)

  datatype Table = Table(name: string, columns: seq<Column>)

  /**
   * A parsed condition. `Simple` is one unit; `fieldId` is the text naming
   * the column, an index when `isIndex` holds.
   */
  datatype Condition =
    | Simple(fieldId: string, isIndex: bool, operator: string)
    | And(left: Condition, right: Condition)
    | Or(left: Condition, right: Condition)
    | Group(inner: Condition)

  datatype ParseError =
    | Unbalanced(text: string)
    | NestedBraces
    | IndexOutOfRange(index: int, count: int)
    | MissingDot(unit: string)
    | InvalidOperator(operator: string, unit: string)
    | FieldNotFound(field: string)
  {
    /** The errors the parser proper can report, about one unit. */
    predicate UnitError()
    {
      IndexOutOfRange? || MissingDot? || InvalidOperator? || FieldNotFound?
    }
  }

  datatype SqlError = UnsupportedOperator(operator: string)

  /** A rendered condition: the SQL text and one Go type per `?`. */
  datatype Fragment = Fragment(sql: string, params: seq<string>)

  // ---------------------------------------------------------------------
  // Braces

  function Step(c: char): int
  {
    if c == '{' then 1 else if c == '}' then -1 else 0
  }

  /** The brace depth after reading `s[..k]`: opening braces minus closing ones. */
  function Depth(s: string, k: nat): int
    requires k <= |s|
  {
    if k == 0 then 0 else Depth(s, k - 1) + Step(s[k - 1])
  }

  /** The depth never drops below zero and ends at zero. */
  predicate Balanced(s: string)
  {
    (forall k :: 0 <= k <= |s| ==> Depth(s, k) >= 0) && Depth(s, |s|) == 0
  }

  /** `hasBalancedBraces`: one pass with a depth counter, giving up as soon as it goes negative. */
  method HasBalancedBraces(s: string) returns (b: bool)
    ensures b <==> Balanced(s)
  {
    var depth := 0;
    var i := 0;
    while i < |s|
      invariant 0 <= i <= |s|
      invariant depth == Depth(s, i)
      invariant forall k :: 0 <= k <= i ==> Depth(s, k) >= 0
    {
      if s[i] == '{' {
        depth := depth + 1;
      } else if s[i] == '}' {
        depth := depth - 1;
        if depth < 0 {
          assert Depth(s, i + 1) < 0;
          return false;
        }
      }
      i := i + 1;
    }
    return depth == 0;
  }

  /** Every recorded opening position lies before `i`. */
  predicate StackBelow(stack: seq<int>, i: int)
  {
    forall j :: 0 <= j < |stack| ==> 0 <= stack[j] < i
  }

  /**
   * The scan of `hasNestedBraces` from position `i` with the positions of the
   * still open braces on `stack`: a closing brace pops its opening partner and
   * reports nesting when the text between them holds both a `{` and a `}`; a
   * closing brace with nothing open is skipped.
   */
  function NestedScan(s: string, i: nat, stack: seq<int>): bool
    requires i <= |s| && StackBelow(stack, i)
    decreases |s| - i
  {
    if i == |s| then false
    else if s[i] == '{' then NestedScan(s, i + 1, stack + [i])
    else if s[i] == '}' then
      if |stack| == 0 then NestedScan(s, i + 1, stack)
      else
        var start := stack[|stack| - 1];
        var inner := s[start + 1..i];
        if '{' in inner && '}' in inner then true
        else NestedScan(s, i + 1, stack[..|stack| - 1])
    else NestedScan(s, i + 1, stack)
  }

  /** Whether some matched pair of braces encloses another brace pair. */
  predicate HasNested(s: string)
  {
    NestedScan(s, 0, [])
  }

  /** `hasNestedBraces`: the same scan with the stack kept in a variable. */
  method HasNestedBraces(s: string) returns (b: bool)
    ensures b == HasNested(s)
  {
    var stack: seq<int> := [];
    var i := 0;
    while i < |s|
      invariant 0 <= i <= |s| && StackBelow(stack, i)
      invariant NestedScan(s, i, stack) == HasNested(s)
    {
      if s[i] == '{' {
        stack := stack + [i];
      } else if s[i] == '}' && |stack| > 0 {
        var start := stack[|stack| - 1];
        stack := stack[..|stack| - 1];
        var inner := s[start + 1..i];
        if '{' in inner && '}' in inner {
          return true;
        }
      }
      i := i + 1;
    }
    return false;
  }

  /** What the nested-brace scan keeps about its stack in a balanced text. */
  predicate ScanState(s: string, i: nat, stack: seq<int>)
    requires i <= |s|
  {
    StackBelow(stack, i) &&
    |stack| == Depth(s, i) &&
    (forall j :: 0 <= j < |stack| ==> s[stack[j]] == '{') &&
    (forall j :: 0 < j < |stack| ==> stack[j - 1] < stack[j])
  }

  lemma SliceExtend(s: string, a: int, b: int)
    requires 0 <= a <= b < |s|
    ensures s[a..b + 1] == s[a..b] + [s[b]]
  {
  }

  /**
   * Where the depth stays at most one, the single open brace never encloses
   * another opening brace, so the scan finds nothing.
   */
  lemma {:induction false} ShallowScan(s: string, i: nat, stack: seq<int>)
    requires i <= |s| && ScanState(s, i, stack)
    requires forall k :: i <= k <= |s| ==> 0 <= Depth(s, k) <= 1
    requires |stack| == 1 ==> '{' !in s[stack[0] + 1..i]
    ensures !NestedScan(s, i, stack)
    decreases |s| - i
  {
    if i < |s| {
      assert Depth(s, i + 1) == Depth(s, i) + Step(s[i]);
      if s[i] == '{' {
        assert s[i + 1..i + 1] == [];
        ShallowScan(s, i + 1, stack + [i]);
      } else if s[i] == '}' {
        assert stack[..|stack| - 1] == [];
        ShallowScan(s, i + 1, []);
      } else {
        if |stack| == 1 {
          SliceExtend(s, stack[0] + 1, i);
        }
        ShallowScan(s, i + 1, stack);
      }
    }
  }

  /**
   * Once the depth reaches two, or the top brace already encloses a brace
   * pair, the scan of a balanced text reports nesting: the enclosing brace is
   * closed later and its inner text then holds both braces.
   */
  lemma {:induction false} DeepScan(s: string, i: nat, stack: seq<int>)
    requires i <= |s| && ScanState(s, i, stack)
    requires forall k :: i <= k <= |s| ==> Depth(s, k) >= 0
    requires Depth(s, |s|) == 0
    requires (exists k :: i <= k <= |s| && Depth(s, k) >= 2) || |stack| >= 2 ||
             (|stack| >= 1 && '{' in s[stack[|stack| - 1] + 1..i] && '}' in s[stack[|stack| - 1] + 1..i])
    ensures NestedScan(s, i, stack)
    decreases |s| - i, 1
  {
    if i == |s| {
      assert false;
    } else if s[i] == '{' {
      DeepOpen(s, i, stack);
    } else if s[i] == '}' {
      DeepClose(s, i, stack);
    } else {
      DeepOther(s, i, stack);
    }
  }

  /** `DeepScan` at an opening brace: it is pushed, and what was pending stays pending. */
  lemma {:induction false} DeepOpen(s: string, i: nat, stack: seq<int>)
    requires i < |s| && s[i] == '{' && ScanState(s, i, stack)
    requires forall k :: i <= k <= |s| ==> Depth(s, k) >= 0
    requires Depth(s, |s|) == 0
    requires (exists k :: i <= k <= |s| && Depth(s, k) >= 2) || |stack| >= 2 ||
             (|stack| >= 1 && '{' in s[stack[|stack| - 1] + 1..i] && '}' in s[stack[|stack| - 1] + 1..i])
    ensures NestedScan(s, i, stack)
    decreases |s| - i, 0
  {
    assert Depth(s, i + 1) == Depth(s, i) + Step(s[i]);
    var next := stack + [i];
    assert |next| >= 2 || exists k :: i + 1 <= k <= |s| && Depth(s, k) >= 2;
    DeepScan(s, i + 1, next);
  }

  /**
   * `DeepScan` at a closing brace: either the pair it closes encloses both
   * braces, or the pair below it (or a later depth of two) is still pending.
   */
  lemma {:induction false} DeepClose(s: string, i: nat, stack: seq<int>)
    requires i < |s| && s[i] == '}' && ScanState(s, i, stack)
    requires forall k :: i <= k <= |s| ==> Depth(s, k) >= 0
    requires Depth(s, |s|) == 0
    requires (exists k :: i <= k <= |s| && Depth(s, k) >= 2) || |stack| >= 2 ||
             (|stack| >= 1 && '{' in s[stack[|stack| - 1] + 1..i] && '}' in s[stack[|stack| - 1] + 1..i])
    ensures NestedScan(s, i, stack)
    decreases |s| - i, 0
  {
    assert Depth(s, i + 1) == Depth(s, i) + Step(s[i]);
    var start := stack[|stack| - 1];
    var inner := s[start + 1..i];
    if !('{' in inner && '}' in inner) {
      var rest := stack[..|stack| - 1];
      if |stack| >= 2 {
        var top := rest[|rest| - 1];
        assert top < start;
        assert s[top + 1..i + 1][start - top - 1] == '{';
        assert s[top + 1..i + 1][i - top - 1] == '}';
      } else {
        assert exists k :: i + 1 <= k <= |s| && Depth(s, k) >= 2;
      }
      DeepScan(s, i + 1, rest);
    }
  }

  /** `DeepScan` at any other character: the top pair's inner text grows by it. */
  lemma {:induction false} DeepOther(s: string, i: nat, stack: seq<int>)
    requires i < |s| && s[i] != '{' && s[i] != '}' && ScanState(s, i, stack)
    requires forall k :: i <= k <= |s| ==> Depth(s, k) >= 0
    requires Depth(s, |s|) == 0
    requires (exists k :: i <= k <= |s| && Depth(s, k) >= 2) || |stack| >= 2 ||
             (|stack| >= 1 && '{' in s[stack[|stack| - 1] + 1..i] && '}' in s[stack[|stack| - 1] + 1..i])
    ensures NestedScan(s, i, stack)
    decreases |s| - i, 0
  {
    assert Depth(s, i + 1) == Depth(s, i) + Step(s[i]);
    if |stack| >= 1 {
      SliceExtend(s, stack[|stack| - 1] + 1, i);
    }
    if |stack| < 2 {
      assert (exists k :: i + 1 <= k <= |s| && Depth(s, k) >= 2) ||
             (|stack| >= 1 && '{' in s[stack[|stack| - 1] + 1..i + 1] && '}' in s[stack[|stack| - 1] + 1..i + 1]);
    }
    DeepScan(s, i + 1, stack);
  }

  /** In a balanced text, some brace pair encloses another exactly when the depth reaches two. */
  lemma NestedIffDeep(s: string)
    requires Balanced(s)
    ensures HasNested(s) <==> exists k :: 0 <= k <= |s| && Depth(s, k) >= 2
  {
    if exists k :: 0 <= k <= |s| && Depth(s, k) >= 2 {
      var k :| 0 <= k <= |s| && Depth(s, k) >= 2;
      assert ScanState(s, 0, []);
      assert exists k :: 0 <= k <= |s| && Depth(s, k) >= 2;
      var st: seq<int> := [];
      assert (exists k :: 0 <= k <= |s| && Depth(s, k) >= 2) || |st| >= 2;
      DeepScan(s, 0, st);
    } else {
      ShallowScan(s, 0, []);
    }
  }

  /** `isSingleLevelGroup`: the whole text is `{...}` with no brace inside. */
  predicate IsSingleLevelGroup(s: string)
  {
    |s| >= 2 && s[0] == '{' && s[|s| - 1] == '}' && NoBraces(s[1..|s| - 1])
  }

  /** Neither `{` nor `}` occurs. */
  predicate NoBraces(s: string)
  {
    |s| == 0 || (s[0] != '{' && s[0] != '}' && NoBraces(s[1..]))
  }

  lemma {:induction false} NoBracesIff(s: string)
    ensures NoBraces(s) <==> '{' !in s && '}' !in s
  {
    if |s| > 0 {
      NoBracesIff(s[1..]);
      assert s == [s[0]] + s[1..];
    }
  }

  // ---------------------------------------------------------------------
  // Operators

  /**
   * The leftmost position from `i` on holding `op` where the depth, counted
   * through that character, is zero; -1 if there is none.
   */
  function OutermostFrom(s: string, op: char, i: nat): (r: int)
    requires i <= |s|
    ensures r == -1 || i <= r < |s|
    decreases |s| - i
  {
    if i == |s| then -1
    else if s[i] == op && Depth(s, i + 1) == 0 then i
    else OutermostFrom(s, op, i + 1)
  }

  /** The scan from `i` finds the leftmost `op` at depth zero from `i` on, or -1 when there is none. */
  lemma {:induction false} OutermostFromLeftmost(s: string, op: char, i: nat)
    requires i <= |s|
    ensures var r := OutermostFrom(s, op, i);
      (r == -1 || (s[r] == op && Depth(s, r + 1) == 0)) &&
      forall j :: i <= j < |s| && (r == -1 || j < r) ==> !(s[j] == op && Depth(s, j + 1) == 0)
    decreases |s| - i
  {
    if i < |s| && !(s[i] == op && Depth(s, i + 1) == 0) {
      OutermostFromLeftmost(s, op, i + 1);
    }
  }

  function OutermostIndex(s: string, op: char): (r: int)
    ensures r == -1 || 0 <= r < |s|
  {
    OutermostFrom(s, op, 0)
  }

  /** `findOutermostOperator`: the counting loop finds the leftmost `op` at depth zero. */
  method FindOutermostOperator(s: string, op: char) returns (r: int)
    ensures r == OutermostIndex(s, op)
  {
    var depth := 0;
    var i := 0;
    while i < |s|
      invariant 0 <= i <= |s|
      invariant depth == Depth(s, i)
      invariant OutermostFrom(s, op, i) == OutermostIndex(s, op)
    {
      if s[i] == '{' {
        depth := depth + 1;
      } else if s[i] == '}' {
        depth := depth - 1;
      }
      if depth == 0 && s[i] == op {
        return i;
      }
      i := i + 1;
    }
    return -1;
  }

  /** Without braces the depth stays zero, so the outermost operator is the first one. */
  lemma {:induction false} BraceFreeOutermost(s: string, op: char, i: nat)
    requires i <= |s| && '{' !in s && '}' !in s
    ensures OutermostFrom(s, op, i) == (var k := IndexOf(s[i..], op); if k == -1 then -1 else i + k)
    decreases |s| - i
  {
    DepthBraceFree(s, i);
    if i < |s| {
      DepthBraceFree(s, i + 1);
      BraceFreeOutermost(s, op, i + 1);
      assert s[i..][1..] == s[i + 1..];
    }
  }

  lemma {:induction false} DepthBraceFree(s: string, k: nat)
    requires k <= |s| && '{' !in s && '}' !in s
    ensures Depth(s, k) == 0
  {
    if k > 0 {
      DepthBraceFree(s, k - 1);
    }
  }

  // ---------------------------------------------------------------------
  // Units

  /** `isPureNumber`: non-empty and decimal digits only. */
  predicate PureNumber(s: string)
  {
    |s| > 0 && AllDigits(s)
  }

  method IsPureNumber(s: string) returns (b: bool)
    ensures b <==> PureNumber(s)
  {
    if |s| == 0 {
      return false;
    }
    var i := 0;
    while i < |s|
      invariant 0 <= i <= |s|
      invariant forall j :: 0 <= j < i ==> IsDigit(s[j])
    {
      if s[i] < '0' || s[i] > '9' {
        return false;
      }
      i := i + 1;
    }
    return true;
  }

  /** The first column whose name equals `name` ignoring case, or -1. */
  function ColumnIndex(cols: seq<Column>, name: string): (r: int)
    ensures -1 <= r < |cols|
    ensures r >= 0 ==> EqualFold(cols[r].name, name)
    ensures forall j :: 0 <= j < |cols| && (r == -1 || j < r) ==> !EqualFold(cols[j].name, name)
  {
    if |cols| == 0 then -1
    else if EqualFold(cols[0].name, name) then 0
    else
      var k := ColumnIndex(cols[1..], name);
      if k == -1 then -1 else k + 1
  }

  /** The column lookup loop shared by `parseSimpleCondition` and `getFieldType`. */
  method FindColumn(cols: seq<Column>, name: string) returns (r: int)
    ensures r == ColumnIndex(cols, name)
  {
    var i := 0;
    while i < |cols|
      invariant 0 <= i <= |cols|
      invariant forall j :: 0 <= j < i ==> !EqualFold(cols[j].name, name)
    {
      if EqualFold(cols[i].name, name) {
        return i;
      }
      i := i + 1;
    }
    return -1;
  }

  /** A field index that `ToSQL` can look up: a 1-based position in the table. */
  predicate IndexInRange(fieldId: string, table: Table)
  {
    1 <= AtoiValue(fieldId) <= |table.columns|
  }

  /** A unit naming its column by index: accepted when the index lies within the table. */
  function IndexedUnit(field: string, op: string, table: Table): (r: Result<Condition, ParseError>)
    ensures r.Ok? <==> IndexInRange(field, table)
    ensures r.Ok? ==> r.value == Simple(field, true, op)
  {
    if IndexInRange(field, table) then Ok(Simple(field, true, op))
    else Err(IndexOutOfRange(AtoiValue(field), |table.columns|))
  }

  /** A unit `field.op` whose operator is known: the field is an index or a column name. */
  function FieldUnit(field: string, op: string, table: Table): (r: Result<Condition, ParseError>)
    requires IsOperator(op)
    ensures r.Ok? ==> r.value.Simple?
    ensures r.Err? ==> r.error.UnitError()
    ensures r.Ok? ==> WellFormed(r.value, table)
  {
    if PureNumber(field) then IndexedUnit(field, op, table)
    else if ColumnIndex(table.columns, field) == -1 then Err(FieldNotFound(field))
    else Ok(Simple(field, false, op))
  }

  /** A unit with a `.`: the text after the first `.`, upper-cased, must be a known operator. */
  function DottedUnit(u: string, dot: nat, table: Table): (r: Result<Condition, ParseError>)
    requires dot < |u|
    ensures r.Ok? ==> r.value.Simple?
    ensures r.Err? ==> r.error.UnitError()
    ensures r.Ok? ==> WellFormed(r.value, table)
  {
    var op := ToUpper(u[dot + 1..]);
    if !IsOperator(op) then Err(InvalidOperator(op, u))
    else FieldUnit(u[..dot], op, table)
  }

  /** `parseSimpleCondition`. */
  function ParseSimple(unit: string, table: Table): (r: Result<Condition, ParseError>)
    ensures r.Ok? ==> r.value.Simple?
    ensures r.Err? ==> r.error.UnitError()
    ensures r.Ok? ==> WellFormed(r.value, table)
  {
    var u := TrimSpace(unit);
    if PureNumber(u) then
      assert IsOperator("EQ");
      IndexedUnit(u, "EQ", table)
    else
      var dot := IndexOf(u, '.');
      if dot == -1 then Err(MissingDot(u))
      else DottedUnit(u, dot, table)
  }

  /** Joins two parsed sides: the left side's error first, then the right side's. */
  function Join2(isOr: bool, left: Result<Condition, ParseError>, right: Result<Condition, ParseError>): (r: Result<Condition, ParseError>)
    ensures r.Ok? <==> left.Ok? && right.Ok?
    ensures r.Ok? ==> r.value == (if isOr then Or(left.value, right.value) else And(left.value, right.value))
  {
    if left.Err? then left
    else if right.Err? then right
    else if isOr then Ok(Or(left.value, right.value))
    else Ok(And(left.value, right.value))
  }

  /**
   * `parseConditionInternal`: trim the text and unwrap a single-level group
   * `{...}`. The source re-enters itself on the group's inside; that inside
   * holds no brace, so the re-entry trims it and goes straight on to the
   * operators, as here (`UnwrapGroup` states the re-entry).
   */
  function ParseInternal(s: string, table: Table): (r: Result<Condition, ParseError>)
    ensures r.Err? ==> r.error.UnitError()
    ensures r.Ok? ==> WellFormed(r.value, table)
    decreases 2 * |s| + 1, 0
  {
    ParseOperators(Unwrapped(s), table)
  }

  /** The text trimmed and, when it is a single-level group, the group's trimmed inside. */
  function Unwrapped(s: string): (r: string)
    ensures |r| <= |s|
  {
    var t := TrimSpace(s);
    if IsSingleLevelGroup(t) then
      var inner := t[1..|t| - 1];
      assert |inner| < |t|;
      TrimSpace(inner)
    else t
  }

  /** The rest of `parseConditionInternal`: split at the outermost `|`, else at the outermost `&`, else one unit. */
  function ParseOperators(t: string, table: Table): (r: Result<Condition, ParseError>)
    ensures r.Err? ==> r.error.UnitError()
    ensures r.Ok? ==> WellFormed(r.value, table)
    decreases 2 * |t|, 1
  {
    var orAt := OutermostIndex(t, '|');
    if orAt != -1 then SplitAt(t, orAt, true, table)
    else
      var andAt := OutermostIndex(t, '&');
      if andAt != -1 then SplitAt(t, andAt, false, table)
      else ParseSimple(t, table)
  }

  /** Both sides of the operator at `at`, each parsed on its own, joined by it. */
  function SplitAt(t: string, at: nat, isOr: bool, table: Table): (r: Result<Condition, ParseError>)
    requires at < |t|
    ensures r.Err? ==> r.error.UnitError()
    ensures r.Ok? ==> WellFormed(r.value, table)
    decreases 2 * |t|, 0
  {
    Join2(isOr, ParseInternal(t[..at], table), ParseInternal(t[at + 1..], table))
  }

  /** `ParseOperators` splits at the outermost `|` when there is one. */
  lemma OrStep(t: string, i: int, table: Table)
    requires OutermostIndex(t, '|') == i != -1
    ensures ParseOperators(t, table) == Join2(true, ParseInternal(t[..i], table), ParseInternal(t[i + 1..], table))
  {
  }

  /** Without an outermost `|`, `ParseOperators` splits at the outermost `&` when there is one. */
  lemma AndStep(t: string, i: int, table: Table)
    requires OutermostIndex(t, '|') == -1 && OutermostIndex(t, '&') == i != -1
    ensures ParseOperators(t, table) == Join2(false, ParseInternal(t[..i], table), ParseInternal(t[i + 1..], table))
  {
  }

  /** Without an outermost operator, the text is one unit. */
  lemma UnitStep(t: string, table: Table)
    requires OutermostIndex(t, '|') == -1 && OutermostIndex(t, '&') == -1
    ensures ParseOperators(t, table) == ParseSimple(t, table)
  {
  }

  /** `ParseCondition`: trim, reject unbalanced braces, reject nested braces, then parse. */
  function ParseCondition(s: string, table: Table): (r: Result<Condition, ParseError>)
  {
    var t := TrimSpace(s);
    if !Balanced(t) then Err(Unbalanced(t))
    else if HasNested(t) then Err(NestedBraces)
    else ParseInternal(t, table)
  }

  // ---------------------------------------------------------------------
  // Rendering

  /** The Go type a declared SQL column type maps to, tested in a fixed order. */
  function GoTypeOf(colType: string): string
  {
    var t := ToUpper(colType);
    if ContainsSub(t, "INT") || ContainsSub(t, "TINYINT") then "int"
    else if ContainsSub(t, "VARCHAR") || ContainsSub(t, "TEXT") then "string"
    else if ContainsSub(t, "BOOLEAN") then "bool"
    else if ContainsSub(t, "DECIMAL") || ContainsSub(t, "FLOAT") then "float64"
    else if ContainsSub(t, "DATE") || ContainsSub(t, "TIME") then "time.Time"
    else "interface{}"
  }

  /** The type mapping answers one of six Go types. */
  lemma GoTypeOfRange(colType: string)
    ensures GoTypeOf(colType) in {"int", "string", "bool", "float64", "time.Time", "interface{}"}
  {
  }

  /** `getFieldType`: the column by index, or the first column matching the name; no match reads as "". */
  function FieldType(table: Table, fieldId: string, isIndex: bool): string
    requires isIndex ==> IndexInRange(fieldId, table)
  {
    var colType :=
      if isIndex then table.columns[AtoiValue(fieldId) - 1].typ
      else
        var k := ColumnIndex(table.columns, fieldId);
        if k == -1 then [] else table.columns[k].typ;
    GoTypeOf(colType)
  }

  /** What `ToSQL` needs to run without an index out of range. */
  predicate IndexesInRange(c: Condition, table: Table)
  {
    match c
    case Simple(f, isIndex, _) => isIndex ==> IndexInRange(f, table)
    case And(l, r) => IndexesInRange(l, table) && IndexesInRange(r, table)
    case Or(l, r) => IndexesInRange(l, table) && IndexesInRange(r, table)
    case Group(inner) => IndexesInRange(inner, table)
  }

  function OperatorSymbol(op: string): string
  {
    if op == "LT" then "<" else if op == "GT" then ">" else if op == "LE" then "<=" else ">="
  }

  /** `toSimpleSQL`. */
  function SimpleSQL(fieldId: string, isIndex: bool, op: string, table: Table): Result<Fragment, SqlError>
    requires isIndex ==> IndexInRange(fieldId, table)
  {
    var col := if isIndex then table.columns[AtoiValue(fieldId) - 1].name else fieldId;
    var t := FieldType(table, fieldId, isIndex);
    if op == "EQ" then Ok(Fragment(col + " = ?", [t]))
    else if op == "NE" then Ok(Fragment(col + " != ?", [t]))
    else if op in {"LT", "GT", "LE", "GE"} then Ok(Fragment(col + " " + OperatorSymbol(op) + " ?", [t]))
    else if op == "IN" then Ok(Fragment(col + " IN (?)", ["[]" + t]))
    else if op == "LIKE" then Ok(Fragment(col + " LIKE ?", ["string"]))
    else if op == "ISNULL" then Ok(Fragment(col + " IS NULL", []))
    else if op == "ISNOTNULL" then Ok(Fragment(col + " IS NOT NULL", []))
    else Err(UnsupportedOperator(op))
  }

  /** `Condition.ToSQL`. */
  function ToSQL(c: Condition, table: Table): Result<Fragment, SqlError>
    requires IndexesInRange(c, table)
  {
    match c
    case Simple(f, isIndex, op) => SimpleSQL(f, isIndex, op, table)
    case And(l, r) =>
      (match ToSQL(l, table)
       case Err(e) => Err(e)
       case Ok(lf) =>
         match ToSQL(r, table)
         case Err(e) => Err(e)
         case Ok(rf) => Ok(Fragment(lf.sql + " AND " + rf.sql, lf.params + rf.params)))
    case Or(l, r) =>
      (match ToSQL(l, table)
       case Err(e) => Err(e)
       case Ok(lf) =>
         match ToSQL(r, table)
         case Err(e) => Err(e)
         case Ok(rf) => Ok(Fragment(lf.sql + " OR " + rf.sql, lf.params + rf.params)))
    case Group(inner) =>
      (match ToSQL(inner, table)
       case Err(e) => Err(e)
       case Ok(f) => Ok(Fragment("(" + f.sql + ")", f.params)))
  }

  // ---------------------------------------------------------------------
  // Properties

  /**
   * The shape of every parsed condition: no group node, every operator one of
   * the ten, every index within the table, every name matching a column.
   */
  predicate WellFormed(c: Condition, table: Table)
  {
    match c
    case Simple(f, isIndex, op) =>
      IsOperator(op) &&
      (isIndex ==> PureNumber(f) && IndexInRange(f, table)) &&
      (!isIndex ==> ColumnIndex(table.columns, f) >= 0)
    case And(l, r) => WellFormed(l, table) && WellFormed(r, table)
    case Or(l, r) => WellFormed(l, table) && WellFormed(r, table)
    case Group(_) => false
  }

  predicate NoGroup(c: Condition)
  {
    match c
    case Simple(_, _, _) => true
    case And(l, r) => NoGroup(l) && NoGroup(r)
    case Or(l, r) => NoGroup(l) && NoGroup(r)
    case Group(_) => false
  }

  lemma {:induction false} WellFormedShape(c: Condition, table: Table)
    requires WellFormed(c, table)
    ensures NoGroup(c) && IndexesInRange(c, table)
  {
    match c
    case Simple(_, _, _) =>
    case And(l, r) => WellFormedShape(l, table); WellFormedShape(r, table);
    case Or(l, r) => WellFormedShape(l, table); WellFormedShape(r, table);
  }

  /** The trimmed inside of a single-level group is not a group again. */
  lemma GroupInsideFlat(t: string)
    requires IsSingleLevelGroup(t)
    ensures !IsSingleLevelGroup(TrimSpace(t[1..|t| - 1]))
  {
    var u := TrimSpace(t[1..|t| - 1]);
    NoBracesIff(t[1..|t| - 1]);
    if |u| > 0 {
      assert u[0] in t[1..|t| - 1];
    }
  }

  /** A text that is no single-level group is only trimmed. */
  lemma UnwrappedFlat(s: string)
    requires !IsSingleLevelGroup(TrimSpace(s))
    ensures Unwrapped(s) == TrimSpace(s)
  {
  }

  /** Parsing a text that is no single-level group goes straight to the operators. */
  lemma ParseFlat(s: string, table: Table)
    requires !IsSingleLevelGroup(TrimSpace(s))
    ensures ParseInternal(s, table) == ParseOperators(TrimSpace(s), table)
  {
    UnwrappedFlat(s);
  }

  /**
   * The re-entry of `parseConditionInternal` on a group's inside: parsing
   * `{...}` is parsing what the braces enclose.
   */
  lemma UnwrapGroup(s: string, table: Table)
    requires IsSingleLevelGroup(TrimSpace(s))
    ensures var t := TrimSpace(s); ParseInternal(s, table) == ParseInternal(t[1..|t| - 1], table)
  {
    var t := TrimSpace(s);
    var inner := t[1..|t| - 1];
    GroupInsideFlat(t);
    UnwrappedFlat(inner);
    assert Unwrapped(s) == TrimSpace(inner);
  }

  lemma ParseConditionWellFormed(s: string, table: Table)
    ensures ParseCondition(s, table).Ok? ==>
      WellFormed(ParseCondition(s, table).value, table) && NoGroup(ParseCondition(s, table).value)
  {
    var r := ParseCondition(s, table);
    if r.Ok? {
      AcceptedByInternal(s, table);
      InternalWellFormed(TrimSpace(s), table);
    }
  }

  /** A condition `ParseCondition` accepts is what the parser proper makes of the trimmed text. */
  lemma AcceptedByInternal(s: string, table: Table)
    requires ParseCondition(s, table).Ok?
    ensures ParseCondition(s, table) == ParseInternal(TrimSpace(s), table)
  {
    ConditionChecks(s, table);
  }

  /** `ParseCondition` unfolded: the two brace checks, then the parser proper. */
  lemma ConditionChecks(s: string, table: Table)
    ensures var t := TrimSpace(s);
      ParseCondition(s, table) ==
        if !Balanced(t) then Err(Unbalanced(t)) else if HasNested(t) then Err(NestedBraces) else ParseInternal(t, table)
  {
  }

  /** What the parser proper accepts is well formed and holds no group. */
  lemma InternalWellFormed(t: string, table: Table)
    ensures ParseInternal(t, table).Ok? ==>
      WellFormed(ParseInternal(t, table).value, table) && NoGroup(ParseInternal(t, table).value)
  {
    var p := ParseInternal(t, table);
    if p.Ok? {
      WellFormedShape(p.value, table);
    }
  }

  /** The number of `?` parameters a condition takes: one per unit except the null tests. */
  function ParamCount(c: Condition): nat
  {
    match c
    case Simple(_, _, op) => if op in {"ISNULL", "ISNOTNULL"} then 0 else 1
    case And(l, r) => ParamCount(l) + ParamCount(r)
    case Or(l, r) => ParamCount(l) + ParamCount(r)
    case Group(inner) => ParamCount(inner)
  }

  /** The units of a condition from left to right. */
  function Units(c: Condition): (r: seq<Condition>)
    ensures forall i :: 0 <= i < |r| ==> r[i].Simple?
  {
    match c
    case Simple(_, _, _) => [c]
    case And(l, r) => Units(l) + Units(r)
    case Or(l, r) => Units(l) + Units(r)
    case Group(inner) => Units(inner)
  }

  /** The parameter types one unit contributes; none for a unit that cannot render. */
  function UnitParams(u: Condition, table: Table): seq<string>
  {
    if u.Simple? && (u.isIndex ==> IndexInRange(u.fieldId, table)) then
      match SimpleSQL(u.fieldId, u.isIndex, u.operator, table)
      case Ok(f) => f.params
      case Err(_) => []
    else []
  }

  /** The parameter types of a list of units, each unit's in turn. */
  function AllParams(units: seq<Condition>, table: Table): seq<string>
  {
    if |units| == 0 then [] else UnitParams(units[0], table) + AllParams(units[1..], table)
  }

  lemma {:induction false} AllParamsAppend(a: seq<Condition>, b: seq<Condition>, table: Table)
    ensures AllParams(a + b, table) == AllParams(a, table) + AllParams(b, table)
  {
    if |a| > 0 {
      var u := a[0];
      assert a == [u] + a[1..];
      assert a + b == [u] + (a[1..] + b);
      AllParamsAppend(a[1..], b, table);
      AllParamsCons(u, a[1..] + b, table);
      AllParamsCons(u, a[1..], table);
    } else {
      assert a + b == b;
    }
  }

  lemma AllParamsCons(u: Condition, rest: seq<Condition>, table: Table)
    ensures AllParams([u] + rest, table) == UnitParams(u, table) + AllParams(rest, table)
  {
    assert ([u] + rest)[1..] == rest;
  }

  /**
   * A well-formed condition always renders, with one parameter per unit
   * except the null tests, listed unit by unit from left to right.
   */
  lemma {:induction false} RenderWellFormed(c: Condition, table: Table)
    requires WellFormed(c, table)
    ensures IndexesInRange(c, table)
    ensures ToSQL(c, table).Ok?
    ensures |ToSQL(c, table).value.params| == ParamCount(c)
    ensures ToSQL(c, table).value.params == AllParams(Units(c), table)
  {
    match c
    case Simple(_, _, _) =>
      RenderUnit(c, table);
    case And(l, r) =>
      RenderWellFormed(l, table);
      RenderWellFormed(r, table);
      RenderJoin(c, table);
    case Or(l, r) =>
      RenderWellFormed(l, table);
      RenderWellFormed(r, table);
      RenderJoin(c, table);
  }

  /** A well-formed unit renders, with its own parameters. */
  lemma RenderUnit(c: Condition, table: Table)
    requires c.Simple? && WellFormed(c, table)
    ensures IndexesInRange(c, table)
    ensures ToSQL(c, table).Ok?
    ensures |ToSQL(c, table).value.params| == ParamCount(c)
    ensures ToSQL(c, table).value.params == AllParams(Units(c), table)
  {
    SimpleRenders(c.fieldId, c.isIndex, c.operator, table);
    assert Units(c) == [c];
    assert [c][1..] == [];
  }

  /** A known operator always renders: one parameter, none for the null tests. */
  lemma SimpleRenders(f: string, isIndex: bool, op: string, table: Table)
    requires IsOperator(op) && (isIndex ==> IndexInRange(f, table))
    ensures SimpleSQL(f, isIndex, op, table).Ok?
    ensures |SimpleSQL(f, isIndex, op, table).value.params| == if op in {"ISNULL", "ISNOTNULL"} then 0 else 1
  {
    OperatorNames(op);
  }

  /** The ten operator names, spelled out. */
  lemma OperatorNames(op: string)
    requires IsOperator(op)
    ensures op in {"EQ", "NE", "LT", "GT", "LE", "GE", "IN", "LIKE", "ISNULL", "ISNOTNULL"}
  {
    var i :| 0 <= i < |Operators| && Operators[i] == op by {
      OperatorIndex(op, 0);
    }
  }

  /** An operator accepted from position `i` on sits at some position from `i` on. */
  lemma {:induction false} OperatorIndex(op: string, i: nat)
    requires OperatorFrom(op, i)
    ensures exists j :: i <= j < |Operators| && Operators[j] == op
    decreases |Operators| - i
  {
    if Operators[i] != op {
      OperatorIndex(op, i + 1);
    }
  }

  /** Two sides that render join into a condition that renders, their parameters in order. */
  lemma RenderJoin(c: Condition, table: Table)
    requires c.And? || c.Or?
    requires IndexesInRange(c.left, table) && ToSQL(c.left, table).Ok?
    requires IndexesInRange(c.right, table) && ToSQL(c.right, table).Ok?
    requires |ToSQL(c.left, table).value.params| == ParamCount(c.left)
    requires |ToSQL(c.right, table).value.params| == ParamCount(c.right)
    requires ToSQL(c.left, table).value.params == AllParams(Units(c.left), table)
    requires ToSQL(c.right, table).value.params == AllParams(Units(c.right), table)
    ensures IndexesInRange(c, table)
    ensures ToSQL(c, table).Ok?
    ensures |ToSQL(c, table).value.params| == ParamCount(c)
    ensures ToSQL(c, table).value.params == AllParams(Units(c), table)
  {
    AllParamsAppend(Units(c.left), Units(c.right), table);
  }

  // ---------------------------------------------------------------------
  // Operator precedence

  /** No `Or` node anywhere. */
  predicate NoOr(c: Condition)
  {
    match c
    case Simple(_, _, _) => true
    case And(l, r) => NoOr(l) && NoOr(r)
    case Or(_, _) => false
    case Group(inner) => NoOr(inner)
  }

  /** `|` binds more loosely than `&`: no `Or` node sits below an `And` node. */
  predicate OrAboveAnd(c: Condition)
  {
    match c
    case Simple(_, _, _) => true
    case And(l, r) => NoOr(l) && NoOr(r)
    case Or(l, r) => OrAboveAnd(l) && OrAboveAnd(r)
    case Group(inner) => OrAboveAnd(inner)
  }

  lemma {:induction false} NoOrOrAboveAnd(c: Condition)
    requires NoOr(c)
    ensures OrAboveAnd(c)
  {
    match c
    case Simple(_, _, _) =>
    case And(_, _) =>
    case Group(inner) => NoOrOrAboveAnd(inner);
  }

  predicate BraceFree(s: string)
  {
    '{' !in s && '}' !in s
  }

  lemma SliceChars(s: string, a: int, b: int)
    requires 0 <= a <= b <= |s|
    ensures forall c :: c in s[a..b] ==> c in s
  {
    forall c | c in s[a..b] ensures c in s {
      var k :| 0 <= k < b - a && s[a..b][k] == c;
      assert s[a + k] == c;
    }
  }

  /** Without braces the outermost `op` is the first one. */
  lemma BraceFreeFirst(t: string, op: char)
    requires BraceFree(t)
    ensures OutermostIndex(t, op) == IndexOf(t, op)
  {
    BraceFreeOutermost(t, op, 0);
    assert t[0..] == t;
  }

  /** A text without braces is no group. */
  lemma BraceFreeFlat(u: string)
    requires BraceFree(u)
    ensures !IsSingleLevelGroup(u)
  {
  }

  /**
   * In a brace-free text the first `|` splits: the part before it is parsed
   * on its own and everything after it forms the right operand, so `a|b|c`
   * parses as `a | (b | c)`.
   */
  lemma FirstBarSplits(t: string, table: Table)
    requires BraceFree(t) && '|' in t
    ensures var i := IndexOf(t, '|');
      ParseOperators(t, table) == Join2(true, ParseInternal(t[..i], table), ParseInternal(t[i + 1..], table))
  {
    BraceFreeFirst(t, '|');
    OrStep(t, IndexOf(t, '|'), table);
  }

  /** Without braces and `|`, the text splits at its first `&`. */
  lemma BraceFreeAndStep(t: string, table: Table)
    requires BraceFree(t) && '|' !in t && '&' in t
    ensures var i := IndexOf(t, '&');
      ParseOperators(t, table) == Join2(false, ParseInternal(t[..i], table), ParseInternal(t[i + 1..], table))
  {
    BraceFreeFirst(t, '|');
    BraceFreeFirst(t, '&');
    AndStep(t, IndexOf(t, '&'), table);
  }

  /** A slice of a brace-free text is brace-free, and free of `|` when the text is. */
  lemma SliceFree(t: string, a: nat, b: nat)
    requires BraceFree(t) && a <= b <= |t|
    ensures BraceFree(t[a..b]) && ('|' !in t ==> '|' !in t[a..b])
  {
    SliceChars(t, a, b);
  }

  /** A brace-free side of a split is parsed trimmed, straight by the operators. */
  lemma FlatSide(s: string, table: Table) returns (u: string)
    requires BraceFree(s)
    ensures |u| <= |s| && BraceFree(u) && ('|' !in s ==> '|' !in u)
    ensures ParseInternal(s, table) == ParseOperators(u, table)
  {
    u := TrimSpace(s);
    BraceFreeFlat(u);
    ParseFlat(s, table);
  }

  /** A brace-free text with a `|` splits at its first `|` into two shorter brace-free texts. */
  lemma BraceFreeOrSplit(t: string, table: Table) returns (l: string, r: string)
    requires BraceFree(t) && '|' in t
    ensures |l| < |t| && |r| < |t| && BraceFree(l) && BraceFree(r)
    ensures ParseOperators(t, table) == Join2(true, ParseOperators(l, table), ParseOperators(r, table))
  {
    var i := IndexOf(t, '|');
    FirstBarSplits(t, table);
    SliceFree(t, 0, i);
    SliceFree(t, i + 1, |t|);
    l := FlatSide(t[..i], table);
    r := FlatSide(t[i + 1..], table);
  }

  /** A brace-free text with `&` but no `|` splits at its first `&` into two shorter texts without braces or `|`. */
  lemma BraceFreeAndSplit(t: string, table: Table) returns (l: string, r: string)
    requires BraceFree(t) && '|' !in t && '&' in t
    ensures |l| < |t| && |r| < |t| && BraceFree(l) && BraceFree(r) && '|' !in l && '|' !in r
    ensures ParseOperators(t, table) == Join2(false, ParseOperators(l, table), ParseOperators(r, table))
  {
    var i := IndexOf(t, '&');
    BraceFreeAndStep(t, table);
    SliceFree(t, 0, i);
    SliceFree(t, i + 1, |t|);
    l := FlatSide(t[..i], table);
    r := FlatSide(t[i + 1..], table);
  }

  /** A brace-free text without operators is one unit. */
  lemma BraceFreeUnit(t: string, table: Table)
    requires BraceFree(t) && '|' !in t && '&' !in t
    ensures ParseOperators(t, table) == ParseSimple(t, table)
  {
    BraceFreeFirst(t, '|');
    BraceFreeFirst(t, '&');
    UnitStep(t, table);
  }

  /** A brace-free text without `|` parses, if at all, into a tree without `Or`. */
  lemma {:induction false} NoBarNoOr(t: string, table: Table)
    requires BraceFree(t) && '|' !in t
    ensures ParseOperators(t, table).Ok? ==> NoOr(ParseOperators(t, table).value)
    decreases |t|
  {
    if '&' in t {
      var l, r := BraceFreeAndSplit(t, table);
      NoBarNoOr(l, table);
      NoBarNoOr(r, table);
    } else {
      BraceFreeUnit(t, table);
    }
  }

  /** A brace-free text parses, if at all, with every `Or` above every `And`. */
  lemma {:induction false} BraceFreeOrAboveAnd(t: string, table: Table)
    requires BraceFree(t)
    ensures ParseOperators(t, table).Ok? ==> OrAboveAnd(ParseOperators(t, table).value)
    decreases |t|
  {
    if '|' in t {
      var l, r := BraceFreeOrSplit(t, table);
      BraceFreeOrAboveAnd(l, table);
      BraceFreeOrAboveAnd(r, table);
    } else {
      NoBarNoOr(t, table);
      if ParseOperators(t, table).Ok? {
        NoOrOrAboveAnd(ParseOperators(t, table).value);
      }
    }
  }

  /** A brace-free text is balanced and has no nesting, so `ParseCondition` goes straight to the operators. */
  lemma BraceFreeCondition(s: string, table: Table)
    requires BraceFree(s)
    ensures ParseCondition(s, table) == ParseOperators(TrimSpace(s), table)
  {
    var t := TrimSpace(s);
    TrimSpaceMembers(s);
    FlatChecks(t);
    ConditionChecks(s, table);
    TrimSpaceIdempotent(s);
    ParseFlat(t, table);
  }

  /** A brace-free text passes both brace checks and is no group. */
  lemma FlatChecks(t: string)
    requires BraceFree(t)
    ensures Balanced(t) && !HasNested(t) && !IsSingleLevelGroup(t)
  {
    forall k | 0 <= k <= |t| ensures Depth(t, k) == 0 {
      DepthBraceFree(t, k);
    }
    NestedIffDeep(t);
    if |t| >= 2 {
      assert t[0] in t;
    }
  }

  /** A condition without braces parses with `|` binding more loosely than `&`. */
  lemma BraceFreeConditionOrder(s: string, table: Table)
    requires BraceFree(s)
    ensures ParseCondition(s, table).Ok? ==> OrAboveAnd(ParseCondition(s, table).value)
  {
    BraceFreeCondition(s, table);
    BraceFreeOrAboveAnd(TrimSpace(s), table);
  }

  // ---------------------------------------------------------------------
  // Braces at the top level

  /**
   * After trimming, a text whose braces are balanced is rejected as nested
   * exactly when the brace depth reaches two somewhere.
   */
  lemma NestedRejected(s: string, table: Table)
    requires Balanced(TrimSpace(s))
    ensures ParseCondition(s, table) == Err(NestedBraces) <==>
      exists k :: 0 <= k <= |TrimSpace(s)| && Depth(TrimSpace(s), k) >= 2
  {
    NestingCheck(s, table);
    NestedIffDeep(TrimSpace(s));
  }

  /** With balanced braces, `ParseCondition` reports nesting exactly when the scan finds it: the parser proper never does. */
  lemma NestingCheck(s: string, table: Table)
    requires Balanced(TrimSpace(s))
    ensures ParseCondition(s, table) == Err(NestedBraces) <==> HasNested(TrimSpace(s))
  {
    InternalNeverNested(TrimSpace(s), table);
  }

  /** The parser proper reports only errors about one unit, never nesting. */
  lemma InternalNeverNested(t: string, table: Table)
    ensures ParseInternal(t, table) != Err(NestedBraces)
  {
    var p := ParseInternal(t, table);
    assert p.Err? ==> p.error.UnitError();
  }
}
