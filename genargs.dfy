/**
 * The arguments of a generated function in a model's `gen` tag: column
 * references by index, index range or name, resolved against the model's
 * fields; the where argument (`AND[..]`, `OR[..]` or `[..]` groups joined
 * by `&`), the bracketed select list, and the two validate flags.
 *
 * The column sets are Go sets, visited in no particular order, so the
 * where columns are kept as a multiset and the select columns as a set.
 */
module GenArgs {
  import opened Wrappers
  import opened Strs
  import opened ModelTypes

  /** A field answers to a name through its Go name or its column name. */
  predicate Named(field: ModelField, name: string)
  {
    name == field.name || name == field.columnName
  }

  /** The search of `findIndexByName` from position `k` on. */
  function FindFrom(name: string, fields: seq<ModelField>, k: nat): (r: int)
    requires k <= |fields|
    ensures r == -1 || k <= r < |fields|
    ensures r >= 0 ==> Named(fields[r], name) && forall j :: k <= j < r ==> !Named(fields[j], name)
    ensures r == -1 ==> forall j :: k <= j < |fields| ==> !Named(fields[j], name)
    decreases |fields| - k
  {
    if k == |fields| then -1
    else if Named(fields[k], name) then k
    else FindFrom(name, fields, k + 1)
  }

  /** `findIndexByName`: the first field answering to the name, or -1. */
  function FindIndexByName(name: string, fields: seq<ModelField>): (r: int)
    ensures -1 <= r < |fields|
    ensures r >= 0 ==> Named(fields[r], name) && forall j :: 0 <= j < r ==> !Named(fields[j], name)
    ensures r == -1 <==> forall j :: 0 <= j < |fields| ==> !Named(fields[j], name)
  {
    FindFrom(name, fields, 0)
  }

  /** A column reference that is a number, or else the name of a field. */
  function IndexOrName(s: string, fields: seq<ModelField>): int
  {
    if AtoiOk(s) then AtoiValue(s) else FindIndexByName(s, fields)
  }

  /** The error of a bad range. */
  function BadRange(op: string): Errs
  {
    ["invalid " + op + " arg index"]
  }

  /** The error of a bad single reference. */
  function BadIndex(op: string, index: string): Errs
  {
    ["invalid " + op + " arg " + index]
  }

  /**
   * The fields one index token refers to, as the inclusive range
   * `(start, end)`: `a-b` for a range, otherwise a single number or name.
   * The open range (`ranged`) needs a split into one part that still
   * contains `-`, which cannot happen.
   */
  function ResolveIndex(index: string, op: string, fields: seq<ModelField>): (r: Result<(int, int), Errs>)
    ensures r.Ok? ==> 0 <= r.value.0 <= r.value.1 < |fields|
  {
    var startEnd := Split(index, '-');
    var ranged := |startEnd| == 1 && '-' in index;
    if |startEnd| == 2 || ranged then
      var start := IndexOrName(startEnd[0], fields);
      var end := if ranged then |fields| - 1 else IndexOrName(startEnd[1], fields);
      if !AtoiOk(startEnd[0]) && start == -1 then Err(BadRange(op))
      else if !ranged && !AtoiOk(startEnd[1]) && end == -1 then Err(BadRange(op))
      else if start < 0 || start >= |fields| || start > end || end >= |fields| then Err(BadRange(op))
      else Ok((start, end))
    else
      var idx := IndexOrName(index, fields);
      if !AtoiOk(index) && idx == -1 then Err(BadIndex(op, index))
      else if idx < 0 || idx >= |fields| then Err(BadIndex(op, index))
      else Ok((idx, idx))
  }

  /** The pairs of `key` with the column names of the fields `a` to `b - 1`. */
  function RangePairs(key: string, fields: seq<ModelField>, a: int, b: int): (r: set<Pair>)
    requires 0 <= a <= b <= |fields|
    ensures forall p :: p in r <==> exists i :: a <= i < b && p == Pair(key, fields[i].columnName)
  {
    set i | a <= i < b :: Pair(key, fields[i].columnName)
  }

  /** One more field at the end of a range adds its pair. */
  lemma RangeSnoc(key: string, fields: seq<ModelField>, a: int, b: int)
    requires 0 <= a <= b < |fields|
    ensures RangePairs(key, fields, a, b + 1) == RangePairs(key, fields, a, b) + {Pair(key, fields[b].columnName)}
  {
  }

  /** The pairs all the tokens refer to, or the error of the first token that does not resolve. */
  function IndexColumns(indexes: seq<string>, op: string, key: string, fields: seq<ModelField>): Result<set<Pair>, Errs>
  {
    if |indexes| == 0 then Ok({})
    else
      match IndexColumns(indexes[..|indexes| - 1], op, key, fields)
      case Err(e) => Err(e)
      case Ok(s) => WithRange(s, ResolveIndex(indexes[|indexes| - 1], op, fields), key, fields)
  }

  /** The pairs `s` with those of a resolved range added, or the error of the token. */
  function WithRange(s: set<Pair>, range: Result<(int, int), Errs>, key: string, fields: seq<ModelField>): Result<set<Pair>, Errs>
    requires range.Ok? ==> 0 <= range.value.0 <= range.value.1 < |fields|
  {
    match range
    case Err(e) => Err(e)
    case Ok(r) => Ok(s + RangePairs(key, fields, r.0, r.1 + 1))
  }

  /**
   * `parseIndexToColumnName`: adds to the set `s0` the pair of `key` with
   * the column of every field the tokens refer to; the first token that
   * does not resolve gives its error.
   */
  method ParseIndexToColumnName(indexes: seq<string>, op: string, key: string, s0: set<Pair>, fields: seq<ModelField>)
    returns (r: Result<set<Pair>, Errs>)
    ensures r.Err? <==> IndexColumns(indexes, op, key, fields).Err?
    ensures r.Err? ==> r.error == IndexColumns(indexes, op, key, fields).error
    ensures r.Ok? ==> r.value == s0 + IndexColumns(indexes, op, key, fields).value
  {
    var s := s0;
    assert indexes[..0] == [];
    for t := 0 to |indexes|
      invariant IndexColumns(indexes[..t], op, key, fields).Ok?
      invariant s == s0 + IndexColumns(indexes[..t], op, key, fields).value
    {
      IndexColumnsStep(indexes, t, op, key, fields);
      var res := ResolveIndex(indexes[t], op, fields);
      if res.Err? {
        IndexColumnsErrorStays(indexes, op, key, fields, t + 1);
        return Err(res.error);
      }
      s := AddRange(s, key, fields, res.value.0, res.value.1);
    }
    assert indexes[..|indexes|] == indexes;
    r := Ok(s);
  }

  /** One more token: its range is added, or its error stops the scan. */
  lemma IndexColumnsStep(indexes: seq<string>, t: nat, op: string, key: string, fields: seq<ModelField>)
    requires t < |indexes| && IndexColumns(indexes[..t], op, key, fields).Ok?
    ensures IndexColumns(indexes[..t + 1], op, key, fields) ==
      WithRange(IndexColumns(indexes[..t], op, key, fields).value, ResolveIndex(indexes[t], op, fields), key, fields)
  {
    PrefixOfLonger(indexes, t);
  }

  /** The inner loop of `parseIndexToColumnName`: every field from `start` to `end` adds its pair. */
  method AddRange(s0: set<Pair>, key: string, fields: seq<ModelField>, start: int, end: int) returns (s: set<Pair>)
    requires 0 <= start <= end < |fields|
    ensures s == s0 + RangePairs(key, fields, start, end + 1)
  {
    s := s0;
    var i := start;
    while i <= end
      invariant start <= i <= end + 1
      invariant s == s0 + RangePairs(key, fields, start, i)
    {
      RangeSnoc(key, fields, start, i);
      s := s + {Pair(key, fields[i].columnName)};
      i := i + 1;
    }
  }

  /** The error of the first tokens that fail stays the error of all of them. */
  lemma {:induction false} IndexColumnsErrorStays(indexes: seq<string>, op: string, key: string, fields: seq<ModelField>, n: nat)
    requires n <= |indexes|
    requires IndexColumns(indexes[..n], op, key, fields).Err?
    ensures IndexColumns(indexes, op, key, fields) == IndexColumns(indexes[..n], op, key, fields)
    decreases |indexes| - n
  {
    if n < |indexes| {
      assert indexes[..n + 1][..n] == indexes[..n];
      IndexColumnsErrorStays(indexes, op, key, fields, n + 1);
    } else {
      assert indexes[..n] == indexes;
    }
  }

  /** Whatever the token, the open-range branch is never taken: a split at `-` of a text holding `-` has at least two parts. */
  lemma OpenRangeNeverTaken(index: string)
    ensures !(|Split(index, '-')| == 1 && '-' in index)
  {
    if '-' in index {
      SplitWith(index, '-');
    }
  }

  /** A number token within bounds refers to that one field. */
  lemma NumberToken(index: string, op: string, fields: seq<ModelField>)
    requires |index| > 0 && AllDigits(index) && DigitsValue(index) < |fields|
    requires DigitsValue(index) <= MaxInt64
    ensures ResolveIndex(index, op, fields) == Ok((DigitsValue(index), DigitsValue(index)))
  {
    DigitsNoDash(index);
    SplitWithout(index, '-');
    AtoiDigits(index);
  }

  /** The parts of `a-b` for texts without `-`. */
  lemma SplitRange(a: string, b: string)
    requires '-' !in a && '-' !in b
    ensures Split(a + "-" + b, '-') == [a, b]
  {
    assert a + "-" + b == a + ['-'] + b;
    SplitConcat(a, b, '-');
    SplitWithout(a, '-');
    SplitWithout(b, '-');
  }

  /** Digits hold no `-`. */
  lemma DigitsNoDash(s: string)
    requires AllDigits(s)
    ensures '-' !in s
  {
    forall i | 0 <= i < |s|
      ensures s[i] != '-'
    {
      assert IsDigit(s[i]);
    }
  }

  /** A range `a-b` of numbers with `a <= b` within bounds refers to the fields `a` to `b`. */
  lemma RangeToken(a: string, b: string, op: string, fields: seq<ModelField>)
    requires |a| > 0 && AllDigits(a) && |b| > 0 && AllDigits(b)
    requires DigitsValue(a) <= DigitsValue(b) < |fields| && DigitsValue(b) <= MaxInt64
    ensures ResolveIndex(a + "-" + b, op, fields) == Ok((DigitsValue(a), DigitsValue(b)))
  {
    DigitsNoDash(a);
    DigitsNoDash(b);
    SplitRange(a, b);
    AtoiDigits(a);
    AtoiDigits(b);
  }

  /**
   * `a-` is not an open range: its end is looked up as the field named "",
   * so without such a field it is an error.
   */
  lemma OpenEndIsName(a: string, op: string, fields: seq<ModelField>)
    requires |a| > 0 && AllDigits(a)
    requires forall j :: 0 <= j < |fields| ==> !Named(fields[j], "")
    ensures ResolveIndex(a + "-", op, fields) == Err(BadRange(op))
  {
    DigitsNoDash(a);
    SplitRange(a, "");
    assert a + "-" + "" == a + "-";
    assert !AtoiOk("");
  }

  /** Whether a where group has the shape `<open>..]`. */
  predicate Bracketed(part: string, open: string)
  {
    HasPrefix(part, open) && HasSuffix(part, "]")
  }

  /** A bracketed text is longer than its opening. */
  lemma BracketedLength(part: string, open: string)
    requires |open| > 0 && open[|open| - 1] == '['
    requires Bracketed(part, open)
    ensures |part| > |open|
  {
    assert part[..|open|][|open| - 1] == '[';
    assert part[|part| - 1..][0] == ']';
  }

  /** The keyword and the inner text of a where group; `[..]` means `AND`. */
  function WhereGroup(part: string): (r: Option<(string, string)>)
    ensures r.Some? ==> r.value.0 == "AND" || r.value.0 == "OR"
    ensures r.None? <==> !Bracketed(part, "AND[") && !Bracketed(part, "OR[") && !Bracketed(part, "[")
    ensures Bracketed(part, "AND[") ==> r.Some? && r.value.0 == "AND" && part == "AND[" + r.value.1 + "]"
    ensures !Bracketed(part, "AND[") && Bracketed(part, "OR[") ==> r.Some? && r.value.0 == "OR" && part == "OR[" + r.value.1 + "]"
    ensures !Bracketed(part, "AND[") && !Bracketed(part, "OR[") && Bracketed(part, "[") ==>
      r.Some? && r.value.0 == "AND" && part == "[" + r.value.1 + "]"
  {
    if Bracketed(part, "AND[") then
      BracketedLength(part, "AND[");
      Some(("AND", part[4..|part| - 1]))
    else if Bracketed(part, "OR[") then
      BracketedLength(part, "OR[");
      Some(("OR", part[3..|part| - 1]))
    else if Bracketed(part, "[") then
      BracketedLength(part, "[");
      Some(("AND", part[1..|part| - 1]))
    else None
  }

  /** Each part with white space trimmed off both ends. */
  function TrimAll(parts: seq<string>): (r: seq<string>)
    ensures |r| == |parts|
    ensures forall i :: 0 <= i < |parts| ==> r[i] == TrimSpace(parts[i])
  {
    seq(|parts|, i requires 0 <= i < |parts| => TrimSpace(parts[i]))
  }

  /**
   * The where columns after the given groups: the set of pairs so far, and
   * the multiset the loop appends to, which gets the whole set again after
   * every group.
   */
  function WhereFrom(parts: seq<string>, whereArg: string, fields: seq<ModelField>): Result<(set<Pair>, multiset<Pair>), Errs>
  {
    if |parts| == 0 then Ok(({}, multiset{}))
    else
      match WhereFrom(parts[..|parts| - 1], whereArg, fields)
      case Err(e) => Err(e)
      case Ok(acc) =>
        match WhereGroup(parts[|parts| - 1])
        case None => Err(["invalid where arg " + whereArg])
        case Some(group) =>
          match IndexColumns(Split(group.1, ' '), "where", group.0, fields)
          case Err(e) => Err(e)
          case Ok(cols) =>
            var s := acc.0 + cols;
            Ok((s, acc.1 + multiset(s)))
  }

  /** The columns of a select argument: the bracketed tokens, paired with no keyword. */
  function SelectColumns(selectArg: string, fields: seq<ModelField>): Result<set<string>, Errs>
  {
    if !Bracketed(selectArg, "[") then Err(["invalid select arg " + selectArg])
    else
      BracketedLength(selectArg, "[");
      match IndexColumns(Split(selectArg[1..|selectArg| - 1], ' '), "select", "", fields)
      case Err(e) => Err(e)
      case Ok(s) => Ok(set p | p in s :: p.val)
  }

  /** The message of `strconv.ParseBool` for a text it rejects: the text goes through `strconv.Quote`. */
  function ParseBoolError(s: string): string
  {
    "strconv.ParseBool: parsing " + Quote(s) + ": invalid syntax"
  }

  /** The rejected flag can be read back from the message, whatever characters it holds. */
  lemma ParseBoolErrorNamesFlag(v: string)
    ensures var q := Quote(v);
      ParseBoolError(v) == "strconv.ParseBool: parsing " + q + ": invalid syntax" &&
      UnquoteBody(q[1..|q| - 1]) == Some(v)
  {
    QuoteReadsBack(v);
  }

  /** A validate flag: false when absent, else the boolean it spells. */
  function ValidateFlag(v: string, what: string): (r: Result<bool, Errs>)
    ensures v == "" ==> r == Ok(false)
    ensures v != "" && ParseBool(v).Some? ==> r == Ok(ParseBool(v).value)
    ensures v != "" && ParseBool(v).None? ==> r == Err([ParseBoolError(v), "invalid " + what + " validate " + v])
  {
    if v == "" then Ok(false)
    else
      match ParseBool(v)
      case Some(b) => Ok(b)
      case None => Err([ParseBoolError(v), "invalid " + what + " validate " + v])
  }

  /** What the generator knows of a function to generate. */
  datatype GenFuncSpec = GenFuncSpec(
    funcName: string,
    keyFuncName: string,
    whereColumnNames: multiset<Pair>,
    selectColumnNames: set<string>,
    selectValidateEmpty: bool,
    setValidateEmpty: bool)

  /** The where columns of a where argument; none when it is empty. */
  function WhereColumns(whereArg: string, fields: seq<ModelField>): Result<multiset<Pair>, Errs>
  {
    if whereArg == "" then Ok(multiset{})
    else
      match WhereFrom(TrimAll(Split(whereArg, '&')), whereArg, fields)
      case Err(e) => Err(e)
      case Ok(acc) => Ok(acc.1)
  }

  /** The select columns of a select argument; none when it is empty. */
  function SelectColumnsOf(selectArg: string, fields: seq<ModelField>): Result<set<string>, Errs>
  {
    if selectArg == "" then Ok({}) else SelectColumns(selectArg, fields)
  }

  /**
   * The outcome of `parseGenFuncArgs`: the where, select and validate
   * arguments in that order, the first error stopping it.
   */
  function GenFuncArgs(whereArg: string, selectArg: string, selectValidate: string, setValidate: string,
                       fields: seq<ModelField>): Result<GenFuncSpec, Errs>
  {
    match WhereColumns(whereArg, fields)
    case Err(e) => Err(e)
    case Ok(where) =>
      match SelectColumnsOf(selectArg, fields)
      case Err(e) => Err(e)
      case Ok(sel) =>
        match ValidateFlag(selectValidate, "select")
        case Err(e) => Err(e)
        case Ok(sv) =>
          match ValidateFlag(setValidate, "set")
          case Err(e) => Err(e)
          case Ok(tv) => Ok(GenFuncSpec("", "", where, sel, sv, tv))
  }

  /** `parseGenFuncArgs`. */
  method ParseGenFuncArgs(whereArg: string, selectArg: string, selectValidate: string, setValidate: string,
                          fields: seq<ModelField>) returns (r: Result<GenFuncSpec, Errs>)
    ensures r == GenFuncArgs(whereArg, selectArg, selectValidate, setValidate, fields)
  {
    var where := ParseWhereArg(whereArg, fields);
    if where.Err? {
      return Err(where.error);
    }
    var sel := ParseSelectArg(selectArg, fields);
    if sel.Err? {
      return Err(sel.error);
    }
    var sv := ValidateFlag(selectValidate, "select");
    if sv.Err? {
      return Err(sv.error);
    }
    var tv := ValidateFlag(setValidate, "set");
    if tv.Err? {
      return Err(tv.error);
    }
    r := Ok(GenFuncSpec("", "", where.value, sel.value, sv.value, tv.value));
  }

  /** The where half of `parseGenFuncArgs`: the loop over the `&`-separated groups. */
  method ParseWhereArg(whereArg: string, fields: seq<ModelField>) returns (r: Result<multiset<Pair>, Errs>)
    ensures r == WhereColumns(whereArg, fields)
  {
    if whereArg == "" {
      return Ok(multiset{});
    }
    var acc := ParseWhereGroups(TrimAll(Split(whereArg, '&')), whereArg, fields);
    if acc.Err? {
      return Err(acc.error);
    }
    r := Ok(acc.value.1);
  }

  /** The loop of the where half over the trimmed groups: the running set of pairs and the multiset of every step's set. */
  method ParseWhereGroups(parts: seq<string>, whereArg: string, fields: seq<ModelField>)
    returns (r: Result<(set<Pair>, multiset<Pair>), Errs>)
    ensures r == WhereFrom(parts, whereArg, fields)
  {
    var where: multiset<Pair> := multiset{};
    var s: set<Pair> := {};
    assert parts[..0] == [];
    for i := 0 to |parts|
      invariant WhereFrom(parts[..i], whereArg, fields) == Ok((s, where))
    {
      WhereStep(parts, i, whereArg, fields);
      var group := WhereGroup(parts[i]);
      if group.None? {
        WhereErrorStays(parts, whereArg, fields, i + 1);
        return Err(["invalid where arg " + whereArg]);
      }
      var res := ParseIndexToColumnName(Split(group.value.1, ' '), "where", group.value.0, s, fields);
      if res.Err? {
        WhereErrorStays(parts, whereArg, fields, i + 1);
        return Err(res.error);
      }
      s := res.value;
      where := where + multiset(s);
    }
    PrefixAll(parts);
    r := Ok((s, where));
  }

  /** One more group: its pairs are added to the set and the set to the multiset, or its error stops the scan. */
  lemma WhereStep(parts: seq<string>, i: nat, whereArg: string, fields: seq<ModelField>)
    requires i < |parts| && WhereFrom(parts[..i], whereArg, fields).Ok?
    ensures var acc := WhereFrom(parts[..i], whereArg, fields).value;
      WhereFrom(parts[..i + 1], whereArg, fields) ==
        match WhereGroup(parts[i])
        case None => Err(["invalid where arg " + whereArg])
        case Some(group) =>
          match IndexColumns(Split(group.1, ' '), "where", group.0, fields)
          case Err(e) => Err(e)
          case Ok(cols) => Ok((acc.0 + cols, acc.1 + multiset(acc.0 + cols)))
  {
    assert parts[..i + 1][..i] == parts[..i];
  }

  /** The select half of `parseGenFuncArgs`: the bracketed list of column indexes. */
  method ParseSelectArg(selectArg: string, fields: seq<ModelField>) returns (r: Result<set<string>, Errs>)
    ensures r == SelectColumnsOf(selectArg, fields)
  {
    if selectArg == "" {
      return Ok({});
    }
    if !Bracketed(selectArg, "[") {
      return Err(["invalid select arg " + selectArg]);
    }
    BracketedLength(selectArg, "[");
    var res := ParseIndexToColumnName(Split(selectArg[1..|selectArg| - 1], ' '), "select", "", {}, fields);
    if res.Err? {
      return Err(res.error);
    }
    ghost var cols := IndexColumns(Split(selectArg[1..|selectArg| - 1], ' '), "select", "", fields);
    assert res.value == cols.value;
    r := Ok(set p | p in res.value :: p.val);
  }

  /** The error of the first groups that fail stays the error of all of them. */
  lemma {:induction false} WhereErrorStays(parts: seq<string>, whereArg: string, fields: seq<ModelField>, n: nat)
    requires n <= |parts|
    requires WhereFrom(parts[..n], whereArg, fields).Err?
    ensures WhereFrom(parts, whereArg, fields) == WhereFrom(parts[..n], whereArg, fields)
    decreases |parts| - n
  {
    if n < |parts| {
      assert parts[..n + 1][..n] == parts[..n];
      WhereErrorStays(parts, whereArg, fields, n + 1);
    } else {
      assert parts[..n] == parts;
    }
  }

  /** The set of where pairs only grows from one group to the next. */
  lemma {:induction false} WhereGrows(parts: seq<string>, whereArg: string, fields: seq<ModelField>, n: nat)
    requires 1 <= n <= |parts|
    requires WhereFrom(parts, whereArg, fields).Ok?
    ensures WhereFrom(parts[..n], whereArg, fields).Ok?
    ensures WhereFrom(parts[..n], whereArg, fields).value.0 <= WhereFrom(parts, whereArg, fields).value.0
    decreases |parts| - n
  {
    if n < |parts| {
      var init := parts[..|parts| - 1];
      assert init[..n] == parts[..n];
      WhereGrows(init, whereArg, fields, n);
    } else {
      assert parts[..n] == parts;
    }
  }

  /**
   * Earlier pairs repeat: a pair of the first group is in the where list
   * once per group, since the whole set is appended after every group.
   */
  lemma {:induction false} FirstGroupRepeats(parts: seq<string>, whereArg: string, fields: seq<ModelField>, p: Pair)
    requires |parts| >= 1
    requires WhereFrom(parts, whereArg, fields).Ok?
    requires WhereFrom(parts[..1], whereArg, fields).Ok? && p in WhereFrom(parts[..1], whereArg, fields).value.0
    ensures WhereFrom(parts, whereArg, fields).value.1[p] == |parts|
  {
    if |parts| == 1 {
      assert parts[..1] == parts;
      assert parts[..0] == [];
    } else {
      var init := parts[..|parts| - 1];
      assert init[..1] == parts[..1];
      FirstGroupRepeats(init, whereArg, fields, p);
      WhereGrows(parts, whereArg, fields, 1);
    }
  }

  /** With no arguments the spec is empty. */
  lemma NoArgs(fields: seq<ModelField>)
    ensures GenFuncArgs("", "", "", "", fields) == Ok(GenFuncSpec("", "", multiset{}, {}, false, false))
  {
  }

  /** A select argument that is not bracketed is refused with its own text. */
  lemma SelectNeedsBrackets(selectArg: string, fields: seq<ModelField>)
    requires selectArg != "" && !Bracketed(selectArg, "[")
    ensures GenFuncArgs("", selectArg, "", "", fields) == Err(["invalid select arg " + selectArg])
  {
  }
}
