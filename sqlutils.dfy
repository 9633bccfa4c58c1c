/**
 * The runtime's `ParseSQLStmt`: the `#{name}` placeholders of a statement
 * become `?` with the names collected in order, every newline together with
 * the spaces around it becomes a single space, and tabs are removed.
 */
module SqlUtils {
  import opened Strs
  import opened Placeholders

  datatype SqlParseResult = SqlParseResult(sql: string, paramsName: seq<string>)

  /** The first index at or after `i` that does not hold a space. */
  function SkipSpaces(s: string, i: nat): (j: nat)
    requires i <= |s|
    ensures i <= j <= |s|
    ensures forall k :: i <= k < j ==> s[k] == ' '
    ensures j < |s| ==> s[j] != ' '
    decreases |s| - i
  {
    if i < |s| && s[i] == ' ' then SkipSpaces(s, i + 1) else i
  }

  /**
   * One pass of the newline loop: the first newline, the spaces before it and
   * the spaces after it become one space.
   */
  function JoinFirstLine(s: string): string
    requires '\n' in s
  {
    var idx := IndexOf(s, '\n');
    TrimRight(s[..idx], {' '}) + " " + s[SkipSpaces(s, idx + 1)..]
  }

  /** The count of a character over the five pieces a pass cuts the text into. */
  lemma CountPieces(left: string, dropped: string, gap: string, rest: string, c: char)
    ensures Count(left + dropped + "\n" + gap + rest, c) ==
      Count(left, c) + Count(dropped, c) + Count("\n", c) + Count(gap, c) + Count(rest, c)
    ensures Count(left + " " + rest, c) == Count(left, c) + Count(" ", c) + Count(rest, c)
  {
    CountAppend(left + dropped + "\n" + gap, rest, c);
    CountAppend(left + dropped + "\n", gap, c);
    CountAppend(left + dropped, "\n", c);
    CountAppend(left, dropped, c);
    CountAppend(left + " ", rest, c);
    CountAppend(left, " ", c);
  }

  /** Each pass removes exactly one newline and keeps every character other than a space. */
  lemma JoinFirstLineCount(s: string, c: char)
    requires '\n' in s && c != ' '
    ensures Count(JoinFirstLine(s), c) + (if c == '\n' then 1 else 0) == Count(s, c)
  {
    var k, idx, j := JoinFirstLineCut(s);
    CountJoined(s, k, idx, j, c);
  }

  /** A pass keeps the text before `k` and from `j` on, where only spaces and the newline at `idx` lie between. */
  lemma JoinFirstLineCut(s: string) returns (k: nat, idx: nat, j: nat)
    requires '\n' in s
    ensures k <= idx < |s| && idx + 1 <= j <= |s| && s[idx] == '\n'
    ensures forall i :: k <= i < idx ==> s[i] == ' '
    ensures forall i :: idx + 1 <= i < j ==> s[i] == ' '
    ensures JoinFirstLine(s) == s[..k] + " " + s[j..]
  {
    idx := IndexOf(s, '\n');
    j := SkipSpaces(s, idx + 1);
    var left := TrimRight(s[..idx], {' '});
    k := |left|;
    assert left == s[..k];
    forall i | k <= i < idx ensures s[i] == ' ' {
      assert s[..idx][i] in {' '};
    }
  }

  /** Dropping the spaces around the newline and the newline itself for one space changes no other count. */
  lemma CountJoined(s: string, k: nat, idx: nat, j: nat, c: char)
    requires k <= idx < |s| && idx + 1 <= j <= |s| && s[idx] == '\n' && c != ' '
    requires forall i :: k <= i < idx ==> s[i] == ' '
    requires forall i :: idx + 1 <= i < j ==> s[i] == ' '
    ensures Count(s[..k] + " " + s[j..], c) + (if c == '\n' then 1 else 0) == Count(s, c)
  {
    var before, after := s[k..idx], s[idx + 1..j];
    forall i | 0 <= i < |before| ensures before[i] == ' ' {
      assert before[i] == s[k + i];
    }
    forall i | 0 <= i < |after| ensures after[i] == ' ' {
      assert after[i] == s[idx + 1 + i];
    }
    NoneButSpaces(before, c);
    NoneButSpaces(after, c);
    CountAround(s, k, idx, j, c);
    CountPieces(s[..k], "", "", s[j..], c);
    NewlineCount(c);
    assert Count(" ", c) == 0;
  }

  /** The count of a character over a text cut before `k`, around the newline at `idx` and before `j`. */
  lemma CountAround(s: string, k: nat, idx: nat, j: nat, c: char)
    requires k <= idx < |s| && idx + 1 <= j <= |s| && s[idx] == '\n'
    ensures Count(s, c) == Count(s[..k], c) + Count(s[k..idx], c) + Count("\n", c) + Count(s[idx + 1..j], c) + Count(s[j..], c)
  {
    CutAround(s, k, idx, j);
    CountPieces(s[..k], s[k..idx], s[idx + 1..j], s[j..], c);
  }

  /** A text cut before `k`, around the newline at `idx` and before `j`. */
  lemma CutAround(s: string, k: nat, idx: nat, j: nat)
    requires k <= idx < |s| && idx + 1 <= j <= |s| && s[idx] == '\n'
    ensures s == s[..k] + s[k..idx] + "\n" + s[idx + 1..j] + s[j..]
  {
    assert s[..idx + 1] == s[..k] + s[k..idx] + "\n";
    assert s[idx + 1..] == s[idx + 1..j] + s[j..];
    assert s == s[..idx + 1] + s[idx + 1..];
  }

  /** A run of spaces holds no other character. */
  lemma NoneButSpaces(t: string, c: char)
    requires forall i :: 0 <= i < |t| ==> t[i] == ' '
    requires c != ' '
    ensures c !in t
  {
  }

  lemma NewlineCount(c: char)
    ensures Count("\n", c) == (if c == '\n' then 1 else 0)
  {
    assert "\n"[..0] == [];
  }

  /** The newline loop as a function: passes until no newline is left. */
  function JoinLines(s: string): (r: string)
    ensures '\n' !in r
    decreases Count(s, '\n')
  {
    if '\n' !in s then s
    else
      JoinFirstLineCount(s, '\n');
      JoinLines(JoinFirstLine(s))
  }

  /** `JoinLines` keeps the count of every character other than a space or a newline. */
  lemma {:induction false} JoinLinesCount(s: string, c: char)
    requires c != ' ' && c != '\n'
    ensures Count(JoinLines(s), c) == Count(s, c)
    decreases Count(s, '\n')
  {
    if '\n' in s {
      JoinFirstLineCount(s, c);
      JoinFirstLineCount(s, '\n');
      JoinLinesCount(JoinFirstLine(s), c);
    }
  }

  /** Text without a newline passes through unchanged. */
  lemma JoinLinesSingle(s: string)
    requires '\n' !in s
    ensures JoinLines(s) == s
  {
  }

  /** `strings.ReplaceAll(s, c, "")`. */
  function RemoveAll(s: string, c: char): (r: string)
    ensures c !in r
    ensures forall d :: d in r ==> d in s
  {
    if |s| == 0 then []
    else (if s[0] == c then [] else [s[0]]) + RemoveAll(s[1..], c)
  }

  /** Removing one character keeps the count of every other one. */
  lemma {:induction false} RemoveAllCount(s: string, c: char, d: char)
    requires c != d
    ensures Count(RemoveAll(s, c), d) == Count(s, d)
  {
    if |s| > 0 {
      RemoveAllCount(s[1..], c, d);
      var h := if s[0] == c then [] else [s[0]];
      CountAppend(h, RemoveAll(s[1..], c), d);
      CountAppend([s[0]], s[1..], d);
      assert s == [s[0]] + s[1..];
      if s[0] == c {
        assert Count([s[0]], d) == 0;
      }
    }
  }

  /** The inner scan of the newline loop: the index after the spaces that follow a newline. */
  method SkipSpacesFrom(s: string, i: nat) returns (j: nat)
    requires i <= |s|
    ensures j == SkipSpaces(s, i)
  {
    j := i;
    while j < |s| && s[j] == ' '
      invariant i <= j <= |s|
      invariant SkipSpaces(s, j) == SkipSpaces(s, i)
      decreases |s| - j
    {
      j := j + 1;
    }
  }

  /** `ParseSQLStmt` as a value. */
  function Parsed(sql: string): SqlParseResult
  {
    SqlParseResult(RemoveAll(JoinLines(Replaced(NameInner, sql)), '\t'), Args(NameInner, sql))
  }

  /** `ParseSQLStmt`. */
  method ParseSQLStmt(sql: string) returns (r: SqlParseResult)
    ensures r == Parsed(sql)
    ensures '\n' !in r.sql && '\t' !in r.sql
  {
    var matches := Args(NameInner, sql);
    var params: seq<string> := [];
    for i := 0 to |matches|
      invariant params == matches[..i]
    {
      params := params + [matches[i]];
    }
    assert matches[..|matches|] == matches;

    var prepared := Replaced(NameInner, sql);
    while true
      invariant JoinLines(prepared) == JoinLines(Replaced(NameInner, sql))
      decreases Count(prepared, '\n')
    {
      var idx := IndexOf(prepared, '\n');
      if idx == -1 {
        break;
      }
      var prev := prepared[..idx];
      var j := SkipSpacesFrom(prepared, idx + 1);
      JoinFirstLineCount(prepared, '\n');
      assert JoinLines(prepared) == JoinLines(JoinFirstLine(prepared));
      prepared := TrimRight(prev, {' '}) + " " + prepared[j..];
    }
    prepared := RemoveAll(prepared, '\t');
    r := SqlParseResult(prepared, params);
  }

  /** The prepared statement holds neither a newline nor a tab. */
  lemma ParsedClean(sql: string)
    ensures '\n' !in Parsed(sql).sql && '\t' !in Parsed(sql).sql
  {
  }

  /** Every collected name is a non-empty run of word characters and dots. */
  lemma {:induction false} ArgsAreNames(s: string)
    ensures forall k :: 0 <= k < |Args(NameInner, s)| ==>
      |Args(NameInner, s)[k]| > 0 && forall i :: 0 <= i < |Args(NameInner, s)[k]| ==> IsNameChar(Args(NameInner, s)[k][i])
    decreases |s|
  {
    if |s| > 0 {
      match TokenAt(NameInner, s)
      case Some(a) => ArgsAreNames(s[|a| + 3..]);
      case None => ArgsAreNames(s[1..]);
    }
  }

  /** In a statement without `?`, the prepared text holds one `?` per collected name. */
  lemma ParsedMarks(sql: string)
    requires '?' !in sql
    ensures Count(Parsed(sql).sql, '?') == |Parsed(sql).paramsName|
  {
    OneMarkPerArg(NameInner, sql);
    JoinLinesCount(Replaced(NameInner, sql), '?');
    RemoveAllCount(JoinLines(Replaced(NameInner, sql)), '\t', '?');
  }
}
