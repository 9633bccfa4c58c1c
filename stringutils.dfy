/**
 * The string helpers of the generator and of the runtime: trailing-space
 * normalisation and snake_case to PascalCase conversion.
 */
module StringUtils {
  import opened Strs

  /**
   * `TrimTrailingRedundantSpaces`: the text keeps exactly one trailing space.
   * Both copies of the helper (generator and runtime) are this one function.
   */
  function TrimTrailingRedundantSpaces(s: string): (r: string)
    ensures |r| >= 1 && r[|r| - 1] == ' '
    ensures |r| >= 2 ==> r[|r| - 2] != ' '
  {
    TrimRight(s, {' '}) + " "
  }

  /** Normalising twice is normalising once. */
  lemma TrimTrailingIdempotent(s: string)
    ensures TrimTrailingRedundantSpaces(TrimTrailingRedundantSpaces(s)) == TrimTrailingRedundantSpaces(s)
  {
    var r := TrimTrailingRedundantSpaces(s);
    var u := TrimRight(s, {' '});
    assert r == u + " ";
    assert TrimRight(r, {' '}) == TrimRight(u, {' '}) by {
      assert r[..|r| - 1] == u;
    }
    assert TrimRight(u, {' '}) == u;
  }

  /** A text that is empty or only spaces becomes a single space. */
  lemma TrimTrailingAllSpaces(s: string)
    requires forall i :: 0 <= i < |s| ==> s[i] == ' '
    ensures TrimTrailingRedundantSpaces(s) == " "
  {
  }

  /** Dropping the added space gives back `strings.TrimRight(s, " ")`: the text before the trailing spaces is unchanged. */
  lemma TrimTrailingDropLast(s: string)
    ensures var r := TrimTrailingRedundantSpaces(s);
      r[..|r| - 1] == TrimRight(s, {' '}) && |r| - 1 <= |s| && r[..|r| - 1] == s[..|r| - 1] &&
      forall i :: |r| - 1 <= i < |s| ==> s[i] == ' '
  {
    var r := TrimTrailingRedundantSpaces(s);
    assert r[..|r| - 1] == TrimRight(s, {' '});
  }

  /**
   * `isSeparator` of `strings.Title` for ASCII: anything but a letter, a digit
   * or `_`; beyond ASCII, white space.
   */
  predicate IsSeparator(c: char)
  {
    if c <= '\U{007F}' then !(('a' <= c <= 'z') || ('A' <= c <= 'Z') || ('0' <= c <= '9') || c == '_')
    else IsSpace(c)
  }

  /** `strings.Title` after the character `prev`: a letter following a separator is upper-cased. */
  function TitleAfter(s: string, prev: char): (r: string)
    ensures |r| == |s|
    ensures forall i :: 0 <= i < |s| ==> r[i] == s[i] || r[i] == UpperChar(s[i])
  {
    if |s| == 0 then []
    else [if IsSeparator(prev) then UpperChar(s[0]) else s[0]] + TitleAfter(s[1..], s[0])
  }

  /** `strings.Title`: the first letter of each word upper-cased. */
  function Title(s: string): (r: string)
    ensures |r| == |s|
    ensures |s| > 0 ==> r[0] == UpperChar(s[0])
  {
    TitleAfter(s, ' ')
  }

  /** The title-cased non-empty parts, in order: the `result` slice of both conversions. */
  function TitledParts(parts: seq<string>): (r: seq<string>)
    ensures |r| <= |parts|
  {
    if |parts| == 0 then []
    else
      var last := parts[|parts| - 1];
      TitledParts(parts[..|parts| - 1]) + (if last == "" then [] else [Title(last)])
  }

  /** The PascalCase text of a list of parts: the titled non-empty parts concatenated. */
  function PascalOf(parts: seq<string>): string
  {
    Join(TitledParts(parts), "")
  }

  /** `ToPascalCaseByList`. */
  method ToPascalCaseByList(parts: seq<string>) returns (r: string)
    ensures r == PascalOf(parts)
  {
    var result: seq<string> := [];
    for i := 0 to |parts|
      invariant result == TitledParts(parts[..i])
    {
      assert parts[..i + 1][..i] == parts[..i];
      if parts[i] != "" {
        result := result + [Title(parts[i])];
      }
    }
    assert parts[..|parts|] == parts;
    r := Join(result, "");
  }

  /** `ToPascalCase`: split on `_`, then as `ToPascalCaseByList`. */
  method ToPascalCase(snake: string) returns (r: string)
    ensures r == PascalOf(Split(snake, '_'))
  {
    var parts := Split(snake, '_');
    var result: seq<string> := [];
    for i := 0 to |parts|
      invariant result == TitledParts(parts[..i])
    {
      assert parts[..i + 1][..i] == parts[..i];
      if parts[i] != "" {
        result := result + [Title(parts[i])];
      }
    }
    assert parts[..|parts|] == parts;
    r := Join(result, "");
  }

  lemma {:induction false} JoinEmptySnoc(xs: seq<string>, x: string)
    ensures Join(xs + [x], "") == Join(xs, "") + x
  {
    if |xs| == 0 {
      assert xs + [x] == [x];
    } else if |xs| == 1 {
      assert xs + [x] == [xs[0], x];
      assert [xs[0], x][1..] == [x];
    } else {
      assert (xs + [x])[1..] == xs[1..] + [x];
      JoinEmptySnoc(xs[1..], x);
    }
  }

  lemma {:induction false} TitleKeepsUnderscore(s: string, prev: char)
    ensures '_' in TitleAfter(s, prev) <==> '_' in s
  {
    var r := TitleAfter(s, prev);
    forall i | 0 <= i < |s| ensures r[i] == '_' <==> s[i] == '_' {
      assert r[i] == s[i] || r[i] == UpperChar(s[i]);
    }
    if '_' in s {
      var i :| 0 <= i < |s| && s[i] == '_';
      assert r[i] == '_';
    }
  }

  /** The PascalCase text of parts without `_` holds no `_`. */
  lemma {:induction false} PascalNoUnderscore(parts: seq<string>)
    requires forall i :: 0 <= i < |parts| ==> '_' !in parts[i]
    ensures '_' !in PascalOf(parts)
  {
    if |parts| > 0 {
      var init := parts[..|parts| - 1];
      var last := parts[|parts| - 1];
      assert forall i :: 0 <= i < |init| ==> init[i] == parts[i];
      PascalNoUnderscore(init);
      if last != "" {
        JoinEmptySnoc(TitledParts(init), Title(last));
        TitleKeepsUnderscore(last, ' ');
        assert PascalOf(parts) == PascalOf(init) + Title(last);
      } else {
        assert TitledParts(parts) == TitledParts(init);
      }
    }
  }

  /** `ToPascalCase` leaves no `_`: the split removed them and title casing adds none. */
  lemma PascalCaseNoUnderscore(snake: string)
    ensures '_' !in PascalOf(Split(snake, '_'))
  {
    PascalNoUnderscore(Split(snake, '_'));
  }

  /** The result is empty exactly when every part is empty (in particular for no parts or an empty text). */
  lemma {:induction false} PascalEmpty(parts: seq<string>)
    ensures PascalOf(parts) == "" <==> forall i :: 0 <= i < |parts| ==> parts[i] == ""
  {
    if |parts| > 0 {
      var init := parts[..|parts| - 1];
      var last := parts[|parts| - 1];
      PascalEmpty(init);
      AllEmptySnoc(parts, init);
      if last != "" {
        JoinEmptySnoc(TitledParts(init), Title(last));
        assert PascalOf(parts) == PascalOf(init) + Title(last);
        assert |Title(last)| > 0;
      } else {
        assert TitledParts(parts) == TitledParts(init);
      }
    }
  }

  /** Every part is empty exactly when every part but the last is, and the last is too. */
  lemma AllEmptySnoc(parts: seq<string>, init: seq<string>)
    requires |parts| > 0 && init == parts[..|parts| - 1]
    ensures (forall i :: 0 <= i < |parts| ==> parts[i] == "")
      <==> (forall i :: 0 <= i < |init| ==> init[i] == "") && parts[|parts| - 1] == ""
  {
  }
}
