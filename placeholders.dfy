/**
 * The `#{name}` placeholders of the statement annotations, found the way Go's
 * `regexp` finds all matches: scanning left to right, taking the leftmost
 * match and going on after it. Two patterns are in use: `#\{([^}]*)\}` for
 * the generator's statement model and `#\{([\w\.]+)\}` for the runtime
 * `ParseSQLStmt`. For both, the match starting at a given place is unique,
 * so the scan is a plain recursion over the text.
 */
module Placeholders {
  import opened Wrappers
  import opened Strs

  datatype Pattern =
    | AnyInner   // #\{([^}]*)\}
    | NameInner  // #\{([\w\.]+)\}

  /** `[\w\.]`: an ASCII letter, digit, underscore or dot. */
  predicate IsNameChar(c: char)
  {
    ('a' <= c <= 'z') || ('A' <= c <= 'Z') || ('0' <= c <= '9') || c == '_' || c == '.'
  }

  /** The length of the leading run of name characters. */
  function NameRun(s: string): (n: nat)
    ensures n <= |s|
    ensures forall i :: 0 <= i < n ==> IsNameChar(s[i])
    ensures n < |s| ==> !IsNameChar(s[n])
  {
    if |s| == 0 || !IsNameChar(s[0]) then 0 else 1 + NameRun(s[1..])
  }

  /** The captured inner text of the match that starts at the first character of `s`, if one does. */
  function TokenAt(p: Pattern, s: string): (r: Option<string>)
    ensures r.Some? ==> |r.value| + 3 <= |s| && s[..|r.value| + 3] == "#{" + r.value + "}"
    ensures r.Some? ==> '}' !in r.value
    ensures r.Some? && p.NameInner? ==> |r.value| > 0 && forall i :: 0 <= i < |r.value| ==> IsNameChar(r.value[i])
    ensures |s| < 2 || s[0] != '#' || s[1] != '{' ==> r.None?
  {
    if |s| < 2 || s[0] != '#' || s[1] != '{' then None
    else
      match p
      case AnyInner =>
        var k := IndexOf(s[2..], '}');
        if k == -1 then None
        else
          assert s[..k + 3] == "#{" + s[2..2 + k] + "}";
          Some(s[2..2 + k])
      case NameInner =>
        var k := NameRun(s[2..]);
        if k > 0 && 2 + k < |s| && s[2 + k] == '}' then
          assert s[..k + 3] == "#{" + s[2..2 + k] + "}";
          assert forall i :: 0 <= i < k ==> s[2..2 + k][i] == s[2..][i];
          Some(s[2..2 + k])
        else None
  }

  /** The captured texts of all matches, left to right (`FindAllStringSubmatch`, group 1). */
  function Args(p: Pattern, s: string): seq<string>
    decreases |s|
  {
    if |s| == 0 then []
    else
      match TokenAt(p, s)
      case Some(a) => [a] + Args(p, s[|a| + 3..])
      case None => Args(p, s[1..])
  }

  /** Every match replaced by `?` (`ReplaceAllString(s, "?")`). */
  function Replaced(p: Pattern, s: string): string
    decreases |s|
  {
    if |s| == 0 then []
    else
      match TokenAt(p, s)
      case Some(a) => "?" + Replaced(p, s[|a| + 3..])
      case None => [s[0]] + Replaced(p, s[1..])
  }

  /** Puts `#{arg}` back in place of each `?`, taking the arguments in order. */
  function Restore(t: string, args: seq<string>): string
  {
    if |t| == 0 then []
    else if t[0] == '?' && |args| > 0 then "#{" + args[0] + "}" + Restore(t[1..], args[1..])
    else [t[0]] + Restore(t[1..], args)
  }

  /**
   * Round trip: in a text without `?`, putting each captured argument back in
   * place of its `?` gives the original text.
   */
  lemma {:induction false} RestoreReplaced(p: Pattern, s: string)
    requires '?' !in s
    ensures Restore(Replaced(p, s), Args(p, s)) == s
    decreases |s|
  {
    if |s| > 0 {
      match TokenAt(p, s)
      case Some(a) =>
        var rest := s[|a| + 3..];
        NoMarkAfter(s, |a| + 3);
        RestoreReplaced(p, rest);
        ReplacedMatch(p, s, a);
        RestoreMark(Replaced(p, rest), a, Args(p, rest));
        assert s == s[..|a| + 3] + rest;
      case None =>
        NoMarkAfter(s, 1);
        RestoreReplaced(p, s[1..]);
        ReplacedOther(p, s);
        RestoreOther(s[0], Replaced(p, s[1..]), Args(p, s[1..]));
        assert s == [s[0]] + s[1..];
    }
  }

  /** A suffix of a text without `?` has none either. */
  lemma NoMarkAfter(s: string, k: nat)
    requires '?' !in s && k <= |s|
    ensures '?' !in s[k..]
  {
  }

  /** Where a match starts, its `?` and its argument come first. */
  lemma ReplacedMatch(p: Pattern, s: string, a: string)
    requires |s| > 0 && TokenAt(p, s) == Some(a)
    ensures Replaced(p, s) == "?" + Replaced(p, s[|a| + 3..])
    ensures Args(p, s) == [a] + Args(p, s[|a| + 3..])
  {
  }

  /** Where no match starts, the character is kept and no argument is taken. */
  lemma ReplacedOther(p: Pattern, s: string)
    requires |s| > 0 && TokenAt(p, s).None?
    ensures Replaced(p, s) == [s[0]] + Replaced(p, s[1..])
    ensures Args(p, s) == Args(p, s[1..])
  {
  }

  /** A leading `?` takes the next argument back. */
  lemma RestoreMark(t: string, a: string, args: seq<string>)
    ensures Restore("?" + t, [a] + args) == "#{" + a + "}" + Restore(t, args)
  {
    assert ("?" + t)[1..] == t && ([a] + args)[1..] == args;
  }

  /** Any other leading character stays. */
  lemma RestoreOther(c: char, t: string, args: seq<string>)
    requires c != '?'
    ensures Restore([c] + t, args) == [c] + Restore(t, args)
  {
    assert ([c] + t)[1..] == t;
  }

  /** In a text without `?`, the replaced text holds exactly one `?` per match. */
  lemma {:induction false} OneMarkPerArg(p: Pattern, s: string)
    requires '?' !in s
    ensures Count(Replaced(p, s), '?') == |Args(p, s)|
    decreases |s|
  {
    if |s| > 0 {
      match TokenAt(p, s)
      case Some(a) =>
        var rest := s[|a| + 3..];
        NoMarkAfter(s, |a| + 3);
        OneMarkPerArg(p, rest);
        ReplacedMatch(p, s, a);
        CountAppend("?", Replaced(p, rest), '?');
        assert Count("?", '?') == 1 by {
          assert "?"[..0] == [];
        }
      case None =>
        NoMarkAfter(s, 1);
        OneMarkPerArg(p, s[1..]);
        ReplacedOther(p, s);
        CountAppend([s[0]], Replaced(p, s[1..]), '?');
        assert Count([s[0]], '?') == 0;
    }
  }

  /**
   * No match left for `#\{([^}]*)\}`: every `#{` has no `}` anywhere after it.
   */
  predicate Settled(t: string)
  {
    forall i :: 0 <= i < |t| - 1 && t[i] == '#' && t[i + 1] == '{' ==> '}' !in t[i + 2..]
  }

  /** A settled text holds no match: the scan finds nothing and replaces nothing. */
  lemma {:induction false} SettledUntouched(t: string)
    requires Settled(t)
    ensures Args(AnyInner, t) == [] && Replaced(AnyInner, t) == t
    decreases |t|
  {
    if |t| > 0 {
      if |t| >= 2 && t[0] == '#' && t[1] == '{' {
        assert '}' !in t[2..];
        assert TokenAt(AnyInner, t).None?;
      }
      assert Settled(t[1..]) by {
        forall i | 0 <= i < |t[1..]| - 1 && t[1..][i] == '#' && t[1..][i + 1] == '{'
          ensures '}' !in t[1..][i + 2..]
        {
          assert t[1..][i + 2..] == t[i + 3..];
        }
      }
      SettledUntouched(t[1..]);
      assert t == [t[0]] + t[1..];
    }
  }

  /** Replacing never adds a `}`. */
  lemma {:induction false} ReplacedBraces(p: Pattern, s: string)
    ensures '}' in Replaced(p, s) ==> '}' in s
    decreases |s|
  {
    if |s| > 0 {
      match TokenAt(p, s)
      case Some(a) =>
        var rest := s[|a| + 3..];
        ReplacedBraces(p, rest);
        if '}' in rest {
          var k :| 0 <= k < |rest| && rest[k] == '}';
          assert s[|a| + 3 + k] == '}';
        }
      case None =>
        ReplacedBraces(p, s[1..]);
        if '}' in s[1..] {
          var k :| 0 <= k < |s[1..]| && s[1..][k] == '}';
          assert s[1 + k] == '}';
        }
    }
  }

  /** After replacing, no match of `#\{([^}]*)\}` is left. */
  lemma {:induction false} ReplacedSettled(s: string)
    ensures Settled(Replaced(AnyInner, s))
    decreases |s|
  {
    if |s| > 0 {
      match TokenAt(AnyInner, s)
      case Some(a) =>
        var rest := s[|a| + 3..];
        ReplacedSettled(rest);
        ReplacedMatch(AnyInner, s, a);
        SettledCons('?', Replaced(AnyInner, rest));
      case None =>
        var r1 := Replaced(AnyInner, s[1..]);
        ReplacedSettled(s[1..]);
        ReplacedOther(AnyInner, s);
        if s[0] == '#' && |r1| > 0 && r1[0] == '{' {
          UnmatchedOpen(s);
        }
        SettledCons(s[0], r1);
    }
  }

  /** A character put in front of a settled text leaves it settled unless it opens a match. */
  lemma SettledCons(x: char, r: string)
    requires Settled(r)
    requires x == '#' && |r| > 0 && r[0] == '{' ==> '}' !in r[1..]
    ensures Settled([x] + r)
  {
    var t := [x] + r;
    forall i | 0 <= i < |t| - 1 && t[i] == '#' && t[i + 1] == '{'
      ensures '}' !in t[i + 2..]
    {
      assert t[i + 2..] == r[i + 1..];
    }
  }

  /** A `#{` where no match starts has no `}` after it, before or after replacing. */
  lemma UnmatchedOpen(s: string)
    requires |s| > 0 && s[0] == '#' && TokenAt(AnyInner, s).None?
    requires |Replaced(AnyInner, s[1..])| > 0 && Replaced(AnyInner, s[1..])[0] == '{'
    ensures '}' !in Replaced(AnyInner, s[1..])[1..]
  {
    var r1 := Replaced(AnyInner, s[1..]);
    FirstOfReplaced(AnyInner, s[1..]);
    assert s[1] == '{';
    assert '}' !in s[2..];
    ReplacedBraces(AnyInner, s[2..]);
    assert r1 == [s[1]] + Replaced(AnyInner, s[2..]) by {
      assert TokenAt(AnyInner, s[1..]).None?;
      assert s[1..][1..] == s[2..];
    }
  }

  /** The replaced text starts with `?` or with the text's own first character. */
  lemma FirstOfReplaced(p: Pattern, s: string)
    requires |s| > 0
    ensures |Replaced(p, s)| > 0
    ensures Replaced(p, s)[0] == '?' || Replaced(p, s)[0] == s[0]
  {
  }

  /** Removing trailing spaces and adding one keeps a text settled. */
  lemma SettledTrailing(t: string)
    requires Settled(t)
    ensures Settled(TrimRight(t, {' '}) + " ")
  {
    var u := TrimRight(t, {' '});
    var v := u + " ";
    forall i | 0 <= i < |v| - 1 && v[i] == '#' && v[i + 1] == '{'
      ensures '}' !in v[i + 2..]
    {
      assert t[i] == '#' && t[i + 1] == '{';
      assert '}' !in t[i + 2..];
      forall j | i + 2 <= j < |v| ensures v[j] != '}' {
        if j < |u| {
          assert v[j] == t[j];
          assert t[j] in t[i + 2..];
        }
      }
    }
  }
}
