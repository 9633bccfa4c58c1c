/**
 * The pieces of Go's `strings` and `strconv` packages that the modelled code
 * relies on.  A Go string is a sequence of bytes; here it is a sequence of
 * characters, one character per decoded rune, and letter case is folded for
 * ASCII letters only.
 */
module Strs {
  import opened Wrappers

  /** `unicode.IsSpace`: the white space `strings.TrimSpace` removes. */
  const Spaces: set<char> := {'\t', '\n', '\U{000B}', '\U{000C}', '\r', ' ', '\U{0085}', '\U{00A0}', '\U{1680}',
    '\U{2000}', '\U{2001}', '\U{2002}', '\U{2003}', '\U{2004}', '\U{2005}', '\U{2006}', '\U{2007}', '\U{2008}', '\U{2009}', '\U{200A}',
    '\U{2028}', '\U{2029}', '\U{202F}', '\U{205F}', '\U{3000}'}

  predicate IsSpace(c: char)
  {
    c in Spaces
  }

  /** `strings.TrimRight(s, cutset)`: drops trailing characters that lie in `cut`. */
  function TrimRight(s: string, cut: set<char>): (r: string)
    ensures |r| <= |s| && r == s[..|r|]
    ensures r == [] || r[|r| - 1] !in cut
    ensures forall i :: |r| <= i < |s| ==> s[i] in cut
  {
    if |s| > 0 && s[|s| - 1] in cut then TrimRight(s[..|s| - 1], cut) else s
  }

  /** `strings.TrimLeft(s, cutset)`: drops leading characters that lie in `cut`. */
  function TrimLeft(s: string, cut: set<char>): (r: string)
    ensures |r| <= |s| && r == s[|s| - |r|..]
    ensures r == [] || r[0] !in cut
    ensures forall i :: 0 <= i < |s| - |r| ==> s[i] in cut
  {
    if |s| > 0 && s[0] in cut then TrimLeft(s[1..], cut) else s
  }

  /** `strings.Trim(s, cutset)`. */
  function Trim(s: string, cut: set<char>): (r: string)
    ensures |r| <= |s|
    ensures r == [] || (r[0] !in cut && r[|r| - 1] !in cut)
  {
    var right := TrimRight(s, cut);
    var r := TrimLeft(right, cut);
    assert r != [] ==> r[|r| - 1] == right[|right| - 1];
    r
  }

  /** Trimming the right end twice is trimming it once. */
  lemma TrimRightIdempotent(s: string, cut: set<char>)
    ensures TrimRight(TrimRight(s, cut), cut) == TrimRight(s, cut)
  {
  }

  /** `strings.TrimRight` with a predicate: drops trailing white space. */
  function TrimRightSpace(s: string): (r: string)
    ensures |r| <= |s| && r == s[..|r|]
    ensures r == [] || !IsSpace(r[|r| - 1])
  {
    if |s| > 0 && IsSpace(s[|s| - 1]) then TrimRightSpace(s[..|s| - 1]) else s
  }

  /** `strings.TrimLeft` with a predicate: drops leading white space. */
  function TrimLeftSpace(s: string): (r: string)
    ensures |r| <= |s| && r == s[|s| - |r|..]
    ensures r == [] || !IsSpace(r[0])
  {
    if |s| > 0 && IsSpace(s[0]) then TrimLeftSpace(s[1..]) else s
  }

  /** `strings.TrimSpace`: the result carries no white space at either end. */
  function TrimSpace(s: string): (r: string)
    ensures |r| <= |s|
    ensures r == [] || (!IsSpace(r[0]) && !IsSpace(r[|r| - 1]))
  {
    TrimLeftSpace(TrimRightSpace(s))
  }

  /** Trimming keeps a run of the text: every character left was in it. */
  lemma TrimSpaceMembers(s: string)
    ensures forall c :: c in TrimSpace(s) ==> c in s
  {
    var right := TrimRightSpace(s);
    var r := TrimLeftSpace(right);
    SliceMembers(s, |right| - |r|, |right|);
    assert r == s[|right| - |r|..|right|];
  }

  /** Every character of a slice is a character of the whole. */
  lemma SliceMembers(s: string, lo: int, hi: int)
    requires 0 <= lo <= hi <= |s|
    ensures forall c :: c in s[lo..hi] ==> c in s
  {
    forall c | c in s[lo..hi]
      ensures c in s
    {
      var k :| 0 <= k < hi - lo && s[lo..hi][k] == c;
      assert s[lo + k] == c;
    }
  }

  /** A text with no white space at either end is its own trimming. */
  lemma TrimSpaceTrimmed(s: string)
    requires s == [] || (!IsSpace(s[0]) && !IsSpace(s[|s| - 1]))
    ensures TrimSpace(s) == s
  {
  }

  /** Trimming twice is trimming once. */
  lemma TrimSpaceIdempotent(s: string)
    ensures TrimSpace(TrimSpace(s)) == TrimSpace(s)
  {
    TrimSpaceTrimmed(TrimSpace(s));
  }

  /** `strings.Split(s, sep)` for a one-character separator. */
  function Split(s: string, c: char): (parts: seq<string>)
    ensures |parts| >= 1
    ensures forall i :: 0 <= i < |parts| ==> c !in parts[i]
  {
    if |s| == 0 then [[]]
    else
      var rest := Split(s[1..], c);
      if s[0] == c then [[]] + rest
      else [[s[0]] + rest[0]] + rest[1..]
  }

  /** `strings.Join(parts, sep)`. */
  function Join(parts: seq<string>, sep: string): (r: string)
  {
    if |parts| == 0 then []
    else if |parts| == 1 then parts[0]
    else parts[0] + sep + Join(parts[1..], sep)
  }

  /** Joining one more part adds the separator and the part at the end. */
  lemma {:induction false} JoinSnoc(parts: seq<string>, x: string, sep: string)
    requires |parts| >= 1
    ensures Join(parts + [x], sep) == Join(parts, sep) + sep + x
  {
    if |parts| == 1 {
      assert (parts + [x])[1..] == [x];
    } else {
      assert (parts + [x])[1..] == parts[1..] + [x];
      JoinSnoc(parts[1..], x, sep);
    }
  }

  /** `n` copies of `s`. */
  function Copies(s: string, n: nat): (r: seq<string>)
    ensures |r| == n && forall i :: 0 <= i < n ==> r[i] == s
  {
    seq(n, _ => s)
  }

  /** Every element with `sfx` appended. */
  function Suffixed(xs: seq<string>, sfx: string): (r: seq<string>)
    ensures |r| == |xs| && forall i :: 0 <= i < |xs| ==> r[i] == xs[i] + sfx
  {
    seq(|xs|, i requires 0 <= i < |xs| => xs[i] + sfx)
  }

  /**
   * What a loop that writes each part followed by `sep`, except after the
   * last, has written after `i` parts.
   */
  function JoinedUpTo(parts: seq<string>, sep: string, i: nat): string
    requires i <= |parts|
  {
    if i == 0 then "" else Join(parts[..i], sep) + (if i < |parts| then sep else "")
  }

  /** One more pass of such a loop writes the next part and, unless it is the last, the separator. */
  lemma JoinedStep(parts: seq<string>, sep: string, i: nat)
    requires i < |parts|
    ensures JoinedUpTo(parts, sep, i + 1) == JoinedUpTo(parts, sep, i) + parts[i] + (if i + 1 < |parts| then sep else "")
  {
    if i > 0 {
      assert parts[..i + 1] == parts[..i] + [parts[i]];
      JoinSnoc(parts[..i], parts[i], sep);
    } else {
      assert parts[..1] == [parts[0]];
    }
  }

  /** After every part such a loop has written the parts joined by `sep`. */
  lemma JoinedAll(parts: seq<string>, sep: string)
    ensures JoinedUpTo(parts, sep, |parts|) == Join(parts, sep)
  {
    assert parts[..|parts|] == parts;
  }

  /** Joining parts that each hold one `c`, with a separator free of `c`, gives one `c` per part. */
  lemma {:induction false} CountJoinMarks(parts: seq<string>, sep: string, c: char)
    requires c !in sep
    requires forall i :: 0 <= i < |parts| ==> Count(parts[i], c) == 1
    ensures Count(Join(parts, sep), c) == |parts|
  {
    if |parts| > 1 {
      CountJoinMarks(parts[1..], sep, c);
      CountAppend(parts[0] + sep, Join(parts[1..], sep), c);
      CountAppend(parts[0], sep, c);
    }
  }

  /** Joining names each followed by a suffix holding one `c`: one `c` per name when neither the names nor the separator hold any. */
  lemma CountSuffixedJoin(xs: seq<string>, sfx: string, sep: string, c: char)
    requires c !in sep && Count(sfx, c) == 1
    requires forall i :: 0 <= i < |xs| ==> c !in xs[i]
    ensures Count(Join(Suffixed(xs, sfx), sep), c) == |xs|
  {
    forall i | 0 <= i < |xs| ensures Count(Suffixed(xs, sfx)[i], c) == 1 {
      CountAppend(xs[i], sfx, c);
    }
    CountJoinMarks(Suffixed(xs, sfx), sep, c);
  }

  /** Joining the parts of a split with the separator gives back the text. */
  lemma {:induction false} JoinSplit(s: string, c: char)
    ensures Join(Split(s, c), [c]) == s
  {
    if |s| > 0 {
      JoinSplit(s[1..], c);
      var rest := Split(s[1..], c);
      if s[0] == c {
        assert Split(s, c) == [[]] + rest;
        assert s == [c] + s[1..];
      } else {
        if |rest| == 1 {
          assert Split(s, c) == [[s[0]] + rest[0]];
        } else {
          assert Split(s, c)[1..] == rest[1..];
        }
      }
    }
  }

  /** A text without the separator splits into itself alone. */
  lemma {:induction false} SplitWithout(s: string, c: char)
    requires c !in s
    ensures Split(s, c) == [s]
  {
    if |s| > 0 {
      SplitWithout(s[1..], c);
      assert [s[0]] + s[1..] == s;
    }
  }

  /** A text holding the separator splits into at least two parts. */
  lemma {:induction false} SplitWith(s: string, c: char)
    requires c in s
    ensures |Split(s, c)| >= 2
  {
    if s[0] != c {
      SplitWith(s[1..], c);
    }
  }

  /** Text joined at a separator splits into the parts of each side. */
  lemma {:induction false} SplitConcat(a: string, b: string, c: char)
    ensures Split(a + [c] + b, c) == Split(a, c) + Split(b, c)
  {
    if |a| == 0 {
      assert a + [c] + b == [c] + b;
      SplitAtSep(b, c);
    } else {
      SplitConcat(a[1..], b, c);
      SplitConcatStep(a[0], a[1..], b, c);
      assert a == [a[0]] + a[1..];
    }
  }

  /** The step of `SplitConcat`: one more leading character `x`. */
  lemma SplitConcatStep(x: char, s: string, b: string, c: char)
    requires Split(s + [c] + b, c) == Split(s, c) + Split(b, c)
    ensures Split([x] + s + [c] + b, c) == Split([x] + s, c) + Split(b, c)
  {
    var u := s + [c] + b;
    assert [x] + s + [c] + b == [x] + u;
    if x == c {
      SplitAtSep(u, c);
      SplitAtSep(s, c);
    } else {
      SplitPartStep(x, s, u, Split(b, c), c);
    }
  }

  /** A character other than the separator extends the first part on both sides. */
  lemma SplitPartStep(x: char, s: string, u: string, right: seq<string>, c: char)
    requires x != c
    requires Split(u, c) == Split(s, c) + right
    ensures Split([x] + u, c) == Split([x] + s, c) + right
  {
    SplitOther(x, u, c);
    SplitOther(x, s, c);
    ReplaceHead(Split(u, c), Split(s, c), right, [x] + Split(s, c)[0]);
  }

  /** All the items of a sequence. */
  lemma PrefixAll<T>(s: seq<T>)
    ensures s[..|s|] == s
  {
  }

  /** The first `n` items of the first `n + 1`. */
  lemma PrefixOfLonger<T>(s: seq<T>, n: nat)
    requires n < |s|
    ensures s[..n + 1][..n] == s[..n]
  {
  }

  /** Replacing the first element of `left + right` replaces the first element of `left`. */
  lemma ReplaceHead<T>(whole: seq<T>, left: seq<T>, right: seq<T>, h: T)
    requires |left| >= 1 && whole == left + right
    ensures [h] + whole[1..] == ([h] + left[1..]) + right
  {
    assert whole[1..] == left[1..] + right;
  }

  /** A leading character other than the separator joins the first part. */
  lemma SplitOther(x: char, s: string, c: char)
    requires x != c
    ensures Split([x] + s, c) == [[x] + Split(s, c)[0]] + Split(s, c)[1..]
  {
    assert ([x] + s)[1..] == s;
  }

  /** A leading separator starts with an empty part. */
  lemma SplitAtSep(b: string, c: char)
    ensures Split([c] + b, c) == [[]] + Split(b, c)
  {
    assert ([c] + b)[1..] == b;
  }

  /** `strings.HasPrefix`. */
  predicate HasPrefix(s: string, p: string)
  {
    |p| <= |s| && s[..|p|] == p
  }

  /** `strings.HasSuffix`. */
  predicate HasSuffix(s: string, p: string)
  {
    |p| <= |s| && s[|s| - |p|..] == p
  }

  /** `sub` occurs in `s` at position `i`. */
  predicate OccursAt(s: string, sub: string, i: int)
  {
    0 <= i <= |s| - |sub| && s[i..i + |sub|] == sub
  }

  /** `strings.Contains` for a substring: `sub` starts at some position of the text. */
  predicate ContainsSub(s: string, sub: string)
    decreases |s|
  {
    HasPrefix(s, sub) || (|s| > 0 && ContainsSub(s[1..], sub))
  }

  /** `sub` occurs in the text at some position. */
  predicate OccursSomewhere(s: string, sub: string)
  {
    exists i | 0 <= i <= |s| - |sub| :: OccursAt(s, sub, i)
  }

  /** The scan finds `sub` exactly when it occurs at some position. */
  lemma {:induction false} ContainsSubIff(s: string, sub: string)
    ensures ContainsSub(s, sub) <==> OccursSomewhere(s, sub)
    decreases |s|
  {
    if HasPrefix(s, sub) {
      assert OccursAt(s, sub, 0);
    } else if |s| > 0 {
      ContainsSubIff(s[1..], sub);
      if OccursSomewhere(s[1..], sub) {
        var i :| 0 <= i <= |s| - 1 - |sub| && OccursAt(s[1..], sub, i);
        OccursShift(s, sub, i);
      }
      if OccursSomewhere(s, sub) {
        var i :| 0 <= i <= |s| - |sub| && OccursAt(s, sub, i);
        assert i != 0;
        OccursShift(s, sub, i - 1);
      }
    }
  }

  /** An occurrence in the text after its first character is one position further on in the text. */
  lemma OccursShift(s: string, sub: string, i: nat)
    requires |s| > 0
    ensures OccursAt(s[1..], sub, i) <==> OccursAt(s, sub, i + 1)
  {
    if i + |sub| <= |s| - 1 {
      assert s[1..][i..i + |sub|] == s[i + 1..i + 1 + |sub|];
    }
  }

  /** A text lacking one of the characters of `sub` does not contain `sub`. */
  lemma NotContainsByChar(s: string, sub: string, k: nat)
    requires k < |sub| && sub[k] !in s
    ensures !ContainsSub(s, sub)
  {
    forall i | 0 <= i <= |s| - |sub|
      ensures !OccursAt(s, sub, i)
    {
      assert s[i..i + |sub|][k] == s[i + k];
    }
    ContainsSubIff(s, sub);
  }

  /** A text that holds `sub` at some position contains it. */
  lemma ContainsAt(s: string, sub: string, i: int)
    requires OccursAt(s, sub, i)
    ensures ContainsSub(s, sub)
  {
    ContainsSubIff(s, sub);
  }

  /** `strings.IndexRune`: the leftmost position of `c`, or -1. */
  function IndexOf(s: string, c: char): (r: int)
    ensures -1 <= r < |s|
    ensures r == -1 <==> c !in s
    ensures r >= 0 ==> s[r] == c && c !in s[..r]
  {
    if |s| == 0 then -1
    else if s[0] == c then 0
    else
      var k := IndexOf(s[1..], c);
      assert k >= 0 ==> s[..k + 1] == [s[0]] + s[1..][..k];
      if k == -1 then -1 else k + 1
  }

  /** `strings.LastIndex` for a one-character needle: the rightmost position of `c`, or -1. */
  function LastIndexOf(s: string, c: char): (r: int)
    ensures -1 <= r < |s|
    ensures r >= 0 ==> s[r] == c
    ensures forall j :: r < j < |s| ==> s[j] != c
  {
    if |s| == 0 then -1
    else if s[|s| - 1] == c then |s| - 1
    else LastIndexOf(s[..|s| - 1], c)
  }

  /** `strings.Index`: the leftmost position at which `sub` occurs, or -1. */
  function IndexOfSub(s: string, sub: string): (r: int)
    ensures r == -1 || OccursAt(s, sub, r)
    ensures forall j :: 0 <= j < r ==> !OccursAt(s, sub, j)
    ensures r == -1 <==> !ContainsSub(s, sub)
  {
    ContainsSubIff(s, sub);
    IndexFrom(s, sub, 0)
  }

  function IndexFrom(s: string, sub: string, i: nat): (r: int)
    requires i <= |s| + 1
    ensures r == -1 || (i <= r && OccursAt(s, sub, r))
    ensures forall j :: i <= j < r ==> !OccursAt(s, sub, j)
    ensures r == -1 <==> forall j :: i <= j ==> !OccursAt(s, sub, j)
    decreases |s| + 1 - i
  {
    if i + |sub| > |s| then -1
    else if s[i..i + |sub|] == sub then i
    else IndexFrom(s, sub, i + 1)
  }

  /** `strings.Cut(s, sep)`: the text before and after the first `sep`, and whether there was one. */
  function Cut(s: string, sep: string): (r: (string, string, bool))
    ensures r.2 <==> ContainsSub(s, sep)
    ensures r.2 ==> s == r.0 + sep + r.1
    ensures r.2 ==> forall j :: 0 <= j < |r.0| ==> !OccursAt(s, sep, j)
    ensures !r.2 ==> r.0 == s && r.1 == []
  {
    var i := IndexOfSub(s, sep);
    if i == -1 then (s, [], false)
    else
      assert s == s[..i] + s[i..i + |sep|] + s[i + |sep|..];
      (s[..i], s[i + |sep|..], true)
  }

  /** ASCII upper case, as `unicode.ToUpper` does for ASCII letters. */
  function UpperChar(c: char): char
  {
    if 'a' <= c <= 'z' then (c as int - 32) as char else c
  }

  /** `strings.ToUpper`, ASCII letters only. */
  function ToUpper(s: string): (r: string)
    ensures |r| == |s|
    ensures forall i :: 0 <= i < |s| ==> r[i] == UpperChar(s[i])
  {
    seq(|s|, i requires 0 <= i < |s| => UpperChar(s[i]))
  }

  /** Upper-casing twice is upper-casing once. */
  lemma ToUpperIdempotent(s: string)
    ensures ToUpper(ToUpper(s)) == ToUpper(s)
  {
  }

  /** `strings.EqualFold`, ASCII letters only. */
  predicate EqualFold(a: string, b: string)
  {
    ToUpper(a) == ToUpper(b)
  }

  predicate IsDigit(c: char)
  {
    '0' <= c <= '9'
  }

  predicate AllDigits(s: string)
  {
    forall i :: 0 <= i < |s| ==> IsDigit(s[i])
  }

  /** The value of a string of decimal digits. */
  function DigitsValue(s: string): (n: nat)
    requires AllDigits(s)
  {
    if |s| == 0 then 0 else 10 * DigitsValue(s[..|s| - 1]) + (s[|s| - 1] as int - '0' as int)
  }

  const MinInt64: int := -0x8000_0000_0000_0000
  const MaxInt64: int := 0x7FFF_FFFF_FFFF_FFFF

  /** Whether `strconv.Atoi` accepts `s`: an optional sign, then decimal digits, within 64 bits. */
  predicate AtoiOk(s: string)
  {
    var digits := if |s| > 0 && (s[0] == '+' || s[0] == '-') then s[1..] else s;
    |digits| > 0 && AllDigits(digits) &&
    var d: int := DigitsValue(digits);
    MinInt64 <= (if s[0] == '-' then -d else d) <= MaxInt64
  }

  /**
   * The number `strconv.Atoi` returns beside its error: the value when `s` is
   * accepted, 0 on a syntax error, the nearest 64-bit bound on a range error.
   */
  function AtoiValue(s: string): (n: int)
    ensures MinInt64 <= n <= MaxInt64
  {
    var digits := if |s| > 0 && (s[0] == '+' || s[0] == '-') then s[1..] else s;
    if |digits| == 0 || !AllDigits(digits) then 0
    else
      var d: int := DigitsValue(digits);
      var v := if s[0] == '-' then -d else d;
      if v < MinInt64 then MinInt64 else if v > MaxInt64 then MaxInt64 else v
  }

  /** A plain digit string reads as its own value when it fits in 64 bits. */
  lemma AtoiDigits(s: string)
    requires |s| > 0 && AllDigits(s) && DigitsValue(s) <= MaxInt64
    ensures AtoiOk(s) && AtoiValue(s) == DigitsValue(s)
  {
  }

  /** The decimal digits of a natural number. */
  function NatToString(n: nat): (r: string)
    ensures |r| > 0 && AllDigits(r)
    ensures DigitsValue(r) == n
    decreases n
  {
    var d := [(n % 10 + '0' as int) as char];
    if n < 10 then d
    else
      var r := NatToString(n / 10) + d;
      assert r[..|r| - 1] == NatToString(n / 10);
      r
  }

  /** `strconv.Itoa` / `%d`: decimal digits with a leading `-` for negative numbers. */
  function Itoa(n: int): (r: string)
    ensures n >= 0 ==> r == NatToString(n)
    ensures n < 0 ==> r == "-" + NatToString(-n)
  {
    if n >= 0 then NatToString(n) else "-" + NatToString(-n)
  }

  /** `strconv.ParseBool`. */
  function ParseBool(s: string): (r: Option<bool>)
    ensures r == Some(true) <==> s in {"1", "t", "T", "TRUE", "true", "True"}
    ensures r == Some(false) <==> s in {"0", "f", "F", "FALSE", "false", "False"}
  {
    if s in {"1", "t", "T", "TRUE", "true", "True"} then Some(true)
    else if s in {"0", "f", "F", "FALSE", "false", "False"} then Some(false)
    else None
  }

  /** A hexadecimal digit, lower case as `strconv` writes it. */
  function HexDigit(d: nat): (c: char)
    requires d < 16
    ensures '0' <= c <= '9' || 'a' <= c <= 'f'
  {
    if d < 10 then ('0' as int + d) as char else ('a' as int + d - 10) as char
  }

  /** The value of a lower-case hexadecimal digit. */
  function HexValue(c: char): Option<nat>
  {
    if '0' <= c <= '9' then Some(c as int - '0' as int)
    else if 'a' <= c <= 'f' then Some(c as int - 'a' as int + 10)
    else None
  }

  /**
   * How `strconv.Quote` writes one character inside the quotes: `"` and `\`
   * behind a backslash, the seven ASCII controls with a letter escape, the
   * other ASCII controls and DEL as `\x` and two hexadecimal digits, and
   * every other character as itself.
   */
  function QuoteChar(c: char): (r: string)
    ensures |r| >= 1
  {
    if c == '"' then "\\\"" else if c == '\\' then "\\\\"
    else if c == '\U{0007}' then "\\a" else if c == '\U{0008}' then "\\b"
    else if c == '\U{000C}' then "\\f" else if c == '\n' then "\\n"
    else if c == '\r' then "\\r" else if c == '\t' then "\\t"
    else if c == '\U{000B}' then "\\v"
    else if c < ' ' || c == '\U{007F}' then "\\x" + [HexDigit(c as int / 16), HexDigit(c as int % 16)]
    else [c]
  }

  /** The text between the quotes of `strconv.Quote`. */
  function QuoteBody(s: string): string
  {
    if |s| == 0 then "" else QuoteChar(s[0]) + QuoteBody(s[1..])
  }

  /** `strconv.Quote`: the text in double quotes, with its escapes. */
  function Quote(s: string): (r: string)
    ensures |r| >= 2 && r[0] == '"' && r[|r| - 1] == '"'
  {
    "\"" + QuoteBody(s) + "\""
  }

  /** The character a letter escape `\l` stands for, as `strconv.Unquote` reads it. */
  function Unescape(l: char): Option<char>
  {
    if l == 'a' then Some('\U{0007}') else if l == 'b' then Some('\U{0008}')
    else if l == 'f' then Some('\U{000C}') else if l == 'n' then Some('\n')
    else if l == 'r' then Some('\r') else if l == 't' then Some('\t')
    else if l == 'v' then Some('\U{000B}') else if l == '\\' then Some('\\')
    else if l == '"' then Some('"') else None
  }

  /** The text between the quotes read back, escapes decoded, as `strconv.Unquote` does. */
  function UnquoteBody(t: string): Option<string>
    decreases |t|
  {
    if |t| == 0 then Some("")
    else if t[0] != '\\' then
      match UnquoteBody(t[1..])
      case None => None
      case Some(rest) => Some([t[0]] + rest)
    else if |t| < 2 then None
    else if t[1] == 'x' then
      if |t| < 4 then None
      else
        match (HexValue(t[2]), HexValue(t[3]), UnquoteBody(t[4..]))
        case (Some(h), Some(l), Some(rest)) => Some([(h * 16 + l) as char] + rest)
        case _ => None
    else
      match (Unescape(t[1]), UnquoteBody(t[2..]))
      case (Some(c), Some(rest)) => Some([c] + rest)
      case _ => None
  }

  /** Reading one quoted character back gives the character. */
  lemma UnquoteChar(c: char, rest: string)
    ensures UnquoteBody(QuoteChar(c) + rest) ==
      match UnquoteBody(rest) case None => None case Some(x) => Some([c] + x)
  {
    var q := QuoteChar(c) + rest;
    if c < ' ' || c == '\U{007F}' {
      if !(c == '\U{0007}' || c == '\U{0008}' || c == '\U{000C}' || c == '\n' || c == '\r' || c == '\t' || c == '\U{000B}') {
        var h, l := c as int / 16, c as int % 16;
        assert HexValue(HexDigit(h)) == Some(h);
        assert HexValue(HexDigit(l)) == Some(l);
        assert q[4..] == rest;
        assert (h * 16 + l) as char == c;
      } else {
        assert q[2..] == rest;
      }
    } else if c == '"' || c == '\\' {
      assert q[2..] == rest;
    } else {
      assert q[1..] == rest;
    }
  }

  /** `strconv.Unquote` inverts `strconv.Quote`'s body: no character is lost or confused. */
  lemma {:induction false} UnquoteQuote(s: string)
    ensures UnquoteBody(QuoteBody(s)) == Some(s)
  {
    if |s| > 0 {
      UnquoteQuote(s[1..]);
      UnquoteChar(s[0], QuoteBody(s[1..]));
      assert [s[0]] + s[1..] == s;
    }
  }

  /** The text between the quotes of `Quote(s)` reads back as `s`. */
  lemma QuoteReadsBack(s: string)
    ensures var q := Quote(s); UnquoteBody(q[1..|q| - 1]) == Some(s)
  {
    var q := Quote(s);
    assert q[1..|q| - 1] == QuoteBody(s);
    UnquoteQuote(s);
  }

  /** Whether `strconv.Quote` writes `c` other than as itself. */
  predicate Escaped(c: char)
  {
    c == '"' || c == '\\' || c < ' ' || c == '\U{007F}'
  }

  /** A text with nothing to escape is quoted as itself. */
  lemma {:induction false} QuotePlain(s: string)
    requires forall i :: 0 <= i < |s| ==> !Escaped(s[i])
    ensures Quote(s) == "\"" + s + "\""
    ensures QuoteBody(s) == s
  {
    if |s| > 0 {
      QuotePlain(s[1..]);
      assert [s[0]] + s[1..] == s;
    }
  }

  /** A quote or a tab inside the text comes out escaped. */
  lemma QuoteEscapes()
    ensures Quote("t\"x") == "\"t\\\"x\""
    ensures Quote("\t") == "\"\\t\""
  {
    assert QuoteBody("t\"x") == QuoteChar('t') + QuoteBody("\"x");
    assert QuoteBody("\"x") == QuoteChar('"') + QuoteBody("x");
    assert QuoteBody("x") == QuoteChar('x') + QuoteBody("");
    assert QuoteBody("\t") == QuoteChar('\t') + QuoteBody("");
  }

  /** The number of occurrences of `c` in `s`. */
  function Count(s: string, c: char): (n: nat)
    ensures n <= |s|
    ensures n == 0 <==> c !in s
  {
    if |s| == 0 then 0 else Count(s[..|s| - 1], c) + (if s[|s| - 1] == c then 1 else 0)
  }

  lemma {:induction false} CountAppend(a: string, b: string, c: char)
    ensures Count(a + b, c) == Count(a, c) + Count(b, c)
  {
    if |b| > 0 {
      CountAppend(a, b[..|b| - 1], c);
      assert (a + b)[..|a + b| - 1] == a + b[..|b| - 1];
    } else {
      assert a + b == a;
    }
  }

  /** `strings.Repeat`. */
  function Repeat(s: string, n: nat): (r: string)
    ensures |r| == n * |s|
  {
    if n == 0 then [] else s + Repeat(s, n - 1)
  }

  /** One more copy goes at the end. */
  lemma {:induction false} RepeatSnoc(s: string, n: nat)
    ensures Repeat(s, n + 1) == Repeat(s, n) + s
  {
    if n > 0 {
      RepeatSnoc(s, n - 1);
    }
  }

  /** `n` copies hold `n` times as many of each character. */
  lemma {:induction false} CountRepeat(s: string, n: nat, c: char)
    ensures Count(Repeat(s, n), c) == n * Count(s, c)
  {
    if n > 0 {
      var k := Count(s, c);
      CountRepeat(s, n - 1, c);
      CountAppend(s, Repeat(s, n - 1), c);
      assert k + (n - 1) * k == n * k;
    }
  }
}
