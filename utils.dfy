/**
 * The generic helpers of the code generator: map keys and values, membership
 * and prefix tests over lists, the last path element of a package path,
 * the first element satisfying a test, and the removal of lines that start
 * with given prefixes. Go maps are visited in an unspecified order, so the
 * key and value lists are specified up to order.
 */
module GenUtils {
  import opened Wrappers
  import opened Strs

  /** No element occurs twice. */
  predicate Distinct<T(==)>(s: seq<T>)
  {
    forall i, j :: 0 <= i < j < |s| ==> s[i] != s[j]
  }

  /**
   * `Keys`: a nil map gives a nil slice; otherwise every key once, in the
   * order the loop happens to visit them.
   */
  method Keys<K(==), V>(m: Option<map<K, V>>) returns (r: Option<seq<K>>)
    ensures r.None? <==> m.None?
    ensures m.Some? ==> |r.value| == |m.value| && Distinct(r.value)
    ensures m.Some? ==> forall k :: k in r.value <==> k in m.value
  {
    if m.None? {
      return None;
    }
    var res: seq<K> := [];
    var rest := m.value.Keys;
    while rest != {}
      invariant rest <= m.value.Keys
      invariant forall k :: k in res <==> k in m.value && k !in rest
      invariant Distinct(res)
      invariant |res| + |rest| == |m.value|
      decreases |rest|
    {
      var k :| k in rest;
      res := res + [k];
      rest := rest - {k};
    }
    r := Some(res);
  }

  /**
   * `Values`: a nil map gives a nil slice; otherwise one value per key, the
   * keys taken once each in the order the loop visits them (`order`).
   */
  method Values<K(==), V>(m: Option<map<K, V>>) returns (r: Option<seq<V>>, ghost order: seq<K>)
    ensures r.None? <==> m.None?
    ensures m.Some? ==> |r.value| == |order| == |m.value| && Distinct(order)
    ensures m.Some? ==> forall k :: k in order <==> k in m.value
    ensures m.Some? ==> forall i :: 0 <= i < |order| ==> order[i] in m.value && r.value[i] == m.value[order[i]]
  {
    order := [];
    if m.None? {
      return None, order;
    }
    var res: seq<V> := [];
    var rest := m.value.Keys;
    while rest != {}
      invariant rest <= m.value.Keys
      invariant forall k :: k in order <==> k in m.value && k !in rest
      invariant Distinct(order)
      invariant |res| == |order| && |order| + |rest| == |m.value|
      invariant forall i :: 0 <= i < |order| ==> order[i] in m.value && res[i] == m.value[order[i]]
      decreases |rest|
    {
      var k :| k in rest;
      res := res + [m.value[k]];
      order := order + [k];
      rest := rest - {k};
    }
    r := Some(res);
  }

  /** `Contains`: some element equals `s`. */
  function Contains<T(==)>(ss: seq<T>, s: T): (r: bool)
    ensures r <==> exists i :: 0 <= i < |ss| && ss[i] == s
  {
    if |ss| == 0 then false
    else if ss[0] == s then true
    else
      var r := Contains(ss[1..], s);
      assert r ==> exists i :: 0 <= i < |ss[1..]| && ss[1..][i] == s;
      r
  }

  /** `ContainsPrefix`: some element is a prefix of `s`. */
  function ContainsPrefix(ss: seq<string>, s: string): (r: bool)
    ensures r <==> exists i :: 0 <= i < |ss| && HasPrefix(s, ss[i])
  {
    if |ss| == 0 then false
    else if HasPrefix(s, ss[0]) then true
    else
      var r := ContainsPrefix(ss[1..], s);
      assert r ==> exists i :: 0 <= i < |ss[1..]| && HasPrefix(s, ss[1..][i]);
      r
  }

  /**
   * `GetPackageName`: the text after the last `/`, or the whole path when
   * it has none; the result never holds a `/`.
   */
  function GetPackageName(pkgPath: string): (r: string)
    ensures '/' !in r
    ensures '/' !in pkgPath ==> r == pkgPath
    ensures |r| <= |pkgPath| && pkgPath[|pkgPath| - |r|..] == r
    ensures |r| < |pkgPath| ==> pkgPath[|pkgPath| - |r| - 1] == '/'
  {
    var idx := LastIndexOf(pkgPath, '/');
    if idx == -1 then pkgPath else pkgPath[idx + 1..]
  }

  /**
   * `Find`: the first element satisfying `fn`, with true; the zero value,
   * with false, when there is none.
   */
  function Find<T>(s: seq<T>, fn: T -> bool, zero: T): (r: (T, bool))
    ensures r.1 <==> exists i :: 0 <= i < |s| && fn(s[i])
    ensures r.1 ==> exists i :: 0 <= i < |s| && r.0 == s[i] && fn(s[i]) && forall j :: 0 <= j < i ==> !fn(s[j])
    ensures !r.1 ==> r.0 == zero
  {
    if |s| == 0 then (zero, false)
    else if fn(s[0]) then (s[0], true)
    else
      var r := Find(s[1..], fn, zero);
      assert r.1 ==> exists i :: 0 <= i < |s[1..]| && fn(s[1..][i]);
      assert r.1 ==> exists i :: 1 <= i < |s| && r.0 == s[i] && fn(s[i]) && forall j :: 0 <= j < i ==> !fn(s[j]) by {
        if r.1 {
          var i :| 0 <= i < |s[1..]| && r.0 == s[1..][i] && fn(s[1..][i]) && forall j :: 0 <= j < i ==> !fn(s[1..][j]);
          assert forall j :: 0 <= j < i + 1 ==> !fn(s[j]) by {
            forall j | 0 <= j < i + 1
              ensures !fn(s[j])
            {
              if j > 0 {
                assert s[j] == s[1..][j - 1];
              }
            }
          }
        }
      }
      r
  }

  /** The text `TrimLineWithPrefix` writes for `lines`: each line that starts with none of `subs`, followed by a newline. */
  function KeptLines(lines: seq<string>, subs: seq<string>): string
  {
    if |lines| == 0 then ""
    else
      var line := lines[|lines| - 1];
      KeptLines(lines[..|lines| - 1], subs) + (if ContainsPrefix(subs, line) then "" else line + "\n")
  }

  /** `TrimLineWithPrefix`: the content split at newlines, without the lines that start with one of `subs`. */
  method TrimLineWithPrefix(content: string, subs: seq<string>) returns (r: string)
    ensures r == KeptLines(Split(content, '\n'), subs)
  {
    var lines := Split(content, '\n');
    r := "";
    var i := 0;
    while i < |lines|
      invariant 0 <= i <= |lines|
      invariant r == KeptLines(lines[..i], subs)
    {
      var line := lines[i];
      var skip := false;
      var j := 0;
      while j < |subs| && !skip
        invariant 0 <= j <= |subs|
        invariant skip <==> exists k :: 0 <= k < j && HasPrefix(line, subs[k])
      {
        if HasPrefix(line, subs[j]) {
          skip := true;
        }
        j := j + 1;
      }
      assert skip <==> ContainsPrefix(subs, line);
      assert lines[..i + 1][..i] == lines[..i];
      if !skip {
        r := r + line + "\n";
      }
      i := i + 1;
    }
    assert lines[..i] == lines;
  }

  /** With no prefixes every line is kept: the lines joined by newlines, with a newline after the last. */
  lemma {:induction false} KeptAll(lines: seq<string>)
    requires |lines| >= 1
    ensures KeptLines(lines, []) == Join(lines, "\n") + "\n"
  {
    if |lines| == 1 {
      assert lines[..0] == [];
    } else {
      var init := lines[..|lines| - 1];
      KeptAll(init);
      assert init + [lines[|lines| - 1]] == lines;
      JoinSnoc(init, lines[|lines| - 1], "\n");
    }
  }

  /** Without prefixes the content comes back with one newline added at the end. */
  lemma TrimNothing(content: string)
    ensures KeptLines(Split(content, '\n'), []) == content + "\n"
  {
    KeptAll(Split(content, '\n'));
    JoinSplit(content, '\n');
  }

  /** The empty prefix starts every line, so it removes them all. */
  lemma {:induction false} TrimEmptyPrefix(lines: seq<string>, subs: seq<string>)
    requires "" in subs
    ensures KeptLines(lines, subs) == ""
  {
    if |lines| > 0 {
      TrimEmptyPrefix(lines[..|lines| - 1], subs);
      var k :| 0 <= k < |subs| && subs[k] == "";
      assert HasPrefix(lines[|lines| - 1], subs[k]);
    }
  }
}
