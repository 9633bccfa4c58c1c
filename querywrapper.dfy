/**
 * The query wrapper of the generic mapper: a fluent object that collects
 * the selected fields, the comparison and LIKE conditions and the IN
 * conditions of a query. Condition values are opaque values of type `V`.
 */
module QueryWrapping {
  import opened Strs

  /** The comparison key words the wrapper uses. */
  const KwEq: string := "="
  const KwNe: string := "<>"
  const KwGt: string := ">"
  const KwLt: string := "<"
  const KwLe: string := "<="
  const KwGe: string := ">="
  const KwLike: string := "LIKE"

  /** A condition value: the caller's value, or the pattern text `Like` builds. */
  datatype Value<V> = Given(v: V) | Pattern(text: string)

  datatype SqlCondition<V> = SqlCondition(field: string, cond: string, value: Value<V>)

  datatype KvPair<T> = KvPair(key: string, value: T)

  /** The key of an IN condition over `n` values: "field IN (?, ?, …)". */
  function InKey(field: string, n: nat): string
  {
    field + " IN (" + Join(Copies("?", n), ", ") + ")"
  }

  /** The loop's form of the placeholder list, "?" and then ", ?" for each further value, is the `n` marks joined by ", ". */
  lemma {:induction false} MarksJoined(n: nat)
    requires n >= 1
    ensures "?" + Repeat(", ?", n - 1) == Join(Copies("?", n), ", ")
  {
    if n > 1 {
      MarksJoined(n - 1);
      RepeatSnoc(", ?", n - 2);
      assert Copies("?", n) == Copies("?", n - 1) + ["?"];
      JoinSnoc(Copies("?", n - 1), "?", ", ");
    } else {
      assert Copies("?", 1) == ["?"];
    }
  }

  /** An IN key over `n` values holds exactly `n` placeholders when the field name holds none. */
  lemma InKeyMarks(field: string, n: nat)
    requires '?' !in field
    ensures Count(InKey(field, n), '?') == n
  {
    assert Count("?", '?') == 1 by {
      assert "?"[..0] == [];
    }
    var marks := Join(Copies("?", n), ", ");
    CountJoinMarks(Copies("?", n), ", ", '?');
    assert '?' !in field + " IN (";
    CountAppend(field + " IN (" + marks, ")", '?');
    CountAppend(field + " IN (", marks, '?');
  }

  class QueryWrapper<V> {
    var selectFields: seq<string>
    var condition: seq<SqlCondition<V>>
    var likeCondition: seq<KvPair<seq<V>>>

    /** `NewQueryWrapper`: nothing collected yet. */
    constructor ()
      ensures selectFields == [] && condition == [] && likeCondition == []
    {
      selectFields := [];
      condition := [];
      likeCondition := [];
    }

    /** `addCondition`: one condition at the end; the other lists stay. */
    method AddCondition(field: string, cond: string, val: Value<V>) returns (r: QueryWrapper<V>)
      modifies this
      ensures r == this
      ensures condition == old(condition) + [SqlCondition(field, cond, val)]
      ensures selectFields == old(selectFields) && likeCondition == old(likeCondition)
    {
      condition := condition + [SqlCondition(field, cond, val)];
      r := this;
    }

    method Eq(field: string, val: V) returns (r: QueryWrapper<V>)
      modifies this
      ensures r == this
      ensures condition == old(condition) + [SqlCondition(field, "=", Given(val))]
      ensures selectFields == old(selectFields) && likeCondition == old(likeCondition)
    {
      r := AddCondition(field, KwEq, Given(val));
    }

    method Ne(field: string, val: V) returns (r: QueryWrapper<V>)
      modifies this
      ensures r == this
      ensures condition == old(condition) + [SqlCondition(field, "<>", Given(val))]
      ensures selectFields == old(selectFields) && likeCondition == old(likeCondition)
    {
      r := AddCondition(field, KwNe, Given(val));
    }

    method Gt(field: string, val: V) returns (r: QueryWrapper<V>)
      modifies this
      ensures r == this
      ensures condition == old(condition) + [SqlCondition(field, ">", Given(val))]
      ensures selectFields == old(selectFields) && likeCondition == old(likeCondition)
    {
      r := AddCondition(field, KwGt, Given(val));
    }

    method Lt(field: string, val: V) returns (r: QueryWrapper<V>)
      modifies this
      ensures r == this
      ensures condition == old(condition) + [SqlCondition(field, "<", Given(val))]
      ensures selectFields == old(selectFields) && likeCondition == old(likeCondition)
    {
      r := AddCondition(field, KwLt, Given(val));
    }

    method Le(field: string, val: V) returns (r: QueryWrapper<V>)
      modifies this
      ensures r == this
      ensures condition == old(condition) + [SqlCondition(field, "<=", Given(val))]
      ensures selectFields == old(selectFields) && likeCondition == old(likeCondition)
    {
      r := AddCondition(field, KwLe, Given(val));
    }

    method Ge(field: string, val: V) returns (r: QueryWrapper<V>)
      modifies this
      ensures r == this
      ensures condition == old(condition) + [SqlCondition(field, ">=", Given(val))]
      ensures selectFields == old(selectFields) && likeCondition == old(likeCondition)
    {
      r := AddCondition(field, KwGe, Given(val));
    }

    method Select(fields: seq<string>) returns (r: QueryWrapper<V>)
      modifies this
      ensures r == this
      ensures selectFields == old(selectFields) + fields
      ensures condition == old(condition) && likeCondition == old(likeCondition)
    {
      selectFields := selectFields + fields;
      r := this;
    }

    /** `In`: no values changes nothing; otherwise one IN entry with one `?` per value and the values as given. */
    method In(field: string, values: seq<V>) returns (r: QueryWrapper<V>)
      modifies this
      ensures r == this
      ensures likeCondition == old(likeCondition) + (if values == [] then [] else [KvPair(InKey(field, |values|), values)])
      ensures selectFields == old(selectFields) && condition == old(condition)
    {
      r := this;
      if |values| == 0 {
        return;
      }
      var b := field;
      b := b + " IN (?";
      for i := 1 to |values|
        invariant b == field + " IN (" + "?" + Repeat(", ?", i - 1)
        invariant likeCondition == old(likeCondition)
        invariant selectFields == old(selectFields) && condition == old(condition)
      {
        RepeatSnoc(", ?", i - 1);
        b := b + ", ?";
      }
      MarksJoined(|values|);
      assert b == field + " IN (" + Join(Copies("?", |values|), ", ");
      b := b + ")";
      assert b == InKey(field, |values|);
      likeCondition := likeCondition + [KvPair(b, values)];
    }

    /** `Like`: a LIKE condition whose value is the text wrapped in `%`. */
    method Like(field: string, value: string) returns (r: QueryWrapper<V>)
      modifies this
      ensures r == this
      ensures condition == old(condition) + [SqlCondition(field, "LIKE", Pattern("%" + value + "%"))]
      ensures selectFields == old(selectFields) && likeCondition == old(likeCondition)
    {
      condition := condition + [SqlCondition(field, KwLike, Pattern("%" + value + "%"))];
      r := this;
    }
  }
}
