/**
 * SQL text as the back-end assembles it: literal text interleaved with
 * numbered `$n` placeholders, the positional arguments bound to them, and
 * the WHERE clauses the list endpoints build from optional filters. A
 * placeholder is kept as its own piece so that the numbering can be stated.
 */
module Sql {
  import opened Wrappers
  import opened Text

  datatype Piece = Lit(text: string) | Slot(index: nat)

  /** A stretch of SQL text. */
  type Fragment = seq<Piece>

  /** A positional argument of a query. */
  datatype SqlParam = PText(s: string) | PInt(i: int) | PBool(b: bool)

  /** A complete statement and the arguments passed with it. */
  datatype Query = Query(sql: Fragment, args: seq<SqlParam>)

  /** The text the database receives; a placeholder renders as `$n`. */
  function Render(f: Fragment): string
    decreases |f|
  {
    if |f| == 0 then "" else PieceText(f[0]) + Render(f[1..])
  }

  function PieceText(p: Piece): string
  {
    match p
    case Lit(t) => t
    case Slot(n) => "$" + IntToString(n)
  }

  /** The placeholder numbers, in the order they occur in the text. */
  function Slots(f: Fragment): seq<nat>
    decreases |f|
  {
    if |f| == 0 then [] else (if f[0].Slot? then [f[0].index] else []) + Slots(f[1..])
  }

  /** `from, from + 1, …, from + n - 1`. */
  function Iota(from: nat, n: nat): (r: seq<nat>)
    ensures |r| == n
    decreases n
  {
    if n == 0 then [] else [from] + Iota(from + 1, n - 1)
  }

  lemma {:induction false} IotaIndex(from: nat, n: nat)
    ensures forall k :: 0 <= k < n ==> Iota(from, n)[k] == from + k
    decreases n
  {
    if n > 0 {
      IotaIndex(from + 1, n - 1);
    }
  }

  /** The placeholders of a statement are `$1 … $n` for its `n` arguments, in order. */
  predicate Numbered(q: Query)
  {
    Slots(q.sql) == Iota(1, |q.args|)
  }

  lemma {:induction false} SlotsAppend(a: Fragment, b: Fragment)
    ensures Slots(a + b) == Slots(a) + Slots(b)
    decreases |a|
  {
    if |a| > 0 {
      SlotsAppend(a[1..], b);
      assert (a + b)[1..] == a[1..] + b;
      assert (a + b)[0] == a[0];
    } else {
      assert a + b == b;
    }
  }

  lemma RenderCons(p: Piece, f: Fragment)
    ensures Render([p] + f) == PieceText(p) + Render(f)
  {
    assert ([p] + f)[1..] == f;
  }

  lemma {:induction false} RenderAppend(a: Fragment, b: Fragment)
    ensures Render(a + b) == Render(a) + Render(b)
    decreases |a|
  {
    if |a| == 0 {
      assert a + b == b;
    } else {
      var t := a[1..];
      assert a == [a[0]] + t;
      assert a + b == [a[0]] + (t + b);
      RenderAppend(t, b);
      RenderCons(a[0], t + b);
      RenderCons(a[0], t);
      AppendAssoc(PieceText(a[0]), Render(t), Render(b));
    }
  }

  lemma AppendAssoc(x: string, y: string, z: string)
    ensures x + (y + z) == (x + y) + z
  {
  }

  lemma {:induction false} IotaAppend(from: nat, n: nat, m: nat)
    ensures Iota(from, n) + Iota(from + n, m) == Iota(from, n + m)
    decreases n
  {
    if n == 0 {
      assert Iota(from, 0) + Iota(from, m) == Iota(from, m);
    } else {
      IotaAppend(from + 1, n - 1, m);
      assert Iota(from, n) + Iota(from + n, m) == [from] + (Iota(from + 1, n - 1) + Iota(from + 1 + (n - 1), m));
    }
  }

  /** `sep.join(parts)` on fragments. */
  function JoinSql(sep: string, parts: seq<Fragment>): Fragment
    decreases |parts|
  {
    if |parts| == 0 then []
    else if |parts| == 1 then parts[0]
    else parts[0] + [Lit(sep)] + JoinSql(sep, parts[1..])
  }

  /** The placeholder numbers of several fragments, one after the other. */
  function AllSlots(parts: seq<Fragment>): seq<nat>
    decreases |parts|
  {
    if |parts| == 0 then [] else Slots(parts[0]) + AllSlots(parts[1..])
  }

  /** Joining adds text only: the placeholders are those of the parts, in order. */
  lemma {:induction false} SlotsJoin(sep: string, parts: seq<Fragment>)
    ensures Slots(JoinSql(sep, parts)) == AllSlots(parts)
    decreases |parts|
  {
    if |parts| == 1 {
      assert AllSlots(parts[1..]) == [];
    } else if |parts| > 1 {
      SlotsJoin(sep, parts[1..]);
      SlotsAppend(parts[0] + [Lit(sep)], JoinSql(sep, parts[1..]));
      SlotsAppend(parts[0], [Lit(sep)]);
    }
  }

  lemma {:induction false} AllSlotsAppend(a: seq<Fragment>, b: seq<Fragment>)
    ensures AllSlots(a + b) == AllSlots(a) + AllSlots(b)
    decreases |a|
  {
    if |a| > 0 {
      AllSlotsAppend(a[1..], b);
      assert (a + b)[1..] == a[1..] + b;
      assert (a + b)[0] == a[0];
    } else {
      assert a + b == b;
    }
  }

  // ---------------------------------------------------------------------------
  // Filters and the WHERE clause

  /** `"%" + q + "%"`: the ILIKE pattern of a search text. */
  function Pattern(q: string): string
  {
    "%" + q + "%"
  }

  /** Python truthiness of an optional query string. */
  predicate NonEmpty(s: Option<string>)
  {
    s.Some? && s.value != ""
  }

  /** Python truthiness of an optional integer. */
  predicate NonZero(i: Option<int>)
  {
    i.Some? && i.value != 0
  }

  /**
   * One condition of a WHERE clause: a search of several columns for the same
   * pattern (`(c1 ILIKE $i OR c2 ILIKE $i+1 …)`), or a column equal to a value.
   */
  datatype Filter = AnyLike(columns: seq<string>, pattern: string) | Equals(column: string, value: SqlParam)

  /** How many placeholders a filter takes. */
  function Width(f: Filter): nat
  {
    match f
    case AnyLike(columns, _) => |columns|
    case Equals(_, _) => 1
  }

  function Ilike(column: string, n: nat): Fragment
  {
    [Lit(column + " ILIKE "), Slot(n)]
  }

  /** `column ILIKE $first+k` for the k-th column. */
  function LikeTerms(columns: seq<string>, first: nat): (terms: seq<Fragment>)
    ensures |terms| == |columns|
    ensures forall k :: 0 <= k < |columns| ==> terms[k] == Ilike(columns[k], first + k)
    decreases |columns|
  {
    if |columns| == 0 then [] else [Ilike(columns[0], first)] + LikeTerms(columns[1..], first + 1)
  }

  /** The text of a filter whose first placeholder is `first`. */
  function Condition(f: Filter, first: nat): Fragment
  {
    match f
    case AnyLike(columns, _) => [Lit("(")] + JoinSql(" OR ", LikeTerms(columns, first)) + [Lit(")")]
    case Equals(column, _) => [Lit(column + " = "), Slot(first)]
  }

  /** The arguments a filter binds: the pattern once per column, or the compared value. */
  function Values(f: Filter): (vs: seq<SqlParam>)
    ensures |vs| == Width(f)
  {
    match f
    case AnyLike(columns, pattern) => seq(|columns|, _ => PText(pattern))
    case Equals(_, value) => [value]
  }

  /** The conditions of several filters, numbered one after the other from `first`. */
  function Conditions(fs: seq<Filter>, first: nat): (cs: seq<Fragment>)
    ensures |cs| == |fs|
    decreases |fs|
  {
    if |fs| == 0 then [] else [Condition(fs[0], first)] + Conditions(fs[1..], first + Width(fs[0]))
  }

  /** All arguments of several filters, in order. */
  function Params(fs: seq<Filter>): seq<SqlParam>
    decreases |fs|
  {
    if |fs| == 0 then [] else Values(fs[0]) + Params(fs[1..])
  }

  /** `" AND ".join(conditions) if conditions else "TRUE"` */
  function WhereClause(conditions: seq<Fragment>): Fragment
  {
    if |conditions| == 0 then [Lit("TRUE")] else JoinSql(" AND ", conditions)
  }

  lemma {:induction false} LikeTermsSlots(columns: seq<string>, first: nat)
    ensures AllSlots(LikeTerms(columns, first)) == Iota(first, |columns|)
    decreases |columns|
  {
    if |columns| > 0 {
      LikeTermsSlots(columns[1..], first + 1);
      var terms := LikeTerms(columns, first);
      assert terms[1..] == LikeTerms(columns[1..], first + 1);
      SlotsOfPair(columns[0] + " ILIKE ", first);
    }
  }

  /** A filter's placeholders are `first … first + Width(f) - 1`, and it binds that many arguments. */
  lemma ConditionSlots(f: Filter, first: nat)
    ensures Slots(Condition(f, first)) == Iota(first, Width(f))
  {
    match f
    case AnyLike(columns, _) =>
      var body := JoinSql(" OR ", LikeTerms(columns, first));
      SlotsAppend([Lit("(")] + body, [Lit(")")]);
      SlotsAppend([Lit("(")], body);
      SlotsJoin(" OR ", LikeTerms(columns, first));
      LikeTermsSlots(columns, first);
    case Equals(column, _) =>
      SlotsOfPair(column + " = ", first);
  }

  lemma SlotsOfPair(t: string, n: nat)
    ensures Slots([Lit(t), Slot(n)]) == [n]
  {
    assert [Lit(t), Slot(n)][1..] == [Slot(n)];
    assert [Slot(n)][1..] == [];
    assert Slots([Slot(n)]) == [n] + Slots([]);
    assert Slots([Lit(t), Slot(n)]) == [] + Slots([Slot(n)]);
  }

  lemma {:induction false} ParamsLength(fs: seq<Filter>)
    ensures |Params(fs)| == Sum(fs)
    decreases |fs|
  {
    if |fs| > 0 {
      ParamsLength(fs[1..]);
    }
  }

  /** The total width of several filters. */
  function Sum(fs: seq<Filter>): nat
    decreases |fs|
  {
    if |fs| == 0 then 0 else Width(fs[0]) + Sum(fs[1..])
  }

  lemma ConditionsCons(fs: seq<Filter>, first: nat)
    requires |fs| > 0
    ensures AllSlots(Conditions(fs, first)) ==
      Slots(Condition(fs[0], first)) + AllSlots(Conditions(fs[1..], first + Width(fs[0])))
  {
    var cs := Conditions(fs, first);
    assert cs[0] == Condition(fs[0], first) && cs[1..] == Conditions(fs[1..], first + Width(fs[0]));
  }

  lemma ParamsCount(fs: seq<Filter>)
    requires |fs| > 0
    ensures |Params(fs)| == Width(fs[0]) + |Params(fs[1..])|
  {
    ParamsLength(fs);
    ParamsLength(fs[1..]);
  }

  /** The conditions of several filters use `first, first + 1, …` once each, one per argument. */
  lemma {:induction false} ConditionsSlots(fs: seq<Filter>, first: nat)
    ensures AllSlots(Conditions(fs, first)) == Iota(first, |Params(fs)|)
    decreases |fs|
  {
    if |fs| > 0 {
      var w := Width(fs[0]);
      var m := |Params(fs[1..])|;
      ConditionsCons(fs, first);
      ConditionsSlots(fs[1..], first + w);
      ConditionSlots(fs[0], first);
      ParamsCount(fs);
      IotaAppend(first, w, m);
      calc {
        AllSlots(Conditions(fs, first));
        Slots(Condition(fs[0], first)) + AllSlots(Conditions(fs[1..], first + w));
        Iota(first, w) + Iota(first + w, m);
        Iota(first, w + m);
      }
    }
  }

  lemma AppendAssocParams(a: seq<SqlParam>, b: seq<SqlParam>, c: seq<SqlParam>)
    ensures a + (b + c) == (a + b) + c
  {
  }

  lemma FragmentsAssoc(a: seq<Fragment>, b: seq<Fragment>, c: seq<Fragment>)
    ensures a + (b + c) == (a + b) + c
  {
  }

  /** The arguments of a filter added at the end come last. */
  lemma {:induction false} ParamsSnoc(fs: seq<Filter>, f: Filter)
    ensures Params(fs + [f]) == Params(fs) + Values(f)
    decreases |fs|
  {
    if |fs| == 0 {
      assert fs + [f] == [f];
      assert [f][1..] == [];
    } else {
      ParamsSnoc(fs[1..], f);
      var g := fs + [f];
      assert g[0] == fs[0] && g[1..] == fs[1..] + [f];
      AppendAssocParams(Values(fs[0]), Params(fs[1..]), Values(f));
    }
  }

  /** The first filter of a longer list keeps its place and its numbers. */
  lemma ConditionsOfSnoc(fs: seq<Filter>, f: Filter, first: nat)
    requires |fs| > 0
    ensures Conditions(fs + [f], first) ==
      [Condition(fs[0], first)] + Conditions(fs[1..] + [f], first + Width(fs[0]))
  {
    var g := fs + [f];
    assert g[0] == fs[0] && g[1..] == fs[1..] + [f];
  }

  /** Adding a filter at the end numbers it after all earlier arguments. */
  lemma {:induction false} ConditionsSnoc(fs: seq<Filter>, f: Filter, first: nat)
    ensures Conditions(fs + [f], first) == Conditions(fs, first) + [Condition(f, first + |Params(fs)|)]
    ensures Params(fs + [f]) == Params(fs) + Values(f)
    decreases |fs|
  {
    ParamsSnoc(fs, f);
    if |fs| == 0 {
      assert fs + [f] == [f];
      assert [f][1..] == [];
    } else {
      var w := Width(fs[0]);
      var last := [Condition(f, first + |Params(fs)|)];
      ConditionsSnoc(fs[1..], f, first + w);
      ParamsCount(fs);
      assert first + w + |Params(fs[1..])| == first + |Params(fs)|;
      ConditionsOfSnoc(fs, f, first);
      FragmentsAssoc([Condition(fs[0], first)], Conditions(fs[1..], first + w), last);
    }
  }

  /**
   * The placeholders of a WHERE clause built from filters are exactly
   * `$1 … $n` for its `n` arguments, in order.
   */
  lemma WhereNumbered(fs: seq<Filter>)
    ensures Numbered(Query(WhereClause(Conditions(fs, 1)), Params(fs)))
  {
    ConditionsSlots(fs, 1);
    if |fs| > 0 {
      SlotsJoin(" AND ", Conditions(fs, 1));
    }
  }

  /** The clause is the constant `TRUE` exactly when no filter applies. */
  lemma WhereTrueIffNoFilter(fs: seq<Filter>)
    ensures WhereClause(Conditions(fs, 1)) == [Lit("TRUE")] <==> |fs| == 0
  {
    if |fs| > 0 {
      var cs := Conditions(fs, 1);
      assert cs[0] == Condition(fs[0], 1);
      LongCondition(fs[0], 1);
      if |cs| == 1 {
        assert JoinSql(" AND ", cs) == cs[0];
        assert cs[0][0] != Lit("TRUE") by {
          match fs[0]
          case AnyLike(_, _) =>
          case Equals(column, _) =>
            var t := column + " = ";
            assert t[|t| - 1] == ' ';
        }
      } else {
        assert |JoinSql(" AND ", cs)| >= |cs[0]| + 1;
      }
    }
  }

  lemma LongCondition(f: Filter, first: nat)
    ensures |Condition(f, first)| >= 2
  {
  }

  // ---------------------------------------------------------------------------
  // Rendering

  /** The texts of several fragments. */
  function Renders(parts: seq<Fragment>): (texts: seq<string>)
    ensures |texts| == |parts|
    ensures forall k :: 0 <= k < |parts| ==> texts[k] == Render(parts[k])
  {
    seq(|parts|, k requires 0 <= k < |parts| => Render(parts[k]))
  }

  lemma LitText(t: string)
    ensures Render([Lit(t)]) == t
  {
    assert [Lit(t)][1..] == [];
  }

  /** Joining fragments and rendering them is rendering each and joining the texts. */
  lemma {:induction false} RenderJoin(sep: string, parts: seq<Fragment>)
    ensures Render(JoinSql(sep, parts)) == Join(sep, Renders(parts))
    decreases |parts|
  {
    if |parts| > 1 {
      RenderJoin(sep, parts[1..]);
      RenderAppend(parts[0] + [Lit(sep)], JoinSql(sep, parts[1..]));
      RenderAppend(parts[0], [Lit(sep)]);
      LitText(sep);
      assert Renders(parts)[1..] == Renders(parts[1..]);
    }
  }

  /** `f"{field} ILIKE ${i}"` */
  function IlikeText(column: string, n: nat): string
  {
    column + " ILIKE $" + IntToString(n)
  }

  lemma IlikeRendering(column: string, n: nat)
    ensures Render(Ilike(column, n)) == IlikeText(column, n)
  {
    var f := Ilike(column, n);
    assert f[1..] == [Slot(n)];
    assert [Slot(n)][1..] == [];
    assert Render([Slot(n)]) == "$" + IntToString(n) + Render([]);
  }

  /** The texts of `column ILIKE $i`, `i` counting from the first placeholder. */
  function IlikeTexts(columns: seq<string>, first: nat): (texts: seq<string>)
    ensures |texts| == |columns|
    ensures forall k :: 0 <= k < |columns| ==> texts[k] == IlikeText(columns[k], first + k)
  {
    seq(|columns|, k requires 0 <= k < |columns| => IlikeText(columns[k], first + k))
  }

  lemma SearchTerms(columns: seq<string>, first: nat)
    ensures Render(JoinSql(" OR ", LikeTerms(columns, first))) == Join(" OR ", IlikeTexts(columns, first))
  {
    var terms := LikeTerms(columns, first);
    var texts := IlikeTexts(columns, first);
    RenderJoin(" OR ", terms);
    var rendered := Renders(terms);
    forall k | 0 <= k < |columns| ensures rendered[k] == texts[k] {
      IlikeRendering(columns[k], first + k);
    }
    assert rendered == texts;
  }

  /**
   * A search renders as `"(" + " OR ".join(...) + ")"` over the texts
   * `column ILIKE $i`, `i` counting from the first placeholder.
   */
  lemma SearchRendering(columns: seq<string>, pattern: string, first: nat)
    ensures Render(Condition(AnyLike(columns, pattern), first)) == "(" + Join(" OR ", IlikeTexts(columns, first)) + ")"
  {
    var body := JoinSql(" OR ", LikeTerms(columns, first));
    SearchTerms(columns, first);
    LitText("(");
    LitText(")");
    RenderAppend([Lit("(")] + body, [Lit(")")]);
    RenderAppend([Lit("(")], body);
  }

  /** An equality filter renders as `column = $i`. */
  lemma EqualsRendering(column: string, value: SqlParam, first: nat)
    ensures Render(Condition(Equals(column, value), first)) == column + " = $" + IntToString(first)
  {
    var f := Condition(Equals(column, value), first);
    assert f[1..] == [Slot(first)];
    assert [Slot(first)][1..] == [];
    assert Render([Slot(first)]) == "$" + IntToString(first) + Render([]);
  }

  // ---------------------------------------------------------------------------
  // The statements of a list endpoint

  /** `SELECT COUNT(*) as total FROM <from> WHERE <clause>`, with the filters' arguments. */
  function CountQuery(from: string, where: Fragment, params: seq<SqlParam>): Query
  {
    Query([Lit("SELECT COUNT(*) as total FROM " + from + " WHERE ")] + where, params)
  }

  /**
   * The page query: the same clause, then `ORDER BY`, then `LIMIT $n+1 OFFSET $n+2`,
   * with the page size and offset bound after the filters' `n` arguments.
   */
  function DataQuery(select: string, where: Fragment, sortColumn: string, order: string,
                     params: seq<SqlParam>, limit: int, offset: int): Query
  {
    Query([Lit(select + " WHERE ")] + where +
          [Lit(" ORDER BY " + sortColumn + " " + order + " LIMIT "), Slot(|params| + 1),
           Lit(" OFFSET "), Slot(|params| + 2)],
          params + [PInt(limit), PInt(offset)])
  }

  /** A numbered clause stays numbered in both statements, LIMIT and OFFSET continuing the count. */
  lemma StatementsNumbered(from: string, select: string, where: Fragment, sortColumn: string, order: string,
                           params: seq<SqlParam>, limit: int, offset: int)
    requires Slots(where) == Iota(1, |params|)
    ensures Numbered(CountQuery(from, where, params))
    ensures Numbered(DataQuery(select, where, sortColumn, order, params, limit, offset))
    ensures DataQuery(select, where, sortColumn, order, params, limit, offset).args[|params|..] == [PInt(limit), PInt(offset)]
  {
    var head := [Lit("SELECT COUNT(*) as total FROM " + from + " WHERE ")];
    SlotsAppend(head, where);
    assert Slots(head) == [];
    var n := |params|;
    var tail := [Lit(" ORDER BY " + sortColumn + " " + order + " LIMIT "), Slot(n + 1), Lit(" OFFSET "), Slot(n + 2)];
    var start := [Lit(select + " WHERE ")];
    assert Slots(start) == [];
    SlotsAppend(start, where);
    SlotsAppend(start + where, tail);
    TailSlots(" ORDER BY " + sortColumn + " " + order + " LIMIT ", n);
    IotaAppend(1, n, 2);
    var q := DataQuery(select, where, sortColumn, order, params, limit, offset);
    assert q.sql == start + where + tail;
    assert |q.args| == n + 2;
  }

  lemma TailSlots(t: string, n: nat)
    ensures Slots([Lit(t), Slot(n + 1), Lit(" OFFSET "), Slot(n + 2)]) == Iota(n + 1, 2)
  {
    var tail := [Lit(t), Slot(n + 1), Lit(" OFFSET "), Slot(n + 2)];
    SlotsOfPair(t, n + 1);
    SlotsOfPair(" OFFSET ", n + 2);
    assert tail == [Lit(t), Slot(n + 1)] + [Lit(" OFFSET "), Slot(n + 2)];
    SlotsAppend([Lit(t), Slot(n + 1)], [Lit(" OFFSET "), Slot(n + 2)]);
  }

  /** `total["total"] if total else 0`: the count row's value, or 0 when no row came back. */
  function CountOf(row: Option<int>): (n: int)
    ensures row.Some? ==> n == row.value
    ensures row.None? ==> n == 0
  {
    if row.Some? then row.value else 0
  }
}
