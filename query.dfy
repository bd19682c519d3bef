/**
 * The front-end's query-string builder: a record of optional parameters becomes
 * `?key=value&...`, dropping the empty ones and keeping the others in the
 * record's own order. Parameters are modelled as an ordered list of entries,
 * the order `Object.entries` reports them in.
 */
module Query {
  import opened Wrappers
  import opened Text

  /** A parameter value: `string | number | boolean | null | undefined`. */
  datatype Param = Undefined | Null | Str(s: string) | Num(n: int) | Flag(b: bool)

  type Params = seq<(string, Param)>

  /** `String(value)` in JavaScript. */
  function Stringify(p: Param): string
  {
    match p
    case Undefined => "undefined"
    case Null => "null"
    case Str(s) => s
    case Num(n) => IntToString(n)
    case Flag(b) => if b then "true" else "false"
  }

  /** A value survives unless it is `undefined`, `null` or the empty string. */
  predicate Kept(p: Param)
  {
    !(p.Undefined? || p.Null? || p == Str(""))
  }

  /** `s || undefined`: an empty string filter is not sent at all. */
  function OrUndefined(s: string): (p: Param)
    ensures Kept(p) <==> s != ""
    ensures Kept(p) ==> Stringify(p) == s
  {
    if s == "" then Undefined else Str(s)
  }

  /** An optional number, `undefined` when absent. */
  function OptionalNum(n: Option<int>): (p: Param)
    ensures Kept(p) <==> n.Some?
    ensures Kept(p) ==> Stringify(p) == IntToString(n.value)
  {
    if n.Some? then Num(n.value) else Undefined
  }

  /** The entries the builder appends to its `URLSearchParams`, in order. */
  function Survivors(params: Params): seq<(string, string)>
    decreases |params|
  {
    if |params| == 0 then []
    else
      var (key, value) := params[0];
      (if Kept(value) then [(key, Stringify(value))] else []) + Survivors(params[1..])
  }

  function RenderPair(p: (string, string)): string
  {
    p.0 + "=" + p.1
  }

  function RenderPairs(pairs: seq<(string, string)>): (r: seq<string>)
    ensures |r| == |pairs|
    ensures forall k :: 0 <= k < |pairs| ==> r[k] == RenderPair(pairs[k])
  {
    seq(|pairs|, k requires 0 <= k < |pairs| => RenderPair(pairs[k]))
  }

  /** `URLSearchParams.toString()`, with percent-encoding left out. */
  function Serialize(pairs: seq<(string, string)>): string
  {
    Join("&", RenderPairs(pairs))
  }

  /** The string `buildQuery` returns for `params`. */
  function QueryString(params: Params): string
  {
    var search := Survivors(params);
    if search == [] then "" else "?" + Serialize(search)
  }

  lemma {:induction false} SurvivorsAppend(a: Params, b: Params)
    ensures Survivors(a + b) == Survivors(a) + Survivors(b)
    decreases |a|
  {
    if |a| > 0 {
      SurvivorsAppend(a[1..], b);
      assert (a + b)[1..] == a[1..] + b;
    } else {
      assert a + b == b;
    }
  }

  lemma AppendAssoc<T>(a: seq<T>, b: seq<T>, c: seq<T>)
    ensures (a + b) + c == a + (b + c)
  {
  }

  /** One step of the builder: entry `i` contributes its pair iff it is kept. */
  lemma SurvivorsFrom(params: Params, i: nat)
    requires i < |params|
    ensures Survivors(params[i..]) ==
      (if Kept(params[i].1) then [(params[i].0, Stringify(params[i].1))] else []) + Survivors(params[i + 1..])
  {
    assert params[i..][1..] == params[i + 1..];
  }

  /** A kept entry contributes its own pair ahead of what follows it. */
  lemma KeptCons(x: (string, Param), rest: Params)
    requires Kept(x.1)
    ensures Survivors([x] + rest) == [(x.0, Stringify(x.1))] + Survivors(rest)
  {
    assert ([x] + rest)[1..] == rest;
  }

  /** Four leading entries that are all kept come first, in order, before whatever the rest contributes. */
  lemma FourKept(a: (string, Param), b: (string, Param), c: (string, Param), d: (string, Param), rest: Params)
    requires Kept(a.1) && Kept(b.1) && Kept(c.1) && Kept(d.1)
    ensures Survivors([a, b, c, d] + rest) ==
      [(a.0, Stringify(a.1)), (b.0, Stringify(b.1)), (c.0, Stringify(c.1)), (d.0, Stringify(d.1))] + Survivors(rest)
  {
    var pa, pb, pc, pd := (a.0, Stringify(a.1)), (b.0, Stringify(b.1)), (c.0, Stringify(c.1)), (d.0, Stringify(d.1));
    var tail := Survivors(rest);
    KeptCons(d, rest);
    KeptCons(c, [d] + rest);
    KeptCons(b, [c] + ([d] + rest));
    KeptCons(a, [b] + ([c] + ([d] + rest)));
    assert [a, b, c, d] + rest == [a] + ([b] + ([c] + ([d] + rest)));
    assert [pa] + ([pb] + ([pc] + ([pd] + tail))) == [pa, pb, pc, pd] + tail;
  }

  /** Entries that are all dropped contribute nothing. */
  lemma {:induction false} NoneKept(params: Params)
    requires forall i :: 0 <= i < |params| ==> !Kept(params[i].1)
    ensures Survivors(params) == []
    decreases |params|
  {
    if |params| > 0 {
      NoneKept(params[1..]);
    }
  }

  /** When exactly one entry survives, the query string is that one `key=value`. */
  lemma OnlyOneKept(params: Params, k: nat)
    requires k < |params| && Kept(params[k].1)
    requires forall i :: 0 <= i < |params| && i != k ==> !Kept(params[i].1)
    ensures QueryString(params) == "?" + params[k].0 + "=" + Stringify(params[k].1)
  {
    var pair := (params[k].0, Stringify(params[k].1));
    assert params == params[..k] + ([params[k]] + params[k + 1..]);
    NoneKept(params[..k]);
    NoneKept(params[k + 1..]);
    SurvivorsAppend(params[..k], [params[k]] + params[k + 1..]);
    SurvivorsAppend([params[k]], params[k + 1..]);
    assert Survivors([params[k]]) == [pair];
    assert Survivors(params) == [pair];
    assert RenderPairs([pair]) == [RenderPair(pair)];
  }

  /** The text of a query that carries only `page_size=100`. */
  lemma PageSizeHundred()
    ensures "?" + "page_size" + "=" + Stringify(Num(100)) == "?page_size=100"
  {
    Hundred();
  }

  lemma SerializeEmpty(pairs: seq<(string, string)>)
    ensures Serialize(pairs) == "" <==> pairs == []
  {
    if |pairs| > 0 {
      var parts := RenderPairs(pairs);
      assert '=' in parts[0];
      if |pairs| > 1 {
        assert Serialize(pairs) == parts[0] + "&" + Join("&", parts[1..]);
      }
    }
  }

  /** The builder: one pass over the entries, appending the survivors. */
  method BuildQuery(params: Params) returns (query: string)
    ensures query == QueryString(params)
  {
    var search: seq<(string, string)> := [];
    var i := 0;
    while i < |params|
      invariant 0 <= i <= |params|
      invariant search == Survivors(params[..i])
    {
      var (key, value) := params[i];
      SurvivorsAppend(params[..i], [params[i]]);
      assert params[..i + 1] == params[..i] + [params[i]];
      if !(value.Undefined? || value.Null? || value == Str("")) {
        search := search + [(key, Stringify(value))];
      }
      i := i + 1;
    }
    assert params[..i] == params;
    var s := Serialize(search);
    SerializeEmpty(search);
    query := if s != "" then "?" + s else "";
  }

  /** Every entry whose value is kept appears among the survivors, stringified. */
  lemma {:induction false} KeptEntrySurvives(params: Params, i: nat)
    requires i < |params| && Kept(params[i].1)
    ensures (params[i].0, Stringify(params[i].1)) in Survivors(params)
    decreases |params|
  {
    if i > 0 {
      KeptEntrySurvives(params[1..], i - 1);
    }
  }

  /** Every survivor comes from an entry whose value is kept. */
  lemma {:induction false} SurvivorHasSource(params: Params, p: (string, string))
    requires p in Survivors(params)
    ensures exists i :: 0 <= i < |params| && Kept(params[i].1) && p == (params[i].0, Stringify(params[i].1))
    decreases |params|
  {
    var (key, value) := params[0];
    if Kept(value) && p == (key, Stringify(value)) {
    } else {
      SurvivorHasSource(params[1..], p);
      var i :| 0 <= i < |params[1..]| && Kept(params[1..][i].1) && p == (params[1..][i].0, Stringify(params[1..][i].1));
      assert params[i + 1] == params[1..][i];
    }
  }

  /** `0` and `false` are kept; only `undefined`, `null` and `""` are dropped. */
  lemma DroppedValues(p: Param)
    ensures !Kept(p) <==> p == Undefined || p == Null || p == Str("")
    ensures Kept(Num(0)) && Kept(Flag(false))
  {
  }

  lemma ExamplePageOnly()
    ensures QueryString([("page", Num(1)), ("q", Str("")), ("status", Undefined)]) == "?page=1"
  {
    assert IntToString(1) == "1";
    assert Survivors([("page", Num(1)), ("q", Str("")), ("status", Undefined)]) == [("page", "1")];
  }

  // ---------------------------------------------------------------------------
  // Reading a query string back (`new URLSearchParams(s)`), for the round trip.

  function ParsePair(piece: string): (string, string)
  {
    match IndexOf(piece, '=')
    case Some(i) => (piece[..i], piece[i + 1..])
    case None => (piece, "")
  }

  function ParsePairs(pieces: seq<string>): (r: seq<(string, string)>)
    ensures |r| == |pieces|
    ensures forall k :: 0 <= k < |pieces| ==> r[k] == ParsePair(pieces[k])
  {
    seq(|pieces|, k requires 0 <= k < |pieces| => ParsePair(pieces[k]))
  }

  function ParseQuery(q: string): seq<(string, string)>
  {
    var body := if |q| > 0 && q[0] == '?' then q[1..] else q;
    if body == "" then [] else ParsePairs(Split(body, '&'))
  }

  /** Keys free of `&` and `=`, string values free of `&`: no encoding is needed. */
  predicate SafeParams(params: Params)
  {
    forall i :: 0 <= i < |params| ==>
      Lacks(params[i].0, '&') && Lacks(params[i].0, '=') &&
      (params[i].1.Str? ==> Lacks(params[i].1.s, '&'))
  }

  predicate SafePair(p: (string, string))
  {
    Lacks(p.0, '&') && Lacks(p.0, '=') && Lacks(p.1, '&')
  }

  lemma {:induction false} SurvivorsSafe(params: Params)
    requires SafeParams(params)
    ensures forall k :: 0 <= k < |Survivors(params)| ==> SafePair(Survivors(params)[k])
    decreases |params|
  {
    if |params| > 0 {
      SurvivorsSafe(params[1..]);
      var value := params[0].1;
      if value.Num? {
        IntToStringChars(value.n);
      }
    }
  }

  lemma ParseRenderedPair(p: (string, string))
    requires SafePair(p)
    ensures ParsePair(RenderPair(p)) == p
  {
    var piece := RenderPair(p);
    assert piece == p.0 + ['='] + p.1;
    IndexOfAfter(p.0, '=', p.1);
    assert piece[..|p.0|] == p.0;
    assert piece[|p.0| + 1..] == p.1;
  }

  /** Parsing the built query string gives back exactly the surviving entries, in order. */
  lemma QueryRoundTrip(params: Params)
    requires SafeParams(params)
    ensures ParseQuery(QueryString(params)) == Survivors(params)
  {
    var search := Survivors(params);
    if search != [] {
      SurvivorsSafe(params);
      SerializeEmpty(search);
      var rendered := RenderPairs(search);
      forall k | 0 <= k < |rendered| ensures Lacks(rendered[k], '&') {
        assert rendered[k] == search[k].0 + "=" + search[k].1;
      }
      SplitJoin(rendered, '&');
      assert ("?" + Serialize(search))[1..] == Serialize(search);
      forall k | 0 <= k < |search| ensures ParsePair(rendered[k]) == search[k] {
        ParseRenderedPair(search[k]);
      }
    }
  }
}
