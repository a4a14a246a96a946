/**
 * The `search_coins` selection: the tickers whose name, symbol or id contains
 * the query, compared after lower-casing both, kept in upstream order and
 * cut to the requested limit with `slice(0, limit)`.
 */
module Search {
  import opened Wrappers
  import opened Text
  import opened Upstream
  import opened Protocol

  /** One field passes when it is present and, lower-cased, contains the lower-cased query. */
  predicate FieldMatches(field: Option<string>, q: string) {
    field.Some? && Contains(Lower(field.value), Lower(q))
  }

  /** The matching rule, independent of evaluation order. */
  predicate Matches(c: Ticker, q: string) {
    FieldMatches(c.name, q) || FieldMatches(c.symbol, q) || FieldMatches(c.id, q)
  }

  /**
   * The callback given to `filter`, evaluated as written: `name` is read first,
   * then `query`; `symbol` and `id` only when the fields before them did not
   * match. Calling `toLowerCase` on an absent value throws.
   */
  function Test(c: Ticker, query: Option<string>): (r: Result<bool, Failure>)
    ensures query.Some? && r.Ok? ==> r.value == Matches(c, query.value)
    ensures query.Some? && r.Err? ==> r.error == MissingData("toLowerCase")
    ensures query.Some? && c.name.Some? && c.symbol.Some? && c.id.Some? ==> r.Ok?
    ensures query.None? ==> r.Err?
  {
    if c.name.None? then Err(MissingData("toLowerCase"))
    else if query.None? then Err(MissingArgument("toLowerCase"))
    else if Contains(Lower(c.name.value), Lower(query.value)) then Ok(true)
    else if c.symbol.None? then Err(MissingData("toLowerCase"))
    else if Contains(Lower(c.symbol.value), Lower(query.value)) then Ok(true)
    else if c.id.None? then Err(MissingData("toLowerCase"))
    else Ok(Contains(Lower(c.id.value), Lower(query.value)))
  }

  /** `tickers.filter(Test)`: the first throw, in upstream order, aborts the whole filter. */
  function Filter(ts: seq<Ticker>, query: Option<string>): (r: Result<seq<Ticker>, Failure>)
    decreases |ts|
  {
    if ts == [] then Ok([])
    else
      match Test(ts[0], query)
      case Err(f) => Err(f)
      case Ok(keep) =>
        match Filter(ts[1..], query)
        case Err(f) => Err(f)
        case Ok(rest) => Ok(if keep then [ts[0]] + rest else rest)
  }

  /** The reference selection: the matching tickers, in order. */
  function Matching(ts: seq<Ticker>, q: string): seq<Ticker>
    decreases |ts|
  {
    if ts == [] then [] else (if Matches(ts[0], q) then [ts[0]] else []) + Matching(ts[1..], q)
  }

  /** a keeps some elements of b, in b's order. */
  predicate IsSubsequence<T(==)>(a: seq<T>, b: seq<T>)
    decreases |b|
  {
    a == [] || (b != [] && ((a[0] == b[0] && IsSubsequence(a[1..], b[1..])) || IsSubsequence(a, b[1..])))
  }

  /** When the filter does not throw, it selects exactly the matching tickers. */
  lemma {:induction false} FilterIsMatching(ts: seq<Ticker>, q: string)
    ensures Filter(ts, Some(q)).Ok? ==> Filter(ts, Some(q)).value == Matching(ts, q)
    decreases |ts|
  {
    if ts != [] {
      FilterIsMatching(ts[1..], q);
    }
  }

  /** A present query only throws on a ticker lacking a field the filter reads. */
  lemma {:induction false} FilterFailsOnData(ts: seq<Ticker>, q: string)
    ensures Filter(ts, Some(q)).Err? ==> Filter(ts, Some(q)).error == MissingData("toLowerCase")
    decreases |ts|
  {
    if ts != [] {
      FilterFailsOnData(ts[1..], q);
    }
  }

  /** Tickers with a name, a symbol and an id never make the filter throw. */
  lemma {:induction false} FilterTotal(ts: seq<Ticker>, q: string)
    requires forall t :: t in ts ==> t.name.Some? && t.symbol.Some? && t.id.Some?
    ensures Filter(ts, Some(q)) == Ok(Matching(ts, q))
    decreases |ts|
  {
    if ts != [] {
      assert ts[0] in ts;
      assert forall t :: t in ts[1..] ==> t in ts;
      FilterTotal(ts[1..], q);
      assert Test(ts[0], Some(q)) == Ok(Matches(ts[0], q));
      if !Matches(ts[0], q) {
        assert Matching(ts, q) == [] + Matching(ts[1..], q) == Matching(ts[1..], q);
      }
    }
  }

  /** Without a query the filter throws as soon as there is a ticker to test. */
  lemma FilterWithoutQuery(ts: seq<Ticker>)
    ensures Filter(ts, None).Ok? <==> ts == []
  {
  }

  /** The outcomes of the filter, for a present and for an absent query. */
  lemma FilterOutcomes(ts: seq<Ticker>, query: Option<string>)
    ensures query.Some? && Filter(ts, query).Ok? ==> Filter(ts, query).value == Matching(ts, query.value)
    ensures query.Some? && Filter(ts, query).Err? ==> Filter(ts, query).error == MissingData("toLowerCase")
    ensures query.Some? && (forall t :: t in ts ==> t.name.Some? && t.symbol.Some? && t.id.Some?) ==> Filter(ts, query).Ok?
    ensures query.None? ==> (Filter(ts, query).Ok? <==> ts == [])
  {
    if query.Some? {
      FilterIsMatching(ts, query.value);
      FilterFailsOnData(ts, query.value);
      if forall t :: t in ts ==> t.name.Some? && t.symbol.Some? && t.id.Some? {
        FilterTotal(ts, query.value);
      }
    } else {
      FilterWithoutQuery(ts);
    }
  }

  /** Every selected ticker is an upstream ticker that matches. */
  lemma {:induction false} MatchingSound(ts: seq<Ticker>, q: string)
    ensures forall t :: t in Matching(ts, q) ==> t in ts && Matches(t, q)
    decreases |ts|
  {
    if ts != [] {
      MatchingSound(ts[1..], q);
    }
  }

  /** Every upstream ticker that matches is selected. */
  lemma {:induction false} MatchingComplete(ts: seq<Ticker>, q: string)
    ensures forall t :: t in ts && Matches(t, q) ==> t in Matching(ts, q)
    decreases |ts|
  {
    if ts != [] {
      MatchingComplete(ts[1..], q);
      forall t | t in ts && Matches(t, q) ensures t in Matching(ts, q) {
        if t != ts[0] {
          assert t in ts[1..];
        }
      }
    }
  }

  /** The selection keeps the upstream order. */
  lemma {:induction false} MatchingIsSubsequence(ts: seq<Ticker>, q: string)
    ensures IsSubsequence(Matching(ts, q), ts)
    decreases |ts|
  {
    if ts != [] {
      MatchingIsSubsequence(ts[1..], q);
      if Matches(ts[0], q) {
        assert Matching(ts, q) == [ts[0]] + Matching(ts[1..], q);
        assert Matching(ts, q)[1..] == Matching(ts[1..], q);
      } else {
        assert Matching(ts, q) == Matching(ts[1..], q);
      }
    }
  }

  /** Two queries equal up to case select the same tickers. */
  lemma {:induction false} FilterIgnoresQueryCase(ts: seq<Ticker>, q1: string, q2: string)
    requires Lower(q1) == Lower(q2)
    ensures Filter(ts, Some(q1)) == Filter(ts, Some(q2))
    decreases |ts|
  {
    if ts != [] {
      FilterIgnoresQueryCase(ts[1..], q1, q2);
    }
  }

  /**
   * A ticker whose symbol equals the query up to case ("btc" for "BTC") is
   * selected whenever the filter does not throw.
   */
  lemma SymbolQueryFinds(ts: seq<Ticker>, q: string, t: Ticker)
    requires t in ts && t.symbol.Some? && Lower(t.symbol.value) == Lower(q)
    ensures t in Matching(ts, q)
    ensures Filter(ts, Some(q)).Ok? ==> t in Filter(ts, Some(q)).value
  {
    ContainsSelf(Lower(q));
    assert FieldMatches(t.symbol, q);
    MatchingComplete(ts, q);
    FilterIsMatching(ts, q);
  }

  /** A prefix of a subsequence is a subsequence. */
  lemma {:induction false} PrefixOfSubsequence<T>(a: seq<T>, b: seq<T>, n: nat)
    requires IsSubsequence(a, b) && n <= |a|
    ensures IsSubsequence(a[..n], b)
    decreases |b|
  {
    if n > 0 {
      assert a != [] && b != [];
      if a[0] == b[0] && IsSubsequence(a[1..], b[1..]) {
        PrefixOfSubsequence(a[1..], b[1..], n - 1);
        assert a[..n][1..] == a[1..][..n - 1];
      } else {
        PrefixOfSubsequence(a, b[1..], n);
      }
    }
  }

  /** The end index `slice(0, end)` stops at; a negative end counts back from the length. */
  function SliceEnd(len: nat, end: int): (n: nat)
    ensures n <= len
    ensures end >= 0 ==> n == Min(end, len)
    ensures end < 0 ==> n + Min(-end, len) == len
  {
    if end < 0 then (if len + end < 0 then 0 else len + end)
    else Min(end, len)
  }

  /** `xs.slice(0, end)`. */
  function Slice<T>(xs: seq<T>, end: int): (r: seq<T>)
    ensures r <= xs
    ensures |r| == SliceEnd(|xs|, end)
    ensures end >= 0 ==> |r| <= end
  {
    xs[..SliceEnd(|xs|, end)]
  }

  /**
   * The search results: a prefix of the matching tickers in upstream order,
   * every one matching, exactly `limit` of them (or all, when fewer match)
   * when the limit is not negative, and all of them when there are no more
   * than `limit`.
   */
  lemma SearchResults(ts: seq<Ticker>, q: string, limit: int)
    ensures var r := Slice(Matching(ts, q), limit);
      && r <= Matching(ts, q)
      && IsSubsequence(r, ts)
      && (forall t :: t in r ==> Matches(t, q))
      && (limit >= 0 ==> |r| <= limit)
      && (limit >= 0 ==> |r| == Min(limit, |Matching(ts, q)|))
      && (0 <= |Matching(ts, q)| <= limit ==> r == Matching(ts, q))
  {
    var m := Matching(ts, q);
    var r := Slice(m, limit);
    MatchingIsSubsequence(ts, q);
    PrefixOfSubsequence(m, ts, |r|);
    assert r == m[..|r|];
    MatchingSound(ts, q);
    forall t | t in r ensures Matches(t, q) {
      assert t in m;
    }
  }
}
