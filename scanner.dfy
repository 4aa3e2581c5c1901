/**
 * The market scanner of the survival bot: normalising DexScreener pairs into
 * token records, the bucketed additive score, and the choice of the best
 * opportunity (score every token, stable sort by descending score, take the head).
 */
module Scanner {
  import opened Wrappers

  /** The base token of a DexScreener pair. */
  datatype BaseToken = BaseToken(address: string, name: string, symbol: string)

  /**
   * One pair as DexScreener returns it. The base token and every numeric
   * field may be absent (`None`); a present number is the value `parseFloat`
   * would give.
   */
  datatype RawPair = RawPair(
    chainId: string,
    baseToken: Option<BaseToken>,
    priceUsd: Option<real>,
    liquidityUsd: Option<real>,
    volumeH24: Option<real>,
    priceChangeH1: Option<real>,
    priceChangeH6: Option<real>,
    priceChangeH24: Option<real>,
    buysH24: Option<int>,
    sellsH24: Option<int>)

  /** The uniform token record the scanner hands to the scorer. */
  datatype Token = Token(
    address: string,
    name: string,
    symbol: string,
    price: real,
    liquidity: real,
    volume24h: real,
    priceChange1h: real,
    priceChange6h: real,
    priceChange24h: real,
    txns24h: int,
    source: string)

  /** A token together with its score. */
  datatype ScoredToken = ScoredToken(token: Token, score: int)

  const SOLANA: string := "solana"
  const DEXSCREENER: string := "dexscreener"

  // ---------------------------------------------------------------------------
  // Normalisation
  // ---------------------------------------------------------------------------

  /** The record built for one pair: absent numbers read as 0, transactions are buys plus sells. */
  function Normalize(p: RawPair): (t: Token)
    requires p.baseToken.Some?
    ensures t.address == p.baseToken.value.address && t.name == p.baseToken.value.name
    ensures t.symbol == p.baseToken.value.symbol
    ensures t.txns24h == p.buysH24.GetOr(0) + p.sellsH24.GetOr(0)
    ensures p.buysH24.None? && p.sellsH24.None? ==> t.txns24h == 0
    ensures t.price == p.priceUsd.GetOr(0.0) && t.liquidity == p.liquidityUsd.GetOr(0.0)
    ensures t.volume24h == p.volumeH24.GetOr(0.0)
    ensures t.priceChange1h == p.priceChangeH1.GetOr(0.0) && t.priceChange6h == p.priceChangeH6.GetOr(0.0)
    ensures t.priceChange24h == p.priceChangeH24.GetOr(0.0)
    ensures p.liquidityUsd.None? ==> t.liquidity == 0.0
    ensures p.priceUsd.Some? ==> t.price == p.priceUsd.value
    ensures t.source == DEXSCREENER
  {
    Token(
      p.baseToken.value.address,
      p.baseToken.value.name,
      p.baseToken.value.symbol,
      p.priceUsd.GetOr(0.0),
      p.liquidityUsd.GetOr(0.0),
      p.volumeH24.GetOr(0.0),
      p.priceChangeH1.GetOr(0.0),
      p.priceChangeH6.GetOr(0.0),
      p.priceChangeH24.GetOr(0.0),
      p.buysH24.GetOr(0) + p.sellsH24.GetOr(0),
      DEXSCREENER)
  }

  /** The Solana pairs of `pairs`, in order. */
  function SolanaPairs(pairs: seq<RawPair>): (r: seq<RawPair>)
    ensures forall q :: q in r ==> q in pairs && q.chainId == SOLANA
    ensures forall q :: q in pairs && q.chainId == SOLANA ==> q in r
    ensures |r| <= |pairs|
  {
    if pairs == [] then []
    else
      var rest := SolanaPairs(pairs[..|pairs| - 1]);
      var last := pairs[|pairs| - 1];
      assert pairs == pairs[..|pairs| - 1] + [last];
      if last.chainId == SOLANA then rest + [last] else rest
  }

  lemma ConcatAssoc<T>(x: seq<T>, y: seq<T>, z: seq<T>)
    ensures (x + y) + z == x + (y + z)
  {
  }

  /** Filtering one more pair only decides about that pair. */
  lemma SolanaPairsSnoc(s: seq<RawPair>, x: RawPair)
    ensures SolanaPairs(s + [x]) == SolanaPairs(s) + (if x.chainId == SOLANA then [x] else [])
  {
    assert (s + [x])[..|s|] == s;
  }

  lemma SolanaPairsSingleton()
    ensures forall q :: SolanaPairs([q]) == if q.chainId == SOLANA then [q] else []
  {
    forall q ensures SolanaPairs([q]) == if q.chainId == SOLANA then [q] else [] {
      SolanaPairsSnoc([], q);
      assert [] + [q] == [q];
    }
  }

  /** One induction step of `SolanaPairsConcat`: appending a pair to the second part. */
  lemma SolanaPairsConcatStep(a: seq<RawPair>, init: seq<RawPair>, last: RawPair)
    requires SolanaPairs(a + init) == SolanaPairs(a) + SolanaPairs(init)
    ensures SolanaPairs(a + (init + [last])) == SolanaPairs(a) + SolanaPairs(init + [last])
  {
    var kept := if last.chainId == SOLANA then [last] else [];
    ConcatAssoc(a, init, [last]);
    SolanaPairsSnoc(a + init, last);
    SolanaPairsSnoc(init, last);
    ConcatAssoc(SolanaPairs(a), SolanaPairs(init), kept);
  }

  /**
   * The filter distributes over concatenation: it keeps the Solana pairs of
   * each part in place, repeated pairs included, so the order of the input
   * survives into the scan.
   */
  lemma {:induction false} SolanaPairsConcat(a: seq<RawPair>, b: seq<RawPair>)
    ensures SolanaPairs(a + b) == SolanaPairs(a) + SolanaPairs(b)
    ensures SolanaPairs([]) == []
    ensures forall q :: SolanaPairs([q]) == if q.chainId == SOLANA then [q] else []
    decreases |b|
  {
    SolanaPairsSingleton();
    if b == [] {
      assert a + b == a;
    } else {
      var init, last := b[..|b| - 1], b[|b| - 1];
      assert b == init + [last];
      SolanaPairsConcat(a, init);
      SolanaPairsConcatStep(a, init, last);
    }
  }

  /** Every pair has a base token to read the address, name and symbol from. */
  predicate Readable(pairs: seq<RawPair>)
  {
    forall i :: 0 <= i < |pairs| ==> pairs[i].baseToken.Some?
  }

  /**
   * The tokens of one scan. `response` is the list of pairs in the search
   * result, or `None` when the request failed or carried no list. A failure,
   * including a Solana pair without a base token (reading it throws inside
   * the mapping), degrades to the empty list.
   */
  function ScanDexScreener(response: Option<seq<RawPair>>): (tokens: seq<Token>)
    ensures response.None? ==> tokens == []
    ensures response.Some? && !Readable(SolanaPairs(response.value)) ==> tokens == []
    ensures response.Some? && Readable(SolanaPairs(response.value)) ==>
      && |tokens| == |SolanaPairs(response.value)|
      && forall i :: 0 <= i < |tokens| ==> tokens[i] == Normalize(SolanaPairs(response.value)[i])
  {
    match response
    case None => []
    case Some(pairs) =>
      var solana := SolanaPairs(pairs);
      if !Readable(solana) then []
      else seq(|solana|, i requires 0 <= i < |solana| => Normalize(solana[i]))
  }

  /**
   * Every token of a scan is the record of a Solana pair, and when the scan
   * succeeds every Solana pair yields its record.
   */
  lemma ScanKeepsOnlySolana(pairs: seq<RawPair>)
    ensures forall t :: t in ScanDexScreener(Some(pairs)) ==>
      exists q :: q in pairs && q.chainId == SOLANA && q.baseToken.Some? && t == Normalize(q)
    ensures Readable(SolanaPairs(pairs)) ==>
      forall q :: q in pairs && q.chainId == SOLANA ==> q.baseToken.Some? && Normalize(q) in ScanDexScreener(Some(pairs))
  {
  }

  // ---------------------------------------------------------------------------
  // Scoring
  // ---------------------------------------------------------------------------

  /** Liquidity bucket: more than 100000 earns 30, more than 50000 earns 20, more than 20000 earns 10. */
  function LiquidityPoints(liquidity: real): (r: int)
    ensures r == 30 <==> liquidity > 100000.0
    ensures r == 20 <==> 50000.0 < liquidity <= 100000.0
    ensures r == 10 <==> 20000.0 < liquidity <= 50000.0
    ensures r == 0 <==> liquidity <= 20000.0
  {
    if liquidity > 100000.0 then 30
    else if liquidity > 50000.0 then 20
    else if liquidity > 20000.0 then 10
    else 0
  }

  /** Volume bucket: more than 50000 earns 25, more than 20000 earns 15, more than 10000 earns 10. */
  function VolumePoints(volume: real): (r: int)
    ensures r == 25 <==> volume > 50000.0
    ensures r == 15 <==> 20000.0 < volume <= 50000.0
    ensures r == 10 <==> 10000.0 < volume <= 20000.0
    ensures r == 0 <==> volume <= 10000.0
  {
    if volume > 50000.0 then 25
    else if volume > 20000.0 then 15
    else if volume > 10000.0 then 10
    else 0
  }

  /** Momentum bucket over the 1h and 6h price changes (percent). */
  function MomentumPoints(change1h: real, change6h: real): (r: int)
    ensures r == 25 <==> change1h > 5.0 && change6h > 10.0
    ensures r == 15 <==> !(change1h > 5.0 && change6h > 10.0) && change1h > 3.0 && change6h > 5.0
    ensures r == 5 <==> change1h > 0.0 && !(change1h > 3.0 && change6h > 5.0)
    ensures r == 0 <==> change1h <= 0.0
  {
    if change1h > 5.0 && change6h > 10.0 then 25
    else if change1h > 3.0 && change6h > 5.0 then 15
    else if change1h > 0.0 then 5
    else 0
  }

  /** Activity bucket over the 24h transaction count. */
  function ActivityPoints(txns: int): (r: int)
    ensures r == 20 <==> txns > 500
    ensures r == 10 <==> 200 < txns <= 500
    ensures r == 5 <==> 50 < txns <= 200
    ensures r == 0 <==> txns <= 50
  {
    if txns > 500 then 20
    else if txns > 200 then 10
    else if txns > 50 then 5
    else 0
  }

  /** The score as a table: one bucket of each factor, added up. */
  function Score(t: Token): (r: int)
    ensures 0 <= r <= 100
  {
    LiquidityPoints(t.liquidity) + VolumePoints(t.volume24h)
    + MomentumPoints(t.priceChange1h, t.priceChange6h) + ActivityPoints(t.txns24h)
  }

  /** `scoreToken`: a running total that each factor's first matching bucket adds to. */
  method ScoreToken(token: Token) returns (score: int)
    ensures score == Score(token)
    ensures 0 <= score <= 100
  {
    score := 0;

    if token.liquidity > 100000.0 { score := score + 30; }
    else if token.liquidity > 50000.0 { score := score + 20; }
    else if token.liquidity > 20000.0 { score := score + 10; }

    if token.volume24h > 50000.0 { score := score + 25; }
    else if token.volume24h > 20000.0 { score := score + 15; }
    else if token.volume24h > 10000.0 { score := score + 10; }

    if token.priceChange1h > 5.0 && token.priceChange6h > 10.0 { score := score + 25; }
    else if token.priceChange1h > 3.0 && token.priceChange6h > 5.0 { score := score + 15; }
    else if token.priceChange1h > 0.0 { score := score + 5; }

    if token.txns24h > 500 { score := score + 20; }
    else if token.txns24h > 200 { score := score + 10; }
    else if token.txns24h > 50 { score := score + 5; }
  }

  /** Each factor contributes exactly one of its bucket values. */
  lemma FactorBuckets(t: Token)
    ensures LiquidityPoints(t.liquidity) in {0, 10, 20, 30}
    ensures VolumePoints(t.volume24h) in {0, 10, 15, 25}
    ensures MomentumPoints(t.priceChange1h, t.priceChange6h) in {0, 5, 15, 25}
    ensures ActivityPoints(t.txns24h) in {0, 5, 10, 20}
  {
  }

  /** A token over the top bucket of every factor scores exactly 100. */
  lemma TopTokenScoresHundred(t: Token)
    requires t.liquidity > 100000.0 && t.volume24h > 50000.0
    requires t.priceChange1h > 5.0 && t.priceChange6h > 10.0 && t.txns24h > 500
    ensures Score(t) == 100
  {
  }

  /** The thresholds are strict: a value exactly on any boundary falls into the bucket below. */
  lemma StrictBoundaries()
    ensures LiquidityPoints(100000.0) == 20 && LiquidityPoints(50000.0) == 10 && LiquidityPoints(20000.0) == 0
    ensures VolumePoints(50000.0) == 15 && VolumePoints(20000.0) == 10 && VolumePoints(10000.0) == 0
    ensures ActivityPoints(500) == 10 && ActivityPoints(200) == 5 && ActivityPoints(50) == 0
    ensures MomentumPoints(5.0, 11.0) == 15 && MomentumPoints(6.0, 10.0) == 15
    ensures MomentumPoints(3.0, 6.0) == 5 && MomentumPoints(4.0, 5.0) == 5
    ensures MomentumPoints(0.0, 100.0) == 0
  {
  }

  /** Without a positive 1h change the momentum factor adds nothing, whatever the 6h change. */
  lemma NoMomentumWithoutRise(change1h: real, change6h: real)
    requires change1h <= 0.0
    ensures MomentumPoints(change1h, change6h) == 0
  {
  }

  /** Raising any of the scored fields never lowers the score. */
  lemma ScoreMonotone(t: Token, u: Token)
    requires t.liquidity <= u.liquidity && t.volume24h <= u.volume24h
    requires t.priceChange1h <= u.priceChange1h && t.priceChange6h <= u.priceChange6h
    requires t.txns24h <= u.txns24h
    ensures LiquidityPoints(t.liquidity) <= LiquidityPoints(u.liquidity)
    ensures VolumePoints(t.volume24h) <= VolumePoints(u.volume24h)
    ensures MomentumPoints(t.priceChange1h, t.priceChange6h) <= MomentumPoints(u.priceChange1h, u.priceChange6h)
    ensures ActivityPoints(t.txns24h) <= ActivityPoints(u.txns24h)
    ensures Score(t) <= Score(u)
  {
  }

  // ---------------------------------------------------------------------------
  // Ranking
  // ---------------------------------------------------------------------------

  /** Every token with its score, in input order. */
  function ScoreAll(tokens: seq<Token>): (r: seq<ScoredToken>)
    ensures |r| == |tokens|
    ensures forall i :: 0 <= i < |r| ==> r[i] == ScoredToken(tokens[i], Score(tokens[i]))
  {
    seq(|tokens|, i requires 0 <= i < |tokens| => ScoredToken(tokens[i], Score(tokens[i])))
  }

  ghost predicate SortedDesc(r: seq<ScoredToken>)
  {
    forall i, j :: 0 <= i < j < |r| ==> r[i].score >= r[j].score
  }

  /**
   * One step of a stable sort by descending score: `x`, the later element,
   * moves left past every element scoring strictly less and stops behind the
   * first one scoring at least as much.
   */
  function InsertDesc(r: seq<ScoredToken>, x: ScoredToken): (out: seq<ScoredToken>)
    ensures |out| == |r| + 1
    decreases |r|
  {
    if r == [] || r[|r| - 1].score >= x.score then r + [x]
    else InsertDesc(r[..|r| - 1], x) + [r[|r| - 1]]
  }

  /**
   * The order `Array.prototype.sort` produces with the comparator
   * `(a, b) => b.score - a.score`: descending score, ties in input order
   * (the sort is stable since ECMAScript 2019).
   */
  function SortDesc(s: seq<ScoredToken>): (r: seq<ScoredToken>)
    ensures |r| == |s|
  {
    if s == [] then [] else InsertDesc(SortDesc(s[..|s| - 1]), s[|s| - 1])
  }

  /** The elements of `r` that score exactly `v`, in their order in `r`. */
  function WithScore(r: seq<ScoredToken>, v: int): seq<ScoredToken>
  {
    if r == [] then []
    else WithScore(r[..|r| - 1], v) + (if r[|r| - 1].score == v then [r[|r| - 1]] else [])
  }

  lemma {:induction false} InsertDescPermutes(r: seq<ScoredToken>, x: ScoredToken)
    ensures multiset(InsertDesc(r, x)) == multiset(r) + multiset{x}
    decreases |r|
  {
    if r == [] || r[|r| - 1].score >= x.score {
    } else {
      var init, last := r[..|r| - 1], r[|r| - 1];
      InsertDescPermutes(init, x);
      assert r == init + [last];
    }
  }

  lemma {:induction false} InsertDescSorted(r: seq<ScoredToken>, x: ScoredToken)
    requires SortedDesc(r)
    ensures SortedDesc(InsertDesc(r, x))
    decreases |r|
  {
    if r == [] || r[|r| - 1].score >= x.score {
    } else {
      var init, last := r[..|r| - 1], r[|r| - 1];
      InsertDescSorted(init, x);
      InsertDescPermutes(init, x);
      var front := InsertDesc(init, x);
      forall e | e in front ensures e.score >= last.score {
        assert e in multiset(front);
        assert e in multiset(init) || e == x;
      }
      forall i | 0 <= i < |front| ensures front[i].score >= last.score {
        assert front[i] in front;
      }
    }
  }

  lemma {:induction false} InsertDescStable(r: seq<ScoredToken>, x: ScoredToken, v: int)
    ensures WithScore(InsertDesc(r, x), v) == WithScore(r, v) + (if x.score == v then [x] else [])
    decreases |r|
  {
    if r == [] || r[|r| - 1].score >= x.score {
      assert (r + [x])[..|r|] == r;
    } else {
      var init, last := r[..|r| - 1], r[|r| - 1];
      InsertDescStable(init, x, v);
      var front := InsertDesc(init, x);
      assert (front + [last])[..|front|] == front;
    }
  }

  /** The ranking is sorted by descending score. */
  lemma {:induction false} SortDescSorted(s: seq<ScoredToken>)
    ensures SortedDesc(SortDesc(s))
  {
    if s != [] {
      SortDescSorted(s[..|s| - 1]);
      InsertDescSorted(SortDesc(s[..|s| - 1]), s[|s| - 1]);
    }
  }

  /** The ranking is a permutation of its input. */
  lemma {:induction false} SortDescPermutes(s: seq<ScoredToken>)
    ensures multiset(SortDesc(s)) == multiset(s)
  {
    if s != [] {
      var init, last := s[..|s| - 1], s[|s| - 1];
      SortDescPermutes(init);
      InsertDescPermutes(SortDesc(init), last);
      assert s == init + [last];
    }
  }

  /** The ranking is stable: the tokens of any one score keep their input order. */
  lemma {:induction false} SortDescStable(s: seq<ScoredToken>, v: int)
    ensures WithScore(SortDesc(s), v) == WithScore(s, v)
  {
    if s != [] {
      var init, last := s[..|s| - 1], s[|s| - 1];
      SortDescStable(init, v);
      InsertDescStable(SortDesc(init), last, v);
    }
  }

  /** `k` is the first position holding the highest score of `s`. */
  ghost predicate IsFirstMax(s: seq<ScoredToken>, k: int)
  {
    && 0 <= k < |s|
    && (forall i :: 0 <= i < |s| ==> s[i].score <= s[k].score)
    && (forall i :: 0 <= i < k ==> s[i].score < s[k].score)
  }

  /** The first position of the highest score. */
  function FirstMaxIndex(s: seq<ScoredToken>): (k: nat)
    requires |s| > 0
    ensures IsFirstMax(s, k)
  {
    if |s| == 1 then 0
    else
      var k := FirstMaxIndex(s[..|s| - 1]);
      if s[|s| - 1].score > s[k].score then |s| - 1 else k
  }

  lemma {:induction false} InsertDescKeepsHead(r: seq<ScoredToken>, x: ScoredToken)
    requires |r| > 0 && x.score <= r[0].score
    ensures InsertDesc(r, x)[0] == r[0]
    decreases |r|
  {
    if r[|r| - 1].score >= x.score {
    } else {
      InsertDescKeepsHead(r[..|r| - 1], x);
    }
  }

  lemma {:induction false} InsertDescToFront(r: seq<ScoredToken>, x: ScoredToken)
    requires forall i :: 0 <= i < |r| ==> r[i].score < x.score
    ensures InsertDesc(r, x)[0] == x
    decreases |r|
  {
    if r != [] {
      InsertDescToFront(r[..|r| - 1], x);
    }
  }

  /** The head of the ranking is the first token, in input order, with the highest score. */
  lemma {:induction false} SortDescHead(s: seq<ScoredToken>, k: int)
    requires IsFirstMax(s, k)
    ensures SortDesc(s)[0] == s[k]
  {
    var n := |s| - 1;
    var init, last := s[..n], s[n];
    if n == 0 {
    } else if k < n {
      assert IsFirstMax(init, k);
      SortDescHead(init, k);
      InsertDescKeepsHead(SortDesc(init), last);
    } else {
      var sorted := SortDesc(init);
      SortDescPermutes(init);
      forall i | 0 <= i < |sorted| ensures sorted[i].score < last.score {
        assert sorted[i] in multiset(init);
        var j :| 0 <= j < |init| && init[j] == sorted[i];
      }
      InsertDescToFront(sorted, last);
    }
  }

  /** `findBestOpportunity` on the tokens of one scan, as a value. */
  function BestOpportunity(tokens: seq<Token>): (best: Option<ScoredToken>)
    ensures best.None? <==> tokens == []
    ensures best.Some? ==>
      var scored := ScoreAll(tokens);
      best.value == scored[FirstMaxIndex(scored)]
  {
    if tokens == [] then None
    else
      var scored := ScoreAll(tokens);
      SortDescHead(scored, FirstMaxIndex(scored));
      Some(SortDesc(scored)[0])
  }

  /** The best opportunity carries the top score, and every earlier token scores strictly less. */
  lemma BestOpportunityIsFirstMax(tokens: seq<Token>)
    requires tokens != []
    ensures exists k :: (
      && 0 <= k < |tokens|
      && BestOpportunity(tokens) == Some(ScoredToken(tokens[k], Score(tokens[k])))
      && (forall i :: 0 <= i < |tokens| ==> Score(tokens[i]) <= Score(tokens[k]))
      && (forall i :: 0 <= i < k ==> Score(tokens[i]) < Score(tokens[k])))
  {
    var k := FirstMaxIndex(ScoreAll(tokens));
    assert 0 <= k < |tokens| && BestOpportunity(tokens) == Some(ScoredToken(tokens[k], Score(tokens[k])));
  }

  /** Swapping `x` one place down keeps the pending insertion the same. */
  lemma SwapDownStep(s: seq<ScoredToken>, j: nat, i: nat, x: ScoredToken)
    requires 0 < j <= i < |s| && s[j] == x && s[j - 1].score < x.score
    ensures InsertDesc(s[..j], x) + s[j + 1..i + 1]
      == InsertDesc(s[j - 1 := x][j := s[j - 1]][..j - 1], x) + s[j - 1 := x][j := s[j - 1]][j..i + 1]
  {
    var t := s[j - 1 := x][j := s[j - 1]];
    InsertDescStep(s[..j], x, s[j + 1..i + 1]);
    assert s[..j][..j - 1] == s[..j - 1] == t[..j - 1];
    assert t[j..i + 1] == [s[j - 1]] + s[j + 1..i + 1];
  }

  /** Moves `a[i]` left past the elements of the sorted prefix `a[..i]` that score strictly less. */
  method InsertIntoPrefix(a: array<ScoredToken>, i: nat)
    requires i < a.Length
    modifies a
    ensures a[..i + 1] == InsertDesc(old(a[..i]), old(a[i]))
    ensures a[i + 1..] == old(a[i + 1..])
  {
    var x := a[i];
    ghost var sorted := a[..i];
    var j := i;
    while j > 0 && a[j - 1].score < x.score
      invariant 0 <= j <= i
      invariant a[j] == x
      invariant a[i + 1..] == old(a[i + 1..])
      invariant InsertDesc(sorted, x) == InsertDesc(a[..j], x) + a[j + 1..i + 1]
    {
      ghost var cur := a[..];
      SwapDownStep(cur, j, i, x);
      a[j - 1], a[j] := a[j], a[j - 1];
      assert a[..] == cur[j - 1 := x][j := cur[j - 1]];
      j := j - 1;
    }
    assert a[..i + 1] == a[..j] + [x] + a[j + 1..i + 1];
  }

  lemma InsertDescStep(pre: seq<ScoredToken>, x: ScoredToken, post: seq<ScoredToken>)
    requires |pre| > 0 && pre[|pre| - 1].score < x.score
    ensures InsertDesc(pre, x) + post == InsertDesc(pre[..|pre| - 1], x) + ([pre[|pre| - 1]] + post)
  {
  }

  /** Sorting one more element of the input is inserting it into the sorted prefix. */
  lemma SortDescStep(input: seq<ScoredToken>, i: nat, prefix: seq<ScoredToken>, after: seq<ScoredToken>)
    requires i < |input| && prefix == SortDesc(input[..i]) && after == InsertDesc(prefix, input[i])
    ensures after == SortDesc(input[..i + 1])
  {
    assert input[..i + 1][..i] == input[..i];
  }

  /** Sorts `a` in place, stably, by descending score, as the comparator `(a, b) => b.score - a.score` does. */
  method SortByScoreDesc(a: array<ScoredToken>)
    modifies a
    ensures a[..] == SortDesc(old(a[..]))
  {
    ghost var input := a[..];
    var i := 0;
    while i < a.Length
      invariant 0 <= i <= a.Length
      invariant a[..i] == SortDesc(input[..i])
      invariant a[i..] == input[i..]
    {
      ghost var prefix, rest := a[..i], a[i + 1..];
      assert a[i] == a[i..][0] == input[i];
      assert rest == a[i..][1..] == input[i + 1..];
      InsertIntoPrefix(a, i);
      SortDescStep(input, i, prefix, a[..i + 1]);
      i := i + 1;
    }
    assert input[..a.Length] == input;
  }

  /** `tokens.map(t => ({...t, score: scoreToken(t)}))`, into a new array. */
  method ScoreEach(tokens: seq<Token>) returns (scored: array<ScoredToken>)
    ensures fresh(scored) && scored[..] == ScoreAll(tokens)
  {
    scored := new ScoredToken[|tokens|](i requires 0 <= i < |tokens| => ScoredToken(tokens[i], 0));
    for i := 0 to |tokens|
      invariant forall k :: 0 <= k < i ==> scored[k] == ScoredToken(tokens[k], Score(tokens[k]))
    {
      var s := ScoreToken(tokens[i]);
      scored[i] := ScoredToken(tokens[i], s);
    }
  }

  /**
   * `findBestOpportunity`: scan, give up with `None` on an empty result,
   * otherwise score every token, sort the scored array and take its head.
   */
  method FindBestOpportunity(response: Option<seq<RawPair>>) returns (best: Option<ScoredToken>)
    ensures best == BestOpportunity(ScanDexScreener(response))
    ensures best.None? <==> ScanDexScreener(response) == []
  {
    var tokens := ScanDexScreener(response);
    if |tokens| == 0 {
      return None;
    }
    var scored := ScoreEach(tokens);
    ghost var all := ScoreAll(tokens);
    SortByScoreDesc(scored);
    assert scored[0] == scored[..][0] == SortDesc(all)[0];
    best := Some(scored[0]);
  }
}
