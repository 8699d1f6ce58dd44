/**
 * The structure detector of src/services/IndicatorService.ts: support and
 * resistance levels (local extrema over a +-5 bar window) and the
 * priority-ordered candlestick / trend classifier over the last 10 bars.
 */
module Structure {
  import opened Types
  import Indicators

  /** Bars on each side of a candidate extremum. */
  const Lookback: nat := 5
  /** How many levels of each kind are reported. */
  const KeptLevels: nat := 3
  /** Bars the pattern classifier looks at. */
  const PatternBars: nat := 10

  // ---------------------------------------------------------------------------
  // Supports and resistances (IndicatorService.ts:87-110)
  // ---------------------------------------------------------------------------

  /** Supports are built from lows, resistances from highs. */
  datatype Side = Support | Resistance

  /** The price a bar contributes on a side. */
  function Level(b: Kline, side: Side): real
  {
    match side
    case Support => b.low
    case Resistance => b.high
  }

  /** `other` does not break the candidate's level: a low >= it for supports, a high <= it for resistances. */
  predicate Respects(other: Kline, candidate: Kline, side: Side)
  {
    match side
    case Support => other.low >= candidate.low
    case Resistance => other.high <= candidate.high
  }

  /**
   * isLocalLow / isLocalHigh: every bar among the Lookback bars before i and
   * the Lookback bars after i respects bar i's level (ties qualify).
   */
  predicate IsLocalExtreme(data: seq<Kline>, i: int, side: Side)
    requires Lookback <= i < |data| - Lookback
  {
    && (forall j :: i - Lookback <= j < i ==> Respects(data[j], data[i], side))
    && (forall j :: i < j <= i + Lookback ==> Respects(data[j], data[i], side))
  }

  /** The levels pushed by the loop for the indices Lookback <= i < n, in index order. */
  function Candidates(data: seq<Kline>, n: int, side: Side): (c: seq<real>)
    requires n <= |data| - Lookback || n <= Lookback
    ensures |c| <= if n <= Lookback then 0 else n - Lookback
    decreases n
  {
    if n <= Lookback then []
    else Candidates(data, n - 1, side) + (if IsLocalExtreme(data, n - 1, side) then [Level(data[n - 1], side)] else [])
  }

  /** Every candidate is the level of a local extremum with index below n. */
  lemma {:induction false} CandidatesAreExtrema(data: seq<Kline>, n: int, side: Side, x: real)
    requires n <= |data| - Lookback || n <= Lookback
    requires x in Candidates(data, n, side)
    ensures exists i :: Lookback <= i < n && IsLocalExtreme(data, i, side) && Level(data[i], side) == x
  {
    if x !in Candidates(data, n - 1, side) {
      assert IsLocalExtreme(data, n - 1, side) && Level(data[n - 1], side) == x;
    } else {
      CandidatesAreExtrema(data, n - 1, side, x);
    }
  }

  /** The level of every local extremum with index below n is a candidate. */
  lemma {:induction false} ExtremaAreCandidates(data: seq<Kline>, n: int, side: Side, i: int)
    requires n <= |data| - Lookback || n <= Lookback
    requires Lookback <= i < n && IsLocalExtreme(data, i, side)
    ensures Level(data[i], side) in Candidates(data, n, side)
  {
    if i < n - 1 {
      ExtremaAreCandidates(data, n - 1, side, i);
    }
  }

  /** `[...new Set(s)]`: the distinct values of s, each at its first occurrence. */
  function Distinct(s: seq<real>): (d: seq<real>)
    ensures forall x :: x in d <==> x in s
    ensures NoDuplicates(d)
  {
    if s == [] then []
    else
      var init := s[..|s| - 1];
      assert s == init + [s[|s| - 1]];
      var d := Distinct(init);
      if s[|s| - 1] in d then d else d + [s[|s| - 1]]
  }

  /** x occurs in c at a position before which y has not yet occurred. */
  predicate SeenBefore(c: seq<real>, x: real, y: real)
  {
    exists p :: 0 <= p < |c| && c[p] == x && y !in c[..p]
  }

  /** Distinct lists values in the order of their first detection. */
  lemma {:induction false} DistinctInDetectionOrder(s: seq<real>, i: int, j: int)
    requires 0 <= i < j < |Distinct(s)|
    ensures SeenBefore(s, Distinct(s)[i], Distinct(s)[j])
  {
    var init := s[..|s| - 1];
    var p := Distinct(init);
    var d := Distinct(s);
    var last := s[|s| - 1];
    assert s == init + [last];
    assert d == if last in p then p else p + [last];
    assert d[i] == p[i];
    if j < |p| {
      DistinctInDetectionOrder(init, i, j);
      var q :| 0 <= q < |init| && init[q] == p[i] && p[j] !in init[..q];
      assert s[q] == init[q] && s[..q] == init[..q];
    } else {
      assert d[j] == last && last !in init;
      assert p[i] in init;
      var q :| 0 <= q < |init| && init[q] == p[i];
      assert s[q] == init[q] && s[..q] == init[..q];
      assert last !in init[..q];
    }
  }

  /** What detectSupportsResistances reports on one side: the last KeptLevels distinct levels. */
  function Levels(data: seq<Kline>, side: Side): (r: seq<real>)
    ensures |r| <= KeptLevels
    ensures var d := Distinct(Candidates(data, |data| - Lookback, side));
            |r| == if |d| < KeptLevels then |d| else KeptLevels
    ensures |data| < 2 * Lookback + 1 ==> r == []
  {
    Indicators.LastN(Distinct(Candidates(data, |data| - Lookback, side)), KeptLevels)
  }

  /** No value occurs twice. */
  predicate NoDuplicates(r: seq<real>)
  {
    forall k, m :: 0 <= k < m < |r| ==> r[k] != r[m]
  }

  /** r lists values in the order of their first occurrence in c. */
  predicate InDetectionOrder(c: seq<real>, r: seq<real>)
  {
    forall k, m :: 0 <= k < m < |r| ==> SeenBefore(c, r[k], r[m])
  }

  /** x is the level of a local extremum at some index Lookback <= i < |data| - Lookback. */
  predicate IsExtremumLevel(data: seq<Kline>, side: Side, x: real)
  {
    exists i :: Lookback <= i < |data| - Lookback && IsLocalExtreme(data, i, side) && Level(data[i], side) == x
  }

  /** Every value of r is the level of a local extremum. */
  predicate OnlyExtrema(data: seq<Kline>, side: Side, r: seq<real>)
  {
    forall k :: 0 <= k < |r| ==> IsExtremumLevel(data, side, r[k])
  }

  /** Every value of a suffix is a value of the sequence. */
  lemma SuffixValues(d: seq<real>, n: nat, k: int)
    requires n >= 1 && 0 <= k < |Indicators.LastN(d, n)|
    ensures Indicators.LastN(d, n)[k] in d
  {
    if n < |d| {
      assert Indicators.LastN(d, n)[k] == d[|d| - n + k];
    }
  }

  /** A suffix of a duplicate-free sequence is duplicate-free. */
  lemma SuffixNoDuplicates(d: seq<real>, n: nat)
    requires n >= 1 && NoDuplicates(d)
    ensures NoDuplicates(Indicators.LastN(d, n))
  {
    var r := Indicators.LastN(d, n);
    if n < |d| {
      var off := |d| - n;
      forall k, m | 0 <= k < m < |r| ensures r[k] != r[m] {
        assert r[k] == d[off + k];
        assert r[m] == d[off + m];
      }
    }
  }

  /** A suffix of Distinct(c) is duplicate-free and draws its values from c. */
  lemma SuffixOfDistinct(c: seq<real>, n: nat)
    requires n >= 1
    ensures forall k :: 0 <= k < |Indicators.LastN(Distinct(c), n)| ==> Indicators.LastN(Distinct(c), n)[k] in c
    ensures NoDuplicates(Indicators.LastN(Distinct(c), n))
  {
    var d := Distinct(c);
    forall k | 0 <= k < |Indicators.LastN(d, n)| ensures Indicators.LastN(d, n)[k] in c {
      SuffixValues(d, n, k);
    }
    SuffixNoDuplicates(d, n);
  }

  /** A suffix of Distinct(c) keeps the first-detection order of c. */
  lemma SuffixInDetectionOrder(c: seq<real>, n: nat)
    requires n >= 1
    ensures InDetectionOrder(c, Indicators.LastN(Distinct(c), n))
  {
    DistinctOrdered(c);
    SuffixKeepsOrder(c, Distinct(c), n);
  }

  /** The whole of Distinct(c) is in first-detection order. */
  lemma DistinctOrdered(c: seq<real>)
    ensures InDetectionOrder(c, Distinct(c))
  {
    forall k, m | 0 <= k < m < |Distinct(c)| ensures SeenBefore(c, Distinct(c)[k], Distinct(c)[m]) {
      DistinctInDetectionOrder(c, k, m);
    }
  }

  /** A suffix of a list in first-detection order is in first-detection order. */
  lemma SuffixKeepsOrder(c: seq<real>, d: seq<real>, n: nat)
    requires n >= 1 && InDetectionOrder(c, d)
    ensures InDetectionOrder(c, Indicators.LastN(d, n))
  {
    var r := Indicators.LastN(d, n);
    var off := |d| - |r|;
    forall k, m | 0 <= k < m < |r| ensures SeenBefore(c, r[k], r[m]) {
      assert r[k] == d[off + k] && r[m] == d[off + m];
    }
  }

    /** The reported levels are pairwise distinct, and each is the level of a local extremum. */
  lemma LevelsAreLocalExtrema(data: seq<Kline>, side: Side)
    ensures OnlyExtrema(data, side, Levels(data, side))
    ensures NoDuplicates(Levels(data, side))
  {
    var c := Candidates(data, |data| - Lookback, side);
    var r := Levels(data, side);
    assert r == Indicators.LastN(Distinct(c), KeptLevels);
    SuffixOfDistinct(c, KeptLevels);
    forall k | 0 <= k < |r| ensures IsExtremumLevel(data, side, r[k]) {
      CandidatesAreExtrema(data, |data| - Lookback, side, r[k]);
    }
  }

  /**
   * The reported levels are the last three by first detection: each was
   * pushed by the loop, and they keep the order in which the loop first met
   * them. A level detected again later keeps its first slot.
   */
  lemma LevelsAreMostRecent(data: seq<Kline>, side: Side)
    ensures forall k :: 0 <= k < |Levels(data, side)| ==> Levels(data, side)[k] in Candidates(data, |data| - Lookback, side)
    ensures InDetectionOrder(Candidates(data, |data| - Lookback, side), Levels(data, side))
  {
    var c := Candidates(data, |data| - Lookback, side);
    assert Levels(data, side) == Indicators.LastN(Distinct(c), KeptLevels);
    SuffixOfDistinct(c, KeptLevels);
    SuffixInDetectionOrder(c, KeptLevels);
  }

  /** A value of c cut from the last n distinct values was first met before every kept one. */
  lemma DroppedSeenFirst(c: seq<real>, n: nat, x: real, k: int)
    requires n >= 1 && x in c && x !in Indicators.LastN(Distinct(c), n)
    requires 0 <= k < |Indicators.LastN(Distinct(c), n)|
    ensures SeenBefore(c, x, Indicators.LastN(Distinct(c), n)[k])
  {
    var d := Distinct(c);
    var r := Indicators.LastN(d, n);
    assert x in d;
    var i :| 0 <= i < |d| && d[i] == x;
    var off := |d| - |r|;
    assert r == d[off..];
    assert forall j :: off <= j < |d| ==> d[j] == r[j - off];
    assert r[k] == d[off + k];
    DistinctInDetectionOrder(c, i, off + k);
  }

  /** Every pushed level that is not reported was first detected before every reported one. */
  lemma UnreportedSeenEarlier(data: seq<Kline>, side: Side, x: real, k: int)
    requires x in Candidates(data, |data| - Lookback, side) && x !in Levels(data, side)
    requires 0 <= k < |Levels(data, side)|
    ensures SeenBefore(Candidates(data, |data| - Lookback, side), x, Levels(data, side)[k])
  {
    var c := Candidates(data, |data| - Lookback, side);
    assert Levels(data, side) == Indicators.LastN(Distinct(c), KeptLevels);
    DroppedSeenFirst(c, KeptLevels, x, k);
  }

  /** A value of c survives the cut to the last n distinct values when there are at most n of them. */
  lemma FewDistinctAllKept(c: seq<real>, n: nat, x: real)
    requires n >= 1 && x in c && |Distinct(c)| <= n
    ensures x in Indicators.LastN(Distinct(c), n)
  {
    assert x in Distinct(c);
  }

  /** Once there are at most KeptLevels distinct levels, the level of every local extremum is reported. */
  lemma FewLevelsAllReported(data: seq<Kline>, side: Side, i: int)
    requires Lookback <= i < |data| - Lookback && IsLocalExtreme(data, i, side)
    requires |Distinct(Candidates(data, |data| - Lookback, side))| <= KeptLevels
    ensures Level(data[i], side) in Levels(data, side)
  {
    ExtremaAreCandidates(data, |data| - Lookback, side, i);
    FewDistinctAllKept(Candidates(data, |data| - Lookback, side), KeptLevels, Level(data[i], side));
  }

  /** detectSupportsResistances, with its loop. */
  method DetectSupportsResistances(data: seq<Kline>) returns (supports: seq<real>, resistances: seq<real>)
    ensures supports == Levels(data, Support)
    ensures resistances == Levels(data, Resistance)
  {
    var lows: seq<real> := [];
    var highs: seq<real> := [];
    var i := Lookback;
    while i < |data| - Lookback
      invariant Lookback <= i
      invariant i <= |data| - Lookback || i == Lookback
      invariant lows == Candidates(data, i, Support)
      invariant highs == Candidates(data, i, Resistance)
    {
      var current := data[i];
      var isLocalLow := IsLocalExtreme(data, i, Support);
      var isLocalHigh := IsLocalExtreme(data, i, Resistance);
      if isLocalLow {
        lows := lows + [current.low];
      }
      if isLocalHigh {
        highs := highs + [current.high];
      }
      i := i + 1;
    }
    assert lows == Candidates(data, |data| - Lookback, Support);
    assert highs == Candidates(data, |data| - Lookback, Resistance);
    supports := Indicators.LastN(Distinct(lows), KeptLevels);
    resistances := Indicators.LastN(Distinct(highs), KeptLevels);
  }

  // ---------------------------------------------------------------------------
  // Pattern classification (IndicatorService.ts:112-153)
  // ---------------------------------------------------------------------------

  /** The eight outcomes of detectPattern. */
  datatype Pattern =
    | AwaitingData | DoubleBottom | DoubleTop | Hammer | ShootingStar
    | Uptrend | Downtrend | Consolidation

  /** The label string detectPattern returns for each outcome. */
  function PatternLabel(p: Pattern): string
  {
    match p
    case AwaitingData => "AGUARDANDO DADOS"
    case DoubleBottom => "PADRÃO W - FUNDO DUPLO"
    case DoubleTop => "PADRÃO M - TOPO DUPLO"
    case Hammer => "HAMMER - REJEIÇÃO DE FUNDO"
    case ShootingStar => "SHOOTING STAR - REJEIÇÃO DE TOPO"
    case Uptrend => "TENDÊNCIA DE ALTA"
    case Downtrend => "TENDÊNCIA DE BAIXA"
    case Consolidation => "CONSOLIDAÇÃO"
  }

  /** `Math.min(...s.map(d => d.low))` over a non-empty run of bars. */
  function MinLow(s: seq<Kline>): (m: real)
    requires |s| > 0
    ensures forall i :: 0 <= i < |s| ==> m <= s[i].low
    ensures exists i :: 0 <= i < |s| && m == s[i].low
  {
    if |s| == 1 then s[0].low
    else
      var rest := MinLow(s[..|s| - 1]);
      assert forall i :: 0 <= i < |s| - 1 ==> s[..|s| - 1][i] == s[i];
      Min(rest, s[|s| - 1].low)
  }

  /** `Math.max(...s.map(d => d.high))` over a non-empty run of bars. */
  function MaxHigh(s: seq<Kline>): (m: real)
    requires |s| > 0
    ensures forall i :: 0 <= i < |s| ==> m >= s[i].high
    ensures exists i :: 0 <= i < |s| && m == s[i].high
  {
    if |s| == 1 then s[0].high
    else
      var rest := MaxHigh(s[..|s| - 1]);
      assert forall i :: 0 <= i < |s| - 1 ==> s[..|s| - 1][i] == s[i];
      Max(rest, s[|s| - 1].high)
  }

  /**
   * `Math.abs(a - b) / a < 0.01`. In JavaScript a zero divisor gives
   * +Infinity or NaN, neither of which is below 0.01, hence `a != 0`.
   */
  predicate WithinOnePercent(a: real, b: real)
    ensures a > 0.0 ==> (WithinOnePercent(a, b) <==> 0.99 * a < b < 1.01 * a)
  {
    PercentBound(Abs(a - b), a);
    a != 0.0 && Abs(a - b) / a < 0.01
  }

  /** Over a positive divisor, being under a hundredth of it is the same as a quotient under 0.01. */
  lemma PercentBound(d: real, a: real)
    ensures a > 0.0 ==> (d / a < 0.01 <==> d < 0.01 * a)
  {
    if a > 0.0 {
      assert d == (d / a) * a;
    }
  }

  /** Rule 1, PADRÃO W: two lows within 1% of the first, and a higher high in the second half. */
  predicate IsDoubleBottom(recent: seq<Kline>)
    requires |recent| == PatternBars
  {
    var first, second := recent[..5], recent[5..];
    WithinOnePercent(MinLow(first), MinLow(second)) && MaxHigh(second) > MaxHigh(first)
  }

  /** Rule 2, PADRÃO M: two highs within 1% of the first, and a lower low in the second half. */
  predicate IsDoubleTop(recent: seq<Kline>)
    requires |recent| == PatternBars
  {
    var first, second := recent[..5], recent[5..];
    WithinOnePercent(MaxHigh(first), MaxHigh(second)) && MinLow(second) < MinLow(first)
  }

  function BodySize(c: Kline): real { Abs(c.close - c.open) }

  function UpperWick(c: Kline): real { c.high - Max(c.open, c.close) }

  function LowerWick(c: Kline): real { Min(c.open, c.close) - c.low }

  /** Rule 3: a lower wick over twice the body and an upper wick under half of it. */
  predicate IsHammer(c: Kline)
  {
    LowerWick(c) > BodySize(c) * 2.0 && UpperWick(c) < BodySize(c) * 0.5
  }

  /** Rule 4: the mirror image of the hammer. */
  predicate IsShootingStar(c: Kline)
  {
    UpperWick(c) > BodySize(c) * 2.0 && LowerWick(c) < BodySize(c) * 0.5
  }

  /** Rule 5: `closes.every((c, i, arr) => i === 0 || c >= arr[i - 1])`. */
  predicate NonDecreasing(cs: seq<real>)
  {
    forall i :: 1 <= i < |cs| ==> cs[i] >= cs[i - 1]
  }

  /** Rule 6: `closes.every((c, i, arr) => i === 0 || c <= arr[i - 1])`. */
  predicate NonIncreasing(cs: seq<real>)
  {
    forall i :: 1 <= i < |cs| ==> cs[i] <= cs[i - 1]
  }

  /** The closes of the last five bars. */
  function LastFiveCloses(data: seq<Kline>): seq<real>
    requires |data| >= 5
  {
    Closes(data[|data| - 5..])
  }

  /**
   * detectPattern's if-return chain. Fewer than PatternBars bars give
   * AwaitingData; that outcome is produced in no other case.
   */
  function Classify(data: seq<Kline>): (p: Pattern)
    ensures p == AwaitingData <==> |data| < PatternBars
  {
    if |data| < PatternBars then AwaitingData
    else
      var recent := data[|data| - PatternBars..];
      var last := data[|data| - 1];
      if IsDoubleBottom(recent) then DoubleBottom
      else if IsDoubleTop(recent) then DoubleTop
      else if IsHammer(last) then Hammer
      else if IsShootingStar(last) then ShootingStar
      else if NonDecreasing(LastFiveCloses(data)) then Uptrend
      else if NonIncreasing(LastFiveCloses(data)) then Downtrend
      else Consolidation
  }

  /** The eight labels detectPattern can return. */
  const Labels: set<string> := {
    "AGUARDANDO DADOS", "PADRÃO W - FUNDO DUPLO", "PADRÃO M - TOPO DUPLO",
    "HAMMER - REJEIÇÃO DE FUNDO", "SHOOTING STAR - REJEIÇÃO DE TOPO",
    "TENDÊNCIA DE ALTA", "TENDÊNCIA DE BAIXA", "CONSOLIDAÇÃO"
  }

  /** detectPattern: always one of the eight labels; "AGUARDANDO DADOS" exactly below 10 bars. */
  function DetectPattern(data: seq<Kline>): (name: string)
    ensures name in Labels
    ensures name == "AGUARDANDO DADOS" <==> |data| < PatternBars
  {
    PatternLabel(Classify(data))
  }

  /** The classifier's rules as a table, in the order they are tried. */
  function Rules(data: seq<Kline>): (rules: seq<(bool, Pattern)>)
    requires |data| >= PatternBars
    ensures |rules| == 6
    ensures forall j :: 0 <= j < |rules| ==> rules[j].1 != Consolidation && rules[j].1 != AwaitingData
  {
    var recent := data[|data| - PatternBars..];
    var last := data[|data| - 1];
    [ (IsDoubleBottom(recent), DoubleBottom),
      (IsDoubleTop(recent), DoubleTop),
      (IsHammer(last), Hammer),
      (IsShootingStar(last), ShootingStar),
      (NonDecreasing(LastFiveCloses(data)), Uptrend),
      (NonIncreasing(LastFiveCloses(data)), Downtrend) ]
  }

  /** First match wins: the outcome of the first rule that holds, or `otherwise` when none does. */
  function FirstMatch(rules: seq<(bool, Pattern)>, otherwise: Pattern): Pattern
  {
    if rules == [] then otherwise
    else if rules[0].0 then rules[0].1
    else FirstMatch(rules[1..], otherwise)
  }

  /** When no rule holds, the default is returned. */
  lemma {:induction false} FirstMatchDefault(rules: seq<(bool, Pattern)>, otherwise: Pattern)
    requires forall j :: 0 <= j < |rules| ==> !rules[j].0
    ensures FirstMatch(rules, otherwise) == otherwise
  {
    if rules != [] {
      assert !rules[0].0;
      assert forall j :: 0 <= j < |rules| - 1 ==> rules[1..][j] == rules[j + 1];
      FirstMatchDefault(rules[1..], otherwise);
    }
  }

  /** When rule i holds and no earlier rule does, rule i's outcome is returned. */
  lemma {:induction false} FirstMatchPicks(rules: seq<(bool, Pattern)>, otherwise: Pattern, i: int)
    requires 0 <= i < |rules| && rules[i].0
    requires forall j :: 0 <= j < i ==> !rules[j].0
    ensures FirstMatch(rules, otherwise) == rules[i].1
  {
    if i > 0 {
      assert !rules[0].0;
      assert forall j :: 0 <= j < i - 1 ==> rules[1..][j] == rules[j + 1];
      assert rules[1..][i - 1] == rules[i];
      FirstMatchPicks(rules[1..], otherwise, i - 1);
    }
  }

  /** The if-return chain is the first-match evaluation of the rule table, defaulting to consolidation. */
  lemma ClassifyIsFirstMatch(data: seq<Kline>)
    requires |data| >= PatternBars
    ensures Classify(data) == FirstMatch(Rules(data), Consolidation)
  {
    var rules := Rules(data);
    if rules[0].0 {
      FirstMatchPicks(rules, Consolidation, 0);
    } else if rules[1].0 {
      FirstMatchPicks(rules, Consolidation, 1);
    } else if rules[2].0 {
      FirstMatchPicks(rules, Consolidation, 2);
    } else if rules[3].0 {
      FirstMatchPicks(rules, Consolidation, 3);
    } else if rules[4].0 {
      FirstMatchPicks(rules, Consolidation, 4);
    } else if rules[5].0 {
      FirstMatchPicks(rules, Consolidation, 5);
    } else {
      FirstMatchDefault(rules, Consolidation);
    }
  }

  /** A well-formed doji (open == close, low <= close <= high) is neither a hammer nor a shooting star. */
  lemma DojiIsNoReversal(c: Kline)
    requires c.open == c.close && c.low <= c.close <= c.high
    ensures !IsHammer(c) && !IsShootingStar(c)
  {
  }

  /** Five equal final closes are non-decreasing: unless rules 1-4 fire, the trend is up, never down. */
  lemma FlatClosesAreUptrend(data: seq<Kline>)
    requires |data| >= PatternBars
    requires forall i :: |data| - 5 <= i < |data| ==> data[i].close == data[|data| - 1].close
    ensures Classify(data) in {DoubleBottom, DoubleTop, Hammer, ShootingStar, Uptrend}
  {
    var cs := LastFiveCloses(data);
    assert forall i :: 0 <= i < 5 ==> cs[i] == data[|data| - 5 + i].close;
    assert NonDecreasing(cs);
  }

  /**
   * A last bar with open 1.0, close 1.0005, high 1.0006 and low 0.995 has
   * body 0.0005, upper wick 0.0001 and lower wick 0.005: a hammer, reported
   * unless a double bottom or double top takes priority.
   */
  lemma HammerExample(data: seq<Kline>)
    requires |data| >= PatternBars
    requires var c := data[|data| - 1]; c.open == 1.0 && c.close == 1.0005 && c.high == 1.0006 && c.low == 0.995
    ensures IsHammer(data[|data| - 1])
    ensures Classify(data) in {DoubleBottom, DoubleTop, Hammer}
  {
  }
}
