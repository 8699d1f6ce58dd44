/**
 * The indicator engine of src/services/IndicatorService.ts: RSI, EMA, MACD,
 * SMA and Bollinger bands over a sequence of bars. Prices are reals; an
 * indicator whose look-back window is longer than the history is `None`.
 */
module Indicators {
  import opened Wrappers
  import opened Types

  const RsiPeriod: nat := 14
  const MacdFast: nat := 12
  const MacdSlow: nat := 26
  const MacdSignal: nat := 9
  const BollingerPeriod: nat := 20
  const BollingerWidth: real := 2.0

  // ---------------------------------------------------------------------------
  // Sums and windows
  // ---------------------------------------------------------------------------

  /** `s.reduce((a, b) => a + b, 0)`. */
  function Sum(s: seq<real>): real
  {
    if s == [] then 0.0 else Sum(s[..|s| - 1]) + s[|s| - 1]
  }

  lemma {:induction false} SumNonNegative(s: seq<real>)
    requires forall i :: 0 <= i < |s| ==> s[i] >= 0.0
    ensures Sum(s) >= 0.0
  {
    if s != [] {
      SumNonNegative(s[..|s| - 1]);
    }
  }

  /** A sequence of n copies of c sums to n * c. */
  lemma {:induction false} SumConstant(s: seq<real>, c: real)
    requires forall i :: 0 <= i < |s| ==> s[i] == c
    ensures Sum(s) == |s| as real * c
  {
    if s != [] {
      SumConstant(s[..|s| - 1], c);
    }
  }

  /** Every element at least lo (at most hi) bounds the sum by |s| * lo (|s| * hi). */
  lemma {:induction false} SumBounds(s: seq<real>, lo: real, hi: real)
    requires forall i :: 0 <= i < |s| ==> lo <= s[i] <= hi
    ensures |s| as real * lo <= Sum(s) <= |s| as real * hi
  {
    if s != [] {
      SumBounds(s[..|s| - 1], lo, hi);
    }
  }

  /** `s.slice(-n)` for 1 <= n: the last n elements, or all of s when it is shorter. */
  function LastN<T>(s: seq<T>, n: nat): (r: seq<T>)
    requires n >= 1
    ensures |r| == if n <= |s| then n else |s|
    ensures n < |s| ==> r == s[|s| - n..]
    ensures n >= |s| ==> r == s
  {
    if n < |s| then s[|s| - n..] else s
  }

  // ---------------------------------------------------------------------------
  // RSI (IndicatorService.ts:4-18)
  // ---------------------------------------------------------------------------

  /** Consecutive close-to-close changes: `data.slice(1).map((d, i) => d.close - data[i].close)`. */
  function Deltas(c: seq<real>): (d: seq<real>)
    ensures |d| == if c == [] then 0 else |c| - 1
    ensures forall i :: 0 <= i < |d| ==> d[i] == c[i + 1] - c[i]
  {
    if |c| <= 1 then [] else seq(|c| - 1, i requires 0 <= i < |c| - 1 => c[i + 1] - c[i])
  }

  /** `changes.filter(c => c > 0)`. */
  function Gains(s: seq<real>): (g: seq<real>)
    ensures forall i :: 0 <= i < |g| ==> g[i] > 0.0
    ensures |g| <= |s|
    ensures forall x :: x in g <==> x in s && x > 0.0
  {
    if s == [] then []
    else Gains(s[..|s| - 1]) + (if s[|s| - 1] > 0.0 then [s[|s| - 1]] else [])
  }

  /** `changes.filter(c => c < 0).map(c => Math.abs(c))`. */
  function Losses(s: seq<real>): (l: seq<real>)
    ensures forall i :: 0 <= i < |l| ==> l[i] > 0.0
    ensures |l| <= |s|
    ensures forall x :: x in l <==> -x in s && x > 0.0
  {
    if s == [] then []
    else Losses(s[..|s| - 1]) + (if s[|s| - 1] < 0.0 then [-s[|s| - 1]] else [])
  }

  lemma {:induction false} SumAppend(a: seq<real>, b: seq<real>)
    ensures Sum(a + b) == Sum(a) + Sum(b)
  {
    if b != [] {
      assert (a + b)[..|a + b| - 1] == a + b[..|b| - 1];
      SumAppend(a, b[..|b| - 1]);
    } else {
      assert a + b == a;
    }
  }

  /** Nothing is lost by the two filters: gains minus losses is the net change. */
  lemma {:induction false} GainsMinusLosses(s: seq<real>)
    ensures Sum(Gains(s)) - Sum(Losses(s)) == Sum(s)
  {
    if s != [] {
      var init := s[..|s| - 1];
      var x := s[|s| - 1];
      GainsMinusLosses(init);
      SumAppend(Gains(init), if x > 0.0 then [x] else []);
      SumAppend(Losses(init), if x < 0.0 then [-x] else []);
      assert Sum([x]) == x;
      assert Sum([-x]) == -x;
    }
  }

  /** The losses of a sequence with no negative element are empty. */
  lemma {:induction false} LossesOfNonNegative(s: seq<real>)
    requires forall i :: 0 <= i < |s| ==> s[i] >= 0.0
    ensures Losses(s) == []
  {
    if s != [] {
      LossesOfNonNegative(s[..|s| - 1]);
    }
  }

  /** The changes the RSI looks at: the last `period` close-to-close deltas. */
  function RsiWindow(data: seq<Kline>, period: nat): (w: seq<real>)
    requires period >= 1
    ensures |w| <= period
    ensures |data| >= period + 1 ==> |w| == period
  {
    LastN(Deltas(Closes(data)), period)
  }

  /** `gains.length > 0 ? sum(gains) / period : 0` — divided by the period, not by the count. */
  function AverageOver(s: seq<real>, period: nat): real
    requires period >= 1
  {
    if |s| > 0 then Sum(s) / period as real else 0.0
  }

  /** The emptiness test is redundant: an empty sum is 0, and 0 / period is 0. */
  lemma AverageIsSumOver(s: seq<real>, period: nat)
    requires period >= 1
    ensures AverageOver(s, period) == Sum(s) / period as real
  {
    if s == [] {
      DivUnique(0.0, period as real, 0.0);
    }
  }

  lemma AverageNonNegative(s: seq<real>, period: nat)
    requires period >= 1
    requires forall i :: 0 <= i < |s| ==> s[i] >= 0.0
    ensures AverageOver(s, period) >= 0.0
  {
    SumNonNegative(s);
    DivNonNegative(Sum(s), period as real);
  }

  lemma DivNonNegative(x: real, y: real)
    requires x >= 0.0 && y > 0.0
    ensures x / y >= 0.0
  {
  }

  lemma DivPositive(x: real, y: real)
    requires x > 0.0 && y > 0.0
    ensures x / y > 0.0
  {
  }

  /** RS with the saturation rule: 100 when the average loss is zero. */
  function RelativeStrength(avgGain: real, avgLoss: real): (rs: real)
    ensures avgGain >= 0.0 && avgLoss >= 0.0 ==> rs >= 0.0
  {
    if avgLoss == 0.0 then 100.0 else avgGain / avgLoss
  }

  /** `100 - 100 / (1 + rs)`, which lies in [0, 100) for rs >= 0. */
  function IndexFromStrength(rs: real): (v: real)
    requires rs >= 0.0
    ensures 0.0 <= v < 100.0
  {
    assert 100.0 / (1.0 + rs) * (1.0 + rs) == 100.0;
    100.0 - 100.0 / (1.0 + rs)
  }

  /**
   * calculateRSI: absent exactly when there are fewer than period + 1 bars;
   * otherwise 100 - 100 / (1 + RS), which lies in [0, 100) because RS >= 0.
   */
  function CalculateRsi(data: seq<Kline>, period: nat := RsiPeriod): (r: Option<real>)
    requires period >= 1
    ensures r.None? <==> |data| < period + 1
    ensures r.Some? ==> 0.0 <= r.value < 100.0
  {
    if |data| < period + 1 then None
    else
      var recent := RsiWindow(data, period);
      var avgGain := AverageOver(Gains(recent), period);
      var avgLoss := AverageOver(Losses(recent), period);
      AverageNonNegative(Gains(recent), period);
      AverageNonNegative(Losses(recent), period);
      var rs := RelativeStrength(avgGain, avgLoss);
      assert rs >= 0.0 by {
        if avgLoss != 0.0 { DivNonNegative(avgGain, avgLoss); }
      }
      Some(IndexFromStrength(rs))
  }

  /** The saturated value 100 - 100/101 that RSI takes when no change in the window is a loss. */
  const SaturatedRsi: real := 100.0 - 100.0 / 101.0

  /**
   * Zero-loss saturation: when no change in the window is negative (a flat
   * series included), RS is set to 100 and RSI is 100 - 100/101.
   */
  lemma RsiSaturates(data: seq<Kline>, period: nat)
    requires period >= 1 && |data| >= period + 1
    requires forall i :: 0 <= i < |RsiWindow(data, period)| ==> RsiWindow(data, period)[i] >= 0.0
    ensures CalculateRsi(data, period) == Some(SaturatedRsi)
  {
    LossesOfNonNegative(RsiWindow(data, period));
  }

  /** A flat close series saturates: every change is zero, so RSI = 100 - 100/101. */
  lemma RsiOfFlatSeries(data: seq<Kline>, period: nat)
    requires period >= 1 && |data| >= period + 1
    requires forall i :: 0 <= i < |data| ==> data[i].close == data[0].close
    ensures CalculateRsi(data, period) == Some(SaturatedRsi)
  {
    var w := RsiWindow(data, period);
    var d := Deltas(Closes(data));
    forall i | 0 <= i < |w| ensures w[i] >= 0.0 {
      if period < |d| {
        assert w[i] == d[|d| - period + i];
      }
    }
    RsiSaturates(data, period);
  }

  /** A non-empty sequence of positive reals has a positive sum. */
  lemma {:induction false} SumPositive(s: seq<real>)
    requires |s| > 0 && forall i :: 0 <= i < |s| ==> s[i] > 0.0
    ensures Sum(s) > 0.0
  {
    SumNonNegative(s[..|s| - 1]);
  }

  /** Division is the inverse of multiplication: z * y == x means z == x / y. */
  lemma DivUnique(x: real, y: real, z: real)
    requires y != 0.0 && z * y == x
    ensures z == x / y
  {
  }

  /** The period cancels: (g/p) / (l/p) == g/l, and 100 - 100 / (1 + g/l) == 100 g / (g + l). */
  lemma StrengthAlgebra(g: real, l: real, p: real)
    requires g >= 0.0 && l > 0.0 && p > 0.0
    ensures (g / p) / (l / p) == g / l
    ensures 100.0 - 100.0 / (1.0 + g / l) == 100.0 * g / (g + l)
  {
    var x, y := g / p, l / p;
    assert x * p == g && y * p == l;
    assert y > 0.0;
    var z := x / y;
    assert z * y == x;
    assert z * l == g by {
      calc {
        z * l;
        z * (y * p);
        (z * y) * p;
        x * p;
      }
    }
    DivUnique(g, l, z);
    var q := g / l;
    assert q * l == g;
    var a := 1.0 + q;
    assert a * l == l + g;
    assert a > 0.0;
    var b := 100.0 / a;
    assert b * a == 100.0;
    assert b * (l + g) == 100.0 * l by {
      calc {
        b * (l + g);
        b * (a * l);
        (b * a) * l;
      }
    }
    assert (100.0 - b) * (g + l) == 100.0 * g;
    DivUnique(100.0 * g, g + l, 100.0 - b);
  }

  /** The textbook form of RSI: gains as a percentage of total movement. */
  function GainShare(g: real, l: real): real
    requires g + l != 0.0
  {
    100.0 * g / (g + l)
  }

  /**
   * When the window holds a loss, the period cancels out of RS:
   * RSI = 100 * G / (G + L), with G and L the sums of gains and losses.
   */
  lemma RsiFromSums(data: seq<Kline>, period: nat)
    requires period >= 1 && |data| >= period + 1
    requires Losses(RsiWindow(data, period)) != []
    ensures var g := Sum(Gains(RsiWindow(data, period)));
            var l := Sum(Losses(RsiWindow(data, period)));
            g >= 0.0 && l > 0.0 && CalculateRsi(data, period) == Some(GainShare(g, l))
  {
    var w := RsiWindow(data, period);
    var gs, ls := Gains(w), Losses(w);
    var g, l := Sum(gs), Sum(ls);
    SumNonNegative(gs);
    SumPositive(ls);
    AverageIsSumOver(gs, period);
    RsiOfAverages(g, l, AverageOver(gs, period), AverageOver(ls, period), period as real);
  }

  /** The arithmetic of RsiFromSums, on the sums alone. */
  lemma RsiOfAverages(g: real, l: real, avgGain: real, avgLoss: real, p: real)
    requires g >= 0.0 && l > 0.0 && p > 0.0
    requires avgGain == g / p && avgLoss == l / p
    ensures RelativeStrength(avgGain, avgLoss) >= 0.0
    ensures IndexFromStrength(RelativeStrength(avgGain, avgLoss)) == GainShare(g, l)
  {
    DivPositive(l, p);
    StrengthAlgebra(g, l, p);
    DivNonNegative(g, l);
  }

  // ---------------------------------------------------------------------------
  // EMA (IndicatorService.ts:20-33)
  // ---------------------------------------------------------------------------

  /** The smoothing constant k = 2 / (period + 1). */
  function Smoothing(period: nat): real
  {
    2.0 / (period as real + 1.0)
  }

  /** One smoothing step, `value * k + prev * (1 - k)`. */
  function Blend(value: real, prev: real, k: real): (b: real)
    ensures 0.0 <= k <= 1.0 ==> Min(value, prev) <= b <= Max(value, prev)
  {
    value * k + prev * (1.0 - k)
  }

  /** The seed: `data.slice(0, period).reduce(+) / period`. */
  function EmaSeed(data: seq<real>, period: nat): real
    requires period >= 1
  {
    Sum(data[..if period <= |data| then period else |data|]) / period as real
  }

  /**
   * The EMA series as calculateEMA builds it: the seed, then one value
   * data[i] * k + previous * (1 - k) for every i from period on.
   */
  function Ema(data: seq<real>, period: nat): (r: seq<real>)
    requires period >= 1
    ensures |r| == if period <= |data| then |data| - period + 1 else 1
  {
    if |data| <= period then [EmaSeed(data, period)]
    else
      var prev := Ema(data[..|data| - 1], period);
      prev + [Blend(data[|data| - 1], prev[|prev| - 1], Smoothing(period))]
  }

  /** The first EMA value is the arithmetic mean of the first `period` inputs. */
  lemma {:induction false} EmaHead(data: seq<real>, period: nat)
    requires 1 <= period <= |data|
    ensures Ema(data, period)[0] == Sum(data[..period]) / period as real
  {
    if |data| > period {
      var init := data[..|data| - 1];
      EmaHead(init, period);
      assert init[..period] == data[..period];
    }
  }

  /** Every later EMA value smooths the next input into the previous value. */
  lemma {:induction false} EmaStep(data: seq<real>, period: nat, j: nat)
    requires 1 <= period <= |data|
    requires 1 <= j < |data| - period + 1
    ensures var r := Ema(data, period);
            r[j] == Blend(data[period - 1 + j], r[j - 1], Smoothing(period))
  {
    var init := data[..|data| - 1];
    if j < |data| - period {
      EmaStep(init, period, j);
      assert init[period - 1 + j] == data[period - 1 + j];
    }
  }

  /** A constant input of length >= period gives a constant output. */
  lemma {:induction false} EmaOfConstant(data: seq<real>, period: nat, c: real)
    requires 1 <= period <= |data|
    requires forall i :: 0 <= i < |data| ==> data[i] == c
    ensures forall j :: 0 <= j < |Ema(data, period)| ==> Ema(data, period)[j] == c
  {
    if |data| == period {
      SumConstant(data[..period], c);
    } else {
      var init := data[..|data| - 1];
      EmaOfConstant(init, period, c);
      var prev := Ema(init, period);
      assert prev[|prev| - 1] == c;
      assert data[|data| - 1] == c;
      assert Blend(c, c, Smoothing(period)) == c;
    }
  }

  /** calculateEMA, with its loop. */
  method CalculateEma(data: seq<real>, period: nat) returns (result: seq<real>)
    requires period >= 1
    ensures result == Ema(data, period)
  {
    var k := Smoothing(period);
    var ema := Sum(data[..if period <= |data| then period else |data|]) / period as real;
    result := [ema];
    if period > |data| {
      assert data[..|data|] == data;
    } else {
      assert data[..period][..period] == data[..period];
    }
    var i := period;
    while i < |data|
      invariant period <= i && (i <= |data| || i == period)
      invariant result == Ema(data[..if i <= |data| then i else |data|], period)
      invariant ema == result[|result| - 1]
    {
      var next := data[..i + 1];
      assert next[..i] == data[..i] && next[i] == data[i];
      ema := Blend(data[i], ema, k);
      result := result + [ema];
      i := i + 1;
    }
    assert data[..if i <= |data| then i else |data|] == data;
  }

  // ---------------------------------------------------------------------------
  // MACD (IndicatorService.ts:35-58)
  // ---------------------------------------------------------------------------

  /**
   * `slowEMA[i] || slowEMA[slowEMA.length - 1]`: the slow value at i, or the
   * last slow value when i is past the slow series or the value there is 0
   * (falsy in JavaScript).
   */
  function SlowAt(slow: seq<real>, i: nat): (v: real)
    requires |slow| > 0
    ensures v in slow
  {
    if i < |slow| && slow[i] != 0.0 then slow[i] else slow[|slow| - 1]
  }

  /** `fastEMA.map((fast, i) => fast - (slowEMA[i] || slowEMA[last]))`. */
  function MacdLine(fast: seq<real>, slow: seq<real>): (line: seq<real>)
    requires |slow| > 0
    ensures |line| == |fast|
  {
    seq(|fast|, i requires 0 <= i < |fast| => fast[i] - SlowAt(slow, i))
  }

  /** Element i of the MACD line is fast[i] - slow[i] while the slow series lasts (and is non-zero). */
  lemma MacdLineAligned(fast: seq<real>, slow: seq<real>, i: nat)
    requires 0 <= i < |fast| && i < |slow| && slow[i] != 0.0
    ensures MacdLine(fast, slow)[i] == fast[i] - slow[i]
  {
  }

  /** Past the end of the slow series, the last slow value is reused. */
  lemma MacdLinePadded(fast: seq<real>, slow: seq<real>, i: nat)
    requires |slow| > 0 && |slow| <= i < |fast|
    ensures MacdLine(fast, slow)[i] == fast[i] - slow[|slow| - 1]
  {
  }

  /** The falsy test also falls back when the slow value is exactly 0. */
  lemma MacdLineZeroSlowFallsBack(fast: seq<real>, slow: seq<real>, i: nat)
    requires 0 <= i < |fast| && i < |slow| && slow[i] == 0.0
    ensures MacdLine(fast, slow)[i] == fast[i] - slow[|slow| - 1]
  {
  }

  /**
   * calculateMACD: absent exactly when there are fewer than slow + signal
   * bars; otherwise the last MACD-line value, the last signal-line value and
   * their difference. (`x || 0` is the identity on reals: 0 stays 0.)
   */
  function CalculateMacd(data: seq<Kline>, fastPeriod: nat := MacdFast, slowPeriod: nat := MacdSlow,
                         signalPeriod: nat := MacdSignal): (r: Option<Macd>)
    requires fastPeriod >= 1 && slowPeriod >= 1 && signalPeriod >= 1
    ensures r.None? <==> |data| < slowPeriod + signalPeriod
    ensures r.Some? ==> r.value.histogram == r.value.macd - r.value.signal
  {
    if |data| < slowPeriod + signalPeriod then None
    else
      var closes := Closes(data);
      var fastEma := Ema(closes, fastPeriod);
      var slowEma := Ema(closes, slowPeriod);
      var line := MacdLine(fastEma, slowEma);
      var signalLine := Ema(line, signalPeriod);
      var macd := line[|line| - 1];
      var signal := signalLine[|signalLine| - 1];
      Some(Macd(macd, signal, macd - signal))
  }

  /**
   * With fast <= slow the MACD value is the difference of the LAST fast and
   * the LAST slow EMA, and the signal value is the last EMA of the MACD line.
   */
  lemma MacdFinalPoint(data: seq<Kline>, fastPeriod: nat, slowPeriod: nat, signalPeriod: nat)
    requires 1 <= fastPeriod <= slowPeriod && signalPeriod >= 1
    requires |data| >= slowPeriod + signalPeriod
    ensures var fastEma := Ema(Closes(data), fastPeriod);
            var slowEma := Ema(Closes(data), slowPeriod);
            var line := MacdLine(fastEma, slowEma);
            var signalLine := Ema(line, signalPeriod);
            && |line| == |data| - fastPeriod + 1
            && CalculateMacd(data, fastPeriod, slowPeriod, signalPeriod)
               == Some(Macd(fastEma[|fastEma| - 1] - slowEma[|slowEma| - 1],
                            signalLine[|signalLine| - 1],
                            fastEma[|fastEma| - 1] - slowEma[|slowEma| - 1] - signalLine[|signalLine| - 1]))
  {
  }

  // ---------------------------------------------------------------------------
  // SMA (IndicatorService.ts:60-65)
  // ---------------------------------------------------------------------------

  /** The closes of the last `period` bars. */
  function CloseWindow(data: seq<Kline>, period: nat): (w: seq<real>)
    requires 1 <= period <= |data|
    ensures |w| == period
    ensures forall i :: 0 <= i < period ==> w[i] == data[|data| - period + i].close
  {
    Closes(data[|data| - period..])
  }

  /** calculateSMA: absent exactly when there are fewer than `period` bars. */
  function CalculateSma(data: seq<Kline>, period: nat): (r: Option<real>)
    requires period >= 1
    ensures r.None? <==> |data| < period
  {
    if |data| < period then None else Some(Sum(CloseWindow(data, period)) / period as real)
  }

  /** The SMA is a mean: it lies between any lower and upper bound of the closes it averages. */
  lemma SmaBetweenBounds(data: seq<Kline>, period: nat, lo: real, hi: real)
    requires 1 <= period <= |data|
    requires forall i :: |data| - period <= i < |data| ==> lo <= data[i].close <= hi
    ensures lo <= CalculateSma(data, period).value <= hi
  {
    var w := CloseWindow(data, period);
    var p := period as real;
    SumBounds(w, lo, hi);
    DivMonotone(p * lo, Sum(w), p);
    DivMonotone(Sum(w), p * hi, p);
    MulDivCancel(p, lo);
    MulDivCancel(p, hi);
  }

  /** Dividing by a positive number keeps an order. */
  lemma DivMonotone(a: real, b: real, p: real)
    requires a <= b && p > 0.0
    ensures a / p <= b / p
  {
    assert (b - a) / p >= 0.0;
    assert b / p - a / p == (b - a) / p;
  }

  /** The SMA of equal closes is that close. */
  lemma SmaOfConstant(data: seq<Kline>, period: nat, c: real)
    requires 1 <= period <= |data|
    requires forall i :: |data| - period <= i < |data| ==> data[i].close == c
    ensures CalculateSma(data, period) == Some(c)
  {
    SmaBetweenBounds(data, period, c, c);
  }

  // ---------------------------------------------------------------------------
  // Bollinger bands (IndicatorService.ts:67-85)
  // ---------------------------------------------------------------------------

  /** `Math.pow(x, 2)`, never negative. */
  function Square(x: real): (y: real)
    ensures y >= 0.0
  {
    x * x
  }

  /** The squared deviations `Math.pow(d.close - mean, 2)`. */
  function SquaredDeviations(s: seq<real>, mean: real): (d: seq<real>)
    ensures |d| == |s|
    ensures forall i :: 0 <= i < |s| ==> d[i] == Square(s[i] - mean)
  {
    seq(|s|, i requires 0 <= i < |s| => Square(s[i] - mean))
  }

  /** The population variance of a window: squared deviations summed and divided by the period. */
  function PopulationVariance(s: seq<real>, period: nat): (v: real)
    requires period >= 1
    ensures v >= 0.0
  {
    var mean := Sum(s) / period as real;
    var d := SquaredDeviations(s, mean);
    SumNonNegative(d);
    Sum(d) / period as real
  }

  /**
   * calculateBollingerBands, with Math.sqrt passed in as `sqrt`: absent
   * exactly when there are fewer than `period` bars; otherwise the middle
   * band is the SMA and the bands are symmetric about it.
   */
  function CalculateBollingerBands(data: seq<Kline>, sqrt: real -> real, period: nat := BollingerPeriod,
                                   stdDev: real := BollingerWidth): (r: Option<Bands>)
    requires period >= 1
    ensures r.None? <==> |data| < period
    ensures r.Some? ==> Some(r.value.middle) == CalculateSma(data, period)
    ensures r.Some? ==> r.value.upper - r.value.middle == r.value.middle - r.value.lower
  {
    if |data| < period then None
    else
      var window := CloseWindow(data, period);
      var mean := Sum(window) / period as real;
      var std := sqrt(PopulationVariance(window, period));
      Some(Bands(mean + stdDev * std, mean, mean - stdDev * std))
  }

  /** With a non-negative root and multiplier, lower <= middle <= upper. */
  lemma BollingerOrdered(data: seq<Kline>, period: nat, stdDev: real, sqrt: real -> real)
    requires 1 <= period <= |data| && stdDev >= 0.0
    requires sqrt(PopulationVariance(CloseWindow(data, period), period)) >= 0.0
    ensures var b := CalculateBollingerBands(data, sqrt, period, stdDev).value;
            b.lower <= b.middle <= b.upper
  {
    var std := sqrt(PopulationVariance(CloseWindow(data, period), period));
    assert stdDev * std >= 0.0;
  }

  lemma MulDivCancel(p: real, c: real)
    requires p > 0.0
    ensures p * c / p == c
  {
  }

  /** A window of equal closes has mean c and population variance 0. */
  lemma VarianceOfConstant(w: seq<real>, period: nat, c: real)
    requires period >= 1 && |w| == period
    requires forall i :: 0 <= i < |w| ==> w[i] == c
    ensures Sum(w) / period as real == c
    ensures PopulationVariance(w, period) == 0.0
  {
    MeanOfConstant(w, period, c);
    NoDeviation(w, c);
    VarianceAtMean(w, period, c);
  }

  /** No deviation from the mean means a population variance of 0. */
  lemma VarianceAtMean(w: seq<real>, period: nat, c: real)
    requires period >= 1 && Sum(w) / period as real == c
    requires Sum(SquaredDeviations(w, c)) == 0.0
    ensures PopulationVariance(w, period) == 0.0
  {
    DivUnique(0.0, period as real, 0.0);
  }

  lemma NoDeviation(w: seq<real>, c: real)
    requires forall i :: 0 <= i < |w| ==> w[i] == c
    ensures Sum(SquaredDeviations(w, c)) == 0.0
  {
    var d := SquaredDeviations(w, c);
    forall i | 0 <= i < |d| ensures d[i] == 0.0 {
      assert w[i] - c == 0.0;
    }
    SumConstant(d, 0.0);
  }

  lemma MeanOfConstant(w: seq<real>, period: nat, c: real)
    requires period >= 1 && |w| == period
    requires forall i :: 0 <= i < |w| ==> w[i] == c
    ensures Sum(w) / period as real == c
  {
    SumConstant(w, c);
    MulDivCancel(period as real, c);
  }

  /** Equal closes have zero variance, so all three bands collapse onto the close. */
  lemma BollingerOfConstant(data: seq<Kline>, period: nat, stdDev: real, sqrt: real -> real, c: real)
    requires 1 <= period <= |data|
    requires forall i :: |data| - period <= i < |data| ==> data[i].close == c
    requires sqrt(0.0) == 0.0
    ensures CalculateBollingerBands(data, sqrt, period, stdDev) == Some(Bands(c, c, c))
  {
    VarianceOfConstant(CloseWindow(data, period), period, c);
  }
}
