/**
 * The simulated market feed of src/services/MockDataService.ts: an initial
 * run of one-minute candles from a random walk, then one new candle at a
 * time appended to a buffer that evicts its oldest bar beyond 100 entries.
 * Every `Math.random()` draw and the clock are parameters.
 */
module MockData {
  import opened Wrappers
  import opened Types

  const BasePrice: real := 1.0850
  const Volatility: real := 0.0015
  /** Buffer size past which generateNextCandle evicts the oldest bar. */
  const MaxCandles: nat := 100
  /** Seconds between consecutive candles. */
  const CandleSeconds: int := 60
  /** generateInitialData's default count. */
  const DefaultCount: int := 50

  // ---------------------------------------------------------------------------
  // Number(x.toFixed(5))
  // ---------------------------------------------------------------------------

  /** Scale of the fifth decimal. */
  const Scale: real := 100000.0

  /**
   * `Number(x.toFixed(5))` on reals: the nearest multiple of 0.00001, ties
   * going to the larger magnitude (toFixed rounds |x| and restores the sign).
   */
  function Round5(x: real): (r: real)
    ensures x >= 0.0 ==> r >= 0.0
    ensures x <= 0.0 ==> r <= 0.0
    ensures (r * Scale).Floor as real == r * Scale
  {
    if x >= 0.0 then
      var n := (x * Scale + 0.5).Floor;
      ScaledInteger(n);
      n as real / Scale
    else
      var m := (-x * Scale + 0.5).Floor;
      ScaledInteger(-m);
      -(m as real / Scale)
  }

  /** n hundred-thousandths, scaled back up, are the integer n. */
  lemma ScaledInteger(n: int)
    ensures (n as real / Scale) * Scale == n as real
    ensures -(n as real / Scale) == (-n) as real / Scale
  {
  }

  lemma FloorMonotone(a: real, b: real)
    requires a <= b
    ensures a.Floor <= b.Floor
  {
  }

  /** Rounding never reverses an order. */
  lemma Round5Monotone(x: real, y: real)
    requires x <= y
    ensures Round5(x) <= Round5(y)
  {
    if 0.0 <= x {
      FloorMonotone(x * Scale + 0.5, y * Scale + 0.5);
    } else if y < 0.0 {
      FloorMonotone(-y * Scale + 0.5, -x * Scale + 0.5);
    } else {
      assert Round5(x) <= 0.0;
      FloorMonotone(0.5, y * Scale + 0.5);
    }
  }

  /** Rounding an already rounded price changes nothing. */
  lemma Round5Idempotent(x: real)
    ensures Round5(Round5(x)) == Round5(x)
  {
    if x >= 0.0 {
      var n := (x * Scale + 0.5).Floor;
      assert n >= 0;
      assert (n as real / Scale) * Scale == n as real;
      assert (n as real + 0.5).Floor == n;
    } else {
      var m := (-x * Scale + 0.5).Floor;
      assert m >= 0;
      assert (m as real / Scale) * Scale == m as real;
      assert (m as real + 0.5).Floor == m;
      if m == 0 {
        assert Round5(x) == 0.0;
      }
    }
  }

  /** The rounded price is within half a unit of the fifth decimal. */
  lemma Round5Error(x: real)
    ensures -0.000005 <= Round5(x) - x <= 0.000005
  {
    if x >= 0.0 {
      var v := x * Scale + 0.5;
      assert v - 1.0 < v.Floor as real <= v;
    } else {
      var v := -x * Scale + 0.5;
      assert v - 1.0 < v.Floor as real <= v;
    }
  }

  // ---------------------------------------------------------------------------
  // One candle
  // ---------------------------------------------------------------------------

  /** A `Math.random()` result. */
  predicate IsDraw(r: real) { 0.0 <= r < 1.0 }

  /** generateInitialData's draws for one candle, in call order. */
  datatype InitialDraws = InitialDraws(change: real, highJitter: real, lowJitter: real, volume: real)

  /** generateNextCandle's draws, in call order. */
  datatype NextDraws = NextDraws(trend: real, change: real, highJitter: real, lowJitter: real, volume: real)

  predicate ValidInitialDraws(d: InitialDraws)
  {
    IsDraw(d.change) && IsDraw(d.highJitter) && IsDraw(d.lowJitter) && IsDraw(d.volume)
  }

  predicate ValidNextDraws(d: NextDraws)
  {
    IsDraw(d.trend) && IsDraw(d.change) && IsDraw(d.highJitter) && IsDraw(d.lowJitter) && IsDraw(d.volume)
  }

  /** `Math.floor(Math.random() * 1000) + 100`: an integer in [100, 1099]. */
  function VolumeOf(r: real): (v: int)
    ensures IsDraw(r) ==> 100 <= v <= 1099
  {
    (r * 1000.0).Floor + 100
  }

  /** A candle's prices before rounding. */
  datatype RawCandle = RawCandle(open: real, high: real, low: real, close: real)

  /**
   * The candle opened at `open` that moves by `change`: its high lies
   * `highJitter * volatility * 0.5` above the body, its low `lowJitter *
   * volatility * 0.5` below it.
   */
  function Shape(open: real, change: real, highJitter: real, lowJitter: real): (c: RawCandle)
    ensures c.open == open && c.close == open + change
    ensures highJitter >= 0.0 ==> c.high >= Max(c.open, c.close)
    ensures lowJitter >= 0.0 ==> c.low <= Min(c.open, c.close)
  {
    var close := open + change;
    RawCandle(open, Max(open, close) + highJitter * Volatility * 0.5, Min(open, close) - lowJitter * Volatility * 0.5, close)
  }

  /** The stored bar: every price rounded to five decimals, plus the volume. */
  function Stamp(time: int, raw: RawCandle, volumeDraw: real): Kline
  {
    Kline(time, Round5(raw.open), Round5(raw.high), Round5(raw.low), Round5(raw.close), Some(VolumeOf(volumeDraw)))
  }

  /** The high is at or above the body and the low at or below it. */
  predicate WellFormed(c: Kline)
  {
    c.low <= Min(c.open, c.close) && Max(c.open, c.close) <= c.high
  }

  /** All four prices are already rounded to five decimals. */
  predicate Rounded(c: Kline)
  {
    Round5(c.open) == c.open && Round5(c.high) == c.high && Round5(c.low) == c.low && Round5(c.close) == c.close
  }

  /** A generated bar: well-formed, rounded, with a volume in [100, 1099]. */
  predicate GeneratedBar(c: Kline)
  {
    WellFormed(c) && Rounded(c) && c.volume.Some? && 100 <= c.volume.value <= 1099
  }

  /** With jitters drawn from [0, 1) the bar survives rounding well-formed. */
  lemma StampIsGenerated(time: int, raw: RawCandle, volumeDraw: real)
    requires raw.low <= Min(raw.open, raw.close) && Max(raw.open, raw.close) <= raw.high
    requires IsDraw(volumeDraw)
    ensures GeneratedBar(Stamp(time, raw, volumeDraw))
  {
    Round5Monotone(raw.low, raw.open);
    Round5Monotone(raw.low, raw.close);
    Round5Monotone(raw.open, raw.high);
    Round5Monotone(raw.close, raw.high);
    Round5Idempotent(raw.open);
    Round5Idempotent(raw.high);
    Round5Idempotent(raw.low);
    Round5Idempotent(raw.close);
  }

  // ---------------------------------------------------------------------------
  // generateInitialData (MockDataService.ts:9-36)
  // ---------------------------------------------------------------------------

  /** The initial candle drawn at `price`: `change = (Math.random() - 0.5) * volatility`. */
  function InitialRaw(price: real, d: InitialDraws): RawCandle
  {
    Shape(price, (d.change - 0.5) * Volatility, d.highJitter, d.lowJitter)
  }

  /** The candles of the random walk from `price`, the first stamped `time`, one per draw. */
  function InitialCandles(price: real, time: int, draws: seq<InitialDraws>): (cs: seq<Kline>)
    ensures |cs| == |draws|
    decreases draws
  {
    if draws == [] then []
    else
      var raw := InitialRaw(price, draws[0]);
      [Stamp(time, raw, draws[0].volume)] + InitialCandles(raw.close, time + CandleSeconds, draws[1..])
  }

  /** How many candles `for (let i = count; i > 0; i--)` produces. */
  function CandleCount(count: int): nat
  {
    if count > 0 then count else 0
  }

  /** Unfolding the walk at draw k: the candle drawn at `price`, then the walk from its close. */
  lemma InitialCandlesFrom(price: real, time: int, draws: seq<InitialDraws>, k: nat)
    requires k < |draws|
    ensures InitialCandles(price, time, draws[k..])
            == [Stamp(time, InitialRaw(price, draws[k]), draws[k].volume)]
               + InitialCandles(InitialRaw(price, draws[k]).close, time + CandleSeconds, draws[k + 1..])
  {
    var rest := draws[k..];
    assert rest[0] == draws[k];
    assert rest[1..] == draws[k + 1..];
  }

  /** Candle j is stamped j minutes after the first. */
  lemma {:induction false} InitialCandlesTimes(price: real, time: int, draws: seq<InitialDraws>)
    decreases draws
    ensures forall j :: 0 <= j < |draws| ==> InitialCandles(price, time, draws)[j].time == time + CandleSeconds * j
  {
    if draws != [] {
      var raw := InitialRaw(price, draws[0]);
      InitialCandlesTimes(raw.close, time + CandleSeconds, draws[1..]);
    }
  }

  /** Each candle opens at the previous candle's close, because the unrounded close is carried on as `price`. */
  lemma {:induction false} InitialCandlesChained(price: real, time: int, draws: seq<InitialDraws>)
    decreases draws
    ensures forall j :: 0 <= j < |draws| - 1 ==>
              InitialCandles(price, time, draws)[j + 1].open == InitialCandles(price, time, draws)[j].close
  {
    if |draws| > 1 {
      var raw := InitialRaw(price, draws[0]);
      var rest := InitialCandles(raw.close, time + CandleSeconds, draws[1..]);
      InitialCandlesChained(raw.close, time + CandleSeconds, draws[1..]);
      var cs := InitialCandles(price, time, draws);
      assert cs == [Stamp(time, raw, draws[0].volume)] + rest;
      assert rest[0].open == Round5(raw.close);
      forall j | 0 <= j < |cs| - 1 ensures cs[j + 1].open == cs[j].close {
        if j > 0 {
          assert cs[j + 1] == rest[j] && cs[j] == rest[j - 1];
        }
      }
    }
  }

  /** With draws from [0, 1) every initial candle is a well-formed, rounded bar with a volume in range. */
  lemma {:induction false} InitialCandlesGenerated(price: real, time: int, draws: seq<InitialDraws>)
    decreases draws
    requires forall j :: 0 <= j < |draws| ==> ValidInitialDraws(draws[j])
    ensures forall j :: 0 <= j < |draws| ==> GeneratedBar(InitialCandles(price, time, draws)[j])
  {
    if draws != [] {
      var raw := InitialRaw(price, draws[0]);
      StampIsGenerated(time, raw, draws[0].volume);
      InitialCandlesGenerated(raw.close, time + CandleSeconds, draws[1..]);
    }
  }

  // ---------------------------------------------------------------------------
  // The buffer
  // ---------------------------------------------------------------------------

  /** Consecutive bars are one minute apart and each opens at its predecessor's close. */
  predicate Chained(cs: seq<Kline>)
  {
    forall j :: 0 <= j < |cs| - 1 ==> cs[j + 1].time == cs[j].time + CandleSeconds && cs[j + 1].open == cs[j].close
  }

  /** What the feed keeps true of its buffer. */
  predicate FeedInvariant(cs: seq<Kline>)
  {
    Chained(cs) && forall j :: 0 <= j < |cs| ==> GeneratedBar(cs[j])
  }

  /** The freshly generated initial data satisfies the feed invariant and ends one minute before now. */
  lemma InitialDataIsFeed(now: int, count: int, draws: seq<InitialDraws>)
    requires |draws| == CandleCount(count)
    requires forall j :: 0 <= j < |draws| ==> ValidInitialDraws(draws[j])
    ensures var cs := InitialCandles(BasePrice, now - CandleCount(count) * CandleSeconds, draws);
            && FeedInvariant(cs)
            && (cs != [] ==> cs[0].time == now - count * CandleSeconds && cs[|cs| - 1].time == now - CandleSeconds)
  {
    var start := now - CandleCount(count) * CandleSeconds;
    InitialCandlesTimes(BasePrice, start, draws);
    InitialCandlesChained(BasePrice, start, draws);
    InitialCandlesGenerated(BasePrice, start, draws);
  }

  /** `trend * Math.random()` with `trend = Math.random() > 0.5 ? 1 : -1`. */
  function SignedStep(trend: real, r: real): real
  {
    if trend > 0.5 then r else -r
  }

  /** generateNextCandle's bar: one minute after `last`, opening at its close. */
  function NextCandle(last: Kline, d: NextDraws): (c: Kline)
    ensures c.time == last.time + CandleSeconds
    ensures c.open == Round5(last.close)
  {
    var raw := Shape(last.close, SignedStep(d.trend, d.change) * Volatility, d.highJitter, d.lowJitter);
    Stamp(last.time + CandleSeconds, raw, d.volume)
  }

  /** On a rounded last bar the next bar opens exactly at its close, one minute later. */
  lemma NextCandleContinues(last: Kline, d: NextDraws)
    requires Rounded(last)
    ensures NextCandle(last, d).time == last.time + CandleSeconds
    ensures NextCandle(last, d).open == last.close
  {
  }

  /** `push` then `shift` once when the length exceeds MaxCandles. */
  function Evict(cs: seq<Kline>): (r: seq<Kline>)
    ensures |r| == if |cs| > MaxCandles then |cs| - 1 else |cs|
    ensures r == cs[|cs| - |r|..]
  {
    if |cs| > MaxCandles then cs[1..] else cs
  }

  /**
   * Appending and evicting: the new bar is last; the length grows by one up to
   * MaxCandles; a full buffer loses exactly its oldest bar and keeps the rest
   * in order.
   */
  lemma AppendEvict(cs: seq<Kline>, c: Kline)
    ensures var r := Evict(cs + [c]);
            && r[|r| - 1] == c
            && |r| == (if |cs| + 1 > MaxCandles then |cs| else |cs| + 1)
            && (|cs| <= MaxCandles ==> |r| <= MaxCandles)
            && (|cs| == MaxCandles ==> r == cs[1..] + [c])
            && (|cs| < MaxCandles ==> r == cs + [c])
  {
    if |cs| == MaxCandles {
      assert (cs + [c])[1..] == cs[1..] + [c];
    }
  }

  /** Appending a generated bar that continues the last one keeps the feed invariant. */
  lemma FeedAppend(cs: seq<Kline>, c: Kline)
    requires cs != [] && FeedInvariant(cs) && GeneratedBar(c)
    requires c.time == cs[|cs| - 1].time + CandleSeconds && c.open == cs[|cs| - 1].close
    ensures FeedInvariant(cs + [c])
  {
    var grown := cs + [c];
    forall j | 0 <= j < |grown| ensures GeneratedBar(grown[j]) {
      if j < |cs| {
        assert grown[j] == cs[j];
      }
    }
    forall j | 0 <= j < |grown| - 1
      ensures grown[j + 1].time == grown[j].time + CandleSeconds && grown[j + 1].open == grown[j].close
    {
      if j + 1 < |cs| {
        assert grown[j] == cs[j];
        assert grown[j + 1] == cs[j + 1];
      }
    }
  }

  /** Dropping the oldest bar keeps the feed invariant. */
  lemma FeedTail(cs: seq<Kline>)
    requires cs != [] && FeedInvariant(cs)
    ensures FeedInvariant(cs[1..])
  {
    var r := cs[1..];
    forall j | 0 <= j < |r| ensures GeneratedBar(r[j]) {
      assert r[j] == cs[j + 1];
    }
    forall j | 0 <= j < |r| - 1
      ensures r[j + 1].time == r[j].time + CandleSeconds && r[j + 1].open == r[j].close
    {
      assert r[j] == cs[j + 1];
      assert r[j + 1] == cs[j + 2];
    }
  }

  /** generateNextCandle keeps the feed invariant. */
  lemma NextCandleKeepsFeed(cs: seq<Kline>, d: NextDraws)
    requires cs != [] && FeedInvariant(cs) && ValidNextDraws(d)
    ensures FeedInvariant(Evict(cs + [NextCandle(cs[|cs| - 1], d)]))
  {
    var last := cs[|cs| - 1];
    var raw := Shape(last.close, SignedStep(d.trend, d.change) * Volatility, d.highJitter, d.lowJitter);
    StampIsGenerated(last.time + CandleSeconds, raw, d.volume);
    NextCandleContinues(last, d);
    FeedAppend(cs, NextCandle(last, d));
    if |cs| + 1 > MaxCandles {
      FeedTail(cs + [NextCandle(last, d)]);
    }
  }

  /** The feed of MockDataService: the bar buffer exposed by getData. */
  class MarketFeed {
    var data: seq<Kline>

    constructor()
      ensures data == []
    {
      data := [];
    }

    /**
     * generateInitialData: `count` candles stamped `now - count*60, …, now - 60`
     * with `now = Math.floor(nowMillis / 1000)`; they replace the buffer.
     */
    method GenerateInitialData(nowMillis: int, draws: seq<InitialDraws>, count: int := DefaultCount)
      returns (result: seq<Kline>)
      requires |draws| == CandleCount(count)
      modifies this
      ensures result == InitialCandles(BasePrice, nowMillis / 1000 - CandleCount(count) * CandleSeconds, draws)
      ensures data == result
    {
      var now := nowMillis / 1000;
      var n := CandleCount(count);
      ghost var start := now - n * CandleSeconds;
      var acc: seq<Kline> := [];
      var price := BasePrice;
      var i := count;
      ghost var k := 0;
      ghost var t := start;
      while i > 0
        invariant 0 <= k <= n
        invariant count > 0 ==> i == n - k && t == now - i * CandleSeconds
        invariant count <= 0 ==> i == count
        invariant acc + InitialCandles(price, t, draws[k..]) == InitialCandles(BasePrice, start, draws)
      {
        var time := now - i * CandleSeconds;
        var d := draws[n - i];
        var change := (d.change - 0.5) * Volatility;
        var open := price;
        var close := price + change;
        var high := Max(open, close) + d.highJitter * Volatility * 0.5;
        var low := Min(open, close) - d.lowJitter * Volatility * 0.5;
        var candle := Kline(time, Round5(open), Round5(high), Round5(low), Round5(close), Some(VolumeOf(d.volume)));
        assert time == t && d == draws[k];
        assert candle == Stamp(time, InitialRaw(price, d), d.volume);
        assert close == InitialRaw(price, d).close;
        InitialCandlesFrom(price, time, draws, k);
        assert (acc + [candle]) + InitialCandles(close, time + CandleSeconds, draws[k + 1..])
               == acc + ([candle] + InitialCandles(close, time + CandleSeconds, draws[k + 1..]));
        acc := acc + [candle];
        price := close;
        i := i - 1;
        k := k + 1;
        t := t + CandleSeconds;
      }
      assert draws[k..] == [];
      data := acc;
      result := acc;
    }

    /** generateNextCandle: appends the next bar and evicts the oldest bar beyond MaxCandles. */
    method GenerateNextCandle(d: NextDraws) returns (candle: Kline)
      requires data != []
      modifies this
      ensures candle == NextCandle(old(data)[|old(data)| - 1], d)
      ensures data == Evict(old(data) + [candle])
    {
      var lastCandle := data[|data| - 1];
      var time := lastCandle.time + CandleSeconds;
      var trend := if d.trend > 0.5 then 1.0 else -1.0;
      var change := trend * d.change * Volatility;
      assert trend * d.change == SignedStep(d.trend, d.change);
      var open := lastCandle.close;
      var close := open + change;
      var high := Max(open, close) + d.highJitter * Volatility * 0.5;
      var low := Min(open, close) - d.lowJitter * Volatility * 0.5;
      candle := Kline(time, Round5(open), Round5(high), Round5(low), Round5(close), Some(VolumeOf(d.volume)));
      data := data + [candle];
      if |data| > MaxCandles {
        data := data[1..];
      }
    }

    /** getData: a copy of the buffer. */
    method GetData() returns (copy: seq<Kline>)
      ensures copy == data
    {
      copy := data;
    }
  }
}
