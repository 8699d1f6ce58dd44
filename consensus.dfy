/**
 * The vote rules and majority consensus of
 * src/components/features/TechnicalIndicators.tsx: one buy / sell / neutral
 * vote per indicator that is present, the three counts, and the bias shown
 * under the consensus panel.
 */
module Consensus {
  import opened Wrappers
  import opened Types

  /** RSI thresholds: oversold below, overbought above. */
  const Oversold: real := 30.0
  const Overbought: real := 70.0

  /** getRSISignal: buy when oversold, sell when overbought; 30 and 70 themselves are neutral. */
  function RsiSignal(value: real): (s: Signal)
    ensures s == Compra <==> value < Oversold
    ensures s == Venda <==> value > Overbought
    ensures s == Neutro <==> Oversold <= value <= Overbought
  {
    if value < Oversold then Compra
    else if value > Overbought then Venda
    else Neutro
  }

  /** getMACDSignal: strict comparisons, so equal values are neutral. */
  function MacdSignal(macdValue: real, signalValue: real): (s: Signal)
    ensures s == Compra <==> macdValue > signalValue
    ensures s == Venda <==> macdValue < signalValue
    ensures s == Neutro <==> macdValue == signalValue
  {
    if macdValue > signalValue then Compra
    else if macdValue < signalValue then Venda
    else Neutro
  }

  /** getBollingerSignal: touching the lower band is tested first and wins over touching the upper band. */
  function BollingerSignal(price: real, upper: real, lower: real): (s: Signal)
    ensures s == Compra <==> price <= lower
    ensures s == Venda <==> lower < price && price >= upper
    ensures s == Neutro <==> lower < price < upper
  {
    if price <= lower then Compra
    else if price >= upper then Venda
    else Neutro
  }

  /** When the bands collapse onto the price (zero variance) the vote is a buy, not a sell. */
  lemma CollapsedBandsVoteBuy(price: real)
    ensures BollingerSignal(price, price, price) == Compra
  {
  }

  /** getSMASignal: price above the average buys, below sells, equal is neutral. */
  function SmaSignal(price: real, sma: real): (s: Signal)
    ensures s == Compra <==> price > sma
    ensures s == Venda <==> price < sma
    ensures s == Neutro <==> price == sma
  {
    if price > sma then Compra
    else if price < sma then Venda
    else Neutro
  }

  /** One card of the indicator grid: its title and its vote. */
  datatype Vote = Vote(name: string, signal: Signal)

  const RsiName: string := "RSI (14)"
  const MacdName: string := "MACD"
  const BollingerName: string := "BOLLINGER"
  const SmaName: string := "SMA 20"

  /** `currentPrice = 0`: an absent price defaults to zero. */
  function PriceOrZero(currentPrice: Option<real>): real
  {
    if currentPrice.Some? then currentPrice.value else 0.0
  }

  /**
   * The `indicators` array after `.filter(Boolean)`. `rsi !== undefined &&
   * rsi !== null` admits 0; `macd &&` and `bollinger &&` admit any object;
   * `sma20 &&` also rejects 0; Bollinger and SMA 20 further need a positive
   * current price.
   */
  function IndicatorVotes(rsi: Option<real>, macd: Option<Macd>, bollinger: Option<Bands>,
                          sma20: Option<real>, currentPrice: Option<real>): (votes: seq<Vote>)
    ensures |votes| <= 4
    ensures |votes| == (if rsi.Some? then 1 else 0) + (if macd.Some? then 1 else 0)
                       + (if bollinger.Some? && PriceOrZero(currentPrice) > 0.0 then 1 else 0)
                       + (if sma20.Some? && sma20.value != 0.0 && PriceOrZero(currentPrice) > 0.0 then 1 else 0)
  {
    var price := PriceOrZero(currentPrice);
    (if rsi.Some? then [Vote(RsiName, RsiSignal(rsi.value))] else [])
    + (if macd.Some? then [Vote(MacdName, MacdSignal(macd.value.macd, macd.value.signal))] else [])
    + (if bollinger.Some? && price > 0.0
       then [Vote(BollingerName, BollingerSignal(price, bollinger.value.upper, bollinger.value.lower))] else [])
    + (if sma20.Some? && sma20.value != 0.0 && price > 0.0
       then [Vote(SmaName, SmaSignal(price, sma20.value))] else [])
  }

  /** The signal of the first card titled `name`, or None when there is no such card. */
  function VoteOf(votes: seq<Vote>, name: string): (r: Option<Signal>)
    ensures r.None? <==> forall i :: 0 <= i < |votes| ==> votes[i].name != name
    ensures r.Some? ==> exists i :: 0 <= i < |votes| && votes[i] == Vote(name, r.value)
                                    && forall k :: 0 <= k < i ==> votes[k].name != name
  {
    if votes == [] then None
    else if votes[0].name == name then Some(votes[0].signal)
    else
      var r := VoteOf(votes[1..], name);
      assert forall i :: 1 <= i < |votes| ==> votes[1..][i - 1] == votes[i];
      r
  }

  /** Looking a title up in two lists of cards finds it in the first list when it is there. */
  lemma {:induction false} VoteOfAppend(a: seq<Vote>, b: seq<Vote>, name: string)
    ensures VoteOf(a + b, name) == if VoteOf(a, name).Some? then VoteOf(a, name) else VoteOf(b, name)
  {
    if a == [] {
      assert a + b == b;
    } else {
      assert (a + b)[1..] == a[1..] + b;
      VoteOfAppend(a[1..], b, name);
    }
  }

  /**
   * Which indicators vote, and with what: RSI whenever it is present
   * (including 0), MACD whenever it is present, Bollinger when present with
   * a positive price, SMA 20 when present, non-zero and with a positive price.
   * An indicator that is left out casts no vote.
   */
  lemma InclusionRules(rsi: Option<real>, macd: Option<Macd>, bollinger: Option<Bands>,
                       sma20: Option<real>, currentPrice: Option<real>)
    ensures VoteOf(IndicatorVotes(rsi, macd, bollinger, sma20, currentPrice), RsiName)
            == (if rsi.Some? then Some(RsiSignal(rsi.value)) else None)
    ensures VoteOf(IndicatorVotes(rsi, macd, bollinger, sma20, currentPrice), MacdName)
            == (if macd.Some? then Some(MacdSignal(macd.value.macd, macd.value.signal)) else None)
    ensures VoteOf(IndicatorVotes(rsi, macd, bollinger, sma20, currentPrice), BollingerName)
            == (if bollinger.Some? && PriceOrZero(currentPrice) > 0.0
                then Some(BollingerSignal(PriceOrZero(currentPrice), bollinger.value.upper, bollinger.value.lower)) else None)
    ensures VoteOf(IndicatorVotes(rsi, macd, bollinger, sma20, currentPrice), SmaName)
            == (if sma20.Some? && sma20.value != 0.0 && PriceOrZero(currentPrice) > 0.0
                then Some(SmaSignal(PriceOrZero(currentPrice), sma20.value)) else None)
  {
    Included(rsi, macd, bollinger, sma20, currentPrice, RsiName);
    Included(rsi, macd, bollinger, sma20, currentPrice, MacdName);
    Included(rsi, macd, bollinger, sma20, currentPrice, BollingerName);
    Included(rsi, macd, bollinger, sma20, currentPrice, SmaName);
  }

  /** The lookup of one title in the vote list is its lookup in the four optional cards, in order. */
  lemma Included(rsi: Option<real>, macd: Option<Macd>, bollinger: Option<Bands>,
                 sma20: Option<real>, currentPrice: Option<real>, name: string)
    ensures VoteOf(IndicatorVotes(rsi, macd, bollinger, sma20, currentPrice), name)
            == if rsi.Some? && name == RsiName then Some(RsiSignal(rsi.value))
               else if macd.Some? && name == MacdName then Some(MacdSignal(macd.value.macd, macd.value.signal))
               else if bollinger.Some? && PriceOrZero(currentPrice) > 0.0 && name == BollingerName
               then Some(BollingerSignal(PriceOrZero(currentPrice), bollinger.value.upper, bollinger.value.lower))
               else if sma20.Some? && sma20.value != 0.0 && PriceOrZero(currentPrice) > 0.0 && name == SmaName
               then Some(SmaSignal(PriceOrZero(currentPrice), sma20.value))
               else None
  {
    var price := PriceOrZero(currentPrice);
    var r := if rsi.Some? then [Vote(RsiName, RsiSignal(rsi.value))] else [];
    var m := if macd.Some? then [Vote(MacdName, MacdSignal(macd.value.macd, macd.value.signal))] else [];
    var b := if bollinger.Some? && price > 0.0
             then [Vote(BollingerName, BollingerSignal(price, bollinger.value.upper, bollinger.value.lower))] else [];
    var a := if sma20.Some? && sma20.value != 0.0 && price > 0.0 then [Vote(SmaName, SmaSignal(price, sma20.value))] else [];
    assert IndicatorVotes(rsi, macd, bollinger, sma20, currentPrice) == r + m + b + a;
    LookupInFour(r, m, b, a, name);
  }

  /** Looking a title up in four consecutive groups of cards. */
  lemma LookupInFour(r: seq<Vote>, m: seq<Vote>, b: seq<Vote>, a: seq<Vote>, name: string)
    ensures VoteOf(r + m + b + a, name)
            == if VoteOf(r, name).Some? then VoteOf(r, name)
               else if VoteOf(m, name).Some? then VoteOf(m, name)
               else if VoteOf(b, name).Some? then VoteOf(b, name)
               else VoteOf(a, name)
  {
    VoteOfAppend(r + m + b, a, name);
    VoteOfAppend(r + m, b, name);
    VoteOfAppend(r, m, name);
  }

  /** So many votes with signal s (`indicators.filter(i => i.signal === s).length`). */
  function Count(votes: seq<Vote>, s: Signal): (n: nat)
    ensures n <= |votes|
  {
    if votes == [] then 0
    else Count(votes[..|votes| - 1], s) + (if votes[|votes| - 1].signal == s then 1 else 0)
  }

  /** Counting distributes over concatenation. */
  lemma {:induction false} CountAppend(a: seq<Vote>, b: seq<Vote>, s: Signal)
    ensures Count(a + b, s) == Count(a, s) + Count(b, s)
  {
    if b != [] {
      assert (a + b)[..|a + b| - 1] == a + b[..|b| - 1];
      CountAppend(a, b[..|b| - 1], s);
    } else {
      assert a + b == a;
    }
  }

  /** buyCount + sellCount + neutralCount is the number of included indicators. */
  lemma {:induction false} CountsPartition(votes: seq<Vote>)
    ensures Count(votes, Compra) + Count(votes, Venda) + Count(votes, Neutro) == |votes|
  {
    if votes != [] {
      CountsPartition(votes[..|votes| - 1]);
    }
  }

  /** Removing the last element of a and a matching element of b keeps two permutations permutations. */
  lemma RemoveMatching(a: seq<Vote>, b: seq<Vote>, k: int)
    requires multiset(a) == multiset(b) && |a| > 0
    requires 0 <= k < |b| && b[k] == a[|a| - 1]
    ensures multiset(a[..|a| - 1]) == multiset(b[..k] + b[k + 1..])
  {
    var init, x := a[..|a| - 1], a[|a| - 1];
    var rest := b[..k] + b[k + 1..];
    assert a == init + [x];
    assert b == b[..k] + [x] + b[k + 1..];
    assert multiset(a) == multiset(init) + multiset{x};
    assert multiset(b) == multiset(b[..k]) + multiset{x} + multiset(b[k + 1..]);
    assert multiset(rest) == multiset(b[..k]) + multiset(b[k + 1..]);
    assert multiset(init) + multiset{x} == multiset(rest) + multiset{x};
    assert multiset(init) == (multiset(init) + multiset{x}) - multiset{x};
    assert multiset(rest) == (multiset(rest) + multiset{x}) - multiset{x};
  }

  /** Taking element k out of b lowers its count by one exactly when that element has signal s. */
  lemma CountRemove(b: seq<Vote>, k: int, s: Signal)
    requires 0 <= k < |b|
    ensures Count(b, s) == Count(b[..k] + b[k + 1..], s) + (if b[k].signal == s then 1 else 0)
  {
    assert b == (b[..k] + [b[k]]) + b[k + 1..];
    CountAppend(b[..k] + [b[k]], b[k + 1..], s);
    CountAppend(b[..k], [b[k]], s);
    CountAppend(b[..k], b[k + 1..], s);
    assert [b[k]][..0] == [];
  }

  /** The counts depend only on the multiset of votes, not on their order. */
  lemma {:induction false} CountIgnoresOrder(a: seq<Vote>, b: seq<Vote>, s: Signal)
    requires multiset(a) == multiset(b)
    ensures Count(a, s) == Count(b, s)
  {
    if a == [] {
      assert |b| == |multiset(b)| == 0;
    } else {
      var x := a[|a| - 1];
      assert x in multiset(b);
      var k :| 0 <= k < |b| && b[k] == x;
      RemoveMatching(a, b, k);
      CountIgnoresOrder(a[..|a| - 1], b[..k] + b[k + 1..], s);
      CountRemove(b, k, s);
    }
  }

  /** The bias shown under the counts. */
  datatype Bias = BuyBias | SellBias | NoBias

  /** 'VIÉS COMPRA', 'VIÉS VENDA' or 'NEUTRO'. */
  function BiasLabel(b: Bias): (text: string)
    ensures b == NoBias <==> text == SignalName(Neutro)
    ensures b == BuyBias <==> text == "VIÉS COMPRA"
    ensures b == SellBias <==> text == "VIÉS VENDA"
  {
    match b
    case BuyBias => "VIÉS COMPRA"
    case SellBias => "VIÉS VENDA"
    case NoBias => "NEUTRO"
  }

  /** More buys than sells is a buy bias, more sells a sell bias; a tie (0-0 included) is neutral whatever the neutral count. */
  function BiasOf(buyCount: nat, sellCount: nat): (b: Bias)
    ensures b == BuyBias <==> buyCount > sellCount
    ensures b == SellBias <==> sellCount > buyCount
    ensures b == NoBias <==> buyCount == sellCount
  {
    if buyCount > sellCount then BuyBias
    else if sellCount > buyCount then SellBias
    else NoBias
  }

  /** The consensus panel: the three counts and the bias. */
  datatype Panel = Panel(buyCount: nat, neutralCount: nat, sellCount: nat, bias: Bias)

  /** The panel computed from the included votes. */
  function Tally(votes: seq<Vote>): (p: Panel)
    ensures p.buyCount + p.neutralCount + p.sellCount == |votes|
    ensures p.bias == BiasOf(p.buyCount, p.sellCount)
  {
    CountsPartition(votes);
    var buy, sell, neutral := Count(votes, Compra), Count(votes, Venda), Count(votes, Neutro);
    Panel(buy, neutral, sell, BiasOf(buy, sell))
  }

  /** Reordering the votes changes nothing on the panel. */
  lemma TallyIgnoresOrder(a: seq<Vote>, b: seq<Vote>)
    requires multiset(a) == multiset(b)
    ensures Tally(a) == Tally(b)
  {
    CountIgnoresOrder(a, b, Compra);
    CountIgnoresOrder(a, b, Venda);
    CountIgnoresOrder(a, b, Neutro);
  }

  /** With no indicator present the counts are all zero and the bias is neutral. */
  lemma NoIndicatorsNoBias(currentPrice: Option<real>)
    ensures Tally(IndicatorVotes(None, None, None, None, currentPrice)) == Panel(0, 0, 0, NoBias)
  {
  }
}
