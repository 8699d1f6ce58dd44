/** The shared record types of src/types/index.ts, and the three-way signal used across the app. */
module Types {
  import opened Wrappers

  /** One OHLC price bar (KlineData): `time` in unix seconds, an optional volume. */
  datatype Kline = Kline(time: int, open: real, high: real, low: real, close: real, volume: Option<int>)

  /** The final point of the MACD, signal and histogram series. */
  datatype Macd = Macd(macd: real, signal: real, histogram: real)

  /** The three Bollinger bands. */
  datatype Bands = Bands(upper: real, middle: real, lower: real)

  /** 'COMPRA' (buy), 'VENDA' (sell) or 'NEUTRO' (neutral). */
  datatype Signal = Compra | Venda | Neutro

  /** The wire spelling of a signal. */
  function SignalName(s: Signal): string
  {
    match s
    case Compra => "COMPRA"
    case Venda => "VENDA"
    case Neutro => "NEUTRO"
  }

  /** The closing prices of a sequence of bars, in order (`data.map(d => d.close)`). */
  function Closes(data: seq<Kline>): (c: seq<real>)
    ensures |c| == |data|
    ensures forall i :: 0 <= i < |data| ==> c[i] == data[i].close
  {
    seq(|data|, i requires 0 <= i < |data| => data[i].close)
  }

  function Min(a: real, b: real): real { if a <= b then a else b }

  function Max(a: real, b: real): real { if a >= b then a else b }

  function Abs(x: real): real { if x < 0.0 then -x else x }
}
