/**
 * The analyze-chart edge function of supabase/functions/analyze-chart/index.ts:
 * the request guard, and the normalisation of the AI's reply (JSON block
 * extraction, signal and confidence coercion, candle timestamping). The HTTP
 * exchange with the AI gateway is outside the model: its reply text, the
 * JSON parser and the clock are parameters.
 */
module AnalyzeChart {
  import opened Wrappers
  import opened Types

  /** The JavaScript values the function handles. */
  datatype JsValue =
    | Undefined
    | Null
    | Bool(b: bool)
    | Num(n: real)
    | Str(s: string)
    | Arr(items: seq<JsValue>)
    | Obj(fields: map<string, JsValue>)

  /** JavaScript truthiness (NaN is not modelled). */
  predicate Truthy(v: JsValue)
  {
    match v
    case Undefined => false
    case Null => false
    case Bool(b) => b
    case Num(n) => n != 0.0
    case Str(s) => s != ""
    case Arr(_) => true
    case Obj(_) => true
  }

  /** An own property of an object, Undefined when absent. */
  function Get(fields: map<string, JsValue>, key: string): JsValue
  {
    if key in fields then fields[key] else Undefined
  }

  /**
   * `v.key`: a TypeError (None) on null and undefined, the own property on an
   * object, and undefined on any other value (none of the keys read here is
   * inherited).
   */
  function Property(v: JsValue, key: string): (r: Option<JsValue>)
    ensures r.None? <==> v.Undefined? || v.Null?
  {
    match v
    case Undefined => None
    case Null => None
    case Obj(fields) => Some(Get(fields, key))
    case _ => Some(Undefined)
  }

  /** `x || 0`. */
  function OrZero(v: JsValue): JsValue
  {
    if Truthy(v) then v else Num(0.0)
  }

  const NoImageMessage: string := "No image data provided"
  const NoApiKeyMessage: string := "LOVABLE_API_KEY is not configured"
  const BadFormatMessage: string := "Invalid response format from AI"
  /** Stands for the runtime's message when a property of null or undefined is read. */
  const TypeErrorMessage: string := "TypeError"
  /** Stands for JSON.parse's message on malformed input. */
  const SyntaxErrorMessage: string := "SyntaxError"

  // ---------------------------------------------------------------------------
  // Request guard (index.ts:14-23)
  // ---------------------------------------------------------------------------

  /**
   * `const { imageBase64 } = await req.json()`, then the two guards: a falsy
   * image, and a missing or empty API key, are errors. Yields the image.
   */
  function CheckRequest(body: JsValue, apiKey: Option<string>): (r: Result<JsValue, string>)
    ensures r.Success? <==>
            !body.Undefined? && !body.Null? && Truthy(Property(body, "imageBase64").value)
            && apiKey.Some? && apiKey.value != ""
    ensures r.Success? ==> r.value == Property(body, "imageBase64").value
    ensures (body.Undefined? || body.Null?) ==> r == Failure(TypeErrorMessage)
    ensures !body.Undefined? && !body.Null? && !Truthy(Property(body, "imageBase64").value) ==> r == Failure(NoImageMessage)
    ensures (!body.Undefined? && !body.Null? && Truthy(Property(body, "imageBase64").value)
             && (apiKey.None? || apiKey.value == "")) ==> r == Failure(NoApiKeyMessage)
  {
    var image := Property(body, "imageBase64");
    if image.None? then Failure(TypeErrorMessage)
    else if !Truthy(image.value) then Failure(NoImageMessage)
    else if apiKey.None? || apiKey.value == "" then Failure(NoApiKeyMessage)
    else Success(image.value)
  }

  // ---------------------------------------------------------------------------
  // JSON block (index.ts:121-124)
  // ---------------------------------------------------------------------------

  /** The first position of c in text. */
  function IndexOf(text: string, c: char): (r: Option<nat>)
    ensures r.None? <==> c !in text
    ensures r.Some? ==> r.value < |text| && text[r.value] == c && forall k :: 0 <= k < r.value ==> text[k] != c
  {
    if text == [] then None
    else if text[0] == c then Some(0)
    else
      var rest := IndexOf(text[1..], c);
      assert forall k :: 1 <= k < |text| ==> text[1..][k - 1] == text[k];
      assert c in text[1..] <==> c in text;
      if rest.None? then None else Some(rest.value + 1)
  }

  /** The last position of c in text. */
  function LastIndexOf(text: string, c: char): (r: Option<nat>)
    ensures r.None? <==> c !in text
    ensures r.Some? ==> r.value < |text| && text[r.value] == c && forall k :: r.value < k < |text| ==> text[k] != c
  {
    if text == [] then None
    else if text[|text| - 1] == c then Some(|text| - 1)
    else
      var init := text[..|text| - 1];
      assert text == init + [text[|text| - 1]];
      LastIndexOf(init, c)
  }

  /**
   * `text.match(/\{[\s\S]*\}/)[0]`: the greedy match runs from the first '{'
   * to the last '}', and there is none when no '}' follows a '{'.
   */
  function ExtractJsonBlock(text: string): (r: Option<string>)
    ensures r.None? <==> !exists i, j :: 0 <= i < j < |text| && text[i] == '{' && text[j] == '}'
    ensures r.Some? ==>
              exists i, j :: 0 <= i < j < |text| && r.value == text[i..j + 1]
                && text[i] == '{' && (forall k :: 0 <= k < i ==> text[k] != '{')
                && text[j] == '}' && (forall k :: j < k < |text| ==> text[k] != '}')
  {
    var open, close := IndexOf(text, '{'), LastIndexOf(text, '}');
    if open.Some? && close.Some? && open.value < close.value then Some(text[open.value..close.value + 1])
    else None
  }

  // ---------------------------------------------------------------------------
  // Normalisation of the parsed reply (index.ts:128-149)
  // ---------------------------------------------------------------------------

  const ValidSignals: set<string> := {SignalName(Compra), SignalName(Venda), SignalName(Neutro)}

  /** `['COMPRA', 'VENDA', 'NEUTRO'].includes(v)`. */
  predicate IsValidSignal(v: JsValue)
  {
    v.Str? && v.s in ValidSignals
  }

  /** A valid signal is kept as it is; anything else becomes 'NEUTRO'. */
  function NormalizeSignal(v: JsValue): (r: JsValue)
    ensures IsValidSignal(r)
    ensures IsValidSignal(v) <==> r == v
    ensures !IsValidSignal(v) ==> r == Str(SignalName(Neutro))
    ensures exists s: Signal :: r == Str(SignalName(s))
  {
    if IsValidSignal(v) then v else Str(SignalName(Neutro))
  }

  /** A number in [0, 100]. */
  predicate IsValidConfidence(v: JsValue)
  {
    v.Num? && 0.0 <= v.n <= 100.0
  }

  /** A number in [0, 100] is kept as it is; a non-number or an out-of-range number becomes 50. */
  function NormalizeConfidence(v: JsValue): (r: JsValue)
    ensures IsValidConfidence(r)
    ensures IsValidConfidence(v) <==> r == v
    ensures !IsValidConfidence(v) ==> r == Num(50.0)
  {
    if !v.Num? || v.n < 0.0 || v.n > 100.0 then Num(50.0) else v
  }

  /** Seconds between the stamped candles. */
  const CandleSeconds: int := 60

  /** One mapped candle: `{time, open: candle.open || 0, …}`; a TypeError on a null or undefined candle. */
  function StampCandle(candle: JsValue, time: int): (r: Option<JsValue>)
    ensures r.None? <==> candle.Undefined? || candle.Null?
  {
    if candle.Undefined? || candle.Null? then None
    else Some(Obj(map[
      "time" := Num(time as real),
      "open" := OrZero(Property(candle, "open").value),
      "high" := OrZero(Property(candle, "high").value),
      "low" := OrZero(Property(candle, "low").value),
      "close" := OrZero(Property(candle, "close").value)]))
  }

  /** The time given to candle i of n: `now - (n - 1 - i) * 60`. */
  function StampTime(now: int, n: int, i: int): int
  {
    now - (n - 1 - i) * CandleSeconds
  }

  /** True when some candle is null or undefined. */
  predicate HasMissingCandle(items: seq<JsValue>)
  {
    exists i :: 0 <= i < |items| && (items[i].Undefined? || items[i].Null?)
  }

  /** `result.chartData.map(...)`: one stamped candle per item, or a TypeError. */
  function StampCandles(items: seq<JsValue>, now: int): (r: Option<seq<JsValue>>)
    ensures r.None? <==> HasMissingCandle(items)
    ensures r.Some? ==> |r.value| == |items|
    ensures r.Some? ==> forall i :: 0 <= i < |items| ==> StampCandle(items[i], StampTime(now, |items|, i)) == Some(r.value[i])
  {
    if HasMissingCandle(items) then None
    else Some(seq(|items|, i requires 0 <= i < |items| => StampCandle(items[i], StampTime(now, |items|, i)).value))
  }

  /** The last candle is stamped `now`, and consecutive candles are one minute apart. */
  lemma StampTimesEndAtNow(now: int, n: int)
    requires n > 0
    ensures StampTime(now, n, n - 1) == now
    ensures forall i :: 0 < i < n ==> StampTime(now, n, i) == StampTime(now, n, i - 1) + CandleSeconds
  {
  }

  /** A stamped candle carries its truthy price fields unchanged and 0 for each falsy one. */
  lemma StampedFields(candle: JsValue, time: int, key: string)
    requires !candle.Undefined? && !candle.Null?
    requires key in {"open", "high", "low", "close"}
    ensures var v := Property(candle, key).value;
            StampCandle(candle, time).value.fields[key] == (if Truthy(v) then v else Num(0.0))
    ensures StampCandle(candle, time).value.fields["time"] == Num(time as real)
  {
  }

  /** The three normalisation steps on the reply object, or None when the candle map throws. */
  function Normalized(fields: map<string, JsValue>, now: int): (r: Option<map<string, JsValue>>)
    ensures var chart := Get(fields, "chartData");
            r.None? <==> chart.Arr? && HasMissingCandle(chart.items)
  {
    var withSignal := fields["signal" := NormalizeSignal(Get(fields, "signal"))];
    var withConfidence := withSignal["confidence" := NormalizeConfidence(Get(withSignal, "confidence"))];
    var chart := Get(withConfidence, "chartData");
    if chart.Arr? then
      var stamped := StampCandles(chart.items, now);
      if stamped.None? then None else Some(withConfidence["chartData" := Arr(stamped.value)])
    else Some(withConfidence["chartData" := Arr([])])
  }

  /**
   * What normalisation guarantees: a valid signal and confidence (unchanged
   * when already valid), an array chartData with one candle per original
   * item (empty when chartData was not an array), every other property
   * untouched; it fails exactly when an array chartData holds a null or
   * undefined candle.
   */
  lemma NormalizedShape(fields: map<string, JsValue>, now: int)
    ensures var r := Normalized(fields, now);
            var chart := Get(fields, "chartData");
            && (r.None? <==> chart.Arr? && HasMissingCandle(chart.items))
            && (r.Some? ==>
                  && IsValidSignal(r.value["signal"])
                  && (IsValidSignal(Get(fields, "signal")) ==> r.value["signal"] == fields["signal"])
                  && IsValidConfidence(r.value["confidence"])
                  && (IsValidConfidence(Get(fields, "confidence")) ==> r.value["confidence"] == fields["confidence"])
                  && r.value["chartData"].Arr?
                  && |r.value["chartData"].items| == (if chart.Arr? then |chart.items| else 0)
                  && r.value.Keys == fields.Keys + {"signal", "confidence", "chartData"}
                  && (forall k :: k in fields && k !in {"signal", "confidence", "chartData"} ==> r.value[k] == fields[k]))
  {
  }

  /** The reply object returned by JSON.parse, normalised in place by the handler. */
  class ParsedReply {
    var fields: map<string, JsValue>

    constructor(parsed: map<string, JsValue>)
      ensures fields == parsed
    {
      fields := parsed;
    }

    /** index.ts:129-149, assigning `result.signal`, `result.confidence` and `result.chartData`; false when the map throws. */
    method Normalize(now: int) returns (ok: bool)
      modifies this
      ensures ok <==> Normalized(old(fields), now).Some?
      ensures ok ==> fields == Normalized(old(fields), now).value
    {
      var signal := Get(fields, "signal");
      if !IsValidSignal(signal) {
        fields := fields["signal" := Str("NEUTRO")];
      } else {
        assert fields["signal" := signal] == fields;
      }
      var confidence := Get(fields, "confidence");
      if !confidence.Num? || confidence.n < 0.0 || confidence.n > 100.0 {
        fields := fields["confidence" := Num(50.0)];
      } else {
        assert fields["confidence" := confidence] == fields;
      }
      var chart := Get(fields, "chartData");
      if Truthy(chart) && chart.Arr? {
        var stamped := StampCandles(chart.items, now);
        if stamped.None? {
          return false;
        }
        fields := fields["chartData" := Arr(stamped.value)];
      } else {
        fields := fields["chartData" := Arr([])];
      }
      ok := true;
    }
  }

  /**
   * The handler from request to response: the guard, then (after the AI call,
   * whose reply is `text`) extraction, parsing, and normalisation. Every
   * thrown error becomes a Failure carrying its message (a 500 response).
   */
  method Serve(body: JsValue, apiKey: Option<string>, text: string,
               parse: string -> Option<map<string, JsValue>>, nowMillis: int)
    returns (response: Result<map<string, JsValue>, string>)
    ensures (body.Undefined? || body.Null?) ==> response == Failure(TypeErrorMessage)
    ensures !body.Undefined? && !body.Null? && !Truthy(Property(body, "imageBase64").value) ==> response == Failure(NoImageMessage)
    ensures CheckRequest(body, apiKey).Failure? ==> response == Failure(CheckRequest(body, apiKey).error)
    ensures CheckRequest(body, apiKey).Success? && ExtractJsonBlock(text).None? ==> response == Failure(BadFormatMessage)
    ensures response.Success? <==>
            && CheckRequest(body, apiKey).Success?
            && ExtractJsonBlock(text).Some?
            && parse(ExtractJsonBlock(text).value).Some?
            && Normalized(parse(ExtractJsonBlock(text).value).value, nowMillis / 1000).Some?
    ensures response.Success? ==>
              response.value == Normalized(parse(ExtractJsonBlock(text).value).value, nowMillis / 1000).value
  {
    var guard := CheckRequest(body, apiKey);
    if guard.Failure? {
      return Failure(guard.error);
    }
    var block := ExtractJsonBlock(text);
    if block.None? {
      return Failure(BadFormatMessage);
    }
    var parsed := parse(block.value);
    if parsed.None? {
      return Failure(SyntaxErrorMessage);
    }
    var reply := new ParsedReply(parsed.value);
    var ok := reply.Normalize(nowMillis / 1000);
    if !ok {
      return Failure(TypeErrorMessage);
    }
    response := Success(reply.fields);
  }
}
