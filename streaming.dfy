/** The generation driver: how the engine's units become NDJSON records
    (`_stream`). The engine is represented by the texts of the units it yields,
    in order; the clock by its readings. */
module Streaming {
  import opened Records

  /** The unit texts that produce a token record: the engine's units in order,
      with every empty text dropped. */
  function Emitted(units: seq<string>): (texts: seq<string>)
    ensures |texts| <= |units|
    ensures forall k :: 0 <= k < |texts| ==> texts[k] != "" && texts[k] in units
    ensures texts == [] <==> forall k :: 0 <= k < |units| ==> units[k] == ""
  {
    if units == [] then []
    else if units[0] == "" then Emitted(units[1..])
    else [units[0]] + Emitted(units[1..])
  }

  /** The concatenation of a sequence of texts. */
  function Concat(texts: seq<string>): (s: string)
    ensures texts == [] ==> s == ""
  {
    if texts == [] then "" else texts[0] + Concat(texts[1..])
  }

  /** One token record per text, in the same order. */
  function AsTokens(texts: seq<string>): (out: seq<Record>)
    ensures |out| == |texts|
    ensures forall k :: 0 <= k < |out| ==> out[k] == Token(texts[k])
  {
    seq(|texts|, k requires 0 <= k < |texts| => Token(texts[k]))
  }

  /** Whether the time to first token is measured: only when the very first
      unit of the engine (the one numbered 1) has non-empty text. A first unit
      with empty text leaves the measurement at 0 even if later units stream. */
  predicate FirstUnitTimed(units: seq<string>): (timed: bool)
    ensures timed ==> |Emitted(units)| > 0 && Emitted(units)[0] == units[0]
  {
    |units| > 0 && units[0] != ""
  }

  /** The metrics of the completion record for a finished stream. */
  function MetricsFor(units: seq<string>, clock: Clock): (m: Metrics)
    ensures m.evalTokens == |Emitted(units)|
    ensures m.evalDurationMs == m.totalDurationMs
    ensures m.totalDurationMs / 1000.0 == clock.end - clock.start
    ensures m.loadDurationMs == 0 && m.promptEvalDurationMs == 0 && m.promptTokens == 0
    ensures m.timeToFirstTokenMs != 0.0 ==> FirstUnitTimed(units)
    ensures FirstUnitTimed(units) ==> m.timeToFirstTokenMs == ElapsedMs(clock.start, clock.firstUnit)
  {
    var total := ElapsedMs(clock.start, clock.end);
    Metrics(
      totalDurationMs := total,
      loadDurationMs := 0,
      promptEvalDurationMs := 0,
      evalDurationMs := total,
      promptTokens := 0,
      evalTokens := |Emitted(units)|,
      timeToFirstTokenMs :=
        if FirstUnitTimed(units) then ElapsedMs(clock.start, clock.firstUnit) else 0.0)
  }

  /** Every record a stream over `units` writes, in order. Every stream is
      well framed, including one over an engine that yields nothing or only
      empty units: the token records come first, in engine order and with their
      text unchanged, and the completion record is last. */
  function StreamOutput(units: seq<string>, clock: Clock): (out: seq<Record>)
    ensures WellFramed(out)
    ensures |out| == |Emitted(units)| + 1
    ensures forall k :: 0 <= k < |Emitted(units)| ==> out[k] == Token(Emitted(units)[k])
    ensures out[|out| - 1] == Done(MetricsFor(units, clock))
  {
    AsTokens(Emitted(units)) + [Done(MetricsFor(units, clock))]
  }

  lemma {:induction false} EmittedAppend(a: seq<string>, b: seq<string>)
    ensures Emitted(a + b) == Emitted(a) + Emitted(b)
  {
    if a == [] {
      assert a + b == b;
    } else {
      assert (a + b)[1..] == a[1..] + b;
      EmittedAppend(a[1..], b);
    }
  }

  /** An empty unit emits nothing, a non-empty one emits itself, and neither
      stops the units after it from being emitted. */
  lemma EmittedStep(units: seq<string>, t: string)
    ensures Emitted(units + [t]) == Emitted(units) + (if t == "" then [] else [t])
  {
    EmittedAppend(units, [t]);
    assert [t][1..] == [];
  }

  lemma {:induction false} ConcatAppend(a: seq<string>, b: seq<string>)
    ensures Concat(a + b) == Concat(a) + Concat(b)
  {
    if a == [] {
      assert a + b == b;
    } else {
      assert (a + b)[1..] == a[1..] + b;
      ConcatAppend(a[1..], b);
    }
  }

  /** Dropping the empty units does not change the text: the concatenation of
      the emitted records is the concatenation of everything the engine yielded. */
  lemma {:induction false} EmittedKeepsText(units: seq<string>)
    ensures Concat(Emitted(units)) == Concat(units)
  {
    if units != [] {
      EmittedKeepsText(units[1..]);
      if units[0] != "" {
        assert ([units[0]] + Emitted(units[1..]))[1..] == Emitted(units[1..]);
      }
    }
  }

  /** The generator body after the model is loaded: walk the engine's units,
      skip empty ones, count and emit the rest, then emit the completion record.
      Also returns the accumulated `full_text`. */
  method GenerateRecords(units: seq<string>, clock: Clock) returns (records: seq<Record>, fullText: string)
    ensures records == StreamOutput(units, clock)
    ensures fullText == Concat(Emitted(units))
  {
    var firstTokenMs := 0.0;
    var tokenCount := 0;
    fullText := "";
    records := [];
    var i := 1;
    while i <= |units|
      invariant 1 <= i <= |units| + 1
      invariant records == AsTokens(Emitted(units[..i - 1]))
      invariant tokenCount == |records|
      invariant fullText == Concat(Emitted(units[..i - 1]))
      invariant firstTokenMs ==
        if i > 1 && FirstUnitTimed(units) then ElapsedMs(clock.start, clock.firstUnit) else 0.0
    {
      var tokenText := units[i - 1];
      assert units[..i] == units[..i - 1] + [tokenText];
      EmittedStep(units[..i - 1], tokenText);
      if tokenText != "" {
        ConcatAppend(Emitted(units[..i - 1]), [tokenText]);
        assert Concat([tokenText]) == tokenText + Concat([]);
        fullText := fullText + tokenText;
        tokenCount := tokenCount + 1;
        if i == 1 {
          firstTokenMs := ElapsedMs(clock.start, clock.firstUnit);
        }
        records := records + [Token(tokenText)];
      } else {
        assert Emitted(units[..i]) == Emitted(units[..i - 1]);
      }
      i := i + 1;
    }
    assert units[..|units|] == units;
    var totalMs := ElapsedMs(clock.start, clock.end);
    var metrics := Metrics(
      totalDurationMs := totalMs,
      loadDurationMs := 0,
      promptEvalDurationMs := 0,
      evalDurationMs := totalMs,
      promptTokens := 0,
      evalTokens := tokenCount,
      timeToFirstTokenMs := firstTokenMs);
    records := records + [Done(metrics)];
  }

  lemma {:induction false} CountTokensAppend(a: seq<Record>, b: seq<Record>)
    ensures CountTokens(a + b) == CountTokens(a) + CountTokens(b)
  {
    if a == [] {
      assert a + b == b;
    } else {
      assert (a + b)[1..] == a[1..] + b;
      CountTokensAppend(a[1..], b);
    }
  }

  lemma {:induction false} CountAsTokens(texts: seq<string>)
    ensures CountTokens(AsTokens(texts)) == |texts|
  {
    if texts != [] {
      assert AsTokens(texts)[1..] == AsTokens(texts[1..]);
      CountAsTokens(texts[1..]);
    }
  }

  /** `evalTokens` in the completion record is the number of token records
      the stream wrote before it. */
  lemma EvalTokensCountsTokenRecords(units: seq<string>, clock: Clock)
    ensures var out := StreamOutput(units, clock);
      out[|out| - 1].metrics.evalTokens == CountTokens(out)
  {
    var out := StreamOutput(units, clock);
    CountTokensAppend(AsTokens(Emitted(units)), [Done(MetricsFor(units, clock))]);
    CountAsTokens(Emitted(units));
    assert CountTokens([Done(MetricsFor(units, clock))]) == 0;
  }

  /** The time to first token is non-zero only when the first engine unit was
      itself emitted; a stream whose first unit is empty reports 0 however
      many tokens follow. */
  lemma TimeToFirstTokenOnlyForFirstUnit(units: seq<string>, clock: Clock)
    requires |units| > 0 && units[0] == ""
    ensures MetricsFor(units, clock).timeToFirstTokenMs == 0.0
    ensures MetricsFor(units, clock).evalTokens == |Emitted(units[1..])|
  {
  }

  lemma TimeToFirstTokenMeasured(units: seq<string>, clock: Clock)
    requires clock.start < clock.firstUnit
    ensures MetricsFor(units, clock).timeToFirstTokenMs != 0.0 <==> FirstUnitTimed(units)
  {
  }

  /** An engine that stops at once still yields one completion record, with no
      tokens counted and no time to first token. */
  lemma EmptyGeneration(clock: Clock)
    ensures StreamOutput([], clock) == [Done(MetricsFor([], clock))]
    ensures MetricsFor([], clock).evalTokens == 0
    ensures MetricsFor([], clock).timeToFirstTokenMs == 0.0
  {
  }

  /** Units "He", "llo", " there": three token records in that order, then the
      completion record counting three tokens. */
  lemma ThreeUnitExample(clock: Clock)
    ensures StreamOutput(["He", "llo", " there"], clock) ==
      [Token("He"), Token("llo"), Token(" there"), Done(MetricsFor(["He", "llo", " there"], clock))]
    ensures MetricsFor(["He", "llo", " there"], clock).evalTokens == 3
  {
  }

  /** A first unit with empty text is skipped without ending the stream: the
      later unit is still emitted and counted, but the time to first token
      stays 0. */
  lemma EmptyFirstUnitExample(clock: Clock)
    ensures StreamOutput(["", "Hi"], clock) == [Token("Hi"), Done(MetricsFor(["", "Hi"], clock))]
    ensures MetricsFor(["", "Hi"], clock).evalTokens == 1
    ensures MetricsFor(["", "Hi"], clock).timeToFirstTokenMs == 0.0
  {
  }
}
