/** The NDJSON records the streaming endpoint writes, one per line, and the
    metrics carried by the final record. */
module Records {

  /** Readings of the monotonic clock, in seconds: when the stream starts, when
      the first engine unit has arrived, and when the engine's sequence ends. */
  datatype Clock = Clock(start: real, firstUnit: real, end: real)

  /** The metrics object of the completion record. Durations are milliseconds. */
  datatype Metrics = Metrics(
    totalDurationMs: real,
    loadDurationMs: int,
    promptEvalDurationMs: int,
    evalDurationMs: real,
    promptTokens: int,
    evalTokens: int,
    timeToFirstTokenMs: real)

  /** One line of the stream: `{"response": text, "done": false}` or
      `{"done": true, "metrics": ...}`. */
  datatype Record = Token(text: string) | Done(metrics: Metrics)

  /** Milliseconds elapsed between two clock readings taken in seconds. */
  function ElapsedMs(from: real, to: real): (ms: real)
    ensures from <= to ==> 0.0 <= ms
    ensures ms / 1000.0 == to - from
  {
    (to - from) * 1000.0
  }

  /** The framing every complete stream has: zero or more token records, then
      exactly one completion record, which is the last line. */
  ghost predicate WellFramed(out: seq<Record>)
  {
    && |out| >= 1
    && out[|out| - 1].Done?
    && forall k :: 0 <= k < |out| - 1 ==> out[k].Token?
  }

  /** Number of token records in a stream, counted record by record. */
  function CountTokens(out: seq<Record>): (n: nat)
    ensures n <= |out|
    ensures n == 0 <==> forall k :: 0 <= k < |out| ==> out[k].Done?
  {
    if out == [] then 0
    else (if out[0].Token? then 1 else 0) + CountTokens(out[1..])
  }
}
