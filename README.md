# MLX inference sidecar — Dafny model

This project models the core of the Mental Clarity MLX sidecar
(`mental-clarity/mlx_server/server.py`), a small HTTP service that wraps a
local text-generation engine:

- the **streaming loop** `_stream`, which turns the engine's units of generated
  text into NDJSON records — one `{"response": text, "done": false}` record per
  non-empty unit, then exactly one `{"done": true, "metrics": ...}` record;
- the **single-slot lazy loader** `_ensure_loaded`, which loads the one
  configured model on first use and keeps it in the module-level
  `_model`/`_tokenizer` slot;
- the **request decision** of `POST /generate` (blank prompt, then model
  override, then stream) and the **health decision** of `GET /health`.

The engine is abstracted: `load(MODEL)` is represented by the result it would
give if called now (`Loader.LoadResult`: a model and tokenizer, or an
exception); `stream_generate` by the sequence of unit texts it yields; the
clock by three readings (start, arrival of the first unit, end of the
sequence).

Modules:

- `Config` — the configured model identifier `MODEL` and backend name.
- `Wrappers` — `Option`, for Python's `None`-or-value.
- `Records` — the stream records, the metrics, the clock, and the framing
  predicate `WellFramed` (tokens first, one completion record last).
- `Streaming` — the stream as a specification (`Emitted`, `MetricsFor`,
  `StreamOutput`), the loop `GenerateRecords` proved against it, and lemmas.
- `Validation` — Python's `str.strip()` and the `generate` decision.
- `Loader` — the slot as a value: one `_ensure_loaded` call, repeated calls,
  and the `health` decision, with lemmas.
- `Server` — class `Sidecar`, whose fields are the module-level slot and whose
  methods update it in place, each proved equal to the `Loader` specification.

Behaviours of the code that the model keeps as written:

- There is one model slot, and `_ensure_loaded` always calls `load(MODEL)`,
  whatever the request names (server.py:59, `Loader.EnsureLoaded`). A request
  naming any non-empty model other than `MODEL` is refused with a 400
  (server.py:124-132, `Validation.Decide`), so no other model is ever served.
- The health reply is `{ok, backend, model}` (`Loader.HealthReply`).
- The time to first token is taken only when unit 1 of the engine is
  non-empty (`i == 1`, server.py:101); a first unit with empty text leaves it
  at 0 even if later tokens stream (`Streaming.FirstUnitTimed`,
  `Streaming.EmptyFirstUnitExample`).
- `_stream` is a lazy generator, so a failed load raises while the response
  body drains, after the 200 has begun, and no record is written
  (`Server.Sidecar.Stream`, `StreamRaised`).

## Model

| member | source | states |
|---|---|---|
| `Records.ElapsedMs` | mental-clarity/mlx_server/server.py:102-107 | a duration in milliseconds is a thousand times the clock difference, and is non-negative for a monotonic clock |
| `Records.CountTokens` | mental-clarity/mlx_server/server.py:99-105 | counts token records one by one: at most the stream length, and zero exactly when every record is a completion record |
| `Streaming.Emitted` | mental-clarity/mlx_server/server.py:94-99 | the texts that become token records are non-empty units of the engine, no more of them than units, and none at all exactly when every unit is empty |
| `Streaming.AsTokens` | mental-clarity/mlx_server/server.py:104-105 | one token record per emitted text, same position, text unchanged |
| `Streaming.EmittedAppend` | mental-clarity/mlx_server/server.py:94-99 | skipping empty units distributes over concatenation: order is kept and a skipped unit never stops later units |
| `Streaming.EmittedStep` | mental-clarity/mlx_server/server.py:96-99 | one more unit adds a record exactly when its text is non-empty, and adds that text |
| `Streaming.EmittedKeepsText` | mental-clarity/mlx_server/server.py:93-98 | the concatenation of the emitted texts equals the concatenation of all units the engine yielded |
| `Streaming.FirstUnitTimed` | mental-clarity/mlx_server/server.py:94-102 | the time to first token is taken only when unit 1 is non-empty, and then unit 1 is the first token record |
| `Streaming.MetricsFor` | mental-clarity/mlx_server/server.py:90-116 | evalTokens is the number of emitted tokens, evalDurationMs equals totalDurationMs, which is the elapsed time of the whole stream; load time, prompt evaluation time and prompt tokens are 0; the time to first token is the elapsed time to the first unit's arrival when unit 1 is timed, and 0 otherwise |
| `Streaming.StreamOutput` | mental-clarity/mlx_server/server.py:94-117 | the stream is well framed: token records in engine order with text unchanged, then exactly one completion record, last, even for an empty generation |
| `Streaming.GenerateRecords` | mental-clarity/mlx_server/server.py:89-117 | the loop writes exactly `StreamOutput` and accumulates `full_text` as the concatenation of the emitted texts |
| `Streaming.EvalTokensCountsTokenRecords` | mental-clarity/mlx_server/server.py:99-114 | evalTokens in the completion record equals the number of token records in the stream |
| `Streaming.TimeToFirstTokenOnlyForFirstUnit` | mental-clarity/mlx_server/server.py:90-102 | with an empty first unit the time to first token is 0 and the later units are still counted |
| `Streaming.TimeToFirstTokenMeasured` | mental-clarity/mlx_server/server.py:90-102 | when the first unit arrives after the start, the time to first token is non-zero exactly when the first unit is non-empty |
| `Streaming.EmptyGeneration` | mental-clarity/mlx_server/server.py:94-117 | an engine that yields nothing still produces one completion record, with evalTokens 0 and time to first token 0 |
| `Streaming.ThreeUnitExample` | mental-clarity/mlx_server/server.py:94-117 | units "He", "llo", " there" give those three token records in order and a completion record with evalTokens 3 |
| `Streaming.EmptyFirstUnitExample` | mental-clarity/mlx_server/server.py:90-105 | units "", "Hi" give one token record "Hi", evalTokens 1 and time to first token 0 |
| `Validation.Status` | mental-clarity/mlx_server/server.py:122-135 | both refusals are status 400, a stream is 200 |
| `Validation.Detail` | mental-clarity/mlx_server/server.py:122-132 | a blank prompt is answered "Prompt is required"; a model override is answered with the override error, naming the configured model |
| `Validation.IsSpace` | mental-clarity/mlx_server/server.py:122 | the characters `str.strip()` removes: ASCII space, tab and line breaks are whitespace, letters and digits are not |
| `Validation.Strip` | mental-clarity/mlx_server/server.py:122 | `str.strip()`: the result is empty exactly when every character is whitespace |
| `Validation.TrimStart` | mental-clarity/mlx_server/server.py:122 | removes exactly a whitespace prefix and stops at a non-whitespace character |
| `Validation.TrimEnd` | mental-clarity/mlx_server/server.py:122 | removes exactly a whitespace suffix and stops at a non-whitespace character |
| `Validation.Decide` | mental-clarity/mlx_server/server.py:121-135 | a blank prompt is refused first with "Prompt is required"; otherwise a non-empty model other than MODEL is refused naming MODEL; otherwise the prompt is streamed unchanged |
| `Validation.DefaultModelAccepted` | mental-clarity/mlx_server/server.py:124 | an absent, empty or configured model identifier with a non-blank prompt is streamed |
| `Loader.FailureMessage` | mental-clarity/mlx_server/server.py:54-57 | a load error's text is passed through; an import error's text starts with "mlx_lm import failed: " followed by the cause |
| `Loader.EnsureLoaded` | mental-clarity/mlx_server/server.py:52-59 | with an import error it raises and loads nothing; otherwise it calls load(MODEL) exactly when the slot is not filled, succeeds exactly when the slot ends filled, never replaces a filled slot, keeps the slot's model and tokenizer when it raises, and raises with the load's exception exactly when a needed load raises |
| `Loader.EnsureLoadedIdempotent` | mental-clarity/mlx_server/server.py:58-59 | after a successful call, any further call succeeds without loading and without changing the slot |
| `Loader.LeadingFailures` | mental-clarity/mlx_server/server.py:58-59 | the number of failed loads before the first successful one |
| `Loader.RunLoadsUntilFirstSuccess` | mental-clarity/mlx_server/server.py:52-59 | over any sequence of calls from an empty slot, load(MODEL) is called once per failure up to and including the first success, never after, and the slot holds that success's model and tokenizer |
| `Loader.RunFilledIsStable` | mental-clarity/mlx_server/server.py:58-59 | a filled slot is never loaded again nor replaced by any sequence of calls |
| `Loader.RunWithImportErrorNeverLoads` | mental-clarity/mlx_server/server.py:54-57 | with an import error no sequence of calls loads or changes the slot |
| `Loader.HealthStatus` | mental-clarity/mlx_server/server.py:64-83 | a healthy reply is 200, an unavailable one 503 |
| `Loader.Health` | mental-clarity/mlx_server/server.py:63-83 | an import error is reported without touching the slot; otherwise the model is loaded if needed and the reply is healthy (backend mlx, model MODEL) exactly when the slot is filled, else it carries the load's message |
| `Server.Sidecar.constructor` | mental-clarity/mlx_server/server.py:26-42 | at import the slot is empty and nothing has been loaded |
| `Server.Sidecar.EnsureLoaded` | mental-clarity/mlx_server/server.py:52-59 | updates the slot in place exactly as `Loader.EnsureLoaded` |
| `Server.Sidecar.Health` | mental-clarity/mlx_server/server.py:63-83 | updates the slot and replies exactly as `Loader.Health` |
| `Server.Sidecar.Stream` | mental-clarity/mlx_server/server.py:86-117 | loads before any record; on success the records are `StreamOutput` and the full text is the concatenation of all units; on failure no record is written |
| `Server.Sidecar.Generate` | mental-clarity/mlx_server/server.py:121-137 | a refusal leaves the slot untouched; an accepted request loads and then gives exactly what `Stream` gives: `StreamOutput` and the concatenation of all units when the load succeeds, or the load's own failure with no records |
| `Server.HealthTwice` | mental-clarity/mlx_server/server.py:58-83 | on a fresh sidecar a successful first health check makes the second healthy whatever load would do, since it is not called again |

## Left out

- HTTP plumbing (FastAPI routes, `JSONResponse`, `StreamingResponse`, uvicorn and the `__main__` block): the replies are datatypes and statuses are functions of them.
- Environment configuration (host, port, model identifier): `MODEL` is a constant.
- JSON serialisation and UTF-8 encoding of each record: a record is a datatype; its line encoding is not modelled.
- The engine (`mlx_lm.load`, `stream_generate`) and the `hasattr(token, "text")` fallback: a load result and the unit texts are parameters.
- Floating-point clock arithmetic: clock readings are reals and durations exact real differences times 1000.
- Laziness and back-pressure of the response body: `Server.Sidecar.Stream` gives the records of a fully drained stream at once.
- Failures raised by the engine in the middle of a stream, and the 500 branch at server.py:136-137, which such failures never reach because the generator runs after the response is returned.
- Concurrent requests racing on the unguarded global slot: the model is sequential.
