/** The sidecar's module state and its two endpoints. The module-level
    `_model`/`_tokenizer` slot is a class whose methods update it in place;
    `IMPORT_ERROR` is fixed when the object is built, as it is fixed when the
    server module is imported. */
module Server {
  import opened Wrappers
  import opened Records
  import Config
  import Loader
  import Streaming
  import Validation

  /** What draining the body of a streaming response gives: every record, and
      the accumulated text; or the exception raised before the first record,
      when the model cannot be loaded. */
  datatype StreamResult = Streamed(records: seq<Record>, fullText: string) | StreamRaised(failure: Loader.Failure)

  /** The answer to `POST /generate`: a refusal, or a stream that the transport
      drains. */
  datatype GenerateReply = Refused(decision: Validation.Decision) | Started(result: StreamResult)

  class Sidecar {
    const importError: Option<string>
    var model: Option<Loader.ModelRef>
    var tokenizer: Option<Loader.TokenizerRef>
    /** The model identifiers `load` has been called with. */
    ghost var loadCalls: seq<string>

    ghost function State(): Loader.Slot
      reads this
    {
      Loader.Slot(model, tokenizer, loadCalls)
    }

    /** The state right after import: the slot is empty and nothing was loaded. */
    constructor (importError: Option<string>)
      ensures this.importError == importError
      ensures State() == Loader.EmptySlot
    {
      this.importError := importError;
      model, tokenizer := None, None;
      loadCalls := [];
    }

    /** `_ensure_loaded`; `attempt` is what `load(MODEL)` returns if called. */
    method EnsureLoaded(attempt: Loader.LoadResult) returns (outcome: Loader.Outcome)
      modifies this
      ensures (State(), outcome) == Loader.EnsureLoaded(importError, old(State()), attempt)
    {
      if importError.Some? {
        return Loader.Raised(Loader.ImportFailed(importError.value));
      }
      if model.None? || tokenizer.None? {
        loadCalls := loadCalls + [Config.MODEL];
        match attempt
        case Loaded(m, t) =>
          model, tokenizer := Some(m), Some(t);
        case LoadRaised(msg) =>
          return Loader.Raised(Loader.LoadFailed(msg));
      }
      outcome := Loader.Ready;
    }

    /** `GET /health`. */
    method Health(attempt: Loader.LoadResult) returns (reply: Loader.HealthReply)
      modifies this
      ensures (State(), reply) == Loader.Health(importError, old(State()), attempt)
    {
      if importError.Some? {
        return Loader.Unavailable("mlx_lm import failed: " + importError.value);
      }
      var outcome := EnsureLoaded(attempt);
      match outcome
      case Ready =>
        reply := Loader.Healthy(Config.BACKEND, Config.MODEL);
      case Raised(f) =>
        reply := Loader.Unavailable(Loader.FailureMessage(f));
    }

    /** Draining `_stream(prompt)`: the model is loaded when the generator is
        first advanced, before any record; the engine then yields `units` for
        the prompt and the clock gives `clock`. */
    method Stream(attempt: Loader.LoadResult, units: seq<string>, clock: Clock) returns (result: StreamResult)
      modifies this
      ensures var (slot, outcome) := Loader.EnsureLoaded(importError, old(State()), attempt);
        && State() == slot
        && result == match outcome
                     case Ready => Streamed(Streaming.StreamOutput(units, clock), Streaming.Concat(units))
                     case Raised(f) => StreamRaised(f)
    {
      var outcome := EnsureLoaded(attempt);
      if outcome.Raised? {
        return StreamRaised(outcome.failure);
      }
      var records, fullText := Streaming.GenerateRecords(units, clock);
      Streaming.EmittedKeepsText(units);
      result := Streamed(records, fullText);
    }

    /** `POST /generate` followed by the transport draining the response body.
        Both refusals are decided before the slot is touched. */
    method Generate(req: Validation.GenerateRequest, attempt: Loader.LoadResult, units: seq<string>, clock: Clock)
      returns (reply: GenerateReply)
      modifies this
      ensures !Validation.Decide(req).StartStream? ==>
        reply == Refused(Validation.Decide(req)) && State() == old(State())
      ensures Validation.Decide(req).StartStream? ==>
        && State() == Loader.EnsureLoaded(importError, old(State()), attempt).0
        && reply.Started?
        && (reply.result.Streamed? <==> Loader.EnsureLoaded(importError, old(State()), attempt).1 == Loader.Ready)
        && (reply.result.Streamed? ==> reply.result.records == Streaming.StreamOutput(units, clock))
      ensures Validation.Decide(req).StartStream? ==>
        var (slot, outcome) := Loader.EnsureLoaded(importError, old(State()), attempt);
        reply == Started(match outcome
                         case Ready => Streamed(Streaming.StreamOutput(units, clock), Streaming.Concat(units))
                         case Raised(f) => StreamRaised(f))
    {
      var decision := Validation.Decide(req);
      if !decision.StartStream? {
        return Refused(decision);
      }
      var result := Stream(attempt, units, clock);
      reply := Started(result);
    }
  }

  /** Two health checks on a freshly started sidecar: the first loads the
      model, the second answers from the filled slot without loading again. */
  method HealthTwice(first: Loader.LoadResult, second: Loader.LoadResult)
    returns (r1: Loader.HealthReply, r2: Loader.HealthReply)
    requires first.Loaded?
    ensures r1 == r2 == Loader.Healthy(Config.BACKEND, Config.MODEL)
  {
    var sidecar := new Sidecar(None);
    r1 := sidecar.Health(first);
    assert sidecar.loadCalls == [Config.MODEL];
    r2 := sidecar.Health(second);
    assert sidecar.loadCalls == [Config.MODEL];
  }
}
