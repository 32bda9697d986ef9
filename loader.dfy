/** The single-slot lazy loader (`_ensure_loaded`) and the health decision
    built on it (`health`), as functions of the slot's state. The engine's
    `load` is represented by what it would return if it were called now. */
module Loader {
  import opened Wrappers
  import Config

  /** Identities of the objects `load` hands back. */
  type ModelRef = nat
  type TokenizerRef = nat

  /** The result `load(MODEL)` would have: a model and tokenizer pair, or an
      exception with its message. */
  datatype LoadResult = Loaded(model: ModelRef, tokenizer: TokenizerRef) | LoadRaised(message: string)

  /** Why `_ensure_loaded` raised: the engine's import failed at start-up (with
      that error's text), or `load` itself raised. */
  datatype Failure = ImportFailed(cause: string) | LoadFailed(message: string)

  datatype Outcome = Ready | Raised(failure: Failure)

  /** The module-level `_model` and `_tokenizer`, together with the model
      identifiers `load` has been called with so far. */
  datatype Slot = Slot(model: Option<ModelRef>, tokenizer: Option<TokenizerRef>, loadCalls: seq<string>)

  const EmptySlot: Slot := Slot(None, None, [])

  predicate Filled(s: Slot)
  {
    s.model.Some? && s.tokenizer.Some?
  }

  /** The text of the exception `_ensure_loaded` raises. */
  function FailureMessage(f: Failure): (msg: string)
    ensures f.LoadFailed? ==> msg == f.message
    ensures f.ImportFailed? ==> |msg| >= 22 && msg[..22] == "mlx_lm import failed: " && f.cause <= msg[22..]
  {
    match f
    case ImportFailed(cause) =>
      "mlx_lm import failed: " + cause + ". Install dependencies from mlx_server/requirements.txt."
    case LoadFailed(message) => message
  }

  /** One call of `_ensure_loaded`: with an import error it raises before any
      load; otherwise it calls `load(MODEL)` only while the slot is not filled,
      keeps what a successful load returns, and leaves the slot as it was when
      the load raises. */
  function EnsureLoaded(importError: Option<string>, s: Slot, attempt: LoadResult): (r: (Slot, Outcome))
    ensures importError.Some? ==> r == (s, Raised(ImportFailed(importError.value)))
    ensures r.0.loadCalls ==
      s.loadCalls + (if importError.None? && !Filled(s) then [Config.MODEL] else [])
    ensures r.1 == Ready <==> importError.None? && Filled(r.0)
    ensures r.1.Raised? && importError.None? ==>
      attempt.LoadRaised? && r.1.failure == LoadFailed(attempt.message)
    ensures r.1.Raised? ==> r.0.model == s.model && r.0.tokenizer == s.tokenizer
    ensures importError.None? && !Filled(s) && attempt.LoadRaised? ==>
      r.1 == Raised(LoadFailed(attempt.message))
    ensures Filled(s) ==> r.0 == s
    ensures !Filled(s) && importError.None? && attempt.Loaded? ==>
      r.0.model == Some(attempt.model) && r.0.tokenizer == Some(attempt.tokenizer)
  {
    if importError.Some? then
      (s, Raised(ImportFailed(importError.value)))
    else if s.model.None? || s.tokenizer.None? then
      var calls := s.loadCalls + [Config.MODEL];
      match attempt
      case Loaded(m, t) => (Slot(Some(m), Some(t), calls), Ready)
      case LoadRaised(msg) => (s.(loadCalls := calls), Raised(LoadFailed(msg)))
    else
      (s, Ready)
  }

  /** Once a call has succeeded, every later call succeeds without loading
      again and without replacing the model or tokenizer. */
  lemma EnsureLoadedIdempotent(importError: Option<string>, s: Slot, first: LoadResult, second: LoadResult)
    requires EnsureLoaded(importError, s, first).1 == Ready
    ensures var s1 := EnsureLoaded(importError, s, first).0;
      EnsureLoaded(importError, s1, second) == (s1, Ready)
  {
  }

  /** The calls a sequence of requests makes, one load result per call. */
  function Run(importError: Option<string>, s: Slot, attempts: seq<LoadResult>): (r: Slot)
    decreases |attempts|
  {
    if attempts == [] then s
    else Run(importError, EnsureLoaded(importError, s, attempts[0]).0, attempts[1..])
  }

  /** Number of failed loads before the first successful one. */
  function LeadingFailures(attempts: seq<LoadResult>): (n: nat)
    ensures n <= |attempts|
    ensures forall k :: 0 <= k < n ==> attempts[k].LoadRaised?
    ensures n < |attempts| ==> attempts[n].Loaded?
  {
    if attempts == [] || attempts[0].Loaded? then 0 else 1 + LeadingFailures(attempts[1..])
  }

  /** Over any sequence of calls starting from an empty slot, `load(MODEL)` is
      called once per failed attempt up to and including the first success and
      never after it, and the slot then holds what that first success returned. */
  lemma {:induction false} RunLoadsUntilFirstSuccess(attempts: seq<LoadResult>, s: Slot)
    requires !Filled(s)
    ensures var n := LeadingFailures(attempts);
      var r := Run(None, s, attempts);
      && r.loadCalls == s.loadCalls + seq(if n < |attempts| then n + 1 else n, _ => Config.MODEL)
      && (n < |attempts| ==> r.model == Some(attempts[n].model) && r.tokenizer == Some(attempts[n].tokenizer))
      && (n == |attempts| ==> r.model == s.model && r.tokenizer == s.tokenizer)
  {
    if attempts != [] {
      var s1 := EnsureLoaded(None, s, attempts[0]).0;
      if attempts[0].Loaded? {
        RunFilledIsStable(attempts[1..], s1);
      } else {
        RunLoadsUntilFirstSuccess(attempts[1..], s1);
      }
    }
  }

  /** A filled slot is never loaded again nor replaced. */
  lemma {:induction false} RunFilledIsStable(attempts: seq<LoadResult>, s: Slot)
    requires Filled(s)
    ensures Run(None, s, attempts) == s
  {
    if attempts != [] {
      RunFilledIsStable(attempts[1..], s);
    }
  }

  /** With an import error no call ever loads or changes the slot. */
  lemma {:induction false} RunWithImportErrorNeverLoads(cause: string, attempts: seq<LoadResult>, s: Slot)
    ensures Run(Some(cause), s, attempts) == s
  {
    if attempts != [] {
      RunWithImportErrorNeverLoads(cause, attempts[1..], s);
    }
  }

  /** The JSON body of `/health`: ready, naming the backend and configured
      model, or unavailable with an error text. */
  datatype HealthReply = Healthy(backend: string, model: string) | Unavailable(error: string)

  function HealthStatus(reply: HealthReply): (code: int)
    ensures code == 200 <==> reply.Healthy?
    ensures code != 200 ==> code == 503
  {
    if reply.Healthy? then 200 else 503
  }

  /** One `/health` call: an import error is reported without touching the
      slot; otherwise the model is loaded if needed, and the reply is healthy
      exactly when the slot ends up filled, or carries the load's error text. */
  function Health(importError: Option<string>, s: Slot, attempt: LoadResult): (r: (Slot, HealthReply))
    ensures importError.Some? ==>
      r == (s, Unavailable("mlx_lm import failed: " + importError.value))
    ensures importError.None? ==> r.0 == EnsureLoaded(importError, s, attempt).0
    ensures r.1.Healthy? <==> importError.None? && Filled(r.0)
    ensures r.1.Healthy? ==> r.1 == Healthy(Config.BACKEND, Config.MODEL)
    ensures importError.None? && !Filled(s) && attempt.LoadRaised? ==>
      r.1 == Unavailable(attempt.message)
    ensures importError.None? && r.1.Unavailable? ==>
      attempt.LoadRaised? && r.1.error == attempt.message
  {
    if importError.Some? then
      (s, Unavailable("mlx_lm import failed: " + importError.value))
    else
      var (s1, outcome) := EnsureLoaded(importError, s, attempt);
      match outcome
      case Ready => (s1, Healthy(Config.BACKEND, Config.MODEL))
      case Raised(f) => (s1, Unavailable(FailureMessage(f)))
  }
}
