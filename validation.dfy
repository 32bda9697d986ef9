/** The checks the `/generate` endpoint makes on a request before it starts a
    stream (`generate`). */
module Validation {
  import opened Wrappers
  import Config

  /** The request body: a prompt, an optional model identifier, and two
      advisory fields (`stream` defaults to true, `format` to "json") that no
      decision reads. */
  datatype GenerateRequest = GenerateRequest(
    prompt: string,
    model: Option<string>,
    stream: bool,
    format: Option<string>)

  /** What `generate` answers: a 400 "Prompt is required", a 400 refusing a
      model override (naming the configured model), or a streaming response
      over the prompt. */
  datatype Decision =
    | PromptRequired
    | ModelOverrideUnsupported(configuredModel: string)
    | StartStream(prompt: string)

  const PROMPT_REQUIRED_DETAIL: string := "Prompt is required"
  const OVERRIDE_UNSUPPORTED_ERROR: string :=
    "Model override unsupported by this sidecar. Configure MLX_MODEL env instead."

  /** The text of a refusal: the `detail` of the blank-prompt error, or the
      `error` field of the model-override reply. A stream has none. */
  function Detail(d: Decision): (text: Option<string>)
    ensures text.None? <==> d.StartStream?
    ensures d.PromptRequired? ==> text == Some(PROMPT_REQUIRED_DETAIL)
    ensures d.ModelOverrideUnsupported? ==> text == Some(OVERRIDE_UNSUPPORTED_ERROR)
  {
    match d
    case PromptRequired => Some(PROMPT_REQUIRED_DETAIL)
    case ModelOverrideUnsupported(_) => Some(OVERRIDE_UNSUPPORTED_ERROR)
    case StartStream(_) => None
  }

  /** The HTTP status of each decision. */
  function Status(d: Decision): (code: int)
    ensures code == 200 <==> d.StartStream?
    ensures code != 200 ==> code == 400
  {
    match d
    case PromptRequired => 400
    case ModelOverrideUnsupported(_) => 400
    case StartStream(_) => 200
  }

  /** The characters Python's `str.strip()` removes: those `str.isspace()`
      accepts. */
  predicate IsSpace(c: char): (space: bool)
    ensures c == ' ' || c == '\t' || c == '\n' || c == '\r' ==> space
    ensures '0' <= c <= '9' || 'a' <= c <= 'z' || 'A' <= c <= 'Z' ==> !space
  {
    var u := c as int;
    || 0x09 <= u <= 0x0D || 0x1C <= u <= 0x20
    || u == 0x85 || u == 0xA0 || u == 0x1680
    || 0x2000 <= u <= 0x200A
    || u == 0x2028 || u == 0x2029 || u == 0x202F || u == 0x205F || u == 0x3000
  }

  /** `s` with its leading whitespace removed. */
  function TrimStart(s: string): (r: string)
    ensures |r| <= |s| && r == s[|s| - |r|..]
    ensures forall k :: 0 <= k < |s| - |r| ==> IsSpace(s[k])
    ensures r == [] || !IsSpace(r[0])
  {
    if s != [] && IsSpace(s[0]) then TrimStart(s[1..]) else s
  }

  /** `s` with its trailing whitespace removed. */
  function TrimEnd(s: string): (r: string)
    ensures |r| <= |s| && r == s[..|r|]
    ensures forall k :: |r| <= k < |s| ==> IsSpace(s[k])
    ensures r == [] || !IsSpace(r[|r| - 1])
  {
    if s != [] && IsSpace(s[|s| - 1]) then TrimEnd(s[..|s| - 1]) else s
  }

  /** Python's `str.strip()` with no argument. */
  function Strip(s: string): (r: string)
    ensures r == "" <==> forall k :: 0 <= k < |s| ==> IsSpace(s[k])
  {
    TrimEnd(TrimStart(s))
  }

  /** The decision `generate` makes, in its order: a blank prompt is refused
      first, then a non-empty model identifier other than the configured one;
      anything else (no model, an empty one, or the configured one) streams. */
  function Decide(req: GenerateRequest): (d: Decision)
    ensures d.PromptRequired? <==> forall k :: 0 <= k < |req.prompt| ==> IsSpace(req.prompt[k])
    ensures d.ModelOverrideUnsupported? <==>
      && (exists k :: 0 <= k < |req.prompt| && !IsSpace(req.prompt[k]))
      && req.model.Some? && req.model.value != "" && req.model.value != Config.MODEL
    ensures d.ModelOverrideUnsupported? ==> d.configuredModel == Config.MODEL
    ensures d.PromptRequired? ==> Detail(d) == Some("Prompt is required")
    ensures d.StartStream? ==> d.prompt == req.prompt
  {
    if Strip(req.prompt) == "" then PromptRequired
    else if req.model.Some? && req.model.value != "" && req.model.value != Config.MODEL then
      ModelOverrideUnsupported(Config.MODEL)
    else StartStream(req.prompt)
  }

  /** A request that names the configured model, or none at all, is never
      refused for its model. */
  lemma DefaultModelAccepted(req: GenerateRequest)
    requires req.model == None || req.model == Some("") || req.model == Some(Config.MODEL)
    requires exists k :: 0 <= k < |req.prompt| && !IsSpace(req.prompt[k])
    ensures Decide(req) == StartStream(req.prompt)
  {
  }
}
