/** `make_llm`: the LLM configuration picks one backend, or is refused.
    The backends are values here: each constructor records the arguments
    the source passes to the backend's class. Python's `str`, `float` and
    `bool` of the JSON values in `extra` are spelled out; Python's `repr`
    of a value (`show`, which `str` agrees with on every value but a
    string) and the parsing of a numeric string by `float` are
    parameters. */
module LlmFactory {
  import opened Wrappers
  import opened Text
  import opened Json

  datatype LlmConfig = LlmConfig(
    backend: string, modelPath: Option<string>, provider: Option<string>, model: Option<string>,
    contextTokens: int, maxNewTokens: int, temperature: real, topP: Option<real>,
    extra: map<string, Json>)

  datatype Backend =
    | MockBackend
    | HubLocalBackend(provider: string, model: string, temperature: real, topP: Option<real>,
                      maxTokens: int, extra: map<string, Json>)
    | HubHttpBackend(baseUrl: string, provider: string, model: string, temperature: real,
                     topP: Option<real>, maxTokens: int, timeoutS: real, verifyTls: bool,
                     extra: map<string, Json>)
    | LlamaCppBackend(modelPath: string, nCtx: int, maxTokens: int, temperature: real)
    | MlxBackend(modelPath: string, maxTokens: int, temperature: real)

  /** Python truthiness of an optional string. */
  predicate Present(o: Option<string>) {
    o.Some? && o.value != []
  }

  /** `float(v)`: numbers and booleans convert, a string converts when
      `parse` reads a number from it, anything else is refused with
      CPython's messages (the string's `repr`, the value's type name). */
  function PyFloat(v: Json, show: Json -> string, parse: string -> Option<real>): Result<real> {
    match v
    case JNum(n) => Ok(n)
    case JBool(b) => Ok(if b then 1.0 else 0.0)
    case JStr(s) =>
      (match parse(s)
       case Some(r) => Ok(r)
       case None => Err(ValueError("could not convert string to float: " + show(v))))
    case _ => Err(TypeError("float() argument must be a string or a real number, not '" + TypeName(v) + "'"))
  }

  /** The modes that select the in-process backend. */
  predicate LocalMode(mode: string) {
    mode == "local" || mode == "python" || mode == "inprocess"
  }

  /** `str(cfg.extra.get("mode", "http")).lower()`. */
  function Mode(extra: map<string, Json>, show: Json -> string): string {
    Lower(PyStr(GetOr(extra, "mode", JStr("http")), show))
  }

  const DefaultBaseUrl: string := "http://localhost:8787"

  const DefaultTimeout: real := 60.0

  /** The HTTP backend for a configuration whose provider and model are set. */
  function HubHttp(cfg: LlmConfig, show: Json -> string, parse: string -> Option<real>): Result<Backend>
    requires Present(cfg.provider) && Present(cfg.model)
  {
    var baseUrl := PyStr(GetOr(cfg.extra, "base_url", JStr(DefaultBaseUrl)), show);
    var timeout := PyFloat(GetOr(cfg.extra, "timeout_s", JNum(DefaultTimeout)), show, parse);
    var verifyTls := Truthy(GetOr(cfg.extra, "verify_tls", JBool(true)));
    if timeout.Err? then Err(timeout.error)
    else Ok(HubHttpBackend(baseUrl, cfg.provider.value, cfg.model.value, cfg.temperature, cfg.topP,
                           cfg.maxNewTokens, timeout.value, verifyTls, cfg.extra))
  }

  /** `make_llm`. */
  function MakeLlm(cfg: LlmConfig, show: Json -> string, parse: string -> Option<real>): Result<Backend> {
    if cfg.backend == "mock" then Ok(MockBackend)
    else if cfg.backend == "llmhub" then
      if !Present(cfg.provider) || !Present(cfg.model) then
        Err(ValueError("llm.provider and llm.model are required for llmhub backend"))
      else if LocalMode(Mode(cfg.extra, show)) then
        Ok(HubLocalBackend(cfg.provider.value, cfg.model.value, cfg.temperature, cfg.topP,
                           cfg.maxNewTokens, cfg.extra))
      else HubHttp(cfg, show, parse)
    else if cfg.backend == "llama_cpp" then
      if !Present(cfg.modelPath) then Err(ValueError("llm.model_path required for llama_cpp backend"))
      else Ok(LlamaCppBackend(cfg.modelPath.value, cfg.contextTokens, cfg.maxNewTokens, cfg.temperature))
    else if cfg.backend == "mlx" then
      if !Present(cfg.modelPath) then Err(ValueError("llm.model_path required for mlx backend"))
      else Ok(MlxBackend(cfg.modelPath.value, cfg.maxNewTokens, cfg.temperature))
    else Err(ValueError("Unknown llm backend: " + cfg.backend))
  }

  /** The token budget a backend was built with; the mock has none. */
  function MaxTokens(b: Backend): Option<int> {
    match b
    case MockBackend => None
    case HubLocalBackend(_, _, _, _, maxTokens, _) => Some(maxTokens)
    case HubHttpBackend(_, _, _, _, _, maxTokens, _, _, _) => Some(maxTokens)
    case LlamaCppBackend(_, _, maxTokens, _) => Some(maxTokens)
    case MlxBackend(_, maxTokens, _) => Some(maxTokens)
  }

  /** The backend kind the tag names. */
  predicate Serves(tag: string, b: Backend) {
    match b
    case MockBackend => tag == "mock"
    case HubLocalBackend(_, _, _, _, _, _) => tag == "llmhub"
    case HubHttpBackend(_, _, _, _, _, _, _, _, _) => tag == "llmhub"
    case LlamaCppBackend(_, _, _, _) => tag == "llama_cpp"
    case MlxBackend(_, _, _) => tag == "mlx"
  }

  // ---------------------------------------------------------------------
  // Properties

  /** Every backend built is of the kind the tag names, and every backend
      except the mock gets `max_tokens = cfg.max_new_tokens`. */
  lemma BuiltBackend(cfg: LlmConfig, show: Json -> string, parse: string -> Option<real>)
    ensures MakeLlm(cfg, show, parse).Ok? ==> Serves(cfg.backend, MakeLlm(cfg, show, parse).value)
    ensures MakeLlm(cfg, show, parse).Ok? && cfg.backend != "mock" ==>
      MaxTokens(MakeLlm(cfg, show, parse).value) == Some(cfg.maxNewTokens)
  {
  }

  /** The refusals: an unknown tag, an llmhub configuration without provider
      or model (checked before anything else is read), a local model
      without a path, and an unreadable HTTP timeout; nothing else. */
  lemma Refusals(cfg: LlmConfig, show: Json -> string, parse: string -> Option<real>)
    ensures MakeLlm(cfg, show, parse).Err? <==>
      (cfg.backend !in {"mock", "llmhub", "llama_cpp", "mlx"})
      || (cfg.backend == "llmhub" && (!Present(cfg.provider) || !Present(cfg.model)))
      || (cfg.backend == "llmhub" && Present(cfg.provider) && Present(cfg.model)
          && !LocalMode(Mode(cfg.extra, show))
          && PyFloat(GetOr(cfg.extra, "timeout_s", JNum(DefaultTimeout)), show, parse).Err?)
      || (cfg.backend in {"llama_cpp", "mlx"} && !Present(cfg.modelPath))
    ensures cfg.backend !in {"mock", "llmhub", "llama_cpp", "mlx"} ==>
      MakeLlm(cfg, show, parse) == Err(ValueError("Unknown llm backend: " + cfg.backend))
  {
  }

  /** With provider and model set, the lower-cased mode decides between the
      in-process backend and the HTTP one. */
  lemma HubChoice(cfg: LlmConfig, show: Json -> string, parse: string -> Option<real>)
    requires cfg.backend == "llmhub" && Present(cfg.provider) && Present(cfg.model)
    ensures MakeLlm(cfg, show, parse).Ok? && MakeLlm(cfg, show, parse).value.HubLocalBackend?
      <==> LocalMode(Mode(cfg.extra, show))
    ensures !LocalMode(Mode(cfg.extra, show)) && MakeLlm(cfg, show, parse).Ok? ==>
      MakeLlm(cfg, show, parse).value.HubHttpBackend?
  {
  }

  /** An `extra` without `mode`, `base_url`, `timeout_s` and `verify_tls`
      gives the HTTP backend at `http://localhost:8787` with a 60 second
      timeout and TLS verification on. */
  lemma HttpDefaults(cfg: LlmConfig, show: Json -> string, parse: string -> Option<real>)
    requires cfg.backend == "llmhub" && Present(cfg.provider) && Present(cfg.model)
    requires "mode" !in cfg.extra && "base_url" !in cfg.extra
    requires "timeout_s" !in cfg.extra && "verify_tls" !in cfg.extra
    ensures MakeLlm(cfg, show, parse) == Ok(HubHttpBackend(
      DefaultBaseUrl, cfg.provider.value, cfg.model.value, cfg.temperature, cfg.topP,
      cfg.maxNewTokens, DefaultTimeout, true, cfg.extra))
  {
    assert Mode(cfg.extra, show) == "http";
  }

  /** The mode is read case-insensitively: `LOCAL` selects the in-process
      backend like `local` does. */
  lemma ModeCaseInsensitive(cfg: LlmConfig, show: Json -> string, parse: string -> Option<real>)
    requires cfg.backend == "llmhub" && Present(cfg.provider) && Present(cfg.model)
    requires GetOr(cfg.extra, "mode", JNull) == JStr("LOCAL")
    ensures MakeLlm(cfg, show, parse) == Ok(HubLocalBackend(
      cfg.provider.value, cfg.model.value, cfg.temperature, cfg.topP, cfg.maxNewTokens, cfg.extra))
  {
    assert Mode(cfg.extra, show) == Lower("LOCAL");
    assert Lower("LOCAL") == "local";
  }

  /** An HTTP timeout that `float` refuses ends the build with CPython's
      error: a string that is not a number names itself by its `repr`, a
      `None`, list or object names its type. */
  lemma TimeoutErrors(cfg: LlmConfig, show: Json -> string, parse: string -> Option<real>)
    requires cfg.backend == "llmhub" && Present(cfg.provider) && Present(cfg.model)
    requires !LocalMode(Mode(cfg.extra, show)) && "timeout_s" in cfg.extra
    ensures cfg.extra["timeout_s"].JStr? && parse(cfg.extra["timeout_s"].s).None? ==>
      MakeLlm(cfg, show, parse)
        == Err(ValueError("could not convert string to float: " + show(cfg.extra["timeout_s"])))
    ensures cfg.extra["timeout_s"].JNull? ==>
      MakeLlm(cfg, show, parse)
        == Err(TypeError("float() argument must be a string or a real number, not 'NoneType'"))
    ensures cfg.extra["timeout_s"].JArr? || cfg.extra["timeout_s"].JObj? ==>
      MakeLlm(cfg, show, parse)
        == Err(TypeError("float() argument must be a string or a real number, not '"
                         + (if cfg.extra["timeout_s"].JArr? then "list" else "dict") + "'"))
  {
    var prefix := "float() argument must be a string or a real number, not '";
    assert prefix + "NoneType" + "'" == "float() argument must be a string or a real number, not 'NoneType'";
  }
}
