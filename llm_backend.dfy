/** The LiteLLM backend of the Stratus agents: it normalises the prompt,
    configures the chat client of the chosen provider, and invokes it with
    retries and exponential backoff on rate limiting. */
module LlmBackend {
  import opened Common
  import opened Strings
  import opened Values

  const DefaultSystemPrompt: string := "You are a helpful assistant."
  const RetriesExceeded: string := "RuntimeError: Max retries exceeded. Unable to complete the request."

  /** `int(os.getenv(key, default))`, evaluated when the module is imported;
      a value that is not an integer literal raises ValueError. */
  function EnvInt(env: map<string, string>, key: string, default: string): (r: Result<int, string>)
    ensures r.Ok? <==> ParseInt(if key in env then env[key] else default).Some?
    ensures r.Ok? ==> r.value == ParseInt(if key in env then env[key] else default).value
  {
    var text := if key in env then env[key] else default;
    match ParseInt(text)
    case Some(n) => Ok(n)
    case None => Err("ValueError: invalid literal for int() with base 10: '" + text + "'")
  }

  /** `LLM_QUERY_MAX_RETRIES` and `LLM_QUERY_INIT_RETRY_DELAY`. */
  function MaxRetries(env: map<string, string>): Result<int, string> {
    EnvInt(env, "LLM_QUERY_MAX_RETRIES", "5")
  }

  function InitRetryDelay(env: map<string, string>): Result<int, string> {
    EnvInt(env, "LLM_QUERY_INIT_RETRY_DELAY", "1")
  }

  /** Without the variables the defaults are 5 retries and a 1-second initial delay. */
  lemma RetryDefaults(env: map<string, string>)
    requires "LLM_QUERY_MAX_RETRIES" !in env && "LLM_QUERY_INIT_RETRY_DELAY" !in env
    ensures MaxRetries(env) == Ok(5) && InitRetryDelay(env) == Ok(1)
  {
    ParseIntOfIntToString(5);
    ParseIntOfIntToString(1);
    assert IntToString(5) == "5" && IntToString(1) == "1";
  }

  /** What `inference` is called with: a string, a list of messages, or any other value. */
  datatype Prompt =
    | TextPrompt(text: string)
    | ListPrompt(items: seq<Message>)
    | OtherPrompt(typeName: string)

  /** The messages sent to the model, or the exception normalisation raises:
      a string is put after a system message; a list that starts with a human
      message gets a system message in front; any other list is sent as it is. */
  function PromptMessages(input: Prompt, systemPrompt: Option<string>): (r: Result<seq<Message>, string>)
    ensures input.TextPrompt? ==> r == Ok([SystemMsg(systemPrompt.GetOr(DefaultSystemPrompt)), HumanMsg(input.text)])
    ensures input.ListPrompt? && |input.items| == 0 ==> r.Err?
    ensures input.ListPrompt? && |input.items| > 0 && input.items[0].HumanMsg? ==>
              r == Ok([SystemMsg(systemPrompt.GetOr(DefaultSystemPrompt))] + input.items)
    ensures input.ListPrompt? && |input.items| > 0 && !input.items[0].HumanMsg? ==> r == Ok(input.items)
    ensures input.OtherPrompt? ==> r.Err?
  {
    match input
    case TextPrompt(text) => Ok([SystemMsg(systemPrompt.GetOr(DefaultSystemPrompt)), HumanMsg(text)])
    case ListPrompt(items) =>
      if |items| == 0 then Err("IndexError: list index out of range")
      else if items[0].HumanMsg? then Ok([SystemMsg(systemPrompt.GetOr(DefaultSystemPrompt))] + items)
      else Ok(items)
    case OtherPrompt(t) =>
      Err("ValueError: messages must be either a string or a list of dicts, but got <class '" + t + "'>")
  }

  /** A normalised prompt is never empty, and a list prompt keeps all of its
      messages, in order, at its end. */
  lemma PromptKeepsMessages(input: Prompt, systemPrompt: Option<string>)
    requires PromptMessages(input, systemPrompt).Ok?
    ensures |PromptMessages(input, systemPrompt).value| > 0
    ensures input.ListPrompt? ==> var out := PromptMessages(input, systemPrompt).value;
      |input.items| <= |out| && out[|out| - |input.items|..] == input.items
    ensures input.TextPrompt? ==> PromptMessages(input, systemPrompt).value[0].SystemMsg?
  {
  }

  /** The model families that take neither temperature nor top_p. */
  predicate IsReasoningModel(modelName: string) {
    var m := Lower(modelName);
    Contains(m, "o1") || Contains(m, "o3") || Contains(m, "gpt-5")
  }

  /** The configured chat client, with the tools bound to it. */
  datatype Client =
    | OpenAIClient(model: string, temperature: Option<real>, topP: Option<real>, tools: seq<string>)
    | WatsonxClient(modelId: string, url: string, projectId: string, apiKey: string, wxTemperature: real,
                    tools: seq<string>)

  /** The part of the backend's configuration that chooses the client. */
  datatype BackendConfig = BackendConfig(provider: string, modelName: string, url: string, apiKey: string,
                                         temperature: real, topP: real)

  /** The client `inference` builds: OpenAI, with temperature and top_p only
      for models outside the reasoning families; watsonx, which needs
      WX_PROJECT_ID in the environment; anything else raises ValueError. The
      tools are bound when the list is given and non-empty. */
  function SelectClient(cfg: BackendConfig, env: map<string, string>, tools: Option<seq<string>>)
    : (r: Result<Client, string>)
    ensures r.Ok? <==> cfg.provider == "openai" || (cfg.provider == "watsonx" && "WX_PROJECT_ID" in env)
    ensures cfg.provider == "openai" ==> r.value.OpenAIClient? && r.value.model == cfg.modelName
    ensures cfg.provider == "openai" ==> (r.value.temperature.Some? <==> !IsReasoningModel(cfg.modelName))
    ensures cfg.provider == "openai" ==> (r.value.topP.Some? <==> !IsReasoningModel(cfg.modelName))
    ensures cfg.provider == "openai" && !IsReasoningModel(cfg.modelName) ==>
              r.value.temperature == Some(cfg.temperature) && r.value.topP == Some(cfg.topP)
    ensures r.Ok? && cfg.provider == "watsonx" ==>
              r.value == WatsonxClient(cfg.modelName, cfg.url, env["WX_PROJECT_ID"], cfg.apiKey, cfg.temperature,
                                       r.value.tools)
    ensures r.Ok? ==> r.value.tools == if tools.Some? then tools.value else []
    ensures cfg.provider != "openai" && cfg.provider != "watsonx" ==>
              r == Err("ValueError: Unsupported provider: " + cfg.provider)
  {
    var bound := if tools.Some? then tools.value else [];
    if cfg.provider == "openai" then
      if IsReasoningModel(cfg.modelName) then Ok(OpenAIClient(cfg.modelName, None, None, bound))
      else Ok(OpenAIClient(cfg.modelName, Some(cfg.temperature), Some(cfg.topP), bound))
    else if cfg.provider == "watsonx" then
      if "WX_PROJECT_ID" in env then
        Ok(WatsonxClient(cfg.modelName, cfg.url, env["WX_PROJECT_ID"], cfg.apiKey, cfg.temperature, bound))
      else Err("KeyError: 'WX_PROJECT_ID'")
    else
      Err("ValueError: Unsupported provider: " + cfg.provider)
  }

  /** What one `llm.invoke` does: return a completion, or raise. */
  datatype Invocation =
    | Completed(message: Message)
    | BadRequest(detail: string)
    | RateLimited(detail: string)
    | HttpError(detail: string)
    | ApiError(detail: string)
    | Unexpected(detail: string)

  /** The errors that are retried after a backoff. */
  predicate Retried(inv: Invocation) {
    inv.RateLimited? || inv.HttpError?
  }

  /** The exception re-raised for an invocation that is not retried. */
  function Raised(inv: Invocation): string
    requires !inv.Completed? && !Retried(inv)
  {
    match inv
    case BadRequest(d) => "BadRequestError: " + d
    case ApiError(d) => "APIError: " + d
    case Unexpected(d) => d
  }

  /** The index of the first of `limit` attempts whose invocation is not retried, or `limit`. */
  function FirstSettled(invoke: nat -> Invocation, limit: nat): (n: nat)
    ensures n <= limit
    ensures forall k :: 0 <= k < n ==> Retried(invoke(k))
    ensures n < limit ==> !Retried(invoke(n))
  {
    if limit == 0 then 0
    else
      var m := FirstSettled(invoke, limit - 1);
      if m < limit - 1 then m else if Retried(invoke(limit - 1)) then limit else limit - 1
  }

  function Pow2(k: nat): (p: nat)
    ensures p >= 1
  {
    if k == 0 then 1 else 2 * Pow2(k - 1)
  }

  /** The delays slept after the first `n` rate-limited attempts: `init`, then doubling. */
  function Backoff(init: int, n: nat): (ds: seq<int>)
    ensures |ds| == n
    ensures forall k :: 0 <= k < n ==> ds[k] == init * Pow2(k)
  {
    seq(n, k requires 0 <= k < n => init * Pow2(k))
  }

  /** Each delay is twice the one before it. */
  lemma BackoffDoubles(init: int, n: nat, k: nat)
    requires k + 1 < n
    ensures Backoff(init, n)[k + 1] == 2 * Backoff(init, n)[k]
  {
  }

  /** The retry limit: a negative `max_retries` makes no attempt. */
  function Limit(maxRetries: int): nat {
    if maxRetries < 0 then 0 else maxRetries
  }

  /** What the retry loop returns over `limit` attempts: the completion or the
      error of the first attempt that is not rate-limited, or RuntimeError when
      every attempt is. */
  function RetryResult(invoke: nat -> Invocation, limit: nat): Result<Message, string> {
    var n := FirstSettled(invoke, limit);
    if n == limit then Err(RetriesExceeded)
    else if invoke(n).Completed? then Ok(invoke(n).message)
    else Err(Raised(invoke(n)))
  }

  /** How many attempts the retry loop makes over `limit` attempts. */
  function RetryAttempts(invoke: nat -> Invocation, limit: nat): nat {
    var n := FirstSettled(invoke, limit);
    if n < limit then n + 1 else limit
  }

  /** The retry loop: attempt `k` gets `invoke(k)`. A completion is returned,
      a rate limit sleeps and doubles the delay, any other error is re-raised
      at once; after `maxRetries` rate-limited attempts RuntimeError is raised.
      `slept` is the delays slept, in order. */
  method InvokeWithRetries(invoke: nat -> Invocation, maxRetries: int, initDelay: int)
    returns (r: Result<Message, string>, attempts: nat, slept: seq<int>)
    ensures var limit := if maxRetries < 0 then 0 else maxRetries;
      var n := FirstSettled(invoke, limit);
      && slept == Backoff(initDelay, n)
      && attempts == (if n < limit then n + 1 else limit)
      && (n == limit ==> r == Err(RetriesExceeded))
      && (n < limit && invoke(n).Completed? ==> r == Ok(invoke(n).message))
      && (n < limit && !invoke(n).Completed? ==> r == Err(Raised(invoke(n))))
    ensures r == RetryResult(invoke, Limit(maxRetries)) && attempts == RetryAttempts(invoke, Limit(maxRetries))
  {
    var limit: nat := if maxRetries < 0 then 0 else maxRetries;
    var delay := initDelay;
    slept := [];
    var attempt: nat := 0;
    while attempt < limit
      invariant attempt <= limit
      invariant forall k :: 0 <= k < attempt ==> Retried(invoke(k))
      invariant slept == Backoff(initDelay, attempt)
      invariant delay == initDelay * Pow2(attempt)
    {
      var inv := invoke(attempt);
      if !Retried(inv) {
        assert FirstSettled(invoke, limit) == attempt by { FirstSettledAt(invoke, limit, attempt); }
        attempts := attempt + 1;
        if inv.Completed? {
          return Ok(inv.message), attempts, slept;
        }
        return Err(Raised(inv)), attempts, slept;
      }
      slept := slept + [delay];
      delay := delay * 2;
      attempt := attempt + 1;
    }
    FirstSettledAt(invoke, limit, limit);
    attempts := limit;
    r := Err(RetriesExceeded);
  }

  /** The attempt the loop stops at is the first one that is not retried. */
  lemma FirstSettledAt(invoke: nat -> Invocation, limit: nat, n: nat)
    requires n <= limit
    requires forall k :: 0 <= k < n ==> Retried(invoke(k))
    requires n < limit ==> !Retried(invoke(n))
    ensures FirstSettled(invoke, limit) == n
  {
  }

  /** The backend's configuration. `seed`, `api_version`, `reasoning_effort`,
      the thinking settings, `max_tokens` and `extra_headers` are stored but
      not used by `inference`. */
  class LiteLLMBackend {
    const cfg: BackendConfig

    constructor(cfg: BackendConfig)
      ensures this.cfg == cfg
    {
      this.cfg := cfg;
    }

    /** `inference`. A list prompt is the caller's list: the system message is
        inserted into it in place, before the client is configured. */
    method Inference(input: Prompt, shared: MessageList, systemPrompt: Option<string>, tools: Option<seq<string>>,
                     env: map<string, string>, maxRetries: int, initDelay: int,
                     invoke: (Client, seq<Message>, nat) -> Invocation)
      returns (r: Result<Message, string>, attempts: nat)
      requires input.ListPrompt? ==> input.items == shared.items
      modifies shared
      ensures input.ListPrompt? && PromptMessages(input, systemPrompt).Ok? ==>
                shared.items == PromptMessages(input, systemPrompt).value
      ensures !(input.ListPrompt? && PromptMessages(input, systemPrompt).Ok?) ==> shared.items == old(shared.items)
      ensures PromptMessages(input, systemPrompt).Err? ==> r == Err(PromptMessages(input, systemPrompt).error) && attempts == 0
      ensures PromptMessages(input, systemPrompt).Ok? && SelectClient(cfg, env, tools).Err? ==>
                r == Err(SelectClient(cfg, env, tools).error) && attempts == 0
      ensures attempts <= if maxRetries < 0 then 0 else maxRetries
      ensures r.Ok? ==> PromptMessages(input, systemPrompt).Ok? && SelectClient(cfg, env, tools).Ok?
      ensures r.Ok? ==> exists k :: 0 <= k < attempts
                          && invoke(SelectClient(cfg, env, tools).value, PromptMessages(input, systemPrompt).value, k)
                             == Completed(r.value)
      ensures PromptMessages(input, systemPrompt).Ok? && SelectClient(cfg, env, tools).Ok? ==>
                var c := SelectClient(cfg, env, tools).value;
                var p := PromptMessages(input, systemPrompt).value;
                r == RetryResult((k: nat) => invoke(c, p, k), Limit(maxRetries))
                && attempts == RetryAttempts((k: nat) => invoke(c, p, k), Limit(maxRetries))
    {
      var prompt := PromptMessages(input, systemPrompt);
      if prompt.Err? {
        return Err(prompt.error), 0;
      }
      if input.ListPrompt? && input.items[0].HumanMsg? {
        shared.InsertFront(SystemMsg(systemPrompt.GetOr(DefaultSystemPrompt)));
      }
      r, attempts := Complete(prompt.value, tools, env, maxRetries, initDelay, invoke);
    }

    /** The second half of `inference`: configure the client of the chosen
        provider and invoke it on the prepared messages, with retries. */
    method Complete(p: seq<Message>, tools: Option<seq<string>>, env: map<string, string>, maxRetries: int,
                    initDelay: int, invoke: (Client, seq<Message>, nat) -> Invocation)
      returns (r: Result<Message, string>, attempts: nat)
      ensures SelectClient(cfg, env, tools).Err? ==> r == Err(SelectClient(cfg, env, tools).error) && attempts == 0
      ensures attempts <= if maxRetries < 0 then 0 else maxRetries
      ensures r.Ok? ==> SelectClient(cfg, env, tools).Ok?
      ensures r.Ok? ==> exists k :: 0 <= k < attempts && invoke(SelectClient(cfg, env, tools).value, p, k) == Completed(r.value)
      ensures SelectClient(cfg, env, tools).Ok? ==> var c := SelectClient(cfg, env, tools).value;
                r == RetryResult((k: nat) => invoke(c, p, k), Limit(maxRetries))
                && attempts == RetryAttempts((k: nat) => invoke(c, p, k), Limit(maxRetries))
    {
      var client := SelectClient(cfg, env, tools);
      if client.Err? {
        return Err(client.error), 0;
      }
      var c := client.value;
      var slept;
      r, attempts, slept := InvokeWithRetries((k: nat) => invoke(c, p, k), maxRetries, initDelay);
      if r.Ok? {
        assert invoke(c, p, attempts - 1) == Completed(r.value);
      }
    }
  }
}
