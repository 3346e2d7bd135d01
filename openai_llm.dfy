/** providers/llm/openai.js: the OpenAI provider built on the base provider
    and the retry policy. Each call of `fetch` is an input: `fetches(a)` is
    what the request of attempt `a` produced. The clock is an input too. */
module OpenAILlm {
  import opened Wrappers
  import opened Text
  import Retry
  import BaseProvider

  /** The configuration read from the environment at construction. */
  datatype Config = Config(model: string, timeout: int, maxRetries: int)

  /** The provider: its API key (`None` when unset) and its configuration. */
  datatype OpenAI = OpenAI(key: Option<string>, config: Config)

  /** The constructor. Each environment value is `None` when the variable is
      unset or empty; a number is given as the value `parseInt` reads. */
  function Construct(model: Option<string>, timeoutMs: Option<int>, maxRetries: Option<int>, key: Option<string>): (p: OpenAI)
    ensures p.key == key
    ensures p.config.model != ""
    ensures Truthy(model) ==> p.config.model == model.value
    ensures !Truthy(model) ==> p.config.model == "gpt-4o-mini"
    ensures timeoutMs.Some? ==> p.config.timeout == timeoutMs.value
    ensures timeoutMs.None? ==> p.config.timeout == 30000
    ensures maxRetries.Some? ==> p.config.maxRetries == maxRetries.value
    ensures maxRetries.None? ==> p.config.maxRetries == 3
  {
    OpenAI(key, Config(Or(model, "gpt-4o-mini"), timeoutMs.GetOr(30000), maxRetries.GetOr(3)))
  }

  /** The same provider seen through the base interface. */
  function AsBase(p: OpenAI): BaseProvider.Provider {
    BaseProvider.Provider("openai", Some(p.config.model))
  }

  /** `isConfigured()`: the key is truthy. */
  predicate IsConfigured(p: OpenAI) {
    Truthy(p.key)
  }

  /** `options.maxRetries`: not given, given as `null`, or a number. */
  datatype RetriesOption = Undefined | Null | Count(n: int)

  /** The options of `send`; `None` is a property that is not given. */
  datatype SendOptions = SendOptions(timeout: Option<int>, maxRetries: RetriesOption, temperature: Option<real>)

  /** `Math.min(Math.max(options.timeout || config.timeout, 1000), 300000)`. */
  function EffectiveTimeout(p: OpenAI, opts: SendOptions): (t: int)
    ensures 1000 <= t <= 300000
    ensures var requested := if BaseProvider.TruthyNumber(opts.timeout) then opts.timeout.value else p.config.timeout;
      && (1000 <= requested <= 300000 ==> t == requested)
      && (requested < 1000 ==> t == 1000)
      && (requested > 300000 ==> t == 300000)
  {
    var requested := if BaseProvider.TruthyNumber(opts.timeout) then opts.timeout.value else p.config.timeout;
    Retry.Min(if requested >= 1000 then requested else 1000, 300000)
  }

  /** The attempt budget `retry` sees: `options.maxRetries` whenever it is
      not `undefined` (0 included), else the configured value. A `null` is
      passed on as it is, and `attempt < null` compares with 0, so it allows
      no attempt at all. */
  function EffectiveMaxRetries(p: OpenAI, opts: SendOptions): (n: int)
    ensures opts.maxRetries.Count? ==> n == opts.maxRetries.n
    ensures opts.maxRetries.Null? ==> n == 0
    ensures opts.maxRetries.Undefined? ==> n == p.config.maxRetries
  {
    match opts.maxRetries
    case Undefined => p.config.maxRetries
    case Null => 0
    case Count(n) => n
  }

  /** The retry options `send` passes: `maxRetries` is used as the number of
      attempts, the delays run from 1 s to 10 s with jitter, and only
      retryable errors are retried. */
  function Policy(maxAttempts: int): Retry.RetryOptions<Retry.ErrorInfo> {
    Retry.RetryOptions(maxAttempts, 1000, 10000, true, Some(Retry.IsRetryableError))
  }

  /** The HTTP reply to a chat completion request. */
  datatype Reply = Reply(status: int, content: Option<string>, completionTokens: Option<int>, usage: Option<BaseProvider.Record>)

  /** What one `fetch` produced: a reply, or a thrown error (an abort, by the
      timer or by the caller's signal, is an error named `AbortError`). */
  datatype Fetched = Answered(reply: Reply) | Threw(error: Retry.ErrorInfo)

  /** What `_makeRequest` resolves to. */
  datatype RequestResult = RequestResult(text: string, tokens: Option<int>, usage: Option<BaseProvider.Record>, model: string)

  /** The error thrown for a non-ok reply: it carries the status. */
  function HttpError(status: int): Retry.ErrorInfo {
    Retry.ErrorInfo("Error", Some("OpenAI API error: " + IntToString(status)), None, Some(status), None)
  }

  /** The error an abort is rewritten to. */
  function TimeoutError(timeout: int): Retry.ErrorInfo {
    Retry.ErrorInfo("Error", Some("Request timeout after " + IntToString(timeout) + "ms"), None, None, None)
  }

  /** `resp.ok`: a 2xx status. */
  predicate IsOk(status: int) {
    200 <= status <= 299
  }

  /** `_makeRequest`, given what `fetch` produced. */
  function MakeRequest(p: OpenAI, timeout: int, f: Fetched): (r: Result<RequestResult, Retry.ErrorInfo>)
    ensures f.Answered? && IsOk(f.reply.status) ==>
              r.Success? && r.value.text == Or(f.reply.content, "") && r.value.model == p.config.model
    ensures f.Answered? && !IsOk(f.reply.status) ==> r == Failure(HttpError(f.reply.status))
    ensures f.Threw? && f.error.name == "AbortError" ==> r == Failure(TimeoutError(timeout))
    ensures f.Threw? && f.error.name != "AbortError" ==> r == Failure(f.error)
  {
    match f
    case Answered(reply) =>
      if !IsOk(reply.status) then Failure(HttpError(reply.status))
      else
        Success(RequestResult(
          Or(reply.content, ""),
          if BaseProvider.TruthyNumber(reply.completionTokens) then reply.completionTokens else None,
          reply.usage,
          p.config.model))
    case Threw(e) =>
      if e.name == "AbortError" then Failure(TimeoutError(timeout)) else Failure(e)
  }

  /** The function `retry` is given: attempt `a` makes the request whose
      outcome is `fetches(a)`. */
  function Attempts(p: OpenAI, timeout: int, fetches: nat -> Fetched): nat -> Result<RequestResult, Retry.ErrorInfo> {
    (a: nat) => MakeRequest(p, timeout, fetches(a))
  }

  /** How `send` rejects: the key check throws before the `try`; every other
      failure goes through `_enhanceError`, which itself throws a `TypeError`
      when `retry` threw `null`. */
  datatype SendError =
    | NotConfigured(message: string)
    | Enhanced(error: BaseProvider.EnhancedError)
    | NullTypeError

  const KeyMissing := "OPENAI_API_KEY not configured"

  /** A call of `send`: its settlement, the number of requests made and the
      retries announced to `onRetry`. */
  datatype SendRun = SendRun(
    result: Result<BaseProvider.Response, SendError>,
    requests: nat,
    retries: seq<Retry.RetryEvent<Retry.ErrorInfo>>)

  /** `send(prompt, options)`; `elapsedMs` stands for the measured latency. */
  function Send(p: OpenAI, prompt: string, opts: SendOptions, fetches: nat -> Fetched,
                rand: nat -> real, elapsedMs: int): (r: SendRun)
    requires forall a :: 0.0 <= rand(a) < 1.0
    ensures !IsConfigured(p) ==> r == SendRun(Failure(NotConfigured(KeyMissing)), 0, [])
    ensures r.result.Success? ==> r.requests >= 1 && r.result.value.model != ""
    ensures r.result.Failure? && r.result.error.Enhanced? ==>
              r.result.error.error.provider == "openai" && StartsWith(r.result.error.error.message, "[openai] ")
    ensures IsConfigured(p) ==> r.requests <= if EffectiveMaxRetries(p, opts) > 0 then EffectiveMaxRetries(p, opts) else 0
    ensures r.result.Success? ==>
              && r.requests >= 1
              && fetches(r.requests - 1).Answered? && IsOk(fetches(r.requests - 1).reply.status)
              && r.result.value.text == Or(fetches(r.requests - 1).reply.content, "")
    ensures r.result.Failure? && r.result.error.Enhanced? ==>
              && r.requests >= 1
              && MakeRequest(p, EffectiveTimeout(p, opts), fetches(r.requests - 1))
                 == Failure(r.result.error.error.originalError)
  {
    if !IsConfigured(p) then SendRun(Failure(NotConfigured(KeyMissing)), 0, [])
    else
      var timeout := EffectiveTimeout(p, opts);
      var maxAttempts := EffectiveMaxRetries(p, opts);
      var run := Retry.Run(Attempts(p, timeout, fetches), Policy(maxAttempts), rand);
      Retry.RunCalls(Attempts(p, timeout, fetches), Policy(maxAttempts), rand);
      match run.result
      case Returned(v) =>
        var meta := BaseProvider.Metadata(v.tokens, v.usage, Some(v.model), Some(elapsedMs), Some(map["provider" := "openai"]));
        SendRun(Success(BaseProvider.FormatResponse(AsBase(p), Some(v.text), meta)), run.calls, run.retries)
      case Rethrown(e) =>
        SendRun(Failure(Enhanced(BaseProvider.EnhanceError(AsBase(p), e, prompt))), run.calls, run.retries)
      case ThrewNull =>
        SendRun(Failure(NullTypeError), run.calls, run.retries)
  }

  /** `chat(prompt, opts)`: the `text` of what `send` resolves to. */
  function Chat(p: OpenAI, prompt: string, opts: SendOptions, fetches: nat -> Fetched,
                rand: nat -> real, elapsedMs: int): (r: Result<string, SendError>)
    requires forall a :: 0.0 <= rand(a) < 1.0
    ensures !IsConfigured(p) ==> r == Failure(NotConfigured(KeyMissing))
    ensures var s := Send(p, prompt, opts, fetches, rand, elapsedMs).result;
      && (s.Success? ==> r == Success(s.value.text))
      && (s.Failure? ==> r == Failure(s.error))
  {
    if !IsConfigured(p) then Failure(NotConfigured(KeyMissing))
    else
      match Send(p, prompt, opts, fetches, rand, elapsedMs).result
      case Success(resp) => Success(resp.text)
      case Failure(e) => Failure(e)
  }

  /** A non-ok reply is retried exactly when its status is 429 or a server
      error: the message it carries never mentions `timeout`. */
  lemma HttpErrorRetryable(status: int)
    ensures Retry.IsRetryableError(HttpError(status)) <==> status == 429 || status >= 500
  {
    var m := "OpenAI API error: " + IntToString(status);
    assert forall k :: 0 <= k < |m| ==> m[k] != 't';
    AbsentFirstChar(m, "timeout");
    Retry.StatusDecidesRetry(HttpError(status), status);
  }

  /** An abort becomes an error whose message mentions `timeout`, so it is retried. */
  lemma TimeoutRetryable(timeout: int)
    ensures Retry.IsRetryableError(TimeoutError(timeout))
  {
    ContainsInfix("Request ", "timeout", " after " + IntToString(timeout) + "ms");
    assert "Request timeout after " + IntToString(timeout) + "ms"
        == "Request " + "timeout" + (" after " + IntToString(timeout) + "ms");
  }

  /** A reply of 2xx on the first attempt: one request, no retry, and `send`
      resolves to the reply's content (or `''`) under the configured model. */
  lemma SendFirstReplyOk(p: OpenAI, prompt: string, opts: SendOptions, fetches: nat -> Fetched,
                         rand: nat -> real, elapsedMs: int)
    requires forall a :: 0.0 <= rand(a) < 1.0
    requires IsConfigured(p) && EffectiveMaxRetries(p, opts) >= 1 && p.config.model != ""
    requires fetches(0).Answered? && IsOk(fetches(0).reply.status)
    ensures var r := Send(p, prompt, opts, fetches, rand, elapsedMs);
      && r.requests == 1 && r.retries == []
      && r.result.Success?
      && r.result.value.text == Or(fetches(0).reply.content, "")
      && r.result.value.model == p.config.model
  {
  }

  /** A client error other than 429 on the first attempt is not retried: one
      request, and the enhanced error wraps the error carrying the status. */
  lemma SendClientErrorNotRetried(p: OpenAI, prompt: string, opts: SendOptions, fetches: nat -> Fetched,
                                  rand: nat -> real, elapsedMs: int)
    requires forall a :: 0.0 <= rand(a) < 1.0
    requires IsConfigured(p) && EffectiveMaxRetries(p, opts) >= 1
    requires fetches(0).Answered? && 400 <= fetches(0).reply.status < 500 && fetches(0).reply.status != 429
    ensures var r := Send(p, prompt, opts, fetches, rand, elapsedMs);
      && r.requests == 1 && r.retries == []
      && r.result.Failure? && r.result.error.Enhanced?
      && r.result.error.error.originalError == HttpError(fetches(0).reply.status)
  {
    HttpErrorRetryable(fetches(0).reply.status);
  }

  /** When every request answers with a server error, `send` makes exactly
      `maxRetries` requests and rejects with the last one's status. */
  lemma SendServerErrorsExhaust(p: OpenAI, prompt: string, opts: SendOptions, fetches: nat -> Fetched,
                                rand: nat -> real, elapsedMs: int)
    requires forall a :: 0.0 <= rand(a) < 1.0
    requires IsConfigured(p) && EffectiveMaxRetries(p, opts) >= 1
    requires forall a :: 0 <= a < EffectiveMaxRetries(p, opts) ==>
               fetches(a).Answered? && fetches(a).reply.status >= 500
    ensures var r := Send(p, prompt, opts, fetches, rand, elapsedMs);
      && r.requests == EffectiveMaxRetries(p, opts)
      && |r.retries| == EffectiveMaxRetries(p, opts) - 1
      && r.result.Failure? && r.result.error.Enhanced?
      && r.result.error.error.originalError == HttpError(fetches(EffectiveMaxRetries(p, opts) - 1).reply.status)
  {
    var timeout := EffectiveTimeout(p, opts);
    var fn := Attempts(p, timeout, fetches);
    var policy := Policy(EffectiveMaxRetries(p, opts));
    forall k | 0 <= k < policy.maxAttempts
      ensures fn(k).Failure? && Retry.Allows(policy, fn(k).error)
    {
      HttpErrorRetryable(fetches(k).reply.status);
    }
    Retry.RetryExhausted(fn, policy, rand);
  }

  /** `maxRetries: 0` (or less, or `null`) makes no request at all: `retry`
      throws `null`, and `_enhanceError` fails reading its message. */
  lemma SendWithoutAttempts(p: OpenAI, prompt: string, opts: SendOptions, fetches: nat -> Fetched,
                            rand: nat -> real, elapsedMs: int)
    requires forall a :: 0.0 <= rand(a) < 1.0
    requires IsConfigured(p) && EffectiveMaxRetries(p, opts) <= 0
    ensures Send(p, prompt, opts, fetches, rand, elapsedMs) == SendRun(Failure(NullTypeError), 0, [])
  {
  }

  /** `options.maxRetries: null` overrides the configuration like a number
      does: whatever `OPENAI_MAX_RETRIES` says, no request is made. */
  lemma SendWithNullRetries(p: OpenAI, prompt: string, opts: SendOptions, fetches: nat -> Fetched,
                            rand: nat -> real, elapsedMs: int)
    requires forall a :: 0.0 <= rand(a) < 1.0
    requires IsConfigured(p) && opts.maxRetries.Null?
    ensures Send(p, prompt, opts, fetches, rand, elapsedMs) == SendRun(Failure(NullTypeError), 0, [])
  {
    SendWithoutAttempts(p, prompt, opts, fetches, rand, elapsedMs);
  }
}
