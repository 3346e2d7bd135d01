/** providers/base.js: the provider interface every LLM provider extends,
    with its response and error normalisation. A provider never changes after
    construction, so it is a value. */
module BaseProvider {
  import opened Wrappers
  import opened Text
  import Retry

  /** A provider as constructed: its `name` and the `model` of its `config`. */
  datatype Provider = Provider(name: string, configModel: Option<string>)

  /** An object-valued property (`usage`, `debug`): any object is truthy. */
  type Record = map<string, string>

  /** The `metadata` argument of `_formatResponse`; `None` is a missing property. */
  datatype Metadata = Metadata(
    tokens: Option<int>,
    usage: Option<Record>,
    model: Option<string>,
    latency: Option<int>,
    debug: Option<Record>)

  /** `_formatResponse` called without metadata. */
  const NoMetadata := Metadata(None, None, None, None, None)

  /** The standardized response of a provider. */
  datatype Response = Response(
    text: string,
    tokens: Option<int>,
    usage: Option<Record>,
    model: string,
    latency: int,
    debug: Record)

  /** A number is truthy iff it is present and not 0. */
  predicate TruthyNumber(n: Option<int>) {
    n.Some? && n.value != 0
  }

  /** `_formatResponse(text, metadata)`: every field falls back through `||`. */
  function FormatResponse(p: Provider, text: Option<string>, meta: Metadata): (r: Response)
    ensures r.text == (if Truthy(text) then text.value else "")
    ensures r.tokens == (if TruthyNumber(meta.tokens) then meta.tokens else None)
    ensures r.usage == meta.usage
    ensures r.model != ""
    ensures Truthy(meta.model) ==> r.model == meta.model.value
    ensures !Truthy(meta.model) && Truthy(p.configModel) ==> r.model == p.configModel.value
    ensures !Truthy(meta.model) && !Truthy(p.configModel) ==> r.model == "unknown"
    ensures r.latency == (if TruthyNumber(meta.latency) then meta.latency.value else 0)
    ensures r.debug == (if meta.debug.Some? then meta.debug.value else map[])
  {
    Response(
      Or(text, ""),
      if TruthyNumber(meta.tokens) then meta.tokens else None,
      meta.usage,
      Or(meta.model, Or(p.configModel, "unknown")),
      if TruthyNumber(meta.latency) then meta.latency.value else 0,
      meta.debug.GetOr(map[]))
  }

  /** A response's own fields, handed back as metadata. */
  function MetadataOf(r: Response): Metadata {
    Metadata(r.tokens, r.usage, Some(r.model), Some(r.latency), Some(r.debug))
  }

  /** Without metadata: `tokens` and `usage` are null, `latency` is 0, `debug`
      is empty, and `model` is the configured model or `'unknown'`. */
  lemma FormatResponseDefaults(p: Provider, text: string)
    ensures var r := FormatResponse(p, Some(text), NoMetadata);
      && r.text == text
      && r.tokens.None? && r.usage.None? && r.latency == 0 && r.debug == map[]
      && r.model == (if Truthy(p.configModel) then p.configModel.value else "unknown")
  {
  }

  /** A token count of 0 is reported as null, like a missing one. */
  lemma ZeroTokensBecomeNull(p: Provider, text: Option<string>, meta: Metadata)
    requires meta.tokens == Some(0)
    ensures FormatResponse(p, text, meta).tokens.None?
  {
  }

  /** A formatted response is a fixed point: formatting it again, with its own
      fields as metadata, gives it back unchanged. */
  lemma FormatResponseIdempotent(p: Provider, q: Provider, text: Option<string>, meta: Metadata)
    ensures var r := FormatResponse(p, text, meta);
            FormatResponse(q, Some(r.text), MetadataOf(r)) == r
  {
  }

  /** The error `_enhanceError` builds; `timestamp` and the latency of the
      context come from the clock and are not modelled. */
  datatype EnhancedError = EnhancedError(
    message: string,
    originalError: Retry.ErrorInfo,
    provider: string,
    prompt: string)

  /** The prefix `[name] ` that marks an error as coming from a provider. */
  function Tag(name: string): string {
    "[" + name + "] "
  }

  /** `_enhanceError(error, { prompt, ... })` for a non-null `error`. */
  function EnhanceError(p: Provider, e: Retry.ErrorInfo, prompt: string): (r: EnhancedError)
    ensures StartsWith(r.message, Tag(p.name))
    ensures r.originalError == e && r.provider == p.name && r.prompt == prompt
    ensures |r.message| > |Tag(p.name)|
  {
    EnhancedError(Tag(p.name) + Or(e.message, "Unknown error"), e, p.name, prompt)
  }

  /** The original message is what follows the provider tag; a missing or
      empty one reads `Unknown error`. */
  lemma EnhanceErrorKeepsMessage(p: Provider, e: Retry.ErrorInfo, prompt: string)
    ensures var r := EnhanceError(p, e, prompt);
      && (Truthy(e.message) ==> r.message[|Tag(p.name)|..] == e.message.value)
      && (!Truthy(e.message) ==> r.message[|Tag(p.name)|..] == "Unknown error")
  {
  }

  /** The error the default `send` throws before it is enhanced. */
  function NotImplemented(p: Provider): Retry.ErrorInfo {
    Retry.ErrorInfo("Error", Some("send() not implemented in " + p.name), None, None, None)
  }

  /** The default `send`: it always rejects, with an enhanced error that
      names the provider and says that `send()` is not implemented. */
  function Send(p: Provider, prompt: string): (r: Result<Response, EnhancedError>)
    ensures r.Failure?
    ensures StartsWith(r.error.message, Tag(p.name))
    ensures Contains(r.error.message, "send() not implemented")
    ensures Contains(r.error.message, p.name)
    ensures r.error.provider == p.name
  {
    var m := "send() not implemented in " + p.name;
    assert Or(Some(m), "Unknown error") == m;
    NotImplementedMessage(p.name);
    Failure(EnhanceError(p, NotImplemented(p), prompt))
  }

  lemma NotImplementedMessage(name: string)
    ensures var msg := Tag(name) + ("send() not implemented in " + name);
            Contains(msg, "send() not implemented") && Contains(msg, name)
  {
    var msg := Tag(name) + ("send() not implemented in " + name);
    var head := "send() not implemented";
    assert msg == Tag(name) + head + (" in " + name);
    ContainsInfix(Tag(name), head, " in " + name);
    assert msg == "[" + name + ("] " + "send() not implemented in " + name);
    ContainsInfix("[", name, "] " + "send() not implemented in " + name);
  }

  /** `isConfigured()` by default. */
  function IsConfigured(p: Provider): bool {
    true
  }

  /** `getName()`. */
  function GetName(p: Provider): string {
    p.name
  }

  /** A provider built with `name` is configured by default and reports `name`. */
  lemma DefaultIdentity(name: string, configModel: Option<string>)
    ensures IsConfigured(Provider(name, configModel))
    ensures GetName(Provider(name, configModel)) == name
  {
  }
}
