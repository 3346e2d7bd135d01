/** providers/openai.js: the single-request OpenAI client the consensus
    handlers use, with `chat` and the arbitrating `judge`. The reply to the
    one request each call makes is an input, and `JSON.parse` is an oracle
    `parse` that yields `None` where it would throw. */
module OpenAIJudge {
  import opened Wrappers
  import opened Text
  import opened Candidates

  /** The client: its API key (`None` when unset) and its model. */
  datatype OpenAI = OpenAI(key: Option<string>, model: string)

  /** The request sent to the chat completions endpoint. */
  datatype ChatRequest = ChatRequest(model: string, prompt: string, temperature: real)

  /** What the request produced: an HTTP reply (its status, its body as text
      and the first choice's message content), a 2xx reply whose body
      `resp.json()` cannot read or reads as `null` (the rejection's message),
      or a failed `fetch`. */
  datatype HttpOutcome =
    | Answered(status: int, body: string, content: Option<string>)
    | Unreadable(status: int, message: string)
    | Unreachable(message: string)

  /** A call: the request it sent, if any, and how it settled; a rejection
      carries the error's message. */
  datatype Call<T> = Call(request: Option<ChatRequest>, result: Result<T, string>)

  const KeyMissing := "OPENAI_API_KEY not configured"

  predicate IsOk(status: int) {
    200 <= status <= 299
  }

  /** The message of the error a non-ok reply is turned into. */
  function ApiError(status: int, body: string): string {
    "OpenAI API error (" + IntToString(status) + "): " + body
  }

  /** The single request both `chat` and `judge` make, and the message
      content it resolves to. */
  function Complete(p: OpenAI, prompt: string, temperature: real, reply: HttpOutcome): (c: Call<string>)
    requires Truthy(p.key)
    ensures c.request == Some(ChatRequest(p.model, prompt, temperature))
    ensures reply.Answered? && IsOk(reply.status) ==> c.result == Success(Or(reply.content, ""))
    ensures reply.Answered? && !IsOk(reply.status) ==> c.result == Failure(ApiError(reply.status, reply.body))
    ensures reply.Unreadable? ==> c.result == Failure(reply.message)
    ensures reply.Unreachable? ==> c.result == Failure(reply.message)
  {
    var request := ChatRequest(p.model, prompt, temperature);
    match reply
    case Unreachable(message) => Call(Some(request), Failure(message))
    case Unreadable(_, message) => Call(Some(request), Failure(message))
    case Answered(status, body, content) =>
      if !IsOk(status) then Call(Some(request), Failure(ApiError(status, body)))
      else Call(Some(request), Success(Or(content, "")))
  }

  /** `chat(prompt, opts)`: `temperature` is `opts.temperature`. */
  function Chat(p: OpenAI, prompt: string, temperature: Option<real>, reply: HttpOutcome): (c: Call<string>)
    ensures !Truthy(p.key) ==> c == Call(None, Failure(KeyMissing))
    ensures Truthy(p.key) ==> c.request.Some? && c.request.value.prompt == prompt
    ensures c.request.Some? && temperature.Some? ==> c.request.value.temperature == temperature.value
    ensures c.request.Some? && temperature.None? ==> c.request.value.temperature == 0.2
  {
    if !Truthy(p.key) then Call(None, Failure(KeyMissing))
    else Complete(p, prompt, temperature.GetOr(0.2), reply)
  }

  /** `?? 0.2` keeps an explicit temperature of 0. */
  lemma ChatKeepsZeroTemperature(p: OpenAI, prompt: string, reply: HttpOutcome)
    requires Truthy(p.key)
    ensures Chat(p, prompt, Some(0.0), reply).request.value.temperature == 0.0
  {
  }

  /** A reply without content resolves to the empty string. */
  lemma ChatEmptyContent(p: OpenAI, prompt: string, temperature: Option<real>, status: int, body: string)
    requires Truthy(p.key) && IsOk(status)
    ensures Chat(p, prompt, temperature, Answered(status, body, None)).result == Success("")
  {
  }

  /** What `judge` resolves to: the parsed JSON object, or the fallback.
      A field is `None` when the parsed object lacks it. */
  datatype Verdict = Verdict(final: Option<string>, reason: Option<string>, winner: Option<string>)

  /** The line of the judge prompt that presents one candidate. */
  function CandidateLine(c: Candidate): string {
    c.magiUnit + " (" + c.provider + "): " + (if c.outcome.Ok? then c.outcome.text else "[エラー]")
  }

  function CandidateLines(cs: seq<Candidate>): (r: seq<string>)
    ensures |r| == |cs| && forall i :: 0 <= i < |cs| ==> r[i] == CandidateLine(cs[i])
  {
    seq(|cs|, i requires 0 <= i < |cs| => CandidateLine(cs[i]))
  }

  const JudgeIntro := "あなたはMAGIシステムの仲裁者です。以下の3つのAI回答を評価し、最適な回答を選択または統合してください。\n\n【元の質問】"
  const JudgeListHeading := "\n\n【候補回答】\n"
  const JudgeInstructions :=
    "\n\n【タスク】最も適切な回答を選択するか、複数の回答を統合して最適な回答を生成してください。\n\n"
    + "【出力形式】必ず以下のJSON形式で回答:\n"
    + "{\"final\": \"最終回答\", \"reason\": \"選択または統合の理由\", \"winner\": \"選択したプロバイダー名（統合の場合は'integrated'）\"}"

  /** The prompt `judge` sends: the question, then one line per candidate in
      candidate order, separated by blank lines. */
  function JudgePrompt(originalPrompt: string, cs: seq<Candidate>): string {
    JudgeIntro + originalPrompt + JudgeListHeading + Join(CandidateLines(cs), "\n\n") + JudgeInstructions
  }

  /** Every candidate is presented, with its text when it is ok and with
      `[エラー]` otherwise, and the original question is quoted. */
  lemma JudgePromptPresentsAll(originalPrompt: string, cs: seq<Candidate>, i: nat)
    requires i < |cs|
    ensures Contains(JudgePrompt(originalPrompt, cs), CandidateLine(cs[i]))
    ensures Contains(JudgePrompt(originalPrompt, cs), originalPrompt)
  {
    var lines := Join(CandidateLines(cs), "\n\n");
    JoinContainsPart(CandidateLines(cs), "\n\n", i);
    TwoHoles(JudgeIntro, originalPrompt, JudgeListHeading, lines, JudgeInstructions, CandidateLine(cs[i]));
  }

  /** The verdict `judge` falls back to: the first ok candidate's text and
      provider, or `'No valid responses'` and `'none'`. */
  function Fallback(cs: seq<Candidate>): (v: Verdict)
    ensures v.reason == Some("Fallback to first valid response")
    ensures FirstOk(cs).Some? ==>
              v.final == Some(cs[FirstOk(cs).value].outcome.text) && v.winner == Some(cs[FirstOk(cs).value].provider)
    ensures FirstOk(cs).None? ==> v.final == Some("No valid responses") && v.winner == Some("none")
  {
    match FirstOk(cs)
    case Some(i) => Verdict(Some(cs[i].outcome.text), Some("Fallback to first valid response"), Some(cs[i].provider))
    case None => Verdict(Some("No valid responses"), Some("Fallback to first valid response"), Some("none"))
  }

  /** `judge(originalPrompt, candidates)`. */
  function Judge(p: OpenAI, originalPrompt: string, cs: seq<Candidate>, reply: HttpOutcome,
                 parse: string -> Option<Verdict>): (c: Call<Verdict>)
    ensures !Truthy(p.key) ==> c == Call(None, Failure(KeyMissing))
    ensures Truthy(p.key) ==> c.request == Some(ChatRequest(p.model, JudgePrompt(originalPrompt, cs), 0.3))
    ensures reply.Answered? && !IsOk(reply.status) && Truthy(p.key) ==>
              c.result == Failure(ApiError(reply.status, reply.body))
    ensures (reply.Unreadable? || reply.Unreachable?) && Truthy(p.key) ==> c.result == Failure(reply.message)
    ensures c.result.Success? ==> reply.Answered?
    ensures c.result.Success? && reply.Answered? ==>
              var content := Or(reply.content, "");
              || (JsonSpan(content).Some? && parse(JsonSpan(content).value) == Some(c.result.value))
              || ((JsonSpan(content).None? || parse(JsonSpan(content).value).None?) && c.result.value == Fallback(cs))
  {
    if !Truthy(p.key) then Call(None, Failure(KeyMissing))
    else
      var sent := Complete(p, JudgePrompt(originalPrompt, cs), 0.3, reply);
      match sent.result
      case Failure(e) => Call(sent.request, Failure(e))
      case Success(content) =>
        var span := JsonSpan(content);
        if span.Some? && parse(span.value).Some? then Call(sent.request, Success(parse(span.value).value))
        else Call(sent.request, Success(Fallback(cs)))
  }

  /** Once the request is answered with a 2xx status and a readable body,
      `judge` never rejects: a reply without a `{…}` span, or whose span does
      not parse, yields the fallback verdict. The body is read outside the
      `try`, so an unreadable one still rejects (`JudgeRejectsUnreadable`). */
  lemma JudgeFallsBack(p: OpenAI, originalPrompt: string, cs: seq<Candidate>, status: int, body: string,
                       content: Option<string>, parse: string -> Option<Verdict>)
    requires Truthy(p.key) && IsOk(status)
    ensures Judge(p, originalPrompt, cs, Answered(status, body, content), parse).result.Success?
    ensures var text := Or(content, "");
            JsonSpan(text).None? || parse(JsonSpan(text).value).None? ==>
              Judge(p, originalPrompt, cs, Answered(status, body, content), parse).result == Success(Fallback(cs))
  {
  }

  /** A 2xx reply whose body cannot be read rejects `judge` with the
      reading error: the fallback is only reached from inside the `try`. */
  lemma JudgeRejectsUnreadable(p: OpenAI, originalPrompt: string, cs: seq<Candidate>, status: int, message: string,
                               parse: string -> Option<Verdict>)
    requires Truthy(p.key) && IsOk(status)
    ensures Judge(p, originalPrompt, cs, Unreadable(status, message), parse).result == Failure(message)
    ensures Judge(p, originalPrompt, cs, Unreadable(status, message), parse).result != Success(Fallback(cs))
  {
  }

  /** With no ok candidate the fallback has nothing to adopt. */
  lemma FallbackWithoutValid(cs: seq<Candidate>)
    requires forall k :: 0 <= k < |cs| ==> !cs[k].outcome.Ok?
    ensures Fallback(cs) == Verdict(Some("No valid responses"), Some("Fallback to first valid response"), Some("none"))
  {
  }
}
