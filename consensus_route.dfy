/** consensus-route.js: the version 2.1 `/api/consensus` handler, with its
    hard-coded agreement ratio and its consensus / integration / synthesis
    branch chain. The settled provider calls and the OpenAI reply are inputs. */
module ConsensusRoute {
  import opened Wrappers
  import opened Text
  import opened Candidates
  import opened CaughtCandidates
  import OpenAIJudge

  /** `${results[i].error ? '(エラー)' : results[i]}`. */
  function Present(v: JsValue): string {
    if Failed(v) then "(エラー)" else Interpolate(v)
  }

  const IntegrationIntro := "\n以下の3つのAIの回答を分析し、最も適切な統合回答を生成してください。\n\n【Grok (BALTHASAR-2 - 創造性重視)】\n"
  const IntegrationGemini := "\n\n【Gemini (MELCHIOR-1 - 論理性重視)】\n"
  const IntegrationClaude := "\n\n【Claude (CASPER-3 - 人間性重視)】\n"
  const IntegrationInstructions := "\n\n【統合回答の指示】\n- 3つの視点を融合させる\n- 最も信頼性が高い情報を優先\n- 異なる観点がある場合は、その理由も含める\n"

  /** The `judgePrompt` of the integration branch. */
  function IntegrationPrompt(slots: seq<JsValue>): string
    requires |slots| == |Units|
  {
    IntegrationIntro + Present(slots[0]) + IntegrationGemini + Present(slots[1])
    + IntegrationClaude + Present(slots[2]) + IntegrationInstructions
  }

  const SynthesisIntro := "\n【創発的統合分析】\n\n3つのAIの視点：\n\n創造性（Grok）: "
  const SynthesisGemini := "\n論理性（Gemini）: "
  const SynthesisClaude := "\n人間性（Claude）: "
  const SynthesisInstructions := "\n\nこれらを統合して、新しい視点や洞察を生み出してください。\n異なる視点の相乗効果を引き出すこと。\n"

  /** The `synthesisPrompt` of the synthesis branch. */
  function SynthesisPrompt(slots: seq<JsValue>): string
    requires |slots| == |Units|
  {
    SynthesisIntro + Present(slots[0]) + SynthesisGemini + Present(slots[1])
    + SynthesisClaude + Present(slots[2]) + SynthesisInstructions
  }

  /** Every slot is shown in the integration prompt: its text, or
      `(エラー)` for a failed call. */
  lemma IntegrationPromptPresentsAll(slots: seq<JsValue>, i: nat)
    requires |slots| == |Units| && i < |slots|
    ensures Contains(IntegrationPrompt(slots), Present(slots[i]))
  {
    ThreeHoles(IntegrationIntro, Present(slots[0]), IntegrationGemini, Present(slots[1]),
               IntegrationClaude, Present(slots[2]), IntegrationInstructions);
  }

  /** A template with three holes contains what fills each of them. */
  lemma ThreeHoles(a: string, x: string, b: string, y: string, c: string, z: string, d: string)
    ensures var t := a + x + b + y + c + z + d;
            Contains(t, x) && Contains(t, y) && Contains(t, z)
  {
    var t := a + x + b + y + c + z + d;
    assert t == a + x + (b + y + c + z + d);
    ContainsInfix(a, x, b + y + c + z + d);
    assert t == (a + x + b) + y + (c + z + d);
    ContainsInfix(a + x + b, y, c + z + d);
    assert t == (a + x + b + y + c) + z + d;
    ContainsInfix(a + x + b + y + c, z, d);
  }

  /** The `final` a GPT branch ends with: the reply, or the failure message
      behind a fixed prefix (the `.catch` never rethrows). */
  function Settle(result: Result<string, string>, prefix: string): (final: string)
    ensures result.Success? ==> final == result.value
    ensures result.Failure? ==> StartsWith(final, prefix) && final[|prefix|..] == result.error
  {
    match result
    case Success(text) => text
    case Failure(message) => prefix + message
  }

  /** The parameters the three provider calls are made with (`timeout_ms` is
      computed but never passed on). */
  datatype FanOut = FanOut(prompt: string, temperature: real)

  datatype RouteReply =
    | BadRequest(error: string)
    | Answer(
        final: JsValue,
        mode: string,
        judgeMethod: string,
        candidates: seq<Entry>,
        agreementRatio: real,
        validResponses: nat)

  /** The number of valid responses of a request. */
  function ValidCount(results: seq<Settled<string>>): nat
    requires |results| == |Units|
  {
    |ValidEntries(Entries(Slots(results)))|
  }

  /** `POST /api/consensus`. */
  method Consensus(prompt: Option<string>, meta: Meta, results: seq<Settled<string>>,
                   openai: OpenAIJudge.OpenAI, reply: OpenAIJudge.HttpOutcome)
    returns (r: RouteReply, fanOut: Option<FanOut>, request: Option<OpenAIJudge.ChatRequest>)
    requires |results| == |Units|
    ensures !Truthy(prompt) ==> r == BadRequest("prompt required") && fanOut.None? && request.None?
    ensures Truthy(prompt) ==>
      && fanOut == Some(FanOut(prompt.value, meta.temperature.GetOr(0.2)))
      && r.Answer?
      && r.mode == Or(meta.mode, "consensus")
      && r.candidates == Entries(Slots(results))
      && r.agreementRatio == HardCodedRatio(ValidCount(results))
      && r.validResponses == ValidCount(results)
    ensures Truthy(prompt) && ValidCount(results) == 0 ==>
      r.final == Str(AllFailed) && r.judgeMethod == "error" && request.None?
    ensures Truthy(prompt) && ValidCount(results) >= 2 && Or(meta.mode, "consensus") == "consensus" ==>
      && r.final == ValidEntries(Entries(Slots(results)))[0].text
      && r.judgeMethod == "consensus_adopted" && request.None?
    ensures Truthy(prompt) && ValidCount(results) > 0
            && (ValidCount(results) == 1 || Or(meta.mode, "consensus") == "integration") ==>
      var call := OpenAIJudge.Chat(openai, IntegrationPrompt(Slots(results)), Some(0.3), reply);
      && request == call.request
      && r.final == Str(Settle(call.result, "統合エラー: "))
      && r.judgeMethod == "integration"
    ensures Truthy(prompt) && ValidCount(results) >= 2 && Or(meta.mode, "consensus") == "synthesis" ==>
      var call := OpenAIJudge.Chat(openai, SynthesisPrompt(Slots(results)), Some(0.7), reply);
      && request == call.request
      && r.final == Str(Settle(call.result, "創発エラー: "))
      && r.judgeMethod == "synthesis"
    ensures Truthy(prompt) && ValidCount(results) >= 2
            && Or(meta.mode, "consensus") !in {"consensus", "integration", "synthesis"} ==>
      r.final == Str(AllFailed) && r.judgeMethod == "error" && request.None?
  {
    if !Truthy(prompt) {
      return BadRequest("prompt required"), None, None;
    }
    var mode := Or(meta.mode, "consensus");
    var temperature := meta.temperature.GetOr(0.2);
    fanOut := Some(FanOut(prompt.value, temperature));
    var slots := Slots(results);
    var candidates := Entries(slots);
    var validResponses := ValidEntries(candidates);
    var final := Str(AllFailed);
    var judgeMethod := "error";
    request := None;
    if |validResponses| > 0 {
      var agreementRatio := HardCodedRatio(|validResponses|);
      if mode == "consensus" && agreementRatio >= 0.66 {
        final := validResponses[0].text;
        judgeMethod := "consensus_adopted";
      } else if mode == "integration" || agreementRatio < 0.66 {
        var call := OpenAIJudge.Chat(openai, IntegrationPrompt(slots), Some(0.3), reply);
        request := call.request;
        final := Str(Settle(call.result, "統合エラー: "));
        judgeMethod := "integration";
      } else if mode == "synthesis" {
        var call := OpenAIJudge.Chat(openai, SynthesisPrompt(slots), Some(0.7), reply);
        request := call.request;
        final := Str(Settle(call.result, "創発エラー: "));
        judgeMethod := "synthesis";
      }
    }
    r := Answer(final, mode, judgeMethod, candidates, HardCodedRatio(|validResponses|), |validResponses|);
  }
}
