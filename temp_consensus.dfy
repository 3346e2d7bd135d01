/** temp_consensus.js: the simpler version 2.1 `/api/consensus` handler. It
    adopts the first valid text in `consensus` mode, asks GPT in the other two
    modes, and does not catch a failed GPT call. */
module TempConsensus {
  import opened Wrappers
  import opened Text
  import opened Candidates
  import opened CaughtCandidates
  import OpenAIJudge

  /** The `prompt2` of the integration branch: each slot as `${results[i]}`,
      so a failed call reads `[object Object]`. */
  function IntegrationPrompt(slots: seq<JsValue>): string
    requires |slots| == |Units|
  {
    "3つのAI意見を統合してください：Grok:" + Interpolate(slots[0])
    + " Gemini:" + Interpolate(slots[1]) + " Claude:" + Interpolate(slots[2])
  }

  /** The `prompt2` of the synthesis branch. */
  function SynthesisPrompt(slots: seq<JsValue>): string
    requires |slots| == |Units|
  {
    "3つのAI意見を創発的に統合してください：Grok:" + Interpolate(slots[0])
    + " Gemini:" + Interpolate(slots[1]) + " Claude:" + Interpolate(slots[2])
  }

  /** The error message of a failed slot never reaches the GPT prompt: the
      slot is interpolated as an object. */
  lemma FailedSlotHidden(results: seq<Settled<string>>, i: nat)
    requires |results| == |Units| && i < |results| && results[i].Rejected?
    ensures Interpolate(Slots(results)[i]) == "[object Object]"
  {
  }

  datatype TempReply =
    | BadRequest(error: string)
    | ServerError(message: string)
    | Answer(
        final: JsValue,
        mode: string,
        judgeMethod: string,
        candidates: seq<Entry>,
        agreementRatio: real,
        validResponses: nat)

  function ValidCount(results: seq<Settled<string>>): nat
    requires |results| == |Units|
  {
    |ValidEntries(Entries(Slots(results)))|
  }

  /** `POST /api/consensus`; `temperature` is what the providers are called with. */
  method Consensus(prompt: Option<string>, meta: Meta, results: seq<Settled<string>>,
                   openai: OpenAIJudge.OpenAI, reply: OpenAIJudge.HttpOutcome)
    returns (r: TempReply, temperature: Option<real>, request: Option<OpenAIJudge.ChatRequest>)
    requires |results| == |Units|
    ensures !Truthy(prompt) ==> r == BadRequest("prompt required") && temperature.None? && request.None?
    ensures Truthy(prompt) ==> temperature == Some(meta.temperature.GetOr(0.2))
    ensures r.Answer? ==>
      && r.mode == Or(meta.mode, "consensus") && r.judgeMethod == r.mode
      && r.candidates == Entries(Slots(results))
      && r.agreementRatio == HardCodedRatio(ValidCount(results))
      && r.validResponses == ValidCount(results)
    ensures Truthy(prompt) && ValidCount(results) == 0 ==>
      r.Answer? && r.final == Str(AllFailed) && request.None?
    ensures Truthy(prompt) && ValidCount(results) > 0 && Or(meta.mode, "consensus") == "consensus" ==>
      r.Answer? && r.final == ValidEntries(Entries(Slots(results)))[0].text && request.None?
    ensures Truthy(prompt) && ValidCount(results) > 0 && Or(meta.mode, "consensus") == "integration" ==>
      var call := OpenAIJudge.Chat(openai, IntegrationPrompt(Slots(results)), Some(0.3), reply);
      && request == call.request
      && (call.result.Success? ==> r.Answer? && r.final == Str(call.result.value))
      && (call.result.Failure? ==> r == ServerError(call.result.error))
    ensures Truthy(prompt) && ValidCount(results) > 0 && Or(meta.mode, "consensus") == "synthesis" ==>
      var call := OpenAIJudge.Chat(openai, SynthesisPrompt(Slots(results)), Some(0.7), reply);
      && request == call.request
      && (call.result.Success? ==> r.Answer? && r.final == Str(call.result.value))
      && (call.result.Failure? ==> r == ServerError(call.result.error))
    ensures Truthy(prompt) && Or(meta.mode, "consensus") !in {"consensus", "integration", "synthesis"} ==>
      r.Answer? && r.final == Str(AllFailed) && request.None?
  {
    if !Truthy(prompt) {
      return BadRequest("prompt required"), None, None;
    }
    var mode := Or(meta.mode, "consensus");
    temperature := Some(meta.temperature.GetOr(0.2));
    var slots := Slots(results);
    var candidates := Entries(slots);
    var validResponses := ValidEntries(candidates);
    var final := Str(AllFailed);
    request := None;
    if |validResponses| > 0 {
      if mode == "consensus" {
        final := validResponses[0].text;
      } else if mode == "integration" {
        var call := OpenAIJudge.Chat(openai, IntegrationPrompt(slots), Some(0.3), reply);
        request := call.request;
        if call.result.Failure? {
          return ServerError(call.result.error), temperature, request;
        }
        final := Str(call.result.value);
      } else if mode == "synthesis" {
        var call := OpenAIJudge.Chat(openai, SynthesisPrompt(slots), Some(0.7), reply);
        request := call.request;
        if call.result.Failure? {
          return ServerError(call.result.error), temperature, request;
        }
        final := Str(call.result.value);
      }
    }
    r := Answer(final, mode, mode, candidates, HardCodedRatio(|validResponses|), |validResponses|);
  }
}
