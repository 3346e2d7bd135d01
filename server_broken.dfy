/** server-broken.js: the `/api/consensus` handler of version 2.0 with its
    Jaccard agreement score, the mode switch and the two GPT helpers. The
    settled provider calls, the OpenAI replies and `JSON.parse` are inputs. */
module ServerBroken {
  import opened Wrappers
  import opened Text
  import opened Lexical
  import opened Candidates
  import OpenAIJudge

  /** `results.map(...)`: one candidate per settled call, with the unit at the
      same position; a rejection keeps `reason?.message || 'Unknown error'`. */
  function MapCandidates(results: seq<Settled<string>>): (r: seq<Candidate>)
    requires |results| == |Units|
    ensures |r| == |Units|
    ensures forall i :: 0 <= i < |r| ==>
      && r[i].provider == Units[i].provider
      && r[i].magiUnit == Units[i].magiUnit
      && r[i].role == Units[i].role
      && (r[i].outcome.Ok? <==> results[i].Fulfilled?)
      && (results[i].Fulfilled? ==> r[i].outcome.text == results[i].value)
      && (results[i].Rejected? ==> r[i].outcome.error == Or(results[i].reasonMessage, "Unknown error"))
  {
    seq(|results|, i requires 0 <= i < |results| =>
      var u := Units[i];
      Candidate(u.provider, u.magiUnit, u.role,
        (match results[i]
         case Fulfilled(text) => Ok(text)
         case Rejected(message) => Err(Or(message, "Unknown error")))))
  }

  /** The candidates come out in the fixed order grok, gemini, claude,
      whichever call settled first. */
  lemma CandidateOrder(results: seq<Settled<string>>)
    requires |results| == |Units|
    ensures var cs := MapCandidates(results);
      cs[0].provider == "grok" && cs[1].provider == "gemini" && cs[2].provider == "claude"
  {
  }

  // The agreement score.

  predicate NonEmptySets(sets: seq<set<string>>) {
    forall k :: 0 <= k < |sets| ==> sets[k] != {}
  }

  /** The word set of each text. */
  function SetsOf(texts: seq<string>): (r: seq<set<string>>)
    ensures |r| == |texts| && NonEmptySets(r)
    ensures forall k :: 0 <= k < |texts| ==> r[k] == TokenSet(texts[k])
  {
    seq(|texts|, k requires 0 <= k < |texts| => TokenSet(texts[k]))
  }

  /** The similarities of text `i` with the texts from `j` on. */
  function RowSum(sets: seq<set<string>>, i: nat, j: nat): real
    requires NonEmptySets(sets) && i < |sets| && j <= |sets|
    decreases |sets| - j
  {
    if j == |sets| then 0.0 else Jaccard(sets[i], sets[j]) + RowSum(sets, i, j + 1)
  }

  /** The similarities of every pair whose first text is at `i` or later. */
  function TotalSum(sets: seq<set<string>>, i: nat): real
    requires NonEmptySets(sets) && i <= |sets|
    decreases |sets| - i
  {
    if i == |sets| then 0.0 else RowSum(sets, i, i + 1) + TotalSum(sets, i + 1)
  }

  /** The number of pairs whose first text is at `i` or later. */
  function CountPairs(n: nat, i: nat): nat
    requires i <= n
    decreases n - i
  {
    if i == n then 0 else (n - i - 1) + CountPairs(n, i + 1)
  }

  lemma {:induction false} CountPairsClosedForm(n: nat, i: nat)
    requires i <= n
    ensures 2 * CountPairs(n, i) == (n - i) * (n - i - 1)
    decreases n - i
  {
    if i < n {
      CountPairsClosedForm(n, i + 1);
    }
  }

  lemma CountPairsPositive(n: nat)
    requires n >= 2
    ensures CountPairs(n, 0) >= n - 1 > 0
  {
  }

  /** The mean Jaccard similarity over all unordered pairs of texts; 0 for
      fewer than two texts. */
  function Agreement(texts: seq<string>): real {
    if |texts| < 2 then 0.0
    else
      CountPairsPositive(|texts|);
      TotalSum(SetsOf(texts), 0) / (CountPairs(|texts|, 0) as real)
  }

  /** `calculateAgreement(texts)`: nested loops over the pairs `i < j`. */
  method CalculateAgreement(texts: seq<string>) returns (r: real)
    ensures r == Agreement(texts)
  {
    if |texts| < 2 {
      return 0.0;
    }
    var tokens := seq(|texts|, k requires 0 <= k < |texts| => Tokenize(texts[k]));
    ghost var sets := SetsOf(texts);
    var n := |tokens|;
    var totalSimilarity := 0.0;
    var comparisons := 0;
    assert forall k :: 0 <= k < n ==> WordSet(tokens[k]) == sets[k];
    var i := 0;
    while i < n
      invariant 0 <= i <= n
      invariant totalSimilarity + TotalSum(sets, i) == TotalSum(sets, 0)
      invariant comparisons + CountPairs(n, i) == CountPairs(n, 0)
    {
      var rowTotal, rowCount := PairsOf(tokens, sets, i);
      totalSimilarity := totalSimilarity + rowTotal;
      comparisons := comparisons + rowCount;
      i := i + 1;
    }
    AgreementOfSums(texts, totalSimilarity, comparisons);
    r := if comparisons > 0 then totalSimilarity / (comparisons as real) else 0.0;
  }

  /** The inner loop of `calculateAgreement`: the similarities of text `i`
      with every later text, and how many there are. */
  method PairsOf(tokens: seq<seq<string>>, ghost sets: seq<set<string>>, i: nat) returns (total: real, count: int)
    requires |tokens| == |sets| && NonEmptySets(sets) && i < |sets|
    requires forall k :: 0 <= k < |tokens| ==> WordSet(tokens[k]) == sets[k]
    ensures total == RowSum(sets, i, i + 1) && count == |sets| - i - 1
    ensures TotalSum(sets, i) == total + TotalSum(sets, i + 1)
  {
    var n := |tokens|;
    total, count := 0.0, 0;
    var j := i + 1;
    while j < n
      invariant i + 1 <= j <= n
      invariant total + RowSum(sets, i, j) == RowSum(sets, i, i + 1)
      invariant count == j - i - 1
    {
      var set1 := WordSet(tokens[i]);
      var set2 := WordSet(tokens[j]);
      var similarity := Jaccard(set1, set2);
      RowStep(sets, i, j, similarity);
      total := total + similarity;
      count := count + 1;
      j := j + 1;
    }
    RowStart(sets, i);
  }

  /** The agreement of two or more texts is the sum over their pairs
      divided by the (positive) number of pairs. */
  lemma AgreementOfSums(texts: seq<string>, total: real, count: int)
    requires |texts| >= 2
    requires total == TotalSum(SetsOf(texts), 0) && count == CountPairs(|texts|, 0)
    ensures count > 0 && Agreement(texts) == total / count as real
  {
    CountPairsPositive(|texts|);
  }

  /** One step of the inner loop: the pair `(i, j)` adds its similarity. */
  lemma RowStep(sets: seq<set<string>>, i: nat, j: nat, similarity: real)
    requires NonEmptySets(sets) && i < j < |sets|
    requires similarity == Jaccard(sets[i], sets[j])
    ensures RowSum(sets, i, j) == similarity + RowSum(sets, i, j + 1)
  {
  }

  /** One step of the outer loop: row `i` is all its pairs. */
  lemma RowStart(sets: seq<set<string>>, i: nat)
    requires NonEmptySets(sets) && i < |sets|
    ensures TotalSum(sets, i) == RowSum(sets, i, i + 1) + TotalSum(sets, i + 1)
    ensures RowSum(sets, i, |sets|) == 0.0
  {
  }

  lemma {:induction false} RowSumBounds(sets: seq<set<string>>, i: nat, j: nat)
    requires NonEmptySets(sets) && i < |sets| && j <= |sets|
    ensures 0.0 <= RowSum(sets, i, j) <= (|sets| - j) as real
    decreases |sets| - j
  {
    if j < |sets| {
      JaccardBounds(sets[i], sets[j]);
      RowSumBounds(sets, i, j + 1);
    }
  }

  lemma {:induction false} TotalSumBounds(sets: seq<set<string>>, i: nat)
    requires NonEmptySets(sets) && i <= |sets|
    ensures 0.0 <= TotalSum(sets, i) <= CountPairs(|sets|, i) as real
    decreases |sets| - i
  {
    if i < |sets| {
      RowSumBounds(sets, i, i + 1);
      TotalSumBounds(sets, i + 1);
    }
  }

  /** The agreement is a fraction. */
  lemma AgreementBounds(texts: seq<string>)
    ensures 0.0 <= Agreement(texts) <= 1.0
  {
    if |texts| >= 2 {
      var sets := SetsOf(texts);
      TotalSumBounds(sets, 0);
      CountPairsClosedForm(|texts|, 0);
      FractionBounds(TotalSum(sets, 0), CountPairs(|texts|, 0) as real);
    }
  }

  lemma FractionBounds(x: real, y: real)
    requires 0.0 <= x <= y && y > 0.0
    ensures 0.0 <= x / y <= 1.0
  {
    var q := x / y;
    assert q * y == x;
  }

  lemma {:induction false} RowSumOfEqualSets(sets: seq<set<string>>, i: nat, j: nat)
    requires NonEmptySets(sets) && i < |sets| && j <= |sets|
    requires forall k :: 0 <= k < |sets| ==> sets[k] == sets[0]
    ensures RowSum(sets, i, j) == (|sets| - j) as real
    decreases |sets| - j
  {
    if j < |sets| {
      JaccardBounds(sets[i], sets[j]);
      RowSumOfEqualSets(sets, i, j + 1);
    }
  }

  lemma {:induction false} TotalSumOfEqualSets(sets: seq<set<string>>, i: nat)
    requires NonEmptySets(sets) && i <= |sets|
    requires forall k :: 0 <= k < |sets| ==> sets[k] == sets[0]
    ensures TotalSum(sets, i) == CountPairs(|sets|, i) as real
    decreases |sets| - i
  {
    if i < |sets| {
      RowSumOfEqualSets(sets, i, i + 1);
      TotalSumOfEqualSets(sets, i + 1);
    }
  }

  /** Two or more texts that are equal up to (ASCII) case agree fully. */
  lemma AgreementOfIdenticalTexts(texts: seq<string>)
    requires |texts| >= 2
    requires forall k :: 0 <= k < |texts| ==> LowerAscii(texts[k]) == LowerAscii(texts[0])
    ensures Agreement(texts) == 1.0
  {
    var sets := SetsOf(texts);
    forall k | 0 <= k < |sets|
      ensures sets[k] == sets[0]
    {
      TokenSetIgnoresCase(texts[k], texts[0]);
    }
    TotalSumOfEqualSets(sets, 0);
    var pairs := CountPairs(|texts|, 0) as real;
    CountPairsPositive(|texts|);
    assert TotalSum(sets, 0) == pairs;
    assert pairs / pairs == 1.0;
  }

  /** For two texts the agreement is their Jaccard similarity. */
  lemma AgreementOfTwo(a: string, b: string)
    ensures Agreement([a, b]) == Jaccard(TokenSet(a), TokenSet(b))
  {
    var sets := SetsOf([a, b]);
    assert RowSum(sets, 0, 1) == Jaccard(sets[0], sets[1]) + RowSum(sets, 0, 2);
    assert TotalSum(sets, 0) == RowSum(sets, 0, 1) + TotalSum(sets, 1);
    assert TotalSum(sets, 1) == RowSum(sets, 1, 2) + TotalSum(sets, 2);
    assert CountPairs(2, 0) == 1 + CountPairs(2, 1);
    assert CountPairs(2, 1) == 0 + CountPairs(2, 2);
  }

  // The two GPT helpers.

  /** The part of a parsed JSON reply the handler reads. */
  datatype Judgment = Judgment(final: Option<string>, reason: Option<string>)

  /** A helper's request and the judgment it resolves to: it never rejects. */
  datatype Helped = Helped(request: Option<OpenAIJudge.ChatRequest>, judgment: Judgment)

  /** The shared shape of `integrateWithGPT` and `synthesizeResponses`: ask,
      parse the `{…}` span, else take the raw reply, and turn any failure
      (of the call or of `JSON.parse`) into a fixed text. */
  function AskForJudgment(p: OpenAIJudge.OpenAI, prompt: string, temperature: real, reply: OpenAIJudge.HttpOutcome,
                          parse: string -> Option<Judgment>, failed: string, rawReason: string, errorReason: string): (h: Helped)
    requires failed != ""
    ensures h.request == OpenAIJudge.Chat(p, prompt, Some(temperature), reply).request
    ensures var c := OpenAIJudge.Chat(p, prompt, Some(temperature), reply).result;
      && (c.Failure? ==> h.judgment == Judgment(Some(failed), Some(errorReason)))
      && (c.Success? && JsonSpan(c.value).Some? ==>
            h.judgment == (if parse(JsonSpan(c.value).value).Some? then parse(JsonSpan(c.value).value).value
                           else Judgment(Some(failed), Some(errorReason))))
      && (c.Success? && JsonSpan(c.value).None? ==>
            h.judgment == Judgment(Some(Or(Some(c.value), failed)), Some(rawReason)))
  {
    var call := OpenAIJudge.Chat(p, prompt, Some(temperature), reply);
    match call.result
    case Failure(_) => Helped(call.request, Judgment(Some(failed), Some(errorReason)))
    case Success(response) =>
      match JsonSpan(response)
      case Some(span) =>
        (match parse(span)
         case Some(j) => Helped(call.request, j)
         case None => Helped(call.request, Judgment(Some(failed), Some(errorReason))))
      case None => Helped(call.request, Judgment(Some(Or(Some(response), failed)), Some(rawReason)))
  }

  /** Unless the reply holds a JSON object that parses, the helper's `final`
      is a non-empty text: the raw reply or the fixed failure text. */
  lemma AskNeverEmpty(p: OpenAIJudge.OpenAI, prompt: string, temperature: real, reply: OpenAIJudge.HttpOutcome,
                      parse: string -> Option<Judgment>, failed: string, rawReason: string, errorReason: string)
    requires failed != ""
    requires var c := OpenAIJudge.Chat(p, prompt, Some(temperature), reply).result;
             !(c.Success? && JsonSpan(c.value).Some? && parse(JsonSpan(c.value).value).Some?)
    ensures var h := AskForJudgment(p, prompt, temperature, reply, parse, failed, rawReason, errorReason);
            h.judgment.final.Some? && h.judgment.final.value != ""
  {
  }

  function IntegrationLine(c: Candidate): string {
    c.magiUnit + " (" + c.role + "): " + (if c.outcome.Ok? then c.outcome.text else "[エラー]")
  }

  function SynthesisLine(c: Candidate): string {
    c.magiUnit + ": " + (if c.outcome.Ok? then c.outcome.text else "[エラー]")
  }

  const IntegrationIntro := "あなたはMAGIシステムの最終統合判断を行うGPT-4です。\n【元の質問】"
  const IntegrationHeading := "\n【3つのMAGIユニットの回答】\n"
  const IntegrationInstructions :=
    "\n【統合タスク】各回答の長所を活かし、包括的な回答を生成してください。\n【出力形式】必ず以下のJSON形式で回答:\n"
    + "{\"final\": \"統合された最終回答\", \"reason\": \"統合の根拠\", \"insights\": [\"洞察1\", \"洞察2\"]}"

  const SynthesisIntro := "あなたはMAGIシステムの高度な合成判断を行うGPT-4です。\n【元の質問】"
  const SynthesisHeading := "\n【3つのMAGIユニットの分析】\n"
  const SynthesisInstructions :=
    "\n【創発的合成タスク】各ユニットの特性を融合させ、創発的な回答を生成。\n【出力形式】必ず以下のJSON形式で回答:\n"
    + "{\"final\": \"合成された回答\", \"reason\": \"合成プロセス\", \"insights\": {\"creative\": \"創造的洞察\", \"logical\": \"論理的洞察\", \"emotional\": \"感情的洞察\"}}"

  /** The prompt of `integrateWithGPT`: the question, then each unit's line
      separated by `---` lines. */
  function IntegrationPrompt(originalPrompt: string, cs: seq<Candidate>): string {
    IntegrationIntro + originalPrompt + IntegrationHeading
    + Join(seq(|cs|, i requires 0 <= i < |cs| => IntegrationLine(cs[i])), "\n---\n")
    + IntegrationInstructions
  }

  /** The prompt of `synthesizeResponses`. */
  function SynthesisPrompt(originalPrompt: string, cs: seq<Candidate>): string {
    SynthesisIntro + originalPrompt + SynthesisHeading
    + Join(seq(|cs|, i requires 0 <= i < |cs| => SynthesisLine(cs[i])), "\n---\n")
    + SynthesisInstructions
  }

  /** `integrateWithGPT`: a chat at temperature 0.3 that never rejects. */
  function IntegrateWithGPT(p: OpenAIJudge.OpenAI, originalPrompt: string, cs: seq<Candidate>,
                            reply: OpenAIJudge.HttpOutcome, parse: string -> Option<Judgment>): (h: Helped)
    ensures Truthy(p.key) ==> h.request == Some(OpenAIJudge.ChatRequest(p.model, IntegrationPrompt(originalPrompt, cs), 0.3))
    ensures !Truthy(p.key) ==> h == Helped(None, Judgment(Some("Integration failed"), Some("GPT-4統合エラー")))
  {
    AskForJudgment(p, IntegrationPrompt(originalPrompt, cs), 0.3, reply, parse,
                   "Integration failed", "GPT-4による統合判断", "GPT-4統合エラー")
  }

  /** `synthesizeResponses`: a chat at temperature 0.4 that never rejects. */
  function SynthesizeResponses(p: OpenAIJudge.OpenAI, originalPrompt: string, cs: seq<Candidate>,
                               reply: OpenAIJudge.HttpOutcome, parse: string -> Option<Judgment>): (h: Helped)
    ensures Truthy(p.key) ==> h.request == Some(OpenAIJudge.ChatRequest(p.model, SynthesisPrompt(originalPrompt, cs), 0.4))
    ensures !Truthy(p.key) ==> h == Helped(None, Judgment(Some("Synthesis failed"), Some("合成プロセスエラー")))
  {
    AskForJudgment(p, SynthesisPrompt(originalPrompt, cs), 0.4, reply, parse,
                   "Synthesis failed", "高度な合成による判断", "合成プロセスエラー")
  }

  // The handler.

  /** The parameters the three provider calls are made with. */
  datatype FanOut = FanOut(prompt: string, temperature: real, timeoutMs: int)

  /** `meta.temperature ?? 0.2` and `meta.timeout_ms ?? 25000`: only a
      missing value is replaced, so 0 is kept. */
  function FanOutOf(prompt: string, meta: Meta): (f: FanOut)
    ensures f.prompt == prompt
    ensures meta.temperature.Some? ==> f.temperature == meta.temperature.value
    ensures meta.temperature.None? ==> f.temperature == 0.2
    ensures meta.timeoutMs.Some? ==> f.timeoutMs == meta.timeoutMs.value
    ensures meta.timeoutMs.None? ==> f.timeoutMs == 25000
  {
    FanOut(prompt, meta.temperature.GetOr(0.2), meta.timeoutMs.GetOr(25000))
  }

  /** The `judge` object of the response; `reason` and `insights` of the
      consensus branch are not modelled. */
  datatype JudgeInfo = JudgeInfo(
    model: string,
    judgeMethod: Option<string>,
    decision: string,
    winner: Option<string>,
    reason: Option<string>)

  datatype ConsensusReply =
    | BadRequest(error: string)
    | ServerError(message: string)
    | Answer(
        final: Option<string>,
        mode: string,
        judge: JudgeInfo,
        candidates: seq<Candidate>,
        agreementRatio: real,
        synthesisMethod: string,
        validResponses: nat)

  /** The cases of the handler's `switch (mode)`. */
  datatype Branch = Integration | Synthesis | ConsensusOrDefault

  function BranchOf(mode: string): (b: Branch)
    ensures b == Integration <==> mode == "integration"
    ensures b == Synthesis <==> mode == "synthesis"
  {
    if mode == "integration" then Integration
    else if mode == "synthesis" then Synthesis
    else ConsensusOrDefault
  }

  /** The OpenAI replies and parsers the handler may use. */
  datatype GptReplies = GptReplies(
    helperReply: OpenAIJudge.HttpOutcome,
    helperParse: string -> Option<Judgment>,
    judgeReply: OpenAIJudge.HttpOutcome,
    judgeParse: string -> Option<OpenAIJudge.Verdict>)

  /** `POST /api/consensus`. `envModel` is `OPENAI_MODEL`. */
  method Consensus(prompt: Option<string>, meta: Meta, results: seq<Settled<string>>,
                   openai: OpenAIJudge.OpenAI, gpt: GptReplies, envModel: Option<string>)
    returns (reply: ConsensusReply, fanOut: Option<FanOut>, request: Option<OpenAIJudge.ChatRequest>)
    requires |results| == |Units|
    ensures !Truthy(prompt) ==> reply == BadRequest("prompt is required") && fanOut.None? && request.None?
    ensures Truthy(prompt) ==>
      fanOut == Some(FanOutOf(prompt.value, meta))
    ensures reply.Answer? ==>
      var cs := MapCandidates(results);
      && reply.candidates == cs
      && reply.mode == meta.mode.GetOr("consensus")
      && reply.agreementRatio == Agreement(ValidTexts(cs))
      && reply.validResponses == CountOk(cs)
    ensures Truthy(prompt) && BranchOf(meta.mode.GetOr("consensus")) == Integration ==>
      && reply.Answer? && reply.judge.judgeMethod == Some("integration") && reply.judge.decision == "INTEGRATED"
      && reply.synthesisMethod == "gpt_integration"
      && var h := IntegrateWithGPT(openai, prompt.value, MapCandidates(results), gpt.helperReply, gpt.helperParse);
         && request == h.request
         && reply.final == h.judgment.final && reply.judge.reason == h.judgment.reason
         && reply.judge.model == Or(envModel, "gpt-4o-mini")
    ensures Truthy(prompt) && BranchOf(meta.mode.GetOr("consensus")) == Synthesis ==>
      && reply.Answer? && reply.judge.judgeMethod == Some("synthesis") && reply.judge.decision == "SYNTHESIZED"
      && reply.synthesisMethod == "advanced_synthesis"
      && var h := SynthesizeResponses(openai, prompt.value, MapCandidates(results), gpt.helperReply, gpt.helperParse);
         && request == h.request
         && reply.final == h.judgment.final && reply.judge.reason == h.judgment.reason
         && reply.judge.model == Or(envModel, "gpt-4o-mini")
    ensures Truthy(prompt) && BranchOf(meta.mode.GetOr("consensus")) == ConsensusOrDefault
            && Agreement(ValidTexts(MapCandidates(results))) >= 0.66 ==>
      var texts := ValidTexts(MapCandidates(results));
      && reply.Answer? && request.None?
      && reply.final == Some(if |texts| > 0 && texts[0] != "" then texts[0] else "No valid responses")
      && reply.judge.decision == "APPROVED" && reply.synthesisMethod == "majority_consensus"
    ensures Truthy(prompt) && BranchOf(meta.mode.GetOr("consensus")) == ConsensusOrDefault
            && Agreement(ValidTexts(MapCandidates(results))) < 0.66 ==>
      var call := OpenAIJudge.Judge(openai, prompt.value, MapCandidates(results), gpt.judgeReply, gpt.judgeParse);
      && request == call.request
      && (call.result.Success? ==>
            && reply.Answer? && reply.final == call.result.value.final
            && reply.judge.decision == "ARBITRATED" && reply.judge.winner == call.result.value.winner
            && reply.synthesisMethod == "gpt_arbitration")
      && (call.result.Failure? ==> reply == ServerError(call.result.error))
  {
    if !Truthy(prompt) {
      return BadRequest("prompt is required"), None, None;
    }
    var mode := meta.mode.GetOr("consensus");
    fanOut := Some(FanOutOf(prompt.value, meta));
    var candidates := MapCandidates(results);
    var validTexts := ValidTexts(candidates);
    var agreementRatio := CalculateAgreement(validTexts);
    var model := Or(envModel, "gpt-4o-mini");
    var validResponses := CountOk(candidates);
    match BranchOf(mode)
    case Integration =>
      var integration := IntegrateWithGPT(openai, prompt.value, candidates, gpt.helperReply, gpt.helperParse);
      var judgeInfo := JudgeInfo(model, Some("integration"), "INTEGRATED", None, integration.judgment.reason);
      reply := Answer(integration.judgment.final, mode, judgeInfo, candidates, agreementRatio, "gpt_integration", validResponses);
      request := integration.request;
    case Synthesis =>
      var synthesis := SynthesizeResponses(openai, prompt.value, candidates, gpt.helperReply, gpt.helperParse);
      var judgeInfo := JudgeInfo(model, Some("synthesis"), "SYNTHESIZED", None, synthesis.judgment.reason);
      reply := Answer(synthesis.judgment.final, mode, judgeInfo, candidates, agreementRatio, "advanced_synthesis", validResponses);
      request := synthesis.request;
    case ConsensusOrDefault =>
      if agreementRatio >= 0.66 {
        var finalAnswer := Or(if |validTexts| > 0 then Some(validTexts[0]) else None, "No valid responses");
        var judgeInfo := JudgeInfo("consensus", None, "APPROVED", None, None);
        reply := Answer(Some(finalAnswer), mode, judgeInfo, candidates, agreementRatio, "majority_consensus", validResponses);
        request := None;
      } else {
        var judged := OpenAIJudge.Judge(openai, prompt.value, candidates, gpt.judgeReply, gpt.judgeParse);
        request := judged.request;
        match judged.result
        case Failure(message) =>
          reply := ServerError(message);
        case Success(verdict) =>
          var judgeInfo := JudgeInfo(model, None, "ARBITRATED", verdict.winner, verdict.reason);
          reply := Answer(verdict.final, mode, judgeInfo, candidates, agreementRatio, "gpt_arbitration", validResponses);
      }
  }

  /** `valid_responses` counts the fulfilled provider calls. */
  lemma ValidResponsesCountsFulfilled(results: seq<Settled<string>>)
    requires |results| == |Units|
    ensures CountOk(MapCandidates(results)) == |ValidTexts(MapCandidates(results))|
    ensures CountOk(MapCandidates(results))
         == (if results[0].Fulfilled? then 1 else 0)
          + (if results[1].Fulfilled? then 1 else 0)
          + (if results[2].Fulfilled? then 1 else 0)
  {
    var cs := MapCandidates(results);
    ValidTextsCount(cs);
    assert cs[1..][1..] == cs[2..];
    assert cs[2..][1..] == [];
    assert CountOk(cs[2..]) == (if cs[2].outcome.Ok? then 1 else 0) + CountOk([]);
  }

  /** With fewer than two valid texts the consensus mode always asks the
      judge, even when there is no valid text at all. */
  lemma FewValidMeansArbitration(results: seq<Settled<string>>)
    requires |results| == |Units|
    requires |ValidTexts(MapCandidates(results))| < 2
    ensures Agreement(ValidTexts(MapCandidates(results))) < 0.66
  {
  }
}
