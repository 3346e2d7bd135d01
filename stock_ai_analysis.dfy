/** routes/stock-ai-analysis.js: the AI analysis route. Three provider chats
    are compared by a word-overlap score, and GPT (the client of
    providers/llm/openai.js) is always asked for the final judgment. The
    analytics engine's prompt, the provider outcomes, the OpenAI replies and
    `JSON.parse` are inputs. */
module StockAiAnalysis {
  import opened Wrappers
  import opened Text
  import opened Lexical
  import opened Candidates
  import OpenAILlm

  // The similarity score.

  /** `calculateSimilarity(texts)`: the number of distinct words of the first
      text over that of the first two texts together; 0.5 for fewer than two. */
  function Similarity(texts: seq<string>): (r: real)
    ensures |texts| < 2 ==> r == 0.5
    ensures |texts| >= 2 ==>
      var s0, s1 := TokenSet(texts[0]), TokenSet(texts[1]);
      r * (|s0 + s1| as real) == |s0| as real
  {
    if |texts| < 2 then 0.5
    else
      var s0 := TokenSet(texts[0]);
      var s1 := TokenSet(texts[1]);
      SubsetCardinality(s0, s0 + s1);
      NonEmptyCardinality(s0);
      (|s0| as real) / (|s0 + s1| as real)
  }

  lemma NonEmptyCardinality(s: set<string>)
    requires s != {}
    ensures |s| > 0
  {
    var x :| x in s;
    SubsetCardinality({x}, s);
  }

  /** A subset as large as its superset is the superset. */
  lemma EqualCardinalitySubset(a: set<string>, b: set<string>)
    requires a <= b && |a| == |b|
    ensures a == b
  {
    var rest := b - a;
    assert a + rest == b;
    assert a * rest == {};
    assert |rest| == 0;
  }

  /** The score is in (0, 1], and it is 1 exactly when every word of the
      second text also occurs in the first. */
  lemma SimilarityBounds(texts: seq<string>)
    ensures 0.0 < Similarity(texts) <= 1.0
    ensures |texts| >= 2 ==> (Similarity(texts) == 1.0 <==> TokenSet(texts[1]) <= TokenSet(texts[0]))
  {
    if |texts| >= 2 {
      var s0 := TokenSet(texts[0]);
      var s1 := TokenSet(texts[1]);
      SubsetCardinality(s0, s0 + s1);
      NonEmptyCardinality(s0);
      var x := |s0| as real;
      var y := |s0 + s1| as real;
      RatioFacts(x, y);
      if Similarity(texts) == 1.0 {
        EqualCardinalitySubset(s0, s0 + s1);
      }
      if s1 <= s0 {
        assert s0 + s1 == s0;
      }
    }
  }

  lemma RatioFacts(x: real, y: real)
    requires 0.0 < x <= y
    ensures 0.0 < x / y <= 1.0
    ensures x / y == 1.0 <==> x == y
  {
    var q := x / y;
    assert q * y == x;
  }

  /** Only the first two texts are compared. */
  lemma SimilarityIgnoresTheRest(texts: seq<string>)
    requires |texts| >= 2
    ensures Similarity(texts) == Similarity(texts[..2])
  {
    assert texts[..2][0] == texts[0] && texts[..2][1] == texts[1];
  }

  /** The numerator is not the intersection: two texts without a common word
      still score above 0. */
  lemma DisjointTextsScoreAboveZero()
    ensures Similarity(["a", "b"]) == 0.5
  {
    var s0 := TokenSet("a");
    var s1 := TokenSet("b");
    assert LowerAscii("a") == "a" && LowerAscii("b") == "b";
    SplitOneWord('a');
    SplitOneWord('b');
    assert s0 == {"a"} && s1 == {"b"};
    assert s0 + s1 == {"a", "b"};
  }

  lemma SplitOneWord(c: char)
    requires !IsSpace(c)
    ensures Split([c]) == [[c]]
  {
    assert [c][1..] == [];
    assert [] + [c] == [c];
    assert SplitFrom([c], []) == SplitFrom([], [c]);
  }

  // The route.

  /** What each provider chat settles into after its `.then`/`.catch`. */
  datatype ProviderResult = ProviderResult(provider: string, ok: bool, text: Option<string>, error: Option<string>)

  function ProviderResults(results: seq<Settled<string>>): (r: seq<ProviderResult>)
    requires |results| == |Units|
    ensures |r| == |Units|
    ensures forall i :: 0 <= i < |r| ==>
      && r[i].provider == Units[i].provider
      && (r[i].ok <==> results[i].Fulfilled?)
      && (results[i].Fulfilled? ==> r[i].text == Some(results[i].value) && r[i].error.None?)
      && (results[i].Rejected? ==> r[i].text.None? && r[i].error == results[i].reasonMessage)
  {
    seq(|results|, i requires 0 <= i < |results| =>
      match results[i]
      case Fulfilled(text) => ProviderResult(Units[i].provider, true, Some(text), None)
      case Rejected(message) => ProviderResult(Units[i].provider, false, None, message))
  }

  /** `validResponses.map(v => v.text)`. */
  function ValidTexts(cs: seq<ProviderResult>): (r: seq<string>)
    ensures |r| <= |cs|
    ensures r == [] <==> forall k :: 0 <= k < |cs| ==> !cs[k].ok
    ensures r != [] ==>
      exists k :: 0 <= k < |cs| && cs[k].ok && r[0] == cs[k].text.GetOr("")
                  && forall j :: 0 <= j < k ==> !cs[j].ok
    decreases |cs|
  {
    if cs == [] then []
    else if cs[0].ok then [cs[0].text.GetOr("")] + ValidTexts(cs[1..])
    else ValidTexts(cs[1..])
  }

  /** `agreementRatio`: the similarity of the valid texts when there are at
      least two of them, 0.5 otherwise. */
  function AgreementRatio(cs: seq<ProviderResult>): (r: real)
    ensures 0.0 < r <= 1.0
  {
    var texts := ValidTexts(cs);
    SimilarityBounds(texts);
    if |texts| > 1 then Similarity(texts) else 0.5
  }

  /** A reported candidate: `text` is `c.text || c.error`. */
  datatype Reported = Reported(provider: string, ok: bool, text: Option<string>)

  function Report(c: ProviderResult): (r: Reported)
    ensures r.provider == c.provider && r.ok == c.ok
    ensures Truthy(c.text) ==> r.text == c.text
    ensures !Truthy(c.text) ==> r.text == c.error
  {
    Reported(c.provider, c.ok, if Truthy(c.text) then c.text else c.error)
  }

  /** A candidate that resolved to an empty text is reported without text. */
  lemma EmptyTextReportedMissing(results: seq<Settled<string>>, i: nat)
    requires |results| == |Units| && i < |results| && results[i] == Fulfilled("")
    ensures Report(ProviderResults(results)[i]) == Reported(Units[i].provider, true, None)
  {
  }

  function Shown(c: ProviderResult): string {
    if c.ok then c.text.GetOr("") else "失敗"
  }

  const JudgeIntro := "\n以下の3つのAIからの投資判断を受け取りました。\n\n【Grok】\n"
  const JudgeGemini := "\n\n【Gemini】\n"
  const JudgeClaude := "\n\n【Claude】\n"
  const JudgeInstructions :=
    "\n\nこれらの分析を統合し、最終的な投資判断を以下のJSON形式で返してください：\n{\n"
    + "  \"final_judgment\": \"最終的な投資判断（買い/売り/保有）\",\n"
    + "  \"confidence\": \"信頼度（高/中/低）\",\n"
    + "  \"key_points\": [\"ポイント1\", \"ポイント2\", \"ポイント3\"],\n"
    + "  \"risks\": [\"リスク1\", \"リスク2\"],\n"
    + "  \"recommendation\": \"推奨アクション\"\n}\n\n必ずJSON形式のみで返してください。\n"

  /** The `judgePrompt`: each provider's text, or `失敗` when it failed. */
  function JudgePrompt(cs: seq<ProviderResult>): string
    requires |cs| == |Units|
  {
    JudgeIntro + Shown(cs[0]) + JudgeGemini + Shown(cs[1]) + JudgeClaude + Shown(cs[2]) + JudgeInstructions
  }

  /** The fields of the parsed judgment the route reads; `None` is a field
      the object lacks. */
  datatype JudgeData = JudgeData(
    finalJudgment: Option<string>,
    confidence: Option<string>,
    keyPoints: Option<seq<string>>,
    risks: Option<seq<string>>,
    recommendation: Option<string>)

  /** The object the `catch` of `JSON.parse` puts in place. */
  const DefaultJudgeData := JudgeData(Some("Analysis Complete"), Some("medium"),
                                      Some(["See candidate responses"]), Some([]), Some("Review all analyses"))

  /** Why the route answers 500: the GPT chat rejected, or the reply had no
      `{…}` span and `judgeData.final_judgment` was read on `null`. */
  datatype Failure = ChatRejected(error: OpenAILlm.SendError) | NullJudgeData

  datatype AnalysisReply =
    | ServerError(cause: Failure)
    | Analysed(
        prompt: string,
        candidates: seq<Reported>,
        agreementRatio: real,
        judgment: JudgeData,
        rawResponse: string)

  /** `opts.temperature || 0.3`: a missing or zero temperature becomes 0.3. */
  function ProviderTemperature(temperature: Option<real>): (t: real)
    ensures temperature.Some? && temperature.value != 0.0 ==> t == temperature.value
    ensures temperature.None? || temperature.value == 0.0 ==> t == 0.3
  {
    if temperature.Some? && temperature.value != 0.0 then temperature.value else 0.3
  }

  /** The chat the route asks for the final judgment, at temperature 0.2. */
  function JudgeChat(openai: OpenAILlm.OpenAI, cs: seq<ProviderResult>, fetches: nat -> OpenAILlm.Fetched,
                     rand: nat -> real, elapsedMs: int): Result<string, OpenAILlm.SendError>
    requires |cs| == |Units|
    requires forall a :: 0.0 <= rand(a) < 1.0
  {
    OpenAILlm.Chat(openai, JudgePrompt(cs), OpenAILlm.SendOptions(None, OpenAILlm.Undefined, Some(0.2)), fetches, rand, elapsedMs)
  }

  /** The route, from the analysis prompt on; `temperature` is what the
      three providers are called with. */
  method Analyse(prompt: string, opts: Meta, results: seq<Settled<string>>,
                 openai: OpenAILlm.OpenAI, fetches: nat -> OpenAILlm.Fetched, rand: nat -> real, elapsedMs: int,
                 parse: string -> Option<JudgeData>)
    returns (reply: AnalysisReply, temperature: real)
    requires |results| == |Units|
    requires forall a :: 0.0 <= rand(a) < 1.0
    ensures temperature == ProviderTemperature(opts.temperature)
    ensures var cs := ProviderResults(results);
      var chat := JudgeChat(openai, cs, fetches, rand, elapsedMs);
      && (chat.Failure? ==> reply == ServerError(ChatRejected(chat.error)))
      && (chat.Success? && JsonSpan(chat.value).None? ==> reply == ServerError(NullJudgeData))
      && (chat.Success? && JsonSpan(chat.value).Some? ==>
            && reply.Analysed?
            && reply.judgment == parse(JsonSpan(chat.value).value).GetOr(DefaultJudgeData)
            && reply.rawResponse == chat.value)
    ensures reply.Analysed? ==>
      var cs := ProviderResults(results);
      && reply.prompt == prompt
      && reply.candidates == seq(|cs|, i requires 0 <= i < |cs| => Report(cs[i]))
      && reply.agreementRatio == AgreementRatio(cs)
  {
    temperature := ProviderTemperature(opts.temperature);
    var candidates := ProviderResults(results);
    var agreementRatio := AgreementRatio(candidates);
    var judged := JudgeChat(openai, candidates, fetches, rand, elapsedMs);
    if judged.Failure? {
      return ServerError(ChatRejected(judged.error)), temperature;
    }
    var judgeResponse := judged.value;
    var judgeData: Option<JudgeData> := None;
    var jsonMatch := JsonSpan(judgeResponse);
    if jsonMatch.Some? {
      match parse(jsonMatch.value)
      case Some(data) =>
        judgeData := Some(data);
      case None =>
        judgeData := Some(DefaultJudgeData);
    }
    if judgeData.None? {
      return ServerError(NullJudgeData), temperature;
    }
    var reported := seq(|candidates|, i requires 0 <= i < |candidates| => Report(candidates[i]));
    reply := Analysed(prompt, reported, agreementRatio, judgeData.value, judgeResponse);
  }
}
