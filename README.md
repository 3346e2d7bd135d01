# MAGI consensus pipeline — a Dafny model

MAGI (magi-sys) puts one question to three or four LLM providers: Grok
(BALTHASAR-2), Gemini (MELCHIOR-1), Claude (CASPER-3) and, in one variant,
Mary. It reconciles their answers by adopting a shared answer or by asking an
OpenAI "judge" (Isabelle) for a final verdict. This project models the core
of that pipeline in Dafny and proves what its code promises.

The modelled core covers:

- **Retries and providers.** The retry and backoff policy (`utils/retry.js`),
  the base provider's response and error normalisation (`providers/base.js`)
  and the OpenAI provider built on both (`providers/llm/openai.js`).
- **The judge client.** `chat` and `judge` in `providers/openai.js`, with its
  JSON-span extraction and its first-valid fallback.
- **The `/api/consensus` variants.** There is one module per variant:
  `server-broken.js`, `consensus-route.js`, `temp_consensus.js`,
  `server-new.js` and `consensus-fix.js`.
  - Each variant maps the settled provider calls, in their fixed order, to
    candidates.
  - It computes or hard-codes an agreement ratio.
  - It then adopts an answer or calls the judge, depending on the mode.
- **The stock AI analysis route.** `routes/stock-ai-analysis.js`, with its
  word-overlap score and its judge-data handling.
- **The `DataManager` registry.** A class whose `providers`, key order and
  `active` fields its methods update in place. It also covers the
  multi-provider quote fan-in.
- **Small builders and gates.** The recommendation extractor of
  `analyzers/magi-client.js`, the specification loader and prompt wrapper of
  `spec-client.js`, the `Bearer` gate of `auth-bypass.js` (the scheme of
  section 2.1 of RFC 6750) and the OAuth redirect URI builder of
  `utils/oauthUtil.js`.

Network calls, the clock, `Math.random`, `JSON.parse` and the providers'
answers are inputs:

- A `Promise.allSettled` / `Promise.all` result is a `seq<Settled<string>>` in
  the order the calls were listed.
- `Math.random()` is a function `rand` into `[0, 1)`.
- `JSON.parse` is an oracle `parse` that yields `None` where it would throw.
- An HTTP reply is a value of a reply datatype.

Numbers the source computes in floating point (agreement ratios, mean prices)
are exact `real`s. Word sets are `set<string>`.

Three code shapes become imperative Dafny, each proved against a
specification function:

- the `for` loop of `retry`;
- the nested loops of `calculateAgreement`;
- the step-by-step overwriting in `extractRecommendation`.

The handlers that reassign `final` across branches are methods too.

Files: `wrappers.dfy` (Option, Result), `text.dfy` (string helpers and the
`/\{[\s\S]*\}/` span), `lexical.dfy` (`toLowerCase().split(/\s+/)` and
Jaccard), `candidates.dfy` and `caught_candidates.dfy` (the shared fan-in),
`provider_slots.dfy` (the keyed slots of server-new.js and consensus-fix.js),
plus one file per core source file.

## Model

| member | source | states |
|---|---|---|
| Retry.CalculateDelay | utils/retry.js:23-36 | Without jitter, the delay is `min(base·2^attempt, max)`. With jitter, it lies in `[0, that]`, strictly below it when positive, and never above `maxDelayMs`. |
| Retry.BackoffMonotone | utils/retry.js:25-28 | Without jitter, the delay never decreases as the attempt number grows. |
| Retry.BackoffDoublesUntilCapped | utils/retry.js:25-28 | Below the cap, each attempt doubles the delay; once the cap is reached, the delay is `maxDelayMs`. |
| Retry.DelayExamples | utils/retry.js:23-36 | The delays 1000, 2000 and 4000 for attempts 0, 1 and 2, the cap of 5000 at attempt 10, and a jittered delay within `[0, 4000]` (the figures of tests/retry.test.js). |
| Retry.Retry | utils/retry.js:51-100 | The attempt loop returns exactly what the recursive specification `Run` gives: the settlement, the number of calls of `fn` and the `onRetry` announcements. |
| Retry.RunFromShape | utils/retry.js:63-96 | A run makes between 1 and `maxAttempts` calls. Every call but the last failed with an allowed error and was followed by exactly one announcement `(error, attempt+1, delay)`. The run settles with the last call's value or error. That error was either rejected by `shouldRetry` or came from the last attempt. |
| Retry.RunCalls | utils/retry.js:63-79 | `fn` is called at most `maxAttempts` times. A returned value is the value of the last call, and a rethrown error is the error of the last call. |
| Retry.RetryWithoutAttempts | utils/retry.js:61-99 | With `maxAttempts <= 0`, `fn` is never called and the initial `lastError` (null) is thrown. |
| Retry.RetryImmediateSuccess | utils/retry.js:63-67 | An immediate success means one call, no retry, and its value is returned. |
| Retry.RetryEventualSuccess | utils/retry.js:63-94 | After `n` retryable failures, a success returns that value after exactly `n+1` calls and `n` retries. |
| Retry.RetryExhausted | utils/retry.js:69-79 | When every call fails with a retryable error, there are exactly `maxAttempts` calls and `maxAttempts-1` retries, and the last error is rethrown unchanged. |
| Retry.RetryRejectedError | utils/retry.js:72-74 | An error that `shouldRetry` rejects is rethrown after one call, with no delay and no `onRetry`. |
| Retry.NoPredicateRetriesEverything | utils/retry.js:72 | Without `shouldRetry`, every error may be retried. |
| Retry.StatusDecidesRetry | utils/retry.js:107-132 | For an error with no network code, not named `AbortError` and with no `timeout` in its message, the status alone decides, for every status: it is retryable iff the status is 429 or at least 500. This holds whether the status is in `status` or in `statusCode`. |
| Retry.EachClassRetryable | utils/retry.js:107-132 | Each class alone makes an error retryable, whatever its other fields: a network code, a 429 or 5xx status or statusCode, the name `AbortError`, or a message containing `timeout`. |
| Retry.RetryableExamples | utils/retry.js:107-129 | The retryable examples of tests/retry.test.js are classified retryable. |
| Retry.ClientErrorNotRetryable | utils/retry.js:107-132 | A 400 "Bad request" error is not retryable. |
| BaseProvider.FormatResponse | providers/base.js:42-51 | A falsy text becomes `''`. Tokens are null when missing or 0, and `usage` is passed through. `model` is the metadata model, else the configured model, else `'unknown'`. Latency defaults to 0 and `debug` to `{}`. |
| BaseProvider.FormatResponseDefaults | providers/base.js:45-50 | Without metadata: tokens and usage are null, latency is 0, debug is empty, and the model is the configured one or `'unknown'`. |
| BaseProvider.ZeroTokensBecomeNull | providers/base.js:45 | A token count of 0 is reported as null. |
| BaseProvider.FormatResponseIdempotent | providers/base.js:42-51 | Formatting a formatted response again, with its own fields as metadata, gives it back unchanged. |
| BaseProvider.EnhanceError | providers/base.js:59-68 | The message starts with `[name] ` and is longer than that tag. The original error and the provider are attached. |
| BaseProvider.EnhanceErrorKeepsMessage | providers/base.js:59-62 | After the tag comes the original message, or `Unknown error` when it is missing or empty. |
| BaseProvider.Send | providers/base.js:24-34 | The default `send` always rejects. Its enhanced message starts with the provider tag and contains `send() not implemented` and the provider name. |
| BaseProvider.DefaultIdentity | providers/base.js:74-84 | `isConfigured()` is true by default, and `getName()` returns the constructor name. |
| OpenAILlm.Construct | providers/llm/openai.js:5-13 | A non-empty `OPENAI_MODEL` is the model, else `gpt-4o-mini`. A set timeout and `maxRetries` are used as read, else 30000 and 3. The key is kept. |
| OpenAILlm.EffectiveTimeout | providers/llm/openai.js:22-23 | The timeout is `options.timeout` when it is truthy (else the configured one), clamped to `[1000, 300000]`. |
| OpenAILlm.EffectiveMaxRetries | providers/llm/openai.js:24 | Any `options.maxRetries` other than `undefined` overrides the configured value. A number (0 included) is the budget, and `null` is a budget of no attempts, since `attempt < null` is false. |
| OpenAILlm.SendWithNullRetries | providers/llm/openai.js:24-33 | `options.maxRetries: null` makes no request whatever the configuration says, and the rejection is the TypeError of enhancing `null`. |
| OpenAILlm.MakeRequest | providers/llm/openai.js:37-56 | A 2xx reply resolves to its content (or `''`) under the configured model. A non-ok reply throws an error carrying the status. An abort becomes `Request timeout after Nms`; any other thrown error passes through. |
| OpenAILlm.Send | providers/llm/openai.js:19-35 | With no key, `send` throws `OPENAI_API_KEY not configured` before any request. At most `maxRetries` requests are made. On success, the last request got a 2xx reply and the text is that reply's content, or `''`. An enhanced failure carries the `[openai] ` tag and, as `originalError`, the error of the last request made. |
| OpenAILlm.Chat | providers/llm/openai.js:58-62 | `chat` resolves to the `text` of what `send` resolves to, and rejects with the same error. |
| OpenAILlm.HttpErrorRetryable | providers/llm/openai.js:48 | A non-ok reply is retried exactly when its status is 429 or at least 500. |
| OpenAILlm.TimeoutRetryable | providers/llm/openai.js:53 | An aborted request is retried, because its message mentions `timeout`. |
| OpenAILlm.SendFirstReplyOk | providers/llm/openai.js:19-35 | A 2xx first reply means one request, no retry, and the reply's content under the configured model. |
| OpenAILlm.SendClientErrorNotRetried | providers/llm/openai.js:26-48 | A 4xx reply other than 429 is not retried: one request, and the enhanced error wraps the status error. |
| OpenAILlm.SendServerErrorsExhaust | providers/llm/openai.js:24-33 | When every reply is a 5xx, exactly `maxRetries` requests are made, with `maxRetries-1` retries, and `send` rejects with the last status. |
| OpenAILlm.SendWithoutAttempts | providers/llm/openai.js:24-33 | `maxRetries: 0` makes no request, and the rejection is the TypeError of enhancing `null`. |
| OpenAIJudge.Complete | providers/openai.js:8-27 | The request carries the model, the prompt and the temperature. A non-ok reply rejects with status and body. A 2xx reply with a readable body resolves to its content or `''`. A 2xx reply whose body `resp.json()` cannot read, or reads as `null`, rejects with that error, and so does a failed `fetch`. |
| OpenAIJudge.Chat | providers/openai.js:6-28 | With no key, `chat` rejects with no request. Otherwise the temperature is `opts.temperature ?? 0.2`. |
| OpenAIJudge.ChatKeepsZeroTemperature | providers/openai.js:17 | An explicit temperature of 0 is kept. |
| OpenAIJudge.ChatEmptyContent | providers/openai.js:27 | A reply without content resolves to `''`. |
| OpenAIJudge.CandidateLines | providers/openai.js:37 | One judge line per candidate, in candidate order. |
| OpenAIJudge.JudgePromptPresentsAll | providers/openai.js:32-42 | The judge prompt quotes the question and every candidate: its text when ok, and `[エラー]` otherwise. |
| OpenAIJudge.Fallback | providers/openai.js:74-80 | The fallback adopts the first ok candidate's text and provider, or else `'No valid responses'` and `'none'`. |
| OpenAIJudge.Judge | providers/openai.js:29-81 | With no key, `judge` rejects. Otherwise it asks at temperature 0.3. A non-ok reply rejects and does not fall back. A resolved verdict is the parsed `{…}` span, or the fallback when there is no span or it does not parse. |
| OpenAIJudge.JudgeFallsBack | providers/openai.js:63-80 | Once the reply is 2xx and its body is readable, `judge` never rejects. With no span or an unparsable one, it yields the fallback. |
| OpenAIJudge.JudgeRejectsUnreadable | providers/openai.js:62-63 | A 2xx reply whose body cannot be read is read outside the `try`, so `judge` rejects with that error instead of falling back. |
| OpenAIJudge.FallbackWithoutValid | providers/openai.js:74-80 | With no ok candidate, the fallback is `No valid responses` / `none`. |
| Text.JsonSpan | providers/openai.js:66 | `/\{[\s\S]*\}/` matches from the first `{` to the last `}`. It matches nothing exactly when no `{` precedes a `}`. |
| Text.JsonSpanShape | providers/openai.js:66-69 | The extracted span is a piece of the reply that starts with `{` and ends with `}`. |
| Lexical.Split | server-broken.js:228 | `split(/\s+/)` yields at least one token, and no token contains a whitespace character. |
| Lexical.SplitKeepsText | server-broken.js:228 | Joining the tokens gives back the text without its whitespace. |
| Lexical.SplitCollapses | server-broken.js:228 | Joined with one space, the tokens give the text with each maximal whitespace run collapsed to one space. Together with the whitespace-free tokens, this fixes every token. |
| Lexical.SplitEdges | server-broken.js:228 | A leading whitespace run gives an empty first token, and a trailing run an empty last token. |
| Lexical.TokenSetIgnoresCase | server-broken.js:228 | The word set depends on the text only up to (ASCII) case. |
| Lexical.JaccardBounds | server-broken.js:236-241 | The Jaccard ratio lies in `[0,1]`. It is 0 for disjoint sets and 1 for equal sets. |
| Lexical.JaccardSymmetric | server-broken.js:236-241 | The Jaccard ratio is symmetric. |
| Candidates.ValidTextsCount | server-broken.js:66 | There are as many valid texts as ok candidates. |
| Candidates.FirstValidText | server-broken.js:104-106 | The first valid text is the text of the first ok candidate. |
| Candidates.FirstOk | providers/openai.js:75 | `candidates.find(c => c.ok)` gives the first ok index, or none exactly when no candidate is ok. |
| Candidates.NoValidTexts | server-broken.js:66 | There are no valid texts exactly when no candidate is ok. |
| ServerBroken.MapCandidates | server-broken.js:42-64 | Three candidates in the fixed order grok, gemini, claude, with their units and roles. A candidate is ok iff its call fulfilled, and its text is the value. A failed one carries the reason's message or `'Unknown error'`. |
| ServerBroken.CandidateOrder | server-broken.js:43 | The providers come out as grok, gemini, claude, whatever the order of settling. |
| ServerBroken.CalculateAgreement | server-broken.js:225-247 | The nested loops compute `Agreement`: 0 for fewer than two texts, else the mean Jaccard similarity over all pairs `i < j`. |
| ServerBroken.PairsOf | server-broken.js:235-243 | The inner loop adds the similarities of text `i` with every later text and counts them. |
| ServerBroken.CountPairsClosedForm | server-broken.js:234-243 | The loops make `n(n−1)/2` comparisons. |
| ServerBroken.AgreementBounds | server-broken.js:241-246 | The agreement lies in `[0,1]`. |
| ServerBroken.AgreementOfIdenticalTexts | server-broken.js:226-246 | Two or more texts equal up to case agree fully (1). |
| ServerBroken.AgreementOfTwo | server-broken.js:234-246 | For two texts, the agreement is their Jaccard similarity. |
| ServerBroken.AskForJudgment | server-broken.js:163-182 | The GPT helpers never reject. A chat failure or a parse failure gives the fixed failure text, and a parsed `{…}` span gives the parsed object. With no span, the result is the raw reply, or the failure text when the reply is empty. |
| ServerBroken.AskNeverEmpty | server-broken.js:170-181 | Unless the reply parses, the helper's `final` is a non-empty text. |
| ServerBroken.IntegrateWithGPT | server-broken.js:153-183 | Integration asks at temperature 0.3 with the integration prompt. With no key, it gives `Integration failed`. |
| ServerBroken.SynthesizeResponses | server-broken.js:185-215 | Synthesis asks at temperature 0.4 with the synthesis prompt. With no key, it gives `Synthesis failed`. |
| ServerBroken.FanOutOf | server-broken.js:31-32 | The temperature defaults to 0.2 and the timeout to 25000, through `??`, so 0 is kept. |
| ServerBroken.BranchOf | server-broken.js:73-103 | Only `integration` and `synthesis` have their own case; every other mode shares the consensus case. |
| ServerBroken.Consensus | server-broken.js:24-151 | See the list after this table. |
| ServerBroken.ValidResponsesCountsFulfilled | server-broken.js:140 | `valid_responses` is the number of fulfilled calls. |
| ServerBroken.FewValidMeansArbitration | server-broken.js:104-116 | With fewer than two valid texts, the consensus mode always calls the judge, even with none. |
| CaughtCandidates.Caught | consensus-route.js:32-34 | `.catch(e => ({ error: e.message }))` leaves the text, or an error object with the message. |
| CaughtCandidates.Entries | consensus-route.js:37-41 | Three entries in unit order. An entry is ok iff its slot has no truthy `error`; a failed entry's text is the error message. |
| CaughtCandidates.ValidEntriesCount | consensus-route.js:43 | The filter keeps exactly the ok entries. |
| CaughtCandidates.FirstValidEntry | consensus-route.js:43-54 | `validResponses[0]` is the first ok entry. |
| CaughtCandidates.MessagelessRejectionIsOk | consensus-route.js:32-38 | A call rejected without a message yields an ok candidate whose text is the error object. |
| CaughtCandidates.ValidCountOfSlots | consensus-route.js:43 | The valid count is the number of slots without a truthy error. |
| CaughtCandidates.HardCodedRatio | consensus-route.js:48 | `agreement_ratio` is 0.66 with two or more valid responses and 0.33 otherwise. |
| ConsensusRoute.IntegrationPromptPresentsAll | consensus-route.js:61-77 | The integration prompt shows every slot, with `(エラー)` for a failed one. |
| ConsensusRoute.Settle | consensus-route.js:78-97 | A failed GPT chat becomes `final` text: the prefix followed by the message. It is never thrown. |
| ConsensusRoute.Consensus | consensus-route.js:5-121 | See the list after this table. |
| TempConsensus.FailedSlotHidden | temp_consensus.js:48-51 | A failed slot reaches the GPT prompt as `[object Object]`, never as its message. |
| TempConsensus.Consensus | temp_consensus.js:4-75 | See the list after this table. |
| ProviderSlots.Dispatch | server-new.js:31-36 | `send` is called iff the provider is configured. An unconfigured provider gives a rejected slot. |
| ProviderSlots.Fields | server-new.js:37-42 | One keyed field per slot, in order. It holds `value.text` iff the call was configured and fulfilled, and null otherwise. |
| ProviderSlots.SendCalls | server-new.js:31-36 | `send` is called exactly on the configured providers. |
| ServerNew.Valid | server-new.js:43 | `valid` keeps only truthy (non-empty) texts. |
| ServerNew.ValidCount | server-new.js:43-44 | `metrics.valid` counts the truthy slots. |
| ServerNew.FirstValid | server-new.js:43-44 | `valid[0]` is the first truthy slot. |
| ServerNew.NoValid | server-new.js:43-44 | With no truthy slot, `valid` is empty. |
| ServerNew.Consensus | server-new.js:26-48 | A falsy prompt gives 400 `Prompt required` and no `send`. Otherwise the four fields are balthasar, melchior, casper and mary, `valid` is their truthy count, and `final` is never empty. |
| ServerNew.FinalIsFirstValid | server-new.js:43-44 | `final` is the first truthy slot's text, or `'No response'` when there is none. |
| ServerNew.EmptyTextNotValid | server-new.js:43-44 | Providers that all answer `''` give `No response` with `valid` 0. |
| ConsensusFix.CallAllAIs | consensus-fix.js:12-24 | Exactly three keys, balthasar, melchior and casper, in order. `send` is called iff configured. A slot holds `value.text` iff it was configured and fulfilled, and is null otherwise; `callAllAIs` never rejects. |
| StockAiAnalysis.Similarity | routes/stock-ai-analysis.js:163-172 | Below two texts the score is 0.5. Otherwise, times the number of distinct words of the first two texts together, it gives the number of distinct words of the first text. |
| StockAiAnalysis.ValidTexts | routes/stock-ai-analysis.js:48-50 | There are no valid texts iff no result is ok. Otherwise the first valid text is the text of the first ok result. |
| StockAiAnalysis.SimilarityBounds | routes/stock-ai-analysis.js:163-172 | The score `|S0|/|S0∪S1|` lies in `(0,1]`, and it is 1 iff every word of the second text occurs in the first. |
| StockAiAnalysis.SimilarityIgnoresTheRest | routes/stock-ai-analysis.js:167-169 | Only the first two texts are compared. |
| StockAiAnalysis.DisjointTextsScoreAboveZero | routes/stock-ai-analysis.js:168-171 | The numerator is not the intersection: two texts with no word in common score 0.5. |
| StockAiAnalysis.ProviderResults | routes/stock-ai-analysis.js:28-45 | Three results in the fixed order grok, gemini, claude. Each is ok with its text iff fulfilled, and failed with its error otherwise. |
| StockAiAnalysis.AgreementRatio | routes/stock-ai-analysis.js:48-51 | The agreement is the similarity of the valid texts when more than one is valid, else 0.5; it always lies in `(0,1]`. |
| StockAiAnalysis.Report | routes/stock-ai-analysis.js:120-124 | A reported candidate's text is `c.text \|\| c.error`. |
| StockAiAnalysis.EmptyTextReportedMissing | routes/stock-ai-analysis.js:120-124 | A candidate that resolved to `''` is reported with no text. |
| StockAiAnalysis.ProviderTemperature | routes/stock-ai-analysis.js:29-37 | The temperature is `opts.temperature \|\| 0.3`, so an explicit 0 becomes 0.3. |
| StockAiAnalysis.Analyse | routes/stock-ai-analysis.js:28-158 | The judge is always called. A rejected chat gives a 500. A reply with no `{…}` span leaves `judgeData` null, which gives a 500. Otherwise the judgment is the parsed object, or the default object when parsing fails. The reported candidates, the agreement and the raw reply come from the route's inputs. |
| DataManager.Manager.constructor | core/data-manager.js:4-7 | An empty registry with no active provider. |
| DataManager.Manager.Register | core/data-manager.js:9-16 | The name is bound to the new instance, replacing an earlier one. A new name is appended to the key order. `active` is set to the name only while it is falsy, so only the first registration sets it. The registry stays well-formed. |
| DataManager.Manager.Use | core/data-manager.js:18-24 | A name becomes active when it is registered or is inherited from `Object.prototype` (such as `toString`), since either makes `this.providers[name]` truthy. Any other name yields `Provider '<name>' not registered` and leaves `active` unchanged. |
| DataManager.Manager.Targets | core/data-manager.js:28 | The targets are the given list (even an empty one), else all registered names in insertion order. |
| DataManager.Manager.QuoteMulti | core/data-manager.js:27-35 | There is one entry per target, in target order. Each is ok with data iff that provider's quote resolves, and failed with its message otherwise. The call rejects iff some target is not registered. |
| DataManager.Manager.QuoteMultiOfAll | core/data-manager.js:27-35 | Over all registered providers, `getQuoteMulti` resolves with one entry per provider. |
| DataManager.Manager.QuoteBestOf | core/data-manager.js:70-88 | `getQuoteBestOf` throws `No valid quotes found from any provider` exactly when no provider's quote resolves. |
| DataManager.Manager.Status | core/data-manager.js:55-67 | One check per registered provider, in key order. A check is ok iff its `ping` resolves and otherwise carries the message. The report includes the current `active`. |
| DataManager.Entry | core/data-manager.js:31-32 | A resolved quote gives an ok entry with data; a rejection gives a failed entry with the message. |
| DataManager.ValidEntriesExactly | core/data-manager.js:72 | `valid` holds exactly the ok entries. |
| DataManager.Mean | core/data-manager.js:79-80 | The mean times the count is the sum of the prices. |
| DataManager.MeanWithin | core/data-manager.js:80 | The mean of prices within `[lo, hi]` lies within `[lo, hi]`. |
| DataManager.BestOf | core/data-manager.js:72-87 | It fails iff no entry is ok. Otherwise `providers` lists the valid ones in order with their prices, `price` is their mean, and confidence is `high` iff more than one is valid, else `medium`. |
| DataManager.BestOfPriceWithin | core/data-manager.js:79-84 | The best-of price lies between the lowest and the highest valid price. |
| MagiClient.KeywordAction | analyzers/magi-client.js:77-87 | The action is BUY iff a buy word matches, SELL iff a sell word matches and no buy word does, and HOLD otherwise. |
| MagiClient.KeywordConfidence | analyzers/magi-client.js:70-87 | The confidence is 70 after a buy or sell match, 60 after a hold match, and 50 when nothing matches. |
| MagiClient.FirstMatch | analyzers/magi-client.js:89 | The search for `確信度[：:]\s*(\d+)\s*%` finds the leftmost position where it matches. |
| MagiClient.ExplicitNeedsKeyword | analyzers/magi-client.js:89-92 | A figure is read only from a text that contains `確信度`, and every text with a match yields one. |
| MagiClient.ConfidenceAtShape | analyzers/magi-client.js:89 | A match is `確信度`, a full- or half-width colon, spaces and at least one digit. |
| MagiClient.ReadsFigure | analyzers/magi-client.js:89-91 | `確信度: 85%` is read as 85. |
| MagiClient.ExtractRecommendation | analyzers/magi-client.js:69-105 | The step-by-step overwriting yields `Expected(text)`. That is: the keyword action, and a confidence taken from the explicit figure or the keyword default, then raised by a strong phrase (`min(90, c+15)`), then lowered by a weak one (`max(40, c−10)`). |
| MagiClient.NothingFoundIsNeutral | analyzers/magi-client.js:70-74 | With nothing to go on, the result is HOLD at 50. |
| MagiClient.BuyWins | analyzers/magi-client.js:77-83 | A text with both buy and sell words yields BUY. |
| MagiClient.ExplicitOverrides | analyzers/magi-client.js:89-92 | An explicit figure replaces the keyword confidence. |
| MagiClient.StrongCaps | analyzers/magi-client.js:95-97 | A strong phrase caps the confidence at 90, lowering an explicit figure above 90. |
| MagiClient.WeakFloor | analyzers/magi-client.js:100-102 | With a weak phrase, the final confidence is at least 40. |
| MagiClient.KeywordRange | analyzers/magi-client.js:70-102 | Without an explicit figure, the confidence stays within 40 to 85. |
| SpecClient.CountLoaded | spec-client.js:67 | The loaded count is at most 3. It is 0 iff all three are null, and 3 iff none is. |
| SpecClient.LoadSpecifications | spec-client.js:49-71 | A truthy `aiModels` is replaced by what it parses to; on a parse failure the raw text stays. The count is the number of non-null specs. |
| SpecClient.ParsedNullNotCounted | spec-client.js:59-67 | A config that fails to parse is counted as its raw text; one that parses to `null` is not counted. |
| SpecClient.UndefinedCounts | spec-client.js:67 | A missing `content` is not `null`, so it is counted. |
| SpecClient.EnhancePromptWithSpec | spec-client.js:74-95 | The prompt is unchanged when `specs` or `specs.magiSysSpec` is falsy. Otherwise the result starts with the context header and the spec, and ends with the prompt and a newline. |
| SpecClient.PromptRecoverable | spec-client.js:79-92 | The user prompt can be read back from the end of the wrapped prompt. |
| AuthBypass.Decide | auth-bypass.js:2-14 | Development always passes. Otherwise a request passes iff its Authorization header starts with exactly `Bearer `; any other request gets 401 `Unauthorized`. |
| AuthBypass.RefusesMalformed | auth-bypass.js:9-12 | Outside development, a missing header or one with another prefix (`bearer `, `Bearer` without the space) is refused. |
| AuthBypass.AnyTokenPasses | auth-bypass.js:10-13 | Any token after `Bearer `, even an empty one, passes. |
| OAuthUtil.GetRedirectUri | utils/oauthUtil.js:1-5 | The result is `proto + "://" + host + "/auth/callback"`. `proto` is the forwarded protocol when truthy, else the request protocol. |
| OAuthUtil.HostRecoverable | utils/oauthUtil.js:3-4 | The host can be read back from the URI. |
| OAuthUtil.EmptyForwardedProtoFallsBack | utils/oauthUtil.js:2 | An empty `x-forwarded-proto` falls back to the request protocol. |

The three handler rows above carry their full contracts here.

**ServerBroken.Consensus** (server-broken.js:24-151):
- A falsy prompt gives 400 `prompt is required` and no calls.
- The candidates, the mode (`?? 'consensus'`), the agreement and `valid_responses` are those of the inputs.
- `integration` and `synthesis` always call their helper. Their `judge.method` is `integration` or `synthesis` and their decision is `INTEGRATED` or `SYNTHESIZED`. The `final` answer and the judge's `reason` are the helper's judgment, and the judge model is `OPENAI_MODEL` or `gpt-4o-mini`.
- Any other mode with an agreement of at least 0.66 adopts the first valid text (or `No valid responses`) as `APPROVED`, with no judge call.
- Below 0.66 the judge is called: its verdict is `ARBITRATED`, and its failure becomes a 500.

**ConsensusRoute.Consensus** (consensus-route.js:5-121):
- A falsy prompt gives 400.
- With no valid response, `final` is the fixed error text with method `error` and no GPT call.
- `consensus` with at least two valid responses adopts the first valid text as `consensus_adopted`.
- One valid response, or mode `integration`, integrates at temperature 0.3.
- `synthesis` with at least two valid responses synthesizes at 0.7.
- Any other mode with at least two valid responses keeps the error text.
- The ratio is hard-coded.

**TempConsensus.Consensus** (temp_consensus.js:4-75):
- A falsy prompt gives 400.
- With no valid response, or an unknown mode, `final` is the fixed error text.
- `consensus` adopts the first valid text without any agreement check.
- `integration` and `synthesis` chat at 0.3 and 0.7; a failed chat is not caught and becomes a 500.
- `judge.method` echoes the mode, and the ratio is hard-coded.

## Left out

- Concurrency and timing are not modelled. This covers `executeWithTimeout`'s `Promise.race` and timer (server-broken.js:217-224), `sleep` between retries, the `AbortController` timer, `Date.now` latencies, `response_time_ms` and ISO timestamps. Settled outcomes are given in order, and delays are returned rather than slept. A provider call that times out is a rejected outcome.
- Randomness is a parameter: `Math.random()` in the jitter is the input `rand(attempt)`, with values in `[0, 1)`.
- `JSON.parse` is an uninterpreted oracle, and a parse that throws is `None`. What a parsed object contains beyond the fields read (`insights`, `key_points` and the like) is not modelled.
- Case folding is ASCII only. `toLowerCase` and the `i` regex flag are modelled on ASCII letters; other scripts pass through unchanged, which is exact for the Japanese keywords.
- Floating point is not modelled: ratios, prices and means are exact reals. `toFixed` formatting (the percentages in log lines and in `agreement_ratio` of the stock route) is not modelled.
- The network clients are inputs. `providers/grok.js`, `gemini.js`, `anthropic.js` and `mistral.js`, `fetch`, and the spec-client's `fetchSpecification` and `getIdToken` are not part of this model; their results come in as outcomes. The placeholder error strings returned by gemini.js:22 and anthropic.js:26 therefore look like ok answers to every aggregation, as they do in the source.
- Console logging is not modelled, nor the `onRetry` callback's exceptions, which the source catches and logs. The announcements are returned as a sequence instead.
- DataManager's `getQuote`, `getHistorical`, `getFinancials` and `getNews` (core/data-manager.js:38-52) only delegate to the active provider, and are not modelled.
- `Object.keys` in DataManager is modelled as insertion order. JavaScript lists integer-like keys first; that is not modelled.
- The analytics engine behind the stock route (`analyzeStock`, its quote and metrics, the `data_analysis` block) is not part of this model. The route is modelled from the prompt it produces.
- `/api/grok/ping` and `/api/decision` in server-broken.js, and the routes other than `/api/consensus`, are not part of this model.
- A request body whose `prompt` is truthy but not a string (which makes server-broken.js:34 and server-new.js throw) is not modelled. Prompts are strings.
- A null `meta` is not modelled either: prompts and meta fields are `Option` values.
- The `name: "Isabelle"` label, the consensus `reason` text with its percentage, and the `insights` of the judge object in server-broken.js are not modelled.
- `parseInt` is modelled as the exact value of the digits; precision loss for very long digit runs is not modelled.
- The providers that server-new.js and consensus-fix.js instantiate define `chat` but not `isConfigured`/`send`. The model follows the abstract provider interface the handlers are written against: `configured` plus a `send` outcome.
- providers/llm/openai.js requires `./base` and `../utils/retry` relative to its own directory. The model assumes the providers/base.js and utils/retry.js shown.
- A rejection of `_enhanceError` when `retry` throws `null` is modelled as the cause `NullTypeError`, without the TypeError's text.
- OpenAILlm.SendFirstReplyOk: assumes a non-empty configured model, which the constructor guarantees (OpenAILlm.Construct) but a hand-built value might not.
- OpenAILlm.Construct: a non-numeric `OPENAI_TIMEOUT_MS` or `OPENAI_MAX_RETRIES` makes `parseInt` yield NaN (providers/llm/openai.js:8-9). The environment values are modelled as numbers, so NaN is not modelled. A NaN budget would make no request; a NaN timeout would survive the clamp.
- BaseProvider.EnhanceError: the context `{prompt, options, latency}` keeps only the prompt (providers/base.js:31-33). The options are not kept, and the latency and the timestamp are clock readings.
- DataManager.Manager.Register: registering the name `__proto__` replaces the dictionary's prototype instead of adding a key, so `Object.keys` does not list it and the inherited names change. The model treats `__proto__` as an ordinary key. DataManager.Manager.Use assumes the standard `Object.prototype` members and nothing added to them.
- DataManager.Manager.Register: a second registration of the same name is stated by its contract (the instance is replaced and the order kept). A separate lemma about two successive registrations is not included.
