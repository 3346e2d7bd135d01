/** spec-client.js: the specifications loaded at start-up and the wrapper
    that puts the MAGI system specification in front of a user prompt. The
    three fetches are inputs, and `JSON.parse` is an oracle `parse`. */
module SpecClient {
  import opened Wrappers
  import opened Text

  /** What `fetchSpecification` resolves to: `null` after any failure, else
      the `content` of the reply, which may be missing. */
  datatype Fetched = Null | Undefined | Content(text: string)

  /** `specs.aiModels`: the fetched value as it came, or what `JSON.parse`
      made of it (`None` is a parsed `null`). */
  datatype AiModels<J> = Unparsed(raw: Fetched) | Parsed(json: Option<J>)

  datatype Specs<J> = Specs(systemOverview: Fetched, magiSysSpec: Fetched, aiModels: AiModels<J>)

  /** What `loadSpecifications` resolves to, with the count it reports. */
  datatype Loaded<J> = Loaded(specs: Specs<J>, loaded: nat)

  predicate TruthyFetched(f: Fetched) {
    f.Content? && f.text != ""
  }

  /** `s !== null` for one value of `specs`. */
  function NotNull<J>(a: AiModels<J>): bool {
    match a
    case Unparsed(f) => !f.Null?
    case Parsed(v) => v.Some?
  }

  /** `Object.values(specs).filter(s => s !== null).length`. */
  function CountLoaded<J>(s: Specs<J>): (n: nat)
    ensures n <= 3
    ensures n == 0 <==> s.systemOverview.Null? && s.magiSysSpec.Null? && !NotNull(s.aiModels)
    ensures n == 3 <==> !s.systemOverview.Null? && !s.magiSysSpec.Null? && NotNull(s.aiModels)
  {
    (if s.systemOverview.Null? then 0 else 1)
    + (if s.magiSysSpec.Null? then 0 else 1)
    + (if NotNull(s.aiModels) then 1 else 0)
  }

  /** `loadSpecifications()` given the three fetched values. `parse` fails
      with the error's message where `JSON.parse` throws. */
  method LoadSpecifications<J>(overview: Fetched, sysSpec: Fetched, aiModels: Fetched,
                               parse: string -> Result<Option<J>, string>) returns (r: Loaded<J>)
    ensures r.specs.systemOverview == overview && r.specs.magiSysSpec == sysSpec
    ensures !TruthyFetched(aiModels) ==> r.specs.aiModels == Unparsed(aiModels)
    ensures TruthyFetched(aiModels) && parse(aiModels.text).Failure? ==> r.specs.aiModels == Unparsed(aiModels)
    ensures TruthyFetched(aiModels) && parse(aiModels.text).Success? ==>
              r.specs.aiModels == Parsed(parse(aiModels.text).value)
    ensures r.loaded == CountLoaded(r.specs)
  {
    var specs: Specs<J> := Specs(overview, sysSpec, Unparsed(aiModels));
    if TruthyFetched(aiModels) {
      var parsed := parse(aiModels.text);
      if parsed.Success? {
        specs := specs.(aiModels := Parsed(parsed.value));
      }
    }
    var loaded := CountLoaded(specs);
    r := Loaded(specs, loaded);
  }

  /** A config that fails to parse is still counted, as its raw text; one
      that parses to `null` drops out of the count. */
  lemma ParsedNullNotCounted<J>(overview: Fetched, sysSpec: Fetched, text: string)
    ensures CountLoaded(Specs(overview, sysSpec, AiModels<J>.Unparsed(Content(text))))
         == CountLoaded(Specs(overview, sysSpec, AiModels<J>.Parsed(None))) + 1
  {
  }

  /** A missing `content` is not `null`, so it is counted as loaded. */
  lemma UndefinedCounts<J>()
    ensures CountLoaded(Specs(Undefined, Undefined, AiModels<J>.Unparsed(Undefined))) == 3
  {
  }

  const ContextIntro :=
    "\n# MAGI System Context (Reference Only - Do not repeat this in your response)\n\n"
    + "You are part of the MAGI System. Here are the official specifications:\n\n"
  const ContextOutro :=
    "\n\nYour role and parameters are defined above. Please provide your analysis according to your designated role.\n\n"
    + "---\n\n# User Question:\n"

  /** `enhancePromptWithSpec(prompt, specs)`; `specs` is `None` when falsy. */
  function EnhancePromptWithSpec<J>(prompt: string, specs: Option<Specs<J>>): (r: string)
    ensures specs.None? || !TruthyFetched(specs.value.magiSysSpec) ==> r == prompt
    ensures specs.Some? && TruthyFetched(specs.value.magiSysSpec) ==>
              && Contains(r, specs.value.magiSysSpec.text)
              && EndsWith(r, prompt + "\n")
              && StartsWith(r, ContextIntro + specs.value.magiSysSpec.text)
  {
    if specs.None? || !TruthyFetched(specs.value.magiSysSpec) then prompt
    else
      var spec := specs.value.magiSysSpec.text;
      var r := ContextIntro + spec + ContextOutro + prompt + "\n";
      ContainsInfix(ContextIntro, spec, ContextOutro + prompt + "\n");
      assert ContextIntro + spec + (ContextOutro + prompt + "\n") == r;
      assert r[|r| - |prompt + "\n"|..] == prompt + "\n";
      assert r[..|ContextIntro + spec|] == ContextIntro + spec;
      r
  }

  /** The user prompt can be read back from the wrapped prompt: it is what
      follows the question heading, less the final newline. */
  lemma PromptRecoverable<J>(prompt: string, specs: Specs<J>)
    requires TruthyFetched(specs.magiSysSpec)
    ensures var r := EnhancePromptWithSpec(prompt, Some(specs));
            var tail := |prompt| + 1;
            r[|r| - tail..|r| - 1] == prompt
  {
    var r := EnhancePromptWithSpec(prompt, Some(specs));
    assert r[|r| - (|prompt| + 1)..] == prompt + "\n";
    assert r[|r| - (|prompt| + 1)..|r| - 1] == (prompt + "\n")[..|prompt|];
  }
}
