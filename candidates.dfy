/** The fan-in shared by the consensus handlers: settled provider calls, in
    the order the providers were listed, become candidate answers. */
module Candidates {
  import opened Wrappers

  /** How a promise settled: with a value, or rejected with a reason whose
      `message` may be missing (`reason?.message`). */
  datatype Settled<T> = Fulfilled(value: T) | Rejected(reasonMessage: Option<string>)

  /** A candidate's answer: a text, or the error that replaced it. */
  datatype Outcome = Ok(text: string) | Err(error: string)

  /** A candidate answer of one MAGI unit. */
  datatype Candidate = Candidate(provider: string, magiUnit: string, role: string, outcome: Outcome)

  /** The `meta` of a request body; `None` is a missing (or null) property. */
  datatype Meta = Meta(temperature: Option<real>, timeoutMs: Option<int>, mode: Option<string>)

  /** A MAGI unit: the provider behind it, its name and its role. */
  datatype Unit = Unit(provider: string, magiUnit: string, role: string)

  /** The three units, in the fixed order of the fan-out. */
  const Units: seq<Unit> := [
    Unit("grok", "BALTHASAR-2", "創造的・革新的分析"),
    Unit("gemini", "MELCHIOR-1", "論理的・科学的分析"),
    Unit("claude", "CASPER-3", "人間的・感情的分析")]

  /** The texts of the ok candidates, in candidate order
      (`candidates.filter(c => c.ok).map(c => c.text)`). */
  function ValidTexts(cs: seq<Candidate>): (r: seq<string>)
    ensures |r| <= |cs|
    ensures forall t :: t in r ==> exists c :: c in cs && c.outcome == Ok(t)
    decreases |cs|
  {
    if cs == [] then []
    else
      var rest := ValidTexts(cs[1..]);
      assert forall t :: t in rest ==> exists c :: c in cs[1..] && c.outcome == Ok(t);
      if cs[0].outcome.Ok? then [cs[0].outcome.text] + rest else rest
  }

  /** The number of ok candidates. */
  function CountOk(cs: seq<Candidate>): nat
    decreases |cs|
  {
    if cs == [] then 0 else (if cs[0].outcome.Ok? then 1 else 0) + CountOk(cs[1..])
  }

  /** There are as many valid texts as ok candidates. */
  lemma {:induction false} ValidTextsCount(cs: seq<Candidate>)
    ensures |ValidTexts(cs)| == CountOk(cs)
    decreases |cs|
  {
    if cs != [] {
      ValidTextsCount(cs[1..]);
    }
  }

  /** The first valid text is the text of the first ok candidate. */
  lemma {:induction false} FirstValidText(cs: seq<Candidate>, i: nat)
    requires i < |cs| && cs[i].outcome.Ok?
    requires forall k :: 0 <= k < i ==> !cs[k].outcome.Ok?
    ensures |ValidTexts(cs)| > 0 && ValidTexts(cs)[0] == cs[i].outcome.text
    decreases i
  {
    if i > 0 {
      FirstValidText(cs[1..], i - 1);
    }
  }

  /** `candidates.find(c => c.ok)`, as an index. */
  function FirstOk(cs: seq<Candidate>): (r: Option<nat>)
    ensures r.Some? ==> r.value < |cs| && cs[r.value].outcome.Ok?
                        && forall k :: 0 <= k < r.value ==> !cs[k].outcome.Ok?
    ensures r.None? <==> forall k :: 0 <= k < |cs| ==> !cs[k].outcome.Ok?
    decreases |cs|
  {
    if cs == [] then None
    else if cs[0].outcome.Ok? then Some(0)
    else
      match FirstOk(cs[1..])
      case None => None
      case Some(i) => Some(i + 1)
  }

  /** Exactly the ok candidates have valid texts: none are valid iff no
      candidate is ok. */
  lemma NoValidTexts(cs: seq<Candidate>)
    ensures ValidTexts(cs) == [] <==> FirstOk(cs).None?
  {
    if FirstOk(cs).Some? {
      FirstValidText(cs, FirstOk(cs).value);
    } else {
      NoneOkNoTexts(cs);
    }
  }

  lemma {:induction false} NoneOkNoTexts(cs: seq<Candidate>)
    requires forall k :: 0 <= k < |cs| ==> !cs[k].outcome.Ok?
    ensures ValidTexts(cs) == []
    decreases |cs|
  {
    if cs != [] {
      NoneOkNoTexts(cs[1..]);
    }
  }
}
