/** server-new.js: the four-slot `/api/consensus` handler, which answers
    with the first non-empty text. */
module ServerNew {
  import opened Wrappers
  import opened Text
  import opened ProviderSlots

  const Keys := ["balthasar", "melchior", "casper", "mary"]

  /** `Object.values(resp).filter(x => x)`: the non-empty texts, in slot order. */
  function Valid(fields: seq<Field>): (r: seq<string>)
    ensures |r| <= |fields|
    ensures forall k :: 0 <= k < |r| ==> r[k] != ""
    decreases |fields|
  {
    if fields == [] then []
    else if Truthy(fields[0].value) then [fields[0].value.value] + Valid(fields[1..])
    else Valid(fields[1..])
  }

  /** The number of slots holding a non-empty text. */
  function CountTruthy(fields: seq<Field>): nat
    decreases |fields|
  {
    if fields == [] then 0 else (if Truthy(fields[0].value) then 1 else 0) + CountTruthy(fields[1..])
  }

  lemma {:induction false} ValidCount(fields: seq<Field>)
    ensures |Valid(fields)| == CountTruthy(fields)
    decreases |fields|
  {
    if fields != [] {
      ValidCount(fields[1..]);
    }
  }

  /** The first valid text is the value of the first slot holding a
      non-empty text; without one there is no valid text. */
  lemma {:induction false} FirstValid(fields: seq<Field>, i: nat)
    requires i < |fields| && Truthy(fields[i].value)
    requires forall k :: 0 <= k < i ==> !Truthy(fields[k].value)
    ensures |Valid(fields)| > 0 && Valid(fields)[0] == fields[i].value.value
    decreases i
  {
    if i > 0 {
      FirstValid(fields[1..], i - 1);
    }
  }

  lemma {:induction false} NoValid(fields: seq<Field>)
    requires forall k :: 0 <= k < |fields| ==> !Truthy(fields[k].value)
    ensures Valid(fields) == []
    decreases |fields|
  {
    if fields != [] {
      NoValid(fields[1..]);
    }
  }

  datatype NewReply =
    | BadRequest(error: string)
    | Answer(final: string, fields: seq<Field>, valid: nat)

  /** The handler's reply and which providers had `send` called. */
  datatype Handled = Handled(reply: NewReply, sendCalls: seq<bool>)

  /** `POST /api/consensus`. */
  function Consensus(prompt: Option<string>, ps: seq<Provider>): (h: Handled)
    requires |ps| == |Keys|
    ensures !Truthy(prompt) ==> h == Handled(BadRequest("Prompt required"), [])
    ensures Truthy(prompt) ==>
      && h.reply.Answer?
      && h.reply.fields == Fields(Keys, ps)
      && h.reply.valid == CountTruthy(Fields(Keys, ps))
      && h.sendCalls == SendCalls(ps)
      && h.reply.final != ""
  {
    if !Truthy(prompt) then Handled(BadRequest("Prompt required"), [])
    else
      var resp := Fields(Keys, ps);
      var valid := Valid(resp);
      ValidCount(resp);
      Handled(Answer(if |valid| > 0 then valid[0] else "No response", resp, |valid|), SendCalls(ps))
  }

  /** `final` is the text of the first slot with a non-empty text, or
      `'No response'` when there is none. */
  lemma FinalIsFirstValid(prompt: Option<string>, ps: seq<Provider>)
    requires |ps| == |Keys| && Truthy(prompt)
    ensures var fields := Fields(Keys, ps);
            var final := Consensus(prompt, ps).reply.final;
            && (forall k :: 0 <= k < |fields| ==> !Truthy(fields[k].value)) ==> final == "No response"
    ensures var fields := Fields(Keys, ps);
            forall i :: 0 <= i < |fields| && Truthy(fields[i].value)
                        && (forall k :: 0 <= k < i ==> !Truthy(fields[k].value)) ==>
              Consensus(prompt, ps).reply.final == fields[i].value.value
  {
    var fields := Fields(Keys, ps);
    if forall k :: 0 <= k < |fields| ==> !Truthy(fields[k].value) {
      NoValid(fields);
    }
    forall i | 0 <= i < |fields| && Truthy(fields[i].value) && (forall k :: 0 <= k < i ==> !Truthy(fields[k].value))
      ensures Consensus(prompt, ps).reply.final == fields[i].value.value
    {
      FirstValid(fields, i);
    }
  }

  /** A provider that resolves with an empty text is answered but not valid. */
  lemma EmptyTextNotValid(ps: seq<Provider>)
    requires |ps| == |Keys|
    requires forall i :: 0 <= i < |ps| ==> ps[i].configured && ps[i].send == Candidates.Fulfilled("")
    ensures Consensus(Some("q"), ps).reply == Answer("No response", Fields(Keys, ps), 0)
  {
    var fields := Fields(Keys, ps);
    NoValid(fields);
  }
}
