/** The fan-in of the two handlers that use `Promise.all` with
    `.catch(e => ({ error: e.message }))` (consensus-route.js and
    temp_consensus.js): a failed call leaves an object in its slot, and a
    candidate is ok iff that slot has no truthy `error`. */
module CaughtCandidates {
  import opened Wrappers
  import opened Text
  import opened Candidates

  /** A slot of the awaited array: the text a call resolved to, or the
      `{ error: e.message }` object its `.catch` produced. */
  datatype JsValue = Str(s: string) | ErrorObject(error: Option<string>)

  /** What `.catch(e => ({ error: e.message }))` leaves in a slot. */
  function Caught(s: Settled<string>): (v: JsValue)
    ensures s.Fulfilled? ==> v == Str(s.value)
    ensures s.Rejected? ==> v == ErrorObject(s.reasonMessage)
  {
    match s
    case Fulfilled(text) => Str(text)
    case Rejected(message) => ErrorObject(message)
  }

  function Slots(results: seq<Settled<string>>): (r: seq<JsValue>)
    ensures |r| == |results| && forall i :: 0 <= i < |r| ==> r[i] == Caught(results[i])
  {
    seq(|results|, i requires 0 <= i < |results| => Caught(results[i]))
  }

  /** `results[i].error` is truthy: only an object with a non-empty message. */
  predicate Failed(v: JsValue) {
    v.ErrorObject? && Truthy(v.error)
  }

  /** `${v}` in a template literal: an object reads `[object Object]`. */
  function Interpolate(v: JsValue): string {
    match v
    case Str(s) => s
    case ErrorObject(_) => "[object Object]"
  }

  /** A candidate: `text` holds the error message of a failed slot and the
      slot itself otherwise. */
  datatype Entry = Entry(provider: string, magiUnit: string, ok: bool, text: JsValue)

  /** The literal `candidates` array, one entry per slot in unit order. */
  function Entries(slots: seq<JsValue>): (r: seq<Entry>)
    requires |slots| == |Units|
    ensures |r| == |Units|
    ensures forall i :: 0 <= i < |r| ==>
      && r[i].provider == Units[i].provider && r[i].magiUnit == Units[i].magiUnit
      && (r[i].ok <==> !Failed(slots[i]))
      && r[i].text == (if Failed(slots[i]) then Str(slots[i].error.value) else slots[i])
  {
    seq(|slots|, i requires 0 <= i < |slots| =>
      var v := slots[i];
      Entry(Units[i].provider, Units[i].magiUnit, !Failed(v), if Failed(v) then Str(v.error.value) else v))
  }

  /** `candidates.filter(c => c.ok)`. */
  function ValidEntries(es: seq<Entry>): (r: seq<Entry>)
    ensures |r| <= |es|
    ensures forall k :: 0 <= k < |r| ==> r[k].ok && r[k] in es
    decreases |es|
  {
    if es == [] then []
    else if es[0].ok then [es[0]] + ValidEntries(es[1..])
    else ValidEntries(es[1..])
  }

  /** The number of ok entries. */
  function CountValid(es: seq<Entry>): nat
    decreases |es|
  {
    if es == [] then 0 else (if es[0].ok then 1 else 0) + CountValid(es[1..])
  }

  /** The filter keeps every ok entry, in order: its length is the count of
      ok entries, and its head is the first ok entry. */
  lemma {:induction false} ValidEntriesCount(es: seq<Entry>)
    ensures |ValidEntries(es)| == CountValid(es)
    decreases |es|
  {
    if es != [] {
      ValidEntriesCount(es[1..]);
    }
  }

  lemma {:induction false} FirstValidEntry(es: seq<Entry>, i: nat)
    requires i < |es| && es[i].ok
    requires forall k :: 0 <= k < i ==> !es[k].ok
    ensures |ValidEntries(es)| > 0 && ValidEntries(es)[0] == es[i]
    decreases i
  {
    if i > 0 {
      FirstValidEntry(es[1..], i - 1);
    }
  }

  /** A slot counts as valid unless its call failed with a non-empty message:
      a call rejected without a message yields an ok candidate whose text is
      the error object. */
  lemma MessagelessRejectionIsOk(results: seq<Settled<string>>, i: nat)
    requires |results| == |Units| && i < |results|
    requires results[i].Rejected? && !Truthy(results[i].reasonMessage)
    ensures var e := Entries(Slots(results))[i];
            e.ok && e.text == ErrorObject(results[i].reasonMessage)
  {
  }

  /** The valid count is the number of slots without a truthy error. */
  lemma ValidCountOfSlots(slots: seq<JsValue>)
    requires |slots| == |Units|
    ensures |ValidEntries(Entries(slots))|
         == (if Failed(slots[0]) then 0 else 1)
          + (if Failed(slots[1]) then 0 else 1)
          + (if Failed(slots[2]) then 0 else 1)
  {
    var es := Entries(slots);
    ValidEntriesCount(es);
    assert es[1..][1..] == es[2..];
    assert es[2..][1..] == [];
    assert CountValid(es[2..]) == (if es[2].ok then 1 else 0) + CountValid([]);
    assert CountValid(es[1..]) == (if es[1].ok then 1 else 0) + CountValid(es[2..]);
  }

  /** `agreement_ratio`: hard-coded from the number of valid responses. */
  function HardCodedRatio(valid: nat): (r: real)
    ensures valid >= 2 ==> r == 0.66
    ensures valid < 2 ==> r == 0.33
  {
    if valid >= 2 then 0.66 else 0.33
  }

  /** The `final` of a request whose calls all failed. */
  const AllFailed := "エラー：すべてのAIからの応答に失敗しました"
}
