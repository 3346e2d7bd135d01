/** The settled-slot fan-in of server-new.js and consensus-fix.js: each
    provider is called only when it is configured, `Promise.allSettled`
    never rejects, and each slot becomes a keyed `text` or `null`. */
module ProviderSlots {
  import opened Wrappers
  import opened Text
  import opened Candidates

  /** A provider as these handlers use it: whether `isConfigured()` holds,
      and how `send(prompt)` would settle (with the `text` of the response). */
  datatype Provider = Provider(configured: bool, send: Settled<string>)

  /** `p.isConfigured() ? p.send(prompt) : Promise.reject(reason)`: whether
      `send` was called, and how the slot settled. */
  datatype Dispatched = Dispatched(sendCalled: bool, settled: Settled<string>)

  function Dispatch(p: Provider): (d: Dispatched)
    ensures d.sendCalled == p.configured
    ensures p.configured ==> d.settled == p.send
    ensures !p.configured ==> d.settled.Rejected?
  {
    if p.configured then Dispatched(true, p.send) else Dispatched(false, Rejected(None))
  }

  /** A property of the result object, in insertion order; `None` is `null`. */
  datatype Field = Field(key: string, value: Option<string>)

  /** `r.status === 'fulfilled' ? r.value.text : null`. */
  function SlotValue(s: Settled<string>): Option<string> {
    match s
    case Fulfilled(text) => Some(text)
    case Rejected(_) => None
  }

  /** The object literal: one property per provider, keyed in the given
      order, holding the text of a fulfilled call and `null` otherwise. */
  function Fields(keys: seq<string>, ps: seq<Provider>): (r: seq<Field>)
    requires |keys| == |ps|
    ensures |r| == |keys|
    ensures forall i :: 0 <= i < |r| ==>
      && r[i].key == keys[i]
      && (ps[i].configured && ps[i].send.Fulfilled? ==> r[i].value == Some(ps[i].send.value))
      && (!ps[i].configured || ps[i].send.Rejected? ==> r[i].value.None?)
  {
    seq(|keys|, i requires 0 <= i < |keys| => Field(keys[i], SlotValue(Dispatch(ps[i]).settled)))
  }

  /** Which providers had `send` called, in order. */
  function SendCalls(ps: seq<Provider>): (r: seq<bool>)
    ensures |r| == |ps| && forall i :: 0 <= i < |r| ==> (r[i] <==> ps[i].configured)
  {
    seq(|ps|, i requires 0 <= i < |ps| => Dispatch(ps[i]).sendCalled)
  }
}
