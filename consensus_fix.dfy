/** consensus-fix.js: `callAllAIs`, the three-slot fan-in meant to replace
    the handler of server.js. */
module ConsensusFix {
  import opened Wrappers
  import opened ProviderSlots

  const Keys := ["balthasar", "melchior", "casper"]

  /** What `callAllAIs(prompt)` resolves to (it never rejects), and which
      providers had `send` called. */
  datatype Called = Called(result: seq<Field>, sendCalls: seq<bool>)

  function CallAllAIs(ps: seq<Provider>): (c: Called)
    requires |ps| == |Keys|
    ensures |c.result| == 3 && |c.sendCalls| == 3
    ensures c.result[0].key == "balthasar" && c.result[1].key == "melchior" && c.result[2].key == "casper"
    ensures forall i :: 0 <= i < 3 ==>
      && (c.sendCalls[i] <==> ps[i].configured)
      && (c.result[i].value.Some? <==> ps[i].configured && ps[i].send.Fulfilled?)
      && (c.result[i].value.Some? ==> c.result[i].value.value == ps[i].send.value)
  {
    Called(Fields(Keys, ps), SendCalls(ps))
  }
}
