/** core/data-manager.js: the registry of market-data providers, with an
    active provider and multi-provider quote fan-in. A provider's `getQuote`
    and `ping` settle as the given functions say. */
module DataManager {
  import opened Wrappers
  import opened Text
  import opened Candidates

  /** The part of a quote the manager reads. */
  datatype Quote = Quote(price: real)

  /** An entry of `getQuoteMulti`: `{provider, ok: true, data}` or
      `{provider, ok: false, error: err.message}`. */
  datatype QuoteEntry = QuoteEntry(provider: string, ok: bool, data: Option<Quote>, error: Option<string>)

  /** `.then(data => …).catch(err => …)` on one provider's `getQuote`. */
  function Entry(name: string, s: Settled<Quote>): (e: QuoteEntry)
    ensures e.provider == name
    ensures e.ok <==> s.Fulfilled?
    ensures e.ok ==> e.data == Some(s.value) && e.error.None?
    ensures !e.ok ==> e.data.None? && e.error == s.reasonMessage
  {
    match s
    case Fulfilled(q) => QuoteEntry(name, true, Some(q), None)
    case Rejected(m) => QuoteEntry(name, false, None, m)
  }

  /** An entry as `Entry` builds it: an ok entry carries its data. */
  predicate WellFormed(es: seq<QuoteEntry>) {
    forall k :: 0 <= k < |es| ==> (es[k].ok ==> es[k].data.Some?)
  }

  /** `results.filter(r => r.ok)`. */
  function ValidEntries(es: seq<QuoteEntry>): (r: seq<QuoteEntry>)
    ensures |r| <= |es|
    ensures forall k :: 0 <= k < |r| ==> r[k].ok
    ensures WellFormed(es) ==> WellFormed(r)
    decreases |es|
  {
    if es == [] then []
    else if es[0].ok then [es[0]] + ValidEntries(es[1..])
    else ValidEntries(es[1..])
  }

  /** A filtered entry is one of the entries, and every ok entry survives. */
  lemma {:induction false} ValidEntriesExactly(es: seq<QuoteEntry>)
    ensures forall e :: e in ValidEntries(es) <==> e in es && e.ok
    decreases |es|
  {
    if es != [] {
      ValidEntriesExactly(es[1..]);
      assert es == [es[0]] + es[1..];
    }
  }

  /** `valid.map(v => v.data.price)`. */
  function Prices(valid: seq<QuoteEntry>): (r: seq<real>)
    requires WellFormed(valid) && forall k :: 0 <= k < |valid| ==> valid[k].ok
    ensures |r| == |valid| && forall k :: 0 <= k < |r| ==> r[k] == valid[k].data.value.price
  {
    seq(|valid|, k requires 0 <= k < |valid| && valid[k].ok && valid[k].data.Some? => valid[k].data.value.price)
  }

  /** `prices.reduce((a, b) => a + b, 0)`, added from the left. */
  function Sum(ps: seq<real>): real
    decreases |ps|
  {
    if ps == [] then 0.0 else Sum(ps[..|ps| - 1]) + ps[|ps| - 1]
  }

  /** Prices within a range add up to within the range scaled by their count. */
  lemma {:induction false} SumWithin(ps: seq<real>, lo: real, hi: real)
    requires forall k :: 0 <= k < |ps| ==> lo <= ps[k] <= hi
    ensures lo * |ps| as real <= Sum(ps) <= hi * |ps| as real
    decreases |ps|
  {
    if ps != [] {
      var init := ps[..|ps| - 1];
      assert forall k :: 0 <= k < |init| ==> init[k] == ps[k];
      SumWithin(init, lo, hi);
      assert lo * |ps| as real == lo * |init| as real + lo;
      assert hi * |ps| as real == hi * |init| as real + hi;
    }
  }

  /** The mean of `n` values whose sum lies in `[lo*n, hi*n]` lies in `[lo, hi]`. */
  lemma MeanWithin(sum: real, n: real, lo: real, hi: real)
    requires n > 0.0 && lo * n <= sum <= hi * n
    ensures lo <= sum / n <= hi
  {
    var m := sum / n;
    assert m * n == sum;
    assert (m - lo) * n >= 0.0;
    assert (hi - m) * n >= 0.0;
  }

  datatype ProviderPrice = ProviderPrice(name: string, price: real)

  /** What `getQuoteBestOf` resolves to. */
  datatype BestQuote = BestQuote(ticker: string, price: real, providers: seq<ProviderPrice>, confidence: string)

  const NoValidQuotes := "No valid quotes found from any provider"

  /** `prices.reduce(…) / prices.length`. */
  function Mean(ps: seq<real>): (m: real)
    requires |ps| > 0
    ensures m * |ps| as real == Sum(ps)
  {
    Sum(ps) / |ps| as real
  }

  /** `valid.map(v => ({ name: v.provider, price: v.data.price }))`. */
  function Listed(valid: seq<QuoteEntry>): (r: seq<ProviderPrice>)
    requires WellFormed(valid) && forall k :: 0 <= k < |valid| ==> valid[k].ok
    ensures |r| == |valid|
    ensures forall k :: 0 <= k < |valid| ==> r[k] == ProviderPrice(valid[k].provider, valid[k].data.value.price)
  {
    seq(|valid|, k requires 0 <= k < |valid| && valid[k].data.Some? => ProviderPrice(valid[k].provider, valid[k].data.value.price))
  }

  /** No entry survives the filter exactly when no entry is ok. */
  lemma NoValidEntries(es: seq<QuoteEntry>)
    ensures ValidEntries(es) == [] <==> forall k :: 0 <= k < |es| ==> !es[k].ok
  {
    ValidEntriesExactly(es);
    if ValidEntries(es) != [] {
      assert ValidEntries(es)[0] in es;
    } else {
      forall k | 0 <= k < |es| ensures !es[k].ok {
        assert es[k] in es;
      }
    }
  }

  /** The aggregation of `getQuoteBestOf` over the entries of `getQuoteMulti`. */
  function BestOf(ticker: string, es: seq<QuoteEntry>): (r: Result<BestQuote, string>)
    requires WellFormed(es)
    ensures r.Failure? <==> forall k :: 0 <= k < |es| ==> !es[k].ok
    ensures r.Failure? ==> r.error == NoValidQuotes
    ensures r.Success? ==>
      var valid := ValidEntries(es);
      && |valid| > 0
      && r.value.ticker == ticker
      && r.value.providers == Listed(valid)
      && (r.value.confidence == "high" <==> |valid| > 1)
      && (r.value.confidence == "medium" <==> |valid| == 1)
      && r.value.price == Mean(Prices(valid))
  {
    var valid := ValidEntries(es);
    NoValidEntries(es);
    if |valid| == 0 then Failure(NoValidQuotes)
    else Success(BestQuote(ticker, Mean(Prices(valid)), Listed(valid), if |valid| > 1 then "high" else "medium"))
  }

  /** The reported price is the mean of the valid quotes, so it lies between
      the lowest and the highest of them. */
  lemma BestOfPriceWithin(ticker: string, es: seq<QuoteEntry>, lo: real, hi: real)
    requires WellFormed(es) && BestOf(ticker, es).Success?
    requires forall k :: 0 <= k < |es| && es[k].ok ==> lo <= es[k].data.value.price <= hi
    ensures lo <= BestOf(ticker, es).value.price <= hi
  {
    var valid := ValidEntries(es);
    var prices := Prices(valid);
    ValidPricesWithin(es, lo, hi);
    SumWithin(prices, lo, hi);
    var n := |valid| as real;
    MeanWithin(Sum(prices), n, lo, hi);
  }

  lemma ValidPricesWithin(es: seq<QuoteEntry>, lo: real, hi: real)
    requires WellFormed(es)
    requires forall k :: 0 <= k < |es| && es[k].ok ==> lo <= es[k].data.value.price <= hi
    ensures var prices := Prices(ValidEntries(es));
            |prices| > 0 ==> forall k :: 0 <= k < |prices| ==> lo <= prices[k] <= hi
  {
    var valid := ValidEntries(es);
    ValidEntriesExactly(es);
    forall k | 0 <= k < |valid| ensures lo <= valid[k].data.value.price <= hi {
      assert valid[k] in es;
    }
  }

  /** The properties every plain object inherits from `Object.prototype`;
      each of them is a function or an object, so it is truthy. */
  const Inherited: set<string> := {
    "constructor", "hasOwnProperty", "isPrototypeOf", "propertyIsEnumerable",
    "toLocaleString", "toString", "valueOf", "__proto__",
    "__defineGetter__", "__defineSetter__", "__lookupGetter__", "__lookupSetter__"}

  /** One entry of `status()`: `{name, ok: true}` or `{name, ok: false, error}`. */
  datatype Check = Check(name: string, ok: bool, error: Option<string>)

  datatype StatusReport = StatusReport(active: Option<string>, providers: seq<Check>)

  /** The registry. `providers` is the dictionary and `order` its keys in
      insertion order (`Object.keys`); `active` is `None` while it is null. */
  class Manager<P> {
    var providers: map<string, P>
    var order: seq<string>
    var active: Option<string>

    ghost predicate Valid()
      reads this
    {
      && (forall n :: n in providers <==> n in order)
      && (forall i, j :: 0 <= i < j < |order| ==> order[i] != order[j])
      && (active.None? ==> order == [])
    }

    /** `new DataManager()`. */
    constructor ()
      ensures Valid()
      ensures providers == map[] && order == [] && active.None?
    {
      providers := map[];
      order := [];
      active := None;
    }

    /** `register(name, ProviderClass, config)`, with the constructed instance.
        A new name is appended to the key order; an existing one keeps its
        place and gets the new instance. `active` is set only while it is
        falsy. */
    method Register(name: string, instance: P)
      requires Valid()
      modifies this
      ensures Valid()
      ensures providers == old(providers)[name := instance]
      ensures order == if name in old(providers) then old(order) else old(order) + [name]
      ensures active == if Truthy(old(active)) then old(active) else Some(name)
    {
      if name !in providers {
        order := order + [name];
      }
      providers := providers[name := instance];
      if !Truthy(active) {
        active := Some(name);
      }
    }

    /** `this.providers[name]` is truthy: a registered instance, or a member
        the empty object inherits from `Object.prototype`. */
    predicate Found(name: string)
      reads this
    {
      name in providers || name in Inherited
    }

    /** `use(name)`: `Some` message where the source throws. A name such as
        `toString` passes the truthiness test without being registered. */
    method Use(name: string) returns (error: Option<string>)
      requires Valid()
      modifies this`active
      ensures Valid()
      ensures Found(name) ==> error.None? && active == Some(name)
      ensures !Found(name) ==>
                error == Some("Provider '" + name + "' not registered") && active == old(active)
    {
      if !Found(name) {
        return Some("Provider '" + name + "' not registered");
      }
      active := Some(name);
      error := None;
    }

    /** `providerNames || Object.keys(this.providers)`: a list given as an
        argument, even an empty one, is used as it is. */
    function Targets(names: Option<seq<string>>): (r: seq<string>)
      reads this
      ensures names.Some? ==> r == names.value
      ensures names.None? ==> r == order
    {
      names.GetOr(order)
    }

    /** `getQuoteMulti(ticker, providerNames)`: one entry per target, in
        target order. It rejects (`None`) when a target is not registered,
        since `getQuote` is then read from `undefined`. */
    function QuoteMulti(ticker: string, names: Option<seq<string>>,
                        getQuote: (P, string) -> Settled<Quote>): (r: Option<seq<QuoteEntry>>)
      reads this
      ensures r.None? <==> exists k :: 0 <= k < |Targets(names)| && Targets(names)[k] !in providers
      ensures r.Some? ==>
        var ts := Targets(names);
        && WellFormed(r.value)
        && |r.value| == |ts|
        && forall k :: 0 <= k < |ts| ==> r.value[k] == Entry(ts[k], getQuote(providers[ts[k]], ticker))
    {
      var ts, registered := Targets(names), providers;
      if exists k :: 0 <= k < |ts| && ts[k] !in registered then None
      else
        var es := seq(|ts|, k requires 0 <= k < |ts| => Entry(ts[k], getQuote(registered[ts[k]], ticker)));
        assert forall k :: 0 <= k < |es| ==> es[k].ok ==> es[k].data.Some? by {
          forall k | 0 <= k < |es| ensures es[k].ok ==> es[k].data.Some? {
            var e := Entry(ts[k], getQuote(registered[ts[k]], ticker));
            assert es[k] == e;
          }
        }
        Some(es)
    }

    /** Over all registered providers, `getQuoteMulti` always resolves. */
    lemma QuoteMultiOfAll(ticker: string, getQuote: (P, string) -> Settled<Quote>)
      requires Valid()
      ensures QuoteMulti(ticker, None, getQuote).Some?
      ensures |QuoteMulti(ticker, None, getQuote).value| == |order|
    {
    }

    /** `getQuoteBestOf(ticker)`. */
    function QuoteBestOf(ticker: string, getQuote: (P, string) -> Settled<Quote>): (r: Result<BestQuote, string>)
      reads this
      requires Valid()
      ensures r.Failure? <==> forall k :: 0 <= k < |order| ==> !getQuote(providers[order[k]], ticker).Fulfilled?
      ensures r.Failure? ==> r.error == NoValidQuotes
    {
      var es := QuoteMulti(ticker, None, getQuote).value;
      assert forall k :: 0 <= k < |es| ==> (es[k].ok <==> getQuote(providers[order[k]], ticker).Fulfilled?);
      BestOf(ticker, es)
    }

    /** `status()`: one check per registered provider, in key order, ok iff
        its `ping` resolves, and the current `active`. */
    function Status(ping: P -> Settled<()>): (r: StatusReport)
      reads this
      requires Valid()
      ensures r.active == active
      ensures |r.providers| == |order|
      ensures forall k :: 0 <= k < |order| ==>
        && r.providers[k].name == order[k]
        && (r.providers[k].ok <==> ping(providers[order[k]]).Fulfilled?)
        && (r.providers[k].ok ==> r.providers[k].error.None?)
        && (!r.providers[k].ok ==> r.providers[k].error == ping(providers[order[k]]).reasonMessage)
    {
      var names, registered := order, providers;
      StatusReport(active, seq(|names|, k requires 0 <= k < |names| && names[k] in registered =>
        match ping(registered[names[k]])
        case Fulfilled(_) => Check(names[k], true, None)
        case Rejected(m) => Check(names[k], false, m)))
    }
  }
}
