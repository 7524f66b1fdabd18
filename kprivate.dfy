/**
 * The private endpoints: each builds the parameters it posts from its
 * keyword arguments, or raises before posting. Posting the request and
 * taking body['result'] is Client.Call; the builders here change nothing.
 *
 * A list argument is a sequence of strings, the empty sequence standing for
 * both None and []; every other argument is a Params.Value. Each
 * `if x: params['name'] = x` line is one Endpoint.Store call, and the
 * ghost `lines` record the lines run, so that Endpoint.BuildPosts tells
 * what the dictionary holds.
 */
module KPrivate {
  import opened Wrappers
  import opened Params
  import opened Errors
  import opened Convert
  import opened Endpoint

  const TradeTypes: seq<string> := ["all", "any position", "closed position", "closing position", "no position"]
  const Sides: seq<string> := ["buy", "sell"]
  const OrderTypes0: seq<string> := ["market"]
  const OrderTypes1: seq<string> := ["limit", "stop-loss", "take-profit", "trailing-stop"]
  const OrderTypes2: seq<string> := ["stop-loss-profit", "stop-loss-profit-limit", "stop-loss-limit",
                                     "take-profit-limit", "trailing-stop-limit", "stop-loss-and-limit"]
  const OrderTypes: seq<string> := OrderTypes0 + OrderTypes1 + OrderTypes2

  /** The three order-type groups never share a name. */
  lemma OrderTypeGroupsDisjoint(t: string)
    ensures !(t in OrderTypes0 && t in OrderTypes1)
    ensures !(t in OrderTypes0 && t in OrderTypes2)
    ensures !(t in OrderTypes1 && t in OrderTypes2)
  {
  }

  method Balance() returns (r: Request)
    ensures r.path == "/0/private/Balance" && r.params == map[]
  {
    r := Request("/0/private/Balance", map[]);
  }

  /** Defaults: aclass = "currency", asset = "ZUSD". */
  method TradeBalance(aclass: Value, asset: Value) returns (r: Request)
    ensures r.path == "/0/private/TradeBalance"
    ensures Posts(r.params, Start.Then("aclass", Scalar(aclass)).Then("asset", Scalar(asset)))
  {
    var params := map[];
    ghost var lines := Start;
    params, lines := Store(lines, params, "aclass", Scalar(aclass));
    params, lines := Store(lines, params, "asset", Scalar(asset));
    BuildPosts(lines);
    r := Request("/0/private/TradeBalance", params);
  }

  /** Defaults: trades = False, userref = None. */
  method OpenOrders(trades: Value, userref: Value) returns (r: Request)
    ensures r.path == "/0/private/OpenOrders"
    ensures Posts(r.params, Start.Then("trades", Scalar(trades)).Then("userref", Scalar(userref)))
  {
    var params := map[];
    ghost var lines := Start;
    params, lines := Store(lines, params, "trades", Scalar(trades));
    params, lines := Store(lines, params, "userref", Scalar(userref));
    BuildPosts(lines);
    r := Request("/0/private/OpenOrders", params);
  }

  function ClosedOrdersLines(trades: Value, userref: Value, start: Value, end: Value, ofs: Value,
                              closetime: Value): Lines {
    Start.Then("trades", Scalar(trades)).Then("userref", Scalar(userref)).Then("start", Scalar(start))
      .Then("end", Scalar(end)).Then("ofs", Scalar(ofs)).Then("closetime", Scalar(closetime))
  }

  const ClosedOrdersKeys := NoKeys.Then("trades").Then("userref").Then("start").Then("end").Then("ofs").Then("closetime")

  lemma ClosedOrdersKeysDistinct()
    ensures Distinct(ClosedOrdersKeys)
  {
  }

  /** Defaults: closetime = "both", every other argument falsy. */
  method ClosedOrders(trades: Value, userref: Value, start: Value, end: Value, ofs: Value, closetime: Value)
    returns (r: Request)
    ensures r.path == "/0/private/ClosedOrders"
    ensures Posts(r.params, ClosedOrdersLines(trades, userref, start, end, ofs, closetime))
  {
    var params := map[];
    ghost var lines := Start;
    params, lines := Store(lines, params, "trades", Scalar(trades));
    params, lines := Store(lines, params, "userref", Scalar(userref));
    params, lines := Store(lines, params, "start", Scalar(start));
    params, lines := Store(lines, params, "end", Scalar(end));
    params, lines := Store(lines, params, "ofs", Scalar(ofs));
    params, lines := Store(lines, params, "closetime", Scalar(closetime));
    assert KeysOf(lines) == ClosedOrdersKeys;
    ClosedOrdersKeysDistinct();
    BuildPosts(lines);
    r := Request("/0/private/ClosedOrders", params);
  }

  /** The history type is stored under "type" only when it is one of the five known names. */
  function TradesHistoryLines(typet: Value, trades: Value, start: Value, end: Value, ofs: Value)
    : Lines {
    Start.Then("type", Scalar(if IsOneOf(typet, TradeTypes) then typet else NoneV))
      .Then("trades", Scalar(trades)).Then("start", Scalar(start)).Then("end", Scalar(end))
      .Then("ofs", Scalar(ofs))
  }

  const TradesHistoryKeys := NoKeys.Then("type").Then("trades").Then("start").Then("end").Then("ofs")

  lemma TradesHistoryKeysDistinct()
    ensures Distinct(TradesHistoryKeys)
  {
  }

  /** Any history type outside the five known names is silently dropped. */
  method TradesHistory(typet: Value, trades: Value, start: Value, end: Value, ofs: Value) returns (r: Request)
    ensures r.path == "/0/private/TradesHistory"
    ensures Posts(r.params, TradesHistoryLines(typet, trades, start, end, ofs))
    ensures "type" in r.params <==> IsOneOf(typet, TradeTypes)
  {
    var params := map[];
    ghost var lines := Start;
    params, lines := Store(lines, params, "type", Scalar(if IsOneOf(typet, TradeTypes) then typet else NoneV));
    params, lines := Store(lines, params, "trades", Scalar(trades));
    params, lines := Store(lines, params, "start", Scalar(start));
    params, lines := Store(lines, params, "end", Scalar(end));
    params, lines := Store(lines, params, "ofs", Scalar(ofs));
    assert KeysOf(lines) == TradesHistoryKeys;
    TradesHistoryKeysDistinct();
    BuildPosts(lines);
    r := Request("/0/private/TradesHistory", params);
  }

  /** One to twenty transaction ids are required; they are posted comma-joined. */
  method QueryTrades(txid: seq<string>, trades: Value) returns (r: Result<Request, Raised>)
    ensures r.Success? <==> 1 <= |txid| <= 20
    ensures r.Failure? ==> r.error == Kraken(RequiredParameterError("no txid found"))
    ensures r.Success? ==>
      && r.value.path == "/0/private/QueryTrades"
      && Posts(r.value.params, Start.Then("txid", Listed(txid)).Then("trades", Scalar(trades)))
  {
    if !(|txid| > 0 && |txid| <= 20) {
      return Failure(Kraken(RequiredParameterError("no txid found")));
    }
    var params := map[];
    ghost var lines := Start;
    params, lines := Store(lines, params, "txid", Listed(txid));
    params, lines := Store(lines, params, "trades", Scalar(trades));
    BuildPosts(lines);
    r := Success(Request("/0/private/QueryTrades", params));
  }

  method OpenPositions(txid: seq<string>, docalcs: Value) returns (r: Request)
    ensures r.path == "/0/private/OpenPositions"
    ensures Posts(r.params, Start.Then("txid", Listed(txid)).Then("docalcs", Scalar(docalcs)))
  {
    var params := map[];
    ghost var lines := Start;
    params, lines := Store(lines, params, "txid", Listed(txid));
    params, lines := Store(lines, params, "docalcs", Scalar(docalcs));
    BuildPosts(lines);
    r := Request("/0/private/OpenPositions", params);
  }

  /** The parameters kprivate_ledgers builds from its arguments. */
  function LedgersLines(aclass: Value, asset: Value, typet: Value, start: Value, end: Value, ofs: Value)
    : Lines {
    Start.Then("aclass", Scalar(aclass)).Then("asset", Scalar(asset)).Then("type", Scalar(typet))
      .Then("start", Scalar(start)).Then("end", Scalar(end)).Then("ofs", Scalar(ofs))
  }

  const LedgersKeys := NoKeys.Then("aclass").Then("asset").Then("type").Then("start").Then("end").Then("ofs")

  lemma LedgersKeysDistinct()
    ensures Distinct(LedgersKeys)
  {
  }

  /**
   * kprivate_ledgers as written: it builds its parameters and then posts
   * without them, so the request is the same whatever the arguments.
   */
  method Ledgers(aclass: Value, asset: Value, typet: Value, start: Value, end: Value, ofs: Value)
    returns (r: Request)
    ensures r == Request("/0/private/Ledgers", map[])
  {
    var params := map[];
    ghost var lines := Start;
    params, lines := Store(lines, params, "aclass", Scalar(aclass));
    params, lines := Store(lines, params, "asset", Scalar(asset));
    params, lines := Store(lines, params, "type", Scalar(typet));
    params, lines := Store(lines, params, "start", Scalar(start));
    params, lines := Store(lines, params, "end", Scalar(end));
    params, lines := Store(lines, params, "ofs", Scalar(ofs));
    assert KeysOf(lines) == LedgersKeys;
    LedgersKeysDistinct();
    BuildPosts(lines);
    r := Request("/0/private/Ledgers", map[]);
  }

  /** With its default arguments, the as-written Ledgers already loses three parameters. */
  lemma LedgersDropsDefaults()
    ensures !Posts(map[], LedgersLines(StrV("currency"), StrV("all"), StrV("all"), NoneV, NoneV, NoneV))
  {
    assert !Sends(map[], "type", Scalar(StrV("all")));
  }

  /** kprivate_ledgers posting the parameters it builds. */
  method LedgersCorrected(aclass: Value, asset: Value, typet: Value, start: Value, end: Value, ofs: Value)
    returns (r: Request)
    ensures r.path == "/0/private/Ledgers"
    ensures Posts(r.params, LedgersLines(aclass, asset, typet, start, end, ofs))
  {
    var params := map[];
    ghost var lines := Start;
    params, lines := Store(lines, params, "aclass", Scalar(aclass));
    params, lines := Store(lines, params, "asset", Scalar(asset));
    params, lines := Store(lines, params, "type", Scalar(typet));
    params, lines := Store(lines, params, "start", Scalar(start));
    params, lines := Store(lines, params, "end", Scalar(end));
    params, lines := Store(lines, params, "ofs", Scalar(ofs));
    assert KeysOf(lines) == LedgersKeys;
    LedgersKeysDistinct();
    BuildPosts(lines);
    r := Request("/0/private/Ledgers", params);
  }

  /** One to twenty ledger ids are required; they are posted comma-joined. */
  method QueryLedgers(id: seq<string>) returns (r: Result<Request, Raised>)
    ensures r.Success? <==> 1 <= |id| <= 20
    ensures r.Failure? ==> r.error == Kraken(BadParamterError("error in ids"))
    ensures r.Success? ==>
      && r.value.path == "/0/private/QueryLedgers"
      && Posts(r.value.params, Start.Then("id", Listed(id)))
  {
    if !(|id| > 0 && |id| <= 20) {
      return Failure(Kraken(BadParamterError("error in ids")));
    }
    var params := map[];
    ghost var lines := Start;
    params, lines := Store(lines, params, "id", Listed(id));
    BuildPosts(lines);
    r := Success(Request("/0/private/QueryLedgers", params));
  }

  /** kprivate_tradevolume as written: it posts without the parameters it builds. */
  method TradeVolume(pair: seq<string>, feeinfo: Value) returns (r: Request)
    ensures r == Request("/0/private/TradeVolume", map[])
  {
    var params := map[];
    ghost var lines := Start;
    params, lines := Store(lines, params, "pair", Listed(pair));
    params, lines := Store(lines, params, "fee-info", Scalar(feeinfo));
    BuildPosts(lines);
    r := Request("/0/private/TradeVolume", map[]);
  }

  /** Asking for the volume of one pair posts the same request as asking for none. */
  lemma TradeVolumeDropsPair(pair: string)
    ensures !Posts(map[], Start.Then("pair", Listed([pair])).Then("fee-info", Scalar(NoneV)))
  {
    assert !SendsAll(map[], Start.Then("pair", Listed([pair])));
  }

  /** kprivate_tradevolume posting the parameters it builds. */
  method TradeVolumeCorrected(pair: seq<string>, feeinfo: Value) returns (r: Request)
    ensures r.path == "/0/private/TradeVolume"
    ensures Posts(r.params, Start.Then("pair", Listed(pair)).Then("fee-info", Scalar(feeinfo)))
  {
    var params := map[];
    ghost var lines := Start;
    params, lines := Store(lines, params, "pair", Listed(pair));
    params, lines := Store(lines, params, "fee-info", Scalar(feeinfo));
    BuildPosts(lines);
    r := Request("/0/private/TradeVolume", params);
  }

  /** An order time is absent (empty) or passes parseOTime. */
  predicate TimeAccepted(t: string) {
    t == "" || ParseOTime(t).Success?
  }

  /**
   * The price check of kprivate_addorder for a known order type: a market
   * order must not have a price, the types of the second group need a
   * price, those of the third a price and a price2.
   */
  function PriceCheck(ordertype: string, price: Value, price2: Value): (e: Option<KrakenError>)
    requires ordertype in OrderTypes
    ensures ordertype in OrderTypes0 ==>
      e == if Truthy(price) then Some(BadParamterError("if price is set, ordertype cant be at market")) else None
    ensures ordertype in OrderTypes1 ==>
      e == if Truthy(price) then None
           else Some(RequiredParameterError("price required for this order type: " + ordertype))
    ensures ordertype in OrderTypes2 ==>
      e == if Truthy(price) && Truthy(price2) then None
           else Some(RequiredParameterError("price and price2 required for this order type: " + ordertype))
  {
    OrderTypeGroupsDisjoint(ordertype);
    if ordertype in OrderTypes0 then
      if Truthy(price) then Some(BadParamterError("if price is set, ordertype cant be at market")) else None
    else if ordertype in OrderTypes1 then
      if Truthy(price) then None
      else Some(RequiredParameterError("price required for this order type: " + ordertype))
    else
      if Truthy(price) && Truthy(price2) then None
      else Some(RequiredParameterError("price and price2 required for this order type: " + ordertype))
  }

  /** The price lines an accepted order runs after `before`, for its order-type group. */
  function PriceLines(before: Lines, ordertype: string, price: Value, price2: Value): Lines {
    if ordertype in OrderTypes0 then before
    else if ordertype in OrderTypes1 then before.Then("price", Scalar(price))
    else before.Then("price", Scalar(price)).Then("price2", Scalar(price2))
  }

  /** The names PriceLines adds. */
  function PriceKeys(before: Keys, ordertype: string): Keys {
    if ordertype in OrderTypes0 then before
    else if ordertype in OrderTypes1 then before.Then("price")
    else before.Then("price").Then("price2")
  }

  /** The lines after the prices: the volume, and the optional arguments. */
  function OptionLines(before: Lines, volume: Value, leverage: Value, oflags: seq<string>, starttm: string,
                       expiretm: string, userref: Value, validate: Value): Lines {
    before.Then("volume", Scalar(volume)).Then("leverage", Scalar(leverage)).Then("oflags", Listed(oflags))
      .Then("starttm", OrderTime(starttm)).Then("expiretm", OrderTime(expiretm))
      .Then("userref", Scalar(userref)).Then("validate", Scalar(validate))
  }

  /** The names OptionLines adds. */
  function OptionKeys(before: Keys): Keys {
    before.Then("volume").Then("leverage").Then("oflags").Then("starttm").Then("expiretm")
      .Then("userref").Then("validate")
  }

  /**
   * The parameters of an accepted order: every argument under its name, the
   * side under "type", the prices its group needs, the flags comma-joined
   * and for a start or expire time what parseOTime returned.
   */
  function OrderLines(pair: Value, typeo: Value, ordertype: Value, price: Value, price2: Value, volume: Value,
                      leverage: Value, oflags: seq<string>, starttm: string, expiretm: string,
                      userref: Value, validate: Value): Lines
    requires ordertype.StrV?
  {
    var checked := Start.Then("pair", Scalar(pair)).Then("type", Scalar(typeo)).Then("ordertype", Scalar(ordertype));
    OptionLines(PriceLines(checked, ordertype.s, price, price2),
                volume, leverage, oflags, starttm, expiretm, userref, validate)
  }

  /** The names an accepted order is stored under, for its order type. */
  function OrderKeys(ordertype: string): Keys {
    OptionKeys(PriceKeys(NoKeys.Then("pair").Then("type").Then("ordertype"), ordertype))
  }

  /**
   * The order keys of each order-type group, written out: Dafny checks the
   * distinctness of a literal list directly, and OrderKeysDistinct reduces
   * every order type to one of these three.
   */
  const MarketOrderKeys := NoKeys.Then("pair").Then("type").Then("ordertype")
    .Then("volume").Then("leverage").Then("oflags").Then("starttm").Then("expiretm").Then("userref").Then("validate")
  const PricedOrderKeys := NoKeys.Then("pair").Then("type").Then("ordertype").Then("price")
    .Then("volume").Then("leverage").Then("oflags").Then("starttm").Then("expiretm").Then("userref").Then("validate")
  const RangeOrderKeys := NoKeys.Then("pair").Then("type").Then("ordertype").Then("price").Then("price2")
    .Then("volume").Then("leverage").Then("oflags").Then("starttm").Then("expiretm").Then("userref").Then("validate")

  lemma MarketOrderKeysDistinct()
    ensures Distinct(MarketOrderKeys)
  {
  }

  lemma PricedOrderKeysDistinct()
    ensures Distinct(PricedOrderKeys)
  {
  }

  lemma RangeOrderKeysDistinct()
    ensures Distinct(RangeOrderKeys)
  {
  }

  lemma OrderKeysDistinct(ordertype: string)
    ensures Distinct(OrderKeys(ordertype))
  {
    if ordertype in OrderTypes0 {
      assert OrderKeys(ordertype) == MarketOrderKeys;
      MarketOrderKeysDistinct();
    } else if ordertype in OrderTypes1 {
      assert OrderKeys(ordertype) == PricedOrderKeys;
      PricedOrderKeysDistinct();
    } else {
      assert OrderKeys(ordertype) == RangeOrderKeys;
      RangeOrderKeysDistinct();
    }
  }

  /**
   * The checks of kprivate_addorder, in the order it runs them: the first
   * one that fails gives the error raised, and None means the order is
   * accepted.
   */
  function OrderError(pair: Value, typeo: Value, ordertype: Value, price: Value, price2: Value,
                      volume: Value, starttm: string, expiretm: string): (e: Option<KrakenError>)
    ensures e.None? <==>
      && Truthy(pair) && IsOneOf(typeo, Sides) && IsOneOf(ordertype, OrderTypes)
      && PriceCheck(ordertype.s, price, price2).None? && Truthy(volume)
      && TimeAccepted(starttm) && TimeAccepted(expiretm)
    ensures !Truthy(pair) ==> e == Some(RequiredParameterError("pair"))
    ensures Truthy(pair) && !IsOneOf(typeo, Sides) ==> e == Some(RequiredParameterError("typeo"))
    ensures Truthy(pair) && IsOneOf(typeo, Sides) && !IsOneOf(ordertype, OrderTypes) ==>
      e == Some(RequiredParameterError("ordertype"))
    ensures Truthy(pair) && IsOneOf(typeo, Sides) && IsOneOf(ordertype, OrderTypes) ==>
      var p := PriceCheck(ordertype.s, price, price2);
      && (p.Some? ==> e == p)
      && (p.None? && !Truthy(volume) ==> e == Some(RequiredParameterError("volume is required")))
      && (p.None? && Truthy(volume) && !(TimeAccepted(starttm) && TimeAccepted(expiretm)) ==>
            e == Some(BadParamterError(OTimeHelp)))
  {
    if !Truthy(pair) then Some(RequiredParameterError("pair"))
    else if !(Truthy(typeo) && IsOneOf(typeo, Sides)) then Some(RequiredParameterError("typeo"))
    else if !(Truthy(ordertype) && IsOneOf(ordertype, OrderTypes)) then Some(RequiredParameterError("ordertype"))
    else if PriceCheck(ordertype.s, price, price2).Some? then PriceCheck(ordertype.s, price, price2)
    else if !Truthy(volume) then Some(RequiredParameterError("volume is required"))
    else if starttm != "" && ParseOTime(starttm).Failure? then Some(ParseOTime(starttm).error)
    else if expiretm != "" && ParseOTime(expiretm).Failure? then Some(ParseOTime(expiretm).error)
    else None
  }

  /** Called with no arguments at all, kprivate_addorder asks for the pair. */
  lemma AddOrderWithoutArguments()
    ensures OrderError(NoneV, NoneV, NoneV, NoneV, NoneV, NoneV, "", "") == Some(RequiredParameterError("pair"))
  {
  }

  /**
   * The `params[...] = ...` lines of kprivate_addorder for an order that
   * passes its checks: the three required names, the prices of the order's
   * group, the volume, and the optional arguments that are given.
   */
  method OrderParams(pair: Value, typeo: Value, ordertype: Value, price: Value, price2: Value, volume: Value,
                     leverage: Value, oflags: seq<string>, starttm: string, expiretm: string,
                     userref: Value, validate: Value)
    returns (params: map<string, Value>)
    requires ordertype.StrV?
    ensures Posts(params, OrderLines(pair, typeo, ordertype, price, price2, volume, leverage, oflags,
                                     starttm, expiretm, userref, validate))
  {
    params := map[];
    ghost var lines := Start;
    params, lines := Store(lines, params, "pair", Scalar(pair));
    params, lines := Store(lines, params, "type", Scalar(typeo));
    params, lines := Store(lines, params, "ordertype", Scalar(ordertype));
    params, lines := StorePrices(lines, params, ordertype.s, price, price2);
    params, lines := StoreOptions(lines, params, volume, leverage, oflags, starttm, expiretm, userref, validate);
    OrderKeysDistinct(ordertype.s);
    BuildPosts(lines);
  }

  /** The price lines of kprivate_addorder: none, "price", or "price" and "price2", by order-type group. */
  method StorePrices(ghost lines: Lines, params: map<string, Value>, ordertype: string, price: Value, price2: Value)
    returns (r: map<string, Value>, ghost after: Lines)
    requires params == Build(lines)
    ensures after == PriceLines(lines, ordertype, price, price2) && r == Build(after)
    ensures KeysOf(after) == PriceKeys(KeysOf(lines), ordertype)
  {
    r, after := params, lines;
    if ordertype in OrderTypes0 {
    } else if ordertype in OrderTypes1 {
      r, after := Store(after, r, "price", Scalar(price));
    } else {
      r, after := Store(after, r, "price", Scalar(price));
      r, after := Store(after, r, "price2", Scalar(price2));
    }
  }

  /** The lines of kprivate_addorder after the prices: the volume, then each optional argument that is given. */
  method StoreOptions(ghost lines: Lines, params: map<string, Value>, volume: Value, leverage: Value,
                      oflags: seq<string>, starttm: string, expiretm: string, userref: Value, validate: Value)
    returns (r: map<string, Value>, ghost after: Lines)
    requires params == Build(lines)
    ensures after == OptionLines(lines, volume, leverage, oflags, starttm, expiretm, userref, validate)
    ensures r == Build(after)
    ensures KeysOf(after) == OptionKeys(KeysOf(lines))
  {
    r, after := Store(lines, params, "volume", Scalar(volume));
    r, after := Store(after, r, "leverage", Scalar(leverage));
    r, after := Store(after, r, "oflags", Listed(oflags));
    r, after := Store(after, r, "starttm", OrderTime(starttm));
    r, after := Store(after, r, "expiretm", OrderTime(expiretm));
    r, after := Store(after, r, "userref", Scalar(userref));
    r, after := Store(after, r, "validate", Scalar(validate));
  }

  /**
   * kprivate_addorder: it raises what OrderError finds, and an accepted
   * order posts OrderLines. The source interleaves its checks with the
   * stores into a dictionary it drops when it raises; here the checks run
   * first, as OrderError, and then OrderParams.
   */
  method AddOrder(pair: Value, typeo: Value, ordertype: Value, price: Value, price2: Value, volume: Value,
                  leverage: Value, oflags: seq<string>, starttm: string, expiretm: string,
                  userref: Value, validate: Value)
    returns (r: Result<Request, Raised>)
    ensures var e := OrderError(pair, typeo, ordertype, price, price2, volume, starttm, expiretm);
      && (r.Success? <==> e.None?)
      && (r.Failure? ==> r.error == Kraken(e.value))
    ensures r.Success? ==>
      && r.value.path == "/0/private/AddOrder"
      && Posts(r.value.params, OrderLines(pair, typeo, ordertype, price, price2, volume, leverage, oflags,
                                           starttm, expiretm, userref, validate))
  {
    var e := OrderError(pair, typeo, ordertype, price, price2, volume, starttm, expiretm);
    if e.Some? {
      return Failure(Kraken(e.value));
    }
    var params := OrderParams(pair, typeo, ordertype, price, price2, volume, leverage, oflags,
                              starttm, expiretm, userref, validate);
    r := Success(Request("/0/private/AddOrder", params));
  }

  /** A transaction id is required and posted as given. */
  method CancelOrder(txid: Value) returns (r: Result<Request, Raised>)
    ensures r.Success? <==> Truthy(txid)
    ensures r.Failure? ==> r.error == Kraken(RequiredParameterError("transaction id required"))
    ensures r.Success? ==> r.value == Request("/0/private/CancelOrder", map["txid" := txid])
  {
    if !Truthy(txid) {
      return Failure(Kraken(RequiredParameterError("transaction id required")));
    }
    r := Success(Request("/0/private/CancelOrder", map["txid" := txid]));
  }
}
