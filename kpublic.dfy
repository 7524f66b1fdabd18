/**
 * The public endpoints: the server time, and the request builders of the
 * market-data endpoints. A builder raises before posting or returns the
 * request that Client.Call posts.
 *
 * Several builders raise `BadParamterError()` without the message its
 * constructor requires, so what the caller sees is Python's TypeError.
 */
module KPublic {
  import opened Wrappers
  import opened Params
  import opened Errors
  import opened Convert
  import opened Endpoint
  import opened KrakenClient

  const TimePath := "/0/public/Time"
  const AssetPairsInfo: seq<string> := ["info", "leverage", "fees", "margin"]

  /** The TypeError text of `c['result'][key]` when the result is not a dictionary. */
  const NotSubscriptableText := "result is not subscriptable by a str key"

  /** `c['result']['unixtime'], c['result']['rfc1123']`, with the lookups that can fail. */
  function ServerTime(result: Json): (r: Result<(Json, Json), Raised>)
    ensures r.Success? <==> result.JObj? && "unixtime" in result.fields && "rfc1123" in result.fields
    ensures r.Success? ==> r.value == (result.fields["unixtime"], result.fields["rfc1123"])
    ensures !result.JObj? ==> r == Failure(TypeError(NotSubscriptableText))
    ensures result.JObj? && "unixtime" !in result.fields ==> r == Failure(KeyError("unixtime"))
    ensures result.JObj? && "unixtime" in result.fields && "rfc1123" !in result.fields ==>
      r == Failure(KeyError("rfc1123"))
  {
    if !result.JObj? then Failure(TypeError(NotSubscriptableText))
    else if "unixtime" !in result.fields then Failure(KeyError("unixtime"))
    else if "rfc1123" !in result.fields then Failure(KeyError("rfc1123"))
    else Success((result.fields["unixtime"], result.fields["rfc1123"]))
  }

  /**
   * kpublic_time: posts to Time with no parameters and returns the pair of
   * the server's unix time and RFC 1123 time, or what the post or the
   * lookups raised.
   */
  method Time(client: Client, start: real, env: nat -> Step, p: Primitives)
    returns (r: Result<(Json, Json), Raised>)
    requires client.Valid()
    requires |client.history| > 0 ==> client.history[|client.history| - 1] <= start
    modifies client
    ensures client.Valid()
    ensures var run := Pipeline(client.config, p, TimePath, map[], old(client.sentTimes), start, start, 0, env, None, []);
      && client.sentTimes == run.window
      && client.history == (if run.result.Success? then old(client.history) + [run.clock] else old(client.history))
      && client.headers == (if run.sent == [] then old(client.headers)
                            else map["API-Key" := client.config.key, "API-Sign" := run.sent[|run.sent| - 1].apiSign])
      && r == if run.result.Success? then ServerTime(run.result.value.result) else Failure(Kraken(run.result.error))
  {
    var answer, sent, clock := client.Call(Success(Request(TimePath, map[])), start, env, p);
    if answer.Failure? {
      return Failure(answer.error);
    }
    r := ServerTime(answer.value);
  }

  /**
   * kpublic_assets: info and the asset list are stored; an aclass other
   * than "currency" raises, and aclass itself is never posted.
   */
  method Assets(info: Value, aclass: Value, asset: seq<string>) returns (r: Result<Request, Raised>)
    ensures r.Success? <==> !Truthy(aclass) || aclass == StrV("currency")
    ensures r.Failure? ==> r.error == Kraken(BadParamterError("aclass should be currency"))
    ensures r.Success? ==>
      && r.value.path == "/0/public/Assets"
      && Posts(r.value.params, Start.Then("info", Scalar(info)).Then("asset", Listed(asset)))
  {
    var params := map[];
    ghost var lines := Start;
    params, lines := Store(lines, params, "info", Scalar(info));
    params, lines := Store(lines, params, "asset", Listed(asset));
    BuildPosts(lines);
    if Truthy(aclass) && aclass != StrV("currency") {
      return Failure(Kraken(BadParamterError("aclass should be currency")));
    }
    r := Success(Request("/0/public/Assets", params));
  }

  /** kpublic_assetpairs: info must be one of four names; the pair list is optional. */
  method AssetPairs(info: Value, pair: seq<string>) returns (r: Result<Request, Raised>)
    ensures r.Success? <==> IsOneOf(info, AssetPairsInfo)
    ensures r.Failure? ==> r.error == TypeError(MissingMessageText)
    ensures r.Success? ==>
      && r.value.path == "/0/public/AssetPairs"
      && Posts(r.value.params, Start.Then("info", Scalar(info)).Then("pair", Listed(pair)))
  {
    if !IsOneOf(info, AssetPairsInfo) {
      return Failure(TypeError(MissingMessageText));
    }
    var params := map[];
    ghost var lines := Start;
    params, lines := Store(lines, params, "info", Scalar(info));
    params, lines := Store(lines, params, "pair", Listed(pair));
    BuildPosts(lines);
    r := Success(Request("/0/public/AssetPairs", params));
  }

  method Ticker(pair: seq<string>) returns (r: Result<Request, Raised>)
    ensures r.Success? <==> |pair| > 0
    ensures r.Failure? ==> r.error == TypeError(MissingMessageText)
    ensures r.Success? ==>
      && r.value.path == "/0/public/Ticker"
      && Posts(r.value.params, Start.Then("pair", Listed(pair)))
  {
    if |pair| == 0 {
      return Failure(TypeError(MissingMessageText));
    }
    var params := map[];
    ghost var lines := Start;
    params, lines := Store(lines, params, "pair", Listed(pair));
    BuildPosts(lines);
    r := Success(Request("/0/public/Ticker", params));
  }

  /** Default: interval = 1. */
  method OHLC(pair: seq<string>, interval: Value, since: Value) returns (r: Result<Request, Raised>)
    ensures r.Success? <==> |pair| > 0
    ensures r.Failure? ==> r.error == TypeError(MissingMessageText)
    ensures r.Success? ==>
      && r.value.path == "/0/public/OHLC"
      && Posts(r.value.params, Start.Then("pair", Listed(pair)).Then("interval", Scalar(interval))
                                      .Then("since", Scalar(since)))
  {
    if |pair| == 0 {
      return Failure(TypeError(MissingMessageText));
    }
    var params := map[];
    ghost var lines := Start;
    params, lines := Store(lines, params, "pair", Listed(pair));
    params, lines := Store(lines, params, "interval", Scalar(interval));
    params, lines := Store(lines, params, "since", Scalar(since));
    BuildPosts(lines);
    r := Success(Request("/0/public/OHLC", params));
  }

  method Depth(pair: seq<string>, count: Value) returns (r: Result<Request, Raised>)
    ensures r.Success? <==> |pair| > 0
    ensures r.Failure? ==> r.error == TypeError(MissingMessageText)
    ensures r.Success? ==>
      && r.value.path == "/0/public/Depth"
      && Posts(r.value.params, Start.Then("pair", Listed(pair)).Then("count", Scalar(count)))
  {
    if |pair| == 0 {
      return Failure(TypeError(MissingMessageText));
    }
    var params := map[];
    ghost var lines := Start;
    params, lines := Store(lines, params, "pair", Listed(pair));
    params, lines := Store(lines, params, "count", Scalar(count));
    BuildPosts(lines);
    r := Success(Request("/0/public/Depth", params));
  }

  /** kpublic_trades as written: the `since` argument is posted under "count". */
  method Trades(pair: seq<string>, since: Value) returns (r: Result<Request, Raised>)
    ensures r.Success? <==> |pair| > 0
    ensures r.Failure? ==> r.error == TypeError(MissingMessageText)
    ensures r.Success? ==>
      && r.value.path == "/0/public/Trades"
      && Posts(r.value.params, Start.Then("pair", Listed(pair)).Then("count", Scalar(since)))
  {
    if |pair| == 0 {
      return Failure(TypeError(MissingMessageText));
    }
    var params := map[];
    ghost var lines := Start;
    params, lines := Store(lines, params, "pair", Listed(pair));
    params, lines := Store(lines, params, "count", Scalar(since));
    BuildPosts(lines);
    r := Success(Request("/0/public/Trades", params));
  }

  /** kpublic_trades posting `since` under its own name. */
  method TradesCorrected(pair: seq<string>, since: Value) returns (r: Result<Request, Raised>)
    ensures r.Success? <==> |pair| > 0
    ensures r.Failure? ==> r.error == TypeError(MissingMessageText)
    ensures r.Success? ==>
      && r.value.path == "/0/public/Trades"
      && Posts(r.value.params, Start.Then("pair", Listed(pair)).Then("since", Scalar(since)))
  {
    if |pair| == 0 {
      return Failure(TypeError(MissingMessageText));
    }
    var params := map[];
    ghost var lines := Start;
    params, lines := Store(lines, params, "pair", Listed(pair));
    params, lines := Store(lines, params, "since", Scalar(since));
    BuildPosts(lines);
    r := Success(Request("/0/public/Trades", params));
  }

  /** kpublic_spread as written: the `since` argument is posted under "count". */
  method Spread(pair: seq<string>, since: Value) returns (r: Result<Request, Raised>)
    ensures r.Success? <==> |pair| > 0
    ensures r.Failure? ==> r.error == TypeError(MissingMessageText)
    ensures r.Success? ==>
      && r.value.path == "/0/public/Spread"
      && Posts(r.value.params, Start.Then("pair", Listed(pair)).Then("count", Scalar(since)))
  {
    if |pair| == 0 {
      return Failure(TypeError(MissingMessageText));
    }
    var params := map[];
    ghost var lines := Start;
    params, lines := Store(lines, params, "pair", Listed(pair));
    params, lines := Store(lines, params, "count", Scalar(since));
    BuildPosts(lines);
    r := Success(Request("/0/public/Spread", params));
  }

  /** kpublic_spread posting `since` under its own name. */
  method SpreadCorrected(pair: seq<string>, since: Value) returns (r: Result<Request, Raised>)
    ensures r.Success? <==> |pair| > 0
    ensures r.Failure? ==> r.error == TypeError(MissingMessageText)
    ensures r.Success? ==>
      && r.value.path == "/0/public/Spread"
      && Posts(r.value.params, Start.Then("pair", Listed(pair)).Then("since", Scalar(since)))
  {
    if |pair| == 0 {
      return Failure(TypeError(MissingMessageText));
    }
    var params := map[];
    ghost var lines := Start;
    params, lines := Store(lines, params, "pair", Listed(pair));
    params, lines := Store(lines, params, "since", Scalar(since));
    BuildPosts(lines);
    r := Success(Request("/0/public/Spread", params));
  }

  /**
   * As written, a `since` given to Trades or Spread is not posted as
   * "since": the parameters that carry it do not send the "since" key.
   */
  lemma SinceNotPosted(params: map<string, Value>, pair: seq<string>, since: Value)
    requires Truthy(since)
    requires Posts(params, Start.Then("pair", Listed(pair)).Then("count", Scalar(since)))
    ensures "since" !in params
    ensures !Posts(params, Start.Then("pair", Listed(pair)).Then("since", Scalar(since)))
  {
    var one := Start.Then("pair", Listed(pair));
    assert KeysOf(one) == Key(NoKeys, "pair");
    var sent := one.Then("count", Scalar(since));
    assert KeysOf(sent) == Key(KeysOf(one), "count");
    FreshNotInNames("since", sent);
    assert !Sends(params, "since", Scalar(since));
  }
}
