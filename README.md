# pykraken in Dafny

A model of the core of pykraken, a Python client for the Kraken REST API. The model covers:

- **The client** (`KrakenClient`, client.dfy).
  - The argument checks of `Client.__init__`.
  - The signed POST of `_post`. This covers the retry deadline, the backoff sleep with jitter, and the nonce written into `params` on every attempt. It also covers the message that is signed, the retry on 500/503/504 and on `_RetriableRequest`, and the `sent_times` rate window.
  - The response classification of `_get_body`.
- **The endpoint builders** (`KPrivate`, kprivate.dfy; `KPublic`, kpublic.dfy). Each one fills a `params` dictionary from its keyword arguments, or raises before anything is posted.
- **The helpers** of convert.py (`Convert`, convert.dfy): `commasep` and `parseOTime`.
- **The exception classes** of exceptions.py (`Errors`, errors.dfy), with the text each `__str__` produces.

### The client

The wall clock, `time.sleep`, `random.random` and `requests.post` are inputs:

- The clock is a `real` number of seconds. It moves only by sleeps and by the time a send takes.
- `env(k)` scripts the jitter, the latency and the outcome of attempt k.

SHA-256, HMAC-SHA512, base64, `urlencode` and `str.encode` are function fields of a `Primitives` value. Nothing is assumed about them.

`_post` calls itself on a retry. That recursion is the function `Pipeline`, which terminates because each retry sleeps at least a quarter second before a finite deadline. The class method `Client.Post` runs the same attempts as a `while` loop (`Retry`) and is proved to end in the `Pipeline` run.

The `Client` class keeps:

- its settings;
- the headers of `requests_kwargs`;
- the `sent_times` window as a `seq<real>`;
- a ghost `history` of every recorded time.

Its invariant `Valid()` says three things: the window is the newest `queries_per_second` entries of the history, the history is in order, and entries `queries_per_second` apart are at least a second apart.

### The endpoints

Each builder is a method that runs the source's `if x: params['name'] = x` lines as `Endpoint.Store` calls. A ghost `Lines` value records the lines that have run. `Endpoint.BuildPosts` turns this into the contract `Posts(params, lines)`: every argument is sent exactly when it is truthy and holds what is stored for it, and no other key is present.

Python arguments are `Params.Value`s (None, bool, int, float as `real`, str), with Python truthiness. A list argument is a `seq<string>`, where the empty sequence stands for both None and `[]`. `Client.Call` posts a builder's request and returns `body['result']`. `KPublic.Time` shows the whole path for the Time endpoint.

## Model

| member | source | states |
|---|---|---|
| KrakenClient.Configure | pykraken/client.py:75-104 | construction fails with ValueError exactly when the key is empty, `timeout` is combined with `connect_timeout` or `read_timeout`, or the deque bound is negative; otherwise the timeout is the (connect, read) pair when both are given, else the combined value, and the other settings are kept |
| KrakenClient.Client.Create | pykraken/client.py:75-104 | a client is made exactly when Configure succeeds, with that configuration, an empty window, an empty history, headers holding only the API key, and a valid rate state; otherwise Configure's error is raised |
| KrakenClient.Client.constructor | pykraken/client.py:95-104 | the headers hold only the API key, the window is empty, and the invariant holds |
| KrakenClient.Extract | pykraken/client.py:168-171 | the caller's extractor when one is given, otherwise `_get_body`; Classification states the default path |
| KrakenClient.GetBody | pykraken/client.py:179-188 | a non-200 status gives HTTPError(status); a 200 with a non-empty error list gives ApiError(200, errors); otherwise the body is returned unchanged; it never gives `_RetriableRequest` |
| KrakenClient.BaseDelay | pykraken/client.py:117-121 | attempt 0 has no delay; every retry's base delay is at least 0.5 s |
| KrakenClient.BackoffGrowth | pykraken/client.py:117-121 | the first retry's base delay is 0.5 s, and each next base delay is 1.5 times the previous one |
| KrakenClient.RetryDelay | pykraken/client.py:117-124 | the jittered delay lies in [0.5, 1.5) times the base delay, so every retry sleeps at least 0.25 s |
| KrakenClient.BudgetDecreases | pykraken/client.py:113-124 | an attempt made before the deadline, followed by the next retry's sleep, leaves a strictly smaller budget, so the retries end |
| KrakenClient.NonceOf | pykraken/client.py:128 | the nonce is 1000 times the time, truncated toward zero |
| KrakenClient.NonceMonotone | pykraken/client.py:128 | a later attempt never gets a smaller nonce |
| KrakenClient.NonceMayRepeat | pykraken/client.py:128 | two attempts within the same millisecond get the same nonce |
| KrakenClient.SignedMessage | pykraken/client.py:130-134 | the signed message: the url bytes followed by SHA256 of the nonce's decimal text and the form body; SignedMessageBindsPayload states what it binds |
| KrakenClient.SignedMessageBindsPayload | pykraken/client.py:130-134 | if the text encoding is injective and SHA256 has no collisions, two messages for one path are equal only when they sign the same nonce text and form body, and for one form body only when the nonces are equal |
| KrakenClient.ApiSign | pykraken/client.py:136-137 | the API-Sign value: base64 of HMAC-SHA512 of the message, keyed with the base64-decoded secret; Send and PipelineAttempts state that every attempt carries it |
| KrakenClient.RateWait | pykraken/client.py:162-165 | the wait is positive exactly when the window is full and its oldest entry is under a second old; the wait is then 1 − elapsed, and afterwards a full window's oldest entry is at least a second old |
| KrakenClient.Append | pykraken/client.py:172 | appending to a deque bounded by maxlen keeps at most maxlen entries; on a full window it drops exactly the oldest entry and adds the new one last |
| KrakenClient.Recent | pykraken/client.py:104 | the window of a history never holds more than maxlen entries |
| KrakenClient.RecentSuffix | pykraken/client.py:104 | the window is the newest entries of the history |
| KrakenClient.AppendRecent | pykraken/client.py:172 | appending to the window of a history gives the window of the extended history |
| KrakenClient.CeilingExtend | pykraken/client.py:162-172 | a time that is no earlier than the last one, and a second after the entry maxlen places back, keeps the history ordered and within the rate ceiling |
| KrakenClient.RecordKeepsValid | pykraken/client.py:162-172 | recording such a time keeps the window the newest entries of the history, and keeps the history ordered and within the rate ceiling |
| KrakenClient.Verdict | pykraken/client.py:148-177 | a retriable status always leads to another attempt, and an attempt that ends the call never ends it with `_RetriableRequest` |
| KrakenClient.Classification | pykraken/client.py:148-188 | with the default extractor: a requests Timeout gives Timeout; another exception gives TransportError(reason); the call retries exactly on 500, 503 or 504; any other non-200 status gives HTTPError; a 200 with errors gives ApiError; a 200 without errors gives the body |
| KrakenClient.Send | pykraken/client.py:117-137 | an attempt is sent after its backoff sleep, with the nonce of its send time, the other params unchanged, and the signature over that data |
| KrakenClient.React | pykraken/client.py:148-177 | after the send, the call retries exactly when the verdict is None, and otherwise ends with the verdict; only a success appends to the window; the clock never runs backwards |
| KrakenClient.Attempt | pykraken/client.py:110-177 | past the deadline (strictly greater elapsed time) an attempt raises Timeout without sending; before it, exactly one attempt is logged, and a retry comes at least 0.25 s later except after attempt 0 |
| KrakenClient.AttemptSent | pykraken/client.py:117-137 | an attempt made before the deadline is sent as attempt k should be; the params it leaves are the ones it sent |
| KrakenClient.AttemptVerdict | pykraken/client.py:148-177 | an attempt made before the deadline is retried exactly when its verdict is None, and otherwise ends the call with that verdict |
| KrakenClient.AttemptWindow | pykraken/client.py:162-172 | an attempt that ends the call appends its end time to the window only on success, and then at least a second after the oldest entry of a full window |
| KrakenClient.Pipeline | pykraken/client.py:106-177 | a call only adds attempts to the log; it sends nothing exactly when the deadline has already passed, and then raises Timeout with params and clock unchanged |
| KrakenClient.PipelineWindow | pykraken/client.py:162-172 | only a successful extraction records a time; every other ending leaves the window unchanged; the clock never runs backwards; a recorded time is at least a second after the oldest entry of a full window |
| KrakenClient.PipelineLast | pykraken/client.py:110-128 | the first attempt is checked at the clock the call starts with; the call leaves params as its last attempt sent them, and returns no earlier than that send |
| KrakenClient.PipelineAttempts | pykraken/client.py:110-137 | the attempts of a call: numbered up from the retry counter; each made before the deadline measured from the same first request time; each after its backoff; each with a fresh nonce and the other params unchanged; each signed; none sent before the previous one |
| KrakenClient.PipelineVerdict | pykraken/client.py:148-177 | every attempt but the last was retried; the result is the last attempt's verdict, or Timeout once a retried attempt passes the deadline |
| KrakenClient.NeverRetriable | pykraken/client.py:174-177 | a call never ends with `_RetriableRequest` |
| KrakenClient.AlwaysRetriableTimesOut | pykraken/client.py:113-158 | a server that keeps answering with retriable statuses makes the call raise Timeout after the deadline, with nothing recorded in the window |
| KrakenClient.RetryThenSucceed | pykraken/client.py:117-173 | with the rate limiter off (a bound of 0), a 500 followed by a 200 gives the body after exactly two attempts; the first is sent at once, the second after 0.5 s times the jitter |
| KrakenClient.FirstRetryDelay | pykraken/client.py:121-124 | the first retry sleeps 0.5 s times the jitter |
| KrakenClient.FirstAttemptRetried | pykraken/client.py:155-158 | a 500 on attempt 0 goes straight on to attempt 1 with the stamped params |
| KrakenClient.SecondAttemptSucceeds | pykraken/client.py:167-173 | a 200 without errors ends the call with the body |
| KrakenClient.RateWaitAfterSend | pykraken/client.py:149-165 | the rate wait runs after the send: with one query per second and a time recorded at 0, a call at 0 still sends at 0, and only the recorded time waits until 1 |
| KrakenClient.PipelineStep | pykraken/client.py:155-177 | a call is its first attempt followed by the rest of the call, with the budget strictly smaller |
| KrakenClient.Retry | pykraken/client.py:106-177 | the retry loop ends in the run of `_post` for the call |
| KrakenClient.Client.Record | pykraken/client.py:172 | `sent_times.append`: the window becomes Append of the old window, the history grows by the time, and the invariant is kept |
| KrakenClient.Client.Post | pykraken/client.py:106-177 | `_post` on the client: the run is the Pipeline of the call; the window is the run's window; the history grows only on success; the headers carry the last attempt's signature; the invariant is kept |
| KrakenClient.Client.Finish | pykraken/client.py:139-172 | a finished run leaves the last attempt's signature in the headers, and records a success in the window |
| KrakenClient.Client.Call | pykraken/kprivate.py:7-8 | an endpoint's call: a builder that raised posts nothing and changes nothing; otherwise the answer is `body['result']` of the posted request, or the error the call raised; the history grows by the end time only on success; the headers carry the last attempt's signature; the returned clock is no earlier than the start and no earlier than the last recorded time, so calls chain |
| Errors.Str | pykraken/exceptions.py:13-75 | the text of each exception's `__str__`, with an ApiError without a message rendered as its decimal status; the Errors lemmas state its properties |
| Errors.ApiErrorStrAsWritten | pykraken/exceptions.py:13-17 | the source's ApiError `__str__`: text exactly when there is a message |
| Errors.HTTPErrorText | pykraken/exceptions.py:36-40 | an HTTPError's text is "HTTP Error: " followed by the decimal status, and the status can be read back from it |
| Errors.HTTPErrorIsTransportError | pykraken/exceptions.py:20-40 | an HTTPError is a TransportError, and its text is never the unknown-error text |
| Errors.RequiredParameterTextInjective | pykraken/exceptions.py:68-75 | two RequiredParameterErrors render alike exactly when they name the same parameter |
| Errors.BadParamterTextInjective | pykraken/exceptions.py:58-65 | two BadParamterErrors render alike exactly when their messages agree |
| Errors.ApiErrorText | pykraken/exceptions.py:13-17 | an ApiError with a message renders as its decimal status, then " (" |
| Errors.ApiErrorStrWithoutMessage | pykraken/exceptions.py:13-15 | without a message, the source's `__str__` gives no text, while Str gives the decimal status |
| Errors.ApiErrorStrAgrees | pykraken/exceptions.py:13-17 | the source's `__str__` gives text exactly when there is a message, and that text is Str's |
| Convert.Join | pykraken/convert.py:6-7 | commasep: the elements joined with the separator between neighbours; JoinSmall, JoinLength and JoinSplitRoundTrip state its properties |
| Convert.JoinSmall | pykraken/convert.py:6-7 | commasep of no elements is "", and of one element is that element |
| Convert.JoinLength | pykraken/convert.py:6-7 | the joined length is the sum of the element lengths plus one separator between each pair of neighbours |
| Convert.JoinSplitRoundTrip | pykraken/convert.py:6-7 | splitting a non-empty joined list on the separator gives the list back, when no element contains the separator |
| Convert.LeadingDigits | pykraken/convert.py:11-12 | the length of the longest all-digit prefix |
| Convert.LeadingDigitsMatch | pykraken/convert.py:11-12 | the greedy scan finds a digit prefix exactly when `^\d+` matches, that is, exactly when the string starts with a digit |
| Convert.ParseOTime | pykraken/convert.py:9-16 | accepts exactly the strings that start with '+' and a digit, or with a digit; it then returns None; everything else raises BadParamterError with the help text |
| Convert.ParseOTimeForgetsTime | pykraken/convert.py:13-14 | two different accepted times give the same None |
| Convert.ParseOTimeCorrected | pykraken/convert.py:9-16 | accepts the same strings, and returns the accepted time itself |
| Convert.ParseOTimeCorrectedKeepsTime | pykraken/convert.py:13-14 | the corrected version gives two accepted times the same result only when they are equal |
| Convert.ParseOTimeExamples | pykraken/convert.py:11-16 | "12abc", "+5" and "1" are accepted; "", "+", "-5", "abc" and "+x1" are rejected |
| Endpoint.Store | pykraken/kprivate.py:13-16 | one `if x: params[name] = x` line: the value is stored under the name exactly when the argument is given, and params is otherwise unchanged |
| Endpoint.BuildPosts | pykraken/kprivate.py:12-17 | when the names are distinct, the dictionary that the lines build sends every given argument under its name with its stored value, omits every argument that is not given, and holds no other key |
| Endpoint.SendsAllFrame | pykraken/kprivate.py:12-17 | storing under a name that no earlier line uses keeps what those lines send |
| Endpoint.FreshNotInNames | pykraken/kprivate.py:12-17 | a name that differs from every earlier key is not among the stored names |
| Endpoint.ListedRoundTrip | pykraken/convert.py:6-7 | a list argument is posted comma-joined, and splitting the posted text gives the list back |
| Endpoint.OrderTimePosted | pykraken/kprivate.py:198-201 | for an accepted order time, what is stored is what parseOTime returns |
| KPrivate.OrderTypeGroupsDisjoint | pykraken/kprivate.py:144-147 | the three order-type groups share no name |
| KPrivate.Balance | pykraken/kprivate.py:6-8 | posts to Balance with no parameters |
| KPrivate.TradeBalance | pykraken/kprivate.py:11-18 | posts aclass and asset exactly when they are truthy, and nothing else |
| KPrivate.OpenOrders | pykraken/kprivate.py:21-28 | posts trades and userref exactly when they are truthy, and nothing else |
| KPrivate.ClosedOrders | pykraken/kprivate.py:31-47 | posts each of its six arguments exactly when it is truthy, and nothing else |
| KPrivate.TradesHistory | pykraken/kprivate.py:63-78 | "type" is posted exactly when typet is one of the five history types; any other value is dropped silently; the other four arguments are posted exactly when truthy |
| KPrivate.QueryTrades | pykraken/kprivate.py:81-90 | one to twenty txids are required, or RequiredParameterError('no txid found') is raised; they are posted comma-joined, with trades when truthy |
| KPrivate.OpenPositions | pykraken/kprivate.py:93-101 | a non-empty txid list is posted comma-joined, and docalcs when truthy |
| KPrivate.Ledgers | pykraken/kprivate.py:104-120 | as written: the request is the same whatever the arguments, with no parameters |
| KPrivate.LedgersDropsDefaults | pykraken/kprivate.py:104-119 | even with its default arguments, the as-written request does not post what the function builds |
| KPrivate.LedgersCorrected | pykraken/kprivate.py:104-118 | the intended request posts each of the six arguments exactly when truthy (typet under "type") |
| KPrivate.QueryLedgers | pykraken/kprivate.py:123-130 | one to twenty ids are required, or BadParamterError('error in ids') is raised; they are posted comma-joined |
| KPrivate.TradeVolume | pykraken/kprivate.py:133-141 | as written: the request is the same whatever the arguments, with no parameters |
| KPrivate.TradeVolumeDropsPair | pykraken/kprivate.py:135-140 | asking for the volume of one pair posts a request without that pair |
| KPrivate.TradeVolumeCorrected | pykraken/kprivate.py:133-139 | the intended request posts the pair list comma-joined and "fee-info" when given |
| KPrivate.PriceCheck | pykraken/kprivate.py:168-183 | a market order must not have a price; the second group needs a price; the third group needs both prices; each failure has its error and message |
| KPrivate.OrderError | pykraken/kprivate.py:155-201 | an order is accepted exactly when all checks pass; the checks run in this order, and the first one that fails gives the error: pair, side, order type, the group's price rule, volume, then the start and expire times |
| KPrivate.AddOrderWithoutArguments | pykraken/kprivate.py:151-158 | with no arguments at all, the error is RequiredParameterError('pair') |
| KPrivate.OrderKeysDistinct | pykraken/kprivate.py:154-205 | an accepted order never stores two values under the same name |
| KPrivate.StorePrices | pykraken/kprivate.py:168-183 | stores no price for a market order, the price for the second group, and price and price2 for the third |
| KPrivate.StoreOptions | pykraken/kprivate.py:188-205 | stores the volume, then leverage, the comma-joined oflags, the checked times, userref and validate, each only when it is given |
| KPrivate.OrderParams | pykraken/kprivate.py:154-205 | an accepted order posts pair, type and ordertype, the prices its group needs, the volume, and exactly the given optional arguments |
| KPrivate.AddOrder | pykraken/kprivate.py:151-208 | raises exactly what OrderError finds; an accepted order posts to AddOrder with the parameters of OrderParams |
| KPrivate.CancelOrder | pykraken/kprivate.py:211-219 | a falsy txid raises RequiredParameterError('transaction id required'); otherwise the txid is posted as given |
| KPublic.ServerTime | pykraken/kpublic.py:13 | gives (unixtime, rfc1123) exactly when the result is a dictionary holding both; otherwise the TypeError or KeyError of the first lookup that fails |
| KPublic.Time | pykraken/kpublic.py:6-13 | posts to Time with no parameters through the client; returns the pair of times, or what the post or the lookups raised; the window, the history and the headers are left as the post leaves them |
| KPublic.Assets | pykraken/kpublic.py:16-38 | a truthy aclass other than "currency" raises BadParamterError; aclass is never posted; info and the comma-joined asset list are posted when given |
| KPublic.AssetPairs | pykraken/kpublic.py:41-74 | info must be one of info, leverage, fees or margin, and is then posted; any other info is rejected before posting, with the TypeError of the message-less BadParamterError |
| KPublic.Ticker | pykraken/kpublic.py:77-99 | an empty pair list is rejected; otherwise the list is posted comma-joined |
| KPublic.OHLC | pykraken/kpublic.py:102-123 | an empty pair list is rejected; otherwise the pair is posted, and interval and since when truthy |
| KPublic.Depth | pykraken/kpublic.py:126-145 | an empty pair list is rejected; otherwise the pair is posted, and count when truthy |
| KPublic.Trades | pykraken/kpublic.py:148-167 | as written: an empty pair list is rejected; a truthy since is posted under "count" |
| KPublic.TradesCorrected | pykraken/kpublic.py:148-167 | the intended request posts since under "since" |
| KPublic.Spread | pykraken/kpublic.py:170-189 | as written: an empty pair list is rejected; a truthy since is posted under "count" |
| KPublic.SpreadCorrected | pykraken/kpublic.py:170-189 | the intended request posts since under "since" |
| KPublic.SinceNotPosted | pykraken/kpublic.py:163-164 | the as-written parameters never carry a "since" key, so they never post what the corrected request does |

## Left out

- The requests version check of `Client.__init__` (client.py:86-90). It compares the str `chunks[0]` with the int 2. On Python 3 that raises TypeError whatever version of requests is installed, so a client with both `connect_timeout` and `read_timeout` cannot be built. On Python 2 the comparison is always False. The model follows the Python 2 outcome and always takes the (connect, read) branch.
- KrakenClient.ApiSign: the secret is taken to be present and valid base64. `base64.b64decode` of the default None secret raises TypeError, and of malformed text raises binascii.Error, in every `_post` before anything is sent; the model's `b64decode` is total, so it has no such failure.
- Errors.ListRepr: renders Python's `repr` of a list of strings with plain single quotes. Python switches to double quotes for a string holding `'` but no `"`, and escapes backslashes and non-printable characters; the model does neither.
- The Python version of error texts: the TypeError text for `BadParamterError()` (`Errors.MissingMessageText`) is the wording of CPython 3.3 to 3.9. From 3.10 the text starts with `BadParamterError.__init__()`.
- `ORDER_FLAGS` (kprivate.py:148): the source declares it and never checks oflags against it, so the model has no such check either.
- The `requests_kwargs` merging, the User-Agent header, `verify`, the base URL and `accepts_clientid`. These are transport settings. The headers field keeps only API-Key and API-Sign.
- HTTP transport, JSON decoding, and the other exceptions `resp.json()` or a custom extractor may raise. The response is a datatype, the send is a scripted outcome, and a custom extractor is a total function.
- SHA-256, HMAC-SHA512, base64, `urlencode`, `urlencode_params`, `normalize_for_urlencode`, `sign_hmac` and `str.encode`. They are uninterpreted function fields of `Primitives`.
- Floating-point arithmetic. The backoff, the clock and the elapsed-time comparisons are exact `real`s, and `timedelta` is a number of seconds.
- Concurrency: the source has no locking, and the model is sequential.
- The mutable default `params={}` of `_post`, which keeps the last nonce between calls that use the default. Every call in the model gets its own params.
- `kprivate_queryorders` and `kprivate_depositmethods`. The method bindings at client.py:191-236 do not reach the first, and the second is an empty stub.
- The `isinstance(txid, list)` tests of querytrades, openpositions and queryledgers. List arguments are typed as lists, so a str passed there is not modelled.
- KPublic.Assets: models `aclass is not "currency"` as string inequality. Python's identity test may also reject an equal string that is not interned.
- KPrivate.AddOrder: in the source, the checks run interleaved with the stores, into a dictionary that is dropped when a check raises. The model runs the checks first (OrderError) and then the stores (OrderParams). The raised error and the posted params are the same either way.
- The `else` branch at kprivate.py:184-187 is unreachable after the order-type check at line 163, so the model has none.
- KPublic.ServerTime: the TypeError text is a fixed string, not Python's exact wording for each non-dictionary result type.
- Unicode digits: `\d` in Python 3 also matches non-ASCII digits. The model accepts ASCII digits only.
- Dictionary insertion order. A `map` has no order, so the order of the form body is left to `urlencode`.
- The integration tests, which need the network and a configuration module.

## Findings

| source | as written | input that shows it | evidently intended | confidence | as-written member | corrected member |
|---|---|---|---|---|---|---|
| pykraken/exceptions.py:14-15 | `__str__` returns the int status when message is None, and `str()` then raises TypeError | `str(ApiError(500))` | the decimal status as text | high, not executed | Errors.ApiErrorStrAsWritten, Errors.ApiErrorStrWithoutMessage | Errors.Str, Errors.ApiErrorStrWithoutMessage |
| pykraken/kprivate.py:119 | `kprivate_ledgers` posts without the params it builds | `kprivate_ledgers(c, asset='XXBT')` posts no asset | `client._post("/0/private/Ledgers", params)` | high, not executed | KPrivate.Ledgers, KPrivate.LedgersDropsDefaults | KPrivate.LedgersCorrected |
| pykraken/kprivate.py:140 | `kprivate_tradevolume` posts without the params it builds | `kprivate_tradevolume(c, pair=['XXBTZUSD'])` posts no pair | `client._post("/0/private/TradeVolume", params)` | high, not executed | KPrivate.TradeVolume, KPrivate.TradeVolumeDropsPair | KPrivate.TradeVolumeCorrected |
| pykraken/kpublic.py:163-164, 185-186 | since is posted under "count" | `kpublic_trades(c, pair=['XXBTZUSD'], since=1)` posts count=1 | `params['since'] = since` | high, not executed | KPublic.Trades, KPublic.Spread, KPublic.SinceNotPosted | KPublic.TradesCorrected, KPublic.SpreadCorrected |
| pykraken/convert.py:13-14 | parseOTime returns None, which addorder then stores as the time | `kprivate_addorder(..., starttm='+60')` stores starttm=None | return the accepted time | medium, not executed | Convert.ParseOTime, Convert.ParseOTimeForgetsTime | Convert.ParseOTimeCorrected, Convert.ParseOTimeCorrectedKeepsTime |
