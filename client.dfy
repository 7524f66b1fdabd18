/**
 * The Kraken client: construction, the signed POST with its retry loop,
 * backoff, deadline and rate window, and the classification of responses.
 *
 * The wall clock, time.sleep, random.random and requests.post are inputs:
 * the clock is a real number of seconds that moves forward only by sleeps
 * and by the time a send takes, and `env(k)` scripts what attempt k sees.
 * Hashing, HMAC, base64, form encoding and str.encode are the function
 * fields of a Primitives value, about which nothing is assumed.
 */
module KrakenClient {
  import opened Wrappers
  import opened Text
  import opened Params
  import opened Errors

  type byte = b: int | 0 <= b < 256

  /** A decoded JSON value. */
  datatype Json = JNull | JBool(b: bool) | JNum(n: real) | JStr(s: string)
                | JArr(items: seq<Json>) | JObj(fields: map<string, Json>)

  /** The decoded response body: the API's `error` list and its `result`. */
  datatype Body = Body(error: seq<string>, result: Json)

  datatype Response = Response(status: int, body: Body)

  /** What requests.post does: raise its Timeout, raise something else (rendered as text), or answer. */
  datatype SendOutcome = SendTimeout | SendFailed(reason: string) | Responded(response: Response)

  /**
   * What the environment supplies for one attempt: random.random() + 0.5 for
   * the backoff, the seconds requests.post takes, and what it produces.
   */
  datatype Step = Step(jitter: Jitter, latency: Duration, outcome: SendOutcome)

  /** random.random() + 0.5. */
  type Jitter = j: real | 0.5 <= j < 1.5 witness 1.0

  /** A length of time in seconds. */
  type Duration = d: real | d >= 0.0 witness 0.0

  /** Library code the client calls and this model does not look into. */
  datatype Primitives = Primitives(
    utf8: string -> seq<byte>,
    urlencode: map<string, Value> -> string,
    sha256: seq<byte> -> seq<byte>,
    hmacSha512: (seq<byte>, seq<byte>) -> seq<byte>,
    b64decode: string -> seq<byte>,
    b64encode: seq<byte> -> string)

  /** The `extract_body` argument of `_post`: a caller's own body extractor, if any. */
  type Extractor = Option<Response -> Result<Body, KrakenError>>

  // ---------------------------------------------------------------------
  // Construction

  /** The requests timeout: one combined value (possibly None) or a (connect, read) pair. */
  datatype TimeoutSetting = Combined(seconds: Option<real>) | Split(connect: real, read: real)

  datatype Config = Config(key: string, privateKey: string, timeout: TimeoutSetting,
                           retryTimeout: real, queriesPerSecond: nat)

  /** A timeout argument is given when it is truthy: neither None nor 0. */
  predicate Given(t: Option<real>) {
    t.Some? && t.value != 0.0
  }

  const MissingKeyText := "Must provide API key when creating client."
  const TimeoutClashText := "Specify either timeout, or connect_timeout and read_timeout"
  const NegativeMaxlenText := "maxlen must be non-negative"

  /** The checks and settings of Client.__init__ (an empty key stands for a missing one). */
  function Configure(key: string, privateKey: string, timeout: Option<real>,
                     connectTimeout: Option<real>, readTimeout: Option<real>,
                     retryTimeout: real, queriesPerSecond: int): (r: Result<Config, Raised>)
    ensures r.Success? <==>
      key != "" && !(Given(timeout) && (Given(connectTimeout) || Given(readTimeout))) && queriesPerSecond >= 0
    ensures key == "" ==> r == Failure(ValueError(MissingKeyText))
    ensures key != "" && Given(timeout) && (Given(connectTimeout) || Given(readTimeout)) ==>
      r == Failure(ValueError(TimeoutClashText))
    ensures key != "" && !(Given(timeout) && (Given(connectTimeout) || Given(readTimeout))) && queriesPerSecond < 0 ==>
      r == Failure(ValueError(NegativeMaxlenText))
    ensures r.Success? ==>
      && r.value.key == key && r.value.privateKey == privateKey
      && r.value.retryTimeout == retryTimeout && r.value.queriesPerSecond == queriesPerSecond
    ensures r.Success? && Given(connectTimeout) && Given(readTimeout) ==>
      r.value.timeout == Split(connectTimeout.value, readTimeout.value)
    ensures r.Success? && !(Given(connectTimeout) && Given(readTimeout)) ==>
      r.value.timeout == Combined(timeout)
  {
    if key == "" then Failure(ValueError(MissingKeyText))
    else if Given(timeout) && (Given(connectTimeout) || Given(readTimeout)) then
      Failure(ValueError(TimeoutClashText))
    else if queriesPerSecond < 0 then Failure(ValueError(NegativeMaxlenText))
    else
      var t := if Given(connectTimeout) && Given(readTimeout)
               then Split(connectTimeout.value, readTimeout.value) else Combined(timeout);
      Success(Config(key, privateKey, t, retryTimeout, queriesPerSecond))
  }

  // ---------------------------------------------------------------------
  // Classification

  const RetriableStatuses: set<int> := {500, 503, 504}

  /** _get_body: a non-200 status is an HTTPError, a non-empty error list an ApiError, else the body. */
  function GetBody(resp: Response): (r: Result<Body, KrakenError>)
    ensures r.Success? <==> resp.status == 200 && resp.body.error == []
    ensures r.Success? ==> r.value == resp.body
    ensures resp.status != 200 ==> r == Failure(HTTPError(resp.status))
    ensures resp.status == 200 && resp.body.error != [] ==>
      r == Failure(ApiError(200, Some(resp.body.error)))
    ensures r != Failure(RetriableRequest)
  {
    if resp.status != 200 then Failure(HTTPError(resp.status))
    else if |resp.body.error| > 0 then Failure(ApiError(resp.status, Some(resp.body.error)))
    else Success(resp.body)
  }

  function Extract(extract: Extractor, resp: Response): Result<Body, KrakenError> {
    if extract.Some? then extract.value(resp) else GetBody(resp)
  }

  // ---------------------------------------------------------------------
  // Backoff

  function Pow15(n: nat): (r: real)
    ensures r >= 1.0
  {
    if n == 0 then 1.0 else 1.5 * Pow15(n - 1)
  }

  /** The sleep before attempt k without jitter: 0.5 * 1.5^(k-1) seconds for a retry. */
  function BaseDelay(k: nat): (d: real)
    ensures k == 0 ==> d == 0.0
    ensures k >= 1 ==> d >= 0.5
  {
    if k == 0 then 0.0 else 0.5 * Pow15(k - 1)
  }

  /** The first retry waits 0.5 s and each later one 1.5 times the previous (before jitter). */
  lemma BackoffGrowth(k: nat)
    requires k >= 1
    ensures BaseDelay(1) == 0.5
    ensures BaseDelay(k + 1) == 1.5 * BaseDelay(k)
  {
  }

  /** The sleep before attempt k with the jitter factor applied. */
  function RetryDelay(k: nat, jitter: Jitter): (d: real)
    ensures k == 0 ==> d == 0.0
    ensures k >= 1 ==> 0.5 * BaseDelay(k) <= d < 1.5 * BaseDelay(k)
    ensures k >= 1 ==> d >= 0.25
  {
    var b := BaseDelay(k);
    assert b * jitter - 0.5 * b == b * (jitter - 0.5);
    b * jitter
  }

  /** The whole quarter-seconds in `slack`: floor(4 * slack) for a non-negative slack. */
  function Quarters(slack: real): (q: nat)
    decreases if slack < 0.25 then 0 else (4.0 * slack).Floor
  {
    if slack < 0.25 then 0 else 1 + Quarters(slack - 0.25)
  }

  /** More slack never means fewer quarter-seconds. */
  lemma {:induction false} QuartersMonotone(a: real, b: real)
    requires a <= b
    ensures Quarters(a) <= Quarters(b)
    decreases if b < 0.25 then 0 else (4.0 * b).Floor
  {
    if a >= 0.25 {
      QuartersMonotone(a - 0.25, b - 0.25);
    }
  }

  /** A measure that the deadline bounds: the quarter-seconds left before it, plus one for the undelayed first attempt. */
  function Budget(deadline: real, now: real, k: nat): nat {
    if now > deadline then 0 else Quarters(deadline - now) + (if k == 0 then 2 else 1)
  }

  /**
   * Every retry sleeps at least a quarter of a second, and the first attempt
   * not at all, so each attempt leaves a smaller budget: the retries end.
   */
  lemma BudgetDecreases(deadline: real, now: real, later: real, k: nat)
    requires now <= deadline
    requires later >= now + (if k == 0 then 0.0 else 0.25)
    ensures Budget(deadline, later, k + 1) < Budget(deadline, now, k)
  {
    if later <= deadline {
      if k == 0 {
        QuartersMonotone(deadline - later, deadline - now);
      } else {
        QuartersMonotone(deadline - later, deadline - now - 0.25);
      }
    }
  }

  // ---------------------------------------------------------------------
  // Nonce and signature

  /** int(1000 * t): the time in milliseconds, truncated toward zero. */
  function NonceOf(t: real): (n: int)
    ensures t >= 0.0 ==> n as real <= 1000.0 * t < n as real + 1.0
    ensures t < 0.0 ==> n as real - 1.0 < 1000.0 * t <= n as real
  {
    if t >= 0.0 then (1000.0 * t).Floor else -((-1000.0 * t).Floor)
  }

  /** Later attempts never get a smaller nonce ... */
  lemma NonceMonotone(s: real, t: real)
    requires s <= t
    ensures NonceOf(s) <= NonceOf(t)
  {
  }

  /** ... but two attempts in the same millisecond get the same one: nothing bumps it. */
  lemma NonceMayRepeat()
    ensures NonceOf(1.0) == NonceOf(1.0005) == 1000
  {
  }

  /** url.encode() followed by SHA256((str(nonce) + urlencode(params)).encode()). */
  function SignedMessage(p: Primitives, url: string, nonce: int, data: map<string, Value>): seq<byte> {
    p.utf8(url) + p.sha256(p.utf8(IntToDecimal(nonce) + p.urlencode(data)))
  }

  /** The API-Sign header: base64 of HMAC-SHA512 keyed with the decoded secret. */
  function ApiSign(p: Primitives, secret: string, message: seq<byte>): string {
    p.b64encode(p.hmacSha512(p.b64decode(secret), message))
  }

  /**
   * With an injective UTF-8 encoder and a collision-free digest, two signed
   * messages for one path agree only when they sign the same nonce text and
   * form body; for one form body, only when the nonces are the same.
   */
  lemma SignedMessageBindsPayload(p: Primitives, url: string, n1: int, d1: map<string, Value>,
                                  n2: int, d2: map<string, Value>)
    requires forall a: string, b: string :: p.utf8(a) == p.utf8(b) ==> a == b
    requires forall a: seq<byte>, b: seq<byte> :: p.sha256(a) == p.sha256(b) ==> a == b
    requires SignedMessage(p, url, n1, d1) == SignedMessage(p, url, n2, d2)
    ensures IntToDecimal(n1) + p.urlencode(d1) == IntToDecimal(n2) + p.urlencode(d2)
    ensures p.urlencode(d1) == p.urlencode(d2) ==> n1 == n2
  {
    var u := p.utf8(url);
    var t1, t2 := IntToDecimal(n1) + p.urlencode(d1), IntToDecimal(n2) + p.urlencode(d2);
    var m1, m2 := SignedMessage(p, url, n1, d1), SignedMessage(p, url, n2, d2);
    assert m1[|u|..] == p.sha256(p.utf8(t1));
    assert m2[|u|..] == p.sha256(p.utf8(t2));
    assert p.utf8(t1) == p.utf8(t2);
    if p.urlencode(d1) == p.urlencode(d2) {
      var a, b := IntToDecimal(n1), IntToDecimal(n2);
      assert |a| == |b|;
      assert a == t1[..|a|] && b == t2[..|b|];
      DecimalInjective(n1, n2);
    }
  }

  // ---------------------------------------------------------------------
  // Rate window

  /** How long the rate check sleeps: only when the window is full and its oldest entry is under a second old. */
  function RateWait(window: seq<real>, capacity: nat, now: real): (w: real)
    ensures w >= 0.0
    ensures w > 0.0 <==> |window| > 0 && |window| == capacity && now - window[0] < 1.0
    ensures w > 0.0 ==> w == 1.0 - (now - window[0])
    ensures |window| > 0 && |window| == capacity ==> now + w - window[0] >= 1.0
  {
    if |window| > 0 && |window| == capacity then
      var elapsed := now - window[0];
      if elapsed < 1.0 then 1.0 - elapsed else 0.0
    else 0.0
  }

  /** deque.append on a deque with maxlen `capacity`. */
  function Append(window: seq<real>, t: real, capacity: nat): (r: seq<real>)
    ensures |r| == if |window| < capacity then |window| + 1 else capacity
    ensures capacity > 0 ==> r == window[|window| + 1 - |r|..] + [t]
    ensures capacity == 0 ==> r == []
  {
    if |window| < capacity then window + [t]
    else if capacity == 0 then []
    else window[|window| + 1 - capacity..] + [t]
  }

  /** The newest `capacity` entries of a history of timestamps: drop the oldest until they fit. */
  function Recent(h: seq<real>, capacity: nat): (r: seq<real>)
    ensures |r| <= capacity
    ensures |r| == if |h| <= capacity then |h| else capacity
    decreases |h|
  {
    if |h| <= capacity then h else Recent(h[1..], capacity)
  }

  /** The window is the history's suffix of length `capacity`, or all of it. */
  lemma {:induction false} RecentSuffix(h: seq<real>, capacity: nat)
    ensures Recent(h, capacity) == h[|h| - |Recent(h, capacity)|..]
    decreases |h|
  {
    if |h| > capacity {
      RecentSuffix(h[1..], capacity);
      assert h[1..][|h| - 1 - capacity..] == h[|h| - capacity..];
    }
  }

  /** Appending to the window of a history gives the window of the longer history. */
  lemma {:induction false} AppendRecent(h: seq<real>, t: real, capacity: nat)
    ensures Append(Recent(h, capacity), t, capacity) == Recent(h + [t], capacity)
    decreases |h|
  {
    if |h| > capacity {
      AppendRecent(h[1..], t, capacity);
      assert (h + [t])[1..] == h[1..] + [t];
    } else if |h| == capacity {
      if capacity == 0 {
        assert Recent([t], 0) == Recent([t][1..], 0);
      } else {
        assert (h + [t])[1..] == h[1..] + [t];
        assert Recent(h[1..] + [t], capacity) == h[1..] + [t];
      }
    }
  }

  ghost predicate Sorted(h: seq<real>) {
    forall i, j :: 0 <= i <= j < |h| ==> h[i] <= h[j]
  }

  /**
   * The rate ceiling on recorded timestamps: entries `capacity` or more
   * places apart are at least a second apart, so fewer than a second holds at
   * most `capacity` of them. A capacity of 0 disables the limiter.
   */
  ghost predicate Ceiling(h: seq<real>, capacity: nat) {
    capacity > 0 ==> forall i, j :: 0 <= i < j < |h| && j - i >= capacity ==> h[j] - h[i] >= 1.0
  }

  lemma CeilingExtend(h: seq<real>, t: real, capacity: nat)
    requires Sorted(h) && Ceiling(h, capacity)
    requires |h| > 0 ==> h[|h| - 1] <= t
    requires capacity > 0 && |h| >= capacity ==> t - h[|h| - capacity] >= 1.0
    ensures Sorted(h + [t]) && Ceiling(h + [t], capacity)
  {
    var h' := h + [t];
    forall i, j | 0 <= i < j < |h'| && j - i >= capacity && capacity > 0
      ensures h'[j] - h'[i] >= 1.0
    {
      if j == |h| {
        assert h[i] <= h[|h| - capacity];
      }
    }
  }

  // ---------------------------------------------------------------------
  // The request pipeline

  /** One attempt as it left the client: when, after which sleep, with which nonce, data and signature. */
  datatype Sent = Sent(attempt: nat, checkedAt: real, delay: real, sentAt: real, nonce: int,
                       data: map<string, Value>, message: seq<byte>, apiSign: string)

  /** How a call to `_post` ends: its result, the window, the params dict, the attempts and the clock. */
  datatype Run = Run(result: Result<Body, KrakenError>, window: seq<real>,
                     params: map<string, Value>, sent: seq<Sent>, clock: real)

  /** One pass through `_post`: it either ends the call or calls `_post` again with these values. */
  datatype Turn = Done(run: Run) | Again(params: map<string, Value>, clock: real, sent: seq<Sent>)
  {
    function Log(): seq<Sent> { if Done? then run.sent else sent }
    function Params(): map<string, Value> { if Done? then run.params else params }
    function Clock(): real { if Done? then run.clock else clock }
  }

  /**
   * What ends the call once attempt k has been sent, or None when `_post`
   * calls itself again: a requests Timeout, any other exception, a response
   * with a retriable status, or the extractor's verdict, where only
   * _RetriableRequest leads to another attempt.
   */
  function Verdict(o: SendOutcome, extract: Extractor): (v: Option<Result<Body, KrakenError>>)
    ensures v.Some? ==> v.value != Failure(RetriableRequest)
    ensures o.Responded? && o.response.status in RetriableStatuses ==> v.None?
  {
    match o
    case SendTimeout => Some(Failure(Timeout))
    case SendFailed(reason) => Some(Failure(TransportError(Some(reason))))
    case Responded(resp) =>
      if resp.status in RetriableStatuses then None
      else
        var out := Extract(extract, resp);
        if out.Failure? && out.error == RetriableRequest then None else Some(out)
  }

  /**
   * With the default extractor, a call ends on a requests Timeout with
   * Timeout, on another exception with TransportError, on a non-retriable
   * status other than 200 with HTTPError, on 200 with errors with ApiError,
   * and on 200 without errors with the body; 500, 503 and 504 are retried.
   */
  lemma Classification(o: SendOutcome)
    ensures o.SendTimeout? ==> Verdict(o, None) == Some(Failure(Timeout))
    ensures o.SendFailed? ==> Verdict(o, None) == Some(Failure(TransportError(Some(o.reason))))
    ensures o.Responded? ==>
      var resp := o.response;
      && (Verdict(o, None).None? <==> resp.status in {500, 503, 504})
      && (resp.status !in {200, 500, 503, 504} ==> Verdict(o, None) == Some(Failure(HTTPError(resp.status))))
      && (resp.status == 200 && resp.body.error != [] ==>
            Verdict(o, None) == Some(Failure(ApiError(200, Some(resp.body.error)))))
      && (resp.status == 200 && resp.body.error == [] ==> Verdict(o, None) == Some(Success(resp.body)))
  {
  }

  /** Attempt n as `_post` makes it, for a call with the given params (other than the nonce). */
  ghost predicate WellSent(s: Sent, n: nat, cfg: Config, p: Primitives, url: string,
                           base: map<string, Value>, first: real, env: nat -> Step) {
    && s.attempt == n
    && s.checkedAt - first <= cfg.retryTimeout
    && s.delay == RetryDelay(n, env(n).jitter)
    && s.sentAt == s.checkedAt + s.delay
    && s.nonce == NonceOf(s.sentAt)
    && s.data == base["nonce" := IntV(s.nonce)]
    && s.message == SignedMessage(p, url, s.nonce, s.data)
    && s.apiSign == ApiSign(p, cfg.privateKey, s.message)
  }

  /**
   * The attempts of one call, the entries of `log` from index `from` on:
   * numbered from k, none checked before an earlier one was sent.
   */
  ghost predicate Attempts(log: seq<Sent>, from: nat, k: nat, cfg: Config, p: Primitives, url: string,
                           base: map<string, Value>, first: real, env: nat -> Step) {
    AllWellSent(log, from, k, cfg, p, url, base, first, env) && InOrder(log, from)
  }

  ghost predicate AllWellSent(log: seq<Sent>, from: nat, k: nat, cfg: Config, p: Primitives, url: string,
                              base: map<string, Value>, first: real, env: nat -> Step) {
    forall i :: from <= i < |log| ==> WellSent(log[i], k + (i - from), cfg, p, url, base, first, env)
  }

  ghost predicate InOrder(log: seq<Sent>, from: nat) {
    forall i :: from <= i < |log| - 1 ==> log[i].sentAt <= log[i + 1].checkedAt
  }

  /**
   * Attempt k at index `from`, followed by attempts numbered from k + 1 of
   * which the first was checked no earlier than attempt k was sent.
   */
  lemma AttemptsPrepend(all: seq<Sent>, from: nat, k: nat, cfg: Config, p: Primitives,
                        url: string, base: map<string, Value>, first: real, env: nat -> Step)
    requires from < |all| && WellSent(all[from], k, cfg, p, url, base, first, env)
    requires Attempts(all, from + 1, k + 1, cfg, p, url, base, first, env)
    requires from + 1 < |all| ==> all[from].sentAt <= all[from + 1].checkedAt
    ensures Attempts(all, from, k, cfg, p, url, base, first, env)
  {
    AllWellSentPrepend(all, from, k, cfg, p, url, base, first, env);
    InOrderPrepend(all, from);
  }

  lemma AllWellSentPrepend(all: seq<Sent>, from: nat, k: nat, cfg: Config, p: Primitives,
                           url: string, base: map<string, Value>, first: real, env: nat -> Step)
    requires from < |all| && WellSent(all[from], k, cfg, p, url, base, first, env)
    requires AllWellSent(all, from + 1, k + 1, cfg, p, url, base, first, env)
    ensures AllWellSent(all, from, k, cfg, p, url, base, first, env)
  {
    forall i | from < i < |all|
      ensures WellSent(all[i], k + (i - from), cfg, p, url, base, first, env)
    {
      assert k + 1 + (i - (from + 1)) == k + (i - from);
    }
  }

  lemma InOrderPrepend(all: seq<Sent>, from: nat)
    requires from < |all| && InOrder(all, from + 1)
    requires from + 1 < |all| ==> all[from].sentAt <= all[from + 1].checkedAt
    ensures InOrder(all, from)
  {
  }

  /** Stamping a new nonce leaves the other params as they were (a step of Send's proof). */
  lemma NonceRestamp(params: map<string, Value>, v: Value)
    ensures (params - {"nonce"})["nonce" := v] - {"nonce"} == params - {"nonce"}
  {
  }

  /**
   * The part of attempt k before the send: sleep for the backoff, stamp
   * params['nonce'] with the time in milliseconds, and sign url bytes +
   * SHA256(nonce text + form body).
   */
  function Send(cfg: Config, p: Primitives, url: string, params: map<string, Value>,
                first: real, now: real, k: nat, env: nat -> Step): (s: Sent)
    requires now - first <= cfg.retryTimeout
    ensures WellSent(s, k, cfg, p, url, params - {"nonce"}, first, env)
    ensures s.checkedAt == now
    ensures s.data - {"nonce"} == params - {"nonce"}
  {
    var delay := RetryDelay(k, env(k).jitter);
    var at := now + delay;
    var nonce := NonceOf(at);
    var data := params["nonce" := IntV(nonce)];
    assert data == (params - {"nonce"})["nonce" := IntV(nonce)];
    var message := SignedMessage(p, url, nonce, data);
    Sent(k, now, delay, at, nonce, data, message, ApiSign(p, cfg.privateKey, message))
  }

  /**
   * The body of `_post(url, params, first_request_time = first,
   * retry_counter = k)` at clock `now`, `sent` holding the attempts made so
   * far: deadline check, backoff sleep, nonce, signature, send, retry on
   * 500/503/504, rate check, body extraction, retry on RetriableRequest,
   * recording the time on success.
   */
  function Attempt(cfg: Config, p: Primitives, url: string, params: map<string, Value>,
                   window: seq<real>, first: real, now: real, k: nat,
                   env: nat -> Step, extract: Extractor, sent: seq<Sent>): (t: Turn)
    ensures t.Again? ==> now - first <= cfg.retryTimeout
    ensures t.Again? ==> t.clock >= now + (if k == 0 then 0.0 else 0.25)
    ensures now - first > cfg.retryTimeout ==> t == Done(Run(Failure(Timeout), window, params, sent, now))
    ensures now - first <= cfg.retryTimeout ==> |t.Log()| == |sent| + 1 && t.Log()[..|sent|] == sent
  {
    if now - first > cfg.retryTimeout then Done(Run(Failure(Timeout), window, params, sent, now))
    else
      var s := Send(cfg, p, url, params, first, now, k, env);
      React(cfg, window, s.data, sent + [s], s.sentAt + env(k).latency, env(k).outcome, extract)
  }

  /**
   * What an attempt does with what requests.post produced at time `after`:
   * give up on a timeout or a transport failure, retry on a retriable status,
   * otherwise wait for the rate window, extract the body, and record a success
   * in the window or retry a _RetriableRequest.
   */
  function React(cfg: Config, window: seq<real>, data: map<string, Value>, log: seq<Sent>,
                 after: real, outcome: SendOutcome, extract: Extractor): (t: Turn)
    ensures t.Log() == log && t.Params() == data && t.Clock() >= after
    ensures t.Again? <==> Verdict(outcome, extract).None?
    ensures t.Done? ==> Verdict(outcome, extract) == Some(t.run.result)
    ensures t.Done? && t.run.result.Success? ==>
      && t.run.window == Append(window, t.run.clock, cfg.queriesPerSecond)
      && (|window| > 0 && |window| == cfg.queriesPerSecond ==> t.run.clock - window[0] >= 1.0)
    ensures t.Done? && !t.run.result.Success? ==> t.run.window == window
  {
    match outcome
    case SendTimeout => Done(Run(Failure(Timeout), window, data, log, after))
    case SendFailed(reason) => Done(Run(Failure(TransportError(Some(reason))), window, data, log, after))
    case Responded(resp) =>
      if resp.status in RetriableStatuses then
        Again(data, after, log)
      else
        var ready := after + RateWait(window, cfg.queriesPerSecond, after);
        var out := Extract(extract, resp);
        if out.Success? then Done(Run(out, Append(window, ready, cfg.queriesPerSecond), data, log, ready))
        else if out.error == RetriableRequest then
          Again(data, ready, log)
        else Done(Run(out, window, data, log, ready))
  }

  /**
   * An attempt made before the deadline is attempt k as `_post` makes it,
   * checked at `now`; the params it leaves are the ones it sent, and the
   * clock it leaves is no earlier than the send.
   */
  lemma AttemptSent(cfg: Config, p: Primitives, url: string, params: map<string, Value>,
                    window: seq<real>, first: real, now: real, k: nat,
                    env: nat -> Step, extract: Extractor, sent: seq<Sent>)
    requires now - first <= cfg.retryTimeout
    ensures var t := Attempt(cfg, p, url, params, window, first, now, k, env, extract, sent);
      var s := t.Log()[|sent|];
      && WellSent(s, k, cfg, p, url, params - {"nonce"}, first, env)
      && s.checkedAt == now && t.Params() == s.data && t.Clock() >= s.sentAt
  {
  }

  /** An attempt made before the deadline is retried exactly when its verdict is None, and otherwise ends the call with it. */
  lemma AttemptVerdict(cfg: Config, p: Primitives, url: string, params: map<string, Value>,
                       window: seq<real>, first: real, now: real, k: nat,
                       env: nat -> Step, extract: Extractor, sent: seq<Sent>)
    requires now - first <= cfg.retryTimeout
    ensures var t := Attempt(cfg, p, url, params, window, first, now, k, env, extract, sent);
      && t.Log()[|sent|].attempt == k
      && (t.Again? <==> Verdict(env(k).outcome, extract).None?)
      && (t.Done? ==> Verdict(env(k).outcome, extract) == Some(t.run.result))
  {
  }

  /**
   * An attempt that ends the call records its end time in the window only on
   * success, and then at least a second after the oldest entry of a full window.
   */
  lemma AttemptWindow(cfg: Config, p: Primitives, url: string, params: map<string, Value>,
                      window: seq<real>, first: real, now: real, k: nat,
                      env: nat -> Step, extract: Extractor, sent: seq<Sent>)
    ensures var t := Attempt(cfg, p, url, params, window, first, now, k, env, extract, sent);
      && t.Clock() >= now
      && (t.Done? && t.run.result.Success? ==> t.run.window == Append(window, t.run.clock, cfg.queriesPerSecond))
      && (t.Done? && !t.run.result.Success? ==> t.run.window == window)
      && (t.Done? && t.run.result.Success? && |window| > 0 && |window| == cfg.queriesPerSecond ==>
            t.run.clock - window[0] >= 1.0)
  {
  }

  /** `_post` with its self-recursion: attempts until one ends the call. */
  function Pipeline(cfg: Config, p: Primitives, url: string, params: map<string, Value>,
                    window: seq<real>, first: real, now: real, k: nat,
                    env: nat -> Step, extract: Extractor, sent: seq<Sent>): (run: Run)
    decreases Budget(first + cfg.retryTimeout, now, k)
    ensures |run.sent| >= |sent| && run.sent[..|sent|] == sent
    ensures |run.sent| == |sent| <==> now - first > cfg.retryTimeout
    ensures |run.sent| == |sent| ==> run.result == Failure(Timeout) && run.params == params && run.clock == now
  {
    match Attempt(cfg, p, url, params, window, first, now, k, env, extract, sent)
    case Done(run) => run
    case Again(data, later, log) =>
      BudgetDecreases(first + cfg.retryTimeout, now, later, k);
      Pipeline(cfg, p, url, data, window, first, later, k + 1, env, extract, log)
  }

  /**
   * Only a successful extraction records a timestamp; every other ending
   * leaves the window as it was. The clock never runs backwards, and a
   * recorded time is at least a second after the oldest entry of a full window.
   */
  lemma {:induction false} PipelineWindow(cfg: Config, p: Primitives, url: string, params: map<string, Value>,
                                          window: seq<real>, first: real, now: real, k: nat,
                                          env: nat -> Step, extract: Extractor, sent: seq<Sent>)
    decreases Budget(first + cfg.retryTimeout, now, k)
    ensures var run := Pipeline(cfg, p, url, params, window, first, now, k, env, extract, sent);
      && run.clock >= now
      && (run.result.Success? ==> run.window == Append(window, run.clock, cfg.queriesPerSecond))
      && (!run.result.Success? ==> run.window == window)
      && (run.result.Success? && |window| > 0 && |window| == cfg.queriesPerSecond ==> run.clock - window[0] >= 1.0)
  {
    var t := Attempt(cfg, p, url, params, window, first, now, k, env, extract, sent);
    AttemptWindow(cfg, p, url, params, window, first, now, k, env, extract, sent);
    if t.Again? {
      BudgetDecreases(first + cfg.retryTimeout, now, t.clock, k);
      PipelineWindow(cfg, p, url, t.params, window, first, t.clock, k + 1, env, extract, t.sent);
    }
  }

  /**
   * The first attempt of a call is checked at the clock the call starts
   * with; the call leaves params as its last attempt sent them and returns
   * no earlier than that attempt was sent.
   */
  lemma {:induction false} PipelineLast(cfg: Config, p: Primitives, url: string, params: map<string, Value>,
                                        window: seq<real>, first: real, now: real, k: nat,
                                        env: nat -> Step, extract: Extractor, sent: seq<Sent>)
    decreases Budget(first + cfg.retryTimeout, now, k), 1
    ensures var run := Pipeline(cfg, p, url, params, window, first, now, k, env, extract, sent);
      |run.sent| > |sent| ==>
        && run.sent[|sent|].checkedAt == now
        && run.params == run.sent[|run.sent| - 1].data
        && run.clock >= run.sent[|run.sent| - 1].sentAt
  {
    var t := Attempt(cfg, p, url, params, window, first, now, k, env, extract, sent);
    if now - first <= cfg.retryTimeout {
      AttemptSent(cfg, p, url, params, window, first, now, k, env, extract, sent);
      if t.Again? {
        RetryLast(cfg, p, url, params, window, first, now, k, env, extract, sent);
      }
    }
  }

  lemma {:induction false} RetryLast(cfg: Config, p: Primitives, url: string, params: map<string, Value>,
                                     window: seq<real>, first: real, now: real, k: nat,
                                     env: nat -> Step, extract: Extractor, sent: seq<Sent>)
    requires Attempt(cfg, p, url, params, window, first, now, k, env, extract, sent).Again?
    decreases Budget(first + cfg.retryTimeout, now, k), 0
    ensures var run := Pipeline(cfg, p, url, params, window, first, now, k, env, extract, sent);
      && run.sent[|sent|].checkedAt == now
      && run.params == run.sent[|run.sent| - 1].data
      && run.clock >= run.sent[|run.sent| - 1].sentAt
  {
    var t := Attempt(cfg, p, url, params, window, first, now, k, env, extract, sent);
    AttemptSent(cfg, p, url, params, window, first, now, k, env, extract, sent);
    PipelineStep(cfg, p, url, params, window, first, now, k, env, extract, sent);
    RetryLastAfter(cfg, p, url, window, first, t.clock, k, env, extract, t.params, t.sent, |sent|, now);
  }

  lemma {:induction false} RetryLastAfter(cfg: Config, p: Primitives, url: string,
                                          window: seq<real>, first: real, later: real, k: nat,
                                          env: nat -> Step, extract: Extractor, data: map<string, Value>,
                                          log: seq<Sent>, from: nat, checked: real)
    requires |log| == from + 1 && log[from].checkedAt == checked
    requires data == log[from].data && log[from].sentAt <= later
    decreases Budget(first + cfg.retryTimeout, later, k + 1), 2
    ensures var run := Pipeline(cfg, p, url, data, window, first, later, k + 1, env, extract, log);
      && run.sent[from].checkedAt == checked
      && run.params == run.sent[|run.sent| - 1].data
      && run.clock >= run.sent[|run.sent| - 1].sentAt
  {
    PipelineLast(cfg, p, url, data, window, first, later, k + 1, env, extract, log);
    var run := Pipeline(cfg, p, url, data, window, first, later, k + 1, env, extract, log);
    assert run.sent[from] == run.sent[..|log|][from];
    if |run.sent| == |log| {
      assert run.sent[|run.sent| - 1] == log[from];
    }
  }

  /**
   * The attempts of a call: numbered from the retry counter up, each made
   * while the deadline had not passed, each after its backoff sleep, each
   * with params['nonce'] replaced by its send time in milliseconds and the
   * other params unchanged, each signed over that data, and none sent before
   * the previous one.
   */
  lemma {:induction false} PipelineAttempts(cfg: Config, p: Primitives, url: string, params: map<string, Value>,
                                            window: seq<real>, first: real, now: real, k: nat,
                                            env: nat -> Step, extract: Extractor, sent: seq<Sent>)
    decreases Budget(first + cfg.retryTimeout, now, k), 2
    ensures var run := Pipeline(cfg, p, url, params, window, first, now, k, env, extract, sent);
      Attempts(run.sent, |sent|, k, cfg, p, url, params - {"nonce"}, first, env)
  {
    var t := Attempt(cfg, p, url, params, window, first, now, k, env, extract, sent);
    if now - first > cfg.retryTimeout {
    } else if t.Again? {
      RetryAttempts(cfg, p, url, params, window, first, now, k, env, extract, sent);
    } else {
      var run := Pipeline(cfg, p, url, params, window, first, now, k, env, extract, sent);
      AttemptSent(cfg, p, url, params, window, first, now, k, env, extract, sent);
      assert run == t.run;
      AttemptsPrepend(run.sent, |sent|, k, cfg, p, url, params - {"nonce"}, first, env);
    }
  }

  lemma {:induction false} RetryAttempts(cfg: Config, p: Primitives, url: string, params: map<string, Value>,
                                         window: seq<real>, first: real, now: real, k: nat,
                                         env: nat -> Step, extract: Extractor, sent: seq<Sent>)
    requires Attempt(cfg, p, url, params, window, first, now, k, env, extract, sent).Again?
    decreases Budget(first + cfg.retryTimeout, now, k), 1
    ensures var run := Pipeline(cfg, p, url, params, window, first, now, k, env, extract, sent);
      Attempts(run.sent, |sent|, k, cfg, p, url, params - {"nonce"}, first, env)
  {
    var t := Attempt(cfg, p, url, params, window, first, now, k, env, extract, sent);
    AttemptSent(cfg, p, url, params, window, first, now, k, env, extract, sent);
    PipelineStep(cfg, p, url, params, window, first, now, k, env, extract, sent);
    NonceRestamp(params, IntV(t.sent[|sent|].nonce));
    RetryAttemptsAfter(cfg, p, url, params - {"nonce"}, window, first, t.clock, k, env, extract, t.params, t.sent, |sent|);
  }

  lemma {:induction false} RetryAttemptsAfter(cfg: Config, p: Primitives, url: string, base: map<string, Value>,
                                              window: seq<real>, first: real, later: real, k: nat,
                                              env: nat -> Step, extract: Extractor, data: map<string, Value>,
                                              log: seq<Sent>, from: nat)
    requires |log| == from + 1
    requires WellSent(log[from], k, cfg, p, url, base, first, env) && log[from].sentAt <= later
    requires data - {"nonce"} == base
    decreases Budget(first + cfg.retryTimeout, later, k + 1), 3
    ensures var run := Pipeline(cfg, p, url, data, window, first, later, k + 1, env, extract, log);
      Attempts(run.sent, from, k, cfg, p, url, base, first, env)
  {
    PipelineAttempts(cfg, p, url, data, window, first, later, k + 1, env, extract, log);
    PipelineLast(cfg, p, url, data, window, first, later, k + 1, env, extract, log);
    var run := Pipeline(cfg, p, url, data, window, first, later, k + 1, env, extract, log);
    assert run.sent[from] == run.sent[..|log|][from];
    AttemptsPrepend(run.sent, from, k, cfg, p, url, base, first, env);
  }

  /** Every attempt of a call but the last got an answer that `_post` retries. */
  ghost predicate RetriedBefore(log: seq<Sent>, from: nat, env: nat -> Step, extract: Extractor) {
    forall i :: from <= i < |log| - 1 ==> Verdict(env(log[i].attempt).outcome, extract).None?
  }

  /**
   * The last attempt's verdict is the result, unless that attempt too was
   * retriable and the deadline then ran out, which ends the call with Timeout.
   */
  ghost predicate EndsWithVerdict(run: Run, cfg: Config, first: real, env: nat -> Step, extract: Extractor) {
    |run.sent| > 0 &&
    var v := Verdict(env(run.sent[|run.sent| - 1].attempt).outcome, extract);
    || v == Some(run.result)
    || (v.None? && run.result == Failure(Timeout) && run.clock - first > cfg.retryTimeout)
  }

  /** How a call ends, in terms of what its attempts got back. */
  lemma {:induction false} PipelineVerdict(cfg: Config, p: Primitives, url: string, params: map<string, Value>,
                                           window: seq<real>, first: real, now: real, k: nat,
                                           env: nat -> Step, extract: Extractor, sent: seq<Sent>)
    decreases Budget(first + cfg.retryTimeout, now, k), 1
    ensures var run := Pipeline(cfg, p, url, params, window, first, now, k, env, extract, sent);
      |run.sent| > |sent| ==> RetriedBefore(run.sent, |sent|, env, extract) && EndsWithVerdict(run, cfg, first, env, extract)
  {
    var t := Attempt(cfg, p, url, params, window, first, now, k, env, extract, sent);
    if now - first <= cfg.retryTimeout {
      AttemptVerdict(cfg, p, url, params, window, first, now, k, env, extract, sent);
      if t.Again? {
        RetryVerdict(cfg, p, url, params, window, first, now, k, env, extract, sent);
      } else {
        var run := Pipeline(cfg, p, url, params, window, first, now, k, env, extract, sent);
        assert run == t.run;
        assert run.sent[|run.sent| - 1].attempt == k;
      }
    }
  }

  lemma {:induction false} RetryVerdict(cfg: Config, p: Primitives, url: string, params: map<string, Value>,
                                        window: seq<real>, first: real, now: real, k: nat,
                                        env: nat -> Step, extract: Extractor, sent: seq<Sent>)
    requires Attempt(cfg, p, url, params, window, first, now, k, env, extract, sent).Again?
    decreases Budget(first + cfg.retryTimeout, now, k), 0
    ensures var run := Pipeline(cfg, p, url, params, window, first, now, k, env, extract, sent);
      RetriedBefore(run.sent, |sent|, env, extract) && EndsWithVerdict(run, cfg, first, env, extract)
  {
    var t := Attempt(cfg, p, url, params, window, first, now, k, env, extract, sent);
    AttemptVerdict(cfg, p, url, params, window, first, now, k, env, extract, sent);
    PipelineStep(cfg, p, url, params, window, first, now, k, env, extract, sent);
    RetryVerdictAfter(cfg, p, url, window, first, t.clock, k, env, extract, t.params, t.sent, |sent|);
  }

  lemma {:induction false} RetryVerdictAfter(cfg: Config, p: Primitives, url: string,
                                             window: seq<real>, first: real, later: real, k: nat,
                                             env: nat -> Step, extract: Extractor, data: map<string, Value>,
                                             log: seq<Sent>, from: nat)
    requires |log| == from + 1 && Verdict(env(log[from].attempt).outcome, extract).None?
    decreases Budget(first + cfg.retryTimeout, later, k + 1), 2
    ensures var run := Pipeline(cfg, p, url, data, window, first, later, k + 1, env, extract, log);
      RetriedBefore(run.sent, from, env, extract) && EndsWithVerdict(run, cfg, first, env, extract)
  {
    PipelineVerdict(cfg, p, url, data, window, first, later, k + 1, env, extract, log);
    var run := Pipeline(cfg, p, url, data, window, first, later, k + 1, env, extract, log);
    assert run.sent[from] == run.sent[..|log|][from] == log[from];
    forall i | from <= i < |run.sent| - 1
      ensures Verdict(env(run.sent[i].attempt).outcome, extract).None?
    {
      if i > from {
        assert RetriedBefore(run.sent, |log|, env, extract);
      }
    }
  }

  /** A call never ends with _RetriableRequest: that exception always leads to another attempt. */
  lemma NeverRetriable(cfg: Config, p: Primitives, url: string, params: map<string, Value>,
                       window: seq<real>, first: real, now: real, k: nat,
                       env: nat -> Step, extract: Extractor, sent: seq<Sent>)
    ensures Pipeline(cfg, p, url, params, window, first, now, k, env, extract, sent).result != Failure(RetriableRequest)
  {
    PipelineVerdict(cfg, p, url, params, window, first, now, k, env, extract, sent);
  }

  /**
   * A server that keeps answering 500, 503 or 504 (or an extractor that
   * keeps raising _RetriableRequest) makes the call give up with Timeout
   * once more than retry_timeout has passed since the first attempt, and
   * nothing is recorded in the window.
   */
  lemma AlwaysRetriableTimesOut(cfg: Config, p: Primitives, url: string, params: map<string, Value>,
                                window: seq<real>, first: real, now: real, k: nat,
                                env: nat -> Step, extract: Extractor, sent: seq<Sent>)
    requires forall n: nat :: n >= k ==> Verdict(env(n).outcome, extract).None?
    ensures var run := Pipeline(cfg, p, url, params, window, first, now, k, env, extract, sent);
      run.result == Failure(Timeout) && run.window == window && run.clock - first > cfg.retryTimeout
  {
    var run := Pipeline(cfg, p, url, params, window, first, now, k, env, extract, sent);
    PipelineAttempts(cfg, p, url, params, window, first, now, k, env, extract, sent);
    PipelineVerdict(cfg, p, url, params, window, first, now, k, env, extract, sent);
    PipelineWindow(cfg, p, url, params, window, first, now, k, env, extract, sent);
    if |run.sent| > |sent| {
      var s := run.sent[|run.sent| - 1];
      assert s.attempt == k + (|run.sent| - 1 - |sent|);
      assert Verdict(env(s.attempt).outcome, extract).None?;
    }
  }

  /**
   * A 500 and then a 200, with the rate limiter off (a bound of 0): the
   * retry sleeps 0.5 s times the jitter before it is sent, and the body of
   * the 200 is the result. PipelineAttempts and PipelineWindow state the
   * delays and the window for every bound.
   */
  lemma RetryThenSucceed(cfg: Config, p: Primitives, url: string, params: map<string, Value>, body: Body,
                         env: nat -> Step)
    requires cfg.retryTimeout >= 0.0 && cfg.queriesPerSecond == 0 && body.error == []
    requires env(0).outcome == Responded(Response(500, body)) && env(0).latency == 0.0
    requires env(1).outcome == Responded(Response(200, body)) && env(1).latency == 0.0
    ensures var run := Pipeline(cfg, p, url, params, [], 0.0, 0.0, 0, env, None, []);
      && run.result == Success(body)
      && |run.sent| == 2 && run.sent[0].sentAt == 0.0 && run.sent[1].delay == 0.5 * env(1).jitter
      && run.clock == 0.5 * env(1).jitter && run.window == []
  {
    var s := Send(cfg, p, url, params, 0.0, 0.0, 0, env);
    FirstAttemptRetried(cfg, p, url, params, body, env);
    var s1 := Send(cfg, p, url, s.data, 0.0, 0.0, 1, env);
    SecondAttemptSucceeds(cfg, p, url, s.data, body, env, [s]);
    FirstRetryDelay(env(1).jitter);
    assert s1.delay == 0.5 * env(1).jitter;
    var run := Pipeline(cfg, p, url, params, [], 0.0, 0.0, 0, env, None, []);
    assert run == Run(Success(body), [], s1.data, [s, s1], s1.sentAt);
  }

  /** The first retry waits half a second times the jitter. */
  lemma FirstRetryDelay(j: Jitter)
    ensures RetryDelay(1, j) == 0.5 * j
  {
    assert BaseDelay(1) == 0.5;
  }

  /** The first attempt of RetryThenSucceed: a 500 is retried at once. */
  lemma FirstAttemptRetried(cfg: Config, p: Primitives, url: string, params: map<string, Value>, body: Body,
                            env: nat -> Step)
    requires cfg.retryTimeout >= 0.0
    requires env(0).outcome == Responded(Response(500, body)) && env(0).latency == 0.0
    ensures var s := Send(cfg, p, url, params, 0.0, 0.0, 0, env);
      && s.sentAt == 0.0
      && Pipeline(cfg, p, url, params, [], 0.0, 0.0, 0, env, None, [])
         == Pipeline(cfg, p, url, s.data, [], 0.0, 0.0, 1, env, None, [s])
  {
    var s := Send(cfg, p, url, params, 0.0, 0.0, 0, env);
    assert s.sentAt == 0.0;
    assert Attempt(cfg, p, url, params, [], 0.0, 0.0, 0, env, None, []) == Again(s.data, 0.0, [s]);
    PipelineStep(cfg, p, url, params, [], 0.0, 0.0, 0, env, None, []);
  }

  /** The second attempt of RetryThenSucceed: a 200 without errors ends the loop. */
  lemma SecondAttemptSucceeds(cfg: Config, p: Primitives, url: string, params: map<string, Value>, body: Body,
                              env: nat -> Step, sent: seq<Sent>)
    requires cfg.retryTimeout >= 0.0 && cfg.queriesPerSecond == 0 && body.error == []
    requires env(1).outcome == Responded(Response(200, body)) && env(1).latency == 0.0
    ensures var s := Send(cfg, p, url, params, 0.0, 0.0, 1, env);
      Pipeline(cfg, p, url, params, [], 0.0, 0.0, 1, env, None, sent) == Run(Success(body), [], s.data, sent + [s], s.sentAt)
  {
    var s := Send(cfg, p, url, params, 0.0, 0.0, 1, env);
    assert Attempt(cfg, p, url, params, [], 0.0, 0.0, 1, env, None, sent)
        == Done(Run(Success(body), [], s.data, sent + [s], s.sentAt));
    PipelineStep(cfg, p, url, params, [], 0.0, 0.0, 1, env, None, sent);
  }

  /**
   * The rate check runs after the send: with one query per second and a
   * time recorded at 0, a second call made at 0 still sends at 0; only the
   * recorded time waits until 1.
   */
  lemma RateWaitAfterSend(cfg: Config, p: Primitives, url: string, params: map<string, Value>, body: Body)
    requires cfg.retryTimeout >= 0.0 && cfg.queriesPerSecond == 1 && body.error == []
    ensures var env := (n: nat) => Step(1.0, 0.0, Responded(Response(200, body)));
      var run := Pipeline(cfg, p, url, params, [0.0], 0.0, 0.0, 0, env, None, []);
      && run.result == Success(body)
      && |run.sent| == 1 && run.sent[0].sentAt == 0.0
      && run.clock == 1.0 && run.window == [1.0]
  {
    var env := (n: nat) => Step(1.0, 0.0, Responded(Response(200, body)));
    var t := Attempt(cfg, p, url, params, [0.0], 0.0, 0.0, 0, env, None, []);
    assert t.Done? && t.run.result == Success(body);
  }

  /** One unfolding of Pipeline: an attempt that ends the call, or the rest of the call after it. */
  lemma PipelineStep(cfg: Config, p: Primitives, url: string, params: map<string, Value>,
                     window: seq<real>, first: real, now: real, k: nat,
                     env: nat -> Step, extract: Extractor, sent: seq<Sent>)
    ensures var t := Attempt(cfg, p, url, params, window, first, now, k, env, extract, sent);
      && Pipeline(cfg, p, url, params, window, first, now, k, env, extract, sent)
         == (if t.Done? then t.run else Pipeline(cfg, p, url, t.params, window, first, t.clock, k + 1, env, extract, t.sent))
      && (t.Again? ==> t.clock >= now && Budget(first + cfg.retryTimeout, t.clock, k + 1) < Budget(first + cfg.retryTimeout, now, k))
  {
    var t := Attempt(cfg, p, url, params, window, first, now, k, env, extract, sent);
    if t.Again? {
      BudgetDecreases(first + cfg.retryTimeout, now, t.clock, k);
    }
  }

  /**
   * Recording a time no earlier than the last one, and at least a second
   * after the oldest entry of a full window, keeps the window the newest
   * entries of the history and the history in order and within the ceiling.
   */
  lemma RecordKeepsValid(h: seq<real>, window: seq<real>, t: real, capacity: nat)
    requires window == Recent(h, capacity) && Sorted(h) && Ceiling(h, capacity)
    requires |h| > 0 ==> h[|h| - 1] <= t
    requires |window| > 0 && |window| == capacity ==> t - window[0] >= 1.0
    ensures Append(window, t, capacity) == Recent(h + [t], capacity)
    ensures Sorted(h + [t]) && Ceiling(h + [t], capacity)
  {
    AppendRecent(h, t, capacity);
    RecentSuffix(h, capacity);
    if capacity > 0 && |h| >= capacity {
      assert window[0] == h[|h| - capacity];
    }
    CeilingExtend(h, t, capacity);
  }

  /**
   * The retries of `_post` as a loop: each pass runs one attempt, and a
   * retried attempt hands its params, clock and attempt number to the next.
   * The run it ends with is the Pipeline of the call.
   */
  method Retry(cfg: Config, p: Primitives, url: string, params: map<string, Value>, window: seq<real>,
               start: real, env: nat -> Step, extract: Extractor)
    returns (run: Run)
    ensures run == Pipeline(cfg, p, url, params, window, start, start, 0, env, extract, [])
  {
    var data := params;
    var now := start;
    var k: nat := 0;
    var log: seq<Sent> := [];
    ghost var whole := Pipeline(cfg, p, url, params, window, start, start, 0, env, extract, []);
    while true
      invariant Pipeline(cfg, p, url, data, window, start, now, k, env, extract, log) == whole
      decreases Budget(start + cfg.retryTimeout, now, k)
    {
      PipelineStep(cfg, p, url, data, window, start, now, k, env, extract, log);
      var t := Attempt(cfg, p, url, data, window, start, now, k, env, extract, log);
      if t.Done? {
        return t.run;
      }
      data, now, k, log := t.params, t.clock, k + 1, t.sent;
    }
  }

  // ---------------------------------------------------------------------
  // The client object

  /**
   * A Kraken client: its settings, the headers it keeps in requests_kwargs
   * and the sent_times window of recent successful requests.
   */
  class Client {
    const config: Config
    /** The headers of requests_kwargs: API-Key, and API-Sign once a request has been signed. */
    var headers: map<string, string>
    /** sent_times, oldest first: a deque with maxlen queries_per_second. */
    var sentTimes: seq<real>
    /** Every time ever appended to sent_times, oldest first. */
    ghost var history: seq<real>

    /**
     * The window holds the newest queries_per_second recorded times, and the
     * recorded times are in order and obey the rate ceiling.
     */
    ghost predicate Valid()
      reads this`sentTimes, this`history
    {
      && sentTimes == Recent(history, config.queriesPerSecond)
      && Sorted(history)
      && Ceiling(history, config.queriesPerSecond)
    }

    constructor (cfg: Config)
      ensures config == cfg && headers == map["API-Key" := cfg.key]
      ensures sentTimes == [] && history == []
      ensures Valid()
    {
      config := cfg;
      headers := map["API-Key" := cfg.key];
      sentTimes := [];
      history := [];
    }

    /** Client(key, private_key, timeout, connect_timeout, read_timeout, retry_timeout, queries_per_second). */
    static method Create(key: string, privateKey: string, timeout: Option<real>,
                         connectTimeout: Option<real>, readTimeout: Option<real>,
                         retryTimeout: real, queriesPerSecond: int) returns (r: Result<Client, Raised>)
      ensures var c := Configure(key, privateKey, timeout, connectTimeout, readTimeout, retryTimeout, queriesPerSecond);
        && (r.Success? <==> c.Success?)
        && (r.Failure? ==> r.error == c.error)
        && (r.Success? ==>
              && fresh(r.value) && r.value.config == c.value && r.value.Valid()
              && r.value.sentTimes == [] && r.value.history == []
              && r.value.headers == map["API-Key" := key])
    {
      var c := Configure(key, privateKey, timeout, connectTimeout, readTimeout, retryTimeout, queriesPerSecond);
      if c.Failure? {
        return Failure(c.error);
      }
      var client := new Client(c.value);
      return Success(client);
    }

    /**
     * sent_times.append(time.time()) after a successful call: the window
     * drops its oldest entry when full, and the history keeps its order and
     * the rate ceiling.
     */
    method Record(t: real)
      requires Valid()
      requires |history| > 0 ==> history[|history| - 1] <= t
      requires |sentTimes| > 0 && |sentTimes| == config.queriesPerSecond ==> t - sentTimes[0] >= 1.0
      modifies this`sentTimes, this`history
      ensures Valid()
      ensures sentTimes == Append(old(sentTimes), t, config.queriesPerSecond)
      ensures history == old(history) + [t]
    {
      RecordKeepsValid(history, sentTimes, t, config.queriesPerSecond);
      sentTimes := Append(sentTimes, t, config.queriesPerSecond);
      history := history + [t];
    }

    /**
     * _post(url, params, extract_body = extract) called at `start`: it returns
     * the run of the call, which is the Pipeline of that call. The headers
     * carry the signature of the last attempt; a successful call records its
     * time in the window, keeping the window the newest entries of the
     * history and the history within the rate ceiling.
     */
    method Post(url: string, params: map<string, Value>, start: real, env: nat -> Step,
                p: Primitives, extract: Extractor)
      returns (run: Run)
      requires Valid()
      requires |history| > 0 ==> history[|history| - 1] <= start
      modifies this
      ensures run == Pipeline(config, p, url, params, old(sentTimes), start, start, 0, env, extract, [])
      ensures Valid() && sentTimes == run.window && run.clock >= start
      ensures history == if run.result.Success? then old(history) + [run.clock] else old(history)
      ensures headers == if run.sent == [] then old(headers)
                         else map["API-Key" := config.key, "API-Sign" := run.sent[|run.sent| - 1].apiSign]
    {
      run := Retry(config, p, url, params, sentTimes, start, env, extract);
      PipelineWindow(config, p, url, params, sentTimes, start, start, 0, env, extract, []);
      Finish(run);
    }

    /**
     * What a finished run leaves in the client: the headers carry the
     * signature of its last attempt, and a success is recorded in the window.
     */
    method Finish(run: Run)
      requires Valid()
      requires |history| > 0 ==> history[|history| - 1] <= run.clock
      requires run.result.Success? ==> run.window == Append(sentTimes, run.clock, config.queriesPerSecond)
      requires !run.result.Success? ==> run.window == sentTimes
      requires run.result.Success? && |sentTimes| > 0 && |sentTimes| == config.queriesPerSecond ==>
                 run.clock - sentTimes[0] >= 1.0
      modifies this
      ensures Valid() && sentTimes == run.window
      ensures history == if run.result.Success? then old(history) + [run.clock] else old(history)
      ensures headers == if run.sent == [] then old(headers)
                         else map["API-Key" := config.key, "API-Sign" := run.sent[|run.sent| - 1].apiSign]
    {
      if run.sent != [] {
        headers := map["API-Key" := config.key, "API-Sign" := run.sent[|run.sent| - 1].apiSign];
      }
      if run.result.Success? {
        Record(run.clock);
      }
    }

    /**
     * An endpoint function: the request its builder made, or what the builder
     * raised, posted with the default extractor; the answer is body['result'].
     */
    method Call(request: Result<Request, Raised>, start: real, env: nat -> Step, p: Primitives)
      returns (r: Result<Json, Raised>, sent: seq<Sent>, clock: real)
      requires Valid()
      requires |history| > 0 ==> history[|history| - 1] <= start
      modifies this
      ensures Valid() && clock >= start
      ensures request.Failure? ==>
        && r == Failure(request.error) && sent == [] && clock == start
        && sentTimes == old(sentTimes) && history == old(history) && headers == old(headers)
      ensures request.Success? ==>
        var run := Pipeline(config, p, request.value.path, request.value.params, old(sentTimes),
                            start, start, 0, env, None, []);
        && sent == run.sent && clock == run.clock && sentTimes == run.window
        && r == (if run.result.Success? then Success(run.result.value.result) else Failure(Kraken(run.result.error)))
        && history == (if run.result.Success? then old(history) + [clock] else old(history))
        && headers == (if sent == [] then old(headers)
                       else map["API-Key" := config.key, "API-Sign" := sent[|sent| - 1].apiSign])
    {
      if request.Failure? {
        return Failure(request.error), [], start;
      }
      var run := Post(request.value.path, request.value.params, start, env, p, None);
      sent, clock := run.sent, run.clock;
      if run.result.Success? {
        r := Success(run.result.value.result);
      } else {
        r := Failure(Kraken(run.result.error));
      }
    }
  }
}
