/** `BrightDataClient`: the construction check, the Web Unlocker request
    payload, and the retry loop of `fetch_url` over the POST responses.
    The HTTP session is an oracle: the response to the POST of attempt `k`
    is a parameter, and the sleeps are returned as the list of waits.
    Exception messages are kept as structured values. */
module BrightDataClient {
  import opened Common
  import opened Strings

  datatype Config = Config(
    apiKey: string,
    zone: string,
    country: string,
    maxRetries: int,
    retryBackoff: nat,
    timeout: int)

  /** `BrightDataConfig(api_key)` with the dataclass defaults. */
  function DefaultConfig(apiKey: string): Config {
    Config(apiKey, "web_unlocker1", "in", 3, 2, 120)
  }

  /** The exceptions `fetch_url` raises, by what they say. */
  datatype Failure =
    | InvalidUrl(url: string)                  // ValueError
    | MissingApiKey                            // BrightDataAuthError at construction
    | AuthFailed                               // BrightDataAuthError on a 401
    | RateLimitExceeded                        // BrightDataRateLimitError
    | BadRequest(text: string)                 // BrightDataError "Bad request …"
    | ApiError(status: int, text: string)      // BrightDataError "Bright Data API error …"
    | RequestTimeout(detail: string)           // BrightDataError "Request timeout: …"
    | RequestFailed(detail: string)            // BrightDataError "Request failed: …"
    | Unexpected(cause: Failure)               // BrightDataError "Unexpected error via Bright Data: …"
    | Other(detail: string)                    // an exception of another kind
    | Exhausted(maxRetries: int)               // BrightDataError "Failed to fetch URL after …"

  /** What one POST does: a response, a timeout, another requests error,
      or some other exception. */
  datatype Response =
    | Status(code: int, text: string)
    | TimedOut(detail: string)
    | ConnectionFailed(detail: string)
    | Crashed(detail: string)

  /** A client: its configuration and the session headers. */
  datatype Client = Client(config: Config, headers: seq<(string, string)>)

  /** `BrightDataClient.__init__`: an empty key is refused; otherwise the
      session sends the key as a bearer token with a JSON content type. */
  function NewClient(config: Config): (r: Result<Client, Failure>)
    ensures r.Err? <==> config.apiKey == ""
    ensures r.Err? ==> r.error == MissingApiKey
    ensures r.Ok? ==>
      && r.value.config == config
      && ("Authorization", "Bearer " + config.apiKey) in r.value.headers
      && ("Content-Type", "application/json") in r.value.headers
  {
    if config.apiKey == "" then Err(MissingApiKey)
    else Ok(Client(config, [("Authorization", "Bearer " + config.apiKey), ("Content-Type", "application/json")]))
  }

  // ---------------------------------------------------------------------
  // The payload

  datatype Payload = Payload(
    zone: string,
    url: string,
    format: string,
    httpMethod: string,
    country: string,
    dataFormat: Option<string>,
    headers: Option<map<string, string>>,
    body: Option<string>)

  predicate HasProtocol(url: string) {
    StartsWith(url, "http://") || StartsWith(url, "https://")
  }

  /** The request payload: the five fixed keys, the country falling back
      to the configured one, and each optional key only when truthy. */
  function PayloadOf(config: Config, url: string, httpMethod: string, country: Option<string>, format: string,
                     dataFormat: Option<string>, headers: Option<map<string, string>>, body: Option<string>): (p: Payload)
    ensures p.zone == config.zone && p.url == url && p.format == format && p.httpMethod == Upper(httpMethod)
    ensures p.country == (if country.Some? && country.value != "" then country.value else config.country)
    ensures p.dataFormat.Some? <==> dataFormat.Some? && dataFormat.value != ""
    ensures p.headers.Some? <==> headers.Some? && headers.value != map[]
    ensures p.body.Some? <==> body.Some? && body.value != ""
    ensures p.dataFormat.Some? ==> p.dataFormat == dataFormat
    ensures p.headers.Some? ==> p.headers == headers
    ensures p.body.Some? ==> p.body == body
  {
    Payload(
      config.zone, url, format, Upper(httpMethod),
      if country.Some? && country.value != "" then country.value else config.country,
      if dataFormat.Some? && dataFormat.value != "" then dataFormat else None,
      if headers.Some? && headers.value != map[] then headers else None,
      if body.Some? && body.value != "" then body else None)
  }

  // ---------------------------------------------------------------------
  // One attempt

  /** What one attempt leads to: the page, an exception leaving the loop,
      or the next attempt with the updated `last_exception` and the wait
      slept before it (only slept when an attempt is left). */
  datatype Step =
    | Return(text: string)
    | Raise(failure: Failure)
    | Next(last: Option<Failure>, wait: nat)

  function Truncated(text: string): string {
    if |text| <= 500 then text else text[..500]
  }

  /** One attempt of the loop as written: an exception raised inside the
      `try` for a 400, a final 429, a final 5xx or any other status is
      caught by the generic handler, which wraps it as unexpected and goes
      on to the next attempt. */
  function AttemptAsWritten(resp: Response, attempt: nat, maxRetries: int, backoff: nat, last: Option<Failure>): Step {
    var wait := Pow(backoff, attempt);
    match resp
    case Status(code, text) =>
      if code == 200 then Return(text)
      else if code == 401 then Raise(AuthFailed)
      else if code == 429 then
        if attempt == maxRetries then Next(Some(Unexpected(RateLimitExceeded)), wait)
        else Next(last, wait * 2)
      else if code == 400 then Next(Some(Unexpected(BadRequest(Truncated(text)))), wait)
      else if 500 <= code < 600 && attempt < maxRetries then Next(Some(ApiError(code, Truncated(text))), wait)
      else Next(Some(Unexpected(ApiError(code, Truncated(text)))), wait)
    case TimedOut(d) => Next(Some(RequestTimeout(d)), wait)
    case ConnectionFailed(d) => Next(Some(RequestFailed(d)), wait)
    case Crashed(d) => Next(Some(Unexpected(Other(d))), wait)
  }

  /** One attempt as evidently intended: the errors raised for a status
      leave the loop as they are, and only a 429 before the last attempt,
      a 5xx before the last attempt and the request exceptions are
      retried. */
  function Attempt(resp: Response, attempt: nat, maxRetries: int, backoff: nat, last: Option<Failure>): Step {
    var wait := Pow(backoff, attempt);
    match resp
    case Status(code, text) =>
      if code == 200 then Return(text)
      else if code == 401 then Raise(AuthFailed)
      else if code == 429 then
        if attempt == maxRetries then Raise(RateLimitExceeded)
        else Next(last, wait * 2)
      else if code == 400 then Raise(BadRequest(Truncated(text)))
      else if 500 <= code < 600 && attempt < maxRetries then Next(Some(ApiError(code, Truncated(text))), wait)
      else Raise(ApiError(code, Truncated(text)))
    case TimedOut(d) => Next(Some(RequestTimeout(d)), wait)
    case ConnectionFailed(d) => Next(Some(RequestFailed(d)), wait)
    case Crashed(d) => Next(Some(Unexpected(Other(d))), wait)
  }

  type AttemptRule = (Response, nat, int, nat, Option<Failure>) -> Step

  // ---------------------------------------------------------------------
  // The loop

  /** What the loop returns, the number of POSTs and the waits. */
  datatype FetchRun = FetchRun(result: Result<string, Failure>, calls: nat, waits: seq<nat>)

  /** `for attempt in range(1, max_retries + 1)` from `attempt` on, then
      the raise of `last_exception` or of the exhaustion error. */
  function RunFrom(attempt: nat, maxRetries: int, backoff: nat, respond: nat -> Response,
                   rule: AttemptRule, last: Option<Failure>): FetchRun
    requires attempt >= 1
    decreases maxRetries + 1 - attempt
  {
    if attempt > maxRetries then
      FetchRun(if last.Some? then Err(last.value) else Err(Exhausted(maxRetries)), 0, [])
    else
      var step := rule(respond(attempt), attempt, maxRetries, backoff, last);
      match step
      case Return(text) => FetchRun(Ok(text), 1, [])
      case Raise(f) => FetchRun(Err(f), 1, [])
      case Next(last', wait) =>
        var rest := RunFrom(attempt + 1, maxRetries, backoff, respond, rule, last');
        FetchRun(rest.result, rest.calls + 1, if attempt < maxRetries then [wait] + rest.waits else rest.waits)
  }

  /** `fetch_url`: the URL check, the payload, and the retry loop. */
  method FetchUrl(client: Client, url: string, httpMethod: string, country: Option<string>, format: string,
                  dataFormat: Option<string>, headers: Option<map<string, string>>, body: Option<string>,
                  respond: Payload -> nat -> Response)
    returns (result: Result<string, Failure>, calls: nat, waits: seq<nat>)
    ensures !HasProtocol(url) ==> result == Err(InvalidUrl(url)) && calls == 0 && waits == []
    ensures HasProtocol(url) ==>
      var payload := PayloadOf(client.config, url, httpMethod, country, format, dataFormat, headers, body);
      FetchRun(result, calls, waits) == RunFrom(1, client.config.maxRetries, client.config.retryBackoff, respond(payload), Attempt, None)
  {
    if !HasProtocol(url) {
      return Err(InvalidUrl(url)), 0, [];
    }
    var payload := PayloadOf(client.config, url, httpMethod, country, format, dataFormat, headers, body);
    result, calls, waits := RetryLoop(client.config.maxRetries, client.config.retryBackoff, respond(payload), Attempt);
  }

  /** `fetch_url` as written: the same check and payload, with the loop's
      attempts following the `try`/`except` of the code. */
  method FetchUrlAsWritten(client: Client, url: string, httpMethod: string, country: Option<string>, format: string,
                           dataFormat: Option<string>, headers: Option<map<string, string>>, body: Option<string>,
                           respond: Payload -> nat -> Response)
    returns (result: Result<string, Failure>, calls: nat, waits: seq<nat>)
    ensures !HasProtocol(url) ==> result == Err(InvalidUrl(url)) && calls == 0 && waits == []
    ensures HasProtocol(url) ==>
      var payload := PayloadOf(client.config, url, httpMethod, country, format, dataFormat, headers, body);
      FetchRun(result, calls, waits) == RunFrom(1, client.config.maxRetries, client.config.retryBackoff, respond(payload), AttemptAsWritten, None)
  {
    if !HasProtocol(url) {
      return Err(InvalidUrl(url)), 0, [];
    }
    var payload := PayloadOf(client.config, url, httpMethod, country, format, dataFormat, headers, body);
    result, calls, waits := RetryLoop(client.config.maxRetries, client.config.retryBackoff, respond(payload), AttemptAsWritten);
  }

  /** The `for attempt` loop of `fetch_url`, with the attempts following
      `rule`, over the responses `post` gives. */
  method RetryLoop(maxRetries: int, backoff: nat, post: nat -> Response, rule: AttemptRule)
    returns (result: Result<string, Failure>, calls: nat, waits: seq<nat>)
    ensures FetchRun(result, calls, waits) == RunFrom(1, maxRetries, backoff, post, rule, None)
  {
    var last: Option<Failure> := None;
    calls := 0;
    waits := [];
    var attempt := 1;
    while attempt <= maxRetries
      invariant 1 <= attempt && (attempt <= maxRetries + 1 || attempt == 1)
      invariant calls == attempt - 1
      invariant RunFrom(1, maxRetries, backoff, post, rule, None)
        == After(calls, waits, RunFrom(attempt, maxRetries, backoff, post, rule, last))
      decreases maxRetries + 1 - attempt
    {
      var step := rule(post(attempt), attempt, maxRetries, backoff, last);
      RunStep(attempt, maxRetries, backoff, post, rule, last, calls, waits);
      calls := calls + 1;
      if step.Return? {
        return Ok(step.text), calls, waits;
      } else if step.Raise? {
        return Err(step.failure), calls, waits;
      }
      if attempt < maxRetries {
        waits := waits + [step.wait];
      }
      last := step.last;
      attempt := attempt + 1;
    }
    result := if last.Some? then Err(last.value) else Err(Exhausted(maxRetries));
  }

  /** A run that follows `calls` calls and the waits between them. */
  function After(calls: nat, waits: seq<nat>, run: FetchRun): FetchRun {
    FetchRun(run.result, run.calls + calls, waits + run.waits)
  }

  /** One attempt of the loop: it returns, raises, or hands on to the
      next attempt after its wait. */
  lemma RunStep(attempt: nat, maxRetries: int, backoff: nat, respond: nat -> Response, rule: AttemptRule,
                last: Option<Failure>, calls: nat, waits: seq<nat>)
    requires 1 <= attempt <= maxRetries
    ensures var step := rule(respond(attempt), attempt, maxRetries, backoff, last);
      var run := After(calls, waits, RunFrom(attempt, maxRetries, backoff, respond, rule, last));
      && (step.Return? ==> run == FetchRun(Ok(step.text), calls + 1, waits))
      && (step.Raise? ==> run == FetchRun(Err(step.failure), calls + 1, waits))
      && (step.Next? ==> run == After(calls + 1, if attempt < maxRetries then waits + [step.wait] else waits,
                                      RunFrom(attempt + 1, maxRetries, backoff, respond, rule, step.last)))
  {
    var step := rule(respond(attempt), attempt, maxRetries, backoff, last);
    if step.Next? {
      var rest := RunFrom(attempt + 1, maxRetries, backoff, respond, rule, step.last);
      if attempt < maxRetries {
        AppendAssoc(waits, [step.wait], rest.waits);
      }
    }
  }

  // ---------------------------------------------------------------------
  // Properties of the loop, whatever the attempt rule

  /** An attempt never produces the exhaustion error itself, nor hands
      it on as `last_exception`, and the last attempt, when it does not
      return or raise, records an exception. */
  predicate KeepsOffExhaustion(s: Step, attempt: nat, maxRetries: int) {
    && (s.Raise? ==> !s.failure.Exhausted?)
    && (s.Next? && s.last.Some? ==> !s.last.value.Exhausted?)
    && (s.Next? && attempt == maxRetries ==> s.last.Some?)
  }

  ghost predicate RuleKeepsOffExhaustion(rule: AttemptRule, maxRetries: int, backoff: nat) {
    forall r: Response, a: nat, l: Option<Failure> | l.None? || !l.value.Exhausted? :: KeepsOffExhaustion(rule(r, a, maxRetries, backoff, l), a, maxRetries)
  }

  /** At most one POST per remaining attempt, one wait between two
      POSTs, and the exhaustion error exactly when no attempt is left and
      nothing was recorded. */
  lemma {:induction false} RunBounds(attempt: nat, maxRetries: int, backoff: nat, respond: nat -> Response,
                                     rule: AttemptRule, last: Option<Failure>)
    requires attempt >= 1
    requires last.None? || !last.value.Exhausted?
    requires RuleKeepsOffExhaustion(rule, maxRetries, backoff)
    ensures RunFrom(attempt, maxRetries, backoff, respond, rule, last).calls <= Max(maxRetries + 1 - attempt, 0)
    ensures RunFrom(attempt, maxRetries, backoff, respond, rule, last).calls > 0 ==>
      |RunFrom(attempt, maxRetries, backoff, respond, rule, last).waits| == RunFrom(attempt, maxRetries, backoff, respond, rule, last).calls - 1
    ensures (RunFrom(attempt, maxRetries, backoff, respond, rule, last).result.Err? &&
             RunFrom(attempt, maxRetries, backoff, respond, rule, last).result.error.Exhausted?) <==>
            (attempt > maxRetries && last.None?)
    decreases maxRetries + 1 - attempt
  {
    if attempt <= maxRetries {
      var step := rule(respond(attempt), attempt, maxRetries, backoff, last);
      assert KeepsOffExhaustion(step, attempt, maxRetries);
      if step.Next? {
        RunBounds(attempt + 1, maxRetries, backoff, respond, rule, step.last);
      }
    }
  }

  /** When every attempt before `k` is retried and attempt `k` returns or
      raises, whatever was recorded, the loop ends there with that
      outcome after `k - attempt + 1` POSTs. */
  lemma {:induction false} RunDecidedAt(attempt: nat, k: nat, maxRetries: int, backoff: nat, respond: nat -> Response,
                                        rule: AttemptRule, last: Option<Failure>, decided: Step)
    requires 1 <= attempt <= k <= maxRetries
    requires forall j, l | attempt <= j < k :: rule(respond(j), j, maxRetries, backoff, l).Next?
    requires !decided.Next? && forall l :: rule(respond(k), k, maxRetries, backoff, l) == decided
    ensures RunFrom(attempt, maxRetries, backoff, respond, rule, last).calls == k - attempt + 1
    ensures RunFrom(attempt, maxRetries, backoff, respond, rule, last).result ==
      if decided.Return? then Ok(decided.text) else Err(decided.failure)
    decreases k - attempt
  {
    if attempt < k {
      var step := rule(respond(attempt), attempt, maxRetries, backoff, last);
      assert step.Next?;
      RunDecidedAt(attempt + 1, k, maxRetries, backoff, respond, rule, step.last, decided);
    }
  }

  // ---------------------------------------------------------------------
  // Properties of the two attempt rules

  lemma AttemptsKeepOffExhaustion(maxRetries: int, backoff: nat)
    ensures RuleKeepsOffExhaustion(Attempt, maxRetries, backoff)
    ensures RuleKeepsOffExhaustion(AttemptAsWritten, maxRetries, backoff)
  {
  }

  /** `fetch_url`, as written and as intended, makes at most
      `max_retries` POSTs, sleeps once between two of them, and raises the
      exhaustion error only when `max_retries` is not positive. */
  lemma FetchBounds(maxRetries: int, backoff: nat, respond: nat -> Response)
    ensures RunFrom(1, maxRetries, backoff, respond, Attempt, None).calls <= Max(maxRetries, 0)
    ensures RunFrom(1, maxRetries, backoff, respond, Attempt, None).calls > 0 ==>
      |RunFrom(1, maxRetries, backoff, respond, Attempt, None).waits| == RunFrom(1, maxRetries, backoff, respond, Attempt, None).calls - 1
    ensures RunFrom(1, maxRetries, backoff, respond, Attempt, None).result == Err(Exhausted(maxRetries)) <==> maxRetries <= 0
    ensures RunFrom(1, maxRetries, backoff, respond, AttemptAsWritten, None).calls <= Max(maxRetries, 0)
    ensures RunFrom(1, maxRetries, backoff, respond, AttemptAsWritten, None).calls > 0 ==>
      |RunFrom(1, maxRetries, backoff, respond, AttemptAsWritten, None).waits| == RunFrom(1, maxRetries, backoff, respond, AttemptAsWritten, None).calls - 1
    ensures RunFrom(1, maxRetries, backoff, respond, AttemptAsWritten, None).result == Err(Exhausted(maxRetries)) <==> maxRetries <= 0
  {
    AttemptsKeepOffExhaustion(maxRetries, backoff);
    RunBounds(1, maxRetries, backoff, respond, Attempt, None);
    RunBounds(1, maxRetries, backoff, respond, AttemptAsWritten, None);
  }

  /** The sleep after attempt `a` answered with `resp`. */
  function WaitAfter(resp: Response, a: nat, backoff: nat): nat {
    if resp.Status? && resp.code == 429 then Pow(backoff, a) * 2 else Pow(backoff, a)
  }

  /** Whether every attempt of `rule` retried before the last one waits
      as `WaitAfter` says (after the last attempt nothing is slept). */
  ghost predicate RuleWaits(rule: AttemptRule, maxRetries: int, backoff: nat) {
    forall r: Response, a: nat, l: Option<Failure> | a < maxRetries && rule(r, a, maxRetries, backoff, l).Next? ::
      rule(r, a, maxRetries, backoff, l).wait == WaitAfter(r, a, backoff)
  }

  /** Both attempt rules sleep alike: they differ only in what they raise. */
  lemma AttemptsWait(maxRetries: int, backoff: nat)
    ensures RuleWaits(Attempt, maxRetries, backoff)
    ensures RuleWaits(AttemptAsWritten, maxRetries, backoff)
  {
  }

  /** The wait before attempt `a + 1` is `retry_backoff ** a`, doubled
      when attempt `a` was rate limited, under either attempt rule. */
  lemma {:induction false} RunWaits(attempt: nat, maxRetries: int, backoff: nat, respond: nat -> Response,
                                    rule: AttemptRule, last: Option<Failure>)
    requires attempt >= 1
    requires RuleWaits(rule, maxRetries, backoff)
    ensures forall i | 0 <= i < |RunFrom(attempt, maxRetries, backoff, respond, rule, last).waits| ::
      RunFrom(attempt, maxRetries, backoff, respond, rule, last).waits[i] == WaitAfter(respond(attempt + i), attempt + i, backoff)
    decreases maxRetries + 1 - attempt
  {
    if attempt <= maxRetries {
      var step := rule(respond(attempt), attempt, maxRetries, backoff, last);
      if step.Next? {
        RunWaits(attempt + 1, maxRetries, backoff, respond, rule, step.last);
        var rest := RunFrom(attempt + 1, maxRetries, backoff, respond, rule, step.last);
        var waits := RunFrom(attempt, maxRetries, backoff, respond, rule, last).waits;
        if attempt < maxRetries {
          assert waits == [step.wait] + rest.waits;
          forall i | 0 <= i < |waits|
            ensures waits[i] == WaitAfter(respond(attempt + i), attempt + i, backoff)
          {
            if i > 0 {
              assert waits[i] == rest.waits[i - 1];
              assert attempt + 1 + (i - 1) == attempt + i;
            }
          }
        }
      }
    }
  }

  /** A 200 after retried attempts returns the page, and a 401 raises the
      authentication error without a further POST, under either rule. */
  lemma SuccessAndAuthDecide(k: nat, maxRetries: int, backoff: nat, respond: nat -> Response, text: string)
    requires 1 <= k <= maxRetries
    requires forall j | 1 <= j < k :: respond(j).TimedOut? || respond(j).ConnectionFailed?
    ensures respond(k) == Status(200, text) ==>
      RunFrom(1, maxRetries, backoff, respond, Attempt, None).result == Ok(text)
      && RunFrom(1, maxRetries, backoff, respond, AttemptAsWritten, None).result == Ok(text)
    ensures respond(k).Status? && respond(k).code == 401 ==>
      RunFrom(1, maxRetries, backoff, respond, Attempt, None) == FetchRun(Err(AuthFailed), k, RunFrom(1, maxRetries, backoff, respond, Attempt, None).waits)
      && RunFrom(1, maxRetries, backoff, respond, AttemptAsWritten, None).result == Err(AuthFailed)
  {
    if respond(k) == Status(200, text) {
      RunDecidedAt(1, k, maxRetries, backoff, respond, Attempt, None, Return(text));
      RunDecidedAt(1, k, maxRetries, backoff, respond, AttemptAsWritten, None, Return(text));
    }
    if respond(k).Status? && respond(k).code == 401 {
      RunDecidedAt(1, k, maxRetries, backoff, respond, Attempt, None, Raise(AuthFailed));
      RunDecidedAt(1, k, maxRetries, backoff, respond, AttemptAsWritten, None, Raise(AuthFailed));
    }
  }

  /** Rate limited on every attempt, the intended loop raises the rate
      limit error after `max_retries` POSTs. */
  lemma {:induction false} AlwaysRateLimited(attempt: nat, maxRetries: int, backoff: nat, respond: nat -> Response, last: Option<Failure>)
    requires 1 <= attempt <= maxRetries
    requires forall j :: respond(j).Status? && respond(j).code == 429
    ensures RunFrom(attempt, maxRetries, backoff, respond, Attempt, last).result == Err(RateLimitExceeded)
    ensures RunFrom(attempt, maxRetries, backoff, respond, Attempt, last).calls == maxRetries + 1 - attempt
    decreases maxRetries - attempt
  {
    if attempt < maxRetries {
      AlwaysRateLimited(attempt + 1, maxRetries, backoff, respond, last);
    }
  }

  /** As written, the rate limit error never leaves `fetch_url`: the
      generic handler wraps it, and a bad request is retried. */
  lemma {:induction false} AsWrittenNeverRateLimited(attempt: nat, maxRetries: int, backoff: nat, respond: nat -> Response, last: Option<Failure>)
    requires attempt >= 1
    requires last != Some(RateLimitExceeded)
    ensures RunFrom(attempt, maxRetries, backoff, respond, AttemptAsWritten, last).result != Err(RateLimitExceeded)
    decreases maxRetries + 1 - attempt
  {
    if attempt <= maxRetries {
      var step := AttemptAsWritten(respond(attempt), attempt, maxRetries, backoff, last);
      if step.Next? {
        AsWrittenNeverRateLimited(attempt + 1, maxRetries, backoff, respond, step.last);
      }
    }
  }

  /** Rate limited on every attempt, the loop as written ends with the
      rate limit error wrapped as unexpected, after `max_retries` POSTs. */
  lemma {:induction false} AsWrittenAlwaysRateLimited(attempt: nat, maxRetries: int, backoff: nat, respond: nat -> Response, last: Option<Failure>)
    requires 1 <= attempt <= maxRetries
    requires forall j :: respond(j).Status? && respond(j).code == 429
    ensures RunFrom(attempt, maxRetries, backoff, respond, AttemptAsWritten, last).result == Err(Unexpected(RateLimitExceeded))
    ensures RunFrom(attempt, maxRetries, backoff, respond, AttemptAsWritten, last).calls == maxRetries + 1 - attempt
    decreases maxRetries - attempt
  {
    if attempt < maxRetries {
      AsWrittenAlwaysRateLimited(attempt + 1, maxRetries, backoff, respond, last);
    } else {
      assert RunFrom(attempt + 1, maxRetries, backoff, respond, AttemptAsWritten, Some(Unexpected(RateLimitExceeded))).result
        == Err(Unexpected(RateLimitExceeded));
    }
  }

  /** With two attempts allowed, a bad request answered by a 200 on the
      retry: as written the second POST is made and the page returned;
      as intended the bad request is raised after one POST. */
  lemma BadRequestRetriedAsWritten(maxRetries: int, backoff: nat, respond: nat -> Response, text: string, page: string)
    requires maxRetries >= 2
    requires respond(1) == Status(400, text) && respond(2) == Status(200, page)
    ensures RunFrom(1, maxRetries, backoff, respond, AttemptAsWritten, None) == FetchRun(Ok(page), 2, [Pow(backoff, 1)])
    ensures RunFrom(1, maxRetries, backoff, respond, Attempt, None) == FetchRun(Err(BadRequest(Truncated(text))), 1, [])
  {
    var rest := RunFrom(2, maxRetries, backoff, respond, AttemptAsWritten, Some(Unexpected(BadRequest(Truncated(text)))));
    assert rest == FetchRun(Ok(page), 1, []);
  }
}
