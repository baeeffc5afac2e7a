/**
 * The fetch engine of the ALEPE client: the request URL, the bounded retry
 * loop with exponential backoff behind one rate-limiter token, and how
 * `fetch_data` turns the response or the exception into data or an error.
 * The network is an oracle `transport(url, k)`: what the k-th attempt
 * (counting from 0) at that URL gives. `urlencode` and JSON decoding are
 * parameters too.
 */
module HttpClient {
  import opened Wrappers
  import opened Builtins
  import opened Config
  import opened Validators
  import opened QueryBuilder
  import opened RateLimiting

  // ------------------------------------------------------------ _build_url

  /** `_build_url`: `base/endpoint`, then `?` and the encoded query when there are parameters. */
  function BuildUrl(baseUrl: string, endpoint: string, params: Query, urlencode: Query -> string): (url: string)
    ensures var n := |baseUrl| + 1 + |endpoint|;
      |url| >= n && url[..n] == baseUrl + "/" + endpoint
    ensures params == [] <==> |url| == |baseUrl| + 1 + |endpoint|
    ensures params != [] ==> url[|baseUrl| + 1 + |endpoint|..] == "?" + urlencode(params)
  {
    var path := baseUrl + "/" + endpoint;
    if params != [] then path + "?" + urlencode(params) else path
  }

  /** A URL cut at its first `?`: the path, and the query string if there is a `?`. */
  function SplitQuery(url: string): (r: (string, Option<string>))
    ensures r.1.None? ==> r.0 == url && '?' !in url
    ensures r.1.Some? ==> url == r.0 + "?" + r.1.value && '?' !in r.0
  {
    if url == [] then ([], None)
    else if url[0] == '?' then ([], Some(url[1..]))
    else
      var (path, query) := SplitQuery(url[1..]);
      ([url[0]] + path, query)
  }

  /** Text with no `?` in it passes into the path unchanged. */
  lemma {:induction false} SplitAfterPlain(p: string, rest: string)
    requires '?' !in p
    ensures SplitQuery(p + rest) == (p + SplitQuery(rest).0, SplitQuery(rest).1)
    decreases |p|
  {
    var tail := SplitQuery(rest);
    if p != [] {
      assert (p + rest)[0] == p[0] && p[0] != '?';
      assert (p + rest)[1..] == p[1..] + rest;
      assert '?' !in p[1..];
      SplitAfterPlain(p[1..], rest);
      assert [p[0]] + (p[1..] + tail.0) == p + tail.0;
    } else {
      assert p + rest == rest;
      assert p + tail.0 == tail.0;
    }
  }

  /**
   * Cutting the built URL at its first `?` gives back `base/endpoint` and
   * exactly the encoded parameters, or no query at all when there are none.
   */
  lemma BuildUrlSplits(baseUrl: string, endpoint: string, params: Query, urlencode: Query -> string)
    requires '?' !in baseUrl && '?' !in endpoint
    ensures SplitQuery(BuildUrl(baseUrl, endpoint, params, urlencode)) ==
      (baseUrl + "/" + endpoint, if params == [] then None else Some(urlencode(params)))
  {
    var path := baseUrl + "/" + endpoint;
    assert '?' !in path by {
      assert forall i :: 0 <= i < |path| ==> path[i] in baseUrl || path[i] == '/' || path[i] in endpoint;
    }
    if params != [] {
      var rest := "?" + urlencode(params);
      assert path + "?" + urlencode(params) == path + rest;
      SplitAfterPlain(path, rest);
      assert rest[0] == '?' && rest[1..] == urlencode(params);
      assert SplitQuery(rest) == ([], Some(urlencode(params)));
      assert path + [] == path;
    } else {
      SplitAfterPlain(path, []);
      assert path + [] == path;
      assert SplitQuery([]) == ([], None);
    }
  }

  /** The configured base URL has no `?`, nor has any endpoint name that passes validation. */
  lemma ConfiguredUrlsSplit(endpoint: string)
    requires IsAvailableEndpoint(endpoint)
    ensures '?' !in DefaultSettings.alepeBaseUrl && '?' !in endpoint
  {
    BaseUrlPlain();
    AvailableEndpointIff(endpoint);
    if endpoint == "parlamentares" {
    } else if endpoint == "cargos" {
    } else if endpoint == "lotacoes" {
    } else if endpoint == "servidores" {
    } else if endpoint == "remuneracao" {
    } else if endpoint == "licitacoes" {
    } else {
      assert endpoint == "contratos";
    }
  }

  lemma BaseUrlPlain()
    ensures '?' !in DefaultSettings.alepeBaseUrl
  {
    var u := DefaultSettings.alepeBaseUrl;
    assert forall i | 0 <= i < |u| :: u[i] != '?';
  }

  // ------------------------------------------------------------ attempts

  /** What `self._client.request(method, url)` gave back. */
  datatype Response = Response(statusCode: int, text: string)

  /** The `RequestError`s of httpx; a timeout is one of them. */
  datatype TransportError = ConnectFailed(message: string) | TimedOut(message: string)

  /** One attempt: a response arrived, or the request itself failed. */
  datatype Attempt = Received(response: Response) | TransportFailed(error: TransportError)

  /** An exception caught by the retry loop: `HTTPStatusError` or a `RequestError`. */
  datatype Failure = StatusFailure(response: Response) | Transport(error: TransportError)

  /** What `_make_request` raises, besides the caught failures. */
  datatype Raise =
    | HttpError(failure: Failure)   // `raise last_exception`
    | RaiseNone                     // `raise None` when no attempt was made: a TypeError
    | ZeroDivisionError             // from the rate limiter at zero requests per minute

  /** `raise_for_status()` passes the 2xx statuses and raises for every other. */
  predicate IsSuccess(statusCode: int)
  {
    200 <= statusCode <= 299
  }

  /** The exception an attempt raises, if it raises one. */
  function FailureOf(a: Attempt): Failure
  {
    match a
    case Received(response) => StatusFailure(response)
    case TransportFailed(error) => Transport(error)
  }

  /** An attempt followed by `raise_for_status()`. */
  function Outcome(a: Attempt): (r: Result<Response, Failure>)
    ensures r.Success? <==> a.Received? && IsSuccess(a.response.statusCode)
    ensures r.Success? ==> r.value == a.response
    ensures r.Failure? ==> r.error == FailureOf(a)
  {
    match a
    case Received(response) =>
      if IsSuccess(response.statusCode) then Success(response) else Failure(StatusFailure(response))
    case TransportFailed(error) => Failure(Transport(error))
  }

  predicate Fails(transport: (string, nat) -> Attempt, url: string, k: nat)
  {
    Outcome(transport(url, k)).Failure?
  }

  // ------------------------------------------------------------ the retry loop

  /** `2 ** k`. */
  function Pow2(k: nat): (p: real)
    ensures p >= 1.0
  {
    if k == 0 then 1.0 else 2.0 * Pow2(k - 1)
  }

  /** `retry_delay * (2 ** attempt)`, the wait after failed attempt `attempt`. */
  function Delay(retryDelay: real, attempt: nat): real
  {
    retryDelay * Pow2(attempt)
  }

  /** The waits `retry_delay * 2 ** j` for attempts `k`, `k + 1`, ..., `k + m - 1`. */
  function BackoffFrom(retryDelay: real, k: nat, m: nat): (s: seq<real>)
    ensures |s| == m && forall j :: 0 <= j < m ==> s[j] == Delay(retryDelay, k + j)
  {
    seq(m, j requires 0 <= j < m => Delay(retryDelay, k + j))
  }

  lemma BackoffCons(retryDelay: real, k: nat, m: nat)
    requires m > 0
    ensures [Delay(retryDelay, k)] + BackoffFrom(retryDelay, k + 1, m - 1) == BackoffFrom(retryDelay, k, m)
  {
    var s := [Delay(retryDelay, k)] + BackoffFrom(retryDelay, k + 1, m - 1);
    var t := BackoffFrom(retryDelay, k, m);
    forall j | 0 <= j < m
      ensures s[j] == t[j]
    {
      if j > 0 {
        assert s[j] == BackoffFrom(retryDelay, k + 1, m - 1)[j - 1];
        assert k + 1 + (j - 1) == k + j;
      }
    }
    assert |s| == |t|;
  }

  /** The waits after the first `m` attempts. */
  function Backoff(retryDelay: real, m: nat): seq<real>
  {
    BackoffFrom(retryDelay, 0, m)
  }

  /**
   * The retry loop from attempt `k` of `n` on: what it returns or raises,
   * the waits it sleeps, and how many attempts it makes.
   */
  function RetryFrom(transport: (string, nat) -> Attempt, url: string, n: int, retryDelay: real, k: nat)
    : (Result<Response, Raise>, seq<real>, nat)
    requires k < n
    decreases n - k
  {
    match Outcome(transport(url, k))
    case Success(response) => (Success(response), [], 1)
    case Failure(f) =>
      if k == n - 1 then (Failure(HttpError(f)), [], 1)
      else
        var (r, waits, count) := RetryFrom(transport, url, n, retryDelay, k + 1);
        (r, [Delay(retryDelay, k)] + waits, count + 1)
  }

  /** A failed attempt that is not the last is followed by a wait and the rest of the loop. */
  lemma RetryFromStep(transport: (string, nat) -> Attempt, url: string, n: int, retryDelay: real, k: nat)
    requires k < n - 1 && Fails(transport, url, k)
    ensures var next := RetryFrom(transport, url, n, retryDelay, k + 1);
      RetryFrom(transport, url, n, retryDelay, k) == (next.0, [Delay(retryDelay, k)] + next.1, next.2 + 1)
  {
  }

  /** The whole loop, `for attempt in range(n)`, then `raise last_exception`. */
  function Retry(transport: (string, nat) -> Attempt, url: string, n: int, retryDelay: real)
    : (r: (Result<Response, Raise>, seq<real>, nat))
    ensures n <= 0 ==> r == (Failure(RaiseNone), [], 0)
    ensures n > 0 ==> 1 <= r.2 <= n && r.1 == Backoff(retryDelay, r.2 - 1)
    ensures forall j :: 0 <= j < r.2 - 1 ==> Fails(transport, url, j)
    ensures n > 0 ==> (r.0.Success? <==> !Fails(transport, url, r.2 - 1))
    ensures n > 0 && r.0.Success? ==> r.0.value == transport(url, r.2 - 1).response
    ensures n > 0 && r.0.Failure? ==> r.2 == n && r.0.error == HttpError(FailureOf(transport(url, n - 1)))
  {
    if n <= 0 then (Failure(RaiseNone), [], 0)
    else
      RetryBounded(transport, url, n, retryDelay, 0);
      RetryFrom(transport, url, n, retryDelay, 0)
  }

  /** The retry loop of `_make_request`: the result, the waits slept and the number of attempts. */
  method RetryLoop(transport: (string, nat) -> Attempt, url: string, n: int, retryDelay: real)
    returns (r: Result<Response, Raise>, waits: seq<real>, attempts: nat)
    ensures (r, waits, attempts) == Retry(transport, url, n, retryDelay)
  {
    var last: Option<Failure> := None;
    waits := [];
    attempts := 0;
    var attempt := 0;
    if n > 0 {
      var (r0, w0, c0) := RetryFrom(transport, url, n, retryDelay, 0);
      assert [] + w0 == w0;
    }
    while attempt < n
      invariant 0 <= attempt && attempt <= (if n > 0 then n else 0)
      invariant attempts == attempt
      invariant attempt == 0 ==> last.None? && waits == []
      invariant attempt > 0 ==> last == Some(FailureOf(transport(url, attempt - 1)))
      invariant attempt < n ==>
        var (r0, w0, c0) := RetryFrom(transport, url, n, retryDelay, attempt);
        Retry(transport, url, n, retryDelay) == (r0, waits + w0, attempts + c0)
      invariant 0 < n == attempt ==> Retry(transport, url, n, retryDelay) == (Failure(HttpError(last.value)), waits, attempts)
      decreases n - attempt
    {
      var here := RetryFrom(transport, url, n, retryDelay, attempt);
      attempts := attempts + 1;
      match Outcome(transport(url, attempt)) {
        case Success(response) =>
          r := Success(response);
          assert waits + [] == waits;
          return;
        case Failure(f) =>
          last := Some(f);
          if attempt < n - 1 {
            var next := RetryFrom(transport, url, n, retryDelay, attempt + 1);
            RetryFromStep(transport, url, n, retryDelay, attempt);
            assert waits + ([Delay(retryDelay, attempt)] + next.1) == (waits + [Delay(retryDelay, attempt)]) + next.1;
            waits := waits + [Delay(retryDelay, attempt)];
          } else {
            assert here == (Failure(HttpError(f)), [], 1);
            assert waits + [] == waits;
          }
      }
      attempt := attempt + 1;
    }
    r := if last.Some? then Failure(HttpError(last.value)) else Failure(RaiseNone);
  }

  /** The first successful attempt, `i`, ends the loop: its response after `i` waits and `i + 1` attempts. */
  lemma {:induction false} RetryFromFirstSuccess(transport: (string, nat) -> Attempt, url: string, n: int, retryDelay: real, k: nat, i: nat)
    requires k <= i < n && !Fails(transport, url, i)
    requires forall j :: k <= j < i ==> Fails(transport, url, j)
    ensures RetryFrom(transport, url, n, retryDelay, k)
      == (Success(transport(url, i).response), BackoffFrom(retryDelay, k, i - k), i - k + 1)
    decreases i - k
  {
    if k < i {
      assert Fails(transport, url, k);
      RetryFromFirstSuccess(transport, url, n, retryDelay, k + 1, i);
      RetryFromStep(transport, url, n, retryDelay, k);
      BackoffCons(retryDelay, k, i - k);
    }
  }

  /** If every attempt from `k` on fails, the last one's exception is raised after a wait between each two. */
  lemma {:induction false} RetryFromAllFail(transport: (string, nat) -> Attempt, url: string, n: int, retryDelay: real, k: nat)
    requires k < n
    requires forall j :: k <= j < n ==> Fails(transport, url, j)
    ensures RetryFrom(transport, url, n, retryDelay, k)
      == (Failure(HttpError(FailureOf(transport(url, n - 1)))), BackoffFrom(retryDelay, k, n - 1 - k), n - k)
    decreases n - k
  {
    assert Fails(transport, url, k);
    if k < n - 1 {
      RetryFromAllFail(transport, url, n, retryDelay, k + 1);
      RetryFromStep(transport, url, n, retryDelay, k);
      BackoffCons(retryDelay, k, n - 1 - k);
    }
  }

  /** The first success within `n` attempts is returned; no attempt follows it. */
  lemma RetryReturnsFirstSuccess(transport: (string, nat) -> Attempt, url: string, n: int, retryDelay: real, i: nat)
    requires i < n && !Fails(transport, url, i)
    requires forall j :: 0 <= j < i ==> Fails(transport, url, j)
    ensures Retry(transport, url, n, retryDelay) == (Success(transport(url, i).response), Backoff(retryDelay, i), i + 1)
  {
    RetryFromFirstSuccess(transport, url, n, retryDelay, 0, i);
  }

  /** `n` failures: the last exception is raised, after `n - 1` waits. */
  lemma RetryExhausted(transport: (string, nat) -> Attempt, url: string, n: int, retryDelay: real)
    requires n > 0
    requires forall j :: 0 <= j < n ==> Fails(transport, url, j)
    ensures Retry(transport, url, n, retryDelay)
      == (Failure(HttpError(FailureOf(transport(url, n - 1)))), Backoff(retryDelay, n - 1), n)
  {
    RetryFromAllFail(transport, url, n, retryDelay, 0);
  }

  /** With `max_retries <= 0` no attempt is made and `raise None` fails. */
  lemma RetryNoAttempts(transport: (string, nat) -> Attempt, url: string, n: int, retryDelay: real)
    requires n <= 0
    ensures Retry(transport, url, n, retryDelay) == (Failure(RaiseNone), [], 0)
  {
  }

  /**
   * From attempt `k` on: between one and `n - k` attempts, every one but the
   * last failed, a backoff wait after each failed one, and the loop ends on
   * the first success or after the last attempt, raising its exception.
   */
  lemma {:induction false} RetryBounded(transport: (string, nat) -> Attempt, url: string, n: int, retryDelay: real, k: nat)
    requires k < n
    ensures var r := RetryFrom(transport, url, n, retryDelay, k);
      && 1 <= r.2 <= n - k
      && r.1 == BackoffFrom(retryDelay, k, r.2 - 1)
      && (forall j :: k <= j < k + r.2 - 1 ==> Fails(transport, url, j))
      && (r.0.Success? <==> !Fails(transport, url, k + r.2 - 1))
      && (r.0.Success? ==> r.0.value == transport(url, k + r.2 - 1).response)
      && (r.0.Failure? ==> r.2 == n - k && r.0.error == HttpError(FailureOf(transport(url, n - 1))))
    decreases n - k
  {
    if Fails(transport, url, k) && k < n - 1 {
      RetryBounded(transport, url, n, retryDelay, k + 1);
      RetryFromStep(transport, url, n, retryDelay, k);
      BackoffCons(retryDelay, k, RetryFrom(transport, url, n, retryDelay, k + 1).2);
    }
  }

  function Sum(s: seq<real>): real
    decreases |s|
  {
    if s == [] then 0.0 else Sum(s[..|s| - 1]) + s[|s| - 1]
  }

  /** The waits add up to `retry_delay * (2 ** m - 1)`. */
  lemma {:induction false} BackoffTotal(retryDelay: real, m: nat)
    ensures Sum(Backoff(retryDelay, m)) == retryDelay * (Pow2(m) - 1.0)
    decreases m
  {
    if m > 0 {
      var s := Backoff(retryDelay, m);
      assert s[..m - 1] == Backoff(retryDelay, m - 1);
      BackoffTotal(retryDelay, m - 1);
      var p := Pow2(m - 1);
      assert Sum(s) == retryDelay * (p - 1.0) + retryDelay * p;
      assert Pow2(m) == 2.0 * p;
    } else {
      assert Backoff(retryDelay, 0) == [];
    }
  }

  /** With the defaults (3 attempts, 1 second) the worst case sleeps 1 then 2 seconds. */
  lemma DefaultBackoff(transport: (string, nat) -> Attempt, url: string)
    requires forall j :: 0 <= j < 3 ==> Fails(transport, url, j)
    ensures Retry(transport, url, DefaultSettings.maxRetries, DefaultSettings.retryDelay).1 == [1.0, 2.0]
    ensures Retry(transport, url, DefaultSettings.maxRetries, DefaultSettings.retryDelay).2 == 3
  {
    RetryExhausted(transport, url, 3, 1.0);
    assert Pow2(1) == 2.0;
  }

  // ------------------------------------------------------------ fetch_data's result

  /** What `fetch_data` returns: the parsed JSON, or the CSV text. */
  datatype Payload<J> = JsonData(data: J) | CsvText(text: string)

  /** What `fetch_data` raises. */
  datatype FetchError =
    | ApiError(statusCode: int, bodyPrefix: string)   // "Erro na API da ALEPE (HTTP n): ..."
    | ConnectionError(message: string)                // "Erro de conexão com a API da ALEPE: ..."
    | InvalidJson                                     // "Resposta não é um JSON válido: ..."
    | FormatNotSupported(formato: string)             // "Formato não suportado: ..."
    | NotAnException                                 // the TypeError of `raise None`, uncaught
    | RateLimiterZeroDivision                         // the ZeroDivisionError of `acquire`, uncaught

  /** `s[:n]`. */
  function Prefix(s: string, n: nat): (p: string)
    ensures |p| == if |s| <= n then |s| else n
    ensures p == s[..|p|]
  {
    if |s| <= n then s else s[..n]
  }

  /**
   * The `except` clauses of `fetch_data`. `TimeoutException` is a subclass
   * of `RequestError` in httpx, so the earlier `RequestError` clause catches
   * a timeout too.
   */
  function MapFailure(f: Failure): (e: FetchError)
    ensures f.StatusFailure? ==> e == ApiError(f.response.statusCode, Prefix(f.response.text, 200))
    ensures f.Transport? ==> e == ConnectionError(f.error.message)
  {
    match f
    case StatusFailure(response) => ApiError(response.statusCode, Prefix(response.text, 200))
    case Transport(error) => ConnectionError(error.message)
  }

  /** The body handling of `fetch_data`, by format. */
  function Dispatch<J>(formato: string, response: Response, parseJson: string -> Option<J>): (r: Result<Payload<J>, FetchError>)
    ensures r.Success? && r.value.JsonData? ==> formato == "json" && parseJson(response.text) == Some(r.value.data)
    ensures r.Success? && r.value.CsvText? ==> formato == "csv" && r.value.text == response.text
    ensures r.Failure? ==>
      || (formato == "json" && parseJson(response.text).None? && r.error == InvalidJson)
      || (formato != "json" && formato != "csv" && r.error == FormatNotSupported(formato))
  {
    if formato == "json" then
      match parseJson(response.text)
      case Some(data) => Success(JsonData(data))
      case None => Failure(InvalidJson)
    else if formato == "csv" then Success(CsvText(response.text))
    else Failure(FormatNotSupported(formato))
  }

  /** `fetch_data` after `_make_request` returned or raised. */
  function Finish<J>(formato: string, made: Result<Response, Raise>, parseJson: string -> Option<J>): (r: Result<Payload<J>, FetchError>)
    ensures made.Success? ==> r == Dispatch(formato, made.value, parseJson)
    ensures r.Success? ==> made.Success?
    ensures made.Failure? && made.error.HttpError? ==> r == Failure(MapFailure(made.error.failure))
    ensures made == Failure(RaiseNone) ==> r == Failure(NotAnException)
    ensures made == Failure(ZeroDivisionError) ==> r == Failure(RateLimiterZeroDivision)
  {
    match made
    case Success(response) => Dispatch(formato, response, parseJson)
    case Failure(HttpError(f)) => Failure(MapFailure(f))
    case Failure(RaiseNone) => Failure(NotAnException)
    case Failure(ZeroDivisionError) => Failure(RateLimiterZeroDivision)
  }

  /** `_make_request` given how `acquire` let it through: nothing is attempted when `acquire` raised. */
  function MakeRequestSpec(admission: Admission, transport: (string, nat) -> Attempt, url: string): (r: (Result<Response, Raise>, seq<real>, nat))
    ensures admission == ZeroDivision ==> r == (Failure(ZeroDivisionError), [], 0)
    ensures admission != ZeroDivision ==>
      && 1 <= r.2 <= DefaultSettings.maxRetries
      && r.1 == Backoff(DefaultSettings.retryDelay, r.2 - 1)
      && r.0 != Failure(RaiseNone) && r.0 != Failure(ZeroDivisionError)
  {
    if admission == ZeroDivision then (Failure(ZeroDivisionError), [], 0)
    else Retry(transport, url, DefaultSettings.maxRetries, DefaultSettings.retryDelay)
  }

  class Client {
    const limiter: RateLimiter
    var started: bool

    /** `ALEPEHTTPClient()`: no HTTP session yet, a limiter at the configured rate. */
    constructor (now: real)
      ensures !started
      ensures fresh(limiter)
      ensures limiter.requestsPerMinute == DefaultSettings.rateLimitRequests
      ensures limiter.State() == Bucket(DefaultSettings.rateLimitRequests as real, now)
    {
      started := false;
      limiter := new RateLimiter(DefaultSettings.rateLimitRequests, now);
    }

    /**
     * `_make_request(url)`: start the session if needed, take one token,
     * then the retry loop. The limiter moves by exactly one `acquire`,
     * however many attempts follow.
     */
    method MakeRequest(url: string, now: real, transport: (string, nat) -> Attempt)
      returns (r: Result<Response, Raise>, waits: seq<real>, attempts: nat)
      modifies this, limiter
      ensures started
      ensures var (b, admission) := AcquireStep(limiter.requestsPerMinute, old(limiter.State()), now);
        && limiter.State() == b
        && (r, waits, attempts) == MakeRequestSpec(admission, transport, url)
    {
      started := true;
      var admission := limiter.Acquire(now);
      if admission == ZeroDivision {
        r, waits, attempts := Failure(ZeroDivisionError), [], 0;
        return;
      }
      r, waits, attempts := RetryLoop(transport, url, DefaultSettings.maxRetries, DefaultSettings.retryDelay);
    }

    /** `fetch_data(request)`: the URL it requests and what it returns or raises. */
    method FetchData<J>(req: Request, now: real, transport: (string, nat) -> Attempt,
                        floatStr: real -> string, urlencode: Query -> string, parseJson: string -> Option<J>)
      returns (url: string, r: Result<Payload<J>, FetchError>)
      modifies this, limiter
      ensures started
      ensures url == BuildUrl(DefaultSettings.alepeBaseUrl, req.Endpoint(), QueryParams(req, floatStr), urlencode)
      ensures var (b, admission) := AcquireStep(limiter.requestsPerMinute, old(limiter.State()), now);
        && limiter.State() == b
        && r == Finish(req.formato, MakeRequestSpec(admission, transport, url).0, parseJson)
    {
      var params := BuildQueryParams(req, floatStr);
      url := BuildUrl(DefaultSettings.alepeBaseUrl, req.Endpoint(), params, urlencode);
      var made, waits, attempts := MakeRequest(url, now, transport);
      r := Finish(req.formato, made, parseJson);
    }
  }

  // ------------------------------------------------------------ facts about fetch_data

  /** `json` returns the parsed body, or fails when it is not JSON; `csv` returns the text unchanged; nothing else is served. */
  lemma DispatchByFormat<J>(formato: string, response: Response, parseJson: string -> Option<J>)
    ensures formato == "json" ==>
      Dispatch(formato, response, parseJson) ==
        (if parseJson(response.text).Some? then Success(JsonData(parseJson(response.text).value)) else Failure(InvalidJson))
    ensures formato == "csv" ==> Dispatch(formato, response, parseJson) == Success(CsvText(response.text))
    ensures formato != "json" && formato != "csv" ==> Dispatch(formato, response, parseJson) == Failure(FormatNotSupported(formato))
  {
  }

  /** A validated request's format is always served. */
  lemma ValidatedFormatServed<J>(req: Request, currentYear: int, response: Response, parseJson: string -> Option<J>)
    requires WellFormed(req, currentYear)
    ensures !Dispatch(req.formato, response, parseJson).Failure? || Dispatch(req.formato, response, parseJson).error == InvalidJson
  {
  }

  /** An HTTP error carries the status and at most the first 200 characters of the body, all of it when short. */
  lemma ApiErrorBodyPrefix(response: Response)
    ensures var e := MapFailure(StatusFailure(response));
      && e.ApiError? && e.statusCode == response.statusCode
      && |e.bodyPrefix| <= 200
      && e.bodyPrefix == response.text[..|e.bodyPrefix|]
      && (|response.text| <= 200 ==> e.bodyPrefix == response.text)
      && (|response.text| > 200 ==> |e.bodyPrefix| == 200)
  {
  }

  /** A timeout is reported as a connection error: the timeout clause of `fetch_data` is never reached. */
  lemma TimeoutReportedAsConnectionError(message: string)
    ensures MapFailure(Transport(TimedOut(message))) == ConnectionError(message)
    ensures forall f :: MapFailure(f) != ConnectionError(message) || f.Transport?
  {
  }

  /**
   * A fetch whose first attempt gets a 2xx response returns after that one
   * attempt, with no wait, provided `acquire` did not raise.
   */
  lemma FirstAttemptServes<J>(admission: Admission, transport: (string, nat) -> Attempt, url: string,
                              formato: string, parseJson: string -> Option<J>)
    requires admission != ZeroDivision
    requires transport(url, 0).Received? && IsSuccess(transport(url, 0).response.statusCode)
    ensures MakeRequestSpec(admission, transport, url) == (Success(transport(url, 0).response), [], 1)
    ensures Finish(formato, MakeRequestSpec(admission, transport, url).0, parseJson)
      == Dispatch(formato, transport(url, 0).response, parseJson)
  {
    RetryReturnsFirstSuccess(transport, url, DefaultSettings.maxRetries, DefaultSettings.retryDelay, 0);
    assert Backoff(DefaultSettings.retryDelay, 0) == [];
  }
}
