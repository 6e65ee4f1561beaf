/**
 * Request execution (tester/executor.py): builds the target URL for one
 * test case, sends it through the transport and folds the three possible
 * outcomes (a response, a timeout, any other transport failure) into one
 * result record. The HTTP session and the clock are the `send` parameter.
 */
module Executor {
  import opened Wrappers
  import opened Text
  import opened Json

  /** A status code an HTTP response can carry: three digits, as `http.client` accepts. */
  type HttpStatus = s: int | 100 <= s <= 999 witness 200

  /** What the executor hands to the session: method, URL, JSON body (`JNull` for none) and timeout. */
  datatype Request = Request(verb: string, url: string, json: Json, timeout: nat)

  /** How a request ended: a response, `requests.exceptions.Timeout`, or another `RequestException`. */
  datatype Outcome =
    | Completed(status: HttpStatus, text: string)
    | TimedOut(message: string)
    | TransportFailure(message: string)

  /** An outcome with the seconds the clock measured around the call. */
  datatype Exchange = Exchange(outcome: Outcome, seconds: real)

  /** The record `execute_test` returns: `status_code`, `body`, `time_seconds`, `error`. */
  datatype ExecResult = ExecResult(status: int, body: string, seconds: real, error: Option<string>)

  /** The per-request timeout, in seconds. */
  const DefaultTimeout: nat := 10

  /** The status recorded for a timeout (Request Timeout). */
  const TimeoutStatus: int := 408

  /** The status recorded for any other transport failure. */
  const FailureStatus: int := -1

  /** `f"{{{param_name}}}"`: the placeholder naming a path parameter. */
  function Placeholder(paramName: Json, show: Json -> string): (r: string)
    ensures |r| >= 2 && r[0] == '{' && r[|r| - 1] == '}'
    ensures r[1..|r| - 1] == PyStr(paramName, show)
  {
    "{" + PyStr(paramName, show) + "}"
  }

  /**
   * The URL of one test case: the base followed by the path, in which every
   * placeholder of the named parameter is replaced by the payload text when
   * both a truthy name and a payload are given.
   */
  function FullUrl(base: string, path: string, paramName: Json, urlPayload: Option<string>, show: Json -> string): (r: string)
    ensures base <= r
    ensures !(Truthy(paramName) && urlPayload.Some?) ==> r[|base|..] == path
  {
    if Truthy(paramName) && urlPayload.Some? then base + ReplaceAll(path, Placeholder(paramName, show), urlPayload.value)
    else base + path
  }

  /** A path without the placeholder is used verbatim even when a payload is given. */
  lemma NoPlaceholderVerbatim(base: string, path: string, paramName: Json, urlPayload: Option<string>, show: Json -> string)
    requires forall i :: !OccursAt(path, Placeholder(paramName, show), i)
    ensures FullUrl(base, path, paramName, urlPayload, show) == base + path
  {
    ReplaceAbsent(path, Placeholder(paramName, show), urlPayload.GetOr(""));
  }

  /**
   * `a{name}b`, with no `{` before the placeholder and no placeholder after
   * it, becomes the base followed by `a`, the payload as given, and `b`.
   */
  lemma PlaceholderFilled(base: string, a: string, name: string, b: string, payload: string, show: Json -> string)
    requires name != []
    requires '{' !in a
    requires forall i :: !OccursAt(b, "{" + name + "}", i)
    ensures FullUrl(base, a + "{" + name + "}" + b, JStr(name), Some(payload), show) == base + a + payload + b
  {
    var pat := "{" + name + "}";
    assert Placeholder(JStr(name), show) == pat;
    assert a + "{" + name + "}" + b == a + (pat + b);
    ReplacePlainPrefix(a, pat + b, pat, payload);
    ReplaceAtFront(b, pat, payload);
    ReplaceAbsent(b, pat, payload);
  }

  /**
   * Every placeholder is filled: a path made of pieces without `{name}`,
   * joined by `{name}`, has each occurrence replaced by the payload, and the
   * pieces are kept as written.
   */
  lemma EveryPlaceholderFilled(base: string, pieces: seq<string>, name: string, payload: string, show: Json -> string)
    requires name != [] && '{' !in name
    requires forall k, j :: 0 <= k < |pieces| ==> !OccursAt(pieces[k], "{" + name + "}", j)
    ensures FullUrl(base, Join(pieces, "{" + name + "}"), JStr(name), Some(payload), show) == base + Join(pieces, payload)
  {
    var pat := "{" + name + "}";
    assert Placeholder(JStr(name), show) == pat;
    forall j | 0 < j < |pat| ensures pat[j] != pat[0] {
      if j <= |name| {
        assert pat[j] == name[j - 1];
      }
    }
    ReplaceJoin(pieces, pat, payload);
  }

  /** The body recorded for a timeout: the timeout in seconds and the exception text. */
  function TimeoutBody(timeout: nat, message: string): string {
    "Запит перевищив таймаут " + NatToString(timeout) + "s: " + message
  }

  /**
   * The three-way mapping of `execute_test`: a response keeps its status
   * and text with no error; a timeout becomes 408 with error `Timeout`; any
   * other failure becomes -1 with its message as body and error. The kind
   * of outcome can be read back from the record.
   */
  function ResultOf(ex: Exchange, timeout: nat): (r: ExecResult)
    ensures r.seconds == ex.seconds
    ensures r.error.None? <==> ex.outcome.Completed?
    ensures r.status == FailureStatus <==> ex.outcome.TransportFailure?
    ensures (r.status == TimeoutStatus && r.error.Some?) <==> ex.outcome.TimedOut?
    ensures ex.outcome.Completed? ==> r.status == ex.outcome.status && r.body == ex.outcome.text
    ensures ex.outcome.TimedOut? ==> r.error == Some("Timeout")
    ensures ex.outcome.TransportFailure? ==> r.body == ex.outcome.message && r.error == Some(ex.outcome.message)
  {
    match ex.outcome
    case Completed(status, text) => ExecResult(status, text, ex.seconds, None)
    case TimedOut(message) => ExecResult(TimeoutStatus, TimeoutBody(timeout, message), ex.seconds, Some("Timeout"))
    case TransportFailure(message) => ExecResult(FailureStatus, message, ex.seconds, Some(message))
  }

  /** The outcome kinds, as recovered from a record. */
  datatype Kind = Response | Timeout | Broken

  function KindOfOutcome(o: Outcome): Kind {
    match o
    case Completed(_, _) => Response
    case TimedOut(_) => Timeout
    case TransportFailure(_) => Broken
  }

  /** How a reader of the record tells the outcomes apart. */
  function KindOfResult(r: ExecResult): Kind {
    if r.error.None? then Response else if r.status == FailureStatus then Broken else Timeout
  }

  /** The record always tells which way the request ended; in particular a timeout never reads as -1. */
  lemma KindRecovered(ex: Exchange, timeout: nat)
    ensures KindOfResult(ResultOf(ex, timeout)) == KindOfOutcome(ex.outcome)
    ensures ex.outcome.TimedOut? ==> ResultOf(ex, timeout).status != FailureStatus
  {
  }

  /** The timeout body names the configured timeout in decimal. */
  lemma TimeoutBodyNamesTen(message: string)
    ensures TimeoutBody(DefaultTimeout, message) == "Запит перевищив таймаут 10s: " + message
  {
    assert NatToString(10) == "10";
  }

  /** `APIExecutor`: the base URL without trailing `/` and the request timeout. */
  datatype ApiExecutor = ApiExecutor(baseUrl: string, defaultTimeout: nat) {

    /**
     * `execute_test`: sends one request to `FullUrl` with the JSON body and
     * the executor's timeout, and returns the mapped record; no outcome
     * escapes as an exception.
     */
    function ExecuteTest(verb: string, path: string, json: Json, urlPayload: Option<string>, paramName: Json,
                         show: Json -> string, send: Request -> Exchange): (r: ExecResult)
      ensures var req := send(Request(verb, FullUrl(baseUrl, path, paramName, urlPayload, show), json, defaultTimeout));
        && r.seconds == req.seconds
        && (r.error.None? <==> req.outcome.Completed?)
        && (r.status == FailureStatus <==> req.outcome.TransportFailure?)
        && r == ResultOf(req, defaultTimeout)
    {
      ResultOf(send(Request(verb, FullUrl(baseUrl, path, paramName, urlPayload, show), json, defaultTimeout)), defaultTimeout)
    }
  }

  /** `APIExecutor(base_url)`: trailing slashes are dropped; the timeout is 10 s. */
  function NewExecutor(base: string): (e: ApiExecutor)
    ensures |e.baseUrl| <= |base| && base[..|e.baseUrl|] == e.baseUrl
    ensures forall k :: |e.baseUrl| <= k < |base| ==> base[k] == '/'
    ensures e.baseUrl == [] || e.baseUrl[|e.baseUrl| - 1] != '/'
    ensures e.defaultTimeout == DefaultTimeout
  {
    ApiExecutor(RStrip(base, '/'), DefaultTimeout)
  }

  /** Dropping trailing slashes twice is the same as once. */
  lemma NewExecutorIdempotent(base: string)
    ensures NewExecutor(NewExecutor(base).baseUrl) == NewExecutor(base)
  {
  }

  /** A path starting with `/` joined to a base given with a trailing `/` gets exactly one separator. */
  lemma TrailingSlashDropped(host: string, path: string, show: Json -> string)
    requires host == [] || host[|host| - 1] != '/'
    ensures FullUrl(NewExecutor(host + "/").baseUrl, path, JNull, None, show) == host + path
  {
    var b := NewExecutor(host + "/").baseUrl;
    assert (host + "/")[..|host|] == host;
  }
}
