/**
 * The request handlers of the fetcher package: a handler owns a session
 * configured with a retry policy, builds one request per id (a templated URL
 * for GET, a fixed URL with a body for POST), turns the transport's outcome
 * into zero or one payload, and iterates over id lists.
 *
 * The network is the parameter `net`: given the session and the request, it
 * reports what the session's request call finally did (after urllib3's own
 * retries): a response with a status, a body that may fail to decode as JSON
 * and whether it carried a Retry-After header, or a raised exception.
 */
module Synchronous {
  import opened PyValues
  import opened Sequences
  import JsonText
  import UrlFormat

  /** Which of the two handler classes: GETRequestHandler or POSTRequestHandler. */
  datatype Strategy = Get | Post {
    function Method(): string {
      if Get? then "GET" else "POST"
    }
  }

  /** The arguments given to urllib3's Retry. */
  datatype RetryPolicy = RetryPolicy(total: int, backoffFactor: real, allowedMethods: seq<string>, statusForcelist: seq<int>)

  /** An HTTPAdapter with its max_retries. */
  datatype Adapter = Adapter(maxRetries: RetryPolicy)

  /** A requests.Session: default headers, the adapters mounted per URL prefix, and whether close() ran. */
  datatype Session = Session(headers: map<string, string>, adapters: map<string, Adapter>, closed: bool)

  /** The arguments of one session.request call. */
  datatype Request = Request(verb: string, url: string, data: Option<string>, timeout: real)

  /** What the session's request call did: returned a response, or raised. */
  datatype Response =
    | Returned(status: int, body: Option<Json>, retryAfter: bool)   // body is None when response.json() cannot decode it
    | Failed(exc: Exc)

  type Transport = (Session, Request) -> Response

  /** What a generator produced when drained: its items, then the exception that ended it, if any. */
  datatype Generated<T> = Generated(items: seq<T>, raised: Option<Exc>)

  /** The single-key dict `{id: [payloads]}` that fetch_all yields per id. */
  datatype Entry = Entry(id: string, payloads: seq<Json>)

  const RETRY_STATUSES: seq<int> := [500, 502, 503, 504]

  /** urllib3's Retry.RETRY_AFTER_STATUS_CODES. */
  const RETRY_AFTER_STATUSES: seq<int> := [413, 429, 503]

  /** The except clauses of fetch, in source order. */
  const FETCH_CLAUSES: seq<ExcClass> :=
    [HTTPErrorClass, ConnectionErrorClass, TimeoutClass, RequestException, ChunkedEncodingErrorClass]

  /**
   * urllib3's Retry.is_retry: a response is retried when its method is
   * allowed and either its status is forced, or retries remain, it carries
   * Retry-After and its status is one that header is honoured for.
   */
  predicate RetriesOnStatus(p: RetryPolicy, verb: string, status: int, retryAfter: bool) {
    verb in p.allowedMethods
    && (status in p.statusForcelist || (p.total != 0 && retryAfter && status in RETRY_AFTER_STATUSES))
  }

  /** Whether response.raise_for_status() raises for this status. */
  predicate IsErrorStatus(status: int) {
    400 <= status < 600
  }

  class Handler {
    const strategy: Strategy
    const url: string
    const headers: map<string, string>
    const nAttempts: int
    const timeout: real
    const throttle: real
    var session: Option<Session>
    var customPayload: Option<string -> Result<string>>   // the text it returns, or the exception it raises

    constructor (strategy: Strategy, url: string, headers: map<string, string>, nAttempts: int, timeout: real, throttle: real)
      ensures this.strategy == strategy && this.url == url && this.headers == headers
      ensures this.nAttempts == nAttempts && this.timeout == timeout && this.throttle == throttle
      ensures session == None && customPayload == None
    {
      this.strategy := strategy;
      this.url := url;
      this.headers := headers;
      this.nAttempts := nAttempts;
      this.timeout := timeout;
      this.throttle := throttle;
      session := None;
      customPayload := None;
    }

    /** The retry policy __enter__ configures. */
    function Retries(): RetryPolicy {
      RetryPolicy(nAttempts, throttle, [strategy.Method()], RETRY_STATUSES)
    }

    /** The session __enter__ opens: the handler's headers, one retrying adapter per scheme. */
    function NewSession(): Session {
      Session(headers, map["http://" := Adapter(Retries()), "https://" := Adapter(Retries())], false)
    }

    /** __enter__: opens a fresh session (a session opened earlier is dropped, not closed). */
    method Enter()
      modifies this`session
      ensures session == Some(NewSession())
    {
      session := Some(NewSession());
    }

    /** __exit__: closes the session when there is one. */
    method Exit()
      modifies this`session
      ensures old(session).None? ==> session == None
      ensures old(session).Some? ==> session == Some(old(session).value.(closed := true))
    {
      if session.Some? {
        session := Some(session.value.(closed := true));
      }
    }

    /** set_custom_payload, defined on the POST handler only. */
    method SetCustomPayload(f: string -> Result<string>)
      requires strategy.Post?
      modifies this`customPayload
      ensures customPayload == Some(f)
    {
      customPayload := Some(f);
    }

    /** GET's _build_url: `self.url % id`. */
    function BuildUrl(id: string): Result<string> {
      UrlFormat.Format(url, id)
    }

    /** POST's _build_payload: the custom function's text, or json.dumps({"id": id}). */
    function BuildPayload(id: string): (r: Result<string>)
      reads this
    {
      match customPayload
      case Some(f) => f(id)
      case None => Ok(JsonText.DefaultBody(id))
    }

    /** The session.request arguments each handler's _submit_request passes. */
    function BuildRequest(id: string): (r: Result<Request>)
      reads this
      ensures r.Ok? ==> r.value.verb == strategy.Method() && r.value.timeout == timeout
      ensures r.Ok? ==> (r.value.data.Some? <==> strategy.Post?)
      ensures strategy.Get? && r.Ok? ==> BuildUrl(id) == Ok(r.value.url)
      ensures strategy.Post? && r.Ok? ==> r.value.url == url && BuildPayload(id) == Ok(r.value.data.value)
      ensures strategy.Get? ==> (r.Ok? <==> BuildUrl(id).Ok?)
      ensures strategy.Post? ==> (r.Ok? <==> BuildPayload(id).Ok?)
      ensures r.Err? && strategy.Get? ==> BuildUrl(id) == Err(r.error)
      ensures r.Err? && strategy.Post? ==> BuildPayload(id) == Err(r.error)
    {
      match strategy
      case Get =>
        (match BuildUrl(id)
         case Ok(u) => Ok(Request(strategy.Method(), u, None, timeout))
         case Err(e) => Err(e))
      case Post =>
        (match BuildPayload(id)
         case Ok(body) => Ok(Request(strategy.Method(), url, Some(body), timeout))
         case Err(e) => Err(e))
    }

    /**
     * _submit_request: the session attribute is looked up first (AttributeError
     * while it is None), then the request is built and sent; raise_for_status
     * and response.json() may raise in turn.
     */
    function SubmitRequest(id: string, net: Transport): (r: Result<(int, Json)>)
      reads this
      ensures session.None? ==> r == Err(AttributeError)
      ensures r.Ok? ==>
        && session.Some? && BuildRequest(id).Ok?
        && var resp := net(session.value, BuildRequest(id).value);
        && resp.Returned? && resp.status == r.value.0 && resp.body == Some(r.value.1)
        && !IsErrorStatus(r.value.0)
    {
      match session
      case None => Err(AttributeError)
      case Some(s) =>
        match BuildRequest(id)
        case Err(e) => Err(e)
        case Ok(req) =>
          match net(s, req)
          case Failed(e) => Err(e)
          case Returned(status, body, _) =>
            if IsErrorStatus(status) then Err(HTTPError(status))
            else
              match body
              case None => Err(JSONDecodeError)
              case Some(data) => Ok((status, data))
    }

    /**
     * fetch: yields the decoded body when _submit_request returns. Of the
     * request exceptions, the HTTPError clause reads `status_code`, which the
     * failed assignment never bound, so an UnboundLocalError leaves fetch; the
     * other request exceptions are logged and nothing is yielded; any other
     * exception leaves fetch unchanged.
     */
    function Fetch(id: string, net: Transport): (r: Generated<Json>)
      reads this
      ensures |r.items| <= 1 && (r.items != [] ==> r.raised.None?)
      ensures SubmitRequest(id, net).Ok? ==> r == Generated([SubmitRequest(id, net).value.1], None)
      ensures SubmitRequest(id, net).Err? ==>
        var e := SubmitRequest(id, net).error;
        && r.items == []
        && (r.raised.None? <==> IsInstance(e, RequestException) && !IsInstance(e, HTTPErrorClass))
        && (IsInstance(e, HTTPErrorClass) ==> r.raised == Some(UnboundLocalError))
        && (!IsInstance(e, RequestException) ==> r.raised == Some(e))
    {
      match SubmitRequest(id, net)
      case Ok((_, data)) => Generated([data], None)
      case Err(e) =>
        match FirstHandler(e, FETCH_CLAUSES)
        case None => Generated([], Some(e))
        case Some(clause) =>
          if clause == 0 then Generated([], Some(UnboundLocalError))
          else Generated([], None)
    }

    /**
     * fetch_all: one `{id: list(fetch(id))}` per id in input order, one
     * throttle pause after each; an exception escaping fetch ends the
     * iteration (no pause for that id).
     */
    method FetchAll(ids: seq<string>, net: Transport) returns (out: Generated<Entry>, pauses: nat)
      ensures |out.items| <= |ids| && pauses == |out.items|
      ensures forall k :: 0 <= k < |out.items| ==>
        out.items[k] == Entry(ids[k], Fetch(ids[k], net).items) && Fetch(ids[k], net).raised.None?
      ensures out.raised.None? <==> |out.items| == |ids|
      ensures out.raised.Some? ==> out.raised == Fetch(ids[|out.items|], net).raised
    {
      var items: seq<Entry> := [];
      pauses := 0;
      var i := 0;
      while i < |ids|
        invariant 0 <= i <= |ids| && |items| == i && pauses == i
        invariant forall k :: 0 <= k < i ==>
          items[k] == Entry(ids[k], Fetch(ids[k], net).items) && Fetch(ids[k], net).raised.None?
      {
        var r := Fetch(ids[i], net);
        if r.raised.Some? {
          out := Generated(items, r.raised);
          return;
        }
        items := items + [Entry(ids[i], r.items)];
        pauses := pauses + 1;  // sleep(self.throttle)
        i := i + 1;
      }
      out := Generated(items, None);
    }

    /** fetch_ranged: fetch_all over `ids[start:finish]`. */
    method FetchRanged(ids: seq<string>, start: int, finish: int, net: Transport) returns (out: Generated<Entry>, pauses: nat)
      ensures var sliced := PySlice(ids, start, finish);
        && |out.items| <= |sliced| && pauses == |out.items|
        && (forall k :: 0 <= k < |out.items| ==>
              out.items[k] == Entry(ids[Clamp(start, |ids|) + k], Fetch(ids[Clamp(start, |ids|) + k], net).items))
        && (out.raised.None? <==> |out.items| == |sliced|)
        && (out.raised.Some? ==> out.raised == Fetch(sliced[|out.items|], net).raised)
    {
      out, pauses := FetchAll(PySlice(ids, start, finish), net);
    }
  }

  // ---- properties ------------------------------------------------------------

  /** The ChunkedEncodingError clause of fetch never runs: the RequestException clause before it catches first. */
  lemma ChunkedClauseUnreachable(e: Exc)
    ensures FirstHandler(e, FETCH_CLAUSES) != Some(4)
    ensures e.ChunkedEncodingError? ==> FirstHandler(e, FETCH_CLAUSES) == Some(3)
  {
  }

  /**
   * The configured retries apply to the handler's own method only: to the four
   * gateway statuses, and, while n_attempts is not zero, to 413, 429 and 503
   * responses that carry Retry-After. No other client error is retried.
   */
  lemma RetryScope(h: Handler, verb: string, status: int, retryAfter: bool)
    ensures h.NewSession().adapters["http://"] == h.NewSession().adapters["https://"] == Adapter(h.Retries())
    ensures RetriesOnStatus(h.Retries(), verb, status, retryAfter) <==>
      && verb == h.strategy.Method()
      && (status in {500, 502, 503, 504} || (h.nAttempts != 0 && retryAfter && status in {413, 429, 503}))
    ensures 400 <= status < 500 && status != 413 && status != 429 ==> !RetriesOnStatus(h.Retries(), verb, status, retryAfter)
    ensures 400 <= status < 500 && !retryAfter ==> !RetriesOnStatus(h.Retries(), verb, status, retryAfter)
    ensures h.Retries().total == h.nAttempts && h.Retries().backoffFactor == h.throttle
  {
  }

  /** GET: method "GET", no body, and the id spliced into the template's `%s`. */
  lemma GetRequest(h: Handler, p: string, q: string, id: string)
    requires h.strategy.Get? && h.url == p + "%s" + q && '%' !in p && '%' !in q
    ensures h.BuildRequest(id) == Ok(Request("GET", p + id + q, None, h.timeout))
  {
    UrlFormat.SubstitutesArgument(p, q, id);
  }

  /** GET with a template that has no `%s`: building the URL raises TypeError, for every id. */
  lemma GetRequestWithoutPlaceholder(h: Handler, id: string)
    requires h.strategy.Get? && '%' !in h.url
    ensures h.BuildRequest(id) == Err(TypeError)
  {
    UrlFormat.NoPlaceholderRaises(h.url, id);
  }

  /**
   * POST: method "POST" to the fixed URL whatever the id; the body is the
   * custom payload's text when one is set, and otherwise a JSON object that
   * decodes back to exactly the id. Only a raising custom payload makes
   * building the request fail, with its exception.
   */
  lemma PostRequest(h: Handler, id: string)
    requires h.strategy.Post?
    ensures h.BuildRequest(id).Ok? <==> h.customPayload.None? || h.customPayload.value(id).Ok?
    ensures h.BuildRequest(id).Ok? ==>
      var req := h.BuildRequest(id).value;
      && req.verb == "POST" && req.url == h.url && req.data.Some? && req.timeout == h.timeout
      && (h.customPayload.Some? ==> h.customPayload.value(id) == Ok(req.data.value))
      && (h.customPayload.None? ==> JsonText.ParseIdBody(req.data.value) == Some(id))
    ensures h.customPayload.Some? && h.customPayload.value(id).Err? ==>
      h.BuildRequest(id) == Err(h.customPayload.value(id).error)
  {
    if h.customPayload.None? {
      JsonText.DefaultBodyRoundTrip(id);
    }
  }

  /** A returned, decodable response with a non-error status is yielded as the one payload. */
  lemma FetchYieldsBody(h: Handler, id: string, net: Transport, status: int, data: Json, retryAfter: bool)
    requires h.session.Some? && h.BuildRequest(id).Ok?
    requires net(h.session.value, h.BuildRequest(id).value) == Returned(status, Some(data), retryAfter) && !IsErrorStatus(status)
    ensures h.Fetch(id, net) == Generated([data], None)
  {
  }

  /**
   * An error status that the session hands back because its retries do not
   * cover it (any 4xx without Retry-After, 429 included, and 501, 505 and the
   * like) makes fetch raise UnboundLocalError instead of logging: there is no
   * separate rate-limit outcome.
   */
  lemma FetchErrorStatusEscapes(h: Handler, id: string, net: Transport, status: int, body: Option<Json>, retryAfter: bool)
    requires h.session.Some? && h.BuildRequest(id).Ok?
    requires net(h.session.value, h.BuildRequest(id).value) == Returned(status, body, retryAfter) && IsErrorStatus(status)
    requires !RetriesOnStatus(h.Retries(), h.BuildRequest(id).value.verb, status, retryAfter)
    ensures h.Fetch(id, net) == Generated([], Some(UnboundLocalError))
  {
  }

  /**
   * A status the retries do cover ends, once they are used up, in RetryError
   * rather than a response; fetch logs it and yields nothing.
   */
  lemma FetchRetriesExhausted(h: Handler, id: string, net: Transport)
    requires h.session.Some? && h.BuildRequest(id).Ok?
    requires net(h.session.value, h.BuildRequest(id).value) == Failed(RetryError)
    ensures h.Fetch(id, net) == Generated([], None)
    ensures FirstHandler(RetryError, FETCH_CLAUSES) == Some(3)
  {
  }

  /** Connection errors, timeouts, exhausted retries and undecodable bodies yield nothing and raise nothing. */
  lemma FetchAbsorbsTransportFailures(h: Handler, id: string, net: Transport)
    requires h.session.Some? && h.BuildRequest(id).Ok?
    requires match net(h.session.value, h.BuildRequest(id).value)
      case Failed(e) => IsInstance(e, RequestException) && !e.HTTPError?
      case Returned(status, body, _) => !IsErrorStatus(status) && body.None?
    ensures h.Fetch(id, net) == Generated([], None)
  {
  }

  /**
   * An exception raised by the custom payload function is met inside fetch's
   * `try`: a request exception other than HTTPError is logged, HTTPError turns
   * into UnboundLocalError, and any other exception escapes fetch.
   */
  lemma FetchCustomPayloadRaises(h: Handler, id: string, net: Transport, e: Exc)
    requires h.session.Some? && h.strategy.Post? && h.customPayload.Some? && h.customPayload.value(id) == Err(e)
    ensures h.Fetch(id, net).items == []
    ensures IsInstance(e, RequestException) && !IsInstance(e, HTTPErrorClass) ==> h.Fetch(id, net).raised.None?
    ensures IsInstance(e, HTTPErrorClass) ==> h.Fetch(id, net).raised == Some(UnboundLocalError)
    ensures !IsInstance(e, RequestException) ==> h.Fetch(id, net).raised == Some(e)
  {
  }

  /** Outside the `with` block the session is None: fetch raises AttributeError. */
  lemma FetchWithoutSession(h: Handler, id: string, net: Transport)
    requires h.session.None?
    ensures h.Fetch(id, net) == Generated([], Some(AttributeError))
  {
  }
}
