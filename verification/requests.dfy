/** Construction of an authenticated API request (`makeRequest` in
    yookassa/client.go). The HTTP library and the transport are parameters:
    whether `http.NewRequest` refuses the method or URI is an input, and the
    transport is a function from the built request to its outcome. */
module Requests {
  import opened Results
  import Decimal

  const BaseUrl := "https://api.yookassa.ru/v3/"
  const MethodPost := "POST"
  const ContentTypeHeader := "Content-Type"
  const IdempotenceKeyHeader := "Idempotence-Key"
  const JsonContentType := "application/json"

  newtype Byte = b: int | 0 <= b < 256

  /** The shop's account identifier and secret key, sent as HTTP Basic
      authentication. */
  datatype Credentials = Credentials(accountId: string, secretKey: string)

  /** The API client (`NewClient`); its `http.Client` is the transport. */
  datatype Client = Client(credentials: Credentials)

  /** A query parameter value of the dynamic types callers pass. */
  datatype ParamValue = PString(s: string) | PInt(i: int) | PBool(b: bool) | PNil

  /** The request handed to the transport. `query` is `None` when the raw
      query of the URI is left alone, and otherwise the `url.Values` whose
      encoding replaces it. */
  datatype Request = Request(
    httpMethod: string,
    uri: string,
    body: seq<Byte>,
    headers: map<string, string>,
    basicAuth: Credentials,
    query: Option<map<string, seq<string>>>)

  datatype Response = Response(statusCode: int, body: seq<Byte>)

  datatype HttpError = HttpError(message: string)

  /** What one call of `makeRequest` did: the request it sent, if it got as
      far as sending one, and what it returned. */
  datatype Dispatch = Dispatch(sent: Option<Request>, result: Result<Response, HttpError>)

  /** `fmt.Sprintf("%v", v)`. */
  function FormatValue(v: ParamValue): (s: string)
    ensures v.PString? ==> s == v.s
    ensures v.PInt? ==> s == Decimal.FormatInt(v.i) && Decimal.ParseInt(s) == Some(v.i)
    ensures v.PBool? ==> s == (if v.b then "true" else "false")
    ensures v.PNil? ==> s == "<nil>"
  {
    match v
    case PString(s) => s
    case PInt(i) => (Decimal.ParseFormatInt(i); Decimal.FormatInt(i))
    case PBool(b) => if b then "true" else "false"
    case PNil => "<nil>"
  }

  /** The idempotency key a request gets: the caller's key, or the freshly
      generated `generated` when the caller supplied none. */
  function EffectiveKey(key: string, generated: string): (k: string)
    requires generated != ""
    ensures k != ""
    ensures key != "" ==> k == key
    ensures key == "" ==> k == generated
  {
    if key == "" then generated else key
  }

  /** The query values built from `params`, one entry per parameter, each
      holding the parameter's `%v` rendering. */
  method EncodeParams(params: map<string, ParamValue>) returns (q: map<string, seq<string>>)
    ensures q.Keys == params.Keys
    ensures forall name :: name in q ==> q[name] == [FormatValue(params[name])]
  {
    q := map[];
    var remaining := params.Keys;
    while remaining != {}
      invariant remaining <= params.Keys
      invariant q.Keys == params.Keys - remaining
      invariant forall name :: name in q ==> q[name] == [FormatValue(params[name])]
      decreases remaining
    {
      var name :| name in remaining;
      // `url.Values.Add` appends to the name's list, which is still empty:
      // the names of a map are distinct.
      q := q[name := [FormatValue(params[name])]];
      remaining := remaining - {name};
    }
  }

  /** Everything `makeRequest` promises about the request it sends. */
  ghost predicate WellFormed(
    req: Request, c: Client, httpMethod: string, endpoint: string, body: seq<Byte>,
    params: Option<map<string, ParamValue>>, key: string, generated: string)
    requires generated != ""
  {
    && req.httpMethod == httpMethod
    && req.uri == BaseUrl + endpoint
    && req.body == body
    && req.basicAuth == c.credentials
    && (httpMethod == MethodPost ==>
          req.headers == map[ContentTypeHeader := JsonContentType,
                             IdempotenceKeyHeader := EffectiveKey(key, generated)])
    && (httpMethod != MethodPost ==> req.headers == map[])
    && (params.None? <==> req.query.None?)
    && (params.Some? ==>
          && req.query.value.Keys == params.value.Keys
          && forall name :: name in req.query.value ==>
               req.query.value[name] == [FormatValue(params.value[name])])
  }

  /** The request built for one call, before it is sent. */
  method BuildRequest(
    c: Client, httpMethod: string, endpoint: string, body: seq<Byte>,
    params: Option<map<string, ParamValue>>, key: string, generated: string)
    returns (req: Request)
    requires generated != ""
    ensures WellFormed(req, c, httpMethod, endpoint, body, params, key, generated)
    ensures IdempotenceKeyHeader in req.headers <==> httpMethod == MethodPost
    ensures ContentTypeHeader in req.headers <==> httpMethod == MethodPost
    ensures httpMethod == MethodPost ==> req.headers[IdempotenceKeyHeader] != ""
    ensures httpMethod == MethodPost && key != "" ==> req.headers[IdempotenceKeyHeader] == key
  {
    var uri := BaseUrl + endpoint;
    var idempotencyKey := EffectiveKey(key, generated);
    var headers: map<string, string> := map[];
    if httpMethod == MethodPost {
      headers := headers[ContentTypeHeader := JsonContentType];
      headers := headers[IdempotenceKeyHeader := idempotencyKey];
    }
    var query: Option<map<string, seq<string>>> := None;
    if params.Some? {
      var q := EncodeParams(params.value);
      query := Some(q);
    }
    req := Request(httpMethod, uri, body, headers, c.credentials, query);
  }

  /** `makeRequest`: a request-construction error is returned as it is and
      nothing is sent; otherwise the built request is sent once and the
      transport's outcome is returned as it is. */
  method MakeRequest(
    c: Client, httpMethod: string, endpoint: string, body: seq<Byte>,
    params: Option<map<string, ParamValue>>, key: string, generated: string,
    newRequestError: Option<HttpError>, transport: Request -> Result<Response, HttpError>)
    returns (d: Dispatch)
    requires generated != ""
    ensures newRequestError.Some? ==> d == Dispatch(None, Err(newRequestError.value))
    ensures newRequestError.None? ==>
      && d.sent.Some?
      && WellFormed(d.sent.value, c, httpMethod, endpoint, body, params, key, generated)
      && d.result == transport(d.sent.value)
  {
    if newRequestError.Some? {
      return Dispatch(None, Err(newRequestError.value));
    }
    var req := BuildRequest(c, httpMethod, endpoint, body, params, key, generated);
    d := Dispatch(Some(req), transport(req));
  }

  /** The promises of `WellFormed` pin the request down completely: two
      requests that both keep them are the same request. */
  lemma WellFormedIsDeterministic(
    r1: Request, r2: Request, c: Client, httpMethod: string, endpoint: string, body: seq<Byte>,
    params: Option<map<string, ParamValue>>, key: string, generated: string)
    requires generated != ""
    requires WellFormed(r1, c, httpMethod, endpoint, body, params, key, generated)
    requires WellFormed(r2, c, httpMethod, endpoint, body, params, key, generated)
    ensures r1 == r2
  {
    if params.Some? {
      assert r1.query.value == r2.query.value;
    }
  }

  /** A request other than POST never carries an idempotency key, whatever
      key the caller passed. */
  lemma NonPostCarriesNoKey(
    req: Request, c: Client, httpMethod: string, endpoint: string, body: seq<Byte>,
    params: Option<map<string, ParamValue>>, key: string, generated: string)
    requires generated != ""
    requires WellFormed(req, c, httpMethod, endpoint, body, params, key, generated)
    requires httpMethod != MethodPost
    ensures IdempotenceKeyHeader !in req.headers
  {
  }

  /** Only the key slot depends on the caller's key: two POSTs built from
      the same inputs with different non-empty keys differ exactly in their
      `Idempotence-Key` header. */
  lemma KeyOnlyAffectsIdempotenceHeader(
    r1: Request, r2: Request, c: Client, endpoint: string, body: seq<Byte>,
    params: Option<map<string, ParamValue>>, k1: string, k2: string, generated: string)
    requires generated != "" && k1 != "" && k2 != ""
    requires WellFormed(r1, c, MethodPost, endpoint, body, params, k1, generated)
    requires WellFormed(r2, c, MethodPost, endpoint, body, params, k2, generated)
    ensures r1.(headers := map[]) == r2.(headers := map[])
    ensures r1.headers[IdempotenceKeyHeader] == k1 && r2.headers[IdempotenceKeyHeader] == k2
    ensures r1.headers - {IdempotenceKeyHeader} == r2.headers - {IdempotenceKeyHeader}
  {
    if params.Some? {
      assert r1.query.value == r2.query.value;
    }
  }
}
