/** The Python client of the service: how `api_call` shapes a request, how the call
    wrapper dispatches on the response type and rewraps errors, and the request each
    public call makes.  The network is replaced by its outcome, given as an input. */
module WeightsApi {
  import opened Types

  /** A raised exception is its message. */
  datatype Result<+T> = Ok(value: T) | Err(message: string)

  /** The values a request body holds. */
  datatype PyValue = PyNone | PyStr(s: string) | PyInt(i: int) | PyBool(b: bool)

  /** A dict's items in insertion order.  A dict holds each key once; `DistinctKeys`
      states that, and `QueryParamsDistinct` shows the query then holds each key once too. */
  type Body = seq<(string, PyValue)>

  type Params = seq<(string, string)>

  const ApiError := "Weights API Error: "
  const Unreachable := "Weights API Error: The API is not reachable. Please check your connection or the API status: "
  const UnsupportedType := "Unsupported response type: "

  // ---------------------------------------------------------------- str()

  predicate IsDigit(c: char)
  {
    '0' <= c <= '9'
  }

  function DigitValue(c: char): (d: nat)
    requires IsDigit(c)
    ensures d < 10
  {
    c as int - '0' as int
  }

  function DigitChar(d: nat): (c: char)
    requires d < 10
    ensures IsDigit(c) && DigitValue(c) == d
  {
    ('0' as int + d) as char
  }

  /** The number a string of decimal digits denotes, most significant digit first. */
  function DecimalValue(s: string): nat
    requires forall i :: 0 <= i < |s| ==> IsDigit(s[i])
  {
    if s == [] then 0 else 10 * DecimalValue(s[..|s| - 1]) + DigitValue(s[|s| - 1])
  }

  /** A numeral as Python writes one: digits only, and no leading zero except in "0". */
  predicate Canonical(s: string)
  {
    |s| > 0 && (forall i :: 0 <= i < |s| ==> IsDigit(s[i])) && (s[0] == '0' ==> s == "0")
  }

  /** The decimal form of a natural number: the canonical numeral that denotes it. */
  function Digits(n: nat): (s: string)
    ensures Canonical(s) && DecimalValue(s) == n
  {
    if n < 10 then [DigitChar(n)]
    else
      var init := Digits(n / 10);
      assert (init + [DigitChar(n % 10)])[..|init|] == init;
      init + [DigitChar(n % 10)]
  }

  /** Every canonical numeral is the decimal form of its value, so `Digits(n)` is the
      only canonical numeral denoting n. */
  lemma {:induction false} DigitsOfDecimal(s: string)
    requires Canonical(s)
    ensures Digits(DecimalValue(s)) == s
  {
    var last := s[|s| - 1];
    assert DigitChar(DigitValue(last)) == last;
    if |s| > 1 {
      var init := s[..|s| - 1];
      assert init[0] == s[0] != '0';
      DigitsOfDecimal(init);
      assert DecimalValue(init) > 0;
      assert s == init + [last];
    }
  }

  /** Python's str() of a value that is not None; an integer prints as its canonical
      numeral, with a minus sign in front when it is negative. */
  function PyStrOf(v: PyValue): (s: string)
    requires v != PyNone
    ensures v.PyStr? ==> s == v.s
    ensures v.PyInt? && v.i >= 0 ==> Canonical(s) && DecimalValue(s) == v.i
    ensures v.PyInt? && v.i < 0 ==> |s| > 1 && s[0] == '-' && Canonical(s[1..]) && DecimalValue(s[1..]) == -v.i
    ensures v.PyBool? ==> s == (if v.b then "True" else "False")
  {
    match v
    case PyStr(s) => s
    case PyInt(i) =>
      if i < 0 then
        var digits := Digits(-i);
        assert ("-" + digits)[1..] == digits;
        "-" + digits
      else Digits(i)
    case PyBool(b) => if b then "True" else "False"
  }

  // ---------------------------------------------------------------- api_call

  /** The GET query of a body: the items whose value is not None, stringified, in order. */
  function QueryParams(body: Body): (params: Params)
    ensures |params| <= |body|
  {
    if body == [] then []
    else
      var last := body[|body| - 1];
      QueryParams(body[..|body| - 1]) + (if last.1 != PyNone then [(last.0, PyStrOf(last.1))] else [])
  }

  /** A pair is in the query exactly when the body has that key with a value other than
      None whose str() is the pair's value. */
  lemma {:induction false} QueryParamsMembers(body: Body, key: string, value: string)
    ensures (key, value) in QueryParams(body)
        <==> exists i :: 0 <= i < |body| && body[i].0 == key && body[i].1 != PyNone && PyStrOf(body[i].1) == value
  {
    if body != [] {
      var init := body[..|body| - 1];
      QueryParamsMembers(init, key, value);
      assert forall i :: 0 <= i < |init| ==> init[i] == body[i];
    }
  }

  /** No None value reaches the query, so the query keys are among the body keys. */
  lemma {:induction false} QueryParamsDropNone(body: Body)
    ensures forall p :: p in QueryParams(body) ==> exists i :: 0 <= i < |body| && body[i].0 == p.0 && body[i].1 != PyNone
    ensures (forall i :: 0 <= i < |body| ==> body[i].1 != PyNone) ==> |QueryParams(body)| == |body|
  {
    if body != [] {
      var init := body[..|body| - 1];
      QueryParamsDropNone(init);
      assert forall i :: 0 <= i < |init| ==> init[i] == body[i];
    }
  }

  /** Each key occurs once, as in a Python dict. */
  predicate DistinctKeys(body: Body)
  {
    forall i, j :: 0 <= i < j < |body| ==> body[i].0 != body[j].0
  }

  /** A body with distinct keys gives a query with distinct keys, so the sequence of pairs
      is the `params` dict itself. */
  lemma {:induction false} QueryParamsDistinct(body: Body)
    requires DistinctKeys(body)
    ensures forall i, j :: 0 <= i < j < |QueryParams(body)| ==> QueryParams(body)[i].0 != QueryParams(body)[j].0
  {
    if body != [] {
      var init := body[..|body| - 1];
      assert DistinctKeys(init);
      QueryParamsDistinct(init);
      QueryParamsDropNone(init);
      forall p | p in QueryParams(init)
        ensures p.0 != body[|body| - 1].0
      {
        var i :| 0 <= i < |init| && init[i].0 == p.0 && init[i].1 != PyNone;
        assert init[i] == body[i];
      }
    }
  }

  /** The loop of `api_call` that fills `params`.  For a body with distinct keys (every
      dict) each assignment adds a new key, so assigning it appends it. */
  method BuildQueryParams(body: Body) returns (params: Params)
    ensures params == QueryParams(body)
  {
    params := [];
    var i := 0;
    while i < |body|
      invariant i <= |body|
      invariant params == QueryParams(body[..i])
    {
      var (key, value) := body[i];
      if value != PyNone {
        params := params + [(key, PyStrOf(value))];
      }
      assert body[..i + 1][..i] == body[..i];
      i := i + 1;
    }
    assert body[..|body|] == body;
  }

  /** The headers of every request; a missing API key is sent as the text "None". */
  function Headers(apiKey: Option<string>): (h: Params)
    ensures |h| == 2 && h[0] == ("Content-Type", "application/json") && h[1].0 == "x-api-key"
    ensures apiKey.None? ==> h[1].1 == "None"
    ensures apiKey.Some? ==> h[1].1 == apiKey.value
  {
    [("Content-Type", "application/json"), ("x-api-key", if apiKey.Some? then apiKey.value else "None")]
  }

  /** The request `api_call` sends. */
  datatype HttpRequest =
    | GetWithParams(url: string, params: Params, headers: Params)
    | SendJson(httpMethod: string, url: string, json: Option<Body>, headers: Params)

  /** `api_call`'s choice of request: a GET with a non-empty body sends the body as
      query parameters; anything else (including a GET with an empty or no body) sends
      the body as JSON. */
  function ShapeApiCall(endpoint: string, apiKey: Option<string>, path: string, httpMethod: string,
                        body: Option<Body>): (req: HttpRequest)
    ensures req.url == endpoint + path
    ensures req.headers == Headers(apiKey)
    ensures req.GetWithParams? <==> httpMethod == "GET" && body.Some? && body.value != []
    ensures req.GetWithParams? ==> req.params == QueryParams(body.value)
    ensures req.SendJson? ==> req.httpMethod == httpMethod && req.json == body
  {
    var url := endpoint + path;
    if httpMethod == "GET" && body.Some? && body.value != [] then
      GetWithParams(url, QueryParams(body.value), Headers(apiKey))
    else
      SendJson(httpMethod, url, body, Headers(apiKey))
  }

  /** `api_call`'s result: the raw response body, or the client error (a failed
      connection or a non-success status) rewrapped. */
  function ApiCall(transport: Result<string>): Result<string>
  {
    match transport
    case Ok(raw) => Ok(raw)
    case Err(e) => Err(ApiError + e)
  }

  // ---------------------------------------------------------------- the call wrapper

  /** A decoded response: parsed as JSON or read as text. */
  datatype Payload = JsonPayload(raw: string) | TextPayload(raw: string)

  /** The response-type dispatch of `_api_call_wrapper`. */
  function DecodeAs(responseType: string, raw: string): (r: Result<Payload>)
    ensures r.Ok? <==> responseType == "json" || responseType == "text"
    ensures responseType == "json" ==> r == Ok(JsonPayload(raw))
    ensures responseType == "text" ==> r == Ok(TextPayload(raw))
    ensures r.Err? ==> r.message == UnsupportedType + responseType
  {
    if responseType == "json" then Ok(JsonPayload(raw))
    else if responseType == "text" then Ok(TextPayload(raw))
    else Err(UnsupportedType + responseType)
  }

  /** `_check_health`: the failure `get_health_data` caught is rewrapped twice. */
  function CheckHealth(healthFailure: Option<string>): Result<()>
  {
    if healthFailure.None? then Ok(()) else Err(Unreachable + ApiError + healthFailure.value)
  }

  /** `call_with_health_check`: the call runs only after a passing health check, and
      every exception from either is rewrapped once more. */
  function CallWithHealthCheck<T>(health: Result<()>, call: Result<T>): Result<T>
  {
    if health.Err? then Err(Unreachable + health.message)
    else if call.Err? then Err(Unreachable + call.message)
    else call
  }

  /** `_api_call_wrapper`: the request is sent before the response type is looked at,
      and every failure leaves as a generic "Weights API Error" exception.
      `healthFailure` is the message of the exception the health request raised, if it
      did; `transport` is the raw response body, or the client error of the request. */
  function ApiCallWrapper(healthFailure: Option<string>, transport: Result<string>,
                          responseType: string): (r: Result<Payload>)
    ensures r.Ok? <==> healthFailure.None? && transport.Ok? && (responseType == "json" || responseType == "text")
    ensures r.Ok? ==> r.value.raw == transport.value && (r.value.JsonPayload? <==> responseType == "json")
    ensures r.Err? ==> |r.message| >= |Unreachable| && r.message[..|Unreachable|] == Unreachable
    ensures healthFailure.Some? ==> r == Err(Unreachable + Unreachable + ApiError + healthFailure.value)
    ensures healthFailure.None? && transport.Err? ==> r == Err(Unreachable + ApiError + transport.message)
    ensures healthFailure.None? && transport.Ok? && responseType != "json" && responseType != "text" ==>
      r == Err(Unreachable + UnsupportedType + responseType)
  {
    var call := match ApiCall(transport)
      case Err(e) => Err(e)
      case Ok(raw) => DecodeAs(responseType, raw);
    CallWithHealthCheck(CheckHealth(healthFailure), call)
  }

  // ---------------------------------------------------------------- public calls

  /** The arguments a public call passes to `_api_call_wrapper`. */
  datatype WrapperCall = WrapperCall(path: string, httpMethod: string, body: Option<Body>, responseType: string)

  function GetStatusCall(imageId: string): WrapperCall
  {
    WrapperCall("/status/" + imageId, "GET", None, "json")
  }

  function GetQuotaCall(): WrapperCall
  {
    WrapperCall("/quota", "GET", None, "text")
  }

  function SearchLorasCall(query: string): WrapperCall
  {
    WrapperCall("/search-loras", "GET", Some([("query", PyStr(query))]), "json")
  }

  function GenerateImageCall(prompt: string, loraName: Option<string>): WrapperCall
  {
    var body := [("prompt", PyStr(prompt)), ("loraName", if loraName.Some? then PyStr(loraName.value) else PyNone)];
    WrapperCall("/generateImage", "GET", Some(body), "json")
  }

  /** The request a public call sends. */
  function Send(endpoint: string, apiKey: Option<string>, c: WrapperCall): HttpRequest
  {
    ShapeApiCall(endpoint, apiKey, c.path, c.httpMethod, c.body)
  }

  /** `generate_image` sends a GET whose query holds the prompt, and the lora name only
      when one is given. */
  lemma GenerateImageQuery(endpoint: string, apiKey: Option<string>, prompt: string, loraName: Option<string>)
    ensures Send(endpoint, apiKey, GenerateImageCall(prompt, loraName))
         == GetWithParams(endpoint + "/generateImage",
                          [("prompt", prompt)] + (if loraName.Some? then [("loraName", loraName.value)] else []),
                          Headers(apiKey))
  {
    var body := GenerateImageCall(prompt, loraName).body.value;
    var head := [("prompt", PyStr(prompt))];
    assert body[..1] == head && head[..0] == [];
    assert QueryParams(head) == [("prompt", prompt)];
  }

  /** `get_status` sends a GET to `endpoint + "/status/" + imageId` with no body. */
  lemma GetStatusRequest(endpoint: string, apiKey: Option<string>, imageId: string)
    ensures Send(endpoint, apiKey, GetStatusCall(imageId))
         == SendJson("GET", endpoint + "/status/" + imageId, None, Headers(apiKey))
    ensures GetStatusCall(imageId).responseType == "json"
  {
  }

  /** `get_quota` sends a GET to `endpoint + "/quota"` with no body and reads the answer
      as text; `search_loras` sends the query as the one query parameter. */
  lemma QuotaAndSearchRequests(endpoint: string, apiKey: Option<string>, query: string)
    ensures Send(endpoint, apiKey, GetQuotaCall()) == SendJson("GET", endpoint + "/quota", None, Headers(apiKey))
    ensures GetQuotaCall().responseType == "text"
    ensures Send(endpoint, apiKey, SearchLorasCall(query))
         == GetWithParams(endpoint + "/search-loras", [("query", query)], Headers(apiKey))
  {
  }
}
