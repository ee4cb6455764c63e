/**
  The upstream client, `makeSupavecRequest`: one authenticated POST to the
  Supavec service, its outcome folded into either the decoded payload or an
  `{error}` record. The network round trip itself is a parameter `fetch`
  mapping the request sent to how the round trip ended.
 */
module Api {
  import opened Wrappers
  import opened JsValue
  import JsonText

  const BaseUrl: string := "https://api.supavec.com"

  /** What `fetch(url, init)` is asked to send. */
  datatype HttpRequest = HttpRequest(
    httpMethod: string,
    url: string,
    headers: seq<(string, string)>,
    body: string)

  /** What `response.json()` made of the response body: a decoded value, or
      the exception it threw, rendered as `${error}` renders it. */
  datatype Body = Parsed(json: Value) | Unparsable(cause: string)

  /** How one round trip ended: `fetch` threw (transport failure), or a
      response with a status code came back. */
  datatype FetchOutcome = Threw(cause: string) | Responded(status: nat, body: Body)

  /** The request for `url` carrying `body`: a POST whose `authorization`
      header is the raw key, with no scheme prefix, and whose body is the
      compact JSON text of `body`. */
  function Request(url: string, body: Value, apiKey: string): (r: HttpRequest)
    ensures r.httpMethod == "POST" && r.url == url
    ensures r.headers == [("authorization", apiKey), ("Content-Type", "application/json")]
    ensures JsonText.Parse(r.body) == Some(body)
  {
    JsonText.StringifyRoundTrip(body);
    HttpRequest("POST", url, [("authorization", apiKey), ("Content-Type", "application/json")],
                JsonText.Stringify(body))
  }

  /** `response.ok`: a status in the range 200-299. */
  predicate IsOk(status: nat) {
    200 <= status <= 299
  }

  /** The round trip delivered a payload: an ok status and a decodable body. */
  predicate Delivers(o: FetchOutcome) {
    o.Responded? && IsOk(o.status) && o.body.Parsed?
  }

  /** The value `{error: message}`. */
  function ErrorRecord(message: string): Value {
    Obj([("error", Str(message))])
  }

  /** The message a failed round trip is reported with. */
  function FailureMessage(o: FetchOutcome): string
    requires !Delivers(o)
  {
    match o
    case Threw(cause) => "Failed to fetch data: " + cause
    case Responded(status, body) =>
      if !IsOk(status) then "Failed to fetch data: status " + NatToString(status)
      else "Failed to fetch data: " + body.cause
  }

  /** `makeSupavecRequest(url, body, apiKey)`: never throws; yields the decoded
      payload, unchanged and unchecked, when one was delivered, and otherwise
      an error record. A non-ok status is reported without reading the body. */
  function MakeSupavecRequest(url: string, body: Value, apiKey: string,
                              fetch: HttpRequest -> FetchOutcome): (r: Value)
    ensures var o := fetch(Request(url, body, apiKey));
      if Delivers(o) then r == o.body.json else r == ErrorRecord(FailureMessage(o))
  {
    match fetch(Request(url, body, apiKey))
    case Threw(cause) => ErrorRecord("Failed to fetch data: " + cause)
    case Responded(status, b) =>
      if !IsOk(status) then ErrorRecord("Failed to fetch data: status " + NatToString(status))
      else
        match b
        case Parsed(v) => v
        case Unparsable(cause) => ErrorRecord("Failed to fetch data: " + cause)
  }

  /** Every failure message starts with the same fixed text; a status failure
      ends with the status code in decimal, which reads back as the status. */
  lemma FailureMessageFormat(o: FetchOutcome)
    requires !Delivers(o)
    ensures var m := FailureMessage(o);
      && |m| >= 22 && m[..22] == "Failed to fetch data: "
      && (o.Responded? && !IsOk(o.status) ==>
            m[..29] == "Failed to fetch data: status "
            && AllDigits(m[29..]) && DigitsValue(m[29..]) == o.status)
      && (o.Threw? ==> m[22..] == o.cause)
  {
    var m := FailureMessage(o);
    if o.Responded? && !IsOk(o.status) {
      var digits := NatToString(o.status);
      assert m == "Failed to fetch data: status " + digits;
      assert m[29..] == digits;
      DigitsValueOfNatToString(o.status);
    } else if o.Threw? {
      assert m[22..] == o.cause;
    } else {
      assert m == "Failed to fetch data: " + o.body.cause;
    }
  }
}
