/**
 * The pre-accept filter `WebSocketServer._http_response`: a request whose
 * `Connection` and `Upgrade` headers ask for a WebSocket upgrade proceeds;
 * any other request gets a fixed plain-text "running" response.
 */
module HttpFilter {
  import opened Wrappers
  import opened Text
  import opened Identity

  /** `(status, headers, body)` as returned to the websockets library. */
  datatype HttpResponse = HttpResponse(status: nat, headers: seq<(string, string)>, body: seq<byte>)

  const HealthText := "Server is running\n"

  /** The fixed response for anything that is not an upgrade request. */
  function HealthResponse(): (r: HttpResponse)
    ensures r.status == 200
    ensures |r.body| == 18 && forall k :: 0 <= k < 18 ==> r.body[k] as int == HealthText[k] as int
    ensures |r.headers| == 2
    ensures r.headers[0] == ("Content-Type", "text/plain; charset=utf-8")
    ensures r.headers[1] == ("Content-Length", "18")
    // the advertised length is the body's length
    ensures r.headers[1].0 == "Content-Length" && ParseDecimal(r.headers[1].1) == |r.body|
  {
    var body := AsciiBytes(HealthText);
    assert DecimalString(18) == "18";
    DecimalRoundTrip(|body|);
    HttpResponse(200, [("Content-Type", "text/plain; charset=utf-8"), ("Content-Length", DecimalString(|body|))], body)
  }

  /** `header_get(name)`: a case-insensitive lookup whose missing or empty value reads as `""`. */
  function HeaderValue(items: HeaderItems, name: string): string {
    HeaderOf(items, Lower(name)).GetOr("")
  }

  /** The `Connection` header names the `upgrade` option somewhere, in any case. */
  ghost predicate AsksForUpgrade(connection: string) {
    exists i: nat :: OccursIgnoringCaseAt(connection, "upgrade", i)
  }

  /** `None` lets the handshake proceed; `Some(response)` answers the plain HTTP request. */
  function ProcessRequest(items: HeaderItems): (r: Option<HttpResponse>)
    ensures r.None? <==>
              AsksForUpgrade(HeaderValue(items, "Connection")) &&
              EqualsIgnoringCase(HeaderValue(items, "Upgrade"), "websocket")
    ensures r.Some? ==> r.value == HealthResponse()
  {
    var connection := HeaderValue(items, "Connection");
    var upgrade := HeaderValue(items, "Upgrade");
    ContainsLowerIffOccursIgnoringCase(connection, "upgrade");
    LowerEqualsIffEqualsIgnoringCase(upgrade, "websocket");
    if Contains(Lower(connection), "upgrade") && Lower(upgrade) == "websocket" then None
    else Some(HealthResponse())
  }

  /** A request without any `Connection` header is answered with the health response. */
  lemma NoConnectionHeaderIsHealthCheck(items: HeaderItems)
    requires forall j :: 0 <= j < |items| ==> Lower(items[j].0) != "connection"
    ensures ProcessRequest(items) == Some(HealthResponse())
  {
    LowerKeysAbsent(items, "connection");
    assert Lower("Connection") == "connection";
    assert !OccursIgnoringCaseAt("", "upgrade", 0);
  }
}
