/** The service endpoints: `get_base_url`, `get_auth_url`, `get_report_url`. */
module Urls {
  import opened Bytes

  /** The `protocol` and `domain` attributes every client object carries. */
  datatype Endpoint = Endpoint(protocol: Str, domain: Str)

  /** What the constructor sets: plain HTTP to the hosted service. */
  const DefaultEndpoint: Endpoint := Endpoint("http", "su1.3scale.net")

  function BaseUrl(e: Endpoint): Str {
    e.protocol + "://" + e.domain
  }

  function AuthUrl(e: Endpoint): Str {
    BaseUrl(e) + "/transactions/authorize.xml"
  }

  function ReportUrl(e: Endpoint): Str {
    BaseUrl(e) + "/transactions.xml"
  }

  /** Both endpoints extend the base URL, and they never coincide. */
  lemma EndpointsDistinct(e: Endpoint)
    ensures BaseUrl(e) <= AuthUrl(e) && BaseUrl(e) <= ReportUrl(e)
    ensures AuthUrl(e) != ReportUrl(e)
  {
    var b := BaseUrl(e);
    assert AuthUrl(e)[|b| + 13] == '/';
    assert ReportUrl(e)[|b| + 13] == '.';
  }

  /** Where one protocol ends, the base URL holds a colon; inside the other it does not. */
  lemma ColonAt(short: Endpoint, long: Endpoint)
    ensures |short.protocol| < |long.protocol| ==>
      BaseUrl(short)[|short.protocol|] == ':' && BaseUrl(long)[|short.protocol|] == long.protocol[|short.protocol|]
  {
  }

  /** A base URL names one protocol and one domain, when the protocol holds no colon. */
  lemma BaseUrlInjective(e1: Endpoint, e2: Endpoint)
    requires ':' !in e1.protocol && ':' !in e2.protocol
    requires BaseUrl(e1) == BaseUrl(e2)
    ensures e1 == e2
  {
    var u := BaseUrl(e1);
    var p1, p2 := e1.protocol, e2.protocol;
    if |p1| < |p2| {
      ColonAt(e1, e2);
      assert false;
    } else if |p2| < |p1| {
      ColonAt(e2, e1);
      assert false;
    }
    assert p1 == u[..|p1|] == p2;
    assert e1.domain == u[|p1| + 3..] == e2.domain;
  }
}
