/**
 * `ThreeScaleAuthorize` and `ThreeScaleAuthorizeUserKey`: validate the credentials, send the
 * authorize GET, remember whether it was authorized and the XML that came back, and decode
 * that XML into a `ThreeScaleAuthorizeResponse`.
 */
module Authorization {
  import opened Wrappers
  import opened Bytes
  import opened Errors
  import opened Urls
  import opened Transport
  import opened Credentials
  import opened XmlTree
  import opened Response

  /** The status the service answers with when the credentials are right but the call is refused. */
  const Conflict: int := 409

  /** `"%s?%s" % (auth_url, query_str)` */
  function QueryUrl(variant: Variant, keys: Keys, endpoint: Endpoint): Str {
    AuthUrl(endpoint) + "?" + QueryString(variant, keys)
  }

  /** The request names the authorize endpoint and, after the `?`, exactly the variant's parameters. */
  lemma QueryUrlCarries(variant: Variant, keys: Keys, endpoint: Endpoint)
    requires '?' !in AuthUrl(endpoint)
    ensures Before(QueryUrl(variant, keys, endpoint), '?') == AuthUrl(endpoint)
    ensures ParseQuery(After(QueryUrl(variant, keys, endpoint), '?')) == QueryParams(variant, keys)
  {
    BeforeAfter(AuthUrl(endpoint), '?', QueryString(variant, keys));
    QueryStringCarries(variant, keys);
  }

  /** Once one report element lacks an attribute, the loop over the reports raises its `KeyError`. */
  lemma {:induction false} ReportsFailFrom(es: seq<Element>, k: nat, n: nat)
    requires k < n <= |es|
    requires Reports(es, k).Ok? && ReportOf(es[k]).Err?
    ensures Reports(es, n) == Err(ReportOf(es[k]).error)
    decreases n
  {
    if n > k + 1 {
      ReportsFailFrom(es, k, n - 1);
    }
  }

  /** What `build_auth_response` returns for a document that parsed. */
  lemma AuthResponseParsed(authorized: bool, authXml: Option<Str>, parse: Str -> Option<Element>)
    requires authXml.Some? && parse(authXml.value).Some?
    ensures var doc := parse(authXml.value).value;
      var found := FindAll(doc, ReportsTag, ReportTag);
      AuthResponseOf(authorized, authXml, parse) ==
        if Reports(found, |found|).Ok?
        then Ok(AuthResult(FindText(doc, "plan"), if authorized then None else FindText(doc, "reason"), Reports(found, |found|).value))
        else Err(Reports(found, |found|).error)
  {
  }

  class Authorizer {
    const variant: Variant
    const keys: Keys
    const endpoint: Endpoint
    /** `self.authorized` */
    var authorized: bool
    /** `self.auth_xml` */
    var authXml: Option<Str>

    /**
     * The constructor of either class. The program creates `authorized` and `auth_xml` only in
     * `authorize`; here they start with the values `authorize` gives them first.
     */
    constructor (variant: Variant, keys: Keys)
      ensures this.variant == variant && this.keys == keys && endpoint == DefaultEndpoint
      ensures !authorized && authXml == None
      ensures Valid()
    {
      this.variant := variant;
      this.keys := keys;
      endpoint := DefaultEndpoint;
      authorized := false;
      authXml := None;
    }

    /** An authorized call always kept the body it received. */
    predicate Valid()
      reads this
    {
      authorized ==> authXml.Some?
    }

    /** `validate`: collects the missing credentials in a list and raises once with all of them. */
    method Validate() returns (err: Option<Error>)
      ensures err == ValidationError(variant, keys)
    {
      var errs: seq<Str> := [];
      var id := if variant.AppIdAuth? then keys.appId else keys.userKey;
      if !Truthy(id) {
        errs := errs + [IdentifierMissing(variant)];
      }
      if !Truthy(keys.providerKey) {
        errs := errs + [ProviderKeyMissing];
      }
      if |errs| > 0 {
        return Some(InvalidCredentials(Join(": ", errs)));
      }
      return None;
    }

    /**
     * `authorize()`, with what the transport does given as `outcome`. Both fields are reset
     * before validation, so an invalid call sends nothing and leaves them reset; a 409 is a
     * refusal that keeps its body, every other failure raises and keeps nothing.
     */
    method Authorize(outcome: Outcome) returns (r: Result<bool, Error>, sent: Option<Request>)
      modifies this
      ensures Valid()
      ensures r.Ok? ==> r.value == authorized && authXml.Some?
      ensures r.Err? ==> !authorized && authXml == None
      ensures r.Err? ==> IsThreeScaleException(r.error)
      ensures ValidationError(variant, keys).Some? ==> r == Err(ValidationError(variant, keys).value) && sent == None
      ensures ValidationError(variant, keys).None? ==> sent == Some(Get(QueryUrl(variant, keys, endpoint)))
      ensures sent.Some? && outcome.Success? ==> r == Ok(true) && authXml == Some(outcome.body)
      ensures sent.Some? && outcome.HttpError? && outcome.code == Conflict ==> r == Ok(false) && authXml == Some(outcome.body)
      ensures sent.Some? && outcome.HttpError? && outcome.code != Conflict ==> r == Err(ServerError(AuthUrl(endpoint), outcome.code))
      ensures sent.Some? && outcome.UrlError? ==> r == Err(ConnectionError(AuthUrl(endpoint)))
      ensures sent.Some? && outcome.OtherFailure? ==> r == Err(UnknownError(AuthUrl(endpoint)))
    {
      authorized := false;
      authXml := None;
      var invalid := Validate();
      if invalid.Some? {
        return Err(invalid.value), None;
      }
      var authUrl := AuthUrl(endpoint);
      var queryStr := QueryString(variant, keys);
      var queryUrl := authUrl + "?" + queryStr;
      sent := Some(Get(queryUrl));
      match outcome
      case Success(body) =>
        authorized := true;
        authXml := Some(body);
        r := Ok(true);
      case HttpError(code, body) =>
        if code == Conflict {
          authorized := false;
          authXml := Some(body);
          r := Ok(false);
        } else {
          r := Err(ServerError(authUrl, code));
        }
      case UrlError =>
        r := Err(ConnectionError(authUrl));
      case OtherFailure =>
        r := Err(UnknownError(authUrl));
    }

    /**
     * `build_auth_response()`, where `parse` stands for `fromstring`: the response object is
     * filled in with the plan, the reason for a refused call, and one report per element.
     */
    method BuildAuthResponse(parse: Str -> Option<Element>) returns (r: Result<AuthorizeResponse, Error>)
      ensures r.Ok? <==> AuthResponseOf(authorized, authXml, parse).Ok?
      ensures r.Err? ==> r.error == AuthResponseOf(authorized, authXml, parse).error
      ensures r.Ok? ==> fresh(r.value) && r.value.Value() == AuthResponseOf(authorized, authXml, parse).value
    {
      var resp := new AuthorizeResponse();
      if authXml.None? {
        return Err(InvalidXml);
      }
      var parsed := parse(authXml.value);
      if parsed.None? {
        return Err(InvalidXml);
      }
      var xml := parsed.value;
      var plan := FindText(xml, "plan");
      resp.SetPlan(plan);
      var reason := None;
      if !authorized {
        reason := FindText(xml, "reason");
        resp.SetReason(reason);
      }
      var reports := FindAll(xml, ReportsTag, ReportTag);
      var failure := AddReports(resp, reports);
      AuthResponseParsed(authorized, authXml, parse);
      if failure.Some? {
        return Err(failure.value);
      }
      return Ok(resp);
    }

    /** The loop of `build_auth_response` over the report elements, in document order. */
    static method AddReports(resp: AuthorizeResponse, reports: seq<Element>) returns (failure: Option<Error>)
      modifies resp
      ensures failure.Some? <==> Reports(reports, |reports|).Err?
      ensures failure.Some? ==> failure.value == Reports(reports, |reports|).error
      ensures resp.plan == old(resp.plan) && resp.reason == old(resp.reason)
      ensures failure.None? ==> resp.usageReports == old(resp.usageReports) + Reports(reports, |reports|).value
    {
      var i := 0;
      while i < |reports|
        invariant 0 <= i <= |reports|
        invariant Reports(reports, i).Ok?
        invariant resp.plan == old(resp.plan) && resp.reason == old(resp.reason)
        invariant resp.usageReports == old(resp.usageReports) + Reports(reports, i).value
      {
        var err := resp.AddUsageReport(reports[i]);
        if err.Some? {
          ReportsFailFrom(reports, i, |reports|);
          return err;
        }
        ReportsStep(reports, i);
        assert resp.usageReports == old(resp.usageReports) + Reports(reports, i + 1).value by {
          var before := old(resp.usageReports);
          assert before + Reports(reports, i).value + [ReportFields(reports[i])] ==
            before + (Reports(reports, i).value + [ReportFields(reports[i])]);
        }
        i := i + 1;
      }
      return None;
    }
  }

  /** A call that came back authorized never carries a reason in its decoded response. */
  lemma AuthorizedHasNoReason(authXml: Option<Str>, parse: Str -> Option<Element>)
    requires AuthResponseOf(true, authXml, parse).Ok?
    ensures AuthResponseOf(true, authXml, parse).value.reason == None
  {
    DecodeFields(true, parse(authXml.value).value);
  }
}
