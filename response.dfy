/**
 * `ThreeScaleAuthorizeResponse` and its usage reports: what `build_auth_response` reads out
 * of the authorize XML.
 */
module Response {
  import opened Wrappers
  import opened Bytes
  import opened Errors
  import opened XmlTree

  /** `ThreeScaleAuthorizeResponseUsageReport` after `add_usage_report` has filled it in. */
  datatype UsageReport = UsageReport(
    metric: Str, period: Str,
    startPeriod: Option<Str>, endPeriod: Option<Str>,
    maxValue: Option<Str>, currentValue: Option<Str>)

  /** What a `ThreeScaleAuthorizeResponse` holds. */
  datatype AuthResult = AuthResult(plan: Option<Str>, reason: Option<Str>, usageReports: seq<UsageReport>)

  const MetricAttribute: Str := "metric"
  const PeriodAttribute: Str := "period"

  /** Whether the element carries both attributes `add_usage_report` reads. */
  predicate HasAttributes(e: Element) {
    MetricAttribute in e.attrib && PeriodAttribute in e.attrib
  }

  /** The fields of the report: the two attributes, and four child texts that are None when the child is missing. */
  function ReportFields(e: Element): (u: UsageReport)
    requires HasAttributes(e)
    ensures u.metric == e.attrib[MetricAttribute] && u.period == e.attrib[PeriodAttribute]
  {
    UsageReport(e.attrib[MetricAttribute], e.attrib[PeriodAttribute],
      FindText(e, "period_start"), FindText(e, "period_end"),
      FindText(e, "max_value"), FindText(e, "current_value"))
  }

  /**
   * The four other fields are what `findtext` gives for `period_start`, `period_end`,
   * `max_value` and `current_value`: the first such child's text, `""` when it has none,
   * None when there is no such child.
   */
  lemma ReportFieldsTexts(e: Element)
    requires HasAttributes(e)
    ensures IsFirstText(e, "period_start", ReportFields(e).startPeriod)
    ensures IsFirstText(e, "period_end", ReportFields(e).endPeriod)
    ensures IsFirstText(e, "max_value", ReportFields(e).maxValue)
    ensures IsFirstText(e, "current_value", ReportFields(e).currentValue)
  {
    FindTextFirst(e, "period_start");
    FindTextFirst(e, "period_end");
    FindTextFirst(e, "max_value");
    FindTextFirst(e, "current_value");
  }

  /**
   * The report `add_usage_report` builds from one `usage_report` element: `xml.attrib['metric']`
   * is read first and `xml.attrib['period']` second, and either raises `KeyError` when missing.
   */
  function ReportOf(e: Element): (r: Result<UsageReport, Error>)
    ensures r.Ok? <==> HasAttributes(e)
    ensures MetricAttribute !in e.attrib ==> r == Err(KeyError(MetricAttribute))
    ensures MetricAttribute in e.attrib && PeriodAttribute !in e.attrib ==> r == Err(KeyError(PeriodAttribute))
  {
    if MetricAttribute !in e.attrib then Err(KeyError(MetricAttribute))
    else if PeriodAttribute !in e.attrib then Err(KeyError(PeriodAttribute))
    else Ok(ReportFields(e))
  }

  /** The loop of `build_auth_response` after its first `n` reports. */
  function Reports(es: seq<Element>, n: nat): Result<seq<UsageReport>, Error>
    requires n <= |es|
  {
    if n == 0 then Ok([])
    else
      var done :- Reports(es, n - 1);
      var report :- ReportOf(es[n - 1]);
      Ok(done + [report])
  }

  /** The loop succeeds exactly when every element has both attributes. */
  lemma {:induction false} ReportsOk(es: seq<Element>, n: nat)
    requires n <= |es|
    ensures Reports(es, n).Ok? <==> forall i :: 0 <= i < n ==> HasAttributes(es[i])
  {
    if n > 0 {
      ReportsOk(es, n - 1);
    }
  }

  /** One more pass of the loop of `build_auth_response`. */
  lemma ReportsStep(es: seq<Element>, k: nat)
    requires k < |es| && Reports(es, k).Ok? && ReportOf(es[k]).Ok?
    ensures Reports(es, k + 1) == Ok(Reports(es, k).value + [ReportFields(es[k])])
  {
  }

  /** A successful loop keeps one report per element, in order. */
  lemma {:induction false} ReportsValues(es: seq<Element>, n: nat)
    requires n <= |es| && Reports(es, n).Ok?
    ensures |Reports(es, n).value| == n
    ensures forall i :: 0 <= i < n ==> HasAttributes(es[i]) && Reports(es, n).value[i] == ReportFields(es[i])
  {
    if n > 0 {
      assert Reports(es, n - 1).Ok? && ReportOf(es[n - 1]).Ok?;
      ReportsValues(es, n - 1);
      ReportsStep(es, n - 1);
    }
  }

  /** When the loop fails, it raises what the first bad element raises. */
  lemma {:induction false} ReportsFirstFailure(es: seq<Element>, n: nat)
    requires n <= |es| && Reports(es, n).Err?
    ensures exists k :: (0 <= k < n && (forall i :: 0 <= i < k ==> ReportOf(es[i]).Ok?) &&
      ReportOf(es[k]) == Err(Reports(es, n).error))
  {
    ReportsOk(es, n - 1);
    if Reports(es, n - 1).Err? {
      ReportsFirstFailure(es, n - 1);
    } else {
      assert ReportOf(es[n - 1]) == Err(Reports(es, n).error);
    }
  }

  /** The path `build_auth_response` hands to `findall`. */
  const ReportsTag: Str := "usage_reports"
  const ReportTag: Str := "usage_report"

  /** The three reads of `build_auth_response` on a parsed document. */
  function Decode(authorized: bool, doc: Element): Result<AuthResult, Error> {
    var plan := FindText(doc, "plan");
    var reason := if authorized then None else FindText(doc, "reason");
    var found := FindAll(doc, ReportsTag, ReportTag);
    var reports :- Reports(found, |found|);
    Ok(AuthResult(plan, reason, reports))
  }

  /**
   * `build_auth_response`, where `parse` stands for `fromstring`. `fromstring(None)` fails
   * like a malformed document, and any failure of it becomes "Invalid xml".
   */
  function AuthResponseOf(authorized: bool, authXml: Option<Str>, parse: Str -> Option<Element>): Result<AuthResult, Error> {
    if authXml.None? then Err(InvalidXml)
    else match parse(authXml.value)
      case None => Err(InvalidXml)
      case Some(doc) => Decode(authorized, doc)
  }

  /**
   * The decoded response: the plan is the first `plan` child's text, the reason is read only
   * for a refused call, and there is one report per `usage_reports/usage_report` element, in
   * document order.
   */
  lemma DecodeFields(authorized: bool, doc: Element)
    ensures Decode(authorized, doc).Ok? <==>
      forall i :: 0 <= i < |FindAll(doc, ReportsTag, ReportTag)| ==> HasAttributes(FindAll(doc, ReportsTag, ReportTag)[i])
    ensures Decode(authorized, doc).Ok? ==> Decode(authorized, doc).value.plan == FindText(doc, "plan")
    ensures Decode(authorized, doc).Ok? ==> Decode(authorized, doc).value.reason == (if authorized then None else FindText(doc, "reason"))
    ensures Decode(authorized, doc).Ok? ==>
      var found := FindAll(doc, ReportsTag, ReportTag);
      var reports := Decode(authorized, doc).value.usageReports;
      |reports| == |found| && forall i :: 0 <= i < |found| ==> HasAttributes(found[i]) && reports[i] == ReportFields(found[i])
  {
    var found := FindAll(doc, ReportsTag, ReportTag);
    ReportsOk(found, |found|);
    if Reports(found, |found|).Ok? {
      ReportsValues(found, |found|);
    }
  }

  /** Without any `usage_reports` element the response has no usage reports and cannot fail. */
  lemma DecodeNoReports(authorized: bool, doc: Element)
    requires forall j :: 0 <= j < |doc.children| ==> doc.children[j].tag != ReportsTag
    ensures Decode(authorized, doc).Ok? && Decode(authorized, doc).value.usageReports == []
  {
    FindAllNone(doc, ReportsTag, ReportTag);
  }

  /** `ThreeScaleAuthorizeResponse`: filled in by `build_auth_response`. */
  class AuthorizeResponse {
    var plan: Option<Str>
    var reason: Option<Str>
    var usageReports: seq<UsageReport>

    constructor ()
      ensures Value() == AuthResult(None, None, [])
    {
      plan := None;
      reason := None;
      usageReports := [];
    }

    function Value(): AuthResult
      reads this
    {
      AuthResult(plan, reason, usageReports)
    }

    method SetPlan(plan: Option<Str>)
      modifies this
      ensures Value() == old(Value()).(plan := plan)
    {
      this.plan := plan;
    }

    method SetReason(reason: Option<Str>)
      modifies this
      ensures Value() == old(Value()).(reason := reason)
    {
      this.reason := reason;
    }

    /**
     * `add_usage_report(xml)`: appends the report built from the element; when an attribute
     * is missing the `KeyError` escapes and the list is left as it was.
     */
    method AddUsageReport(xml: Element) returns (err: Option<Error>)
      modifies this
      ensures plan == old(plan) && reason == old(reason)
      ensures HasAttributes(xml) ==> err == None && usageReports == old(usageReports) + [ReportFields(xml)]
      ensures !HasAttributes(xml) ==> err == Some(ReportOf(xml).error) && usageReports == old(usageReports)
    {
      if MetricAttribute !in xml.attrib {
        return Some(KeyError(MetricAttribute));
      }
      var metric := xml.attrib[MetricAttribute];
      if PeriodAttribute !in xml.attrib {
        return Some(KeyError(PeriodAttribute));
      }
      var period := xml.attrib[PeriodAttribute];
      var start := FindText(xml, "period_start");
      var end := FindText(xml, "period_end");
      var report := UsageReport(metric, period, start, end, FindText(xml, "max_value"), FindText(xml, "current_value"));
      usageReports := usageReports + [report];
      return None;
    }
  }
}
