# 3scale Python client, modelled in Dafny

`ThreeScalePY.py` is a small Python 2 client for the 3scale API management service. It has two calls:

- **authorize** checks an application's credentials. It sends a GET to `/transactions/authorize.xml` and decodes the XML answer into a plan, a reason and a list of usage reports.
- **report** posts usage. It flattens a list of nested transaction dicts into one form body: `provider_key=<key>&transactions[0][app_id]=...&transactions[0][usage][hits]=...`.

This project models everything between the caller and the two foreign layers, `urllib2` and ElementTree, and proves properties of that model.

The Python classes keep their shape:

- `ThreeScaleAuthorize` and `ThreeScaleAuthorizeUserKey` become one class, `Authorization.Authorizer`. A `Variant` chooses which of the two is meant.
  - Each object holds the `authorized` and `auth_xml` fields that `authorize()` updates.
- `ThreeScaleAuthorizeResponse` becomes `Response.AuthorizeResponse`.
- `ThreeScaleReport` becomes `Reporting.Reporter`. Its methods keep the loops of `encode_transactions` and `encode_recursive`.
- Each of these methods is proved against a pure specification function: `EncodedTransactions`, `Encoded`, `PostBody`, `ValidationError` and `AuthResponseOf`.
- The properties themselves are proved about those functions. They cover:
  - the exact body and its form decoding;
  - error cases and error order;
  - the escaping rules and the timestamp format;
  - the query string round trip;
  - the URLs.

The modules are:

- `Bytes`: a Python 2 `str` as a sequence of bytes, including `str(int)`, `%02d` and `join`. `Split`, `Before` and `After` are not in the program: they are the receiving side's decoder, kept for the round-trip lemmas.
- `Quoting`: `urllib.quote` and `urllib.quote_plus`. `UnquotePlus` and `FormPair` are the receiving side's form decoder, which the program never calls; the round-trip lemmas use them.
- `Timestamps`: the `%Y-%m-%d %H:%M:%S %z` format.
- `Values`: transaction values and `str()`.
- `Errors`: the exceptions the library raises.
- `Urls`: the service endpoints.
- `Transport`: what is asked of `urllib2` and what it returns.
- `Credentials`: `validate` and `get_query_string`.
- `Encoding`: the report body as functions, plus a reference description as a list of form parameters.
- `Reporting`: the report class.
- `XmlTree`: elements, `findtext` and `findall`.
- `Response`: usage reports and the response object.
- `Authorization`: the authorize classes.

Python 2 `str` values are bytes. A `Byte` is a `char` below 256, so string literals read as in the program.

The `ThreeScaleAuthorizeUserKey.validate` message reads "User key defined", without "not". The model keeps that text as the program has it (`Credentials.UserKeyMissing`).

Some behaviours of the code worth knowing:

- For a bad timestamp, the exception names the value, not the index of the transaction.
- A missing `metric` or `period` attribute raises a plain `KeyError` that the library does not wrap.
- `findtext` gives `""` for a child that exists but has no text, and None only for a missing child.
- The server-error message carries the URL and the `HTTPError`, and no body.
- The provider key (`build_post_data`) and the dict keys (`encode_recursive`) go into the report body unescaped. A `+`, `%`, `&` or `=` in them is therefore read differently by a form decoder: `Encoding.UnescapedKeyExample` shows a key `a+b` read back as `a b`.

## Model

| member | source | states |
|---|---|---|
| Urls.EndpointsDistinct | ThreeScalePY.py:75-89 | both service URLs extend the base URL `protocol://domain`, and the authorize URL never equals the report URL |
| Urls.BaseUrlInjective | ThreeScalePY.py:75-79 | when the protocol holds no colon, the base URL determines protocol and domain |
| Credentials.ValidationError | ThreeScalePY.py:116-124 | validation fails iff the variant's identifier or the provider key is falsy; the message lists the identifier message first, then "Provider key not defined", joined by ": "; each of the three failing cases has its exact message |
| Credentials.ValidationIgnoresOtherKeys | ThreeScalePY.py:116-124 | the outcome of `validate` depends only on the provider key and the variant's own identifier; the app key is never checked |
| Authorization.Authorizer.Validate | ThreeScalePY.py:219-227 | the method that appends to the `err` list and joins it raises exactly what `ValidationError` describes, for both variants |
| Credentials.UrlEncodeRoundTrip | ThreeScalePY.py:104 | form-decoding `urlencode(params)` gives back exactly the parameters, in order, whatever bytes they hold |
| Credentials.QueryStringCarries | ThreeScalePY.py:96-104 | the query string carries exactly `app_id`, `app_key`, `provider_key` (or `user_key`, `provider_key`) with their `str()` values, `None` included |
| Authorization.QueryUrlCarries | ThreeScalePY.py:142-145 | the request URL is the authorize URL, then `?`, then a query that decodes to the variant's parameters |
| Authorization.Authorizer.Authorize | ThreeScalePY.py:138-167 | both fields are reset first; if validation fails, nothing is sent; otherwise one GET of the query URL is sent, and the outcome decides the result: success gives True and keeps the body; 409 gives False and keeps the error body; any other HTTP status gives `ThreeScaleServerError` with the code; a URL error gives `ThreeScaleConnectionError`; anything else gives `ThreeScaleException`; every error leaves `authorized` false and `auth_xml` None and is a `ThreeScaleException`; `Valid()` holds after every call |
| Authorization.Authorizer.BuildAuthResponse | ThreeScalePY.py:180-194 | the method fails exactly when `AuthResponseOf` fails, with the same error; otherwise it returns a new response object whose contents equal `AuthResponseOf` |
| Authorization.Authorizer.AddReports | ThreeScalePY.py:191-193 | the loop appends one report per element, in order, or stops with the first element's `KeyError`; plan and reason stay untouched |
| Authorization.AuthorizedHasNoReason | ThreeScalePY.py:189-190 | a response decoded after an authorized call has no reason |
| Response.ReportOf | ThreeScalePY.py:324-326 | a report exists exactly when both attributes are present; a missing `metric` raises `KeyError('metric')` even when `period` is missing too; otherwise a missing `period` raises `KeyError('period')` |
| Response.ReportFields | ThreeScalePY.py:324-331 | metric and period are the element's attributes |
| Response.ReportFieldsTexts | ThreeScalePY.py:327-331 | start, end, max value and current value are each what `findtext` promises for `period_start`, `period_end`, `max_value` and `current_value`: None when no child has the tag, otherwise the first such child's text, `""` when it has none |
| Response.ReportsOk | ThreeScalePY.py:191-193 | decoding the report list succeeds iff every `usage_report` element has both attributes |
| Response.ReportsValues | ThreeScalePY.py:191-193 | a successful decoding has exactly one report per element, the i-th built from the i-th element |
| Response.ReportsFirstFailure | ThreeScalePY.py:191-193 | a failing decoding raises the error of the first element that lacks an attribute |
| Response.DecodeFields | ThreeScalePY.py:187-193 | the decoded plan is `findtext('plan')`; the reason is `findtext('reason')` for a call that was not authorized and None otherwise; the reports follow `findall('usage_reports/usage_report')` one to one, in document order; decoding fails iff some report element lacks an attribute |
| Response.DecodeNoReports | ThreeScalePY.py:191-193 | a document without `usage_reports` decodes without error and with an empty report list |
| Response.AuthorizeResponse.constructor | ThreeScalePY.py:302-305 | a new response has no plan, no reason and no reports |
| Response.AuthorizeResponse.SetPlan | ThreeScalePY.py:307-308 | sets the plan and nothing else |
| Response.AuthorizeResponse.SetReason | ThreeScalePY.py:313-314 | sets the reason and nothing else |
| Response.AuthorizeResponse.AddUsageReport | ThreeScalePY.py:319-332 | with both attributes present, exactly one report from that element is appended; otherwise the `KeyError` escapes and the list is unchanged; plan and reason are never touched |
| XmlTree.FirstWith | ThreeScalePY.py:187 | gives the position of the first element with the tag, or None when no element has it |
| XmlTree.FindTextFirst | ThreeScalePY.py:327-331 | `findtext` meets `IsFirstText`: it is None iff no child has the tag; otherwise it is the text of the first such child, or `""` when that child has no text |
| XmlTree.Tagged | ThreeScalePY.py:191 | keeps only elements with the tag, and never more elements than it was given |
| XmlTree.TaggedMembers | ThreeScalePY.py:191 | the filter keeps exactly the elements with the tag |
| XmlTree.TaggedAppend | ThreeScalePY.py:191 | the filter keeps document order |
| XmlTree.ChildrenTaggedMembers | ThreeScalePY.py:191 | the grandchild search finds exactly the tagged children of the given parents |
| XmlTree.FindAllMembers | ThreeScalePY.py:191 | `findall('outer/inner')` finds exactly the `inner` elements whose parent is an `outer` child of the document |
| XmlTree.FindAllNone | ThreeScalePY.py:191 | without an `outer` child, `findall` finds nothing |
| Quoting.PercentEscape | ThreeScalePY.py:432 | an escape is `%` and two hex digits whose value is the byte |
| Quoting.Quote | ThreeScalePY.py:432 | every output byte is a letter, a digit, `_.-`, a byte of the safe set, or `%` |
| Quoting.QuotePlus | ThreeScalePY.py:104 | every output byte is a letter, a digit, `_.-`, `+`, or `%` |
| Quoting.UnquotePlusQuote | ThreeScalePY.py:432 | form decoding undoes `quote` for any safe set without `%` and `+` |
| Quoting.UnquotePlusPlain | ThreeScalePY.py:394 | form decoding leaves text without `%` and `+` unchanged, as it does the unescaped provider key |
| Quoting.PlusDecoded | ThreeScalePY.py:394 | form decoding reads `a+b` as `a b` |
| Quoting.UnquotePlusQuotePlus | ThreeScalePY.py:104 | form decoding undoes `quote_plus` for every input |
| Quoting.QuoteUnchanged | ThreeScalePY.py:432 | `quote` returns its argument unchanged iff every byte of it is safe |
| Quoting.QuoteLength | ThreeScalePY.py:432 | `quote` never shortens its argument |
| Quoting.QuoteAppend | ThreeScalePY.py:432 | `quote` distributes over concatenation |
| Quoting.DecimalUnquoted | ThreeScalePY.py:432 | `quote(str(n))` is `str(n)` for every integer |
| Bytes.DigitChar | ThreeScalePY.py:407 | a digit value becomes a digit byte |
| Bytes.Digits | ThreeScalePY.py:407 | `str(n)` for a natural number is a nonempty run of digits |
| Bytes.Padded | ThreeScalePY.py:426 | a zero-padded field has exactly the field width, all digits |
| Bytes.DigitsRoundTrip | ThreeScalePY.py:407 | reading the digits of `str(n)` back gives `n` |
| Bytes.PaddedRoundTrip | ThreeScalePY.py:426 | a zero-padded field reads back to its number when the number fits the width |
| Bytes.JoinTwo | ThreeScalePY.py:124 | joining two parts puts the separator between them |
| Bytes.Split | ThreeScalePY.py:104 | splitting always yields at least one piece |
| Bytes.SplitJoin | ThreeScalePY.py:104 | splitting a join at its one-byte separator gives back the parts, when no part holds it |
| Bytes.BeforeAfter | ThreeScalePY.py:145 | cutting at the first separator recovers both sides when the left side has none |
| Timestamps.Zone | ThreeScalePY.py:426 | the `%z` offset is five bytes |
| Timestamps.DatePart | ThreeScalePY.py:426 | `%Y-%m-%d` is ten bytes |
| Timestamps.ClockPart | ThreeScalePY.py:426 | `%H:%M:%S` is eight bytes |
| Timestamps.Strftime | ThreeScalePY.py:426 | formatting succeeds iff the time is in range, and then gives 25 bytes |
| Timestamps.StrftimeRoundTrip | ThreeScalePY.py:426 | parsing the formatted text gives back year, month, day, hour, minute, second and offset |
| Encoding.EncodedFieldsRender | ThreeScalePY.py:413-434 | encoding a dict succeeds iff every `usage` value is a dict of the same kind and every `timestamp` is formattable; on success the text equals rendering its parameter list, with nested `usage` keys under `prefix[usage]` |
| Encoding.EncodedEntryRender | ThreeScalePY.py:419-432 | the same for one key: `usage` recurses, `timestamp` is formatted, any other value is `str()`-ed; each gives `prefix[key]=` and the escaped text |
| Encoding.EncodedItemsOk | ThreeScalePY.py:403-411 | encoding the transactions succeeds iff every transaction is an encodable dict |
| Encoding.EncodedItemsRender | ThreeScalePY.py:405-411 | on success, the body after the provider key is the parameters of transaction 0, then 1, and so on, each under `&transactions[i]` |
| Encoding.PostBodyCases | ThreeScalePY.py:393-404 | a non-iterable argument gives "Invalid transaction type"; a list encodes iff each transaction is encodable; an empty list gives just `provider_key=<key>` |
| Encoding.PostBodyParses | ThreeScalePY.py:393-434 | when neither the provider key nor any dict key holds a byte the form decoder treats specially (`&`, `%` and `+`, and `=` in a key), form-decoding the body, names and values alike, gives `provider_key` with its value, then every transaction's parameters, in order, with their original text |
| Encoding.ParseFormBody | ThreeScalePY.py:393-394 | the provider key field followed by rendered parameters with plain names form-decodes to exactly those |
| Encoding.UnescapedKeyExample | ThreeScalePY.py:394 | a provider key `a+b`, written unescaped, is read back by the form decoder as `a b` |
| Encoding.EscapePlain | ThreeScalePY.py:432 | an escaped value never holds `&`, `=`, `+`, `[` or `]`, and form decoding gives the value back |
| Encoding.ParamsNames | ThreeScalePY.py:419-432 | each parameter name of a dict with plain keys is the prefix followed by plain text |
| Encoding.ItemParamsNames | ThreeScalePY.py:406-408 | each parameter name of a transaction list starts with `&` followed by plain text |
| Encoding.EscapedTimestamp | ThreeScalePY.py:426 | after escaping, a formatted timestamp is its date, `%20`, hour, `%3A`, minute, `%3A`, second, `%20`, then `-` or `%2B` and the four offset digits |
| Encoding.EncodedTimestamp | ThreeScalePY.py:423-426 | a formattable timestamp becomes `prefix[timestamp]=` followed by its escaped text |
| Encoding.ExampleBody | ThreeScalePY.py:393-434 | `[{app_id: "a1", usage: {hits: 1}}]` with provider key `pk` gives `provider_key=pk&transactions[0][app_id]=a1&transactions[0][usage][hits]=1` |
| Encoding.ExampleTimestamp | ThreeScalePY.py:423-426 | 2021-03-04 10:20:30 at offset zero gives `&transactions[0][timestamp]=2021-03-04%2010%3A20%3A30%20%2B0000` |
| Reporting.Reporter.EncodeRecursive | ThreeScalePY.py:413-434 | the loop over the dict's keys, with its recursive call for `usage`, returns what `Encoded` specifies, errors included |
| Reporting.Reporter.EncodeTransactions | ThreeScalePY.py:396-411 | the loop over the transactions with its counter returns what `EncodedTransactions` specifies |
| Reporting.Reporter.BuildPostData | ThreeScalePY.py:393-394 | returns what `PostBody` specifies |
| Reporting.Reporter.Report | ThreeScalePY.py:448-467 | an encoding error escapes and nothing is sent; otherwise one POST of the body to the report URL is sent; success gives True; an HTTP error gives `ThreeScaleServerError`; a URL error gives `ThreeScaleConnectionError`; anything else gives `ThreeScaleException`; every transport failure is a `ThreeScaleException`; False is never returned |
| Reporting.Reporter.constructor | ThreeScalePY.py:67-73 | a client is created with the given provider key and the default `http://su1.3scale.net` endpoint |
| Authorization.Authorizer.constructor | ThreeScalePY.py:67-73 | a client is created with the given credentials and the default endpoint; it is not authorized and holds no XML, so `Valid()` holds |

## Left out

- Network I/O: `urllib2.urlopen` and `urllib2.Request` are not modelled. Their result is an input (`Transport.Outcome`), and the request the code would send is an output.
- XML parsing: `fromstring` and its import fallbacks are not modelled. The parser is a parameter `Str -> Option<Element>`, where None stands for any parser exception.
- Query-string order: Python 2 `dict` and `urlencode` order is unspecified. The model sends the parameters in the order they are declared.
- Value rendering: `str()` of a dict or an arbitrary object is carried as given text in the value. `str()` is computed only for integers, timestamps and None.
- Unicode input: unicode values, for which `quote` may raise, are not modelled, and neither are keys that are not strings.
- Timestamps:
  - `time.strftime` and its `%z` depend on the platform. The model formats a record that carries its own UTC offset.
  - The accepted ranges are the model's own: year 0 to 9999, the usual month, day, hour and minute ranges, seconds up to 61, and offsets under a day.
  - Plain 9-tuples accepted as timestamps are not modelled.
- Timestamps.Strftime: does not model Python 2.7's year and field handling, so its output text differs from `time.strftime` for some inputs:
  - Years 0 to 68 print as 2000 to 2068, and 69 to 99 as 1969 to 1999; years 100 to 1899 are rejected. The model prints every year from 0 to 9999 as four digits (year 50 as `0050`).
  - Month 0 and day 0 are accepted and printed as 1; the model rejects them.
  - The platform's checks on weekday, yearday and isdst are not modelled either (also for `ParseTimestamp`).
- Exception messages: the library's exceptions are modelled as structured errors. Only the validation messages are kept as text. The URL and status code are kept, not the formatted message.
- Python exceptions:
  - The `except:` around the timestamp formatting catches everything, so every failure there is `InvalidTimestamp`.
  - A value that is not a dict, under `usage` or as a transaction, raises an `AttributeError` that the library does not wrap (`Errors.AttributeError`).
- Attribute creation: `authorized` and `auth_xml` exist only once `authorize()` has run. Calling `build_auth_response()` before it reads `self.auth_xml` inside the `try` of lines 182-185, so the `AttributeError` becomes `ThreeScaleException("Invalid xml ...")`. The model's constructor starts them at false and None, and `AuthResponseOf` gives `InvalidXml` for None, so the model produces that same error. The only difference is that the attributes exist from the start.
- Unused code:
  - `set_end_period` and the getters carry no logic and are not modelled.
  - Nor is the mismatch between `__init__`'s `start`/`end` and `set_interval`'s `start_period`/`end_period`: `add_usage_report` always calls `set_interval`.
- Concurrency and object identity: each object is used by one caller, and the response's report objects are modelled as values.
- Authorization.QueryUrlCarries: requires that the authorize URL holds no `?` rather than deriving it from the endpoint.
