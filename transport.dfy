/** What the HTTP layer (`urllib2`) is asked to do and what it comes back with. */
module Transport {
  import opened Bytes

  datatype Request =
    /** `urllib2.urlopen(url)` */
    | Get(url: Str)
    /** `urllib2.urlopen(urllib2.Request(url, data))` */
    | Post(url: Str, data: Str)

  datatype Outcome =
    /** the call returned and `read()` gave the body */
    | Success(body: Str)
    /** `urllib2.HTTPError`, with its status code and the body its `read()` gives */
    | HttpError(code: int, body: Str)
    /** any other `urllib2.URLError`: the host could not be reached */
    | UrlError
    /** any other exception raised on the way */
    | OtherFailure
}
