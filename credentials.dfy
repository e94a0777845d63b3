/**
 * The credentials of an authorize call, checked by `validate` and sent by `get_query_string`.
 * `ThreeScaleAuthorize` and `ThreeScaleAuthorizeUserKey` differ only here, so one
 * `Variant` selects which of the two is meant.
 */
module Credentials {
  import opened Wrappers
  import opened Bytes
  import opened Quoting
  import opened Values
  import opened Errors

  datatype Variant =
    /** `ThreeScaleAuthorize`: app id (and app key) */
    | AppIdAuth
    /** `ThreeScaleAuthorizeUserKey`: user key */
    | UserKeyAuth

  /** The constructor arguments; each is a string or None. */
  datatype Keys = Keys(providerKey: Option<Str>, appId: Option<Str>, appKey: Option<Str>, userKey: Option<Str>)

  /** Python truthiness of an attribute holding a string or None. */
  predicate Truthy(o: Option<Str>) {
    o.Some? && o.value != []
  }

  const AppIdMissing: Str := "App Id not defined"
  /** The user-key class's message reads this way in the program, without "not". */
  const UserKeyMissing: Str := "User key defined"
  const ProviderKeyMissing: Str := "Provider key not defined"

  /** The credential besides the provider key that the variant's `validate` checks. */
  function Identifier(variant: Variant, keys: Keys): Option<Str> {
    match variant
    case AppIdAuth => keys.appId
    case UserKeyAuth => keys.userKey
  }

  function IdentifierMissing(variant: Variant): Str {
    match variant
    case AppIdAuth => AppIdMissing
    case UserKeyAuth => UserKeyMissing
  }

  /**
   * What `validate` raises, if anything: every missing credential, the variant's own first
   * and the provider key second, joined by ": " into one message.
   */
  function ValidationError(variant: Variant, keys: Keys): (r: Option<Error>)
    ensures r.Some? <==> !Truthy(Identifier(variant, keys)) || !Truthy(keys.providerKey)
    ensures !Truthy(Identifier(variant, keys)) && !Truthy(keys.providerKey) ==>
      r == Some(InvalidCredentials(IdentifierMissing(variant) + ": " + ProviderKeyMissing))
    ensures !Truthy(Identifier(variant, keys)) && Truthy(keys.providerKey) ==>
      r == Some(InvalidCredentials(IdentifierMissing(variant)))
    ensures Truthy(Identifier(variant, keys)) && !Truthy(keys.providerKey) ==>
      r == Some(InvalidCredentials(ProviderKeyMissing))
  {
    JoinTwo(": ", IdentifierMissing(variant), ProviderKeyMissing);
    var missing :=
      (if Truthy(Identifier(variant, keys)) then [] else [IdentifierMissing(variant)]) +
      (if Truthy(keys.providerKey) then [] else [ProviderKeyMissing]);
    if |missing| > 0 then Some(InvalidCredentials(Join(": ", missing))) else None
  }

  /** Neither variant's `validate` looks at the app key, nor at the other variant's key. */
  lemma ValidationIgnoresOtherKeys(variant: Variant, k1: Keys, k2: Keys)
    requires k1.providerKey == k2.providerKey
    requires Identifier(variant, k1) == Identifier(variant, k2)
    ensures ValidationError(variant, k1) == ValidationError(variant, k2)
  {
  }

  /** The `params` dict of `get_query_string`, values passed through `str()`. */
  function QueryParams(variant: Variant, keys: Keys): seq<(Str, Str)> {
    match variant
    case AppIdAuth =>
      [("app_id", ShowOption(keys.appId)), ("app_key", ShowOption(keys.appKey)),
       ("provider_key", ShowOption(keys.providerKey))]
    case UserKeyAuth =>
      [("user_key", ShowOption(keys.userKey)), ("provider_key", ShowOption(keys.providerKey))]
  }

  /** `urllib.urlencode(params)`: `quote_plus(k)=quote_plus(v)` pairs joined by `&`. */
  function UrlEncode(params: seq<(Str, Str)>): Str {
    Join("&", seq(|params|, i requires 0 <= i < |params| => QuotePlus(params[i].0) + "=" + QuotePlus(params[i].1)))
  }

  function QueryString(variant: Variant, keys: Keys): Str {
    UrlEncode(QueryParams(variant, keys))
  }

  /** Form decoding of a query string, as a server reads it: split on `&`, then on the first `=`. */
  function ParseQuery(q: Str): seq<(Str, Str)> {
    var pieces := Split(q, '&');
    seq(|pieces|, i requires 0 <= i < |pieces| => FormPair(pieces[i]))
  }

  /** The query string carries exactly the given parameters, in order, whatever bytes they hold. */
  lemma UrlEncodeRoundTrip(params: seq<(Str, Str)>)
    requires |params| > 0
    ensures ParseQuery(UrlEncode(params)) == params
  {
    var pieces := seq(|params|, i requires 0 <= i < |params| => QuotePlus(params[i].0) + "=" + QuotePlus(params[i].1));
    forall i | 0 <= i < |pieces| ensures '&' !in pieces[i] {
      assert pieces[i] == QuotePlus(params[i].0) + ['='] + QuotePlus(params[i].1);
    }
    SplitJoin(pieces, '&');
    var parsed := ParseQuery(UrlEncode(params));
    forall i | 0 <= i < |params| ensures parsed[i] == params[i] {
      assert pieces[i] == QuotePlus(params[i].0) + ['='] + QuotePlus(params[i].1);
      BeforeAfter(QuotePlus(params[i].0), '=', QuotePlus(params[i].1));
      UnquotePlusQuotePlus(params[i].0);
      UnquotePlusQuotePlus(params[i].1);
    }
  }

  /** What an authorize request sends: the variant's parameters and nothing else. */
  lemma QueryStringCarries(variant: Variant, keys: Keys)
    ensures ParseQuery(QueryString(variant, keys)) == QueryParams(variant, keys)
  {
    UrlEncodeRoundTrip(QueryParams(variant, keys));
  }
}
