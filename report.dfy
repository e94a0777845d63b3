/**
 * `ThreeScaleReport`: the object that builds the report body in loops over the transactions
 * and their keys, and hands it to the HTTP layer in one POST.
 */
module Reporting {
  import opened Wrappers
  import opened Bytes
  import opened Timestamps
  import opened Values
  import opened Errors
  import opened Urls
  import opened Transport
  import opened Encoding

  /** Once one key of a dict fails to encode, the loop over its keys raises that failure. */
  lemma {:induction false} FieldsFailFrom(prefix: Str, v: Value, k: nat, n: nat)
    requires v.Map? && k < n <= |v.entries|
    requires EncodedFields(prefix, v, k).Ok?
    requires EncodedEntry(prefix, v.entries[k].0, v.entries[k].1).Err?
    ensures EncodedFields(prefix, v, n) == Err(EncodedEntry(prefix, v.entries[k].0, v.entries[k].1).error)
    decreases n
  {
    if n > k + 1 {
      FieldsFailFrom(prefix, v, k, n - 1);
    }
  }

  /** Once one transaction fails to encode, the loop over the transactions raises that failure. */
  lemma {:induction false} ItemsFailFrom(items: seq<Value>, k: nat, n: nat)
    requires k < n <= |items|
    requires EncodedItems(items, k).Ok?
    requires Encoded(TransactionPrefix(k), items[k]).Err?
    ensures EncodedItems(items, n) == Err(Encoded(TransactionPrefix(k), items[k]).error)
    decreases n
  {
    if n > k + 1 {
      ItemsFailFrom(items, k, n - 1);
    }
  }

  class Reporter {
    const providerKey: Option<Str>
    const endpoint: Endpoint

    /** `ThreeScaleReport(provider_key)`: the transactions name their own applications. */
    constructor (providerKey: Option<Str>)
      ensures this.providerKey == providerKey && endpoint == DefaultEndpoint
    {
      this.providerKey := providerKey;
      endpoint := DefaultEndpoint;
    }

    /** `encode_recursive(prefix, trans)`: the pieces of every key of the dict, in its order. */
    method EncodeRecursive(prefix: Str, trans: Value) returns (r: Result<Str, Error>)
      ensures r == Encoded(prefix, trans)
      decreases trans
    {
      if !trans.Map? {
        return Err(AttributeError(trans));
      }
      var newValue: Str := [];
      var k := 0;
      while k < |trans.entries|
        invariant 0 <= k <= |trans.entries|
        invariant EncodedFields(prefix, trans, k) == Ok(newValue)
      {
        var key := trans.entries[k].0;
        var val := trans.entries[k].1;
        var piece: Result<Str, Error>;
        if key == UsageKey {
          piece := EncodeRecursive(prefix + "[usage]", val);
        } else if key == TimestampKey {
          var formatted := if val.Time? then Strftime(val.t) else None;
          piece := if formatted.Some? then Ok(Piece(prefix, key, formatted.value)) else Err(InvalidTimestamp(val));
        } else {
          piece := Ok(Piece(prefix, key, Show(val)));
        }
        assert piece == EncodedEntry(prefix, key, val);
        if piece.Err? {
          FieldsFailFrom(prefix, trans, k, |trans.entries|);
          return Err(piece.error);
        }
        newValue := newValue + piece.value;
        k := k + 1;
      }
      return Ok(newValue);
    }

    /** `encode_transactions`: transaction `i` is encoded under the prefix `&transactions[i]`. */
    method EncodeTransactions(transactions: Transactions) returns (r: Result<Str, Error>)
      ensures r == EncodedTransactions(transactions)
    {
      if transactions.NotIterable? {
        return Err(InvalidTransactionType);
      }
      var items := transactions.items;
      var encoded: Str := [];
      var i := 0;
      while i < |items|
        invariant 0 <= i <= |items|
        invariant EncodedItems(items, i) == Ok(encoded)
      {
        var block := EncodeRecursive(TransactionPrefix(i), items[i]);
        if block.Err? {
          ItemsFailFrom(items, i, |items|);
          return Err(block.error);
        }
        encoded := encoded + block.value;
        i := i + 1;
      }
      return Ok(encoded);
    }

    /** `build_post_data` */
    method BuildPostData(transactions: Transactions) returns (r: Result<Str, Error>)
      ensures r == PostBody(providerKey, transactions)
    {
      var encoded := EncodeTransactions(transactions);
      if encoded.Err? {
        return Err(encoded.error);
      }
      return Ok(ProviderKeyName + "=" + ShowOption(providerKey) + encoded.value);
    }

    /**
     * `report(transactions)`, with what the transport does given as `outcome`. The body is
     * built before the request, so an encoding failure escapes as it is and nothing is sent.
     * The method never returns False: every transport failure raises.
     */
    method Report(transactions: Transactions, outcome: Outcome) returns (r: Result<bool, Error>, sent: Option<Request>)
      ensures PostBody(providerKey, transactions).Err? ==>
        r == Err(PostBody(providerKey, transactions).error) && sent == None
      ensures PostBody(providerKey, transactions).Ok? ==>
        sent == Some(Post(ReportUrl(endpoint), PostBody(providerKey, transactions).value))
      ensures r.Ok? <==> PostBody(providerKey, transactions).Ok? && outcome.Success?
      ensures r.Ok? ==> r.value
      ensures sent.Some? && r.Err? ==> IsThreeScaleException(r.error)
      ensures sent.Some? && outcome.HttpError? ==> r == Err(ServerError(ReportUrl(endpoint), outcome.code))
      ensures sent.Some? && outcome.UrlError? ==> r == Err(ConnectionError(ReportUrl(endpoint)))
      ensures sent.Some? && outcome.OtherFailure? ==> r == Err(UnknownError(ReportUrl(endpoint)))
    {
      var reportUrl := ReportUrl(endpoint);
      var data := BuildPostData(transactions);
      if data.Err? {
        return Err(data.error), None;
      }
      sent := Some(Post(reportUrl, data.value));
      match outcome
      case Success(_) => r := Ok(true);
      case HttpError(code, _) => r := Err(ServerError(reportUrl, code));
      case UrlError => r := Err(ConnectionError(reportUrl));
      case OtherFailure => r := Err(UnknownError(reportUrl));
    }
  }
}
