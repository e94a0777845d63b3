/**
 * The body of a report POST: `build_post_data`, `encode_transactions` and `encode_recursive`
 * flatten an ordered list of transaction dicts into
 * `provider_key=<key>&transactions[<i>][<key>]=<escaped value>...`.
 */
module Encoding {
  import opened Wrappers
  import opened Bytes
  import opened Quoting
  import opened Timestamps
  import opened Values
  import opened Errors

  /** The `transactions` argument: something that is not iterable, or what iterating it yields. */
  datatype Transactions = NotIterable | Items(items: seq<Value>)

  const UsageKey: Str := "usage"
  const TimestampKey: Str := "timestamp"

  /** `urllib2.quote(text)`, whose safe set is `/`. */
  function Escape(text: Str): Str {
    Quote(text, {'/'})
  }

  /** `"%s[%s]=%s" % (prefix, key, escaped)`: prefix and key go out as they are. */
  function Piece(prefix: Str, key: Str, text: Str): Str {
    prefix + "[" + key + "]=" + Escape(text)
  }

  /**
   * `encode_recursive(prefix, v)` after its loop has seen the first `n` keys of the dict `v`:
   * the pieces of those keys in order, or the first exception one of them raises.
   */
  function EncodedFields(prefix: Str, v: Value, n: nat): Result<Str, Error>
    requires v.Map? && n <= |v.entries|
    decreases v, n
  {
    if n == 0 then Ok([])
    else
      var done :- EncodedFields(prefix, v, n - 1);
      var piece :- EncodedEntry(prefix, v.entries[n - 1].0, v.entries[n - 1].1);
      Ok(done + piece)
  }

  /** One pass of the loop in `encode_recursive`: the text for one key and its value. */
  function EncodedEntry(prefix: Str, key: Str, val: Value): Result<Str, Error>
    decreases val, if val.Map? then |val.entries| + 1 else 0
  {
    if key == UsageKey then
      if val.Map? then EncodedFields(prefix + "[usage]", val, |val.entries|)
      else Err(AttributeError(val))
    else if key == TimestampKey then
      if val.Time? && Formattable(val.t) then Ok(Piece(prefix, key, Strftime(val.t).value))
      else Err(InvalidTimestamp(val))
    else Ok(Piece(prefix, key, Show(val)))
  }

  /** `encode_recursive(prefix, v)`: `v.keys()` raises unless `v` is a dict. */
  function Encoded(prefix: Str, v: Value): Result<Str, Error> {
    if v.Map? then EncodedFields(prefix, v, |v.entries|) else Err(AttributeError(v))
  }

  /** `"&transactions[%d]" % i` */
  function TransactionPrefix(i: nat): Str {
    "&transactions[" + Decimal(i) + "]"
  }

  /** `encode_transactions` after its loop has seen the first `n` transactions. */
  function EncodedItems(items: seq<Value>, n: nat): Result<Str, Error>
    requires n <= |items|
  {
    if n == 0 then Ok([])
    else
      var done :- EncodedItems(items, n - 1);
      var block :- Encoded(TransactionPrefix(n - 1), items[n - 1]);
      Ok(done + block)
  }

  function EncodedTransactions(t: Transactions): Result<Str, Error> {
    match t
    case NotIterable => Err(InvalidTransactionType)
    case Items(items) => EncodedItems(items, |items|)
  }

  /** `build_post_data`: the provider key is written with `%s`, unescaped. */
  function PostBody(providerKey: Option<Str>, t: Transactions): Result<Str, Error> {
    var encoded :- EncodedTransactions(t);
    Ok(ProviderKeyName + "=" + ShowOption(providerKey) + encoded)
  }

  // ---------------------------------------------------------------------------------------
  // A reference description of the same body: the list of form parameters it carries.

  /** One form parameter: its full name and its text before escaping. */
  datatype Param = Param(name: Str, text: Str)

  /** Whether encoding the first `n` keys of the dict `v` raises nothing. */
  predicate EncodableFields(v: Value, n: nat)
    requires v.Map? && n <= |v.entries|
    decreases v, n
  {
    n == 0 || (EncodableFields(v, n - 1) && EncodableEntry(v.entries[n - 1].0, v.entries[n - 1].1))
  }

  predicate EncodableEntry(key: Str, val: Value)
    decreases val, if val.Map? then |val.entries| + 1 else 0
  {
    if key == UsageKey then val.Map? && EncodableFields(val, |val.entries|)
    else if key == TimestampKey then val.Time? && Formattable(val.t)
    else true
  }

  predicate Encodable(v: Value) {
    v.Map? && EncodableFields(v, |v.entries|)
  }

  /**
   * The parameters for the first `n` keys of `v`: a nested `usage` dict contributes its own
   * parameters under the name `prefix[usage]`, a timestamp its formatted text, any other
   * value its `str()`.
   */
  function Params(prefix: Str, v: Value, n: nat): seq<Param>
    requires v.Map? && n <= |v.entries|
    decreases v, n
  {
    if n == 0 then [] else Params(prefix, v, n - 1) + EntryParams(prefix, v.entries[n - 1].0, v.entries[n - 1].1)
  }

  function EntryParams(prefix: Str, key: Str, val: Value): seq<Param>
    decreases val, if val.Map? then |val.entries| + 1 else 0
  {
    if key == UsageKey then (if val.Map? then Params(prefix + "[usage]", val, |val.entries|) else [])
    else if key == TimestampKey then (if val.Time? && Formattable(val.t) then [Param(prefix + "[" + key + "]", Strftime(val.t).value)] else [])
    else [Param(prefix + "[" + key + "]", Show(val))]
  }

  function ItemParams(items: seq<Value>, n: nat): seq<Param>
    requires n <= |items|
  {
    if n == 0 then []
    else ItemParams(items, n - 1) + (if items[n - 1].Map? then Params(TransactionPrefix(n - 1), items[n - 1], |items[n - 1].entries|) else [])
  }

  /** `name=escaped text` for each parameter, one after the other. */
  function Render(ps: seq<Param>): Str {
    if ps == [] then [] else ps[0].name + "=" + Escape(ps[0].text) + Render(ps[1..])
  }

  lemma {:induction false} RenderAppend(a: seq<Param>, b: seq<Param>)
    ensures Render(a + b) == Render(a) + Render(b)
  {
    if a != [] {
      assert (a + b)[1..] == a[1..] + b;
      RenderAppend(a[1..], b);
    } else {
      assert a + b == b;
    }
  }

  lemma RenderOne(p: Param)
    ensures Render([p]) == p.name + "=" + Escape(p.text)
  {
    assert [p][1..] == [];
  }

  /** `encode_recursive` succeeds exactly on encodable dicts, and then writes their parameters. */
  lemma {:induction false} EncodedFieldsRender(prefix: Str, v: Value, n: nat)
    requires v.Map? && n <= |v.entries|
    ensures EncodedFields(prefix, v, n).Ok? <==> EncodableFields(v, n)
    ensures EncodedFields(prefix, v, n).Ok? ==> EncodedFields(prefix, v, n).value == Render(Params(prefix, v, n))
    decreases v, n
  {
    if n > 0 {
      EncodedFieldsRender(prefix, v, n - 1);
      EncodedEntryRender(prefix, v.entries[n - 1].0, v.entries[n - 1].1);
      RenderAppend(Params(prefix, v, n - 1), EntryParams(prefix, v.entries[n - 1].0, v.entries[n - 1].1));
    }
  }

  lemma {:induction false} EncodedEntryRender(prefix: Str, key: Str, val: Value)
    ensures EncodedEntry(prefix, key, val).Ok? <==> EncodableEntry(key, val)
    ensures EncodedEntry(prefix, key, val).Ok? ==> EncodedEntry(prefix, key, val).value == Render(EntryParams(prefix, key, val))
    decreases val, if val.Map? then |val.entries| + 1 else 0
  {
    if key == UsageKey {
      if val.Map? {
        EncodedFieldsRender(prefix + "[usage]", val, |val.entries|);
      }
    } else if key == TimestampKey {
      if val.Time? && Formattable(val.t) {
        RenderOne(Param(prefix + "[" + key + "]", Strftime(val.t).value));
      }
    } else {
      RenderOne(Param(prefix + "[" + key + "]", Show(val)));
    }
  }

  /** `encode_transactions` succeeds exactly when every transaction is an encodable dict. */
  lemma {:induction false} EncodedItemsOk(items: seq<Value>, n: nat)
    requires n <= |items|
    ensures EncodedItems(items, n).Ok? <==> forall i :: 0 <= i < n ==> Encodable(items[i])
  {
    if n > 0 {
      EncodedItemsOk(items, n - 1);
      var v := items[n - 1];
      if v.Map? {
        EncodedFieldsRender(TransactionPrefix(n - 1), v, |v.entries|);
      }
    }
  }

  /** and then writes the parameters of every transaction, in order. */
  lemma {:induction false} EncodedItemsRender(items: seq<Value>, n: nat)
    requires n <= |items| && EncodedItems(items, n).Ok?
    ensures EncodedItems(items, n).value == Render(ItemParams(items, n))
  {
    if n > 0 {
      var v := items[n - 1];
      assert EncodedItems(items, n - 1).Ok? && v.Map?;
      EncodedItemsRender(items, n - 1);
      EncodedFieldsRender(TransactionPrefix(n - 1), v, |v.entries|);
      RenderAppend(ItemParams(items, n - 1), Params(TransactionPrefix(n - 1), v, |v.entries|));
    }
  }

  /**
   * The body raises "Invalid transaction type" for a non-iterable argument, succeeds exactly
   * when every transaction is an encodable dict, and is the bare provider key field when there
   * are no transactions.
   */
  lemma PostBodyCases(providerKey: Option<Str>, t: Transactions)
    ensures t.NotIterable? ==> PostBody(providerKey, t) == Err(InvalidTransactionType)
    ensures t.Items? ==> (PostBody(providerKey, t).Ok? <==> forall i :: 0 <= i < |t.items| ==> Encodable(t.items[i]))
    ensures t == Items([]) ==> PostBody(providerKey, t) == Ok(ProviderKeyName + "=" + ShowOption(providerKey))
  {
    if t.Items? {
      EncodedItemsOk(t.items, |t.items|);
      if t.items == [] {
        assert ProviderKeyName + "=" + ShowOption(providerKey) + [] == ProviderKeyName + "=" + ShowOption(providerKey);
      }
    }
  }

  // ---------------------------------------------------------------------------------------
  // Reading the body back: the form decoding a server applies to it.

  /** One piece of a body between `&`s, cut at its first `=`, name and value form-decoded. */
  function FormField(piece: Str): Param {
    Param(FormPair(piece).0, FormPair(piece).1)
  }

  function FormFields(pieces: seq<Str>): (r: seq<Param>)
    ensures |r| == |pieces|
  {
    if pieces == [] then [] else [FormField(pieces[0])] + FormFields(pieces[1..])
  }

  /** Form decoding of a body, as the service reads it. */
  function ParseForm(body: Str): seq<Param> {
    FormFields(Split(body, '&'))
  }

  /**
   * Text that can stand unescaped in a parameter name and reads back unchanged: it does not
   * split the body, and form decoding leaves it alone.
   */
  predicate Plain(s: Str) {
    '&' !in s && '=' !in s && '+' !in s && '%' !in s
  }

  /** Every key of `v` and of the dicts nested in it is `Plain`. */
  predicate PlainKeys(v: Value) {
    v.Map? ==> forall i :: 0 <= i < |v.entries| ==> Plain(v.entries[i].0) && PlainKeys(v.entries[i].1)
  }

  /**
   * An escaped value never splits the body: `quote` escapes `&`, `=` and `+`, and the brackets
   * of names too; and form decoding gives the value back.
   */
  lemma EscapePlain(text: Str)
    ensures '&' !in Escape(text) && '=' !in Escape(text) && '+' !in Escape(text)
    ensures '[' !in Escape(text) && ']' !in Escape(text)
    ensures UnquotePlus(Escape(text)) == text
  {
    var q := Escape(text);
    assert forall i :: 0 <= i < |q| ==> AlwaysSafe(q[i]) || q[i] == '/' || q[i] == '%';
    UnquotePlusQuote(text, {'/'});
  }

  lemma PlainAppend(a: Str, b: Str)
    ensures Plain(a + b) <==> Plain(a) && Plain(b)
  {
    assert forall c :: c in a + b <==> c in a || c in b;
  }

  /** A name extends `prefix` with `Plain` text. */
  predicate NameUnder(prefix: Str, name: Str) {
    prefix <= name && Plain(name[|prefix|..])
  }

  lemma NameUnderLonger(prefix: Str, ext: Str, name: Str)
    requires Plain(ext) && NameUnder(prefix + ext, name)
    ensures NameUnder(prefix, name)
  {
    assert name[|prefix|..] == ext + name[|prefix + ext|..];
    PlainAppend(ext, name[|prefix + ext|..]);
  }

  /** The names a dict with plain keys produces all extend the prefix with plain text. */
  lemma {:induction false} ParamsNames(prefix: Str, v: Value, n: nat)
    requires v.Map? && n <= |v.entries| && PlainKeys(v)
    ensures forall j :: 0 <= j < |Params(prefix, v, n)| ==> NameUnder(prefix, Params(prefix, v, n)[j].name)
    decreases v, n
  {
    if n > 0 {
      ParamsNames(prefix, v, n - 1);
      EntryParamsNames(prefix, v.entries[n - 1].0, v.entries[n - 1].1);
    }
  }

  lemma {:induction false} EntryParamsNames(prefix: Str, key: Str, val: Value)
    requires Plain(key) && PlainKeys(val)
    ensures forall j :: 0 <= j < |EntryParams(prefix, key, val)| ==> NameUnder(prefix, EntryParams(prefix, key, val)[j].name)
    decreases val, if val.Map? then |val.entries| + 1 else 0
  {
    var ps := EntryParams(prefix, key, val);
    if key == UsageKey {
      if val.Map? {
        ParamsNames(prefix + "[usage]", val, |val.entries|);
        forall j | 0 <= j < |ps| ensures NameUnder(prefix, ps[j].name) {
          NameUnderLonger(prefix, "[usage]", ps[j].name);
        }
      }
    } else if |ps| == 1 {
      var name := prefix + "[" + key + "]";
      assert ps[0].name == name;
      assert name[|prefix|..] == "[" + key + "]";
      PlainAppend("[", key);
      PlainAppend("[" + key, "]");
    }
  }

  /** A transaction's name prefix, without its leading `&`, is plain. */
  lemma TransactionPrefixPlain(i: nat)
    ensures TransactionPrefix(i)[0] == '&' && Plain(TransactionPrefix(i)[1..])
  {
    var d := Decimal(i);
    assert TransactionPrefix(i)[1..] == "transactions[" + d + "]";
    assert forall k :: 0 <= k < |d| ==> IsDigit(d[k]);
    PlainAppend("transactions[", d);
    PlainAppend("transactions[" + d, "]");
  }

  /** Each parameter of a transaction list is named `&` followed by plain text. */
  lemma {:induction false} ItemParamsNames(items: seq<Value>, n: nat)
    requires n <= |items|
    requires forall i :: 0 <= i < |items| ==> PlainKeys(items[i])
    ensures forall j :: 0 <= j < |ItemParams(items, n)| ==>
      NameUnder("&", ItemParams(items, n)[j].name)
  {
    if n > 0 {
      ItemParamsNames(items, n - 1);
      var v := items[n - 1];
      if v.Map? {
        var pre := TransactionPrefix(n - 1);
        var ps := Params(pre, v, |v.entries|);
        ParamsNames(pre, v, |v.entries|);
        TransactionPrefixPlain(n - 1);
        assert pre == "&" + pre[1..];
        forall j | 0 <= j < |ps| ensures NameUnder("&", ps[j].name) {
          NameUnderLonger("&", pre[1..], ps[j].name);
        }
      }
    }
  }

  /** A parameter name as it reads once the body is split: without the leading `&`. */
  function Unprefixed(name: Str): Str {
    if name == [] then [] else name[1..]
  }

  /** The piece a parameter becomes between two `&`s. */
  function Segment(p: Param): Str {
    Unprefixed(p.name) + "=" + Escape(p.text)
  }

  function Segments(ps: seq<Param>): (r: seq<Str>)
    ensures |r| == |ps|
  {
    if ps == [] then [] else [Segment(ps[0])] + Segments(ps[1..])
  }

  lemma RenderCons(ps: seq<Param>)
    requires ps != [] && NameUnder("&", ps[0].name)
    ensures Render(ps) == ['&'] + (Segment(ps[0]) + Render(ps[1..]))
    ensures '&' !in Segment(ps[0])
  {
    var p := ps[0];
    var u := Unprefixed(p.name);
    var e := Escape(p.text);
    var r := Render(ps[1..]);
    assert p.name == ['&'] + u;
    assert Render(ps) == p.name + "=" + e + r;
    AssociateField(u, e, r);
    EscapePlain(p.text);
    assert forall c :: c in u + "=" + e ==> c in u || c == '=' || c in e;
  }

  lemma AssociateField(u: Str, e: Str, r: Str)
    ensures ['&'] + u + "=" + e + r == ['&'] + (u + "=" + e + r)
  {
  }

  /** Splitting the rendered parameters gives back one piece per parameter. */
  lemma {:induction false} SplitRender(x: Str, ps: seq<Param>)
    requires '&' !in x
    requires forall j :: 0 <= j < |ps| ==> NameUnder("&", ps[j].name)
    ensures Split(x + Render(ps), '&') == [x] + Segments(ps)
    decreases |ps|
  {
    if ps == [] {
      assert x + Render(ps) == x;
      SplitWithout(x, '&');
    } else {
      var seg := Segment(ps[0]);
      var rest := Render(ps[1..]);
      RenderCons(ps);
      assert x + Render(ps) == x + ['&'] + (seg + rest);
      SplitAfter(x, '&', seg + rest);
      SplitRender(seg, ps[1..]);
      assert Segments(ps) == [seg] + Segments(ps[1..]);
    }
  }

  /** The parameters as the service names them. */
  function Received(ps: seq<Param>): (r: seq<Param>)
    ensures |r| == |ps|
  {
    if ps == [] then [] else [Param(Unprefixed(ps[0].name), ps[0].text)] + Received(ps[1..])
  }

  /** Each piece decodes back to its parameter. */
  lemma {:induction false} FormFieldsSegments(ps: seq<Param>)
    requires forall j :: 0 <= j < |ps| ==> NameUnder("&", ps[j].name)
    ensures FormFields(Segments(ps)) == Received(ps)
  {
    if ps != [] {
      var p := ps[0];
      assert Unprefixed(p.name) == p.name[1..];
      FormFieldOf(Unprefixed(p.name), Escape(p.text));
      UnquotePlusPlain(Unprefixed(p.name));
      EscapePlain(p.text);
      FormFieldsSegments(ps[1..]);
      assert Segments(ps)[1..] == Segments(ps[1..]);
    }
  }

  const ProviderKeyName: Str := "provider_key"

  /** A piece `u=e` whose name holds no `=` decodes to its two sides. */
  lemma FormFieldOf(u: Str, e: Str)
    requires '=' !in u
    ensures FormField(u + "=" + e) == Param(UnquotePlus(u), UnquotePlus(e))
  {
    assert u + "=" + e == u + ['='] + e;
    BeforeAfter(u, '=', e);
  }

  /** The first piece of a body: the provider key, which is not escaped. */
  lemma HeadField(pk: Str)
    requires '&' !in pk && '%' !in pk && '+' !in pk
    ensures '&' !in ProviderKeyName + "=" + pk
    ensures FormField(ProviderKeyName + "=" + pk) == Param(ProviderKeyName, pk)
  {
    assert '&' !in ProviderKeyName + "=" + pk by {
      assert forall c :: c in ProviderKeyName + "=" + pk ==> c in ProviderKeyName + "=" || c in pk;
    }
    FormFieldOf(ProviderKeyName, pk);
    UnquotePlusPlain(ProviderKeyName);
    UnquotePlusPlain(pk);
  }

  /**
   * Why the provider key must hold no `+`: `build_post_data` writes it unescaped, and the
   * service's form decoder reads a `+` in it as a space.
   */
  lemma UnescapedKeyExample()
    ensures FormField(ProviderKeyName + "=" + "a+b").text == "a b"
  {
    FormFieldOf(ProviderKeyName, "a+b");
    PlusDecoded();
  }

  /** The body splits at `&` into the provider key field and one piece per parameter. */
  lemma SplitBody(pk: Str, ps: seq<Param>)
    requires '&' !in pk && '%' !in pk && '+' !in pk
    requires forall j :: 0 <= j < |ps| ==> NameUnder("&", ps[j].name)
    ensures Split(ProviderKeyName + "=" + pk + Render(ps), '&') == [ProviderKeyName + "=" + pk] + Segments(ps)
  {
    HeadField(pk);
    SplitRender(ProviderKeyName + "=" + pk, ps);
  }

  lemma DecodeBody(pk: Str, ps: seq<Param>)
    requires '&' !in pk && '%' !in pk && '+' !in pk
    requires Split(ProviderKeyName + "=" + pk + Render(ps), '&') == [ProviderKeyName + "=" + pk] + Segments(ps)
    requires FormFields(Segments(ps)) == Received(ps)
    ensures ParseForm(ProviderKeyName + "=" + pk + Render(ps)) == [Param(ProviderKeyName, pk)] + Received(ps)
  {
    HeadField(pk);
    FormFieldsCons(ProviderKeyName + "=" + pk, Segments(ps));
  }

  /** A body made of the provider key and rendered parameters decodes to exactly those. */
  lemma ParseFormBody(pk: Str, ps: seq<Param>)
    requires '&' !in pk && '%' !in pk && '+' !in pk
    requires forall j :: 0 <= j < |ps| ==> NameUnder("&", ps[j].name)
    ensures ParseForm(ProviderKeyName + "=" + pk + Render(ps)) == [Param(ProviderKeyName, pk)] + Received(ps)
  {
    SplitBody(pk, ps);
    FormFieldsSegments(ps);
    DecodeBody(pk, ps);
  }

  lemma FormFieldsCons(piece: Str, pieces: seq<Str>)
    ensures FormFields([piece] + pieces) == [FormField(piece)] + FormFields(pieces)
  {
    assert ([piece] + pieces)[1..] == pieces;
  }

  /**
   * The body decodes to the provider key followed by every transaction's parameters, in
   * order and with their original text, provided that the unescaped parts (the provider key
   * and the dict keys) hold no byte that would break the form apart.
   */
  lemma PostBodyParses(providerKey: Option<Str>, items: seq<Value>)
    requires PostBody(providerKey, Items(items)).Ok?
    requires '&' !in ShowOption(providerKey) && '%' !in ShowOption(providerKey) && '+' !in ShowOption(providerKey)
    requires forall i :: 0 <= i < |items| ==> PlainKeys(items[i])
    ensures ParseForm(PostBody(providerKey, Items(items)).value) ==
            [Param(ProviderKeyName, ShowOption(providerKey))] + Received(ItemParams(items, |items|))
  {
    var ps := ItemParams(items, |items|);
    EncodedItemsRender(items, |items|);
    ItemParamsNames(items, |items|);
    ParseFormBody(ShowOption(providerKey), ps);
  }

  /** The nested usage dict of the example below becomes one piece under `[usage]`. */
  lemma ExampleUsage()
    ensures EncodedEntry("&transactions[0]", "usage", Map([("hits", Int(1))], "{'hits': 1}"))
      == Ok("&transactions[0][usage][hits]=1")
  {
    var usage := Map([("hits", Int(1))], "{'hits': 1}");
    var hits := "&transactions[0][usage][hits]=1";
    assert Piece("&transactions[0][usage]", "hits", Show(Int(1))) == hits by {
      assert Show(Int(1)) == "1";
      QuoteUnchanged("1", {'/'});
    }
    assert EncodedEntry("&transactions[0][usage]", "hits", Int(1)) == Ok(hits);
    assert EncodedFields("&transactions[0][usage]", usage, 1) == Ok(hits) by {
      assert EncodedFields("&transactions[0][usage]", usage, 0) == Ok([]);
      assert [] + hits == hits;
    }
    assert "&transactions[0]" + "[usage]" == "&transactions[0][usage]";
  }

  /** The example transaction below: an app id followed by a nested usage dict. */
  const ExampleTransaction: Value :=
    Map([("app_id", Scalar("a1")), ("usage", Map([("hits", Int(1))], "{'hits': 1}"))], "t")

  lemma ExampleAppId()
    ensures EncodedFields("&transactions[0]", ExampleTransaction, 1) == Ok("&transactions[0][app_id]=a1")
  {
    var appId := "&transactions[0][app_id]=a1";
    assert Piece("&transactions[0]", "app_id", "a1") == appId by { QuoteUnchanged("a1", {'/'}); }
    assert EncodedFields("&transactions[0]", ExampleTransaction, 0) == Ok([]);
    assert EncodedEntry("&transactions[0]", "app_id", Scalar("a1")) == Ok(appId);
    assert [] + appId == appId;
  }

  lemma ExampleFields()
    ensures Encoded(TransactionPrefix(0), ExampleTransaction) ==
      Ok("&transactions[0][app_id]=a1" + "&transactions[0][usage][hits]=1")
  {
    assert TransactionPrefix(0) == "&transactions[0]" by { assert Decimal(0) == "0"; }
    ExampleAppId();
    ExampleUsage();
  }

  /** One transaction with an app id and a nested usage dict. */
  lemma ExampleBody()
    ensures PostBody(Some("pk"), Items([ExampleTransaction]))
      == Ok("provider_key=pk" + "&transactions[0][app_id]=a1" + "&transactions[0][usage][hits]=1")
  {
    var block := "&transactions[0][app_id]=a1" + "&transactions[0][usage][hits]=1";
    assert EncodedItems([ExampleTransaction], 1) == Ok(block) by {
      ExampleFields();
      assert EncodedItems([ExampleTransaction], 0) == Ok([]);
      assert [] + block == block;
    }
    var head := ProviderKeyName + "=" + ShowOption(Some("pk"));
    assert head == "provider_key=pk";
    assert PostBody(Some("pk"), Items([ExampleTransaction])) == Ok(head + block);
    assert head + block == "provider_key=pk" + "&transactions[0][app_id]=a1" + "&transactions[0][usage][hits]=1";
  }

  lemma EscapeJoin(a: Str, b: Str)
    ensures Escape(a + b) == Escape(a) + Escape(b)
  {
    QuoteAppend(a, b, {'/'});
  }

  /** Digits pass through `quote` unchanged. */
  lemma EscapeDigits(s: Str)
    requires forall i :: 0 <= i < |s| ==> IsDigit(s[i])
    ensures Escape(s) == s
  {
    QuoteUnchanged(s, {'/'});
  }

  lemma EscapedDate(t: TimeStruct)
    requires Formattable(t)
    ensures Escape(DatePart(t)) == DatePart(t)
  {
    var y, mo, d := Padded(t.year, 4), Padded(t.month, 2), Padded(t.day, 2);
    EscapeDigits(y);
    EscapeDigits(mo);
    EscapeDigits(d);
    assert Escape("-") == "-";
    EscapeJoin("-", d);
    EscapeJoin(mo, "-" + d);
    EscapeJoin("-", mo + ("-" + d));
    EscapeJoin(y, "-" + (mo + ("-" + d)));
  }

  /** Digits followed by a colon: the colon becomes `%3A`. */
  lemma EscapeColon(a: Str, b: Str)
    requires forall i :: 0 <= i < |a| ==> IsDigit(a[i])
    ensures Escape(a + (":" + b)) == a + ("%3A" + Escape(b))
  {
    EscapeDigits(a);
    assert Escape(":") == "%3A";
    EscapeJoin(":", b);
    EscapeJoin(a, ":" + b);
  }

  lemma EscapedClock(t: TimeStruct)
    requires Formattable(t)
    ensures Escape(ClockPart(t)) == Padded(t.hour, 2) + ("%3A" + (Padded(t.minute, 2) + ("%3A" + Padded(t.second, 2))))
  {
    var h, mi, sec := Padded(t.hour, 2), Padded(t.minute, 2), Padded(t.second, 2);
    EscapeDigits(sec);
    EscapeColon(mi, sec);
    EscapeColon(h, mi + (":" + sec));
  }

  lemma EscapedZone(offset: int)
    requires -1440 < offset < 1440
    ensures Escape(Zone(offset)) == (if offset < 0 then "-" else "%2B") + Zone(offset)[1..]
  {
    var z := Zone(offset);
    var a := if offset < 0 then -offset else offset;
    assert z == z[..1] + z[1..];
    if offset < 0 {
      assert z[..1] == "-";
      assert Escape("-") == "-";
    } else {
      assert z[..1] == "+";
      assert Escape("+") == "%2B";
    }
    assert z[1..] == Padded(a / 60, 2) + Padded(a % 60, 2);
    EscapeDigits(z[1..]);
    EscapeJoin(z[..1], z[1..]);
  }

  /**
   * A formatted timestamp after `quote`: its date and its digits stay as they are, the two
   * spaces become `%20`, the colons `%3A` and a plus sign before the offset `%2B`.
   */
  lemma EscapedTimestamp(t: TimeStruct)
    requires Formattable(t)
    ensures Escape(Strftime(t).value) ==
      DatePart(t) + ("%20" + (Escape(ClockPart(t)) + ("%20" + Escape(Zone(t.offset)))))
    ensures Escape(Strftime(t).value) ==
      DatePart(t) + ("%20" +
        ((Padded(t.hour, 2) + ("%3A" + (Padded(t.minute, 2) + ("%3A" + Padded(t.second, 2))))) + ("%20" +
        ((if t.offset < 0 then "-" else "%2B") + Zone(t.offset)[1..]))))
  {
    EscapedClock(t);
    EscapedZone(t.offset);
    var date, clock, zone := DatePart(t), ClockPart(t), Zone(t.offset);
    EscapedDate(t);
    assert Escape(" ") == "%20";
    EscapeJoin(" ", zone);
    EscapeJoin(clock, " " + zone);
    EscapeJoin(" ", clock + (" " + zone));
    EscapeJoin(date, " " + (clock + (" " + zone)));
  }

  /** The example timestamp below: 2021-03-04 10:20:30 at offset zero. */
  const ExampleTime := TimeStruct(2021, 3, 4, 10, 20, 30, 3, 63, 0, 0)

  lemma ExampleDate()
    ensures Formattable(ExampleTime) && DatePart(ExampleTime) == "2021-03-04"
  {
    assert Padded(2021, 4) == "2021" && Padded(3, 2) == "03" && Padded(4, 2) == "04";
  }

  lemma ExampleClock()
    ensures Formattable(ExampleTime) && Escape(ClockPart(ExampleTime)) == "10%3A20%3A30"
  {
    EscapedClock(ExampleTime);
    assert Padded(10, 2) == "10" && Padded(20, 2) == "20" && Padded(30, 2) == "30";
  }

  lemma ExampleZone()
    ensures Escape(Zone(0)) == "%2B0000"
  {
    EscapedZone(0);
    assert Zone(0)[1..] == "0000";
  }

  lemma ExampleTimeEscaped()
    ensures Formattable(ExampleTime)
    ensures Escape(Strftime(ExampleTime).value) == "2021-03-04" + ("%20" + ("10%3A20%3A30" + ("%20" + "%2B0000")))
  {
    ExampleDate();
    ExampleClock();
    ExampleZone();
    EscapedTimestamp(ExampleTime);
  }

  /** A formattable timestamp under the key `timestamp` becomes one piece holding its escaped text. */
  lemma EncodedTimestamp(prefix: Str, t: TimeStruct)
    requires Formattable(t)
    ensures EncodedEntry(prefix, TimestampKey, Time(t)) == Ok(prefix + ("[timestamp]=" + Escape(Strftime(t).value)))
  {
    var e := Escape(Strftime(t).value);
    assert EncodedEntry(prefix, TimestampKey, Time(t)) == Ok(Piece(prefix, TimestampKey, Strftime(t).value));
    assert Piece(prefix, TimestampKey, Strftime(t).value) == prefix + (("[" + TimestampKey + "]=") + e);
    assert "[" + TimestampKey + "]=" == "[timestamp]=";
  }

  /** A timestamp goes out formatted, with its space, colons and plus sign escaped. */
  lemma ExampleTimestamp()
    ensures EncodedEntry("&transactions[0]", TimestampKey, Time(ExampleTime))
      == Ok("&transactions[0]" + ("[timestamp]=" + ("2021-03-04" + ("%20" + ("10%3A20%3A30" + ("%20" + "%2B0000"))))))
  {
    ExampleTimeEscaped();
    EncodedTimestamp("&transactions[0]", ExampleTime);
  }
}
