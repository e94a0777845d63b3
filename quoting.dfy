/**
 * Percent-escaping as Python 2's `urllib.quote` and `urllib.quote_plus` do it,
 * with the percent-decoding that undoes it.
 */
module Quoting {
  import opened Bytes

  /** The bytes `quote` never escapes: ASCII letters, digits and `_.-`. */
  predicate AlwaysSafe(c: Byte) {
    ('A' <= c <= 'Z') || ('a' <= c <= 'z') || ('0' <= c <= '9') || c == '_' || c == '.' || c == '-'
  }

  predicate IsHexDigit(c: Byte) {
    ('0' <= c <= '9') || ('A' <= c <= 'F')
  }

  function HexDigit(d: nat): (c: Byte)
    requires d < 16
    ensures IsHexDigit(c) && AlwaysSafe(c)
  {
    if d < 10 then ('0' as int + d) as char else ('A' as int + d - 10) as char
  }

  function HexValue(c: Byte): (d: nat)
    requires IsHexDigit(c)
    ensures d < 16
  {
    if c <= '9' then c as int - '0' as int else c as int - 'A' as int + 10
  }

  /** `%XX`, upper-case hex, as `'%%%02X' % ord(c)` */
  function PercentEscape(c: Byte): (r: Str)
    ensures |r| == 3 && r[0] == '%' && IsHexDigit(r[1]) && IsHexDigit(r[2])
    ensures HexValue(r[1]) * 16 + HexValue(r[2]) == c as int
  {
    "%" + [HexDigit(c as int / 16), HexDigit(c as int % 16)]
  }

  function QuoteByte(c: Byte, safe: set<Byte>): Str {
    if AlwaysSafe(c) || c in safe then [c] else PercentEscape(c)
  }

  /** `urllib.quote(s, safe)`: every always-safe byte and every byte of `safe` is kept, every other becomes `%XX`. */
  function Quote(s: Str, safe: set<Byte>): (r: Str)
    ensures forall i :: 0 <= i < |r| ==> AlwaysSafe(r[i]) || r[i] in safe || r[i] == '%'
  {
    if s == [] then [] else QuoteByte(s[0], safe) + Quote(s[1..], safe)
  }

  /** `urllib.quote_plus(s)` (empty safe set): like `quote`, but a space becomes `+`. */
  function QuotePlus(s: Str): (r: Str)
    ensures forall i :: 0 <= i < |r| ==> AlwaysSafe(r[i]) || r[i] == '+' || r[i] == '%'
  {
    if s == [] then [] else (if s[0] == ' ' then "+" else QuoteByte(s[0], {})) + QuotePlus(s[1..])
  }

  /** Form decoding (`unquote_plus`): `%XX` with two hex digits becomes that byte, a `+` a space, anything else stays. */
  function UnquotePlus(s: Str): Str {
    if |s| >= 3 && s[0] == '%' && IsHexDigit(s[1]) && IsHexDigit(s[2])
    then [(HexValue(s[1]) * 16 + HexValue(s[2])) as char] + UnquotePlus(s[3..])
    else if s == [] then []
    else [if s[0] == '+' then ' ' else s[0]] + UnquotePlus(s[1..])
  }

  /** Form decoding leaves a string without `%` and `+` alone. */
  lemma {:induction false} UnquotePlusPlain(s: Str)
    requires '%' !in s && '+' !in s
    ensures UnquotePlus(s) == s
  {
    if s != [] {
      UnquotePlusPlain(s[1..]);
      assert [s[0]] + s[1..] == s;
    }
  }

  /** A `+` is read back as a space. */
  lemma PlusDecoded()
    ensures UnquotePlus("a+b") == "a b"
  {
    var ab: Str := "a+b";
    assert ab[1..] == "+b" && ab[1..][1..] == "b";
    UnquotePlusPlain("b");
    assert UnquotePlus("+b") == " " + "b";
    assert UnquotePlus(ab) == "a" + (" " + "b");
  }

  /** One `name=value` piece of a form, each side form-decoded; the cut is at the first `=`. */
  function FormPair(piece: Str): (Str, Str) {
    (UnquotePlus(Before(piece, '=')), UnquotePlus(After(piece, '=')))
  }

  /** Form decoding undoes `quote` too, so long as `%` and `+` are escaped. */
  lemma {:induction false} UnquotePlusQuote(s: Str, safe: set<Byte>)
    requires '%' !in safe && '+' !in safe
    ensures UnquotePlus(Quote(s, safe)) == s
  {
    if s != [] {
      var q := QuoteByte(s[0], safe);
      var rest := Quote(s[1..], safe);
      UnquotePlusQuote(s[1..], safe);
      assert (q + rest)[|q|..] == rest;
      if AlwaysSafe(s[0]) || s[0] in safe {
        assert (q + rest)[0] == s[0] != '%';
        assert s[0] != '+';
      } else {
        assert (q + rest)[..3] == q;
      }
      assert [s[0]] + s[1..] == s;
    }
  }

  lemma {:induction false} UnquotePlusQuotePlus(s: Str)
    ensures UnquotePlus(QuotePlus(s)) == s
  {
    if s != [] {
      var q := if s[0] == ' ' then "+" else QuoteByte(s[0], {});
      var rest := QuotePlus(s[1..]);
      UnquotePlusQuotePlus(s[1..]);
      assert (q + rest)[|q|..] == rest;
      if s[0] == ' ' || AlwaysSafe(s[0]) {
        assert (q + rest)[0] != '%';
      } else {
        assert (q + rest)[..3] == q;
      }
      assert [s[0]] + s[1..] == s;
    }
  }

  lemma {:induction false} QuoteLength(s: Str, safe: set<Byte>)
    ensures |Quote(s, safe)| >= |s|
  {
    if s != [] {
      QuoteLength(s[1..], safe);
    }
  }

  /** `quote` works byte by byte, so it distributes over concatenation. */
  lemma {:induction false} QuoteAppend(a: Str, b: Str, safe: set<Byte>)
    ensures Quote(a + b, safe) == Quote(a, safe) + Quote(b, safe)
  {
    if a != [] {
      assert (a + b)[1..] == a[1..] + b;
      QuoteAppend(a[1..], b, safe);
    } else {
      assert a + b == b;
    }
  }

  /** `quote` returns its argument unchanged exactly when every byte of it is safe. */
  lemma {:induction false} QuoteUnchanged(s: Str, safe: set<Byte>)
    ensures Quote(s, safe) == s <==> forall i :: 0 <= i < |s| ==> AlwaysSafe(s[i]) || s[i] in safe
  {
    if s != [] {
      QuoteUnchanged(s[1..], safe);
      QuoteLength(s[1..], safe);
      var q := QuoteByte(s[0], safe);
      var rest := Quote(s[1..], safe);
      if AlwaysSafe(s[0]) || s[0] in safe {
        assert q + rest == s <==> rest == s[1..] by {
          if q + rest == s {
            assert (q + rest)[1..] == rest;
          }
        }
        assert (forall i :: 0 <= i < |s| ==> AlwaysSafe(s[i]) || s[i] in safe)
           <==> (forall i :: 0 <= i < |s[1..]| ==> AlwaysSafe(s[1..][i]) || s[1..][i] in safe) by {
          if forall i :: 0 <= i < |s[1..]| ==> AlwaysSafe(s[1..][i]) || s[1..][i] in safe {
            forall i | 0 <= i < |s| ensures AlwaysSafe(s[i]) || s[i] in safe {
              if i > 0 { assert s[i] == s[1..][i - 1]; }
            }
          }
        }
      } else {
        assert |q + rest| > |s|;
      }
    }
  }

  /** A decimal numeral (with its sign) passes through `quote` unchanged. */
  lemma DecimalUnquoted(n: int, safe: set<Byte>)
    ensures Quote(Decimal(n), safe) == Decimal(n)
  {
    QuoteUnchanged(Decimal(n), safe);
  }
}
