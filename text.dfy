/** The pieces of Rust's standard library the interpreter leans on for text:
    `str::parse` into an unsigned integer type, the decimal `Display` of an
    integer, and ASCII case folding. */
module Text {
  import opened Base

  predicate IsDigit(c: char)
  {
    '0' <= c <= '9'
  }

  predicate AllDigits(s: string)
  {
    forall i :: 0 <= i < |s| ==> IsDigit(s[i])
  }

  function DigitValue(c: char): nat
    requires IsDigit(c)
  {
    (c as int) - ('0' as int)
  }

  function DigitChar(d: nat): (c: char)
    requires d < 10
    ensures IsDigit(c) && DigitValue(c) == d
  {
    (('0' as int) + d) as char
  }

  /** The decimal value of a string of digits. */
  function DigitsValue(s: string): nat
    requires AllDigits(s)
  {
    if |s| == 0 then 0 else 10 * DigitsValue(s[..|s| - 1]) + DigitValue(s[|s| - 1])
  }

  /** The value of a string of digits, scanned from the left; `None` at the
      first character that is not a digit. */
  function ScanDigits(s: string): Option<nat>
  {
    if |s| == 0 then Some(0)
    else match ScanDigits(s[..|s| - 1])
      case None => None
      case Some(v) => if IsDigit(s[|s| - 1]) then Some(10 * v + DigitValue(s[|s| - 1])) else None
  }

  /** The scan finds a value exactly on a digit string, and that value is
      the string's decimal value. */
  lemma {:induction false} ScanDigitsValue(s: string)
    ensures ScanDigits(s).Some? <==> AllDigits(s)
    ensures ScanDigits(s).Some? ==> ScanDigits(s).value == DigitsValue(s)
  {
    if |s| > 0 {
      var pre := s[..|s| - 1];
      ScanDigitsValue(pre);
      if AllDigits(s) {
        assert AllDigits(pre) by {
          forall i | 0 <= i < |pre| ensures IsDigit(pre[i]) {
            assert pre[i] == s[i];
          }
        }
      } else if AllDigits(pre) && IsDigit(s[|s| - 1]) {
        forall i | 0 <= i < |s| ensures IsDigit(s[i]) {
          if i < |pre| {
            assert pre[i] == s[i];
          }
        }
        assert false;
      }
    }
  }

  /** `s.parse::<uN>()` for an unsigned type whose values are below `limit`:
      one optional leading '+', then at least one digit, and no overflow. */
  function ParseUnsigned(s: string, limit: nat): (r: Option<nat>)
    ensures r.Some? ==> r.value < limit
  {
    var body := if |s| > 0 && s[0] == '+' then s[1..] else s;
    if |body| == 0 then None
    else match ScanDigits(body)
      case None => None
      case Some(v) => if v < limit then Some(v) else None
  }

  /** A parse succeeds exactly on an optional '+' followed by a non-empty
      digit string whose value fits, and yields that value. */
  lemma ParseUnsignedAccepts(s: string, limit: nat)
    ensures var b := if |s| > 0 && s[0] == '+' then s[1..] else s;
            && (ParseUnsigned(s, limit).Some? <==> |b| > 0 && AllDigits(b) && DigitsValue(b) < limit)
            && (ParseUnsigned(s, limit).Some? ==> ParseUnsigned(s, limit).value == DigitsValue(b))
  {
    var b := if |s| > 0 && s[0] == '+' then s[1..] else s;
    ScanDigitsValue(b);
  }

  /** The decimal rendering of a natural number, as `{}` prints it. */
  function NatToString(n: nat): string
  {
    if n < 10 then [DigitChar(n)] else NatToString(n / 10) + [DigitChar(n % 10)]
  }

  /** Printing a number and parsing it back gives the number: the rendering
      is a non-empty digit string whose value is n. */
  lemma {:induction false} NatToStringRoundTrip(n: nat)
    ensures |NatToString(n)| > 0 && AllDigits(NatToString(n))
    ensures DigitsValue(NatToString(n)) == n
  {
    var s := NatToString(n);
    if n >= 10 {
      NatToStringRoundTrip(n / 10);
      assert s[..|s| - 1] == NatToString(n / 10);
    }
  }

  /** Parsing the rendering of any in-range number recovers it. */
  lemma ParsePrinted(n: nat, limit: nat)
    requires n < limit
    ensures ParseUnsigned(NatToString(n), limit) == Some(n)
  {
    NatToStringRoundTrip(n);
    assert NatToString(n)[0] != '+';
    ParseUnsignedAccepts(NatToString(n), limit);
  }

  function ToLowerAscii(c: char): char
  {
    if 'A' <= c <= 'Z' then ((c as int) + 32) as char else c
  }

  function ToLower(s: string): (r: string)
    ensures |r| == |s|
    ensures forall i :: 0 <= i < |s| ==> r[i] == ToLowerAscii(s[i])
  {
    if |s| == 0 then [] else [ToLowerAscii(s[0])] + ToLower(s[1..])
  }
}
