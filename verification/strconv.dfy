/**
 * The parts of Go's `strconv` package that the Jaeger environment parser
 * uses: base-10 64-bit integer parsing and boolean parsing, each with the
 * formatter that inverts it.
 */
module GoStrconv {
  import opened Wrappers

  const MinInt64: int := -0x8000_0000_0000_0000
  const MaxInt64: int := 0x7FFF_FFFF_FFFF_FFFF

  predicate IsDigit(c: char) {
    '0' <= c <= '9'
  }

  /** A non-empty run of decimal digits. */
  predicate IsDecimal(s: string) {
    s != [] && forall i :: 0 <= i < |s| ==> IsDigit(s[i])
  }

  /** The value of a run of decimal digits, most significant first. */
  function DecimalValue(s: string): (n: nat)
    requires forall i :: 0 <= i < |s| ==> IsDigit(s[i])
    decreases |s|
  {
    if s == [] then 0
    else
      assert IsDigit(s[|s| - 1]);
      DecimalValue(s[..|s| - 1]) * 10 + (s[|s| - 1] as int - '0' as int)
  }

  /**
   * strconv.ParseInt(s, 10, 64): an optional sign followed by at least one
   * decimal digit, whose value fits in 64 bits; None for a syntax or range error.
   */
  function ParseInt(s: string): (r: Option<int>)
    ensures r.Some? ==> MinInt64 <= r.value <= MaxInt64
    ensures r.Some? ==> s != [] && (IsDigit(s[0]) || s[0] == '+' || s[0] == '-')
    ensures r.Some? ==> forall i :: 0 < i < |s| ==> IsDigit(s[i])
  {
    if s == [] then None
    else
      var neg := s[0] == '-';
      var digits := if s[0] == '+' || s[0] == '-' then s[1..] else s;
      if !IsDecimal(digits) then None
      else
        var value: int := DecimalValue(digits);
        var n := if neg then -value else value;
        if MinInt64 <= n <= MaxInt64 then Some(n) else None
  }

  /** The decimal digits of `n`, without leading zeros. */
  function Digits(n: nat): (s: string)
    ensures IsDecimal(s)
    ensures DecimalValue(s) == n
    decreases n
  {
    var d := ['0' + ((n % 10) as char)];
    if n < 10 then d
    else
      var prefix := Digits(n / 10);
      assert (prefix + d)[..|prefix + d| - 1] == prefix;
      prefix + d
  }

  /** strconv.FormatInt(n, 10). */
  function FormatInt(n: int): string {
    if n < 0 then "-" + Digits(-n) else Digits(n)
  }

  /** ParseInt reads back every 64-bit integer FormatInt writes. */
  lemma ParseFormatInt(n: int)
    requires MinInt64 <= n <= MaxInt64
    ensures ParseInt(FormatInt(n)) == Some(n)
  {
    if n < 0 {
      assert FormatInt(n)[1..] == Digits(-n);
    }
  }

  /** A leading plus sign is accepted and changes nothing. */
  lemma ParseIntPlusSign(digits: string)
    requires IsDecimal(digits)
    ensures ParseInt("+" + digits) == ParseInt(digits)
  {
    assert ("+" + digits)[1..] == digits;
  }

  /** strconv.ParseBool: the six spellings of true and the six of false. */
  function ParseBool(s: string): (r: Option<bool>)
    ensures r == Some(true) <==> s in {"1", "t", "T", "TRUE", "true", "True"}
    ensures r == Some(false) <==> s in {"0", "f", "F", "FALSE", "false", "False"}
  {
    match s
    case "1" => Some(true)
    case "t" => Some(true)
    case "T" => Some(true)
    case "TRUE" => Some(true)
    case "true" => Some(true)
    case "True" => Some(true)
    case "0" => Some(false)
    case "f" => Some(false)
    case "F" => Some(false)
    case "FALSE" => Some(false)
    case "false" => Some(false)
    case "False" => Some(false)
    case _ => None
  }

  /** strconv.FormatBool. */
  function FormatBool(b: bool): string {
    if b then "true" else "false"
  }

  /** ParseBool reads back what FormatBool writes. */
  lemma ParseFormatBool(b: bool)
    ensures ParseBool(FormatBool(b)) == Some(b)
  {
  }
}
