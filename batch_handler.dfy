/** internal/adapters/http/handlers/batch_handler.go: `parseIDParam`, the
    path-parameter parser of every update handler, over the semantics of
    Go's `strconv.ParseInt(s, 10, 64)`. */
module BatchHandler {
  import Text

  const MaxInt64: int := 0x7FFF_FFFF_FFFF_FFFF
  const MinInt64: int := -0x8000_0000_0000_0000
  const MaxUint64: int := 0xFFFF_FFFF_FFFF_FFFF
  /** `strconv`'s overflow threshold for base 10: `maxUint64/10 + 1`. */
  const Cutoff: int := MaxUint64 / 10 + 1

  /** What `parseIDParam` returns: an id, or which error. */
  datatype Parsed = Id(value: int) | MissingId | InvalidSyntax | OutOfRange

  /** The message of `MissingId`; the other two carry `strconv`'s
      `NumError` text. */
  const MissingIdMessage: string := "missing id"

  function DigitValue(c: char): int
    requires Text.IsAsciiDigit(c)
  {
    c as int - '0' as int
  }

  predicate AllDigits(s: string) {
    forall i :: 0 <= i < |s| ==> Text.IsAsciiDigit(s[i])
  }

  /** The number a string of decimal digits denotes. */
  function DigitsValue(s: string): nat
    requires AllDigits(s)
  {
    if s == [] then 0 else DigitsValue(s[..|s| - 1]) * 10 + DigitValue(s[|s| - 1])
  }

  /** The state of `ParseUint`'s loop after reading `s` left to right: a
      value so far, or the error it returned. */
  datatype Scan = Value(n: nat) | SyntaxError | RangeError

  /** `ParseUint`'s loop for base 10 and 64 bits: a non-digit is a syntax
      error; an accumulator that has reached `Cutoff`, or a step past
      `MaxUint64`, is a range error; the first error ends the loop. */
  function ScanDigits(s: string): (r: Scan)
    ensures r.Value? ==> r.n <= MaxUint64
  {
    if s == [] then Value(0)
    else match ScanDigits(s[..|s| - 1])
      case SyntaxError => SyntaxError
      case RangeError => RangeError
      case Value(n) =>
        var c := s[|s| - 1];
        if !Text.IsAsciiDigit(c) then SyntaxError
        else if n >= Cutoff then RangeError
        else if n * 10 + DigitValue(c) > MaxUint64 then RangeError
        else Value(n * 10 + DigitValue(c))
  }

  /** On digits the loop computes the decimal value, or reports a range
      error exactly when that value exceeds `MaxUint64`. */
  lemma {:induction false} ScanDigitsOfDigits(s: string)
    requires AllDigits(s)
    ensures DigitsValue(s) <= MaxUint64 ==> ScanDigits(s) == Value(DigitsValue(s))
    ensures DigitsValue(s) > MaxUint64 ==> ScanDigits(s) == RangeError
  {
    if s != [] {
      var p := s[..|s| - 1];
      assert AllDigits(p);
      ScanDigitsOfDigits(p);
      assert DigitsValue(s) >= DigitsValue(p) * 10;
    }
  }

  /** A non-digit anywhere makes the loop fail. */
  lemma {:induction false} ScanDigitsOfNonDigits(s: string)
    requires !AllDigits(s)
    ensures !ScanDigits(s).Value?
  {
    var p := s[..|s| - 1];
    if Text.IsAsciiDigit(s[|s| - 1]) {
      assert !AllDigits(p) by {
        var i :| 0 <= i < |s| && !Text.IsAsciiDigit(s[i]);
        assert i < |s| - 1 && p[i] == s[i];
      }
      ScanDigitsOfNonDigits(p);
    }
  }

  /** `strconv.ParseInt(s, 10, 64)`: an optional sign, then `ParseUint`
      on the rest (an empty rest is a syntax error), then the signed
      range check. */
  function ParseInt(s: string): (r: Parsed)
    ensures r.Id? ==> MinInt64 <= r.value <= MaxInt64
    ensures r != MissingId
  {
    if s == [] then InvalidSyntax
    else
      var neg := s[0] == '-';
      var body := if s[0] == '+' || s[0] == '-' then s[1..] else s;
      if body == [] then InvalidSyntax
      else match ScanDigits(body)
        case SyntaxError => InvalidSyntax
        case RangeError => OutOfRange
        case Value(u) =>
          if !neg && u > MaxInt64 then OutOfRange
          else if neg && u > -MinInt64 then OutOfRange
          else Id(if neg then -(u as int) else u)
  }

  /** The text `ParseInt` accepts: an optional sign and at least one
      digit. */
  predicate IsDecimal(s: string) {
    s != [] && var body := if s[0] == '+' || s[0] == '-' then s[1..] else s;
    body != [] && AllDigits(body)
  }

  /** The integer a decimal text denotes. */
  function SignedValue(s: string): int
    requires IsDecimal(s)
  {
    var body := if s[0] == '+' || s[0] == '-' then s[1..] else s;
    if s[0] == '-' then -(DigitsValue(body) as int) else DigitsValue(body)
  }

  /** `ParseInt` succeeds exactly on decimal text whose value fits in 64
      signed bits, and then yields that value; decimal text outside the
      range is a range error, and anything else is an error. */
  lemma ParseIntMeaning(s: string)
    ensures ParseInt(s).Id? <==> IsDecimal(s) && MinInt64 <= SignedValue(s) <= MaxInt64
    ensures ParseInt(s).Id? ==> ParseInt(s).value == SignedValue(s)
    ensures IsDecimal(s) && !(MinInt64 <= SignedValue(s) <= MaxInt64) ==> ParseInt(s) == OutOfRange
  {
    if s != [] {
      var body := if s[0] == '+' || s[0] == '-' then s[1..] else s;
      if body != [] {
        if AllDigits(body) {
          ScanDigitsOfDigits(body);
        } else {
          ScanDigitsOfNonDigits(body);
        }
      }
    }
  }

  /** `parseIDParam`: trim, refuse what is left empty, parse the rest. No
      sign or range of its own is imposed. */
  function ParseIdParam(param: string): (r: Parsed)
    ensures Text.AllSpace(param) <==> r == MissingId
    ensures r.Id? ==> MinInt64 <= r.value <= MaxInt64
  {
    var s := Text.TrimSpace(param);
    if s == "" then MissingId else ParseInt(s)
  }

  function DigitChar(d: int): char
    requires 0 <= d <= 9
  {
    (d + '0' as int) as char
  }

  /** `strconv.FormatUint(u, 10)`: the digits, no leading zero. */
  function FormatUint(u: nat): (r: string)
    ensures r != [] && AllDigits(r)
    ensures DigitsValue(r) == u
  {
    if u < 10 then [DigitChar(u)] else FormatUint(u / 10) + [DigitChar(u % 10)]
  }

  /** `strconv.FormatInt(v, 10)`. */
  function FormatInt(v: int): string {
    if v < 0 then "-" + FormatUint(-v) else FormatUint(v)
  }

  /** Every int64 written out by `FormatInt` parses back to itself, with or
      without surrounding white space. */
  lemma FormatIntRoundTrip(v: int, pad: string)
    requires MinInt64 <= v <= MaxInt64
    requires Text.AllSpace(pad)
    ensures ParseInt(FormatInt(v)) == Id(v)
    ensures ParseIdParam(pad + FormatInt(v) + pad) == Id(v)
  {
    var s := FormatInt(v);
    assert IsDecimal(s) && SignedValue(s) == v by {
      if v < 0 {
        assert s[1..] == FormatUint(-v);
      }
    }
    ParseIntMeaning(s);
    PaddedTrims(pad, s);
  }

  /** Trimming removes white space padding from decimal text. */
  lemma PaddedTrims(pad: string, s: string)
    requires Text.AllSpace(pad) && IsDecimal(s)
    ensures Text.TrimSpace(pad + s + pad) == s
  {
    assert !Text.IsSpace(s[0]) && !Text.IsSpace(s[|s| - 1]);
    assert pad + s + pad == pad + (s + pad);
    TrimLeftOfPadded(pad, s + pad);
    TrimRightOfPadded(s, pad);
  }

  lemma {:induction false} TrimLeftOfPadded(pad: string, s: string)
    requires Text.AllSpace(pad) && s != [] && !Text.IsSpace(s[0])
    ensures Text.TrimLeft(pad + s) == s
  {
    if pad != [] {
      assert (pad + s)[1..] == pad[1..] + s;
      TrimLeftOfPadded(pad[1..], s);
    }
  }

  lemma {:induction false} TrimRightOfPadded(s: string, pad: string)
    requires Text.AllSpace(pad) && s != [] && !Text.IsSpace(s[|s| - 1])
    ensures Text.TrimRight(s + pad) == s
  {
    if pad != [] {
      assert (s + pad)[..|s + pad| - 1] == s + pad[..|pad| - 1];
      TrimRightOfPadded(s, pad[..|pad| - 1]);
    }
  }

  /** A leading plus sign is accepted like no sign at all. */
  lemma PlusSignAccepted(u: nat, pad: string)
    requires u <= MaxInt64
    requires Text.AllSpace(pad)
    ensures ParseIdParam(pad + (['+'] + FormatUint(u)) + pad) == Id(u)
  {
    var d := FormatUint(u);
    var s := ['+'] + d;
    assert s[0] == '+' && s[1..] == d;
    assert IsDecimal(s) && SignedValue(s) == u;
    ParseIntMeaning(s);
    PaddedTrims(pad, s);
  }
}
