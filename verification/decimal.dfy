/**
 Decimal text for integers: the `%d` verb of Go's fmt package and
 strconv.Atoi, as the client uses them to put identifiers into paths, to
 render status codes and to read back a new workspace's identifier.
 Go's `int` is 64 bits wide on the platforms the client targets.
 */
module Decimal {
  import opened Wrappers

  const MaxInt64: int := 0x7FFF_FFFF_FFFF_FFFF
  const MinInt64: int := -0x8000_0000_0000_0000
  const MaxUint64: int := 0xFFFF_FFFF_FFFF_FFFF

  /** strconv's cutoff for base 10: the least accumulator whose product with 10 leaves 64 bits. */
  const Cutoff: int := MaxUint64 / 10 + 1

  predicate IsDigit(c: char) {
    '0' <= c <= '9'
  }

  predicate AllDigits(s: string) {
    forall i | 0 <= i < |s| :: IsDigit(s[i])
  }

  function DigitValue(c: char): nat
    requires IsDigit(c)
  {
    c as int - '0' as int
  }

  function DigitChar(d: nat): (c: char)
    requires d < 10
    ensures IsDigit(c) && DigitValue(c) == d
  {
    ('0' as int + d) as char
  }

  /** The value of the digits of `s`, read most significant first onto the accumulator `acc`. */
  function DigitsValue(s: string, acc: nat): nat
    requires AllDigits(s)
    decreases |s|
  {
    if s == [] then acc
    else
      assert AllDigits(s[1..]) by {
        forall i | 0 <= i < |s[1..]| ensures IsDigit(s[1..][i]) {
          assert s[1..][i] == s[i + 1];
        }
      }
      DigitsValue(s[1..], acc * 10 + DigitValue(s[0]))
  }

  lemma {:induction false} DigitsValueAtLeast(s: string, acc: nat)
    requires AllDigits(s)
    ensures DigitsValue(s, acc) >= acc
    decreases |s|
  {
    if s != [] {
      DigitsValueAtLeast(s[1..], acc * 10 + DigitValue(s[0]));
    }
  }

  /** Appending a digit multiplies the value read so far by ten and adds the digit. */
  lemma {:induction false} DigitsValueSnoc(s: string, c: char, acc: nat)
    requires AllDigits(s) && IsDigit(c)
    ensures AllDigits(s + [c])
    ensures DigitsValue(s + [c], acc) == DigitsValue(s, acc) * 10 + DigitValue(c)
    decreases |s|
  {
    assert AllDigits(s + [c]) by {
      forall i | 0 <= i < |s + [c]| ensures IsDigit((s + [c])[i]) {
        if i < |s| { assert (s + [c])[i] == s[i]; }
      }
    }
    if s == [] {
      assert (s + [c])[1..] == [];
    } else {
      assert (s + [c])[1..] == s[1..] + [c];
      DigitsValueSnoc(s[1..], c, acc * 10 + DigitValue(s[0]));
    }
  }

  /** `%d` of a non-negative integer: its digits, most significant first, with no leading zero. */
  function NatToString(n: nat): (s: string)
    ensures |s| > 0 && AllDigits(s)
    ensures DigitsValue(s, 0) == n
    ensures s[0] == '0' ==> s == "0"
    decreases n
  {
    if n < 10 then [DigitChar(n)]
    else
      var prefix := NatToString(n / 10);
      DigitsValueSnoc(prefix, DigitChar(n % 10), 0);
      prefix + [DigitChar(n % 10)]
  }

  /** `%d` of an integer: a minus sign for a negative value, then the digits of its magnitude. */
  function IntToString(x: int): (s: string)
    ensures |s| > 0
    ensures s[0] == '-' <==> x < 0
    ensures AllDigits(if x < 0 then s[1..] else s)
    ensures var d := if x < 0 then s[1..] else s;
      && DigitsValue(d, 0) == (if x < 0 then -x else x)
      && (d[0] == '0' ==> d == "0")
  {
    if x < 0 then
      assert ("-" + NatToString(-x))[1..] == NatToString(-x);
      "-" + NatToString(-x)
    else NatToString(x)
  }

  /** The text `%d` produces holds no character other than a sign and digits. */
  lemma IntToStringAvoids(x: int, c: char)
    requires c != '-' && !IsDigit(c)
    ensures c !in IntToString(x)
  {
  }

  /** The kind of a strconv.NumError. */
  datatype NumErr = ErrSyntax | ErrRange

  /** The pair strconv.Atoi returns: the value and, when it fails, the kind of error. */
  datatype Parsed = Parsed(value: int, err: Option<NumErr>)

  /** Where strconv.ParseUint's digit loop stops. */
  datatype Scan = Scanned(n: nat) | BadDigit | Overflow

  /**
   strconv.ParseUint's loop for base 10 and 64 bits: a character that is not a
   digit is a syntax error; an accumulator that would leave 64 bits is a range
   error at once, before the characters after it are looked at.
   */
  function ScanUint(s: string, acc: nat): Scan
    decreases |s|
  {
    if s == [] then Scanned(acc)
    else if !IsDigit(s[0]) then BadDigit
    else if acc >= Cutoff then Overflow
    else if acc * 10 + DigitValue(s[0]) > MaxUint64 then Overflow
    else ScanUint(s[1..], acc * 10 + DigitValue(s[0]))
  }

  /** The text after an optional leading sign. */
  function Magnitude(s: string): (m: string)
    ensures |s| > 0 && (s[0] == '+' || s[0] == '-') ==> s == [s[0]] + m
    ensures !(|s| > 0 && (s[0] == '+' || s[0] == '-')) ==> m == s
  {
    if |s| > 0 && (s[0] == '+' || s[0] == '-') then s[1..] else s
  }

  /** The longest run of digits `s` starts with. */
  function DigitPrefix(s: string): (p: string)
    ensures AllDigits(p) && |p| <= |s| && s[..|p|] == p
    ensures |p| < |s| ==> !IsDigit(s[|p|])
    decreases |s|
  {
    if s == [] || !IsDigit(s[0]) then []
    else
      var rest := DigitPrefix(s[1..]);
      assert s == [s[0]] + s[1..];
      [s[0]] + rest
  }

  /** strconv.ParseUint(s, 10, 64); the empty string is a syntax error. */
  function ParseUint(s: string): Scan {
    if s == [] then BadDigit else ScanUint(s, 0)
  }

  /**
   strconv.Atoi, which Go documents as ParseInt(s, 10, 0): an optional sign, then
   ParseUint on the rest; a syntax error yields 0, a value outside 64 bits yields
   the nearest 64-bit bound.
   */
  function Atoi(s: string): Parsed {
    if s == [] then Parsed(0, Some(ErrSyntax))
    else
      var neg := s[0] == '-';
      match ParseUint(Magnitude(s))
      case BadDigit => Parsed(0, Some(ErrSyntax))
      case Overflow => Parsed(if neg then MinInt64 else MaxInt64, Some(ErrRange))
      case Scanned(u) =>
        if !neg && u > MaxInt64 then Parsed(MaxInt64, Some(ErrRange))
        else if neg && u > -MinInt64 then Parsed(MinInt64, Some(ErrRange))
        else Parsed(if neg then -(u as int) else u as int, None)
  }

  predicate IsUnsignedDecimal(s: string) {
    |s| > 0 && AllDigits(s)
  }

  /** A decimal numeral with an optional leading `+` or `-`. */
  predicate IsSignedDecimal(s: string) {
    || IsUnsignedDecimal(s)
    || (|s| > 1 && (s[0] == '+' || s[0] == '-') && IsUnsignedDecimal(s[1..]))
  }

  function SignedValue(s: string): int
    requires IsSignedDecimal(s)
  {
    if IsUnsignedDecimal(s) then DigitsValue(s, 0)
    else if s[0] == '-' then -(DigitsValue(s[1..], 0) as int)
    else DigitsValue(s[1..], 0)
  }

  /** On a digit string the loop computes the value, or reports overflow exactly when it exceeds 64 bits. */
  lemma {:induction false} ScanUintOfDigits(s: string, acc: nat)
    requires AllDigits(s) && acc <= MaxUint64
    ensures DigitsValue(s, acc) <= MaxUint64 ==> ScanUint(s, acc) == Scanned(DigitsValue(s, acc))
    ensures DigitsValue(s, acc) > MaxUint64 ==> ScanUint(s, acc) == Overflow
    decreases |s|
  {
    if s != [] {
      var next := acc * 10 + DigitValue(s[0]);
      assert DigitsValue(s, acc) == DigitsValue(s[1..], next);
      DigitsValueAtLeast(s[1..], next);
      if acc < Cutoff && next <= MaxUint64 {
        ScanUintOfDigits(s[1..], next);
      }
    }
  }

  /** Once the digits read so far exceed 64 bits the loop stops with a range error, whatever follows them. */
  lemma {:induction false} ScanUintOverflowPrefix(s: string, t: string, acc: nat)
    requires AllDigits(s) && acc <= MaxUint64 && DigitsValue(s, acc) > MaxUint64
    ensures ScanUint(s + t, acc) == Overflow
    decreases |s|
  {
    if s != [] {
      var next := acc * 10 + DigitValue(s[0]);
      assert DigitsValue(s, acc) == DigitsValue(s[1..], next);
      assert (s + t)[0] == s[0] && (s + t)[1..] == s[1..] + t;
      if acc < Cutoff && next <= MaxUint64 {
        ScanUintOverflowPrefix(s[1..], t, next);
      }
    }
  }

  /** A string with a character that is not a digit never scans to a value. */
  lemma {:induction false} ScanUintRejectsNonDigit(s: string, acc: nat)
    requires !AllDigits(s)
    ensures !ScanUint(s, acc).Scanned?
    decreases |s|
  {
    var i :| 0 <= i < |s| && !IsDigit(s[i]);
    if i > 0 && IsDigit(s[0]) {
      var next := acc * 10 + DigitValue(s[0]);
      if acc < Cutoff && next <= MaxUint64 {
        assert s[1..][i - 1] == s[i];
        ScanUintRejectsNonDigit(s[1..], next);
      }
    }
  }

  /**
   Atoi succeeds exactly on the optionally signed decimal numerals whose value
   fits in 64 bits, and then returns that value; a numeral outside 64 bits is a
   range error carrying the nearest bound.
   */
  lemma AtoiAccepts(s: string)
    ensures Atoi(s).err.None? <==> IsSignedDecimal(s) && MinInt64 <= SignedValue(s) <= MaxInt64
    ensures Atoi(s).err.None? ==> Atoi(s).value == SignedValue(s)
    ensures IsSignedDecimal(s) && SignedValue(s) > MaxInt64 ==> Atoi(s) == Parsed(MaxInt64, Some(ErrRange))
    ensures IsSignedDecimal(s) && SignedValue(s) < MinInt64 ==> Atoi(s) == Parsed(MinInt64, Some(ErrRange))
  {
    if s != [] {
      var magnitude := Magnitude(s);
      assert IsSignedDecimal(s) <==> IsUnsignedDecimal(magnitude);
      if magnitude == [] {
      } else if AllDigits(magnitude) {
        ScanUintOfDigits(magnitude, 0);
      } else {
        ScanUintRejectsNonDigit(magnitude, 0);
      }
    }
  }

  /**
   A numeral too large for 64 bits is a range error even when a character that
   is not a digit follows it: the overflow is reported first.
   */
  lemma AtoiRangeBeforeSyntax(sign: string, s: string, t: string)
    requires sign == "" || sign == "+" || sign == "-"
    requires IsUnsignedDecimal(s) && DigitsValue(s, 0) > MaxUint64
    ensures Atoi(sign + s + t) == Parsed(if sign == "-" then MinInt64 else MaxInt64, Some(ErrRange))
  {
    var text := sign + s + t;
    if sign == "" {
      assert text == s + t && text[0] == s[0];
      assert Magnitude(text) == s + t;
    } else {
      assert text[0] == sign[0] && text[1..] == s + t;
      assert Magnitude(text) == s + t;
    }
    ScanUintOverflowPrefix(s, t, 0);
  }

  /** The loop stops at the first character that is not a digit when the digits before it fit in 64 bits. */
  lemma {:induction false} ScanUintStopsAtNonDigit(d: string, c: char, t: string, acc: nat)
    requires AllDigits(d) && !IsDigit(c)
    requires acc <= MaxUint64 && DigitsValue(d, acc) <= MaxUint64
    ensures ScanUint(d + [c] + t, acc) == BadDigit
    decreases |d|
  {
    var text := d + [c] + t;
    if d == [] {
      assert text[0] == c;
    } else {
      var next := acc * 10 + DigitValue(d[0]);
      assert DigitsValue(d, acc) == DigitsValue(d[1..], next);
      DigitsValueAtLeast(d[1..], next);
      assert text[0] == d[0] && text[1..] == d[1..] + [c] + t;
      ScanUintStopsAtNonDigit(d[1..], c, t, next);
    }
  }

  /**
   The texts Atoi calls a syntax error: the empty text, a lone sign, and a text
   whose digits after the sign stop at another character before they exceed
   64 bits.
   */
  predicate IsSyntaxError(s: string) {
    s == [] || (!IsUnsignedDecimal(Magnitude(s)) && DigitsValue(DigitPrefix(Magnitude(s)), 0) <= MaxUint64)
  }

  /** Atoi reports a syntax error exactly on the texts IsSyntaxError names, and then returns 0. */
  lemma AtoiSyntaxError(s: string)
    ensures Atoi(s).err == Some(ErrSyntax) <==> IsSyntaxError(s)
    ensures IsSyntaxError(s) ==> Atoi(s) == Parsed(0, Some(ErrSyntax))
  {
    if s != [] {
      var m := Magnitude(s);
      var p := DigitPrefix(m);
      if m == [] {
      } else if AllDigits(m) {
        ScanUintOfDigits(m, 0);
      } else {
        assert |p| < |m|;
        var c, t := m[|p|], m[|p| + 1..];
        assert m == p + [c] + t;
        if DigitsValue(p, 0) <= MaxUint64 {
          ScanUintStopsAtNonDigit(p, c, t, 0);
        } else {
          ScanUintOverflowPrefix(p, [c] + t, 0);
          assert p + ([c] + t) == m;
        }
      }
    }
  }

  /** A range error always carries the bound on the side of the sign, whatever the rest of the text is. */
  lemma AtoiRangeClamps(s: string)
    ensures Atoi(s).err == Some(ErrRange) ==> |s| > 0 && Atoi(s).value == (if s[0] == '-' then MinInt64 else MaxInt64)
    ensures Atoi(s).err == Some(ErrSyntax) ==> Atoi(s).value == 0
  {
  }

  /** Reading back what `%d` wrote gives the original integer, for every 64-bit value. */
  lemma AtoiIntToString(x: int)
    requires MinInt64 <= x <= MaxInt64
    ensures Atoi(IntToString(x)) == Parsed(x, None)
  {
    var s := IntToString(x);
    if x < 0 {
      assert s[1..] == NatToString(-x);
    }
    AtoiAccepts(s);
  }
}
