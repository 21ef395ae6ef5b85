/** The two conversions of Go's `strconv` package that the job relies on:
    `Itoa` builds the `start` and `limit` query values, `Atoi` reads
    FETCH_DATA_SINCE_HOURS. Go's `int` is taken to be 64 bits wide. */
module Strconv {
  import opened Wrappers
  import opened Errors

  const Int64Min: int := -0x8000_0000_0000_0000
  const Int64Max: int :=  0x7FFF_FFFF_FFFF_FFFF

  predicate IsDigit(c: char) {
    '0' <= c <= '9'
  }

  predicate AllDigits(s: string) {
    forall i :: 0 <= i < |s| ==> IsDigit(s[i])
  }

  function Abs(x: int): nat {
    if x < 0 then -x else x
  }

  function DigitChar(d: nat): (c: char)
    requires d < 10
    ensures IsDigit(c) && c as int - '0' as int == d
  {
    (d + '0' as int) as char
  }

  /** The decimal digits of u, most significant first, without leading zeros. */
  function Digits(u: nat): (s: string)
    ensures 1 <= |s| && AllDigits(s)
    ensures 0 < u ==> s[0] != '0'
  {
    if u < 10 then [DigitChar(u)] else Digits(u / 10) + [DigitChar(u % 10)]
  }

  /** The number denoted by a string of decimal digits (0 for the empty string). */
  function Value(s: string): nat
    requires AllDigits(s)
  {
    if s == [] then 0 else Value(s[..|s| - 1]) * 10 + (s[|s| - 1] as int - '0' as int)
  }

  function Pow10(k: nat): (p: nat)
    ensures 1 <= p
  {
    if k == 0 then 1 else 10 * Pow10(k - 1)
  }

  function Zeros(n: nat): (s: string)
    ensures |s| == n && AllDigits(s)
  {
    seq(n, _ => '0')
  }

  /** s with '0' characters prepended until it is at least width long. */
  function ZeroPad(s: string, width: nat): (r: string)
    ensures |r| == if |s| < width then width else |s|
    ensures AllDigits(s) ==> AllDigits(r)
    ensures r[|r| - |s|..] == s
  {
    if |s| < width then Zeros(width - |s|) + s else s
  }

  /** strconv.Itoa: an optional '-' followed by the digits of |x|. */
  function Itoa(x: int): (s: string)
  {
    (if x < 0 then "-" else "") + Digits(Abs(x))
  }

  const Uint64Max: int := 0xFFFF_FFFF_FFFF_FFFF

  /** The part of a numeral after its optional leading sign. */
  function Magnitude(s: string): (m: string)
    requires s != []
    ensures |m| + 1 >= |s|
  {
    if s[0] == '-' || s[0] == '+' then s[1..] else s
  }

  /** An optional '+' or '-' followed by at least one decimal digit. */
  predicate IsDecimal(s: string) {
    s != [] && Magnitude(s) != [] && AllDigits(Magnitude(s))
  }

  /** The number a decimal numeral denotes. */
  function SignedValue(s: string): int
    requires IsDecimal(s)
  {
    if s[0] == '-' then 0 - Value(Magnitude(s)) as int else Value(Magnitude(s))
  }

  /** How the digit loop of `ParseUint` ends. */
  datatype Scan = Scanned(value: nat) | NotADigit | Overflow

  /** The digit loop of `ParseUint` in base 10, one character at a time from
      the left: a character that is not a digit is a syntax error, and a
      value that passes 2^64 - 1 is a range error as soon as it does, before
      any later character is looked at. */
  function ScanDigits(s: string): (r: Scan)
    ensures r.Scanned? ==> AllDigits(s) && r.value == Value(s) <= Uint64Max
    ensures AllDigits(s) ==> (r.Scanned? <==> Value(s) <= Uint64Max) && !r.NotADigit?
  {
    if s == [] then Scanned(0)
    else
      var init := s[..|s| - 1];
      var c := s[|s| - 1];
      assert AllDigits(s) ==> AllDigits(init) by {
        assert forall i :: 0 <= i < |init| ==> init[i] == s[i];
      }
      match ScanDigits(init)
      case NotADigit => NotADigit
      case Overflow => Overflow
      case Scanned(n) =>
        if !IsDigit(c) then NotADigit
        else
          var n1 := n * 10 + (c as int - '0' as int);
          if Uint64Max < n1 then Overflow else Scanned(n1)
  }

  /** strconv.Atoi for a 64-bit int (its fast path for short inputs and its
      `ParseInt` path agree on every input): an optional '+' or '-' and at
      least one decimal digit, nothing else (no spaces, no underscores, no
      base prefix). It succeeds exactly on decimal numerals within the int64
      range, with their value; a decimal numeral outside that range is a
      range error. */
  function Atoi(s: string): (r: Result<int, Error>)
    ensures r.Success? <==> IsDecimal(s) && Int64Min <= SignedValue(s) <= Int64Max
    ensures r.Success? ==> r.value == SignedValue(s)
    ensures r.Failure? ==> r.error == SyntaxError(s) || r.error == RangeError(s)
    ensures IsDecimal(s) && r.Failure? ==> r.error == RangeError(s)
  {
    if s == [] then Failure(SyntaxError(s))
    else
      var body := Magnitude(s);
      if body == [] then Failure(SyntaxError(s))
      else match ScanDigits(body)
        case NotADigit => Failure(SyntaxError(s))
        case Overflow => Failure(RangeError(s))
        case Scanned(v) =>
          var n: int := if s[0] == '-' then 0 - v as int else v;
          if n < Int64Min || Int64Max < n then Failure(RangeError(s)) else Success(n)
  }

  lemma {:induction false} ValueOfDigits(u: nat)
    ensures Value(Digits(u)) == u
  {
    if 10 <= u {
      var s := Digits(u);
      assert s[..|s| - 1] == Digits(u / 10);
      ValueOfDigits(u / 10);
    }
  }

  lemma {:induction false} ValueOfZeros(n: nat)
    ensures Value(Zeros(n)) == 0
  {
    if 0 < n {
      assert Zeros(n)[..n - 1] == Zeros(n - 1);
      ValueOfZeros(n - 1);
    }
  }

  /** Leading zeros do not change the value of a digit string. */
  lemma {:induction false} ValueIgnoresLeadingZeros(n: nat, s: string)
    requires AllDigits(s)
    ensures AllDigits(Zeros(n) + s) && Value(Zeros(n) + s) == Value(s)
  {
    var t := Zeros(n) + s;
    assert AllDigits(t) by {
      forall i | 0 <= i < |t| ensures IsDigit(t[i]) {
        if i < n { assert t[i] == Zeros(n)[i]; } else { assert t[i] == s[i - n]; }
      }
    }
    if s == [] {
      assert t == Zeros(n);
      ValueOfZeros(n);
    } else {
      assert t[..|t| - 1] == Zeros(n) + s[..|s| - 1];
      ValueIgnoresLeadingZeros(n, s[..|s| - 1]);
    }
  }

  /** A number below 10^k has at most k digits. */
  lemma {:induction false} DigitsLength(u: nat, k: nat)
    requires 1 <= k && u < Pow10(k)
    ensures |Digits(u)| <= k
  {
    if 10 <= u {
      assert Pow10(k) == 10 * Pow10(k - 1);
      assert 1 < k;
      DigitsLength(u / 10, k - 1);
    }
  }

  /** Itoa and Atoi are inverse on the int64 range. */
  lemma AtoiItoa(x: int)
    requires Int64Min <= x <= Int64Max
    ensures Atoi(Itoa(x)) == Success(x)
  {
    AtoiOfItoa(x);
  }

  /** What Atoi makes of Itoa's output, for any x. */
  lemma AtoiOfItoa(x: int)
    ensures Atoi(Itoa(x)) == if x < Int64Min || Int64Max < x then Failure(RangeError(Itoa(x))) else Success(x)
  {
    ItoaIsDecimal(x);
  }

  /** Itoa prints a decimal numeral worth the number itself. */
  lemma ItoaIsDecimal(x: int)
    ensures IsDecimal(Itoa(x)) && SignedValue(Itoa(x)) == x
  {
    var s := Itoa(x);
    var d := Digits(Abs(x));
    ValueOfDigits(Abs(x));
    if x < 0 {
      assert s == "-" + d;
      assert s[0] == '-' && Magnitude(s) == d;
    } else {
      assert s == d && IsDigit(d[0]);
      assert Magnitude(s) == d;
    }
  }

  /** Atoi refuses what Itoa prints for a number beyond int64. */
  lemma AtoiRejectsBeyondInt64(x: int)
    requires x < Int64Min || Int64Max < x
    ensures Atoi(Itoa(x)) == Failure(RangeError(Itoa(x)))
  {
    AtoiOfItoa(x);
  }

  /** A leading '+' and leading zeros are accepted. */
  lemma AtoiAcceptsPlusAndZeros(n: nat, zeros: nat)
    requires n <= Int64Max
    ensures Atoi("+" + Zeros(zeros) + Digits(n)) == Success(n)
  {
    var s := "+" + Zeros(zeros) + Digits(n);
    assert Magnitude(s) == Zeros(zeros) + Digits(n);
    ValueIgnoresLeadingZeros(zeros, Digits(n));
    ValueOfDigits(n);
  }

  /** Once the scan has stopped with an error, later characters leave that
      error as it is. */
  lemma {:induction false} ScanStops(s: string, t: string)
    requires !ScanDigits(s).Scanned?
    ensures ScanDigits(s + t) == ScanDigits(s)
  {
    if t != [] {
      var k := |t| - 1;
      assert (s + t)[..|s + t| - 1] == s + t[..k];
      ScanStops(s, t[..k]);
    } else {
      assert s + t == s;
    }
  }

  /** A character that is not a digit, reached after digits worth at most
      2^64 - 1, makes the input a syntax error: Atoi takes no spaces, units
      or separators. */
  lemma AtoiRejectsNonDigit(s: string, i: nat)
    requires i < |s| && !IsDigit(s[i])
    requires i == 0 ==> s[0] != '-' && s[0] != '+'
    requires var from := if s[0] == '-' || s[0] == '+' then 1 else 0;
      AllDigits(s[from..i]) && Value(s[from..i]) <= Uint64Max
    ensures Atoi(s) == Failure(SyntaxError(s))
  {
    var from := if s[0] == '-' || s[0] == '+' then 1 else 0;
    var digits := s[from..i];
    assert Magnitude(s) == digits + [s[i]] + s[i + 1..];
    ScanNonDigit(digits, s[i], s[i + 1..]);
  }

  /** The scan of digits worth at most 2^64 - 1 followed by a non-digit
      stops there with a syntax error. */
  lemma ScanNonDigit(digits: string, c: char, rest: string)
    requires AllDigits(digits) && Value(digits) <= Uint64Max && !IsDigit(c)
    ensures ScanDigits(digits + [c] + rest) == NotADigit
  {
    assert (digits + [c])[..|digits|] == digits;
    assert ScanDigits(digits + [c]) == NotADigit;
    ScanStops(digits + [c], rest);
  }

  /** Digits worth more than 2^64 - 1 make the input a range error even
      when a character that is not a digit follows them, since the scan
      stops at the overflow. */
  lemma AtoiOverflowBeforeNonDigit(digits: string, rest: string)
    requires digits != [] && AllDigits(digits) && Uint64Max < Value(digits)
    ensures Atoi(digits + rest) == Failure(RangeError(digits + rest))
  {
    var s := digits + rest;
    assert s[0] == digits[0] && IsDigit(digits[0]);
    assert Magnitude(s) == s;
    ScanStops(digits, rest);
  }

  lemma {:induction false} Pow10Add(a: nat, b: nat)
    ensures Pow10(a + b) == Pow10(a) * Pow10(b)
  {
    if 0 < a {
      Pow10Add(a - 1, b);
    }
  }

  /** A digit string is worth at least its leading digit times 10^(length - 1). */
  lemma {:induction false} ValueLowerBound(s: string)
    requires s != [] && AllDigits(s)
    ensures (s[0] as int - '0' as int) * Pow10(|s| - 1) <= Value(s)
  {
    if 1 < |s| {
      var init := s[..|s| - 1];
      assert init[0] == s[0] && AllDigits(init);
      ValueLowerBound(init);
      assert Pow10(|s| - 1) == 10 * Pow10(|init| - 1);
    }
  }

  /** "99999999999999999999x" is a range error, not a syntax error. */
  lemma AtoiOverflowExample()
    ensures Atoi("99999999999999999999x").Failure?
    ensures Atoi("99999999999999999999x").error == RangeError("99999999999999999999x")
  {
    var d := "99999999999999999999";
    assert Uint64Max < Value(d) by {
      assert |d| == 20 && d[0] == '9' && AllDigits(d);
      ValueLowerBound(d);
      assert Pow10(3) == 1000 && Pow10(4) == 10000;
      Pow10Add(4, 4);
      assert Pow10(8) == 100_000_000;
      Pow10Add(8, 8);
      assert Pow10(16) == 10_000_000_000_000_000;
      Pow10Add(16, 3);
      assert Pow10(19) == 10_000_000_000_000_000_000;
    }
    assert d + "x" == "99999999999999999999x";
    AtoiOverflowBeforeNonDigit(d, "x");
  }

  /** An empty input and a bare sign are syntax errors. */
  lemma AtoiRejectsEmpty()
    ensures Atoi("") == Failure(SyntaxError(""))
    ensures Atoi("-") == Failure(SyntaxError("-")) && Atoi("+") == Failure(SyntaxError("+"))
  {
    assert "-"[1..] == [] && "+"[1..] == [];
  }

  lemma AtoiRejectsExamples()
    ensures Atoi(" 24").Failure? && Atoi("24h").Failure? && Atoi("2_4").Failure?
  {
    AtoiRejectsNonDigit(" 24", 0);
    assert "24h"[0..2] == "24" && "24"[..1] == "2" && "2"[..0] == "";
    AtoiRejectsNonDigit("24h", 2);
    assert "2_4"[0..1] == "2";
    AtoiRejectsNonDigit("2_4", 1);
  }
}
