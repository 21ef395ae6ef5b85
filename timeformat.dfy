/** The `startDate` query value: Go's `Time.Format` with the layout
    "2006-01-02T15-04-05Z", applied to an instant already broken into its
    UTC calendar fields (the epoch-to-calendar conversion of `since.UTC()`
    is not part of this model). */
module TimeFormat {
  import opened Wrappers
  import opened Strconv

  datatype UtcTime = UtcTime(year: int, month: int, day: int,
                             hour: int, minute: int, second: int, nanosecond: int)

  /** The zero `time.Time`: January 1 of year 1, 00:00:00.000000000 UTC. */
  const ZeroTime: UtcTime := UtcTime(1, 1, 1, 0, 0, 0, 0)

  /** `Time.IsZero`: the instant is the zero time (its location plays no part). */
  predicate IsZero(t: UtcTime)
    ensures IsZero(t) <==> (t.year == 1 && t.month == 1 && t.day == 1 && t.hour == 0 &&
                            t.minute == 0 && t.second == 0 && t.nanosecond == 0)
    ensures IsZero(t) ==> Valid(t)
  {
    t == ZeroTime
  }

  /** The ranges the calendar fields take for any real instant. */
  predicate Valid(t: UtcTime) {
    && 1 <= t.month <= 12 && 1 <= t.day <= 31
    && 0 <= t.hour < 24 && 0 <= t.minute < 60 && 0 <= t.second < 60
    && 0 <= t.nanosecond < 1_000_000_000
  }

  /** Go's internal `appendInt(b, x, width)`: a '-' for a negative x, then the
      digits of |x| zero-padded to width. */
  function AppendInt(x: int, width: nat): (s: string)
    ensures width <= |s|
  {
    (if x < 0 then "-" else "") + ZeroPad(Digits(Abs(x)), width)
  }

  /** Layout "2006-01-02T15-04-05Z": long year, zero-padded month, day, 24-hour
      hour, minute and second; every '-', the 'T' and the final 'Z' are
      literal text, and the nanoseconds are not printed. */
  function FormatStartDate(t: UtcTime): (s: string)
    ensures 20 <= |s| && s[|s| - 1] == 'Z'
  {
    AppendInt(t.year, 4) + "-" + AppendInt(t.month, 2) + "-" + AppendInt(t.day, 2) + "T" +
    AppendInt(t.hour, 2) + "-" + AppendInt(t.minute, 2) + "-" + AppendInt(t.second, 2) + "Z"
  }

  function Separators(): set<int> {
    {4, 7, 10, 13, 16, 19}
  }

  /** The inverse of FormatStartDate on its 20-character outputs. */
  function ParseStartDate(s: string): (r: Option<UtcTime>)
    ensures r.Some? ==> |s| == 20 && r.value.nanosecond == 0
  {
    if && |s| == 20
       && s[4] == '-' && s[7] == '-' && s[10] == 'T' && s[13] == '-' && s[16] == '-' && s[19] == 'Z'
       && AllDigits(s[0..4]) && AllDigits(s[5..7]) && AllDigits(s[8..10])
       && AllDigits(s[11..13]) && AllDigits(s[14..16]) && AllDigits(s[17..19])
    then Some(UtcTime(Value(s[0..4]), Value(s[5..7]), Value(s[8..10]),
                      Value(s[11..13]), Value(s[14..16]), Value(s[17..19]), 0))
    else None
  }

  /** A non-negative field below 10^width prints as exactly width digits
      that read back as the field. */
  lemma PaddedField(x: int, width: nat)
    requires 1 <= width && 0 <= x < Pow10(width)
    ensures |AppendInt(x, width)| == width
    ensures AllDigits(AppendInt(x, width)) && Value(AppendInt(x, width)) == x
  {
    var d := Digits(x);
    DigitsLength(x, width);
    ValueOfDigits(x);
    ValueIgnoresLeadingZeros(width - |d|, d);
    assert AppendInt(x, width) == Zeros(width - |d|) + d;
  }

  /** For the years 0 to 9999 the value is 20 characters: '-' at 4, 7, 13 and
      16, 'T' at 10, 'Z' at 19 and a decimal digit everywhere else. */
  lemma {:induction false} StartDateShape(t: UtcTime)
    requires Valid(t) && 0 <= t.year <= 9999
    ensures var s := FormatStartDate(t);
      && |s| == 20
      && s[4] == '-' && s[7] == '-' && s[10] == 'T' && s[13] == '-' && s[16] == '-' && s[19] == 'Z'
      && forall i :: 0 <= i < 20 && i !in Separators() ==> IsDigit(s[i])
  {
    var s := FormatStartDate(t);
    Fields(t);
    forall i | 0 <= i < 20 && i !in Separators() ensures IsDigit(s[i]) {
      if i < 4 { assert s[i] == s[0..4][i]; }
      else if i < 7 { assert s[i] == s[5..7][i - 5]; }
      else if i < 10 { assert s[i] == s[8..10][i - 8]; }
      else if i < 13 { assert s[i] == s[11..13][i - 11]; }
      else if i < 16 { assert s[i] == s[14..16][i - 14]; }
      else { assert s[i] == s[17..19][i - 17]; }
    }
  }

  /** The formatted value splits into the six printed fields. */
  lemma Fields(t: UtcTime)
    requires Valid(t) && 0 <= t.year <= 9999
    ensures var s := FormatStartDate(t);
      && |s| == 20
      && s[4] == '-' && s[7] == '-' && s[10] == 'T' && s[13] == '-' && s[16] == '-' && s[19] == 'Z'
      && s[0..4] == AppendInt(t.year, 4) && s[5..7] == AppendInt(t.month, 2)
      && s[8..10] == AppendInt(t.day, 2) && s[11..13] == AppendInt(t.hour, 2)
      && s[14..16] == AppendInt(t.minute, 2) && s[17..19] == AppendInt(t.second, 2)
  {
    assert Pow10(2) == 100 && Pow10(4) == 10000;
    PaddedField(t.year, 4);
    PaddedField(t.month, 2);
    PaddedField(t.day, 2);
    PaddedField(t.hour, 2);
    PaddedField(t.minute, 2);
    PaddedField(t.second, 2);
    Layout(AppendInt(t.year, 4), AppendInt(t.month, 2), AppendInt(t.day, 2),
           AppendInt(t.hour, 2), AppendInt(t.minute, 2), AppendInt(t.second, 2));
  }

  /** Where the six fields and the literal characters of the layout land. */
  lemma Layout(y: string, mo: string, d: string, h: string, mi: string, se: string)
    requires |y| == 4 && |mo| == 2 && |d| == 2 && |h| == 2 && |mi| == 2 && |se| == 2
    ensures var s := y + "-" + mo + "-" + d + "T" + h + "-" + mi + "-" + se + "Z";
      && |s| == 20
      && s[4] == '-' && s[7] == '-' && s[10] == 'T' && s[13] == '-' && s[16] == '-' && s[19] == 'Z'
      && s[0..4] == y && s[5..7] == mo && s[8..10] == d
      && s[11..13] == h && s[14..16] == mi && s[17..19] == se
  {
    var s := y + "-" + mo + "-" + d + "T" + h + "-" + mi + "-" + se + "Z";
    var date := y + "-" + mo + "-" + d;
    var clock := h + "-" + mi + "-" + se;
    TwoDashes(y, mo, d);
    TwoDashes(h, mi, se);
    assert s == date + "T" + clock + "Z";
    assert s[0..10] == date && s[11..19] == clock;
    assert s[0..4] == date[0..4] && s[5..7] == date[5..7] && s[8..10] == date[8..10];
    assert s[11..13] == clock[0..2] && s[14..16] == clock[3..5] && s[17..19] == clock[6..8];
  }

  lemma TwoDashes(a: string, b: string, c: string)
    requires |b| == 2 && |c| == 2
    ensures var s := a + "-" + b + "-" + c;
      && |s| == |a| + 6 && s[|a|] == '-' && s[|a| + 3] == '-'
      && s[0..|a|] == a && s[|a| + 1..|a| + 3] == b && s[|a| + 4..|a| + 6] == c
  {
  }

  /** Parsing the formatted value gives back every printed field. */
  lemma {:induction false} ParseFormat(t: UtcTime)
    requires Valid(t) && 0 <= t.year <= 9999
    ensures ParseStartDate(FormatStartDate(t)) == Some(t.(nanosecond := 0))
  {
    assert Pow10(2) == 100 && Pow10(4) == 10000;
    Fields(t);
    PaddedField(t.year, 4);
    PaddedField(t.month, 2);
    PaddedField(t.day, 2);
    PaddedField(t.hour, 2);
    PaddedField(t.minute, 2);
    PaddedField(t.second, 2);
  }
}
