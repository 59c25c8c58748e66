/**
 * The two timestamp conversions of the issue builder: `datetime.strptime(s,
 * "%Y-%m-%dT%H:%M:%SZ")`, which reads an RFC 3339 (section 5.6) UTC date-time
 * and raises ValueError on anything it cannot read or any date that does not
 * exist, and `strftime("%B %d, %Y %H:%M")` with English month names.
 */
module Timestamps {
  import opened Wrappers
  import opened Digits

  datatype DateTime = DateTime(year: int, month: int, day: int, hour: int, minute: int, second: int)

  predicate IsLeapYear(y: int) {
    y % 4 == 0 && (y % 100 != 0 || y % 400 == 0)
  }

  function DaysInMonth(y: int, m: int): (d: int)
    requires 1 <= m <= 12
    ensures 28 <= d <= 31
    ensures d == 29 <==> m == 2 && IsLeapYear(y)
  {
    if m == 2 then (if IsLeapYear(y) then 29 else 28)
    else if m == 4 || m == 6 || m == 9 || m == 11 then 30
    else 31
  }

  /** The values `datetime` accepts: years 1..9999 and a real calendar day, seconds below 60. */
  predicate Valid(dt: DateTime) {
    && 1 <= dt.year <= 9999
    && 1 <= dt.month <= 12
    && 1 <= dt.day <= DaysInMonth(dt.year, dt.month)
    && 0 <= dt.hour < 24
    && 0 <= dt.minute < 60
    && 0 <= dt.second < 60
  }

  /** The fixed 20-character layout `YYYY-MM-DDTHH:MM:SSZ`, read field by field. */
  predicate HasIsoLayout(s: string) {
    && |s| == 20
    && AllDigits(s[0..4]) && s[4] == '-' && AllDigits(s[5..7]) && s[7] == '-'
    && AllDigits(s[8..10]) && s[10] == 'T' && AllDigits(s[11..13]) && s[13] == ':'
    && AllDigits(s[14..16]) && s[16] == ':' && AllDigits(s[17..19]) && s[19] == 'Z'
  }

  /** `strptime(s, "%Y-%m-%dT%H:%M:%SZ")`: None where Python raises ValueError. */
  function ParseIso(s: string): (r: Option<DateTime>)
    ensures r.Some? ==> Valid(r.value)
  {
    if !HasIsoLayout(s) then None
    else
      var dt := DateTime(DigitsValue(s[0..4]), DigitsValue(s[5..7]), DigitsValue(s[8..10]),
                         DigitsValue(s[11..13]), DigitsValue(s[14..16]), DigitsValue(s[17..19]));
      if Valid(dt) then Some(dt) else None
  }

  /** The RFC 3339 text of a date-time, the form the alert source sends. */
  function FormatIso(dt: DateTime): (s: string)
    requires Valid(dt)
    ensures HasIsoLayout(s)
    ensures s[0..4] == ZeroPadded(dt.year, 4) && s[5..7] == ZeroPadded(dt.month, 2)
    ensures s[8..10] == ZeroPadded(dt.day, 2) && s[11..13] == ZeroPadded(dt.hour, 2)
    ensures s[14..16] == ZeroPadded(dt.minute, 2) && s[17..19] == ZeroPadded(dt.second, 2)
  {
    var date := IsoTriple(ZeroPadded(dt.year, 4), '-', ZeroPadded(dt.month, 2), '-', ZeroPadded(dt.day, 2));
    var time := IsoTriple(ZeroPadded(dt.hour, 2), ':', ZeroPadded(dt.minute, 2), ':', ZeroPadded(dt.second, 2));
    JoinSlices(date, time);
    date + "T" + time + "Z"
  }

  /** Three fields joined by two separators, as in `YYYY-MM-DD` and `HH:MM:SS`. */
  function IsoTriple(a: string, sep1: char, b: string, sep2: char, c: string): (s: string)
    requires |b| == 2 && |c| == 2
    ensures |s| == |a| + 6
    ensures s[..|a|] == a && s[|a|] == sep1 && s[|a| + 1..|a| + 3] == b
    ensures s[|a| + 3] == sep2 && s[|a| + 4..] == c
  {
    var s := a + [sep1] + b + [sep2] + c;
    assert s[..|a|] == a;
    assert s[|a| + 1..|a| + 3] == b;
    assert s[|a| + 4..] == c;
    s
  }

  /** Where the six fields sit in `date + "T" + time + "Z"`. */
  lemma JoinSlices(date: string, time: string)
    requires |date| == 10 && |time| == 8
    ensures var s := date + "T" + time + "Z";
      && |s| == 20 && s[10] == 'T' && s[19] == 'Z'
      && s[0..4] == date[..4] && s[4] == date[4] && s[5..7] == date[5..7] && s[7] == date[7] && s[8..10] == date[8..]
      && s[11..13] == time[..2] && s[13] == time[2] && s[14..16] == time[3..5] && s[16] == time[5] && s[17..19] == time[6..]
  {
    var s := date + "T" + time + "Z";
    assert s[..10] == date;
    assert s[11..19] == time;
    SubSlice(s, 0, 10, 0, 4);
    SubSlice(s, 0, 10, 5, 7);
    SubSlice(s, 0, 10, 8, 10);
    SubSlice(s, 11, 19, 0, 2);
    SubSlice(s, 11, 19, 3, 5);
    SubSlice(s, 11, 19, 6, 8);
  }

  lemma SubSlice(s: string, lo: nat, hi: nat, a: nat, b: nat)
    requires lo <= hi <= |s| && a <= b <= hi - lo
    ensures s[lo..hi][a..b] == s[lo + a..lo + b]
  {
    assert forall k :: 0 <= k < b - a ==> s[lo..hi][a..b][k] == s[lo + a + k] == s[lo + a..lo + b][k];
  }

  /** `%B` in the English locale. */
  function MonthName(m: int): string
    requires 1 <= m <= 12
  {
    ["January", "February", "March", "April", "May", "June", "July",
     "August", "September", "October", "November", "December"][m - 1]
  }

  /** `strftime("%B %d, %Y %H:%M")`: the seconds are not printed. */
  function FormatLong(dt: DateTime): string
    requires Valid(dt)
  {
    MonthName(dt.month) + " " + ZeroPadded(dt.day, 2) + ", " + ZeroPadded(dt.year, 4) + " "
    + ZeroPadded(dt.hour, 2) + ":" + ZeroPadded(dt.minute, 2)
  }

  /** The reformatting the issue builder applies to `created_at` and `updated_at`. */
  function Reformat(s: string): (r: Option<string>)
    ensures r.Some? <==> ParseIso(s).Some?
  {
    match ParseIso(s)
    case None => None
    case Some(dt) => Some(FormatLong(dt))
  }

  /** Reading the RFC 3339 text of any valid date-time gives it back. */
  lemma ParseFormatIso(dt: DateTime)
    requires Valid(dt)
    ensures ParseIso(FormatIso(dt)) == Some(dt)
  {
    ZeroPaddedRoundTrip(dt.year, 4);
    ZeroPaddedRoundTrip(dt.month, 2);
    ZeroPaddedRoundTrip(dt.day, 2);
    ZeroPaddedRoundTrip(dt.hour, 2);
    ZeroPaddedRoundTrip(dt.minute, 2);
    ZeroPaddedRoundTrip(dt.second, 2);
  }

  /** The parser accepts only canonical text: what it reads is exactly what `FormatIso` writes. */
  lemma FormatParseIso(s: string)
    requires ParseIso(s).Some?
    ensures FormatIso(ParseIso(s).value) == s
  {
    DigitsAreZeroPadded(s[0..4]);
    DigitsAreZeroPadded(s[5..7]);
    DigitsAreZeroPadded(s[8..10]);
    DigitsAreZeroPadded(s[11..13]);
    DigitsAreZeroPadded(s[14..16]);
    DigitsAreZeroPadded(s[17..19]);
    SameIsoFields(FormatIso(ParseIso(s).value), s);
  }

  /** Two texts in the layout are equal when their six digit fields are. */
  lemma SameIsoFields(s: string, t: string)
    requires HasIsoLayout(s) && HasIsoLayout(t)
    requires s[0..4] == t[0..4] && s[5..7] == t[5..7] && s[8..10] == t[8..10]
    requires s[11..13] == t[11..13] && s[14..16] == t[14..16] && s[17..19] == t[17..19]
    ensures s == t
  {
    forall i | 0 <= i < 20
      ensures s[i] == t[i]
    {
      if i < 4 { assert s[i] == s[0..4][i] && t[i] == t[0..4][i]; }
      else if 4 < i < 7 { assert s[i] == s[5..7][i - 5] && t[i] == t[5..7][i - 5]; }
      else if 7 < i < 10 { assert s[i] == s[8..10][i - 8] && t[i] == t[8..10][i - 8]; }
      else if 10 < i < 13 { assert s[i] == s[11..13][i - 11] && t[i] == t[11..13][i - 11]; }
      else if 13 < i < 16 { assert s[i] == s[14..16][i - 14] && t[i] == t[14..16][i - 14]; }
      else if 16 < i < 19 { assert s[i] == s[17..19][i - 17] && t[i] == t[17..19][i - 17]; }
    }
  }

  /** Two timestamps that differ only in their seconds reformat identically. */
  lemma ReformatDropsSeconds(dt: DateTime, second: int)
    requires Valid(dt) && 0 <= second < 60
    ensures Reformat(FormatIso(dt)) == Reformat(FormatIso(dt.(second := second)))
    ensures Reformat(FormatIso(dt)) == Some(FormatLong(dt))
  {
    ParseFormatIso(dt);
    ParseFormatIso(dt.(second := second));
  }

  lemma PaddedYears()
    ensures ZeroPadded(2024, 4) == "2024" && ZeroPadded(2023, 4) == "2023"
  {
    assert ZeroPadded(2, 1) == "2";
    assert ZeroPadded(20, 2) == "20";
    assert ZeroPadded(202, 3) == "202";
  }

  lemma PaddedTwoDigits()
    ensures ZeroPadded(0, 2) == "00" && ZeroPadded(1, 2) == "01" && ZeroPadded(2, 2) == "02"
    ensures ZeroPadded(5, 2) == "05" && ZeroPadded(6, 2) == "06"
    ensures ZeroPadded(10, 2) == "10" && ZeroPadded(29, 2) == "29"
  {
  }

  /** A day that does not exist (February 29 of a common year) is a ValueError. */
  lemma RejectsNonexistentDay()
    ensures Reformat("2023-02-29T10:00:00Z") == None
  {
    var bad := "2023-02-29T10:00:00Z";
    assert bad[0..4] == "2023" && bad[5..7] == "02" && bad[8..10] == "29";
    CommonYearFields();
    assert DaysInMonth(2023, 2) == 28;
  }

  lemma CommonYearFields()
    ensures DigitsValue("2023") == 2023 && DigitsValue("02") == 2 && DigitsValue("29") == 29
  {
    PaddedYears();
    PaddedTwoDigits();
    ZeroPaddedRoundTrip(2023, 4);
    ZeroPaddedRoundTrip(2, 2);
    ZeroPaddedRoundTrip(29, 2);
  }

  /** February 29 of a leap year is read and printed. */
  lemma AcceptsLeapDay()
    ensures Reformat("2024-02-29T10:00:00Z") == Some("February 29, 2024 10:00")
  {
    ParsesLeapDay();
    LongFormExamples();
  }

  /** A created-at stamp: day and hour padded, seconds dropped. */
  lemma ReformatExample()
    ensures Reformat("2024-01-05T10:00:00Z") == Some("January 05, 2024 10:00")
  {
    ParsesJanuaryFifth();
    LongFormExamples();
  }

  /** An updated-at stamp one day later. */
  lemma ReformatNextDay()
    ensures Reformat("2024-01-06T10:00:00Z") == Some("January 06, 2024 10:00")
  {
    ParsesJanuarySixth();
    LongFormExamples();
  }

  lemma ParsesLeapDay()
    ensures ParseIso("2024-02-29T10:00:00Z") == Some(DateTime(2024, 2, 29, 10, 0, 0))
  {
    FieldsOfLeapDay();
    PaddedYears();
    PaddedTwoDigits();
    ReadsAs("2024-02-29T10:00:00Z", DateTime(2024, 2, 29, 10, 0, 0));
  }

  /** Where the fields of `2024-02-29T10:00:00Z` sit. */
  lemma FieldsOfLeapDay()
    ensures var iso := "2024-02-29T10:00:00Z";
      && |iso| == 20 && iso[4] == '-' && iso[7] == '-' && iso[10] == 'T' && iso[13] == ':' && iso[16] == ':' && iso[19] == 'Z'
      && iso[0..4] == "2024" && iso[5..7] == "02" && iso[8..10] == "29"
      && iso[11..13] == "10" && iso[14..16] == "00" && iso[17..19] == "00"
  {
    var iso := "2024-02-29T10:00:00Z";
    assert iso[0..4] == "2024";
    assert iso[5..7] == "02";
    assert iso[8..10] == "29";
    assert iso[11..13] == "10";
    assert iso[14..16] == "00";
    assert iso[17..19] == "00";
  }

  lemma ParsesJanuaryFifth()
    ensures ParseIso("2024-01-05T10:00:00Z") == Some(DateTime(2024, 1, 5, 10, 0, 0))
  {
    FieldsOfJanuaryFifth();
    PaddedYears();
    PaddedTwoDigits();
    ReadsAs("2024-01-05T10:00:00Z", DateTime(2024, 1, 5, 10, 0, 0));
  }

  /** Where the fields of `2024-01-05T10:00:00Z` sit. */
  lemma FieldsOfJanuaryFifth()
    ensures var iso := "2024-01-05T10:00:00Z";
      && |iso| == 20 && iso[4] == '-' && iso[7] == '-' && iso[10] == 'T' && iso[13] == ':' && iso[16] == ':' && iso[19] == 'Z'
      && iso[0..4] == "2024" && iso[5..7] == "01" && iso[8..10] == "05"
      && iso[11..13] == "10" && iso[14..16] == "00" && iso[17..19] == "00"
  {
    var iso := "2024-01-05T10:00:00Z";
    assert iso[0..4] == "2024";
    assert iso[5..7] == "01";
    assert iso[8..10] == "05";
    assert iso[11..13] == "10";
    assert iso[14..16] == "00";
    assert iso[17..19] == "00";
  }

  lemma ParsesJanuarySixth()
    ensures ParseIso("2024-01-06T10:00:00Z") == Some(DateTime(2024, 1, 6, 10, 0, 0))
  {
    FieldsOfJanuarySixth();
    PaddedYears();
    PaddedTwoDigits();
    ReadsAs("2024-01-06T10:00:00Z", DateTime(2024, 1, 6, 10, 0, 0));
  }

  /** Where the fields of `2024-01-06T10:00:00Z` sit. */
  lemma FieldsOfJanuarySixth()
    ensures var iso := "2024-01-06T10:00:00Z";
      && |iso| == 20 && iso[4] == '-' && iso[7] == '-' && iso[10] == 'T' && iso[13] == ':' && iso[16] == ':' && iso[19] == 'Z'
      && iso[0..4] == "2024" && iso[5..7] == "01" && iso[8..10] == "06"
      && iso[11..13] == "10" && iso[14..16] == "00" && iso[17..19] == "00"
  {
    var iso := "2024-01-06T10:00:00Z";
    assert iso[0..4] == "2024";
    assert iso[5..7] == "01";
    assert iso[8..10] == "06";
    assert iso[11..13] == "10";
    assert iso[14..16] == "00";
    assert iso[17..19] == "00";
  }

  /** A text in the layout whose fields are those of `dt` reads as `dt`. */
  lemma ReadsAs(iso: string, dt: DateTime)
    requires Valid(dt) && |iso| == 20
    requires iso[4] == '-' && iso[7] == '-' && iso[10] == 'T' && iso[13] == ':' && iso[16] == ':' && iso[19] == 'Z'
    requires iso[0..4] == ZeroPadded(dt.year, 4) && iso[5..7] == ZeroPadded(dt.month, 2)
    requires iso[8..10] == ZeroPadded(dt.day, 2) && iso[11..13] == ZeroPadded(dt.hour, 2)
    requires iso[14..16] == ZeroPadded(dt.minute, 2) && iso[17..19] == ZeroPadded(dt.second, 2)
    ensures ParseIso(iso) == Some(dt)
  {
    SameIsoFields(FormatIso(dt), iso);
    ParseFormatIso(dt);
  }

  lemma LongFormExamples()
    ensures FormatLong(DateTime(2024, 1, 5, 10, 0, 0)) == "January 05, 2024 10:00"
    ensures FormatLong(DateTime(2024, 1, 6, 10, 0, 0)) == "January 06, 2024 10:00"
    ensures FormatLong(DateTime(2024, 2, 29, 10, 0, 0)) == "February 29, 2024 10:00"
  {
    PaddedYears();
    PaddedTwoDigits();
    assert MonthName(1) == "January" && MonthName(2) == "February";
    LiteralJoin();
  }

  lemma LiteralJoin()
    ensures "January" + " " + "05" + ", " + "2024" + " " + "10" + ":" + "00" == "January 05, 2024 10:00"
    ensures "January" + " " + "06" + ", " + "2024" + " " + "10" + ":" + "00" == "January 06, 2024 10:00"
    ensures "February" + " " + "29" + ", " + "2024" + " " + "10" + ":" + "00" == "February 29, 2024 10:00"
  {
  }
}
