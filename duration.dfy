/** The label the duration slider shows (roulette-script.js:55-63): under an
    hour, "N minutes"; from an hour up, "H hour" or "H hours", followed by
    " M minutes" only when the minutes past the hour are not zero. The label
    is shown to the user, so the property worth having is that it names the
    duration unambiguously: ParseLabel reads it back. */
module Duration {
  import opened Collections

  predicate IsDigit(c: char)
  {
    '0' <= c <= '9'
  }

  predicate AllDigits(s: string)
  {
    forall i :: 0 <= i < |s| ==> IsDigit(s[i])
  }

  function DigitChar(d: nat): (c: char)
    requires d < 10
    ensures IsDigit(c)
  {
    "0123456789"[d]
  }

  function DigitValue(c: char): (d: nat)
    requires IsDigit(c)
    ensures d < 10 && DigitChar(d) == c
  {
    (c - '0') as nat
  }

  /** The decimal text of n, as a JavaScript template literal writes a
      non-negative integer. */
  function NatToString(n: nat): (s: string)
    ensures s != [] && AllDigits(s)
    ensures |s| > 1 ==> s[0] != '0'
  {
    if n < 10 then [DigitChar(n)] else NatToString(n / 10) + [DigitChar(n % 10)]
  }

  /** The number a string of digits denotes. */
  function Value(s: string): nat
    requires AllDigits(s)
  {
    if s == [] then 0 else Value(s[..|s| - 1]) * 10 + DigitValue(s[|s| - 1])
  }

  /** The decimal text reads back as the number it was made from. */
  lemma {:induction false} ValueOfNatToString(n: nat)
    ensures Value(NatToString(n)) == n
  {
    if n >= 10 {
      ValueOfNatToString(n / 10);
      var s := NatToString(n);
      assert s[..|s| - 1] == NatToString(n / 10);
    }
  }

  /** The length of the run of digits that starts s. */
  function DigitRun(s: string): (k: nat)
    ensures k <= |s| && AllDigits(s[..k])
    ensures k < |s| ==> !IsDigit(s[k])
  {
    if s != [] && IsDigit(s[0]) then
      var k := 1 + DigitRun(s[1..]);
      assert s[..k] == [s[0]] + s[1..][..k - 1];
      k
    else 0
  }

  /** A run of digits ends where the digits end. */
  lemma {:induction false} DigitRunOfDigits(d: string, rest: string)
    requires AllDigits(d)
    requires rest == [] || !IsDigit(rest[0])
    ensures DigitRun(d + rest) == |d|
  {
    if d != [] {
      assert (d + rest)[1..] == d[1..] + rest;
      DigitRunOfDigits(d[1..], rest);
    }
  }

  /** The number written at the start of s, and the text after it, if s
      starts with a digit. */
  function ReadNat(s: string): (r: Option<(nat, string)>)
    ensures r.Some? ==> |r.value.1| < |s| && r.value.1 == s[|s| - |r.value.1|..]
  {
    var k := DigitRun(s);
    if k == 0 then None else Some((Value(s[..k]), s[k..]))
  }

  /** The decimal text of n followed by text that does not start with a
      digit reads back as n and that text. */
  lemma ReadNatToString(n: nat, rest: string)
    requires rest == [] || !IsDigit(rest[0])
    ensures ReadNat(NatToString(n) + rest) == Some((n, rest))
  {
    var d := NatToString(n);
    DigitRunOfDigits(d, rest);
    assert (d + rest)[..|d|] == d;
    assert (d + rest)[|d|..] == rest;
    ValueOfNatToString(n);
  }

  const MINUTES: string := " minutes"
  const HOUR: string := " hour"
  const HOURS: string := " hours"

  /** The slider's label for totalMinutes (lines 55-63). */
  function DurationLabel(totalMinutes: nat): string
  {
    if totalMinutes < 60 then NatToString(totalMinutes) + MINUTES
    else HoursLabel(totalMinutes / 60, totalMinutes % 60)
  }

  /** The label from an hour up: the hours, "hour" or "hours", and the
      minutes past the hour when there are some (lines 58-62). */
  function HoursLabel(hours: nat, minutes: nat): string
  {
    var hourText := if hours > 1 then HOURS else HOUR;
    var minuteText := if minutes > 0 then " " + NatToString(minutes) + MINUTES else "";
    NatToString(hours) + hourText + minuteText
  }

  /** The text after " hour " or " hours " at the start of rest. */
  function AfterUnit(rest: string): (tail: Option<string>)
    ensures tail.Some? ==> |tail.value| < |rest| && tail.value == rest[|rest| - |tail.value|..]
  {
    if |rest| > |HOURS| && rest[..|HOURS|] == HOURS && rest[|HOURS|] == ' ' then Some(rest[|HOURS| + 1..])
    else if |rest| > |HOUR| && rest[..|HOUR|] == HOUR && rest[|HOUR|] == ' ' then Some(rest[|HOUR| + 1..])
    else None
  }

  /** The minutes named by what follows the first number n of a label. */
  function AfterNumber(n: nat, rest: string): Option<nat>
  {
    if rest == MINUTES then Some(n)
    else if rest == HOUR || rest == HOURS then Some(60 * n)
    else
      match AfterUnit(rest)
      case None => None
      case Some(tail) =>
        match ReadNat(tail)
        case Some((m, after)) => if after == MINUTES then Some(60 * n + m) else None
        case None => None
  }

  /** The minutes a label names: "N minutes", "H hour", "H hours", or
      either of the last two followed by " M minutes". */
  function ParseLabel(text: string): Option<nat>
  {
    match ReadNat(text)
    case None => None
    case Some((n, rest)) => AfterNumber(n, rest)
  }

  /** The hour word and a space are skipped whichever the hour word is. */
  lemma AfterUnitOf(hourText: string, tail: string)
    requires hourText == HOUR || hourText == HOURS
    ensures AfterUnit(hourText + " " + tail) == Some(tail)
  {
    var rest := hourText + " " + tail;
    assert rest[..|hourText|] == hourText;
    assert rest[|hourText| + 1..] == tail;
    if hourText == HOUR {
      assert rest[|HOUR|] == ' ';
    }
  }

  /** Hours followed by minutes read back as their sum. */
  lemma AfterNumberWithMinutes(hours: nat, hourText: string, minutes: nat)
    requires hourText == HOUR || hourText == HOURS
    ensures AfterNumber(hours, hourText + " " + (NatToString(minutes) + MINUTES)) == Some(60 * hours + minutes)
  {
    var tail := NatToString(minutes) + MINUTES;
    var rest := hourText + " " + tail;
    assert rest[0] == ' ' && rest[1] == 'h';
    assert |rest| > |HOURS|;
    AfterUnitOf(hourText, tail);
    ReadNatToString(minutes, MINUTES);
  }

  /** A label that starts with the decimal text of n is read by what
      follows it. */
  lemma ParseLabelOf(n: nat, rest: string)
    requires rest == [] || !IsDigit(rest[0])
    ensures ParseLabel(NatToString(n) + rest) == AfterNumber(n, rest)
  {
    ReadNatToString(n, rest);
  }

  /** Every label reads back as the duration it was made for: no two
      durations share a label. */
  lemma LabelRoundTrip(totalMinutes: nat)
    ensures ParseLabel(DurationLabel(totalMinutes)) == Some(totalMinutes)
  {
    if totalMinutes < 60 {
      ParseLabelOf(totalMinutes, MINUTES);
    } else {
      HoursLabelRoundTrip(totalMinutes / 60, totalMinutes % 60);
    }
  }

  /** A label from an hour up reads back as its hours and minutes. */
  lemma HoursLabelRoundTrip(hours: nat, minutes: nat)
    requires minutes < 60
    ensures ParseLabel(HoursLabel(hours, minutes)) == Some(60 * hours + minutes)
  {
    var hourText := if hours > 1 then HOURS else HOUR;
    if minutes > 0 {
      assert HoursLabel(hours, minutes) == NatToString(hours) + (hourText + " " + (NatToString(minutes) + MINUTES));
      HoursAndMinutesRoundTrip(hours, hourText, minutes);
    } else {
      assert HoursLabel(hours, minutes) == NatToString(hours) + hourText;
      WholeHoursRoundTrip(hours, hourText);
    }
  }

  /** A label of hours and minutes reads back as their sum in minutes. */
  lemma HoursAndMinutesRoundTrip(hours: nat, hourText: string, minutes: nat)
    requires hourText == HOUR || hourText == HOURS
    ensures ParseLabel(NatToString(hours) + (hourText + " " + (NatToString(minutes) + MINUTES)))
            == Some(60 * hours + minutes)
  {
    var rest := hourText + " " + (NatToString(minutes) + MINUTES);
    ParseLabelOf(hours, rest);
    AfterNumberWithMinutes(hours, hourText, minutes);
  }

  /** A label of whole hours reads back as that many hours. */
  lemma WholeHoursRoundTrip(hours: nat, hourText: string)
    requires hourText == HOUR || hourText == HOURS
    ensures ParseLabel(NatToString(hours) + hourText) == Some(60 * hours)
  {
    ParseLabelOf(hours, hourText);
    assert hourText != MINUTES by {
      assert hourText[1] == 'h' && MINUTES[1] == 'm';
    }
  }

  /** Whether s ends with suffix. */
  predicate EndsWith(s: string, suffix: string)
  {
    |s| >= |suffix| && s[|s| - |suffix|..] == suffix
  }

  /** Under an hour the label counts minutes; from an hour up it starts
      with the hour count and " hour", says "hours" from two hours, and
      ends in " minutes" exactly when there are minutes past the hour. */
  lemma LabelShape(totalMinutes: nat)
    ensures totalMinutes < 60 ==> DurationLabel(totalMinutes) == NatToString(totalMinutes) + MINUTES
    ensures totalMinutes >= 60 ==>
      var hours := NatToString(totalMinutes / 60);
      var text := DurationLabel(totalMinutes);
      && |text| >= |hours| + |HOUR|
      && text[..|hours| + |HOUR|] == hours + HOUR
      && (|text| > |hours| + |HOUR| && text[|hours| + |HOUR|] == 's' <==> totalMinutes >= 120)
      && (EndsWith(text, MINUTES) <==> totalMinutes % 60 != 0)
  {
    if totalMinutes >= 60 {
      var hours := NatToString(totalMinutes / 60);
      var text := DurationLabel(totalMinutes);
      var hourText := if totalMinutes >= 120 then HOURS else HOUR;
      var minutes := totalMinutes % 60;
      var minuteText := if minutes > 0 then " " + NatToString(minutes) + MINUTES else "";
      assert text == hours + hourText + minuteText;
      assert text[..|hours| + |HOUR|] == hours + HOUR;
      if minutes > 0 {
        assert text[|text| - |MINUTES|..] == MINUTES;
      } else if totalMinutes < 120 {
        assert text[|text| - 1] == 'r';
      } else {
        assert text[|text| - 2] == 'r';
      }
    }
  }

  /** Labels under an hour and at whole hours. */
  lemma LabelExamples()
    ensures DurationLabel(45) == "45 minutes"
    ensures DurationLabel(60) == "1 hour"
    ensures DurationLabel(120) == "2 hours"
  {
    assert NatToString(45) == "45";
  }

  /** A label with minutes past the hour. */
  lemma LabelWithMinutesExample()
    ensures DurationLabel(90) == "1 hour 30 minutes"
  {
    assert DurationLabel(90) == HoursLabel(1, 30);
    assert HoursLabel(1, 30) == NatToString(1) + HOUR + (" " + NatToString(30) + MINUTES);
    assert NatToString(30) == "30";
  }
}
