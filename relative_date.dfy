/**
  * The relative due-date phrase of `dateToNaturalLanguage`. The time-zone
  * conversion and the clock are outside the model: the phrase is a function of
  * the calendar-day difference between the due day and today, and of the
  * already formatted 12-hour time of day.
  */
module RelativeDate {
  import opened Wrappers
  import opened Decimal

  /** The words in front of " at <time>": a first-match decision chain on the day difference. */
  function DayWords(dayDifference: int): string {
    if dayDifference == -1 then "Yesterday"
    else if dayDifference == 0 then "Today"
    else if dayDifference == 1 then "Tomorrow"
    else if dayDifference == 7 then "In a week"
    else if dayDifference > 0 then "In " + NatToString(dayDifference) + " days"
    else NatToString(-dayDifference) + " days ago"
  }

  /** The phrase for a due date `dayDifference` calendar days from today at the given time. */
  function DueDatePhrase(dayDifference: int, time: string): string {
    DayWords(dayDifference) + " at " + time
  }

  /** Reads the day difference back from the words of a phrase. */
  function ReadDayWords(w: string): Option<int> {
    if w == "Yesterday" then Some(-1)
    else if w == "Today" then Some(0)
    else if w == "Tomorrow" then Some(1)
    else if w == "In a week" then Some(7)
    else if |w| >= 8 && w[..3] == "In " && w[|w| - 5..] == " days" && AllDigits(w[3..|w| - 5]) then
      Some(DigitsValue(w[3..|w| - 5]) as int)
    else if |w| >= 10 && w[|w| - 9..] == " days ago" && AllDigits(w[..|w| - 9]) then
      Some(-(DigitsValue(w[..|w| - 9]) as int))
    else None
  }

  /** Every day difference has its own words: reading them back gives the difference. */
  lemma WordsRoundTrip(d: int)
    ensures ReadDayWords(DayWords(d)) == Some(d)
  {
    if d > 1 && d != 7 {
      InDaysRoundTrip(d);
    } else if d < -1 {
      DaysAgoRoundTrip(d);
    }
  }

  lemma InDaysRoundTrip(d: int)
    requires d > 1 && d != 7
    ensures ReadDayWords(DayWords(d)) == Some(d)
  {
    var w, ds := DayWords(d), NatToString(d);
    assert w == "In " + ds + " days";
    assert w[..3] == "In " && w[3..|w| - 5] == ds && w[|w| - 5..] == " days";
    assert w[3] == ds[0];
    NatToStringRoundTrip(d);
  }

  lemma DaysAgoRoundTrip(d: int)
    requires d < -1
    ensures ReadDayWords(DayWords(d)) == Some(d)
  {
    var w, ds := DayWords(d), NatToString(-d);
    assert w == ds + " days ago";
    assert w[..|w| - 9] == ds && w[|w| - 9..] == " days ago";
    assert w[0] == ds[0];
    NatToStringRoundTrip(-d);
  }

  /** Seven days ahead is always "In a week", never "In 7 days". */
  lemma NeverInSevenDays(d: int)
    ensures DayWords(d) != "In 7 days"
  {
    var w := "In 7 days";
    assert w[..3] == "In " && w[3..|w| - 5] == "7" && w[|w| - 5..] == " days";
    assert DigitsValue("7") == 7;
    assert ReadDayWords(w) == Some(7);
    WordsRoundTrip(d);
  }

  /** An "n days ago" phrase comes from the difference -n, and n is at least 2. */
  lemma DaysAgoAtLeastTwo(d: int, n: nat)
    requires DayWords(d) == NatToString(n) + " days ago"
    ensures n >= 2 && d == -(n as int)
  {
    var w := NatToString(n) + " days ago";
    assert w[..|w| - 9] == NatToString(n) && w[|w| - 9..] == " days ago";
    NatToStringRoundTrip(n);
    WordsRoundTrip(d);
    assert w[0] == NatToString(n)[0];
  }

  /** An "In n days" phrase comes from the difference n, and n is at least 2 and not 7. */
  lemma InDaysCount(d: int, n: nat)
    requires DayWords(d) == "In " + NatToString(n) + " days"
    ensures n >= 2 && n != 7 && d == n
  {
    var w := "In " + NatToString(n) + " days";
    assert w[..3] == "In " && w[3..|w| - 5] == NatToString(n) && w[|w| - 5..] == " days";
    assert w[3] == NatToString(n)[0];
    NatToStringRoundTrip(n);
    WordsRoundTrip(d);
    NeverInSevenDays(d);
  }
}
