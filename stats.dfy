/** The statistics screen's daily goal: the focus minutes per session times the sessions before a
    long break, each at least 1, shown as hours and minutes. */
module Stats {
  import opened Seqs
  import opened Text

  function AtLeastOne(n: int): (r: int)
    ensures r >= 1 && (n >= 1 ==> r == n)
  {
    if n >= 1 then n else 1
  }

  /** The goal in minutes. */
  function DailyGoalMinutes(focusMinutes: int, sessionsBeforeLongBreak: int): (total: int)
    ensures total >= 1
  {
    AtLeastOne(focusMinutes) * AtLeastOne(sessionsBeforeLongBreak)
  }

  /** `formattedDailyGoal(userSettings:)`; the total is positive, so Swift's `/` and `%` agree
      with Dafny's here. */
  function FormattedDailyGoal(focusMinutes: int, sessionsBeforeLongBreak: int): string
  {
    var total := DailyGoalMinutes(focusMinutes, sessionsBeforeLongBreak);
    var hours := total / 60;
    var mins := total % 60;
    if hours > 0 then
      if mins > 0 then IntString(hours) + "h " + IntString(mins) + "m" else IntString(hours) + "h"
    else IntString(mins) + "m"
  }

  function Identity(c: char): char { c }

  /** Reads a goal text back as minutes: "Xh", "Xh Ym" or "Ym". */
  function ParseGoal(s: string): Option<nat>
  {
    if |s| < 2 then None
    else
      var body := s[..|s| - 1];
      if s[|s| - 1] == 'h' then
        if AllDigits(body) then Some(60 * ParseNat(body)) else None
      else if s[|s| - 1] != 'm' then None
      else if AllDigits(body) then Some(ParseNat(body))
      else ParseHoursMinutes(body)
  }

  /** Reads "X" + "h " + "Y" as X hours and Y minutes. */
  function ParseHoursMinutes(body: string): Option<nat>
  {
    match FirstIndex(body, Identity, 'h')
    case None => None
    case Some(i) =>
      if i + 2 <= |body| && body[i + 1] == ' ' && AllDigits(body[..i]) && AllDigits(body[i + 2..])
      then Some(60 * ParseNat(body[..i]) + ParseNat(body[i + 2..]))
      else None
  }

  /** The goal is split into whole hours and 0 to 59 minutes; whole hours show no minutes, and
      a goal under an hour shows at least one minute. */
  lemma DailyGoalSpec(focusMinutes: int, sessionsBeforeLongBreak: int)
    ensures var total := DailyGoalMinutes(focusMinutes, sessionsBeforeLongBreak);
            total >= 1 && (total / 60) * 60 + total % 60 == total && 0 <= total % 60 < 60
    ensures var total := DailyGoalMinutes(focusMinutes, sessionsBeforeLongBreak);
            var r := FormattedDailyGoal(focusMinutes, sessionsBeforeLongBreak);
            (total >= 60 && total % 60 == 0 ==> r[|r| - 1] == 'h') &&
            (total % 60 != 0 ==> r[|r| - 1] == 'm') &&
            (total < 60 ==> 'h' !in r && total % 60 >= 1)
    ensures focusMinutes >= 1 && sessionsBeforeLongBreak >= 1 ==>
              DailyGoalMinutes(focusMinutes, sessionsBeforeLongBreak) == focusMinutes * sessionsBeforeLongBreak
  {
    var total := DailyGoalMinutes(focusMinutes, sessionsBeforeLongBreak);
    if total < 60 {
      assert FormattedDailyGoal(focusMinutes, sessionsBeforeLongBreak) == Digits(total % 60) + "m";
      assert forall i :: 0 <= i < |Digits(total % 60)| ==> Digits(total % 60)[i] != 'h';
    }
  }

  /** The text reads back as exactly the goal in minutes. */
  lemma FormattedDailyGoalRoundTrip(focusMinutes: int, sessionsBeforeLongBreak: int)
    ensures ParseGoal(FormattedDailyGoal(focusMinutes, sessionsBeforeLongBreak)) ==
            Some(DailyGoalMinutes(focusMinutes, sessionsBeforeLongBreak))
  {
    var total := DailyGoalMinutes(focusMinutes, sessionsBeforeLongBreak);
    var hours, mins := total / 60, total % 60;
    if hours > 0 && mins > 0 {
      ParseHoursAndMinutes(hours, mins);
    } else if hours > 0 {
      ParseHours(hours);
    } else {
      ParseMinutes(mins);
    }
  }

  lemma ParseHours(h: nat)
    ensures ParseGoal(IntString(h) + "h") == Some(60 * h)
  {
    DigitsRoundTrip(h);
    var s := IntString(h) + "h";
    assert s[..|s| - 1] == Digits(h);
  }

  lemma ParseMinutes(m: nat)
    ensures ParseGoal(IntString(m) + "m") == Some(m)
  {
    DigitsRoundTrip(m);
    var s := IntString(m) + "m";
    assert s[..|s| - 1] == Digits(m);
  }

  lemma ParseHoursAndMinutes(h: nat, m: nat)
    ensures ParseGoal(IntString(h) + "h " + IntString(m) + "m") == Some(60 * h + m)
  {
    var dh, dm := Digits(h), Digits(m);
    var s := IntString(h) + "h " + IntString(m) + "m";
    var body := s[..|s| - 1];
    assert body == dh + "h " + dm;
    assert body[|dh|] == 'h';
    ParseHoursMinutesSpec(h, m);
  }

  lemma ParseHoursMinutesSpec(h: nat, m: nat)
    ensures ParseHoursMinutes(Digits(h) + "h " + Digits(m)) == Some(60 * h + m)
  {
    DigitsRoundTrip(h);
    DigitsRoundTrip(m);
    var dh, dm := Digits(h), Digits(m);
    FirstH(dh, dm);
    SplitAtH(dh, dm);
  }

  lemma SplitAtH(dh: string, dm: string)
    ensures var body := dh + "h " + dm;
            body[..|dh|] == dh && body[|dh| + 1] == ' ' && body[|dh| + 2..] == dm
  {
    var body := dh + "h " + dm;
    assert body[..|dh|] == dh;
    assert body[|dh| + 2..] == dm;
  }

  lemma FirstH(dh: string, dm: string)
    requires AllDigits(dh)
    ensures FirstIndex(dh + "h " + dm, Identity, 'h') == Some(|dh|)
  {
    var body := dh + "h " + dm;
    assert body[|dh|] == 'h';
    assert forall j :: 0 <= j < |dh| ==> Identity(body[j]) != 'h' by {
      assert forall j :: 0 <= j < |dh| ==> body[j] == dh[j];
    }
  }
}
