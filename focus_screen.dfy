/** The focus screen's own view model: a session flag and a remaining time that starts at 25
    minutes. Starting and pausing only flip the flag; ending also resets the time. The remaining
    time is whole seconds here; the fractional part of the source's `TimeInterval` is dropped by
    its `Int(_:)` conversion before formatting anyway. */
module FocusScreen {
  import opened Text

  datatype SessionType = Focus | ShortBreak | LongBreak

  datatype Screen = Screen(isSessionActive: bool, timeRemaining: int, sessionType: SessionType)

  const FullSession := 1500

  const Initial := Screen(false, FullSession, Focus)

  function AfterStart(s: Screen): Screen { s.(isSessionActive := true) }

  function AfterPause(s: Screen): Screen { s.(isSessionActive := false) }

  function AfterEnd(s: Screen): Screen { s.(isSessionActive := false, timeRemaining := FullSession) }

  /** `formattedTimeRemaining`. */
  function FormattedTimeRemaining(s: Screen): string
  {
    FormatClock(s.timeRemaining)
  }

  /** Start and pause change only the session flag, never the time; ending stops the session and
      puts the full 25 minutes back, which reads "25:00", and ending twice is ending once. */
  lemma ControlsSpec(s: Screen)
    ensures AfterStart(s).isSessionActive && AfterStart(s).timeRemaining == s.timeRemaining
    ensures !AfterPause(s).isSessionActive && AfterPause(s).timeRemaining == s.timeRemaining
    ensures AfterPause(AfterStart(s)) == AfterPause(s)
    ensures !AfterEnd(s).isSessionActive && AfterEnd(s).timeRemaining == 1500
    ensures AfterEnd(AfterEnd(s)) == AfterEnd(s) && AfterEnd(s).sessionType == s.sessionType
    ensures FormattedTimeRemaining(AfterEnd(s)) == "25:00" && FormattedTimeRemaining(Initial) == "25:00"
  {
    assert Digits(25) == "25";
    assert Digits(0) == "0";
  }

  /** The displayed text reads back as the whole minutes and the seconds of the time. */
  lemma FormattedTimeRemainingSpec(s: Screen)
    requires s.timeRemaining >= 0
    ensures var t := FormattedTimeRemaining(s); var k := |t| - 3;
            |t| >= 5 && t[k] == ':' && AllDigits(t[..k]) && AllDigits(t[k + 1..]) &&
            ParseNat(t[..k]) == s.timeRemaining / 60 && ParseNat(t[k + 1..]) == s.timeRemaining % 60
  {
    FormatClockRoundTrip(s.timeRemaining);
  }

  class FocusViewModel {
    var isSessionActive: bool
    var timeRemaining: int
    var sessionType: SessionType

    function Model(): Screen
      reads this
    {
      Screen(isSessionActive, timeRemaining, sessionType)
    }

    constructor()
      ensures Model() == Initial
    {
      isSessionActive := false;
      timeRemaining := FullSession;
      sessionType := Focus;
    }

    method StartSession()
      modifies this
      ensures Model() == AfterStart(old(Model()))
    {
      isSessionActive := true;
    }

    method PauseSession()
      modifies this
      ensures Model() == AfterPause(old(Model()))
    {
      isSessionActive := false;
    }

    method EndSession()
      modifies this
      ensures Model() == AfterEnd(old(Model()))
    {
      isSessionActive := false;
      timeRemaining := FullSession;
    }
  }
}
