/** The user's settings: twelve published properties loaded from the key-value store once, each
    written back under its key whenever it is set. Minute counts stored as 0 (or missing) load as
    the product defaults. The compatibility extension adds the `breakMinutes` alias, the haptic
    and sound flags that live only in the store, and `Int.clamped`. */
module Settings {
  import opened Seqs
  import opened Store

  datatype AppearanceMode = System | Light | Dark

  function AppearanceRaw(a: AppearanceMode): string
  {
    match a
    case System => "system"
    case Light => "light"
    case Dark => "dark"
  }

  /** `AppearanceMode(rawValue:)`. */
  function AppearanceFromRaw(s: string): (r: Option<AppearanceMode>)
    ensures r.Some? <==> s == "system" || s == "light" || s == "dark"
    ensures r.Some? ==> AppearanceRaw(r.value) == s
  {
    if s == "system" then Some(System)
    else if s == "light" then Some(Light)
    else if s == "dark" then Some(Dark)
    else None
  }

  lemma AppearanceRoundTrip(a: AppearanceMode)
    ensures AppearanceFromRaw(AppearanceRaw(a)) == Some(a)
  {
  }

  function OrElse<T>(o: Option<T>, d: T): T
  {
    if o.Some? then o.value else d
  }

  /** A stored integer of 0, which is also what a missing key reads as, stands for the default. */
  function ZeroMeansDefault(saved: int, default: int): (r: int)
    ensures r == 0 ==> default == 0
    ensures saved != 0 ==> r == saved
    ensures saved == 0 ==> r == default
  {
    if saved == 0 then default else saved
  }

  const UserNameKey := "userName"
  const AppearanceKey := "appearanceMode"
  const NotificationsKey := "notificationsEnabled"
  const DoNotDisturbKey := "doNotDisturbPref"
  const FocusMinutesKey := "focusMinutes"
  const ShortBreakMinutesKey := "shortBreakMinutes"
  const LongBreakMinutesKey := "longBreakMinutes"
  const ClipboardLimitKey := "clipboardLimit"
  const SessionsBeforeLongBreakKey := "sessionsBeforeLongBreak"
  const AutoStartBreaksKey := "autoStartBreaks"
  const AutoStartFocusKey := "autoStartFocus"
  const OnboardingKey := "hasCompletedOnboarding"
  const HapticKey := "hapticEnabled"
  const SoundKey := "soundEnabled"

  /** The values of the published properties. */
  datatype Snapshot = Snapshot(
    userName: string,
    appearanceMode: AppearanceMode,
    notificationsEnabled: bool,
    doNotDisturbPref: bool,
    focusMinutes: int,
    shortBreakMinutes: int,
    longBreakMinutes: int,
    clipboardLimit: int,
    sessionsBeforeLongBreak: int,
    autoStartBreaks: bool,
    autoStartFocus: bool,
    hasCompletedOnboarding: bool)

  /** What `init` reads from the store. Property observers do not run during `init`, so loading
      writes nothing back. */
  function Load(m: Values): Snapshot
  {
    Snapshot(
      OrElse(StringFor(m, UserNameKey), "Noah"),
      OrElse(AppearanceFromRaw(OrElse(StringFor(m, AppearanceKey), "system")), System),
      OrElse(BoolObjectFor(m, NotificationsKey), true),
      OrElse(BoolObjectFor(m, DoNotDisturbKey), false),
      ZeroMeansDefault(IntegerFor(m, FocusMinutesKey), 25),
      ZeroMeansDefault(IntegerFor(m, ShortBreakMinutesKey), 5),
      ZeroMeansDefault(IntegerFor(m, LongBreakMinutesKey), 15),
      ZeroMeansDefault(IntegerFor(m, ClipboardLimitKey), 50),
      ZeroMeansDefault(IntegerFor(m, SessionsBeforeLongBreakKey), 4),
      OrElse(BoolObjectFor(m, AutoStartBreaksKey), false),
      OrElse(BoolObjectFor(m, AutoStartFocusKey), false),
      OrElse(BoolObjectFor(m, OnboardingKey), false))
  }

  /** An empty store loads the product defaults, and whatever the store holds the four counts load
      as non-zero values. */
  lemma LoadDefaults(m: Values)
    ensures Load(map[]) == Snapshot("Noah", System, true, false, 25, 5, 15, 50, 4, false, false, false)
    ensures var s := Load(m);
            s.focusMinutes != 0 && s.shortBreakMinutes != 0 && s.longBreakMinutes != 0 &&
            s.clipboardLimit != 0 && s.sessionsBeforeLongBreak != 0
    ensures IntegerFor(m, FocusMinutesKey) == 0 ==> Load(m).focusMinutes == 25
    ensures IntegerFor(m, ShortBreakMinutesKey) == 0 ==> Load(m).shortBreakMinutes == 5
    ensures IntegerFor(m, LongBreakMinutesKey) == 0 ==> Load(m).longBreakMinutes == 15
    ensures IntegerFor(m, SessionsBeforeLongBreakKey) == 0 ==> Load(m).sessionsBeforeLongBreak == 4
  {
  }

  /** `focusDuration`, `breakDuration` and `longBreakDuration`, in seconds. */
  function FocusDuration(s: Snapshot): int { s.focusMinutes * 60 }
  function BreakDuration(s: Snapshot): int { s.shortBreakMinutes * 60 }
  function LongBreakDuration(s: Snapshot): int { s.longBreakMinutes * 60 }

  /** Loaded durations are whole, non-zero minutes, positive when the stored minutes are. */
  lemma LoadedDurations(m: Values)
    ensures var s := Load(m);
            FocusDuration(s) % 60 == 0 && FocusDuration(s) != 0 &&
            BreakDuration(s) % 60 == 0 && BreakDuration(s) != 0 &&
            LongBreakDuration(s) % 60 == 0 && LongBreakDuration(s) != 0
    ensures IntegerFor(m, FocusMinutesKey) >= 0 ==> FocusDuration(Load(m)) > 0
    ensures IntegerFor(m, ShortBreakMinutesKey) >= 0 ==> BreakDuration(Load(m)) > 0
    ensures IntegerFor(m, LongBreakMinutesKey) >= 0 ==> LongBreakDuration(Load(m)) > 0
  {
  }

  /** One property assignment. */
  datatype Change =
    | UserName(name: string)
    | Appearance(mode: AppearanceMode)
    | Notifications(on: bool)
    | DoNotDisturb(on: bool)
    | FocusMinutes(n: int)
    | ShortBreakMinutes(n: int)
    | LongBreakMinutes(n: int)
    | ClipboardLimit(n: int)
    | SessionsBeforeLongBreak(n: int)
    | AutoStartBreaks(on: bool)
    | AutoStartFocus(on: bool)
    | CompletedOnboarding(on: bool)

  /** The key each property's observer writes to. */
  function KeyOf(c: Change): string
  {
    match c
    case UserName(_) => UserNameKey
    case Appearance(_) => AppearanceKey
    case Notifications(_) => NotificationsKey
    case DoNotDisturb(_) => DoNotDisturbKey
    case FocusMinutes(_) => FocusMinutesKey
    case ShortBreakMinutes(_) => ShortBreakMinutesKey
    case LongBreakMinutes(_) => LongBreakMinutesKey
    case ClipboardLimit(_) => ClipboardLimitKey
    case SessionsBeforeLongBreak(_) => SessionsBeforeLongBreakKey
    case AutoStartBreaks(_) => AutoStartBreaksKey
    case AutoStartFocus(_) => AutoStartFocusKey
    case CompletedOnboarding(_) => OnboardingKey
  }

  /** The value each property's observer writes. */
  function StoredOf(c: Change): Value
  {
    match c
    case UserName(s) => StringValue(s)
    case Appearance(a) => StringValue(AppearanceRaw(a))
    case Notifications(b) => BoolValue(b)
    case DoNotDisturb(b) => BoolValue(b)
    case FocusMinutes(n) => IntValue(n)
    case ShortBreakMinutes(n) => IntValue(n)
    case LongBreakMinutes(n) => IntValue(n)
    case ClipboardLimit(n) => IntValue(n)
    case SessionsBeforeLongBreak(n) => IntValue(n)
    case AutoStartBreaks(b) => BoolValue(b)
    case AutoStartFocus(b) => BoolValue(b)
    case CompletedOnboarding(b) => BoolValue(b)
  }

  function Changed(s: Snapshot, c: Change): Snapshot
  {
    match c
    case UserName(v) => s.(userName := v)
    case Appearance(v) => s.(appearanceMode := v)
    case Notifications(v) => s.(notificationsEnabled := v)
    case DoNotDisturb(v) => s.(doNotDisturbPref := v)
    case FocusMinutes(v) => s.(focusMinutes := v)
    case ShortBreakMinutes(v) => s.(shortBreakMinutes := v)
    case LongBreakMinutes(v) => s.(longBreakMinutes := v)
    case ClipboardLimit(v) => s.(clipboardLimit := v)
    case SessionsBeforeLongBreak(v) => s.(sessionsBeforeLongBreak := v)
    case AutoStartBreaks(v) => s.(autoStartBreaks := v)
    case AutoStartFocus(v) => s.(autoStartFocus := v)
    case CompletedOnboarding(v) => s.(hasCompletedOnboarding := v)
  }

  /** The assignments of the five counts that load with zero-means-default. */
  predicate IsCount(c: Change)
  {
    c.FocusMinutes? || c.ShortBreakMinutes? || c.LongBreakMinutes? || c.ClipboardLimit? ||
    c.SessionsBeforeLongBreak?
  }

  /** The assignment a reload sees: a count set to 0 comes back as its default. */
  function Reloaded(c: Change): (r: Change)
    ensures KeyOf(r) == KeyOf(c)
    ensures IsCount(c) && c.n == 0 ==> r != c && IsCount(r) && r.n != 0
    ensures !IsCount(c) || c.n != 0 ==> r == c
  {
    match c
    case FocusMinutes(n) => FocusMinutes(ZeroMeansDefault(n, 25))
    case ShortBreakMinutes(n) => ShortBreakMinutes(ZeroMeansDefault(n, 5))
    case LongBreakMinutes(n) => LongBreakMinutes(ZeroMeansDefault(n, 15))
    case ClipboardLimit(n) => ClipboardLimit(ZeroMeansDefault(n, 50))
    case SessionsBeforeLongBreak(n) => SessionsBeforeLongBreak(ZeroMeansDefault(n, 4))
    case _ => c
  }

  /** Persist-on-set: after one assignment has been written, a fresh load sees exactly that
      assignment on top of what it saw before, except that a count set to 0 reloads as its
      default. */
  lemma ReloadAfterSet(m: Values, c: Change)
    ensures Load(m[KeyOf(c) := StoredOf(c)]) == Changed(Load(m), Reloaded(c))
  {
    if IsCount(c) {
      ReloadCount(m, c);
    } else if c.UserName? || c.Appearance? {
      ReloadText(m, c);
    } else {
      ReloadFlag(m, c);
    }
  }

  lemma ReloadCount(m: Values, c: Change)
    requires IsCount(c)
    ensures Load(m[KeyOf(c) := StoredOf(c)]) == Changed(Load(m), Reloaded(c))
  {
    var m' := m[KeyOf(c) := StoredOf(c)];
    ReloadField(m, c);
    match c
    case FocusMinutes(v) => assert Load(m') == Load(m).(focusMinutes := ZeroMeansDefault(v, 25));
    case ShortBreakMinutes(v) => assert Load(m') == Load(m).(shortBreakMinutes := ZeroMeansDefault(v, 5));
    case LongBreakMinutes(v) => assert Load(m') == Load(m).(longBreakMinutes := ZeroMeansDefault(v, 15));
    case ClipboardLimit(v) => assert Load(m') == Load(m).(clipboardLimit := ZeroMeansDefault(v, 50));
    case SessionsBeforeLongBreak(v) =>
      assert Load(m') == Load(m).(sessionsBeforeLongBreak := ZeroMeansDefault(v, 4));
  }

  lemma ReloadText(m: Values, c: Change)
    requires c.UserName? || c.Appearance?
    ensures Load(m[KeyOf(c) := StoredOf(c)]) == Changed(Load(m), Reloaded(c))
  {
    var m' := m[KeyOf(c) := StoredOf(c)];
    ReloadField(m, c);
    match c
    case UserName(v) => assert Load(m') == Load(m).(userName := v);
    case Appearance(v) =>
      AppearanceRoundTrip(v);
      assert Load(m') == Load(m).(appearanceMode := v);
  }

  lemma ReloadFlag(m: Values, c: Change)
    requires c.Notifications? || c.DoNotDisturb? || c.AutoStartBreaks? || c.AutoStartFocus? ||
             c.CompletedOnboarding?
    ensures Load(m[KeyOf(c) := StoredOf(c)]) == Changed(Load(m), Reloaded(c))
  {
    var m' := m[KeyOf(c) := StoredOf(c)];
    ReloadField(m, c);
    match c
    case Notifications(v) => assert Load(m') == Load(m).(notificationsEnabled := v);
    case DoNotDisturb(v) => assert Load(m') == Load(m).(doNotDisturbPref := v);
    case AutoStartBreaks(v) => assert Load(m') == Load(m).(autoStartBreaks := v);
    case AutoStartFocus(v) => assert Load(m') == Load(m).(autoStartFocus := v);
    case CompletedOnboarding(v) => assert Load(m') == Load(m).(hasCompletedOnboarding := v);
  }

  /** Writing one property's key leaves every other property's read as it was. */
  lemma ReloadField(m: Values, c: Change)
    ensures var m' := m[KeyOf(c) := StoredOf(c)];
            (!c.UserName? ==> Load(m').userName == Load(m).userName) &&
            (!c.Appearance? ==> Load(m').appearanceMode == Load(m).appearanceMode) &&
            (!c.Notifications? ==> Load(m').notificationsEnabled == Load(m).notificationsEnabled) &&
            (!c.DoNotDisturb? ==> Load(m').doNotDisturbPref == Load(m).doNotDisturbPref) &&
            (!c.FocusMinutes? ==> Load(m').focusMinutes == Load(m).focusMinutes) &&
            (!c.ShortBreakMinutes? ==> Load(m').shortBreakMinutes == Load(m).shortBreakMinutes) &&
            (!c.LongBreakMinutes? ==> Load(m').longBreakMinutes == Load(m).longBreakMinutes) &&
            (!c.ClipboardLimit? ==> Load(m').clipboardLimit == Load(m).clipboardLimit) &&
            (!c.SessionsBeforeLongBreak? ==> Load(m').sessionsBeforeLongBreak == Load(m).sessionsBeforeLongBreak) &&
            (!c.AutoStartBreaks? ==> Load(m').autoStartBreaks == Load(m).autoStartBreaks) &&
            (!c.AutoStartFocus? ==> Load(m').autoStartFocus == Load(m).autoStartFocus) &&
            (!c.CompletedOnboarding? ==> Load(m').hasCompletedOnboarding == Load(m).hasCompletedOnboarding)
  {
    var m' := m[KeyOf(c) := StoredOf(c)];
    forall key | key != KeyOf(c)
      ensures StringFor(m', key) == StringFor(m, key)
      ensures BoolObjectFor(m', key) == BoolObjectFor(m, key)
      ensures IntegerFor(m', key) == IntegerFor(m, key)
    {
    }
  }

  /** `Int.clamped(default:range:)` over the range `lo...hi`. */
  function Clamped(v: int, default: int, lo: int, hi: int): (r: int)
    requires lo <= hi
    ensures v == 0 ==> r == default
    ensures v != 0 ==> lo <= r <= hi
    ensures v != 0 && lo <= v <= hi ==> r == v
    ensures v != 0 && v < lo ==> r == lo
    ensures v != 0 && v > hi ==> r == hi
  {
    if v == 0 then default
    else
      var atLeast := if v > lo then v else lo;
      if atLeast < hi then atLeast else hi
  }

  /** A flag read as `object(forKey:) as? Bool ?? true`. */
  function EnabledByDefault(m: Values, key: string): bool
  {
    OrElse(BoolObjectFor(m, key), true)
  }

  /** The haptic and sound flags are on until written, then read back the last value written;
      writing one leaves the other as it was. */
  lemma FlagsReadBack(m: Values, v: bool)
    ensures HapticKey !in m ==> EnabledByDefault(m, HapticKey)
    ensures SoundKey !in m ==> EnabledByDefault(m, SoundKey)
    ensures EnabledByDefault(m[HapticKey := BoolValue(v)], HapticKey) == v
    ensures EnabledByDefault(m[SoundKey := BoolValue(v)], SoundKey) == v
    ensures EnabledByDefault(m[HapticKey := BoolValue(v)], SoundKey) == EnabledByDefault(m, SoundKey)
    ensures EnabledByDefault(m[SoundKey := BoolValue(v)], HapticKey) == EnabledByDefault(m, HapticKey)
  {
  }

  class UserSettings {
    const store: Defaults
    var userName: string
    var appearanceMode: AppearanceMode
    var notificationsEnabled: bool
    var doNotDisturbPref: bool
    var focusMinutes: int
    var shortBreakMinutes: int
    var longBreakMinutes: int
    var clipboardLimit: int
    var sessionsBeforeLongBreak: int
    var autoStartBreaks: bool
    var autoStartFocus: bool
    var hasCompletedOnboarding: bool

    function Model(): Snapshot
      reads this
    {
      Snapshot(userName, appearanceMode, notificationsEnabled, doNotDisturbPref, focusMinutes,
               shortBreakMinutes, longBreakMinutes, clipboardLimit, sessionsBeforeLongBreak,
               autoStartBreaks, autoStartFocus, hasCompletedOnboarding)
    }

    constructor(store: Defaults)
      ensures this.store == store
      ensures Model() == Load(store.values)
    {
      this.store := store;
      var m := store.values;
      userName := OrElse(StringFor(m, UserNameKey), "Noah");
      appearanceMode := OrElse(AppearanceFromRaw(OrElse(StringFor(m, AppearanceKey), "system")), System);
      notificationsEnabled := OrElse(BoolObjectFor(m, NotificationsKey), true);
      doNotDisturbPref := OrElse(BoolObjectFor(m, DoNotDisturbKey), false);
      focusMinutes := ZeroMeansDefault(IntegerFor(m, FocusMinutesKey), 25);
      shortBreakMinutes := ZeroMeansDefault(IntegerFor(m, ShortBreakMinutesKey), 5);
      longBreakMinutes := ZeroMeansDefault(IntegerFor(m, LongBreakMinutesKey), 15);
      clipboardLimit := ZeroMeansDefault(IntegerFor(m, ClipboardLimitKey), 50);
      autoStartBreaks := OrElse(BoolObjectFor(m, AutoStartBreaksKey), false);
      autoStartFocus := OrElse(BoolObjectFor(m, AutoStartFocusKey), false);
      hasCompletedOnboarding := OrElse(BoolObjectFor(m, OnboardingKey), false);
      sessionsBeforeLongBreak := ZeroMeansDefault(IntegerFor(m, SessionsBeforeLongBreakKey), 4);
    }

    /** Assigning a property runs its observer, which writes the new value under its key. */
    method Set(c: Change)
      modifies this, store
      ensures Model() == Changed(old(Model()), c)
      ensures store.values == old(store.values)[KeyOf(c) := StoredOf(c)]
    {
      match c {
        case UserName(v) => userName := v;
        case Appearance(v) => appearanceMode := v;
        case Notifications(v) => notificationsEnabled := v;
        case DoNotDisturb(v) => doNotDisturbPref := v;
        case FocusMinutes(v) => focusMinutes := v;
        case ShortBreakMinutes(v) => shortBreakMinutes := v;
        case LongBreakMinutes(v) => longBreakMinutes := v;
        case ClipboardLimit(v) => clipboardLimit := v;
        case SessionsBeforeLongBreak(v) => sessionsBeforeLongBreak := v;
        case AutoStartBreaks(v) => autoStartBreaks := v;
        case AutoStartFocus(v) => autoStartFocus := v;
        case CompletedOnboarding(v) => hasCompletedOnboarding := v;
      }
      store.Set(KeyOf(c), StoredOf(c));
    }

    /** `breakMinutes`: an alias of the short break. */
    function BreakMinutes(): int
      reads this
    {
      shortBreakMinutes
    }

    method SetBreakMinutes(v: int)
      modifies this, store
      ensures BreakMinutes() == v && Model() == old(Model()).(shortBreakMinutes := v)
      ensures store.values == old(store.values)[ShortBreakMinutesKey := IntValue(v)]
    {
      Set(ShortBreakMinutes(v));
    }

    function HapticEnabled(): bool
      reads this, store
    {
      EnabledByDefault(store.values, HapticKey)
    }

    function SoundEnabled(): bool
      reads this, store
    {
      EnabledByDefault(store.values, SoundKey)
    }

    method SetHapticEnabled(v: bool)
      modifies store
      ensures store.values == old(store.values)[HapticKey := BoolValue(v)]
      ensures HapticEnabled() == v && SoundEnabled() == old(SoundEnabled())
    {
      store.Set(HapticKey, BoolValue(v));
    }

    method SetSoundEnabled(v: bool)
      modifies store
      ensures store.values == old(store.values)[SoundKey := BoolValue(v)]
      ensures SoundEnabled() == v && HapticEnabled() == old(HapticEnabled())
    {
      store.Set(SoundKey, BoolValue(v));
    }
  }
}
