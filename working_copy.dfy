/** The settings screen's working copy: ten settings copied out of the live settings, edited, and
    written back field by field. */
module WorkingCopy {
  import opened Store
  import opened Settings

  datatype SettingsWorkingCopy = SettingsWorkingCopy(
    appearanceMode: AppearanceMode,
    focusMinutes: int,
    breakMinutes: int,
    longBreakMinutes: int,
    sessionsBeforeLongBreak: int,
    autoStartBreaks: bool,
    autoStartFocus: bool,
    hapticEnabled: bool,
    notificationsEnabled: bool,
    soundEnabled: bool)

  /** The product defaults. */
  const Defaults := SettingsWorkingCopy(System, 25, 5, 15, 4, false, false, true, true, true)

  /** `init(from:)`, given the live properties and the store the haptic and sound flags live in. */
  function FromSettings(s: Snapshot, m: Values): SettingsWorkingCopy
  {
    SettingsWorkingCopy(
      s.appearanceMode, s.focusMinutes, s.shortBreakMinutes, s.longBreakMinutes,
      s.sessionsBeforeLongBreak, s.autoStartBreaks, s.autoStartFocus,
      EnabledByDefault(m, HapticKey), s.notificationsEnabled, EnabledByDefault(m, SoundKey))
  }

  /** The live properties after `apply(to:)`: the break minutes go to the short break, and the
      user name, do-not-disturb flag, clipboard limit and onboarding flag are not touched. */
  function Applied(s: Snapshot, w: SettingsWorkingCopy): Snapshot
  {
    s.(appearanceMode := w.appearanceMode, focusMinutes := w.focusMinutes,
       shortBreakMinutes := w.breakMinutes, longBreakMinutes := w.longBreakMinutes,
       sessionsBeforeLongBreak := w.sessionsBeforeLongBreak, autoStartBreaks := w.autoStartBreaks,
       autoStartFocus := w.autoStartFocus, notificationsEnabled := w.notificationsEnabled)
  }

  /** The store after `apply(to:)`: one write per field, in the order the fields are assigned. */
  function WrittenStore(m: Values, w: SettingsWorkingCopy): Values
  {
    m[AppearanceKey := StringValue(AppearanceRaw(w.appearanceMode))]
     [FocusMinutesKey := IntValue(w.focusMinutes)]
     [ShortBreakMinutesKey := IntValue(w.breakMinutes)]
     [LongBreakMinutesKey := IntValue(w.longBreakMinutes)]
     [SessionsBeforeLongBreakKey := IntValue(w.sessionsBeforeLongBreak)]
     [AutoStartBreaksKey := BoolValue(w.autoStartBreaks)]
     [AutoStartFocusKey := BoolValue(w.autoStartFocus)]
     [HapticKey := BoolValue(w.hapticEnabled)]
     [NotificationsKey := BoolValue(w.notificationsEnabled)]
     [SoundKey := BoolValue(w.soundEnabled)]
  }

  /** `apply(to:)`: the appearance and timer fields first, then the behaviour and notification
      fields. */
  method Apply(w: SettingsWorkingCopy, settings: UserSettings)
    modifies settings, settings.store
    ensures settings.Model() == Applied(old(settings.Model()), w)
    ensures settings.store.values == WrittenStore(old(settings.store.values), w)
  {
    ApplyTimer(w, settings);
    ApplyBehaviour(w, settings);
  }

  method ApplyTimer(w: SettingsWorkingCopy, settings: UserSettings)
    modifies settings, settings.store
    ensures settings.Model() == old(settings.Model()).(
              appearanceMode := w.appearanceMode, focusMinutes := w.focusMinutes,
              shortBreakMinutes := w.breakMinutes, longBreakMinutes := w.longBreakMinutes,
              sessionsBeforeLongBreak := w.sessionsBeforeLongBreak)
    ensures settings.store.values == old(settings.store.values)
              [AppearanceKey := StringValue(AppearanceRaw(w.appearanceMode))]
              [FocusMinutesKey := IntValue(w.focusMinutes)]
              [ShortBreakMinutesKey := IntValue(w.breakMinutes)]
              [LongBreakMinutesKey := IntValue(w.longBreakMinutes)]
              [SessionsBeforeLongBreakKey := IntValue(w.sessionsBeforeLongBreak)]
  {
    settings.Set(Appearance(w.appearanceMode));
    settings.Set(FocusMinutes(w.focusMinutes));
    settings.SetBreakMinutes(w.breakMinutes);
    settings.Set(LongBreakMinutes(w.longBreakMinutes));
    settings.Set(SessionsBeforeLongBreak(w.sessionsBeforeLongBreak));
  }

  method ApplyBehaviour(w: SettingsWorkingCopy, settings: UserSettings)
    modifies settings, settings.store
    ensures settings.Model() == old(settings.Model()).(
              autoStartBreaks := w.autoStartBreaks, autoStartFocus := w.autoStartFocus,
              notificationsEnabled := w.notificationsEnabled)
    ensures settings.store.values == old(settings.store.values)
              [AutoStartBreaksKey := BoolValue(w.autoStartBreaks)]
              [AutoStartFocusKey := BoolValue(w.autoStartFocus)]
              [HapticKey := BoolValue(w.hapticEnabled)]
              [NotificationsKey := BoolValue(w.notificationsEnabled)]
              [SoundKey := BoolValue(w.soundEnabled)]
  {
    settings.Set(AutoStartBreaks(w.autoStartBreaks));
    settings.Set(AutoStartFocus(w.autoStartFocus));
    settings.SetHapticEnabled(w.hapticEnabled);
    settings.Set(Notifications(w.notificationsEnabled));
    settings.SetSoundEnabled(w.soundEnabled);
  }

  /** `resetToDefaults()`. */
  function ResetToDefaults(w: SettingsWorkingCopy): (r: SettingsWorkingCopy)
    ensures r == Defaults
  {
    Defaults
  }

  /** The defaults are the product's: 25, 5 and 15 minutes, a long break every fourth session, no
      automatic starts, and haptics, notifications and sound on. They agree with what an empty
      store loads. */
  lemma DefaultsSpec()
    ensures Defaults.focusMinutes == 25 && Defaults.breakMinutes == 5 && Defaults.longBreakMinutes == 15
    ensures Defaults.sessionsBeforeLongBreak == 4 && !Defaults.autoStartBreaks && !Defaults.autoStartFocus
    ensures Defaults.hapticEnabled && Defaults.notificationsEnabled && Defaults.soundEnabled
    ensures FromSettings(Load(map[]), map[]) == Defaults
  {
    LoadDefaults(map[]);
  }

  /** Applying a copy and copying back gives the same copy. */
  lemma ApplyThenCopyRoundTrip(s: Snapshot, m: Values, w: SettingsWorkingCopy)
    ensures FromSettings(Applied(s, w), WrittenStore(m, w)) == w
  {
  }

  /** Applying an unedited copy leaves every live property, and the haptic and sound flags, as
      they were. */
  lemma CopyThenApplyUnchanged(s: Snapshot, m: Values)
    ensures Applied(s, FromSettings(s, m)) == s
    ensures var m' := WrittenStore(m, FromSettings(s, m));
            EnabledByDefault(m', HapticKey) == EnabledByDefault(m, HapticKey) &&
            EnabledByDefault(m', SoundKey) == EnabledByDefault(m, SoundKey)
  {
  }

  /** Applying touches exactly the ten listed settings: the user name, clipboard limit,
      do-not-disturb and onboarding flags keep their values, and so do their stored entries. */
  lemma ApplyLeavesOthers(s: Snapshot, m: Values, w: SettingsWorkingCopy)
    ensures var a := Applied(s, w);
            a.userName == s.userName && a.clipboardLimit == s.clipboardLimit &&
            a.doNotDisturbPref == s.doNotDisturbPref && a.hasCompletedOnboarding == s.hasCompletedOnboarding
    ensures var m' := WrittenStore(m, w);
            forall k :: k in m && k !in {AppearanceKey, FocusMinutesKey, ShortBreakMinutesKey,
                                         LongBreakMinutesKey, SessionsBeforeLongBreakKey, AutoStartBreaksKey,
                                         AutoStartFocusKey, HapticKey, NotificationsKey, SoundKey} ==>
                          k in m' && m'[k] == m[k]
  {
  }
}
