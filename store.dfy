/** The import-gating state machine of the OS certificate store plugin
    (class OsCertificateStore of oscertstore/plugin.py).

    The host's settings store is an in-memory map whose missing keys read as
    true; the foreign certificate importer is replaced by the outcome it would
    have, given as a parameter to each call that runs it; menu registration and
    the message bar become a log of menu calls and a sequence of notifications. */
module OsCertStore {

  /** Prefix of every settings key the plugin uses. */
  const SETTINGS_KEY := "Boundless/Plugins/OSCertStore"
  /** Whether the import runs when the plugin is loaded. */
  const IMPORT_ENABLED_KEY := SETTINGS_KEY + "/import_enabled"
  /** Outcome of the most recent import attempt. */
  const IMPORT_SUCCESSFULLY_RUN_KEY := SETTINGS_KEY + "/import_successfully_run"

  /** The translation hook `tr`: the plugin ships no translations. */
  function Tr(msg: string): string { msg }

  /** `sys.platform` names a Linux system. */
  predicate IsLinux(platform: string)
  {
    platform == "linux" || platform == "linux2"
  }

  /** Whether the plugin is active on `platform`. `testOnLinux` is the
      development override read once from the settings at module load. */
  function IsSupported(platform: string, testOnLinux: bool): (r: bool)
    ensures platform == "win32" ==> r
    ensures IsLinux(platform) ==> (r <==> testOnLinux)
    ensures !IsLinux(platform) ==> (r <==> platform == "win32")
  {
    if platform == "linux" || platform == "linux2" then
      false || testOnLinux
    else if platform == "darwin" then
      false
    else if platform == "win32" then
      true
    else
      false
  }

  /** A boolean settings read with default `True`. */
  function ReadFlag(settings: map<string, bool>, key: string): (r: bool)
    ensures key in settings ==> r == settings[key]
    ensures key !in settings ==> r
  {
    if key in settings then settings[key] else true
  }

  /** One `setValue` call on the settings store. */
  datatype Write = Write(key: string, value: bool)

  /** The settings obtained from `settings` by performing `writes` in order. */
  ghost function Replay(settings: map<string, bool>, writes: seq<Write>): map<string, bool>
    decreases |writes|
  {
    if writes == [] then settings
    else
      var last := writes[|writes| - 1];
      Replay(settings, writes[..|writes| - 1])[last.key := last.value]
  }

  /** How many of `writes` set `key`. */
  ghost function CountWrites(writes: seq<Write>, key: string): nat
    decreases |writes|
  {
    if writes == [] then 0
    else CountWrites(writes[..|writes| - 1], key) + (if writes[|writes| - 1].key == key then 1 else 0)
  }

  /** A call of `certs_importer.run`: it returned a value, or it raised an
      `Exception` (a failed `from certs_importer import run` raises into the
      same handler). A `BaseException` that escapes the handler is not modelled. */
  datatype ImporterOutcome = Returned(value: bool) | Raised

  /** The value `run_triggered` stores under `import_successfully_run`. */
  function StoredFlag(outcome: ImporterOutcome): (r: bool)
    ensures r <==> outcome == Returned(true)
    ensures outcome.Returned? ==> r == outcome.value
  {
    match outcome
    case Returned(b) => b
    case Raised => false
  }

  /** Message bar levels. */
  datatype Level = Info | Critical

  /** A message pushed to the host's message bar. */
  datatype Notification = Notification(title: string, text: string, level: Level)

  const SUCCESS_NOTIFICATION := Notification(Tr("Success"), Tr("Intermediate certificates imported correctly (see logs for details)."), Info)
  const ERROR_NOTIFICATION := Notification(Tr("Error"), Tr("There was an error importing intermediate certificates (see the logs for details)."), Critical)

  /** The message a notifying run pushes for `outcome`. */
  function NotificationFor(outcome: ImporterOutcome): (n: Notification)
    ensures n.level == Info <==> outcome.Returned?
    ensures n.level == Critical <==> outcome.Raised?
    ensures n == SUCCESS_NOTIFICATION || n == ERROR_NOTIFICATION
  {
    if outcome.Returned? then SUCCESS_NOTIFICATION else ERROR_NOTIFICATION
  }

  /** One call of `run_triggered`. */
  datatype Attempt = Attempt(notify: bool, outcome: ImporterOutcome)

  /** The messages a history of attempts pushes, in order. */
  function Notifications(attempts: seq<Attempt>): seq<Notification>
    decreases |attempts|
  {
    if attempts == [] then []
    else
      var last := attempts[|attempts| - 1];
      Notifications(attempts[..|attempts| - 1]) + (if last.notify then [NotificationFor(last.outcome)] else [])
  }

  /** Silent attempts (the startup path) never push a message. */
  lemma {:induction false} SilentAttemptsNotifyNothing(attempts: seq<Attempt>)
    requires forall i :: 0 <= i < |attempts| ==> !attempts[i].notify
    ensures Notifications(attempts) == []
    decreases |attempts|
  {
    if attempts != [] {
      SilentAttemptsNotifyNothing(attempts[..|attempts| - 1]);
    }
  }

  /** Every notifying attempt pushes exactly one message, and it is the one
      for that attempt's outcome. */
  lemma {:induction false} NotificationsOfNotifying(attempts: seq<Attempt>)
    ensures |Notifications(attempts)| == |NotifyingOutcomes(attempts)|
    ensures forall k :: 0 <= k < |Notifications(attempts)| ==>
              Notifications(attempts)[k] == NotificationFor(NotifyingOutcomes(attempts)[k])
    decreases |attempts|
  {
    if attempts != [] {
      NotificationsOfNotifying(attempts[..|attempts| - 1]);
    }
  }

  /** The outcomes of the notifying attempts, in order. */
  function NotifyingOutcomes(attempts: seq<Attempt>): seq<ImporterOutcome>
    decreases |attempts|
  {
    if attempts == [] then []
    else
      var last := attempts[|attempts| - 1];
      NotifyingOutcomes(attempts[..|attempts| - 1]) + (if last.notify then [last.outcome] else [])
  }

  /** What `import_successfully_run` reads after `attempts`, starting from `initial`. */
  function LastOutcome(initial: bool, attempts: seq<Attempt>): bool
  {
    if attempts == [] then initial else StoredFlag(attempts[|attempts| - 1].outcome)
  }

  /** The plugin's menu entries. */
  datatype Action = SettingAction | RunAction | AboutAction

  /** A call of `addPluginToMenu` or `removePluginMenu`. */
  datatype MenuCall = AddToMenu(action: Action) | RemoveFromMenu(action: Action)

  class OsCertificateStore {
    /** `sys.platform`. */
    const platform: string
    /** The module-level `TEST_ON_LINUX` flag. */
    const testOnLinux: bool
    /** The persisted settings when the plugin was constructed. */
    ghost const initialSettings: map<string, bool>

    /** The settings store. */
    var settings: map<string, bool>
    /** Messages pushed to the message bar, oldest first. */
    var notifications: seq<Notification>
    /** `action_setting is not None`, and the check state of that action. */
    var actionSetting: bool
    var settingChecked: bool
    /** `action_run is not None`. */
    var actionRun: bool
    /** `action_about is not None`. */
    var actionAbout: bool
    /** Menu registrations, oldest first. */
    var menuCalls: seq<MenuCall>

    /** Every settings write and every run of the importer since construction. */
    ghost var writes: seq<Write>
    ghost var attempts: seq<Attempt>

    function Supported(): bool
    {
      IsSupported(platform, testOnLinux)
    }

    function Flag(key: string): bool
      reads this
    {
      ReadFlag(settings, key)
    }

    ghost predicate Valid()
      reads this
    {
      // the store holds exactly what the recorded writes made of it
      settings == Replay(initialSettings, writes) &&
      // one outcome write per attempt, and the flag reflects the latest one
      CountWrites(writes, IMPORT_SUCCESSFULLY_RUN_KEY) == |attempts| &&
      ReadFlag(settings, IMPORT_SUCCESSFULLY_RUN_KEY) ==
        LastOutcome(ReadFlag(initialSettings, IMPORT_SUCCESSFULLY_RUN_KEY), attempts) &&
      // the message bar shows one message per notifying attempt
      notifications == Notifications(attempts) &&
      // on an unsupported platform the plugin does nothing at all
      (!Supported() ==>
         writes == [] && attempts == [] && menuCalls == [] &&
         !actionSetting && !actionRun && !actionAbout)
    }

    /** `__init__`: on a supported platform, runs the import silently when
        `import_enabled` holds. */
    constructor (platform: string, testOnLinux: bool, settings: map<string, bool>, importer: ImporterOutcome)
      ensures Valid()
      ensures this.platform == platform && this.testOnLinux == testOnLinux
      ensures initialSettings == settings
      ensures !actionSetting && !actionRun && !actionAbout && menuCalls == [] && notifications == []
      ensures var runs := IsSupported(platform, testOnLinux) && ReadFlag(settings, IMPORT_ENABLED_KEY);
              && attempts == (if runs then [Attempt(false, importer)] else [])
              && writes == (if runs then [Write(IMPORT_SUCCESSFULLY_RUN_KEY, StoredFlag(importer))] else [])
              && this.settings == (if runs then settings[IMPORT_SUCCESSFULLY_RUN_KEY := StoredFlag(importer)] else settings)
    {
      this.platform := platform;
      this.testOnLinux := testOnLinux;
      this.initialSettings := settings;
      this.settings := settings;
      notifications := [];
      actionSetting, settingChecked, actionRun, actionAbout := false, false, false, false;
      menuCalls := [];
      writes := [];
      attempts := [];
      new;
      if IsSupported(platform, testOnLinux) && ReadFlag(settings, IMPORT_ENABLED_KEY) {
        RunTriggered(false, importer);
      }
    }

    /** `run_triggered(notify)`: runs the importer, stores its outcome and,
        when `notify` holds, pushes one message for it. No exception escapes. */
    method RunTriggered(notify: bool, importer: ImporterOutcome)
      modifies this
      ensures settings == old(settings)[IMPORT_SUCCESSFULLY_RUN_KEY := StoredFlag(importer)]
      ensures writes == old(writes) + [Write(IMPORT_SUCCESSFULLY_RUN_KEY, StoredFlag(importer))]
      ensures attempts == old(attempts) + [Attempt(notify, importer)]
      ensures notifications == old(notifications) + (if notify then [NotificationFor(importer)] else [])
      ensures actionSetting == old(actionSetting) && settingChecked == old(settingChecked)
      ensures actionRun == old(actionRun) && actionAbout == old(actionAbout) && menuCalls == old(menuCalls)
      ensures old(Valid()) && Supported() ==> Valid()
    {
      attempts := attempts + [Attempt(notify, importer)];
      match importer
      case Returned(b) =>
        settings := settings[IMPORT_SUCCESSFULLY_RUN_KEY := b];
        writes := writes + [Write(IMPORT_SUCCESSFULLY_RUN_KEY, b)];
        if notify {
          notifications := notifications + [SUCCESS_NOTIFICATION];
        }
      case Raised =>
        settings := settings[IMPORT_SUCCESSFULLY_RUN_KEY := false];
        writes := writes + [Write(IMPORT_SUCCESSFULLY_RUN_KEY, false)];
        if notify {
          notifications := notifications + [ERROR_NOTIFICATION];
        }
      assert writes[..|writes| - 1] == old(writes);
      assert attempts[..|attempts| - 1] == old(attempts);
    }

    /** `initGui`: creates the setting and about actions, and the reimport
        action when `import_successfully_run` or `TEST_ON_LINUX` holds. */
    method InitGui()
      requires Valid()
      modifies this
      ensures Valid()
      ensures !Supported() ==> unchanged(this)
      ensures Supported() ==>
                actionSetting && actionAbout &&
                settingChecked == Flag(IMPORT_ENABLED_KEY) &&
                actionRun == (old(actionRun) || Flag(IMPORT_SUCCESSFULLY_RUN_KEY) || testOnLinux)
      ensures Supported() ==>
                menuCalls == old(menuCalls) + [AddToMenu(SettingAction)]
                  + (if Flag(IMPORT_SUCCESSFULLY_RUN_KEY) || testOnLinux then [AddToMenu(RunAction)] else [])
                  + [AddToMenu(AboutAction)]
      ensures settings == old(settings) && writes == old(writes) && attempts == old(attempts)
      ensures notifications == old(notifications)
    {
      if !Supported() {
        return;
      }
      actionSetting := true;
      settingChecked := Flag(IMPORT_ENABLED_KEY);
      menuCalls := menuCalls + [AddToMenu(SettingAction)];
      if Flag(IMPORT_SUCCESSFULLY_RUN_KEY) || testOnLinux {
        actionRun := true;
        menuCalls := menuCalls + [AddToMenu(RunAction)];
      }
      actionAbout := true;
      menuCalls := menuCalls + [AddToMenu(AboutAction)];
    }

    /** `unload`: removes the menu entries, the reimport one only if that
        action was created. The action fields keep their values. */
    method Unload()
      requires Valid()
      modifies this
      ensures Valid()
      ensures !Supported() ==> unchanged(this)
      ensures Supported() ==>
                menuCalls == old(menuCalls) + [RemoveFromMenu(AboutAction), RemoveFromMenu(SettingAction)]
                  + (if actionRun then [RemoveFromMenu(RunAction)] else [])
      ensures actionSetting == old(actionSetting) && settingChecked == old(settingChecked)
      ensures actionRun == old(actionRun) && actionAbout == old(actionAbout)
      ensures settings == old(settings) && writes == old(writes) && attempts == old(attempts)
      ensures notifications == old(notifications)
    {
      if !Supported() {
        return;
      }
      menuCalls := menuCalls + [RemoveFromMenu(AboutAction), RemoveFromMenu(SettingAction)];
      if actionRun {
        menuCalls := menuCalls + [RemoveFromMenu(RunAction)];
      }
    }

    /** `setting_changed`: stores the check state of the setting action as
        `import_enabled`; runs nothing. */
    method SettingChanged()
      requires Valid()
      requires Supported() ==> actionSetting
      modifies this
      ensures Valid()
      ensures !Supported() ==> unchanged(this)
      ensures Supported() ==>
                settings == old(settings)[IMPORT_ENABLED_KEY := settingChecked] &&
                writes == old(writes) + [Write(IMPORT_ENABLED_KEY, settingChecked)]
      ensures Flag(IMPORT_SUCCESSFULLY_RUN_KEY) == old(Flag(IMPORT_SUCCESSFULLY_RUN_KEY))
      ensures attempts == old(attempts) && notifications == old(notifications)
      ensures actionSetting == old(actionSetting) && settingChecked == old(settingChecked)
      ensures actionRun == old(actionRun) && actionAbout == old(actionAbout) && menuCalls == old(menuCalls)
    {
      if !Supported() {
        return;
      }
      assert |IMPORT_ENABLED_KEY| != |IMPORT_SUCCESSFULLY_RUN_KEY|;
      settings := settings[IMPORT_ENABLED_KEY := settingChecked];
      writes := writes + [Write(IMPORT_ENABLED_KEY, settingChecked)];

      assert writes[..|writes| - 1] == old(writes);
    }

    /** The user clicks the checkable setting action: Qt flips its check
        state and emits `changed`, which is connected to `setting_changed`. */
    method ToggleSetting()
      requires Valid() && actionSetting
      modifies this
      ensures Valid()
      ensures actionSetting && settingChecked == !old(settingChecked)
      ensures settings == old(settings)[IMPORT_ENABLED_KEY := settingChecked]
      ensures writes == old(writes) + [Write(IMPORT_ENABLED_KEY, settingChecked)]
      ensures Flag(IMPORT_ENABLED_KEY) == settingChecked
      ensures Flag(IMPORT_SUCCESSFULLY_RUN_KEY) == old(Flag(IMPORT_SUCCESSFULLY_RUN_KEY))
      ensures attempts == old(attempts) && notifications == old(notifications)
      ensures actionRun == old(actionRun) && actionAbout == old(actionAbout) && menuCalls == old(menuCalls)
    {
      settingChecked := !settingChecked;
      SettingChanged();
    }

    /** The user triggers the reimport action, connected to
        `partial(run_triggered, True)`: the import runs whatever
        `import_enabled` says, and one message is pushed. */
    method ReimportTriggered(importer: ImporterOutcome)
      requires Valid() && actionRun
      modifies this
      ensures Valid()
      ensures settings == old(settings)[IMPORT_SUCCESSFULLY_RUN_KEY := StoredFlag(importer)]
      ensures writes == old(writes) + [Write(IMPORT_SUCCESSFULLY_RUN_KEY, StoredFlag(importer))]
      ensures Flag(IMPORT_SUCCESSFULLY_RUN_KEY) == StoredFlag(importer)
      ensures Flag(IMPORT_ENABLED_KEY) == old(Flag(IMPORT_ENABLED_KEY))
      ensures attempts == old(attempts) + [Attempt(true, importer)]
      ensures notifications == old(notifications) + [NotificationFor(importer)]
      ensures actionSetting == old(actionSetting) && settingChecked == old(settingChecked)
      ensures actionRun && actionAbout == old(actionAbout) && menuCalls == old(menuCalls)
    {
      assert |IMPORT_ENABLED_KEY| != |IMPORT_SUCCESSFULLY_RUN_KEY|;
      RunTriggered(true, importer);
    }
  }

  /** A manual reimport whose importer raises stores `false` and pushes
      exactly one critical message. */
  method ManualRaiseScenario() returns (stored: bool, pushed: seq<Notification>)
    ensures !stored
    ensures pushed == [ERROR_NOTIFICATION] && pushed[0].level == Critical
  {
    var plugin := new OsCertificateStore("win32", false, map[], Returned(true));
    assert plugin.notifications == [];
    plugin.InitGui();
    plugin.ReimportTriggered(Raised);
    stored := plugin.Flag(IMPORT_SUCCESSFULLY_RUN_KEY);
    pushed := plugin.notifications;
  }

  /** Unticking the setting and restarting runs no import: the new plugin
      leaves the settings it was given as they were. */
  method DisableThenRestartScenario() returns (before: map<string, bool>, after: map<string, bool>)
    ensures !ReadFlag(before, IMPORT_ENABLED_KEY)
    ensures after == before
  {
    var first := new OsCertificateStore("win32", false, map[], Returned(true));
    first.InitGui();
    first.ToggleSetting();
    before := first.settings;
    var second := new OsCertificateStore("win32", false, before, Raised);
    assert second.attempts == [];
    after := second.settings;
  }
}
