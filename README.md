# OS Certificate Store plugin: import gating and plugin details

This project models the logic of the QGIS plugin "OS Certificate Store". On startup or at the
user's request, the plugin imports the operating system's intermediate certificate authorities.
Two parts of `oscertstore/plugin.py` are modelled:

- **Import gating** (`store.dfy`, module `OsCertStore`). Class `OsCertificateStore` holds:
  - the platform string (`sys.platform`);
  - the `TEST_ON_LINUX` development flag, as a constant;
  - the settings store, as a `map<string, bool>` where a missing key reads as `true`;
  - a sequence of message-bar notifications;
  - one flag per menu action the plugin has created;
  - a log of the menu registrations it has made.

  It has the plugin's lifecycle operations: construction (the startup import), `initGui`,
  `unload`, `setting_changed` and `run_triggered`. It also has the two user events wired to
  actions: toggling the setting checkbox, and triggering the reimport action.

  The foreign importer `certs_importer.run` is given as an `ImporterOutcome`: it either
  `Returned` a boolean or `Raised`. Ghost fields record every settings write and every import
  attempt. The invariant `Valid()` ties these records to the state:
  - the settings are the replay of the recorded writes;
  - each attempt made exactly one write to `import_successfully_run`, and the flag holds the
    latest attempt's outcome;
  - the notifications are exactly those of the attempts that notify;
  - on an unsupported platform nothing was written, run, created or registered.

- **Plugin details** (`details.dfy`, module `PluginInfo`). `_pluginDetails` builds the HTML of
  the "About" dialog. Here it is a pure concatenation over a `PluginMetadata` record that holds
  the installer's string fields. Its contract and the lemmas prove:
  - the fixed frame;
  - that each optional section appears exactly when its field is non-empty;
  - the "More info" line;
  - the three author forms;
  - the display of installed version `-1` as `?`;
  - that newlines in the about text and the changelog become `<br/>`.

Three behaviours of the code that a reader might not expect:

- Only the platform gate's Linux branch honours `TEST_ON_LINUX` (`oscertstore/plugin.py:80-82`).
  Darwin and unknown platforms are unsupported whatever the flag says. On a supported platform,
  win32 included, the flag still forces the reimport action to be created
  (`oscertstore/plugin.py:104`).
- The flag stored after a run is the importer's own return value (`oscertstore/plugin.py:156`).
  It is not a constant `true` on success.
- A notifying run whose importer returns `False` still pushes the INFO "Success" message.

## Model

| member | source | states |
|---|---|---|
| OsCertStore.IsSupported | oscertstore/plugin.py:78-90 | `win32` is always supported. `linux`/`linux2` are supported exactly when `TEST_ON_LINUX` holds. Every other platform, `darwin` included, is unsupported whatever the flag says. |
| OsCertStore.ReadFlag | oscertstore/plugin.py:70 | A settings read returns the stored value when the key is present and `True` when it is missing. |
| OsCertStore.StoredFlag | oscertstore/plugin.py:154-161 | The stored `import_successfully_run` is `true` exactly when the importer returned `True`. It is the returned value on a normal return and `false` when the importer raised. |
| OsCertStore.NotificationFor | oscertstore/plugin.py:157-163 | A notifying run pushes INFO exactly when the importer returned (even `False`) and CRITICAL exactly when it raised. The message is either the success message or the error message. |
| OsCertStore.SilentAttemptsNotifyNothing | oscertstore/plugin.py:69-71 | A history made only of silent runs (the startup path) pushes no message at all. |
| OsCertStore.NotificationsOfNotifying | oscertstore/plugin.py:157-163 | Each notifying attempt pushes exactly one message, in order, and it is the message for that attempt's outcome. |
| OsCertStore.OsCertificateStore.constructor | oscertstore/plugin.py:53-71 | All three action fields start absent and no message is pushed. On an unsupported platform no settings are written and nothing runs. On a supported platform the import runs exactly once, silently, if and only if `import_enabled` (default true) holds, and its outcome is stored. |
| OsCertStore.OsCertificateStore.RunTriggered | oscertstore/plugin.py:152-163 | Makes exactly one write: `import_successfully_run` becomes the stored outcome. Records one attempt. Pushes the outcome's message only when `notify` holds. Touches no action. Returns normally in both outcomes, so no `Exception` escapes. Keeps `Valid()` on a supported platform. |
| OsCertStore.OsCertificateStore.InitGui | oscertstore/plugin.py:92-116 | Unsupported: changes nothing. Supported: creates the setting action, checked to `import_enabled`, and the about action. Creates the reimport action exactly when `import_successfully_run` (default true) or `TEST_ON_LINUX` holds. Registers the actions in source order and changes no setting. |
| OsCertStore.OsCertificateStore.Unload | oscertstore/plugin.py:122-142 | Unsupported: changes nothing. Supported: unregisters the about and setting actions, and the reimport action only if it was created. Leaves the action fields and the settings alone. |
| OsCertStore.OsCertificateStore.SettingChanged | oscertstore/plugin.py:145-149 | Unsupported: changes nothing. Supported: writes `import_enabled` equal to the checkbox state, as one recorded write. Runs no import, pushes nothing, and leaves `import_successfully_run` unchanged. |
| OsCertStore.OsCertificateStore.ToggleSetting | oscertstore/plugin.py:96-100 | Clicking the checkable setting action flips its state while the action stays in place. The settings gain the one write `import_enabled := ` the new state, and nothing else. No import runs, no message is pushed, `import_successfully_run` is unchanged, and the other actions and menu calls stay as they were. |
| OsCertStore.OsCertificateStore.ReimportTriggered | oscertstore/plugin.py:104-108 | The reimport action runs the import with `notify = true` whatever `import_enabled` says. The settings gain exactly one write, `import_successfully_run := ` the stored outcome, and nothing else changes in them. It pushes exactly one message for the outcome and leaves the actions and menu calls alone. |
| OsCertStore.ManualRaiseScenario | oscertstore/plugin.py:159-163 | A manual reimport whose importer raises stores `false` and pushes exactly one CRITICAL message. |
| OsCertStore.DisableThenRestartScenario | oscertstore/plugin.py:145-149 | After the user unticks the setting, a freshly started plugin runs no import: the settings it was given stay as they were. |
| PluginInfo.ReplaceNewlines | oscertstore/plugin.py:186 | `str.replace('\n', '<br/>')`: no newline remains, newline-free text is unchanged, and the result is never shorter. |
| PluginInfo.ReplaceNewlinesConcat | oscertstore/plugin.py:231-232 | Replacing newlines in a concatenation equals concatenating the replaced parts. |
| PluginInfo.ReplaceNewlinesLength | oscertstore/plugin.py:186 | The result's length is the input's length plus four per newline. |
| PluginInfo.ReplaceNewlinesAround | oscertstore/plugin.py:231-232 | Newline-free text around a piece passes through the replacement unchanged. |
| PluginInfo.PluginDetails | oscertstore/plugin.py:177-237 | `_pluginDetails`: the page is the fixed frame around `Content(p)`, the sections in source order. It starts with the style sheet, `<body>` and the table opening, ends with `</td></tr></table></body>`, and is exactly as long as the frame plus the content. The lemmas below state the sections' properties. |
| PluginInfo.OptionalSections | oscertstore/plugin.py:185-232 | The about, category, tags, each link, installed version, available version and changelog sections are each non-empty exactly when their field is non-empty. |
| PluginInfo.MoreInfoLine | oscertstore/plugin.py:196-208 | The "More info" section is present exactly when homepage, tracker or code repository is non-empty. It then starts with `More info:`, and `More info:` occurs in the page. |
| PluginInfo.AuthorForms | oscertstore/plugin.py:212-217 | A non-empty e-mail gives the mailto link form. Otherwise a non-empty name gives the plain-name form. Otherwise the author part is empty, and it is empty only then. |
| PluginInfo.InstalledVersionShown | oscertstore/plugin.py:219-224 | An installed version of `-1` is shown as `?`. Any other non-empty version is shown verbatim, with its library. |
| PluginInfo.NewlinesBecomeBreaks | oscertstore/plugin.py:185-186 | Neither the about section nor the changelog section contains a newline. The about section is the about text with newlines replaced. |
| PluginInfo.ChangelogBreaks | oscertstore/plugin.py:229-232 | Replacing newlines over the whole formatted changelog line changes only the changelog text. The section is `<br/>Changelog:<br/>`, then the replaced changelog, then ` <br/>`. |

## Left out

- Menu, icons and dialogs: QAction, QIcon and menu objects are reduced to creation flags, a check state and a log of add/remove calls. The `about_triggered` dialog is not modelled.
- Logging: the `QgsMessageLog` calls (`log`) are not modelled.
- Tester and lessons: the best-effort registration of the `qgistester` test module and the removal of the lessons folder are not modelled. They are `try/except: pass` foreign imports with no effect on the modelled state.
- `certs_importer.run`: its source is not part of this model. Each call that runs it takes its outcome as a parameter. A non-boolean return value is not modelled.
- Exceptions caught: `Raised` stands only for an exception derived from `Exception`, the only kind the handler at `oscertstore/plugin.py:159` catches. A failing `from certs_importer import run` (an `ImportError`) is one of these.
- Exceptions not caught: a `BaseException` that is not an `Exception` (`SystemExit`, `KeyboardInterrupt`, `GeneratorExit`) leaves `run_triggered` before either `setValue` call. At startup it also leaves `__init__`, and nothing is written. This case is not modelled; the "one outcome write per attempt" invariant holds only for attempts that return or raise an `Exception`.
- `TEST_ON_LINUX` is read from the settings store once, at module load, with default `False`. Here it is a constructor parameter.
- Persistence: the settings store is an in-memory map handed to the constructor. There is no persistence across restarts beyond passing one plugin's settings to the next.
- Host exceptions: `setValue` and `pushMessage` never raise here. In the source, a raise from `pushMessage` after a successful write would enter the except branch and write the flag a second time.
- SettingChanged: requires the setting action to exist on a supported platform. Its only caller is that action's `changed` signal; without the action, the source would fail on `None.isChecked()`.
- Unload: called before `initGui`, the source passes `None` to `removePluginMenu`. Here that is just a recorded removal call.
- `plugins.all()[namespace]`: the installer lookup is host I/O. `_pluginDetails` takes the metadata record as input instead, and a missing namespace is not modelled.
- Tr: it is the identity (`oscertstore/plugin.py:174-175`) and is applied exactly where the source applies it. It has no contract of its own.
- MoreInfoLine: states the "only if" direction at the level of the section, not as the absence of the text `More info:` from the page. Field values are inserted without escaping, so another field could itself contain that text.
- HTML escaping and HTML validity: the source inserts field values raw and promises neither.
