# SAPp-Opener, modelled in Dafny

SAPp-Opener is a small always-on-top launcher window. You type a short
string into it. When the string names a configured shortcut, the launcher
starts that application (section APP of `config.ini`) or opens that web page
(section WEB). Otherwise it cuts the string, by its length, into a SAP
language, system and client, and starts SAP GUI through the `sapshcut.exe`
launcher with the matching `-client=`, `-language=` and `-system=` flags.
The settings live in an INI file. Built-in defaults are merged into that file
at every start, and the window's position is saved there for each screen
resolution. The whole program is `main.py`.

This project models that logic:

- `config_parser.dfy` (module `ConfigParser`) is the part of Python's
  `configparser` the program relies on. Option names are lower-cased.
  Options of DEFAULT are visible through every section. Setting an option
  stores it under its lower-cased name. `getint` parses or fails.
- `numerals.dfy` (module `Numerals`) covers `str(int)` and the integer
  parsing `getint` does. `str` followed by `int` gives the number back.
- `defaults_merge.dfy` (module `DefaultsMerge`) is the merge of the built-in
  defaults into a configuration, as left folds over the sections and their
  options. It also holds the first-run creation of the file contents, and
  the completeness, preservation, scope and idempotence of the merge.
- `settings.dfy` (module `Settings`) holds the `ConfigManager` class. Its
  fields are the parser contents, the launcher path and the default language.
  Its methods are the construction, the creation of the default
  configuration, the merge loops, `write_position` and `get_position`. The
  module also holds the built-in defaults, `get_path`, `get_def_client`, the
  resolution of the launcher path and the position-key format.
- `launcher.dfy` (module `Launcher`) builds the SAP GUI command as an
  imperative sequence of appends. It proves that the flags can be read back
  and come in a fixed order. It also models the platform opener for web
  shortcuts.
- `interpreter.dfy` (module `Interpreter`) is `InputProcessor`: a pure
  function from configuration, default language and input to a launch
  decision `App(path) | Web(url) | Sap(params) | NoAction`.

Conventions of the model:

- Configuration (`ConfigParser.Config`):
  - It is a `map<string, map<string, string>>`.
  - The DEFAULT options are stored under the key `"DEFAULT"`.
  - Neither parser nor store has its own datatype. The configuration map is
    the parser contents.
- Defaults (`DefaultsMerge.Defaults`): they are a sequence of sections, each
  with a sequence of options. This keeps the iteration order of the Python
  dictionary.
- Inputs and outputs: the file-system search for `sapshcut.exe`, the screen
  size, the platform name and what `config.ini` contains are all parameters.
  The processes that would be started are values of `Launcher.Process`.

The code lower-cases the typed input before splitting it. So `QG1` launches
with `-system=qg1`, and the system in the resulting command is always
lower-case.

## Model

| member | source | states |
|---|---|---|
| ConfigParser.Get | main.py:140-143 | configparser lookup: a value exists exactly when the option is visible; the section's own value wins over DEFAULT's |
| ConfigParser.Set | main.py:88-89 | assignment stores the value under the lower-cased name, reads back as that value, and leaves every other section unchanged |
| ConfigParser.HasOption | main.py:140-143 | configparser's `has_option`; its meaning is stated by Get, whose value exists exactly when it holds |
| ConfigParser.SectionFromOptions | main.py:39 | the section `parser[section] = options` creates has exactly the lower-cased option names, all lower-case |
| ConfigParser.SectionFromOptionsAt | main.py:49 | assigning a whole section from distinct options, as the merge and the first run do, gives each option its own value |
| ConfigParser.GetInt | main.py:99-100 | getint with fallback: the fallback when the option is not visible, otherwise the parse of its value |
| Numerals.ParseIntOfIntToString | main.py:88-89 | parsing what `str` wrote for an integer gives that integer back |
| Numerals.IntToStringInjective | main.py:222-223 | distinct integers are written as distinct strings |
| DefaultsMerge.MergeOption | main.py:51-56 | one step of the inner loop keeps every other option, keeps existing values except version, and leaves the option visible |
| DefaultsMerge.MergeOptions | main.py:50-56 | the inner loop keeps the values already present (except version), touches only keys the defaults name, and leaves other sections unchanged |
| DefaultsMerge.MergeSection | main.py:47-56 | a missing section becomes exactly the assigned default section; every section keeps its options and values (except version); the section ends up present; other sections, and keys its defaults do not name, are unchanged |
| DefaultsMerge.MergeSections | main.py:44-57 | the merge keeps every section, key and (except version) value; afterwards every default section exists; sections and keys the defaults do not name are untouched |
| DefaultsMerge.MergeOptionsComplete | main.py:50-56 | after the inner loop every default option is visible in the section, and version equals its default |
| DefaultsMerge.MergeSectionsComplete | main.py:44-57 | after the merge every default section exists and every default option of it is merged |
| DefaultsMerge.MergeSectionsNoOp | main.py:44-57 | merging into a configuration that is already merged changes nothing |
| DefaultsMerge.MergeIdempotent | main.py:44-57 | merging twice gives the same configuration as merging once |
| DefaultsMerge.MissingSectionCopied | main.py:48-49 | a default section that was missing ends up exactly as the default options make it |
| DefaultsMerge.MergeOptionsFillsAbsent | main.py:54-56 | in an existing section, a default option the section did not show ends up with its default value |
| DefaultsMerge.MergeOptionsNoOp | main.py:50-56 | the inner loop changes nothing when every option of its list is already merged |
| DefaultsMerge.DefaultOptionMerged | main.py:44-57 | after the merge, an option of the DEFAULT defaults reads as the configuration's own value when it had one other than version, and as the default otherwise |
| DefaultsMerge.AbsentOptionGetsDefault | main.py:55-56 | an option the configuration did not show ends up with its default value |
| DefaultsMerge.CreateDefault | main.py:34-42 | the created configuration holds only default sections and lower-case option names |
| DefaultsMerge.CreateDefaultAt | main.py:39-40 | each created section is exactly its default options |
| DefaultsMerge.CreateThenMergeUnchanged | main.py:24-29 | a freshly created configuration is already merged, so the first-run merge leaves it unchanged |
| Settings.DefaultConfig | main.py:59-79 | the built-in defaults, in dictionary order; see DefaultConfigWellFormed |
| Settings.DefaultConfigWellFormed | main.py:59-79 | the built-in defaults have four distinct sections with non-colliding options, with version, sapshcut_path and default_sap_lang in DEFAULT |
| Settings.GetPath | main.py:138-145 | the APP value tagged APP when the name is in APP; the WEB value tagged WEB only when it is not in APP; None exactly when it is in neither |
| Settings.AppBeforeWeb | main.py:140-141 | a name stored in APP resolves to APP's value even when WEB has it too |
| Settings.WebOnlyWhenNotInApp | main.py:142-143 | a WEB result implies that APP does not store the name, that DEFAULT does not either when APP exists, and that WEB exists |
| Settings.GetDefClient | main.py:121-123 | the per-system client stored in DEFAULT_SAP_CLIENT, else DEFAULT's value for the system; None exactly when neither has it |
| Settings.FindSapShortcut | main.py:125-136 | the configured launcher path when DEFAULT has one, else the search result; see ResolvedSapPath |
| Settings.SapPath | main.py:31 | a non-empty configured path, else `find_sapshcut_exe`; see ResolvedSapPath |
| Settings.DefaultLang | main.py:32 | the configured default language, else EN; see ResolvedDefaultLang |
| Settings.DefaultOptionAfterMerge | main.py:44-69 | after the merge each DEFAULT option keeps a value it had, takes the built-in value otherwise, and version always takes the built-in value |
| Settings.ResolvedSapPath | main.py:28-31 | the launcher path after start-up is the configured one when the file had one, otherwise the search result |
| Settings.ResolvedDefaultLang | main.py:32 | the default language after start-up is the configured one, else EN |
| Settings.PositionKeyX | main.py:222 | the `position_x_{w}x{h}` option name; see PositionKeysDistinct and PositionKeyInjective |
| Settings.PositionKeyY | main.py:223 | the `position_y_{w}x{h}` option name; see PositionKeysDistinct and PositionKeyInjective |
| Settings.PositionKeysDistinct | main.py:222-223 | the two position keys are already lower-case and differ, so writing one never overwrites the other |
| Settings.PositionKeyInjective | main.py:222-233 | different screen sizes give different position keys |
| Settings.SplitAtX | main.py:222 | a `{w}x{h}` key splits at its first `x` into the same width and height text |
| Settings.WrittenPosition | main.py:86-90 | writing a position sets DEFAULT[key_x] and DEFAULT[key_y] to the integers' text and changes nothing else |
| Settings.WrittenPositionReadsBack | main.py:86-100 | reading the two keys back with getint gives x and y |
| Settings.FirstRun | main.py:24-29 | a first run names the search result as the launcher path, and the merge leaves the created configuration unchanged |
| Settings.ConfigManager.constructor | main.py:20-32 | start-up: the configuration is the loaded (or, on a first run, created) one merged with the defaults; launcher path and language are resolved from it |
| Settings.ConfigManager.CreateDefaultConfig | main.py:34-42 | the created configuration is the defaults assigned section by section, naming the search result as the launcher path |
| Settings.ConfigManager.AssignSections | main.py:39-40 | the assignment loop produces the fold of the section assignments |
| Settings.ConfigManager.MergeDefaultConfig | main.py:44-57 | the configuration becomes the merge of the old one with the defaults built from it; the launcher path read afterwards is the one the defaults used |
| Settings.ConfigManager.MergeDefaults | main.py:46-56 | the outer loop computes the merge over all default sections |
| Settings.ConfigManager.MergeSectionOptions | main.py:50-56 | the inner loop computes the option-by-option merge of one section |
| Settings.ConfigManager.WritePosition | main.py:86-90 | the configuration becomes the written position and the store stays well formed |
| Settings.ConfigManager.GetPosition | main.py:97-112 | missing keys read as 0; a coordinate greater than the screen extent becomes the extent minus 200, one at most the extent is returned unchanged; a non-integer value is an error |
| Settings.SavedPositionRoundTrip | main.py:222-235 | saving a position for the current screen and loading it gives it back, clamped only where it exceeds the screen |
| Launcher.Flags | main.py:321-328 | the flags appended after the launcher path; see FlagsCount, FlagsInOrder and FlagsDecode |
| Launcher.SapCommand | main.py:314-328 | no command when the launcher path is the "None" sentinel, otherwise the launcher path followed by the flags |
| Launcher.BuildSapCommand | main.py:315-328 | the successive appends produce the launcher path followed by the flags |
| Launcher.FlagsCount | main.py:321-328 | one flag per truthy argument |
| Launcher.FlagsInOrder | main.py:321-328 | every appended argument is a flag, and they appear in the order client, language, system, transaction |
| Launcher.NoTransactionFlag | main.py:327-328 | without a truthy transaction no argument is a transaction flag |
| Launcher.FlagValueOfFlag | main.py:321-328 | an argument built from one flag cannot be read as another |
| Launcher.FlagsDecode | main.py:321-328 | reading each flag back from the command gives its argument when that was truthy, and nothing otherwise |
| Launcher.OpenCommand | main.py:283-293 | the URL is the opener's argument after `start`, `open` or `xdg-open` by platform prefix; the shell is used exactly when the platform name starts with win, that is exactly for `start` |
| Interpreter.RunDefaulted | main.py:295-296 | the input is the system; see ProcessUnconfigured |
| Interpreter.RunWithLanguage | main.py:298-301 | two characters of language, then the system; see ProcessUnconfigured and LanguageSystem |
| Interpreter.RunWithSystemClient | main.py:303-306 | three characters of system, then the client; see ProcessUnconfigured and SystemClient |
| Interpreter.RunWithLanguageClient | main.py:308-312 | language, system and client; see ProcessUnconfigured and LanguageSystemClient |
| Interpreter.ProcessUnconfigured | main.py:258-312 | a handler exists exactly for lengths 3, 5, 6 and 8; the system has three characters; the spelled-out parts rebuild the input; an unspelled language is the default and an unspelled client is the system's default; never a transaction |
| Interpreter.ProcessInput | main.py:250-281 | a shortcut decision exactly when get_path finds the lower-cased input; no action exactly when it does not and the length has no handler; never a transaction |
| Interpreter.Started | main.py:270-331 | an application is started by its path without the shell, a URL through the platform opener; a SAP launch produces nothing exactly when the launcher is missing, and otherwise the launcher path followed by the flags, without the shell |
| Interpreter.ShortcutStarted | main.py:270-293 | an APP shortcut starts its stored path, a WEB-only shortcut starts the platform opener on its stored URL |
| Interpreter.CaseInsensitive | main.py:251 | inputs that agree up to case get the same decision |
| Interpreter.LowerCasedFirst | main.py:251 | lower-casing the input beforehand changes nothing |
| Interpreter.ShortcutWins | main.py:252-254 | a name found in APP opens that application whatever its length; a name found only in WEB opens that URL |
| Interpreter.UnconfiguredDispatch | main.py:255-268 | without a shortcut the decision is a SAP launch exactly for lengths 3, 5, 6 and 8, with the parameters of the length dispatch |
| Interpreter.LanguageSystemClient | main.py:308-312 | language, system and client typed together come back as those three parts |
| Interpreter.LanguageSystem | main.py:298-301 | language and system typed together come back as those parts, with the system's default client |
| Interpreter.SystemClient | main.py:303-306 | system and client typed together come back as those parts, with the default language |
| Interpreter.NeverTransaction | main.py:295-328 | a SAP command from the interpreter carries no transaction flag |
| Interpreter.DefaultSeenThroughApp | main.py:140-141 | a DEFAULT option that APP does not override is taken for an APP shortcut |
| Interpreter.FirstRunAppShortcut | main.py:250-254 | on the first-run configuration, `EXCEL` (length 5) opens Excel instead of being split |

## Left out

- The `Window` class and all tkinter code: presentation and event-loop glue.
  The position keys it builds are modelled (`Settings.PositionKeyX`,
  `Settings.PositionKeyY`).
- `Updater`: network I/O, JSON, file download and self-restart.
- Starting processes (`subprocess.Popen`, `subprocess.run`) and their
  errors. The model stops at the process that would be started
  (`Interpreter.Started`).
- `find_sapshcut_exe`'s recursive directory search: its outcome is the
  parameter `searchResult`.
- `get_screen_size`: a Windows API call. The width and height are
  parameters.
- Settings.SavedPositionRoundTrip: one screen size serves both the position
  keys, which the window builds from Tk's `winfo_screenwidth` and
  `winfo_screenheight`, and the clamp, which `get_screen_size` reads from
  `GetSystemMetrics`. The model takes the two to report the same size.
- Reading and writing `config.ini`:
  - `_load_config` and `save` are file I/O;
  - the file's contents are the constructor parameter `file` (None when the
    file does not exist);
  - the re-read after the merge gives back what was just saved, so the model
    keeps the merged map.
- A `config.ini` that configparser cannot parse (an exception at start-up)
  is not modelled.
- All `print` output.
- configparser interpolation (`%(name)s` in values) is not modelled; values
  are taken literally.
- Lower-casing: `ConfigParser.Lower` folds only ASCII letters. Python's
  `str.lower` also folds other Unicode letters.
- Numerals.ParseInt: accepts a sign and ASCII digits only. Python's `int`
  also accepts surrounding whitespace, underscores between digits and
  non-ASCII digits.
- DefaultsMerge.DefaultOptionMerged: requires that the option is named
  exactly `version` or by a name that does not lower-case to it. The merge
  compares names as written, so an option named, say, `Version` would be
  neither overwritten nor kept by `Preserves`. The built-in defaults meet
  this requirement.
- ConfigParser.HasOption: the special case of configparser's `has_option` for
  an empty section name is dropped, because the program only passes fixed
  section names.
- Settings.GetDefClient and Interpreter.ProcessInput require the
  DEFAULT_SAP_CLIENT section. The KeyError Python raises without it is not
  modelled, because the merge at start-up always creates that section
  (`Settings.ConfigManager.Valid`).
- The interpreter takes the configuration, the default language, the
  launcher path and the platform as parameters, rather than reading the
  global `config_manager` and `sys.platform`.
- The `else` branch of `process_configured` ('App type not recognized') is
  absent, because `get_path` only ever tags APP or WEB.
