/**
 * The settings store of the launcher (`ConfigManager`): the built-in
 * defaults, the lookups the input interpreter uses, the resolution of the SAP
 * launcher path and default language, and the window position kept per
 * screen resolution.
 */
module Settings {
  import opened Wrappers
  import opened Numerals
  import opened ConfigParser
  import opened DefaultsMerge

  const CurrentVersion: string := "v.1.1.0"
  const ClientSection: string := "DEFAULT_SAP_CLIENT"
  const AppSection: string := "APP"
  const WebSection: string := "WEB"
  const PathKey: string := "sapshcut_path"
  const LangKey: string := "default_sap_lang"
  const AppName: string := "SAP Opener"
  /** The built-in APP shortcut `excel`. */
  const ExcelPath: string := @"C:\Program Files (x86)\Microsoft Office\root\Office16\EXCEL.EXE"
  /** The built-in WEB shortcut `w`. */
  const WikiUrl: string := "https://pl.wikipedia.org/wiki/"
  /** The language used when the configuration names none. */
  const FallbackLang: string := "EN"

  /**
   * `_default_config` (main.py:59-79). `sapPath` is what `find_sapshcut_exe`
   * returned when the defaults were built.
   */
  function DefaultConfig(sapPath: string): Defaults {
    [
      (DefaultSection, [
        ("app_name", AppName),
        (VersionKey, CurrentVersion),
        ("position_x", "0"),
        ("position_y", "0"),
        (PathKey, sapPath),
        (LangKey, FallbackLang)]),
      (ClientSection, [("QG1", "200")]),
      (AppSection, [("excel", ExcelPath)]),
      (WebSection, [("w", WikiUrl)])
    ]
  }

  /** The built-in defaults name each section once and no two options of a section collide. */
  lemma DefaultConfigWellFormed(sapPath: string)
    ensures var d := DefaultConfig(sapPath);
            && WellFormedDefaults(d)
            && |d| == 4 && d[0].0 == DefaultSection && d[1].0 == ClientSection
            && d[2].0 == AppSection && d[3].0 == WebSection
            && |d[0].1| == 6 && d[0].1[1] == (VersionKey, CurrentVersion)
            && d[0].1[4] == (PathKey, sapPath) && d[0].1[5] == (LangKey, FallbackLang)
  {
    assert Lower("position_x")[9] != Lower("position_y")[9];
  }

  /** The table a shortcut was found in. */
  datatype Kind = AppKind | WebKind

  /**
   * `get_path` (main.py:138-145): APP is consulted before WEB. Through
   * configparser an option of DEFAULT also counts as present in APP.
   */
  function GetPath(cfg: Config, shortcut: string): (r: Option<(string, Kind)>)
    ensures HasOption(cfg, AppSection, shortcut) ==>
              r == Some((Get(cfg, AppSection, shortcut).value, AppKind))
    ensures !HasOption(cfg, AppSection, shortcut) && HasOption(cfg, WebSection, shortcut) ==>
              r == Some((Get(cfg, WebSection, shortcut).value, WebKind))
    ensures r.None? <==> !HasOption(cfg, AppSection, shortcut) && !HasOption(cfg, WebSection, shortcut)
  {
    if HasOption(cfg, AppSection, shortcut) then Some((Get(cfg, AppSection, shortcut).value, AppKind))
    else if HasOption(cfg, WebSection, shortcut) then Some((Get(cfg, WebSection, shortcut).value, WebKind))
    else None
  }

  /** A name stored in APP resolves to its APP entry even when WEB stores it too. */
  lemma AppBeforeWeb(cfg: Config, shortcut: string)
    requires AppSection in cfg && Lower(shortcut) in cfg[AppSection]
    ensures GetPath(cfg, shortcut) == Some((cfg[AppSection][Lower(shortcut)], AppKind))
  {
  }

  /** A WEB entry is used only for a name that APP and DEFAULT do not show. */
  lemma WebOnlyWhenNotInApp(cfg: Config, shortcut: string)
    requires GetPath(cfg, shortcut).Some? && GetPath(cfg, shortcut).value.1 == WebKind
    ensures Lower(shortcut) !in SectionOf(cfg, AppSection)
    ensures AppSection in cfg ==> Lower(shortcut) !in SectionOf(cfg, DefaultSection)
    ensures WebSection in cfg
  {
    assert AppSection != DefaultSection by { assert |AppSection| != |DefaultSection|; }
  }

  /**
   * `get_def_client` (main.py:121-123). Indexing the section raises KeyError
   * when it is missing, hence the precondition; the merge always creates it.
   */
  function GetDefClient(cfg: Config, system: string): (r: Option<string>)
    requires ClientSection in cfg
    ensures Lower(system) in cfg[ClientSection] ==> r == Some(cfg[ClientSection][Lower(system)])
    ensures r.None? <==> Lower(system) !in cfg[ClientSection] && Lower(system) !in SectionOf(cfg, DefaultSection)
    ensures r.Some? && Lower(system) !in cfg[ClientSection] ==> r.value == SectionOf(cfg, DefaultSection)[Lower(system)]
  {
    assert ClientSection != DefaultSection by { assert |ClientSection| != |DefaultSection|; }
    Get(cfg, ClientSection, system)
  }

  /**
   * `find_sapshcut_exe` (main.py:125-136): the configured path when DEFAULT
   * has one, otherwise `searchResult`, the outcome of the file-system search
   * (a path, or Launcher.NotFound).
   */
  function FindSapShortcut(cfg: Config, searchResult: string): string {
    if HasOption(cfg, DefaultSection, PathKey) then Get(cfg, DefaultSection, PathKey).value else searchResult
  }

  /** `self.sappath` (main.py:31): a non-empty configured path, else the search. */
  function SapPath(cfg: Config, searchResult: string): string {
    var v := Get(cfg, DefaultSection, PathKey);
    if v.Some? && v.value != "" then v.value else FindSapShortcut(cfg, searchResult)
  }

  /** `self.default_lang` (main.py:32). */
  function DefaultLang(cfg: Config): string {
    Get(cfg, DefaultSection, LangKey).GetOr(FallbackLang)
  }

  /**
   * After the merge, a DEFAULT option holds the value the configuration had,
   * or the built-in value when it had none; `version` always holds the
   * built-in value.
   */
  lemma DefaultOptionAfterMerge(cfg: Config, sapPath: string, j: nat)
    requires j < 6
    ensures var (key, value) := DefaultConfig(sapPath)[0].1[j];
            Get(MergeSections(cfg, DefaultConfig(sapPath)), DefaultSection, key) ==
              if HasOption(cfg, DefaultSection, key) && key != VersionKey then Get(cfg, DefaultSection, key)
              else Some(value)
  {
    DefaultConfigWellFormed(sapPath);
    DefaultOptionMerged(cfg, DefaultConfig(sapPath), j);
  }

  /**
   * The launcher path the store ends up with (main.py:28-31): the configured
   * one when the loaded configuration had one, otherwise the search result.
   */
  lemma ResolvedSapPath(cfg: Config, searchResult: string)
    ensures var found := FindSapShortcut(cfg, searchResult);
            SapPath(MergeSections(cfg, DefaultConfig(found)), searchResult) == found
  {
    var found := FindSapShortcut(cfg, searchResult);
    DefaultOptionAfterMerge(cfg, found, 4);
  }

  /** The default language after the merge: the configured one, else "EN". */
  lemma ResolvedDefaultLang(cfg: Config, sapPath: string)
    ensures DefaultLang(MergeSections(cfg, DefaultConfig(sapPath))) ==
              if HasOption(cfg, DefaultSection, LangKey) then Get(cfg, DefaultSection, LangKey).value
              else FallbackLang
  {
    DefaultOptionAfterMerge(cfg, sapPath, 5);
  }

  /** The option name of the saved x coordinate for a w-by-h screen (main.py:222, 232). */
  function PositionKeyX(w: int, h: int): string {
    "position_x_" + IntToString(w) + "x" + IntToString(h)
  }

  /** The option name of the saved y coordinate for a w-by-h screen (main.py:223, 233). */
  function PositionKeyY(w: int, h: int): string {
    "position_y_" + IntToString(w) + "x" + IntToString(h)
  }

  lemma IntToStringIsLower(x: int)
    ensures IsLower(IntToString(x))
  {
  }

  /**
   * The two keys of one resolution are distinct option names, and
   * configparser stores them unchanged.
   */
  lemma PositionKeysDistinct(w: int, h: int)
    ensures Lower(PositionKeyX(w, h)) == PositionKeyX(w, h)
    ensures Lower(PositionKeyY(w, h)) == PositionKeyY(w, h)
    ensures Lower(PositionKeyX(w, h)) != Lower(PositionKeyY(w, h))
  {
    IntToStringIsLower(w);
    IntToStringIsLower(h);
    LowerOfLower(PositionKeyX(w, h));
    LowerOfLower(PositionKeyY(w, h));
    assert PositionKeyX(w, h)[9] != PositionKeyY(w, h)[9];
  }

  /** The index of the first 'x' of s, or |s| when there is none. */
  function FirstX(s: string): (n: nat)
    ensures n <= |s|
  {
    if s == [] then 0 else if s[0] == 'x' then 0 else 1 + FirstX(s[1..])
  }

  lemma {:induction false} FirstXAfterNumeral(a: string, b: string)
    requires forall i :: 0 <= i < |a| ==> a[i] != 'x'
    ensures FirstX(a + "x" + b) == |a|
  {
    if a != [] {
      assert (a + "x" + b)[1..] == a[1..] + "x" + b;
      FirstXAfterNumeral(a[1..], b);
    }
  }

  /** Splitting `a + "x" + b` at its first 'x' recovers a and b when neither numeral has an 'x'. */
  lemma SplitAtX(a: string, b: string, a': string, b': string)
    requires forall i :: 0 <= i < |a| ==> a[i] != 'x'
    requires forall i :: 0 <= i < |a'| ==> a'[i] != 'x'
    requires a + "x" + b == a' + "x" + b'
    ensures a == a' && b == b'
  {
    var s, s' := a + "x" + b, a' + "x" + b';
    FirstXAfterNumeral(a, b);
    FirstXAfterNumeral(a', b');
    assert |a| == |a'|;
    assert a == s[..|a|] && a' == s'[..|a|];
    assert b == s[|a| + 1..] && b' == s'[|a| + 1..];
  }

  /**
   * Different resolutions use different keys, so a position saved on one
   * screen never overwrites the position saved on another.
   */
  lemma PositionKeyInjective(w: int, h: int, w': int, h': int)
    requires PositionKeyX(w, h) == PositionKeyX(w', h') || PositionKeyY(w, h) == PositionKeyY(w', h')
    ensures w == w' && h == h'
  {
    if PositionKeyX(w, h) == PositionKeyX(w', h') {
      SuffixInjective("position_x_", w, h, w', h');
    } else {
      SuffixInjective("position_y_", w, h, w', h');
    }
  }

  /** A key made of a fixed prefix and `{w}x{h}` determines w and h. */
  lemma SuffixInjective(prefix: string, w: int, h: int, w': int, h': int)
    requires prefix + IntToString(w) + "x" + IntToString(h) == prefix + IntToString(w') + "x" + IntToString(h')
    ensures w == w' && h == h'
  {
    var a, b, a', b' := IntToString(w), IntToString(h), IntToString(w'), IntToString(h');
    var s := prefix + a + "x" + b;
    assert s[|prefix|..] == a + "x" + b;
    assert (prefix + a' + "x" + b')[|prefix|..] == a' + "x" + b';
    SplitAtX(a, b, a', b');
    IntToStringInjective(w, w');
    IntToStringInjective(h, h');
  }

  /**
   * The configuration after `write_position` (main.py:86-90): DEFAULT[key_x]
   * is `str(x)`, DEFAULT[key_y] is `str(y)`, and nothing else changes.
   */
  function WrittenPosition(cfg: Config, x: int, y: int, keyX: string, keyY: string): (r: Config)
    ensures forall s | s != DefaultSection :: (s in r <==> s in cfg) && SectionOf(r, s) == SectionOf(cfg, s)
    ensures forall k | k != Lower(keyX) && k != Lower(keyY) ::
              (k in SectionOf(r, DefaultSection) <==> k in SectionOf(cfg, DefaultSection)) &&
              (k in SectionOf(cfg, DefaultSection) ==> SectionOf(r, DefaultSection)[k] == SectionOf(cfg, DefaultSection)[k])
    ensures Lower(keyY) in SectionOf(r, DefaultSection) && SectionOf(r, DefaultSection)[Lower(keyY)] == IntToString(y)
    ensures Lower(keyX) in SectionOf(r, DefaultSection)
    ensures Lower(keyX) != Lower(keyY) ==> SectionOf(r, DefaultSection)[Lower(keyX)] == IntToString(x)
  {
    Set(Set(cfg, DefaultSection, keyX, IntToString(x)), DefaultSection, keyY, IntToString(y))
  }

  /** Reading the two keys back after `write_position` gives the written coordinates. */
  lemma WrittenPositionReadsBack(cfg: Config, x: int, y: int, keyX: string, keyY: string)
    requires Lower(keyX) != Lower(keyY)
    ensures GetInt(WrittenPosition(cfg, x, y, keyX, keyY), DefaultSection, keyX, 0) == Some(x)
    ensures GetInt(WrittenPosition(cfg, x, y, keyX, keyY), DefaultSection, keyY, 0) == Some(y)
  {
    ParseIntOfIntToString(x);
    ParseIntOfIntToString(y);
  }

  /**
   * On a first run the created configuration names the search result as the
   * launcher path, and the merge that follows leaves it as created.
   */
  lemma FirstRun(searchResult: string)
    ensures var start := CreateDefault(DefaultConfig(searchResult));
            && WellFormed(start)
            && FindSapShortcut(start, searchResult) == searchResult
            && MergeSections(start, DefaultConfig(searchResult)) == start
  {
    var d := DefaultConfig(searchResult);
    DefaultConfigWellFormed(searchResult);
    CreateDefaultAt(d, 0);
    SectionFromOptionsAt(d[0].1, 4);
    CreateThenMergeUnchanged(d);
  }

  /** The settings store; `config` is the parser's contents after `__init__`. */
  class ConfigManager {
    var config: Config
    var sappath: string
    var defaultLang: string

    /** The parser's representation, and the sections the interpreter indexes directly. */
    ghost predicate Valid()
      reads this
    {
      WellFormed(config) && ClientSection in config && AppSection in config && WebSection in config
    }

    /**
     * `__init__` (main.py:20-32). `file` is what config.ini holds (None when
     * the file does not exist); `searchResult` is the outcome of the
     * file-system search for the launcher executable.
     */
    constructor (file: Option<Config>, searchResult: string)
      requires file.Some? ==> WellFormed(file.value)
      ensures Valid()
      ensures file.Some? ==>
                config == MergeSections(file.value, DefaultConfig(FindSapShortcut(file.value, searchResult)))
      ensures file.Some? ==> sappath == FindSapShortcut(file.value, searchResult)
      ensures file.None? ==> config == CreateDefault(DefaultConfig(searchResult)) && sappath == searchResult
      ensures defaultLang == DefaultLang(config)
    {
      config := map[];
      sappath := "";
      defaultLang := "";
      new;
      if file.None? {
        CreateDefaultConfig(searchResult);
      } else {
        config := file.value;
      }
      MergeDefaultConfig(searchResult);
      sappath := SapPath(config, searchResult);
      defaultLang := DefaultLang(config);
    }

    /**
     * `_create_default_config` (main.py:34-42) on the freshly constructed,
     * empty parser: every section of the defaults is assigned whole. The
     * `save` that follows is file I/O.
     */
    method CreateDefaultConfig(searchResult: string)
      modifies this
      ensures config == CreateDefault(DefaultConfig(searchResult))
      ensures WellFormed(config) && FindSapShortcut(config, searchResult) == searchResult
      ensures MergeSections(config, DefaultConfig(searchResult)) == config
      ensures sappath == old(sappath) && defaultLang == old(defaultLang)
    {
      var defaults := DefaultConfig(searchResult);
      config := map[];
      AssignSections(defaults);
      FirstRun(searchResult);
    }

    /** The loop of `_create_default_config`: each section is assigned its options whole. */
    method AssignSections(defaults: Defaults)
      requires config == map[]
      modifies this
      ensures config == CreateDefault(defaults)
      ensures sappath == old(sappath) && defaultLang == old(defaultLang)
    {
      for i := 0 to |defaults|
        invariant config == CreateDefault(defaults[..i])
        invariant sappath == old(sappath) && defaultLang == old(defaultLang)
      {
        var (section, options) := defaults[i];
        assert defaults[..i + 1][..i] == defaults[..i];
        config := config[section := SectionFromOptions(options)];
      }
      assert defaults[..|defaults|] == defaults;
    }

    /** `_merge_default_config` (main.py:44-57); the `save` that follows is file I/O. */
    method MergeDefaultConfig(searchResult: string)
      modifies this
      ensures config == MergeSections(old(config), DefaultConfig(FindSapShortcut(old(config), searchResult)))
      ensures sappath == old(sappath) && defaultLang == old(defaultLang)
      ensures SapPath(config, searchResult) == FindSapShortcut(old(config), searchResult)
      ensures old(WellFormed(config)) ==> Valid()
    {
      ghost var start := config;
      ResolvedSapPath(config, searchResult);
      var defaults := DefaultConfig(FindSapShortcut(config, searchResult));
      DefaultConfigWellFormed(FindSapShortcut(config, searchResult));
      MergeDefaults(defaults);
      assert forall i | 0 <= i < |defaults| :: HasSection(config, defaults[i].0);
    }

    /** The outer loop of `_merge_default_config`, over the sections of the defaults. */
    method MergeDefaults(defaults: Defaults)
      modifies this
      ensures config == MergeSections(old(config), defaults)
      ensures sappath == old(sappath) && defaultLang == old(defaultLang)
    {
      ghost var start := config;
      for i := 0 to |defaults|
        invariant config == MergeSections(start, defaults[..i])
        invariant sappath == old(sappath) && defaultLang == old(defaultLang)
      {
        var (section, options) := defaults[i];
        assert defaults[..i + 1][..i] == defaults[..i];
        if !HasSection(config, section) {
          config := config[section := SectionFromOptions(options)];
        } else {
          MergeSectionOptions(section, options);
        }
      }
      assert defaults[..|defaults|] == defaults;
    }

    /** The inner loop of `_merge_default_config`, over the options of one existing section. */
    method MergeSectionOptions(section: string, options: Options)
      requires HasSection(config, section)
      modifies this
      ensures config == MergeOptions(old(config), section, options)
      ensures sappath == old(sappath) && defaultLang == old(defaultLang)
    {
      ghost var start := config;
      for j := 0 to |options|
        invariant HasSection(config, section)
        invariant config == MergeOptions(start, section, options[..j])
        invariant sappath == old(sappath) && defaultLang == old(defaultLang)
      {
        var (key, value) := options[j];
        ghost var before := config;
        if key == VersionKey {
          config := Set(config, section, key, value);
        } else if !HasOption(config, section, key) {
          config := Set(config, section, key, value);
        }
        assert config == MergeOption(before, section, key, value);
        MergeOptionsSnoc(start, section, options, j);
      }
      assert options[..|options|] == options;
    }

    /** `write_position` (main.py:86-90); the `save` that follows is file I/O. */
    method WritePosition(x: int, y: int, keyX: string, keyY: string)
      requires Valid()
      modifies this
      ensures Valid()
      ensures config == WrittenPosition(old(config), x, y, keyX, keyY)
      ensures sappath == old(sappath) && defaultLang == old(defaultLang)
    {
      LowerIsLower(keyX);
      LowerIsLower(keyY);
      config := Set(config, DefaultSection, keyX, IntToString(x));
      config := Set(config, DefaultSection, keyY, IntToString(y));
    }

    /**
     * `get_position` (main.py:97-112), with the screen size passed in. A
     * missing key reads as 0; a coordinate beyond the screen's extent is
     * replaced by the extent minus 200, one equal to the extent is kept. None
     * stands for the ValueError of a stored value that is not an integer.
     */
    method GetPosition(keyX: string, keyY: string, screenWidth: int, screenHeight: int)
      returns (pos: Option<(int, int)>)
      ensures var gx, gy := GetInt(config, DefaultSection, keyX, 0), GetInt(config, DefaultSection, keyY, 0);
              pos.Some? <==> gx.Some? && gy.Some?
      ensures pos.Some? ==>
                var sx, sy := GetInt(config, DefaultSection, keyX, 0).value, GetInt(config, DefaultSection, keyY, 0).value;
                && pos.value.0 <= screenWidth && pos.value.1 <= screenHeight
                && (pos.value.0 == sx <==> sx <= screenWidth)
                && (pos.value.1 == sy <==> sy <= screenHeight)
                && (sx > screenWidth ==> pos.value.0 == screenWidth - 200)
                && (sy > screenHeight ==> pos.value.1 == screenHeight - 200)
    {
      var gx := GetInt(config, DefaultSection, keyX, 0);
      if gx.None? {
        return None;
      }
      var gy := GetInt(config, DefaultSection, keyY, 0);
      if gy.None? {
        return None;
      }
      var x, y := gx.value, gy.value;
      if x > screenWidth {
        x := screenWidth - 200;
      }
      if y > screenHeight {
        y := screenHeight - 200;
      }
      pos := Some((x, y));
    }
  }

  /**
   * Saving the window position for the current resolution and loading it on
   * the same screen (main.py:222-227, 232-235) returns the saved coordinates,
   * clamped only where they exceed the screen. One screen size serves both
   * the key (Tk's `winfo_screenwidth`/`winfo_screenheight`, main.py:222, 232)
   * and the clamp (`GetSystemMetrics`, main.py:102, 117-118): the two are taken to
   * report the same size.
   */
  method SavedPositionRoundTrip(cm: ConfigManager, x: int, y: int, screenWidth: int, screenHeight: int)
    returns (pos: Option<(int, int)>)
    requires cm.Valid()
    modifies cm
    ensures cm.Valid()
    ensures pos == Some((if x > screenWidth then screenWidth - 200 else x,
                         if y > screenHeight then screenHeight - 200 else y))
  {
    var keyX, keyY := PositionKeyX(screenWidth, screenHeight), PositionKeyY(screenWidth, screenHeight);
    PositionKeysDistinct(screenWidth, screenHeight);
    cm.WritePosition(x, y, keyX, keyY);
    WrittenPositionReadsBack(old(cm.config), x, y, keyX, keyY);
    pos := cm.GetPosition(keyX, keyY, screenWidth, screenHeight);
  }
}
